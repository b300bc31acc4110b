// A pass that nothing disturbs: no edit, failure or crash among its calls, a
// fresh view and no dry run. What it leaves on each Machine of a cluster read
// through node conditions follows from which decisions its signals call for,
// whatever order they are taken in.

module QuietPass {
  import opened Text
  import opened Sorting
  import opened Signals
  import opened Decisions
  import opened Machines
  import opened Requests
  import opened Store
  import opened ClusterWorld
  import opened Waits
  import opened Passes
  import opened PassSafety

  predicate Quiet(w: World) { w.alive && w.env == [] }

  /** The pass has the Machine as it is. */
  predicate Synced(w: World, m: Machine) { m.name in w.store.machines && w.store.machines[m.name] == m }

  ghost predicate InSync(st: State) {
    && Quiet(st.w) && OneNodeEach(st.machines)
    && forall n :: n in st.machines ==> Synced(st.w, st.machines[n])
  }

  // ----------------------------------------------------- one call, undisturbed

  lemma QuietRelease(w: World, m: Machine)
    requires Quiet(w) && Synced(w, m)
    ensures
      var (v, r) := Release(w, false, m);
      && Quiet(v) && r.Ok? && Synced(v, r.value)
      && r.value == (if MarkedAction(m).None? || m.deleting then m else Stamped(w.store, Released(m)))
      && v.requests == w.requests
      && (forall n :: n != m.name ==> Find(v.store.machines, n) == Find(w.store.machines, n))
  {
  }

  lemma QuietEscalate(w: World, m: Machine, reason: string)
    requires Quiet(w) && Synced(w, m)
    ensures
      var (v, r) := Escalate(w, false, m, reason);
      && Quiet(v) && r.Ok? && Synced(v, r.value)
      && r.value == (if !MarkedFor(m, ACTION_RESTART) || m.deleting then m else Stamped(w.store, Escalated(m, reason)))
      && v.requests == w.requests
      && (forall n :: n != m.name ==> Find(v.store.machines, n) == Find(w.store.machines, n))
  {
  }

  lemma QuietMark(w: World, m: Machine, reason: string, made: MarkMade)
    requires Quiet(w) && Synced(w, m) && Guard(m).None?
    ensures
      var (v, r) := MarkForRemediation(w, false, m, reason, made);
      && Quiet(v) && r.Ok? && Synced(v, r.value)
      && r.value == Stamped(w.store, Marked(m, made.action, reason, made.record))
      && v.requests == w.requests
      && (forall n :: n != m.name ==> Find(v.store.machines, n) == Find(w.store.machines, n))
  {
    var marked := Marked(m, made.action, reason, made.record);
    assert m.annotations + Changed(m.annotations, marked.annotations) == marked.annotations;
    assert m.(annotations := marked.annotations, name := m.name) == marked;
  }

  // ------------------------------------------------------ marks, in brief

  datatype Kind = Unmarked | ForRestart | ForReplacement | BySomeoneElse

  function KindOf(m: Machine): Kind {
    if !IsMarked(m) then Unmarked
    else if MarkedFor(m, ACTION_RESTART) then ForRestart
    else if MarkedFor(m, ACTION_REMEDIATE) then ForReplacement
    else BySomeoneElse
  }

  /** The Machine but for its version and the mark. */
  function Rest(m: Machine): Machine { m.(version := 0, annotations := Without(m.annotations, MARK_KEYS)) }

  lemma SameRest(a: Machine, b: Machine)
    requires Rest(a) == Rest(b)
    ensures a.name == b.name && a.deleting == b.deleting && a.controlPlane == b.controlPlane && a.health == b.health
    ensures a.namespace == b.namespace && a.cluster == b.cluster
    ensures IsPaused(a) == IsPaused(b) && IsOptedOut(a) == IsOptedOut(b)
  {
    assert IsPaused(a) == (PausedKey in Rest(a).annotations) && IsPaused(b) == (PausedKey in Rest(b).annotations);
    assert IsOptedOut(a) == (SkipRemediationKey in Rest(a).annotations) && IsOptedOut(b) == (SkipRemediationKey in Rest(b).annotations);
  }

  lemma {:induction false} SameCoverage(checks: seq<Check>, a: Machine, b: Machine)
    requires a.name == b.name && a.namespace == b.namespace && a.cluster == b.cluster
    ensures Covering(checks, a) == Covering(checks, b)
  {
    if checks != [] {
      SameCoverage(checks[..|checks| - 1], a, b);
    }
  }

  // ---------------------------------------------------- one signal, undisturbed

  /** What one signal makes of the mark. */
  function KindNext(cfg: Config, view: View, waiting: Waiting, m: Machine, d: Decision): Kind {
    var ask := AskFor(cfg, view, d, m);
    if d.Report? then KindOf(m)
    else if Escalates(ask, d, m) && KindOf(m).ForRestart? && !m.deleting then ForReplacement
    else if Guard(m).Some? then KindOf(m)
    else if ask.asks.Replace? then (if Covered(ask.cov) then ForReplacement else Unmarked)
    else if !ask.unavailable && !HeldForChecks(waiting, m, view.now).0.held then ForRestart
    else Unmarked
  }

  /** A restart that templates can carry out asks the wait of its Machine. */
  predicate AsksWait(cfg: Config, view: View, m: Machine, d: Decision) {
    d.Restart? && TemplatesOnly(CoverageFor(view.checks, m)) && Guard(m).None?
  }

  lemma KindWhenMarked(m: Machine, action: string, reason: string, record: RestartRecord, s: Machinery)
    requires action == ACTION_RESTART || action == ACTION_REMEDIATE
    ensures
      var m' := Stamped(s, Marked(m, action, reason, record));
      KindOf(m') == (if action == ACTION_RESTART then ForRestart else ForReplacement) && Rest(m') == Rest(m)
  {
    ActionsDiffer();
    assert Without(Marked(m, action, reason, record).annotations, MARK_KEYS) == Without(m.annotations, MARK_KEYS);
  }

  lemma KindWhenEscalated(m: Machine, reason: string, s: Machinery)
    ensures
      var m' := Stamped(s, Escalated(m, reason));
      (IsMarked(m) ==> KindOf(m') == ForReplacement) && Rest(m') == Rest(m)
  {
    ActionsDiffer();
    assert Without(Escalated(m, reason).annotations, MARK_KEYS) == Without(m.annotations, MARK_KEYS);
  }

  lemma KindWhenReleased(m: Machine, s: Machinery)
    ensures
      var m' := Stamped(s, Released(m));
      KindOf(m') == Unmarked && !IsMarked(m') && Rest(m') == Rest(m)
  {
    assert Without(Released(m).annotations, MARK_KEYS) == Without(m.annotations, MARK_KEYS);
  }

  lemma Kinds(m: Machine, reason: string, record: RestartRecord, s: Machinery)
    ensures KindOf(Stamped(s, Marked(m, ACTION_RESTART, reason, record))) == ForRestart
    ensures KindOf(Stamped(s, Marked(m, ACTION_REMEDIATE, reason, record))) == ForReplacement
    ensures IsMarked(m) ==> KindOf(Stamped(s, Escalated(m, reason))) == ForReplacement
    ensures KindOf(Stamped(s, Released(m))) == Unmarked
    ensures Rest(Stamped(s, Marked(m, ACTION_RESTART, reason, record))) == Rest(m)
    ensures Rest(Stamped(s, Marked(m, ACTION_REMEDIATE, reason, record))) == Rest(m)
    ensures Rest(Stamped(s, Escalated(m, reason))) == Rest(m)
    ensures Rest(Stamped(s, Released(m))) == Rest(m)
  {
    hide KindOf, Rest, Marked, Escalated, Released, Stamped;
    KindWhenMarked(m, ACTION_RESTART, reason, record, s);
    KindWhenMarked(m, ACTION_REMEDIATE, reason, record, s);
    KindWhenEscalated(m, reason, s);
    KindWhenReleased(m, s);
    ActionsDiffer();
  }

  /** The pass goes on as it was but for the Machine of one node. */
  ghost predicate OnlyNode(st: State, st': State, n: string)
    requires n in st.machines
  {
    && n in st'.machines && st'.machines == st.machines[n := st'.machines[n]]
    && Rest(st'.machines[n]) == Rest(st.machines[n])
    && InSync(st') && st'.w.requests == st.w.requests
  }

  lemma KeepsSync(st: State, n: string, w: World, m: Machine)
    requires InSync(st) && n in st.machines && m.name == st.machines[n].name
    requires Quiet(w) && Synced(w, m)
    requires forall x :: x != m.name ==> Find(w.store.machines, x) == Find(st.w.store.machines, x)
    ensures InSync(st.(w := w, machines := st.machines[n := m]))
  {
    forall k | k in st.machines && k != n ensures Synced(w, st.machines[k]) {
      assert st.machines[k].name != m.name;
      assert Find(w.store.machines, st.machines[k].name) == Find(st.w.store.machines, st.machines[k].name);
    }
  }

  lemma QuietMarkNow(cfg: Config, view: View, st: State, sig: Signal, d: Decision, asks: Decision, m: Machine, obs: Observation)
    requires !cfg.dryRun && InSync(st) && sig.node in st.machines && m == st.machines[sig.node] && Guard(m).None?
    ensures
      var (st', o) := MarkNow(cfg, view, st, sig, d, asks, m, obs);
      && o == obs && OnlyNode(st, st', sig.node) && st'.waiting == st.waiting
      && KindOf(st'.machines[sig.node]) == if asks.Restart? then ForRestart else ForReplacement
  {
    var record := if asks.Restart? then RestartRecord(BootOf(Find(view.nodes, sig.node)), sig.request) else RestartRecord("", "");
    var made := MarkMade(st.w.pass, sig.node, m, d, ActionOf(asks), record, true, map[]);
    QuietMark(st.w, m, sig.check, made);
    Kinds(m, sig.check, record, st.w.store);
    var (w, r) := MarkForRemediation(st.w, false, m, sig.check, made);
    KeepsSync(st, sig.node, w, r.value);
  }

  lemma QuietGuarded(cfg: Config, view: View, st: State, sig: Signal, d: Decision, ask: Ask, m: Machine, obs: Observation)
    requires obs.Observed? && !d.Report?
    requires !cfg.dryRun && InSync(st) && sig.node in st.machines && m == st.machines[sig.node]
    requires ask == AskFor(cfg, view, d, m)
    requires Escalates(ask, d, m) ==> !(KindOf(m).ForRestart? && !m.deleting)
    ensures
      var (st', o) := Guarded(cfg, view, st, sig, d, ask, m, obs);
      && o.Observed? && o.(skip := None, answer := NoAnswer) == obs.(skip := None, answer := NoAnswer)
      && (sig.request == "" ==> o.answer.NoAnswer? || o.answer == obs.answer)
      && OnlyNode(st, st', sig.node) && KindOf(st'.machines[sig.node]) == KindNext(cfg, view, st.waiting, m, d)
      && st'.waiting == if AsksWait(cfg, view, m, d) then HeldForChecks(st.waiting, m, view.now).1 else st.waiting
  {
    hide MarkNow, Covered, TemplatesOnly, CoverageFor, RestartFallback, HeldForChecks;
    assert st.machines == st.machines[sig.node := m];
    if Guard(m).None? && Unavailable(sig, ask).None? {
      if ask.asks.Restart? {
        var (hold, waiting) := HeldForChecks(st.waiting, m, view.now);
        if !hold.held {
          QuietMarkNow(cfg, view, st.(waiting := waiting), sig, d, ask.asks, m, obs);
        }
      } else {
        QuietMarkNow(cfg, view, st, sig, d, ask.asks, m, obs);
      }
    }
  }

  /** The signal is of a request that the pass answers or leaves alone before
      it looks at the checks. */
  predicate SettledEarly(view: View, sig: Signal, d: Decision, m: Machine) {
    && sig.request != ""
    && (sig.node !in view.nodes
        || (d.Restart? && RestartCompleted(m, Find(view.nodes, sig.node)) && RestartAnswers(m, sig.request)))
  }

  /** Handling a signal, undisturbed. */
  lemma QuietHandle(cfg: Config, view: View, st: State, sig: Signal)
    requires !cfg.dryRun && InSync(st) && sig.node in st.machines
    ensures
      var m := st.machines[sig.node];
      var d := DecisionIn(cfg, view.mode, sig);
      var (st', o) := Handle(cfg, view, st, sig);
      && o.Observed? && o.decision == d && o.machine == m.name && o.request == sig.request
      && (sig.request == "" ==> o.answer.NoAnswer?)
      && OnlyNode(st, st', sig.node)
      && if SettledEarly(view, sig, d, m) then st' == st
         else && KindOf(st'.machines[sig.node]) == KindNext(cfg, view, st.waiting, m, d)
              && st'.waiting == if AsksWait(cfg, view, m, d) then HeldForChecks(st.waiting, m, view.now).1 else st.waiting
  {
    var m := st.machines[sig.node];
    var d := DecisionIn(cfg, view.mode, sig);
    assert st.machines == st.machines[sig.node := m];
    if !d.Report? && !SettledEarly(view, sig, d, m) {
      var obs := Observed(d, Decided(cfg.table, sig.actions).action, m.name, sig.request, None, NoAnswer);
      QuietRemediate(cfg, view, st, sig, d, m, obs);
    }
    hide Remediate, Decided;
  }

  lemma SkipMarked(cfg: Config, view: View, st: State, sig: Signal, d: Decision, ask: Ask, m: Machine, obs: Observation)
    requires obs.Observed? && Guard(m) == Some(SkipAlreadyMarked)
    ensures Guarded(cfg, view, st, sig, d, ask, m, obs) == (st, obs.(skip := Some(SkipAlreadyMarked), answer := NoAnswer))
  {
  }

  lemma QuietEscalated(cfg: Config, view: View, st: State, sig: Signal, d: Decision, ask: Ask, m: Machine, obs: Observation)
    requires obs.Observed? && obs.answer.NoAnswer? && !d.Report?
    requires !cfg.dryRun && InSync(st) && sig.node in st.machines && m == st.machines[sig.node]
    requires ask == AskFor(cfg, view, d, m) && Escalates(ask, d, m)
    ensures Escalate(st.w, false, m, sig.check).1.Ok?
    ensures
      var (w, r) := Escalate(st.w, false, m, sig.check);
      var (st', o) := Guarded(cfg, view, st.(w := w, machines := st.machines[sig.node := r.value]), sig, d, ask, r.value, obs);
      && o.Observed? && o.(skip := None, answer := NoAnswer) == obs.(skip := None, answer := NoAnswer)
      && (sig.request == "" ==> o.answer.NoAnswer?)
      && OnlyNode(st, st', sig.node) && KindOf(st'.machines[sig.node]) == KindNext(cfg, view, st.waiting, m, d)
      && st'.waiting == if AsksWait(cfg, view, m, d) then HeldForChecks(st.waiting, m, view.now).1 else st.waiting
  {
    hide Guarded, HeldForChecks, CoverageFor, Covered, TemplatesOnly, RestartFallback, Escalated, Rest;
    assert st.machines == st.machines[sig.node := m];
    QuietEscalate(st.w, m, sig.check);
    KindWhenEscalated(m, sig.check, st.w.store);
    SameRest(m, Stamped(st.w.store, Escalated(m, sig.check)));
    var (w, r) := Escalate(st.w, false, m, sig.check);
    KeepsSync(st, sig.node, w, r.value);
    var st1 := st.(w := w, machines := st.machines[sig.node := r.value]);
    if r.value == m {
      QuietGuarded(cfg, view, st1, sig, d, ask, m, obs);
    } else {
      SkipMarked(cfg, view, st1, sig, d, ask, r.value, obs);
    }
  }

  lemma QuietRemediate(cfg: Config, view: View, st: State, sig: Signal, d: Decision, m: Machine, obs: Observation)
    requires obs.Observed? && obs.answer.NoAnswer? && !d.Report? && !SettledEarly(view, sig, d, m)
    requires !cfg.dryRun && InSync(st) && sig.node in st.machines && m == st.machines[sig.node]
    requires sig.request != "" ==> sig.node in view.nodes
    ensures
      var (st', o) := Remediate(cfg, view, st, sig, d, m, obs);
      && o.Observed? && o.(skip := None, answer := NoAnswer) == obs.(skip := None, answer := NoAnswer)
      && (sig.request == "" ==> o.answer.NoAnswer?)
      && OnlyNode(st, st', sig.node) && KindOf(st'.machines[sig.node]) == KindNext(cfg, view, st.waiting, m, d)
      && st'.waiting == if AsksWait(cfg, view, m, d) then HeldForChecks(st.waiting, m, view.now).1 else st.waiting
  {
    hide Guarded, HeldForChecks, CoverageFor, Covered, TemplatesOnly, Escalate, KindNext, OnlyNode;
    var ask := AskFor(cfg, view, d, m);
    if Escalates(ask, d, m) {
      QuietEscalated(cfg, view, st, sig, d, ask, m, obs);
    } else {
      QuietGuarded(cfg, view, st, sig, d, ask, m, obs);
    }
  }

  // --------------------------------------------------- releasing, undisturbed

  predicate IsReleased(m: Machine, held: set<string>) { KindOf(m).ForRestart? && m.name !in held && !m.deleting }

  ghost predicate ReleasedIn(st: State, st': State, nodes: seq<string>, held: set<string>, n: string)
    requires n in st.machines && n in st'.machines
  {
    if n in nodes && IsReleased(st.machines[n], held)
    then KindOf(st'.machines[n]).Unmarked? && Rest(st'.machines[n]) == Rest(st.machines[n])
    else st'.machines[n] == st.machines[n]
  }

  lemma QuietReleaseOne(cfg: Config, st: State, n: string, held: set<string>)
    requires !cfg.dryRun && InSync(st) && n in st.machines
    ensures
      var st' := ReleaseOne(cfg, st, n, held);
      && InSync(st') && st'.machines.Keys == st.machines.Keys && st'.waiting == st.waiting
      && st'.w.requests == st.w.requests
      && (forall k :: k in st.machines && k != n ==> st'.machines[k] == st.machines[k])
      && ReleasedIn(st, st', [n], held, n)
  {
    hide Release, Released, Stamped, Rest;
    var m := st.machines[n];
    ActionsDiffer();
    if Releasable(m, m.name in held) {
      QuietRelease(st.w, m);
      KindWhenReleased(m, st.w.store);
      SameRest(m, Stamped(st.w.store, Released(m)));
      var (w, r) := Release(st.w, false, m);
      KeepsSync(st, n, w, r.value);
    }
  }

  /** Undisturbed, exactly the restart-marked Machines that are not held and
      not being deleted are released, in the server's store too. */
  lemma {:induction false} ReleasesExactly(cfg: Config, st: State, nodes: seq<string>, held: set<string>)
    requires !cfg.dryRun && InSync(st) && NoRepeats(nodes) && forall n :: n in nodes ==> n in st.machines
    ensures
      var st' := ReleaseEach(cfg, st, nodes, held);
      && InSync(st') && st'.machines.Keys == st.machines.Keys && st'.waiting == st.waiting
      && st'.w.requests == st.w.requests
      && forall n :: n in st.machines ==> ReleasedIn(st, st', nodes, held, n)
  {
    hide ReleaseOne, IsReleased, KindOf, Rest, InSync;
    if nodes != [] {
      var k := |nodes| - 1;
      var last := nodes[k];
      assert nodes == nodes[..k] + [last];
      ReleasesExactly(cfg, st, nodes[..k], held);
      var before := ReleaseEach(cfg, st, nodes[..k], held);
      assert last in nodes;
      assert ReleasedIn(st, before, nodes[..k], held, last);
      QuietReleaseOne(cfg, before, last, held);
      var st' := ReleaseEach(cfg, st, nodes, held);
      forall n | n in st.machines ensures n in st'.machines && ReleasedIn(st, st', nodes, held, n) {
        assert ReleasedIn(st, before, nodes[..k], held, n);
      }
    }
  }
}
