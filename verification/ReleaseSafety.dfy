// Which Machines a pass releases at its end, whatever its calls ran into.

module ReleaseSafety {
  import opened Text
  import opened Signals
  import opened Decisions
  import opened Machines
  import opened Requests
  import opened Store
  import opened ClusterWorld
  import opened ClusterSound
  import opened Waits
  import opened Passes
  import opened PassSafety

  /** The signal is live in this pass: read from a node condition, or from a
      request found pending. */
  predicate Live(p: Progress, s: Signal) { s.request == "" || s.request in p.asking }

  predicate Finished(view: View, m: Machine, n: string) { RestartCompleted(m, Find(view.nodes, n)) }

  /** What is concluded about a signal, unless a write failed. */
  predicate ConcludedOn(cfg: Config, view: View, s: Signal, obs: Observation) {
    && obs.Observed? && obs.decision == DecisionIn(cfg, view.mode, s) && obs.request == s.request
    && obs.machine == if s.node in view.machines then view.machines[s.node].name else ""
  }

  predicate RestartBy(cfg: Config, view: View, s: Signal, obs: Observation) {
    ConcludedOn(cfg, view, s, obs) && obs.decision.Restart?
  }

  /** The Machine was marked for a restart that is not over, by a signal of this
      pass that acts on it. */
  ghost predicate MarkedNow(cfg: Config, view: View, p: Progress, signals: seq<Signal>, n: string)
    requires n in p.st.machines
  {
    && !Finished(view, p.st.machines[n], n)
    && exists s :: s in signals && s.node == n && s.Key() in p.current
                   && RestartBy(cfg, view, s, p.current[s.Key()])
  }

  /** A mark that failed left its Machine unmarked, as far as the pass knows,
      until another signal marks it. */
  ghost predicate AfterFailedMark(cfg: Config, view: View, p: Progress, signals: seq<Signal>, n: string)
    requires n in p.st.machines
  {
    !MarkedFor(p.st.machines[n], ACTION_RESTART) || MarkedNow(cfg, view, p, signals, n)
  }

  ghost predicate ToldOf(cfg: Config, view: View, p: Progress, signals: seq<Signal>, s: Signal) {
    && s.Key() in p.current
    && var obs := p.current[s.Key()];
    && (obs.Observed? ==> ConcludedOn(cfg, view, s, obs))
    && (obs == EmptyObservation(false) ==> s.node in p.st.machines && AfterFailedMark(cfg, view, p, signals, s.node))
  }

  /** What a pass keeps about its observations, signal by signal. */
  ghost predicate Told(cfg: Config, view: View, p: Progress, signals: seq<Signal>) {
    && SoundState(cfg, p.st, view) && p.st.machines.Keys == view.machines.Keys
    && (forall r :: r in p.asking ==> exists s :: s in signals && s.request == r)
    && (!p.unreadable ==> forall s :: s in signals && Live(p, s) ==> ToldOf(cfg, view, p, signals, s))
    && (!p.unreadable ==> OnlyFromLive(p, p.current, signals))
  }

  /** Every observation is of a live signal. */
  ghost predicate OnlyFromLive(p: Progress, current: map<string, Observation>, signals: seq<Signal>) {
    forall k :: k in current ==> exists s :: s in signals && Live(p, s) && s.Key() == k
  }

  lemma OneMoreLive(p: Progress, p': Progress, before: seq<Signal>, s: Signal, current: map<string, Observation>)
    requires OnlyFromLive(p, p.current, before) && p.asking <= p'.asking && Live(p', s)
    requires forall k :: k in current ==> k in p.current || k == s.Key()
    ensures OnlyFromLive(p', current, before + [s])
  {
    forall k | k in current ensures exists x :: x in before + [s] && Live(p', x) && x.Key() == k {
      if k in p.current {
        var x :| x in before && Live(p, x) && x.Key() == k;
        assert x in before + [s];
      } else {
        assert s in before + [s];
      }
    }
  }

  // -------------------------------------------------------------- one signal

  /** Only the Machine of the node may change, and stays the same Machine. */
  ghost predicate OnlyAt(st: State, st': State, n: string) {
    && st'.machines.Keys == st.machines.Keys
    && (forall k :: k in st.machines && k != n ==> st'.machines[k] == st.machines[k])
  }

  /** How handling a signal may leave the Machine of its node. */
  ghost predicate HandledAs(cfg: Config, view: View, st: State, st': State, s: Signal, o: Observation) {
    && OnlyAt(st, st', s.node)
    && (o.Observed? ==> ConcludedOn(cfg, view, s, o))
    && (o == EmptyObservation(false) ==>
          s.node in st.machines && !IsMarked(st.machines[s.node]) && st'.machines == st.machines)
    && (s.node in st.machines ==>
          var m, m' := st.machines[s.node], st'.machines[s.node];
          || m' == m
          || !MarkedFor(m', ACTION_RESTART)
          || (!Finished(view, m', s.node) && o.Observed? && o.decision.Restart?))
    && (o.Observed? && o.answer.Give? && o.answer.complete ==> ClaimsRestart(view, st', s) && st'.machines == st.machines)
  }

  /** A mark set on a Machine that carries nothing of the operator's records
      the boot ID given. */
  lemma MarkRecordsBoot(w: World, dryRun: bool, seen: Machine, reason: string, made: MarkMade)
    requires Guard(seen).None? && NoOwn(seen) && !dryRun
    ensures
      var r := MarkForRemediation(w, dryRun, seen, reason, made).1;
      r.Ok? ==> && MarkedFor(r.value, made.action)
                && (made.record.bootID != "" ==> Value(r.value.annotations, RemediationBootID) == made.record.bootID)
  {
    hide Merged, Guard, NoOwn, Arrive;
    assert !IsMarked(seen) by { GuardedIsUnmarked(seen); }
    var a := Arrive(w);
    if a.Served() && seen.name in a.w.store.machines {
      MergedRecordsBoot(a.w.store.machines[seen.name], seen, reason, made);
    }
  }

  lemma GuardedIsUnmarked(m: Machine)
    requires Guard(m).None?
    ensures !IsMarked(m)
  {
  }

  lemma MergedRecordsBoot(before: Machine, seen: Machine, reason: string, made: MarkMade)
    requires NoOwn(seen) && !IsMarked(seen)
    ensures
      var after := Merged(before, seen, reason, made);
      && after.name == seen.name && MarkedFor(after, made.action)
      && (made.record.bootID != "" ==> Value(after.annotations, RemediationBootID) == made.record.bootID)
  {
    hide NoOwn, Changed, Marked;
    MarkMergesClean(seen, before, reason, made.action, made.record);
  }

  /** A mark that records the boot ID its node is read with is not finished. */
  lemma NewMarkIsUnfinished(view: View, m: Machine, n: string)
    requires BootOf(Find(view.nodes, n)) != "" ==> Value(m.annotations, RemediationBootID) == BootOf(Find(view.nodes, n))
    ensures !Finished(view, m, n)
  {
  }

  lemma MarkNowMoves(cfg: Config, view: View, st: State, s: Signal, d: Decision, asks: Decision, m: Machine, obs: Observation)
    requires s.node in st.machines && m == st.machines[s.node] && Guard(m).None? && NoOwn(m)
    requires ConcludedOn(cfg, view, s, obs) && obs.answer.NoAnswer? && obs.decision == d && (asks.Restart? ==> d.Restart?)
    ensures
      var (st', o) := MarkNow(cfg, view, st, s, d, asks, m, obs);
      HandledAs(cfg, view, st, st', s, o)
  {
    var record := if asks.Restart? then RestartRecord(BootOf(Find(view.nodes, s.node)), s.request) else RestartRecord("", "");
    var made := MarkMade(st.w.pass, s.node, m, d, ActionOf(asks), record, true, map[]);
    hide DecisionIn, MarkForRemediation, RestartCompleted, NoOwn;
    ActionsDiffer();
    assert !IsMarked(m) by { GuardedIsUnmarked(m); }
    if cfg.dryRun {
      assert MarkForRemediation(st.w, cfg.dryRun, m, s.check, made) == (st.w, Ok(m)) by { DryRunMarksNone(st.w, m, s.check, made); }
      assert st.machines == st.machines[s.node := m];
    } else {
      MarkRecordsBoot(st.w, cfg.dryRun, m, s.check, made);
      var r := MarkForRemediation(st.w, cfg.dryRun, m, s.check, made).1;
      if r.Ok? && asks.Restart? {
        NewMarkIsUnfinished(view, r.value, s.node);
      }
    }
    hide Guard, BootOf;
  }

  lemma UnguardedIsClean(cfg: Config, st: State, view: View, n: string)
    requires SoundState(cfg, st, view) && n in st.machines
    ensures Guard(st.machines[n]).None? ==> NoOwn(st.machines[n])
  {
  }

  lemma GuardedMoves(cfg: Config, view: View, st: State, s: Signal, d: Decision, ask: Ask, m: Machine, obs: Observation)
    requires SoundState(cfg, st, view) && st.machines.Keys == view.machines.Keys
    requires s.node in st.machines && m == st.machines[s.node]
    requires ConcludedOn(cfg, view, s, obs) && obs.answer.NoAnswer? && obs.decision == d && (ask.asks.Restart? ==> d.Restart?)
    ensures
      var (st', o) := Guarded(cfg, view, st, s, d, ask, m, obs);
      HandledAs(cfg, view, st, st', s, o)
  {
    hide MarkNow, Covered, TemplatesOnly, DecisionIn, SoundState, RestartCompleted, HeldForChecks, Guard, NoOwn;
    UnguardedIsClean(cfg, st, view, s.node);
    if Guard(m).None? && Unavailable(s, ask).None? {
      var waiting := if ask.asks.Restart? then HeldForChecks(st.waiting, m, view.now).1 else st.waiting;
      MarkNowMoves(cfg, view, st.(waiting := waiting), s, d, ask.asks, m, obs);
    }
  }

  /** An escalation that goes through leaves no restart mark. */
  lemma EscalateEndsRestart(w: World, m: Machine, reason: string)
    requires MarkedFor(m, ACTION_RESTART) && !m.deleting
    ensures
      var r := Escalate(w, false, m, reason).1;
      r.Ok? ==> MarkedFor(r.value, ACTION_REMEDIATE) && Guard(r.value) == Some(SkipAlreadyMarked)
  {
    ActionsDiffer();
  }

  lemma SkippedInProgress(cfg: Config, view: View, st: State, s: Signal, d: Decision, ask: Ask, m: Machine, obs: Observation)
    requires Guard(m) == Some(SkipAlreadyMarked) && obs.Observed?
    ensures Guarded(cfg, view, st, s, d, ask, m, obs) == (st, obs.(skip := Some(SkipAlreadyMarked), answer := NoAnswer))
  {
  }

  lemma EscalatedMoves(cfg: Config, view: View, st: State, s: Signal, d: Decision, ask: Ask, m: Machine, obs: Observation)
    requires SoundState(cfg, st, view) && st.machines.Keys == view.machines.Keys
    requires s.node in st.machines && m == st.machines[s.node] && Escalates(ask, d, m)
    requires ConcludedOn(cfg, view, s, obs) && obs.answer.NoAnswer? && obs.decision == d && (ask.asks.Restart? ==> d.Restart?)
    requires Escalate(st.w, cfg.dryRun, m, s.check).1.Ok?
    ensures
      var (w, r) := Escalate(st.w, cfg.dryRun, m, s.check);
      var st1 := st.(w := w, machines := st.machines[s.node := r.value]);
      var (st', o) := Guarded(cfg, view, st1, s, d, ask, r.value, obs);
      HandledAs(cfg, view, st, st', s, o)
  {
    hide Guarded, SoundState, DecisionIn, RestartCompleted, Escalates, Guard;
    ActionsDiffer();
    var (w, r) := Escalate(st.w, cfg.dryRun, m, s.check);
    if MarkedFor(m, ACTION_RESTART) && !m.deleting && !cfg.dryRun {
      EscalateEndsRestart(st.w, m, s.check);
      SkippedInProgress(cfg, view, st.(w := w, machines := st.machines[s.node := r.value]), s, d, ask, r.value, obs);
    } else {
      assert st.machines == st.machines[s.node := m];
      GuardedMoves(cfg, view, st, s, d, ask, m, obs);
    }
  }

  lemma RemediateMoves(cfg: Config, view: View, st: State, s: Signal, d: Decision, m: Machine, obs: Observation)
    requires SoundState(cfg, st, view) && st.machines.Keys == view.machines.Keys
    requires s.node in st.machines && m == st.machines[s.node] && s.node in view.machines
    requires ConcludedOn(cfg, view, s, obs) && obs.answer.NoAnswer? && obs.decision == d
    ensures
      var (st', o) := Remediate(cfg, view, st, s, d, m, obs);
      HandledAs(cfg, view, st, st', s, o)
  {
    hide Guarded, SoundWorld, CoverageFor, RestartFallback, DecisionIn, Covered, TemplatesOnly, RestartCompleted, Escalates,
         Escalate;
    var ask := AskFor(cfg, view, d, m);
    if !Escalates(ask, d, m) {
      GuardedMoves(cfg, view, st, s, d, ask, m, obs);
    } else if Escalate(st.w, cfg.dryRun, m, s.check).1.Ok? {
      EscalatedMoves(cfg, view, st, s, d, ask, m, obs);
    }
  }

  lemma HandleMoves(cfg: Config, view: View, st: State, s: Signal)
    requires SoundState(cfg, st, view) && st.machines.Keys == view.machines.Keys
    ensures
      var (st', o) := Handle(cfg, view, st, s);
      HandledAs(cfg, view, st, st', s, o)
  {
    hide Remediate, SoundWorld, Decided, DecisionIn, MarkedFromView, OneNodeEach;
    if s.node in st.machines {
      var m, d := st.machines[s.node], DecisionIn(cfg, view.mode, s);
      var obs := Observed(d, Decided(cfg.table, s.actions).action, m.name, s.request, None, NoAnswer);
      assert m.name == view.machines[s.node].name;
      RemediateMoves(cfg, view, st, s, d, m, obs);
    }
  }

  /** Answering moves a Machine only once its restart is over. */
  lemma {:induction false} ReleaseAnsweredMoves(cfg: Config, st: State, node: string, answered: RestartMark, conflicted: bool, attempts: nat)
    requires node in st.machines
    ensures OnlyAt(st, ReleaseAnswered(cfg, st, node, answered, conflicted, attempts), node)
    decreases attempts, if conflicted then 1 else 0
  {
    hide ReadCached, Release;
    if attempts > 0 {
      if conflicted {
        var (w, r) := ReadCached(st.w, st.machines[node].name);
        if r.Ok? && RestartMarkOf(r.value) == answered {
          ReleaseAnsweredMoves(cfg, st.(w := w, machines := st.machines[node := r.value]), node, answered, false, attempts);
        }
      } else {
        var (w, r) := Release(st.w, cfg.dryRun, st.machines[node]);
        if r.Err? && r.error.Conflict? {
          ReleaseAnsweredMoves(cfg, st.(w := w), node, answered, true, attempts - 1);
        }
      }
    }
  }

  lemma TellRequestMoves(cfg: Config, view: View, st: State, s: Signal, a: Answer)
    requires a.Give?
    ensures
      var st' := TellRequest(cfg, view, st, s, a);
      OnlyAt(st, st', s.node) && (!a.complete ==> st'.machines == st.machines)
  {
    hide ReleaseAnswered, AnswerRequest;
    if !cfg.dryRun && s.node in st.machines {
      var machine, node := Find(st.machines, s.node), Find(view.nodes, s.node);
      var (w, r) := AnswerRequest(st.w, s.request, a.complete, a.reason, machine, node);
      ReleaseAnsweredMoves(cfg, st.(w := w), s.node, RestartMarkOf(machine.value), false, RELEASE_ATTEMPTS);
    }
  }

  // --------------------------------------------------------- signal by signal

  /** How acting on a signal may leave the Machine of its node. */
  ghost predicate ActedAs(cfg: Config, view: View, p: Progress, p': Progress, s: Signal) {
    && p'.asking == p.asking && p'.unreadable == p.unreadable && OnlyAt(p.st, p'.st, s.node)
    && s.Key() in p'.current && p'.current == p.current[s.Key() := p'.current[s.Key()]]
    && var o := p'.current[s.Key()];
    && (o.Observed? ==> ConcludedOn(cfg, view, s, o))
    && (o == EmptyObservation(false) ==>
          s.node in p.st.machines && !IsMarked(p.st.machines[s.node]) && p'.st.machines == p.st.machines)
    && (s.node in p.st.machines ==>
          var m, m' := p.st.machines[s.node], p'.st.machines[s.node];
          || m' == m
          || Finished(view, m, s.node)
          || !MarkedFor(m', ACTION_RESTART)
          || (!Finished(view, m', s.node) && o.Observed? && o.decision.Restart?))
  }

  lemma ActMoves(cfg: Config, view: View, p: Progress, s: Signal)
    requires SoundState(cfg, p.st, view) && p.st.machines.Keys == view.machines.Keys
    ensures ActedAs(cfg, view, p, Act(cfg, view, p, s), s)
  {
    hide Handle, TellRequest, SoundWorld, DecisionIn, RestartCompleted;
    HandleMoves(cfg, view, p.st, s);
    var (st, obs) := Handle(cfg, view, p.st, s);
    if obs.Observed? && obs.answer.Give? {
      TellRequestMoves(cfg, view, st, s, obs.answer);
    }
  }

  /** What was told of the earlier signals is still true. */
  lemma ActKeepsTold(cfg: Config, view: View, p: Progress, p': Progress, before: seq<Signal>, s: Signal, x: Signal)
    requires ActedAs(cfg, view, p, p', s) && x in before && x.Key() != s.Key()
    requires forall y :: y in before ==> y.Key() != s.Key()
    requires ToldOf(cfg, view, p, before, x)
    ensures ToldOf(cfg, view, p', before + [s], x)
  {
    hide ConcludedOn, RestartCompleted;
    assert p'.current[x.Key()] == p.current[x.Key()];
    var n := x.node;
    if p.current[x.Key()] == EmptyObservation(false) {
      FailedMarkStays(cfg, view, p, p', before, s, n);
    }
  }

  lemma FailedMarkStays(cfg: Config, view: View, p: Progress, p': Progress, before: seq<Signal>, s: Signal, n: string)
    requires ActedAs(cfg, view, p, p', s) && n in p.st.machines && AfterFailedMark(cfg, view, p, before, n)
    requires forall y :: y in before ==> y.Key() != s.Key()
    ensures AfterFailedMark(cfg, view, p', before + [s], n)
  {
    hide ConcludedOn;
    assert s in before + [s];
    if n != s.node || p'.st.machines[n] == p.st.machines[n] {
      if MarkedNow(cfg, view, p, before, n) {
        var y :| y in before && y.node == n && y.Key() in p.current
                 && RestartBy(cfg, view, y, p.current[y.Key()]);
        assert y in before + [s];
        assert p'.current[y.Key()] == p.current[y.Key()];
      }
    }
  }

  /** No two signals have the same key, and a request gives one signal. */
  ghost predicate Distinct(signals: seq<Signal>) {
    forall i, j :: 0 <= i < j < |signals| ==>
      && signals[i].Key() != signals[j].Key()
      && (signals[i].request == "" || signals[i].request != signals[j].request)
  }

  ghost predicate NewTo(before: seq<Signal>, s: Signal) {
    forall x :: x in before ==> x.Key() != s.Key() && (s.request == "" || x.request != s.request)
  }

  lemma ActTells(cfg: Config, view: View, p: Progress, before: seq<Signal>, s: Signal)
    requires SoundState(cfg, p.st, view) && p.st.machines.Keys == view.machines.Keys && NewTo(before, s)
    requires forall r :: r in p.asking ==> exists x :: x in before + [s] && x.request == r
    requires forall x :: x in before && Live(p, x) && !p.unreadable ==> ToldOf(cfg, view, p, before, x)
    requires WasPending(p.st.w, s.request) && Live(p, s) && s in view.signals
    requires !p.unreadable ==> OnlyFromLive(p, p.current, before)
    ensures Told(cfg, view, Act(cfg, view, p, s), before + [s])
  {
    hide ToldOf, ActedAs, Act, OnlyFromLive, SoundState;
    var p' := Act(cfg, view, p, s);
    ActIsSafe(cfg, view, p, s);
    ActMoves(cfg, view, p, s);
    ActFrame(cfg, view, p, p', s);
    if !p.unreadable {
      OneMoreLive(p, p', before, s, p'.current);
      OwnIsTold(cfg, view, p, p', before, s);
      forall x | x in before && Live(p, x) ensures ToldOf(cfg, view, p', before + [s], x) {
        ActKeepsTold(cfg, view, p, p', before, s, x);
      }
    }
  }

  lemma ActFrame(cfg: Config, view: View, p: Progress, p': Progress, s: Signal)
    requires ActedAs(cfg, view, p, p', s)
    ensures p'.asking == p.asking && p'.unreadable == p.unreadable && p'.st.machines.Keys == p.st.machines.Keys
    ensures forall k :: k in p'.current ==> k in p.current || k == s.Key()
  {
  }

  lemma OwnIsTold(cfg: Config, view: View, p: Progress, p': Progress, before: seq<Signal>, s: Signal)
    requires ActedAs(cfg, view, p, p', s)
    ensures ToldOf(cfg, view, p', before + [s], s)
  {
    hide ConcludedOn, RestartCompleted;
  }

  lemma TakeTells(cfg: Config, view: View, previous: map<string, Observation>, p: Progress, before: seq<Signal>, s: Signal)
    requires Told(cfg, view, p, before) && NewTo(before, s) && s in view.signals
    ensures Told(cfg, view, TakeSignal(cfg, view, previous, p, s), before + [s])
  {
    hide ToldOf, Act, SoundWorld, OneNodeEach, MarkedFromView, AnsweredFromView, IsPending, OnlyFromLive;
    assert s in before + [s] && forall x :: x in before ==> x in before + [s];
    if s.request == "" {
      ActTells(cfg, view, p, before, s);
    } else {
      IsPendingKeepsSound(p.st.w, s.request);
      var (w, r) := IsPending(p.st.w, s.request);
      AfterRead(cfg, p.st, view, w);
      hide SoundState;
      forall x | x in before && Live(p, x) && !p.unreadable
        ensures forall q: Progress :: q.st.machines == p.st.machines && q.current == p.current ==>
                  ToldOf(cfg, view, q, before, x) && ToldOf(cfg, view, q, before + [s], x)
      {
        SameMachinesSameTold(cfg, view, p, before, s, x);
      }
      if !p.unreadable { MoreAskingMoreLive(p, before, s); }
      if r == Ok(true) {
        ActTells(cfg, view, p.(st := p.st.(w := w), asking := p.asking + {s.request}), before, s);
      }
    }
  }

  lemma MoreAskingMoreLive(p: Progress, before: seq<Signal>, s: Signal)
    requires OnlyFromLive(p, p.current, before)
    ensures forall q: Progress :: p.asking <= q.asking ==>
              OnlyFromLive(q, p.current, before) && OnlyFromLive(q, p.current, before + [s])
  {
    forall q: Progress, k | p.asking <= q.asking && k in p.current
      ensures exists x :: x in before && Live(q, x) && x.Key() == k && x in before + [s]
    {
      var x :| x in before && Live(p, x) && x.Key() == k;
      assert Live(q, x);
    }
  }

  lemma SameMachinesSameTold(cfg: Config, view: View, p: Progress, before: seq<Signal>, s: Signal, x: Signal)
    requires ToldOf(cfg, view, p, before, x)
    ensures forall q: Progress :: q.st.machines == p.st.machines && q.current == p.current ==>
              ToldOf(cfg, view, q, before, x) && ToldOf(cfg, view, q, before + [s], x)
  {
    hide ConcludedOn, RestartCompleted;
    assert forall y :: y in before ==> y in before + [s];
  }

  lemma {:induction false} PassTells(cfg: Config, view: View, previous: map<string, Observation>, p0: Progress, signals: seq<Signal>)
    requires SoundState(cfg, p0.st, view) && p0 == Start(p0.st.w, view, p0.st.waiting) && Distinct(signals)
    requires forall s :: s in signals ==> s in view.signals
    ensures Told(cfg, view, TakeSignals(cfg, view, previous, p0, signals), signals)
  {
    hide SoundState, TakeSignal, ToldOf;
    if signals != [] {
      var n := |signals| - 1;
      PassTells(cfg, view, previous, p0, signals[..n]);
      assert signals == signals[..n] + [signals[n]];
      TakeTells(cfg, view, previous, TakeSignals(cfg, view, previous, p0, signals[..n]), signals[..n], signals[n]);
    }
  }

  // ------------------------------------------------------------ what is let go

  /** The pass may release the Machine of the node. */
  predicate LetGo(view: View, p: Progress, n: string)
    requires n in p.st.machines
  {
    Releasable(p.st.machines[n], p.st.machines[n].name in HeldNames(p.st.machines, view.nodes, p.asking, p.current))
  }

  lemma HoldingHolds(view: View, p: Progress, n: string, k: string)
    requires n in p.st.machines && k in p.current && Holds(p.st.machines, view.nodes, p.asking, p.current[k])
    requires p.current[k].machine == p.st.machines[n].name
    ensures !LetGo(view, p, n)
  {
    var held := HeldNames(p.st.machines, view.nodes, p.asking, p.current);
    assert p.st.machines[n].name in held;
  }

  lemma BehindOnlyLeftover(cfg: Config, view: View, p: Progress, s: Signal)
    requires OneNodeEach(view.machines) && InView(p.st, view) && s.node in p.st.machines && p.st.machines[s.node].name != ""
    requires s.Key() in p.current && ConcludedOn(cfg, view, s, p.current[s.Key()])
    requires !DecisionIn(cfg, view.mode, s).Report? && LetGo(view, p, s.node)
    ensures s.request != "" && DecisionIn(cfg, view.mode, s).Restart?
    ensures Leftover(p.st.machines[s.node], Find(view.nodes, s.node), p.asking)
  {
    hide DecisionIn, HeldNames, LetGo, Leftover;
    if Holds(p.st.machines, view.nodes, p.asking, p.current[s.Key()]) {
      HoldingHolds(view, p, s.node, s.Key());
    }
    var n :| n in p.st.machines && p.st.machines[n].name == p.st.machines[s.node].name
             && Leftover(p.st.machines[n], Find(view.nodes, n), p.asking);
  }

  lemma FailedMarkIsNotLetGo(cfg: Config, view: View, p: Progress, n: string)
    requires OneNodeEach(view.machines) && InView(p.st, view) && n in p.st.machines && p.st.machines[n].name != ""
    requires AfterFailedMark(cfg, view, p, view.signals, n)
    ensures !LetGo(view, p, n)
  {
    if LetGo(view, p, n) {
      var y :| y in view.signals && y.node == n && y.Key() in p.current && RestartBy(cfg, view, y, p.current[y.Key()]);
      BehindOnlyLeftover(cfg, view, p, y);
    }
  }

  /** The signal does not keep the restart mark of its Machine: it is a request
      for a restart of its own behind one that is over and nobody asks for. */
  predicate WaitsInLine(cfg: Config, view: View, p: Progress, s: Signal)
    requires s.node in p.st.machines
  {
    var m := p.st.machines[s.node];
    var asked := Value(m.annotations, RemediationRequest);
    && s.request != "" && DecisionIn(cfg, view.mode, s).Restart?
    && asked != "" && asked !in p.asking && RestartCompleted(m, Find(view.nodes, s.node))
  }

  /** Its escalation failed, which leaves nothing that holds the Machine. */
  predicate FailedToEscalate(p: Progress, s: Signal) {
    s.Key() in p.current && p.current[s.Key()] == EmptyObservation(true)
  }

  /** The signal calls for a restart or a replacement of node n in this pass. */
  predicate Wants(cfg: Config, view: View, p: Progress, s: Signal, n: string) {
    s in view.signals && Live(p, s) && s.node == n && !DecisionIn(cfg, view.mode, s).Report?
  }

  lemma WantedIsExcused(cfg: Config, view: View, p: Progress, s: Signal, n: string)
    requires Told(cfg, view, p, view.signals) && !p.unreadable && n in p.st.machines && p.st.machines[n].name != ""
    requires Wants(cfg, view, p, s, n) && LetGo(view, p, n)
    ensures FailedToEscalate(p, s) || WaitsInLine(cfg, view, p, s)
  {
    hide DecisionIn, LetGo, HeldNames, SoundWorld, Live, RestartCompleted;
    assert ToldOf(cfg, view, p, view.signals, s);
    if p.current[s.Key()].Observed? {
      BehindOnlyLeftover(cfg, view, p, s);
    } else if p.current[s.Key()] == EmptyObservation(false) {
      FailedMarkIsNotLetGo(cfg, view, p, n);
    }
  }

  /** Nothing else holds a Machine than the signals of its node. */
  lemma HeldByItsSignal(cfg: Config, view: View, p: Progress, n: string) returns (s: Signal)
    requires Told(cfg, view, p, view.signals) && !p.unreadable && n in p.st.machines && p.st.machines[n].name != ""
    requires p.st.machines[n].name in HeldNames(p.st.machines, view.nodes, p.asking, p.current)
    ensures Wants(cfg, view, p, s, n) && !FailedToEscalate(p, s) && !WaitsInLine(cfg, view, p, s)
  {
    hide DecisionIn, SoundWorld, Live, RestartCompleted;
    var k :| k in p.current && Holds(p.st.machines, view.nodes, p.asking, p.current[k])
             && p.current[k].machine == p.st.machines[n].name;
    s :| s in view.signals && Live(p, s) && s.Key() == k;
    assert ToldOf(cfg, view, p, view.signals, s);
    assert s.node == n;
  }

  /** Whatever a pass runs into, it lets go of a Machine exactly when that
      carries a restart mark and each live signal that calls for a restart or a
      replacement of its node had its escalation fail, or is a request for a
      restart that waits behind a finished one whose own request is not asking
      any more. */
  lemma LetGoExactlyWhen(cfg: Config, view: View, previous: map<string, Observation>, w: World, waiting: Waiting, n: string)
    requires SoundState(cfg, State(w, view.machines, waiting), view) && Distinct(view.signals)
    requires n in view.machines && view.machines[n].name != ""
    ensures
      var p := TakeSignals(cfg, view, previous, Start(w, view, waiting), view.signals);
      && n in p.st.machines
      && (!p.unreadable ==>
            (LetGo(view, p, n)
             <==> MarkedFor(p.st.machines[n], ACTION_RESTART)
                  && forall s :: Wants(cfg, view, p, s, n) ==> FailedToEscalate(p, s) || WaitsInLine(cfg, view, p, s)))
  {
    hide DecisionIn, SoundWorld, TakeSignals, HeldNames, ToldOf, OnlyFromLive, WaitsInLine, FailedToEscalate;
    PassTells(cfg, view, previous, Start(w, view, waiting), view.signals);
    var p := TakeSignals(cfg, view, previous, Start(w, view, waiting), view.signals);
    assert p.st.machines[n].name == view.machines[n].name;
    if !p.unreadable {
      if LetGo(view, p, n) {
        forall s | Wants(cfg, view, p, s, n) ensures FailedToEscalate(p, s) || WaitsInLine(cfg, view, p, s) {
          WantedIsExcused(cfg, view, p, s, n);
        }
      } else if p.st.machines[n].name in HeldNames(p.st.machines, view.nodes, p.asking, p.current) {
        var s := HeldByItsSignal(cfg, view, p, n);
      }
    }
  }

  /** So a Machine with a live signal for a restart or a replacement, whose own
      escalation did not fail, is let go only where that signal waits in line. */
  lemma ReleasedOnlyWhenLeftOver(cfg: Config, view: View, previous: map<string, Observation>, w: World, waiting: Waiting, s: Signal)
    requires SoundState(cfg, State(w, view.machines, waiting), view) && Distinct(view.signals)
    requires s in view.signals && s.node in view.machines && view.machines[s.node].name != ""
    requires !DecisionIn(cfg, view.mode, s).Report?
    ensures
      var p := TakeSignals(cfg, view, previous, Start(w, view, waiting), view.signals);
      && s.node in p.st.machines
      && (!p.unreadable && Live(p, s) && !FailedToEscalate(p, s) && LetGo(view, p, s.node) ==> WaitsInLine(cfg, view, p, s))
  {
    hide DecisionIn, SoundState, TakeSignals, LetGo, FailedToEscalate, Live, WaitsInLine;
    LetGoExactlyWhen(cfg, view, previous, w, waiting, s.node);
    var p := TakeSignals(cfg, view, previous, Start(w, view, waiting), view.signals);
    assert Live(p, s) ==> Wants(cfg, view, p, s, s.node);
  }

  // -------------------------------------------------------- what is released

  ghost predicate ReleaseOf(x: MachineWrite, st: State, nodes: seq<string>, held: set<string>) {
    x.kind.ReleaseWrite? && exists n :: n in nodes && n in st.machines && Releasable(st.machines[n], st.machines[n].name in held)
                                        && x.before == st.machines[n]
  }

  lemma ReleaseWritesWhatWasSeen(w: World, dryRun: bool, m: Machine)
    requires SoundWorld(w) && m in w.store.past
    ensures
      var v := Release(w, dryRun, m).0;
      forall x :: x in v.history.writes ==> x in w.history.writes || (!dryRun && x.kind.ReleaseWrite? && x.before == m)
  {
    var a := Arrive(w);
    ArriveKeepsSound(w);
    if a.Served() && Locked(a.w.store, m).None? {
      LockedHitsWhatWasSeen(a.w.store, m);
    }
  }

  lemma {:induction false} UntilThenAsSeen(cfg: Config, st: State, nodes: seq<string>, held: set<string>)
    ensures
      var st' := ReleaseEach(cfg, st, nodes, held);
      st'.machines.Keys == st.machines.Keys && forall n :: n in st.machines && n !in nodes ==> st'.machines[n] == st.machines[n]
  {
    hide Release;
    if nodes != [] {
      UntilThenAsSeen(cfg, st, nodes[..|nodes| - 1], held);
    }
  }

  /** Whatever a pass runs into, at its end it writes to no Machine but those
      it lets go of, each in the very version it judged. */
  lemma {:induction false} ReleasesNothingElse(cfg: Config, view: View, st: State, nodes: seq<string>, held: set<string>)
    requires SoundState(cfg, st, view) && NoRepeats(nodes)
    ensures
      var st' := ReleaseEach(cfg, st, nodes, held);
      forall x :: x in st'.w.history.writes ==> x in st.w.history.writes || (!cfg.dryRun && ReleaseOf(x, st, nodes, held))
  {
    hide Release, SoundWorld;
    if nodes != [] {
      var k := |nodes| - 1;
      var last := nodes[k];
      var before := ReleaseEach(cfg, st, nodes[..k], held);
      ReleasesNothingElse(cfg, view, st, nodes[..k], held);
      ReleaseEachIsSafe(cfg, view, st, nodes[..k], held);
      UntilThenAsSeen(cfg, st, nodes[..k], held);
      forall x | ReleaseOf(x, st, nodes[..k], held) ensures ReleaseOf(x, st, nodes, held) {
      }
      if last in before.machines {
        assert last !in nodes[..k];
        assert before.machines[last] == st.machines[last];
        ReleaseWritesWhatWasSeen(before.w, cfg.dryRun, before.machines[last]);
        assert last in nodes;
      }
    }
  }
}
