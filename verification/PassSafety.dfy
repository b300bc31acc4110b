// Whatever happens around the operator, and wherever it crashes: an answer of
// True rests on a restart the pass saw, a mark on a request that was pending,
// and a replacement mark is never taken back.

module PassSafety {
  import opened Text
  import opened Signals
  import opened Decisions
  import opened Machines
  import opened Requests
  import opened Store
  import opened ClusterWorld
  import opened ClusterSound
  import opened Waits
  import opened Passes
  import opened Declines

  /** Every Machine has one node. */
  ghost predicate OneNodeEach(machines: map<string, Machine>) {
    forall a, b :: a in machines && b in machines && machines[a].name == machines[b].name ==> a == b
  }

  /** The Machines the pass has are versions there were, of the Machines it
      started with. */
  ghost predicate InView(st: State, view: View) {
    && st.machines.Keys == view.machines.Keys
    && forall n :: n in st.machines ==>
         st.machines[n] in st.w.store.past && st.machines[n].name == view.machines[n].name
  }

  /** The signal calls for this mark on the Machine as it is seen: nothing stands
      against it, a check that is not paused acts on it, and the mark asks for
      what the checks can carry out of the decision. */
  ghost predicate CallsForMark(cfg: Config, view: View, s: Signal, m: Machine, action: string) {
    var d := DecisionIn(cfg, view.mode, s);
    && !cfg.dryRun && !d.Report? && Unhindered(m) && (exists k :: HasCheck(view.checks, m, k) && !k.paused)
    && if d == Restart && AllHaveTemplates(view.checks, m) then action == ACTION_RESTART
       else action == ACTION_REMEDIATE && (d == Replace || ReplacesInstead(cfg, view))
  }

  lemma MarkIsCalledFor(cfg: Config, view: View, s: Signal, d: Decision, m: Machine)
    requires !cfg.dryRun && d == DecisionIn(cfg, view.mode, s) && !d.Report?
    requires Guard(m).None? && Unavailable(s, AskFor(cfg, view, d, m)).None?
    ensures CallsForMark(cfg, view, s, m, ActionOf(AskFor(cfg, view, d, m).asks))
  {
    UnhinderedExactlyWhen(m);
    CoveredExactlyWhen(view.checks, m);
    FallbackByValue(cfg.fallback, view.override);
    hide Guard, CoverageFor, RestartFallback, Covered, TemplatesOnly, DecisionIn, HasCheck, AllHaveTemplates;
  }

  /** The mark was made for the signal, which was live and called for it on the
      Machine as that was seen, in some version; a restart mark records the
      node's boot ID and the signal's request as they were read, and another
      mark nothing. */
  ghost predicate MadeOn(cfg: Config, w: World, view: View, r: MarkMade, s: Signal) {
    && s in view.signals && r.node == s.node && s.node in view.machines && view.machines[s.node].name == r.seen.name
    && r.seen in w.store.past && WasFound(w.history, r.pass, s.request) && (s.request != "" ==> s.node in view.nodes)
    && r.decision == DecisionIn(cfg, view.mode, s) && CallsForMark(cfg, view, s, r.seen, r.action)
    && r.record == if r.action == ACTION_RESTART then RestartRecord(BootOf(Find(view.nodes, s.node)), s.request)
                   else RestartRecord("", "")
  }

  /** The answer was given to the signal's request, on the node as it was read
      and a version of its Machine, and was due on these. */
  ghost predicate ToldOn(cfg: Config, w: World, view: View, a: AnswerGiven, s: Signal) {
    && !cfg.dryRun && AnswerDue(cfg, view, s, a.machine, a.complete, a.reason)
    && s in view.signals && s.request == a.before.name && a.node == Find(view.nodes, s.node)
    && (a.machine.Some? <==> s.node in view.machines)
    && (a.machine.Some? ==> a.machine.value in w.store.past && a.machine.value.name == view.machines[s.node].name)
  }

  /** The marks this pass made go back to its signals and what it read. */
  ghost predicate MarkedFromView(cfg: Config, w: World, view: View) {
    forall r :: r in w.history.marks && r.pass == w.pass ==> exists s :: MadeOn(cfg, w, view, r, s)
  }

  /** So do the answers it gave. */
  ghost predicate AnsweredFromView(cfg: Config, w: World, view: View) {
    forall a :: a in w.history.answers && a.pass == w.pass ==> exists s :: ToldOn(cfg, w, view, a, s)
  }

  ghost predicate SoundState(cfg: Config, st: State, view: View) {
    && SoundWorld(st.w) && OneNodeEach(view.machines) && InView(st, view)
    && MarkedFromView(cfg, st.w, view) && AnsweredFromView(cfg, st.w, view)
  }

  ghost predicate WasPending(w: World, request: string) {
    WasFound(w.history, w.pass, request)
  }

  /** The state after a call that made no mark and touched at most the Machine
      of one node. */
  lemma AfterCall(cfg: Config, st: State, view: View, w: World, node: string, m: Machine)
    requires SoundState(cfg, st, view) && node in st.machines
    requires SoundWorld(w) && Later(st.w, w) && SameMarksAndAnswers(st.w, w)
    requires m in w.store.past && m.name == st.machines[node].name
    ensures SoundState(cfg, st.(w := w), view)
    ensures SoundState(cfg, st.(w := w, machines := st.machines[node := m]), view)
  {
    hide SoundWorld, OneNodeEach;
    AnswersStayTold(cfg, st.w, w, view);
    MarksStayMade(cfg, st.w, w, view);
    hide AnsweredFromView, MarkedFromView;
  }

  lemma MarksStayMade(cfg: Config, w: World, v: World, view: View)
    requires MarkedFromView(cfg, w, view) && Later(w, v) && v.history.marks == w.history.marks
    ensures MarkedFromView(cfg, v, view)
  {
    hide CallsForMark;
    forall r | r in v.history.marks && r.pass == v.pass ensures exists s :: MadeOn(cfg, v, view, r, s) {
      var s :| MadeOn(cfg, w, view, r, s);
      assert MadeOn(cfg, v, view, r, s);
    }
  }

  lemma AnswersStayTold(cfg: Config, w: World, v: World, view: View)
    requires AnsweredFromView(cfg, w, view) && Later(w, v) && v.history.answers == w.history.answers
    ensures AnsweredFromView(cfg, v, view)
  {
    hide AnswerDue;
    forall a | a in v.history.answers && a.pass == v.pass ensures exists s :: ToldOn(cfg, v, view, a, s) {
      var s :| ToldOn(cfg, w, view, a, s);
      assert ToldOn(cfg, v, view, a, s);
    }
  }

  lemma AfterRead(cfg: Config, st: State, view: View, w: World)
    requires SoundState(cfg, st, view)
    requires SoundWorld(w) && Later(st.w, w) && SameMarksAndAnswers(st.w, w)
    ensures SoundState(cfg, st.(w := w), view)
  {
    hide SoundWorld, OneNodeEach;
    AnswersStayTold(cfg, st.w, w, view);
    MarksStayMade(cfg, st.w, w, view);
    hide AnsweredFromView, MarkedFromView;
  }

  /** The state after a mark was set, or its write failed. */
  lemma AfterMark(cfg: Config, st: State, view: View, w: World, sig: Signal, made: MarkMade)
    requires SoundState(cfg, st, view) && sig.node in st.machines
    requires SoundWorld(w) && Later(st.w, w) && w.history.answers == st.w.history.answers
    requires forall x :: x in w.history.marks ==> x in st.w.history.marks || x == made.(upToDate := x.upToDate, over := x.over)
    requires MadeOn(cfg, st.w, view, made, sig)
    ensures SoundState(cfg, st.(w := w), view)
  {
    hide SoundWorld, OneNodeEach, CallsForMark;
    AnswersStayTold(cfg, st.w, w, view);
    forall r | r in w.history.marks && r.pass == w.pass ensures exists s :: MadeOn(cfg, w, view, r, s) {
      if r in st.w.history.marks {
        var s :| MadeOn(cfg, st.w, view, r, s);
        assert MadeOn(cfg, w, view, r, s);
      } else {
        assert MadeOn(cfg, w, view, r, sig);
      }
    }
    hide AnsweredFromView, MadeOn;
  }

  predicate DecidedFor(cfg: Config, view: View, sig: Signal, d: Decision) {
    sig in view.signals && d == DecisionIn(cfg, view.mode, sig) && (sig.request != "" ==> sig.node in view.nodes)
  }

  lemma MarkNowIsSafe(cfg: Config, view: View, st: State, sig: Signal, d: Decision, asks: Decision, m: Machine, obs: Observation)
    requires SoundState(cfg, st, view) && sig.node in st.machines && m == st.machines[sig.node]
    requires WasPending(st.w, sig.request) && DecidedFor(cfg, view, sig, d)
    requires (asks.Restart? ==> d.Restart?) && (cfg.dryRun || CallsForMark(cfg, view, sig, m, ActionOf(asks)))
    ensures
      var (st', o) := MarkNow(cfg, view, st, sig, d, asks, m, obs);
      SoundState(cfg, st', view) && Later(st.w, st'.w) && (o == obs || o.EmptyObservation?)
  {
    var record := if asks.Restart? then RestartRecord(BootOf(Find(view.nodes, sig.node)), sig.request) else RestartRecord("", "");
    var made := MarkMade(st.w.pass, sig.node, m, d, ActionOf(asks), record, true, map[]);
    ActionsDiffer();
    hide SoundWorld, MarkForRemediation, CallsForMark;
    assert MarkIsHonest(st.w, m, made);
    MarkKeepsSound(st.w, cfg.dryRun, m, sig.check, made);
    var (w, r) := MarkForRemediation(st.w, cfg.dryRun, m, sig.check, made);
    if cfg.dryRun {
      assert (w, r) == (st.w, Ok(m)) by { DryRunMarksNone(st.w, m, sig.check, made); }
      assert st.machines == st.machines[sig.node := m];
    } else {
      AfterMark(cfg, st, view, w, sig, made);
      if r.Ok? {
        AfterCall(cfg, st.(w := w), view, w, sig.node, r.value);
      }
    }
  }

  lemma DryRunMarksNone(w: World, m: Machine, reason: string, made: MarkMade)
    ensures MarkForRemediation(w, true, m, reason, made) == (w, Ok(m))
  {
  }

  lemma WaitsDoNotMatter(cfg: Config, st: State, view: View, waiting: Waiting)
    requires SoundState(cfg, st, view)
    ensures SoundState(cfg, st.(waiting := waiting), view)
  {
  }

  lemma UnavailableIsNeverYes(sig: Signal, ask: Ask)
    ensures Unavailable(sig, ask).Some? && Unavailable(sig, ask).value.Give? ==> !Unavailable(sig, ask).value.complete
  {
  }

  lemma NothingElapsed(w: World)
    ensures Later(w, w)
  {
  }

  lemma GuardedIsSafe(cfg: Config, view: View, st: State, sig: Signal, d: Decision, ask: Ask, m: Machine, obs: Observation)
    requires obs.Observed? && obs.answer.NoAnswer?
    requires SoundState(cfg, st, view) && sig.node in st.machines && m == st.machines[sig.node]
    requires WasPending(st.w, sig.request) && (ask.asks.Restart? ==> d.Restart?) && DecidedFor(cfg, view, sig, d)
    requires !d.Report? && (Guard(m).None? ==> ask == AskFor(cfg, view, d, m))
    ensures
      var (st', o) := Guarded(cfg, view, st, sig, d, ask, m, obs);
      SoundState(cfg, st', view) && Later(st.w, st'.w) && (o.Observed? && o.answer.Give? ==> !o.answer.complete)
  {
    hide SoundState, Later, MarkNow, Unavailable, HeldForChecks, AskFor, CallsForMark, Guard;
    NothingElapsed(st.w);
    UnavailableIsNeverYes(sig, ask);
    if ask.asks.Restart? { WaitsDoNotMatter(cfg, st, view, HeldForChecks(st.waiting, m, view.now).1); }
    if Guard(m).None? && Unavailable(sig, ask).None? {
      var waiting := if ask.asks.Restart? then HeldForChecks(st.waiting, m, view.now).1 else st.waiting;
      WaitsDoNotMatter(cfg, st, view, waiting);
      if !cfg.dryRun { MarkIsCalledFor(cfg, view, sig, d, m); }
      MarkNowIsSafe(cfg, view, st.(waiting := waiting), sig, d, ask.asks, m, obs);
    }
  }

  /** A True answer is only concluded about what the pass has in view. */
  ghost predicate ClaimsRestart(view: View, st: State, sig: Signal) {
    && sig.node in st.machines && sig.request != ""
    && RestartCompleted(st.machines[sig.node], Find(view.nodes, sig.node))
    && RestartAnswers(st.machines[sig.node], sig.request)
  }

  lemma EscalatedIsSafe(cfg: Config, view: View, st: State, sig: Signal, d: Decision, ask: Ask, m: Machine, obs: Observation)
    requires obs.Observed? && obs.answer.NoAnswer?
    requires SoundState(cfg, st, view) && sig.node in st.machines && m == st.machines[sig.node]
    requires WasPending(st.w, sig.request) && DecidedFor(cfg, view, sig, d) && !d.Report? && ask == AskFor(cfg, view, d, m)
    requires Escalate(st.w, cfg.dryRun, m, sig.check).1.Ok?
    ensures
      var (w, r) := Escalate(st.w, cfg.dryRun, m, sig.check);
      var st1 := st.(w := w, machines := st.machines[sig.node := r.value]);
      var (st', o) := Guarded(cfg, view, st1, sig, d, ask, r.value, obs);
      SoundState(cfg, st', view) && Later(st.w, st'.w) && (o.Observed? && o.answer.Give? ==> !o.answer.complete)
  {
    hide SoundState, SoundWorld, Escalate, Guarded, CoverageFor, RestartFallback, Covered, TemplatesOnly, Guard;
    ViewIsSound(cfg, st, view, sig.node);
    EscalateKeepsSound(st.w, cfg.dryRun, m, sig.check);
    EscalatedIsInProgress(st.w, cfg.dryRun, m, sig.check);
    var (w, r) := Escalate(st.w, cfg.dryRun, m, sig.check);
    AfterCall(cfg, st, view, w, sig.node, r.value);
    assert r.value.name == st.machines[sig.node].name;
    GuardedIsSafe(cfg, view, st.(w := w, machines := st.machines[sig.node := r.value]), sig, d, ask, r.value, obs);
  }

  lemma ViewIsSound(cfg: Config, st: State, view: View, node: string)
    requires SoundState(cfg, st, view)
    ensures SoundWorld(st.w) && st.machines.Keys == view.machines.Keys
    ensures node in st.machines ==> st.machines[node] in st.w.store.past
  {
  }

  lemma RemediateIsSafe(cfg: Config, view: View, st: State, sig: Signal, d: Decision, m: Machine, obs: Observation)
    requires obs.Observed? && obs.answer.NoAnswer?
    requires SoundState(cfg, st, view) && sig.node in st.machines && m == st.machines[sig.node]
    requires WasPending(st.w, sig.request) && DecidedFor(cfg, view, sig, d) && !d.Report?
    ensures
      var (st', o) := Remediate(cfg, view, st, sig, d, m, obs);
      && SoundState(cfg, st', view) && Later(st.w, st'.w)
      && (o.Observed? && o.answer.Give? && o.answer.complete ==> ClaimsRestart(view, st', sig))
  {
    hide SoundState, SoundWorld, Guarded, Escalate, CoverageFor, Covered, TemplatesOnly, RestartFallback, RestartCompleted;
    NothingElapsed(st.w);
    ViewIsSound(cfg, st, view, sig.node);
    var ask := AskFor(cfg, view, d, m);
    if Escalates(ask, d, m) {
      EscalateKeepsSound(st.w, cfg.dryRun, m, sig.check);
      var (w, r) := Escalate(st.w, cfg.dryRun, m, sig.check);
      if r.Ok? {
        EscalatedIsSafe(cfg, view, st, sig, d, ask, m, obs);
      } else {
        AfterRead(cfg, st, view, w);
      }
    } else {
      GuardedIsSafe(cfg, view, st, sig, d, ask, m, obs);
    }
  }

  lemma HandleIsSafe(cfg: Config, view: View, st: State, sig: Signal)
    requires SoundState(cfg, st, view) && WasPending(st.w, sig.request) && sig in view.signals
    ensures
      var (st', o) := Handle(cfg, view, st, sig);
      && SoundState(cfg, st', view) && Later(st.w, st'.w)
      && (o.Observed? && o.answer.Give? && o.answer.complete ==> ClaimsRestart(view, st', sig))
  {
    hide Remediate, SoundWorld, Decided;
    var d := DecisionIn(cfg, view.mode, sig);
    if sig.node in st.machines && !d.Report? && (sig.request != "" ==> sig.node in view.nodes) {
      var m := st.machines[sig.node];
      var obs := Observed(d, Decided(cfg.table, sig.actions).action, m.name, sig.request, None, NoAnswer);
      RemediateIsSafe(cfg, view, st, sig, d, m, obs);
    }
  }

  /** The mark of a finished restart was set by an earlier pass: one of this
      pass records the boot ID the node still has, or the node has none. */
  lemma FinishedMarkIsOlder(cfg: Config, view: View, st: State, sig: Signal)
    requires SoundState(cfg, st, view) && ClaimsRestart(view, st, sig)
    ensures exists r :: r in st.w.history.marks && SetBy(r, st.machines[sig.node]) && r.pass < st.w.pass
  {
    var m := st.machines[sig.node];
    assert HasMaker(st.w.history, m);
    var r :| r in st.w.history.marks && SetBy(r, m);
    assert HeldTrue(st.w, r);
  }

  lemma ReleaseStepIsSafe(cfg: Config, view: View, st: State, node: string)
    requires SoundState(cfg, st, view) && node in st.machines && MarkedFor(st.machines[node], ACTION_RESTART)
    ensures
      var (w, r) := Release(st.w, cfg.dryRun, st.machines[node]);
      && Later(st.w, w) && SoundState(cfg, st.(w := w), view)
      && (r.Ok? ==> SoundState(cfg, st.(w := w, machines := st.machines[node := r.value]), view))
  {
    var m := st.machines[node];
    ReleaseKeepsSound(st.w, cfg.dryRun, m);
    var (w, r) := Release(st.w, cfg.dryRun, m);
    AfterRead(cfg, st, view, w);
    if r.Ok? { AfterCall(cfg, st, view, w, node, r.value); }
  }

  lemma ReadStepIsSafe(cfg: Config, view: View, st: State, node: string)
    requires SoundState(cfg, st, view) && node in st.machines
    ensures
      var (w, r) := ReadCached(st.w, st.machines[node].name);
      && Later(st.w, w) && SoundState(cfg, st.(w := w), view)
      && (r.Ok? ==> SoundState(cfg, st.(w := w, machines := st.machines[node := r.value]), view))
  {
    ReadKeepsSound(st.w, st.machines[node].name);
    var (w, r) := ReadCached(st.w, st.machines[node].name);
    AfterRead(cfg, st, view, w);
    if r.Ok? { AfterCall(cfg, st, view, w, node, r.value); }
  }

  lemma {:induction false} ReleaseAnsweredIsSafe(cfg: Config, view: View, st: State, node: string, answered: RestartMark,
                                                 conflicted: bool, attempts: nat)
    requires SoundState(cfg, st, view) && node in st.machines
    requires answered.marked && answered.action == ACTION_RESTART
    requires !conflicted ==> MarkedFor(st.machines[node], ACTION_RESTART)
    ensures
      var st' := ReleaseAnswered(cfg, st, node, answered, conflicted, attempts);
      SoundState(cfg, st', view) && Later(st.w, st'.w)
    decreases attempts, if conflicted then 1 else 0
  {
    hide Release, ReadCached, SoundState;
    if attempts > 0 {
      var m := st.machines[node];
      if conflicted {
        ReadStepIsSafe(cfg, view, st, node);
        var (w, r) := ReadCached(st.w, m.name);
        if r.Ok? && RestartMarkOf(r.value) == answered {
          ReleaseAnsweredIsSafe(cfg, view, st.(w := w, machines := st.machines[node := r.value]), node, answered, false, attempts);
        }
      } else {
        ReleaseStepIsSafe(cfg, view, st, node);
        var (w, r) := Release(st.w, cfg.dryRun, m);
        if r.Err? && r.error.Conflict? {
          ReleaseAnsweredIsSafe(cfg, view, st.(w := w), node, answered, true, attempts - 1);
        }
      }
    }
  }

  /** The state after an answer was given, or its write failed. */
  lemma AfterAnswer(cfg: Config, st: State, view: View, w: World, sig: Signal, complete: bool, reason: AnswerReason)
    requires SoundState(cfg, st, view) && sig in view.signals
    requires !cfg.dryRun && AnswerDue(cfg, view, sig, Find(st.machines, sig.node), complete, reason)
    requires SoundWorld(w) && Later(st.w, w) && w.history.marks == st.w.history.marks
    requires forall x :: x in w.history.answers ==>
               x in st.w.history.answers
               || GivenFor(x, sig.request, complete, reason, Find(st.machines, sig.node), Find(view.nodes, sig.node))
    ensures SoundState(cfg, st.(w := w), view)
  {
    hide SoundWorld, OneNodeEach, AnswerDue;
    MarksStayMade(cfg, st.w, w, view);
    hide MarkedFromView;
    forall a | a in w.history.answers && a.pass == w.pass ensures exists s :: ToldOn(cfg, w, view, a, s) {
      if a in st.w.history.answers {
        var s :| ToldOn(cfg, st.w, view, a, s);
        assert ToldOn(cfg, w, view, a, s);
      } else {
        assert ToldOn(cfg, w, view, a, sig);
      }
    }
  }

  lemma ClaimIsTrue(cfg: Config, view: View, st: State, sig: Signal, complete: bool)
    requires SoundState(cfg, st, view) && (complete ==> ClaimsRestart(view, st, sig))
    ensures ClaimHolds(st.w, sig.request, complete, Find(st.machines, sig.node), Find(view.nodes, sig.node))
  {
    if complete {
      FinishedMarkIsOlder(cfg, view, st, sig);
    }
    hide SoundWorld, SetBy, RestartCompleted;
  }

  lemma TellRequestIsSafe(cfg: Config, view: View, st: State, sig: Signal, a: Answer)
    requires a.Give? && SoundState(cfg, st, view) && (a.complete ==> ClaimsRestart(view, st, sig)) && sig in view.signals
    requires AnswerDue(cfg, view, sig, Find(st.machines, sig.node), a.complete, a.reason)
    ensures
      var st' := TellRequest(cfg, view, st, sig, a);
      SoundState(cfg, st', view) && Later(st.w, st'.w)
  {
    hide SoundState, SoundWorld, AnswerRequest, ReleaseAnswered, ClaimHolds, AnswerDue;
    ViewIsSound(cfg, st, view, sig.node);
    if !cfg.dryRun {
      var machine, node := Find(st.machines, sig.node), Find(view.nodes, sig.node);
      ClaimIsTrue(cfg, view, st, sig, a.complete);
      AnswerKeepsSound(st.w, sig.request, a.complete, a.reason, machine, node);
      var (w, r) := AnswerRequest(st.w, sig.request, a.complete, a.reason, machine, node);
      AfterAnswer(cfg, st, view, w, sig, a.complete, a.reason);
      if r == Ok(true) && a.complete && machine.Some? {
        ReleaseAnsweredIsSafe(cfg, view, st.(w := w), sig.node, RestartMarkOf(machine.value), false, RELEASE_ATTEMPTS);
      }
    }
  }

  /** A step that concludes an answer leaves the Machine it is about. */
  lemma AnswerStaysDue(cfg: Config, view: View, st: State, s: Signal)
    ensures
      var (st', o) := Handle(cfg, view, st, s);
      o.Observed? && o.answer.Give? ==> AnswerDue(cfg, view, s, Find(st'.machines, s.node), o.answer.complete, o.answer.reason)
  {
    hide Handle, AnswerDue;
    AnsweredExactlyWhenDue(cfg, view, st, s);
    NothingIsAnsweredByActing(cfg, view, st, s);
  }

  lemma ActIsSafe(cfg: Config, view: View, p: Progress, sig: Signal)
    requires SoundState(cfg, p.st, view) && WasPending(p.st.w, sig.request) && sig in view.signals
    ensures SoundState(cfg, Act(cfg, view, p, sig).st, view) && Later(p.st.w, Act(cfg, view, p, sig).st.w)
  {
    hide SoundState, Handle, TellRequest;
    HandleIsSafe(cfg, view, p.st, sig);
    var (st, obs) := Handle(cfg, view, p.st, sig);
    if obs.Observed? && obs.answer.Give? {
      AnswerStaysDue(cfg, view, p.st, sig);
      TellRequestIsSafe(cfg, view, st, sig, obs.answer);
    }
  }

  lemma TakeSignalIsSafe(cfg: Config, view: View, previous: map<string, Observation>, p: Progress, sig: Signal)
    requires SoundState(cfg, p.st, view) && sig in view.signals
    ensures
      var p' := TakeSignal(cfg, view, previous, p, sig);
      SoundState(cfg, p'.st, view) && Later(p.st.w, p'.st.w)
  {
    if sig.request == "" {
      ActIsSafe(cfg, view, p, sig);
    } else {
      IsPendingKeepsSound(p.st.w, sig.request);
      var (w, r) := IsPending(p.st.w, sig.request);
      AfterRead(cfg, p.st, view, w);
      if r == Ok(true) {
        ActIsSafe(cfg, view, p.(st := p.st.(w := w), asking := p.asking + {sig.request}), sig);
      }
    }
  }

  lemma {:induction false} TakeSignalsIsSafe(cfg: Config, view: View, previous: map<string, Observation>, p: Progress, signals: seq<Signal>)
    requires SoundState(cfg, p.st, view) && forall s :: s in signals ==> s in view.signals
    ensures
      var p' := TakeSignals(cfg, view, previous, p, signals);
      SoundState(cfg, p'.st, view) && Later(p.st.w, p'.st.w)
  {
    if signals != [] {
      var n := |signals| - 1;
      TakeSignalsIsSafe(cfg, view, previous, p, signals[..n]);
      TakeSignalIsSafe(cfg, view, previous, TakeSignals(cfg, view, previous, p, signals[..n]), signals[n]);
    }
  }

  lemma {:induction false} ReleaseEachIsSafe(cfg: Config, view: View, st: State, nodes: seq<string>, held: set<string>)
    requires SoundState(cfg, st, view)
    ensures
      var st' := ReleaseEach(cfg, st, nodes, held);
      SoundState(cfg, st', view) && Later(st.w, st'.w) && st'.waiting == st.waiting
  {
    if nodes != [] {
      var n := |nodes| - 1;
      ReleaseEachIsSafe(cfg, view, st, nodes[..n], held);
      var before := ReleaseEach(cfg, st, nodes[..n], held);
      if nodes[n] in before.machines {
        var m := before.machines[nodes[n]];
        if Releasable(m, m.name in held) {
          ReleaseStepIsSafe(cfg, view, before, nodes[n]);
        }
      }
    }
  }

  // ------------------------------------------------------------------- runs

  // The operator between two passes: the world, and its volatile state.
  datatype Operator = Operator(w: World, seen: map<string, Observation>, waiting: Waiting)

  // One pass of a run: what others do before it, what becomes of each of its
  // calls, its settings and what it read; and whether, since the last pass,
  // the operator was restarted, the Cluster's mode changed, or the Cluster was
  // found paused or not connected.
  datatype Moment = Moment(edits: seq<WorldEdit>, turns: seq<Turn>, cfg: Config, view: View,
                           restarted: bool, newMode: bool, interrupted: bool)

  function Begin(o: Operator, m: Moment): World {
    EditAll(o.w, m.edits).(env := m.turns, alive := true, pass := o.w.pass + 1)
  }

  function Remembered(o: Operator, m: Moment): map<string, Observation> {
    if m.restarted || !o.w.alive || m.newMode then map[] else o.seen
  }

  function StillWaiting(o: Operator, m: Moment): Waiting {
    if m.restarted || !o.w.alive || m.interrupted then map[] else o.waiting
  }

  ghost function RunOn(o: Operator, m: Moment): Operator {
    var result := Pass(m.cfg, m.view, Remembered(o, m), Begin(o, m), StillWaiting(o, m));
    Operator(result.st.w, result.seen, result.st.waiting)
  }

  /** A pass reads each Machine in some version there was, and no Machine under
      two nodes. */
  ghost predicate CouldRead(o: Operator, m: Moment) {
    OneNodeEach(m.view.machines)
    && forall n :: n in m.view.machines ==> m.view.machines[n] in Begin(o, m).store.past
  }

  /** The operator was never at work, and nobody else writes what it records. */
  ghost predicate Untouched(o: Operator) {
    && Sound(o.w.store) && SoundRequests(o.w) && o.w.own == map[]
    && o.w.history == History({}, {}, {}, {})
    && forall m :: m in o.w.store.past ==> NoOwn(m)
  }

  ghost predicate IsRun(run: seq<Operator>, moments: seq<Moment>) {
    && |run| == |moments| + 1 && Untouched(run[0])
    && forall i :: 0 <= i < |moments| ==> CouldRead(run[i], moments[i]) && run[i + 1] == RunOn(run[i], moments[i])
  }

  lemma UntouchedIsSound(o: Operator)
    requires Untouched(o)
    ensures SoundWorld(o.w)
  {
    assert RemediationAction in OWN_KEYS;
  }

  lemma BeginIsSound(o: Operator, m: Moment)
    requires SoundWorld(o.w) && CouldRead(o, m)
    ensures SoundState(m.cfg, State(Begin(o, m), m.view.machines, map[]), m.view)
    ensures Begin(o, m).history == o.w.history && o.w.store.past <= Begin(o, m).store.past
  {
    EditsKeepWorld(o.w, m.edits);
    var v := EditAll(o.w, m.edits);
    var w := Begin(o, m);
    assert forall r :: HeldTrue(v, r) ==> HeldTrue(w, r);
    assert forall r :: r in v.history.marks ==> HeldTrue(v, r);
  }

  /** A pass, disturbed anywhere, keeps the protocol's invariant, and the marks
      and answers it makes go back to what it read. */
  lemma PassIsSafe(o: Operator, m: Moment)
    requires SoundWorld(o.w) && CouldRead(o, m)
    ensures
      var w := RunOn(o, m).w;
      && SoundWorld(w) && MarkedFromView(m.cfg, w, m.view) && AnsweredFromView(m.cfg, w, m.view) && w.pass == o.w.pass + 1
      && o.w.store.past <= w.store.past && o.w.history.pending <= w.history.pending
      && (forall r :: r in w.history.marks ==> r in o.w.history.marks || r.pass == w.pass)
      && (forall a :: a in w.history.answers ==> a in o.w.history.answers || a.pass == w.pass)
  {
    var seen, waiting := Remembered(o, m), StillWaiting(o, m);
    var p0 := Start(Begin(o, m), m.view, waiting);
    BeginIsSound(o, m);
    assert SoundState(m.cfg, p0.st, m.view);
    TakeSignalsIsSafe(m.cfg, m.view, seen, p0, m.view.signals);
    var p := TakeSignals(m.cfg, m.view, seen, p0, m.view.signals);
    if !p.unreadable {
      ReleaseEachIsSafe(m.cfg, m.view, p.st, InOrder(p.st.machines.Keys),
                        HeldNames(p.st.machines, m.view.nodes, p.asking, p.current));
    }
  }

  lemma {:induction false} RunIsSound(run: seq<Operator>, moments: seq<Moment>, i: nat)
    requires IsRun(run, moments) && i < |run|
    ensures SoundWorld(run[i].w)
  {
    if i == 0 {
      UntouchedIsSound(run[0]);
    } else {
      RunIsSound(run, moments, i - 1);
      assert CouldRead(run[i - 1], moments[i - 1]);
      PassIsSafe(run[i - 1], moments[i - 1]);
    }
  }

  /** Every mark was made by a pass of the run for one of its signals, as that
      was decided, and a restart mark records the boot ID the node was read with
      and the signal's request. */
  lemma {:induction false} MarksRecordWhatWasSeen(run: seq<Operator>, moments: seq<Moment>, i: nat, r: MarkMade)
    returns (j: nat, s: Signal)
    requires IsRun(run, moments) && i < |run| && r in run[i].w.history.marks
    ensures j < i && r.pass == run[j + 1].w.pass && MadeOn(moments[j].cfg, run[i].w, moments[j].view, r, s)
  {
    hide RunOn, SoundWorld, CallsForMark;
    var o, m := run[i - 1], moments[i - 1];
    RunIsSound(run, moments, i - 1);
    assert CouldRead(o, m);
    PassIsSafe(o, m);
    if r in o.w.history.marks {
      j, s := MarksRecordWhatWasSeen(run, moments, i - 1, r);
    } else {
      j := i - 1;
      s :| MadeOn(m.cfg, run[i].w, m.view, r, s);
    }
  }

  /** The pass found the request, if one is named, waiting for an answer. */
  ghost predicate FoundWaiting(h: History, pass: nat, request: string) {
    request != "" ==> exists f :: f in h.pending && f.pass == pass && f.request.name == request && AwaitsAnswer(f.request)
  }

  lemma FoundWasWaiting(w: World, pass: nat, request: string)
    requires OnlyWaitingFound(w.history) && WasFound(w.history, pass, request)
    ensures FoundWaiting(w.history, pass, request)
  {
    hide AwaitsAnswer, Pending;
    if request != "" {
      var f :| f in w.history.pending && f.pass == pass && f.request.name == request;
      PendingExactlyWhen(f.request);
    }
  }

  lemma RequestsFoundWereWaiting(run: seq<Operator>, moments: seq<Moment>, i: nat, pass: nat, request: string)
    requires IsRun(run, moments) && i < |run| && WasFound(run[i].w.history, pass, request)
    ensures FoundWaiting(run[i].w.history, pass, request)
  {
    RunIsSound(run, moments, i);
    FoundWasWaiting(run[i].w, pass, request);
  }

  /** In every run, whatever its passes run into, a mark was made by a pass that
      is no dry run and not in report-only mode, for one of its signals: the
      request it came from, if any, was waiting when found; the Machine, in the
      version that pass had of it, was not being deleted, no control plane,
      unmarked, neither paused nor opted out, and selected by a check that was
      not paused. A restart mark takes that the table calls for a restart and not
      for a replacement, and that all checks that select the Machine have
      templates. Any other mark asks for a replacement, which the table calls for
      or the fallback puts in the place of a restart that not all of these
      checks can carry out. */
  lemma EveryMarkIsCalledFor(run: seq<Operator>, moments: seq<Moment>, i: nat, r: MarkMade) returns (j: nat, s: Signal)
    requires IsRun(run, moments) && i < |run| && r in run[i].w.history.marks
    ensures j < i && r.pass == run[j + 1].w.pass && s in moments[j].view.signals && r.node == s.node
    ensures s.node in moments[j].view.machines && moments[j].view.machines[s.node].name == r.seen.name
    ensures !moments[j].cfg.dryRun && !moments[j].view.mode.ReportOnly?
    ensures FoundWaiting(run[i].w.history, r.pass, s.request) && (s.request != "" ==> s.node in moments[j].view.nodes)
    ensures r.seen in run[i].w.store.past && !r.seen.deleting && !r.seen.controlPlane
    ensures RemediateMachine !in r.seen.annotations && PausedKey !in r.seen.annotations
            && SkipRemediationKey !in r.seen.annotations
    ensures exists k :: k in moments[j].view.checks && k.namespace == r.seen.namespace && k.cluster == r.seen.cluster
                        && r.seen.name in k.selected && !k.paused
    ensures
      var t, view := moments[j].cfg.table, moments[j].view;
      if r.action == "Restart" then
        && Reached(t, s.actions, Restart) && !Reached(t, s.actions, Replace)
        && (forall k :: HasCheck(view.checks, r.seen, k) ==> k.template.Some?)
      else
        && r.action == "Remediate"
        && (Reached(t, s.actions, Replace)
            || (&& Reached(t, s.actions, Restart)
                && (exists k :: HasCheck(view.checks, r.seen, k) && k.template.None?)
                && (view.override == Some("replace")
                    || (view.override != Some("report") && moments[j].cfg.fallback == Some(ReplaceInstead)))))
  {
    hide HasCheck, Reached, WasFound, FoundWaiting, RunOn, Untouched, CouldRead;
    j, s := MarksRecordWhatWasSeen(run, moments, i, r);
    RequestsFoundWereWaiting(run, moments, i, r.pass, s.request);
    DecisionByMode(moments[j].cfg, moments[j].view.mode, s);
    var k :| HasCheck(moments[j].view.checks, r.seen, k) && !k.paused;
    CheckSelects(moments[j].view.checks, r.seen, k);
  }

  lemma CheckSelects(checks: seq<Check>, m: Machine, k: Check)
    requires HasCheck(checks, m, k)
    ensures k in checks && k.namespace == m.namespace && k.cluster == m.cluster && m.name in k.selected
  {
  }

  /** Every answer was given by a pass of the run to the request of one of its
      signals, with the node as that pass read it and a version of the Machine
      it read for that node. */
  lemma {:induction false} AnswersTellWhatWasSeen(run: seq<Operator>, moments: seq<Moment>, i: nat, a: AnswerGiven)
    returns (j: nat, s: Signal)
    requires IsRun(run, moments) && i < |run| && a in run[i].w.history.answers
    ensures j < i && a.pass == run[j + 1].w.pass && ToldOn(moments[j].cfg, run[i].w, moments[j].view, a, s)
  {
    hide RunOn, SoundWorld;
    var o, m := run[i - 1], moments[i - 1];
    RunIsSound(run, moments, i - 1);
    assert CouldRead(o, m);
    PassIsSafe(o, m);
    if a in o.w.history.answers {
      j, s := AnswersTellWhatWasSeen(run, moments, i - 1, a);
    } else {
      j := i - 1;
      s :| ToldOn(m.cfg, run[i].w, m.view, a, s);
    }
  }

  /** In every run, with edits by others, failures and crashes between any two
      calls: each answer was given on a pass to the request of one of its
      signals; it went to a pending version of it, settled it and changed
      nothing else about it. An answer of True rests on what that pass read: the
      Machine of the signal's node under this operator's restart mark, naming
      that request or none, with a boot ID recorded, and the node Ready on
      another. */
  lemma EveryAnswerIsEarned(run: seq<Operator>, moments: seq<Moment>, i: nat, a: AnswerGiven) returns (j: nat, s: Signal)
    requires IsRun(run, moments) && i < |run| && a in run[i].w.history.answers
    ensures j < i && a.pass == run[j + 1].w.pass
    ensures s in moments[j].view.signals && s.request == a.before.name && a.node == Find(moments[j].view.nodes, s.node)
    ensures a.machine.Some? <==> s.node in moments[j].view.machines
    ensures a.machine.Some? ==> a.machine.value in run[i].w.store.past
                                && a.machine.value.name == moments[j].view.machines[s.node].name
    ensures !moments[j].cfg.dryRun && AnswerDue(moments[j].cfg, moments[j].view, s, a.machine, a.complete, a.reason)
    ensures AwaitsAnswer(a.before)
    ensures FirstIs(a.after.conditions, "ExternalRemediationComplete", if a.complete then "True" else "False")
    ensures forall c :: c in a.after.conditions && c.kind == "ExternalRemediationComplete" ==> c.reason == a.reason
    ensures a.after.conditions == WithAnswer(a.before.conditions, AnswerCondition(a.complete, a.reason))
    ensures a.complete ==>
              && a.machine.Some? && a.node.Some?
              && MarkedFor(a.machine.value, "Restart")
              && Value(a.machine.value.annotations, RemediationRequest) in {"", a.before.name}
              && Value(a.machine.value.annotations, RemediationBootID) !in {"", a.node.value.bootID}
              && a.node.value.bootID != "" && FirstIsTrue(a.node.value.conditions, "Ready")
  {
    hide AwaitsAnswer, Pending, FirstIs, FirstIsTrue, AnswerDue, WithAnswer, RestartCompleted;
    RunIsSound(run, moments, i);
    assert Settles(a) && SawRestart(a);
    AnswerSettlesAndKeepsTheRest(a.before.conditions, a.complete, a.reason, COMPLETE);
    StatusIsOfTheFirst(a.after.conditions, COMPLETE, if a.complete then "True" else "False");
    PendingExactlyWhen(a.before);
    j, s := AnswersTellWhatWasSeen(run, moments, i, a);
    if a.complete { CompletedExactlyWhen(a.machine.value, a.node); }
  }

  /** In every run, an answer of True rests on a mark that an earlier pass set,
      for one of its signals, which it decided to restart and found pending if it
      is a request's. The Machine carries the boot ID that pass read and the
      request of that signal exactly when the mark stood alone, which it did if
      the pass had the operator's own last write in view, or recorded both; and
      then a request the Machine names is the one answered. */
  lemma EveryCreditIsDue(run: seq<Operator>, moments: seq<Moment>, i: nat, a: AnswerGiven)
    returns (r: MarkMade, j: nat, s: Signal)
    requires IsRun(run, moments) && i < |run| && a in run[i].w.history.answers && a.complete
    ensures a.machine.Some? && r in run[i].w.history.marks && SetBy(r, a.machine.value) && r.pass < a.pass
    ensures j < i && r.pass == run[j + 1].w.pass && s in moments[j].view.signals
    ensures s.node in moments[j].view.machines && moments[j].view.machines[s.node].name == a.machine.value.name
    ensures DecisionIn(moments[j].cfg, moments[j].view.mode, s) == Restart
    ensures FoundWaiting(run[i].w.history, r.pass, s.request)
    ensures RecordOn(a.machine.value.annotations) == RestartRecord(BootOf(Find(moments[j].view.nodes, s.node)), s.request)
            <==> StandsAlone(r)
    ensures r.upToDate || (r.record.bootID != "" && r.record.request != "") ==> StandsAlone(r)
    ensures StandsAlone(r) && Value(a.machine.value.annotations, RemediationRequest) != "" ==> s.request == a.before.name
  {
    hide RunOn, Untouched, CouldRead, CallsForMark, FoundWaiting, WasFound, RecordOn, LeftBy, StandsAlone, DecisionIn;
    r := TheMarkItRestsOn(run, moments, i, a);
    j, s := MarksRecordWhatWasSeen(run, moments, i, r);
    RequestsFoundWereWaiting(run, moments, i, r.pass, s.request);
  }

  lemma TheMarkItRestsOn(run: seq<Operator>, moments: seq<Moment>, i: nat, a: AnswerGiven) returns (r: MarkMade)
    requires IsRun(run, moments) && i < |run| && a in run[i].w.history.answers && a.complete
    ensures a.machine.Some? && r in run[i].w.history.marks && SetBy(r, a.machine.value) && r.pass < a.pass
    ensures RecordOn(a.machine.value.annotations) == r.record <==> StandsAlone(r)
    ensures r.upToDate || (r.record.bootID != "" && r.record.request != "") ==> StandsAlone(r)
    ensures StandsAlone(r) && Value(a.machine.value.annotations, RemediationRequest) != "" ==> r.record.request == a.before.name
  {
    RunIsSound(run, moments, i);
    assert Credited(run[i].w.history, a) && SawRestart(a);
    r :| r in run[i].w.history.marks && SetBy(r, a.machine.value) && r.pass < a.pass;
    assert HeldTrue(run[i].w, r);
    RecordIsItsOwnExactlyWhen(r, a.machine.value);
    hide SoundWorld, RestartCompleted;
  }

  /** In every run, a write of the operator to a Machine under a replacement
      mark of its own keeps that mark exactly when it does not set a restart
      mark; and it sets no mark there with its own last write in view. Releases
      and escalations keep it, however stale what they were decided on. */
  lemma ReplacementMarksStay(run: seq<Operator>, moments: seq<Moment>, i: nat, x: MachineWrite)
    requires IsRun(run, moments) && i < |run| && x in run[i].w.history.writes && MarkedFor(x.before, ACTION_REMEDIATE)
    ensures MarkedFor(x.after, ACTION_REMEDIATE) <==> x.kind != MarkWrite(ACTION_RESTART)
    ensures x.kind.MarkWrite? ==> !x.upToDate
  {
    RunIsSound(run, moments, i);
    assert KeepsReplacement(x);
  }

  /** In every run a write of the operator to a Machine changes nothing but the
      five annotations of the mark. A release removes all of them; an escalation
      leaves a mark for a replacement, with neither boot ID nor request; and a
      mark asks for what it was made for. */
  lemma EveryWriteIsOfTheMark(run: seq<Operator>, moments: seq<Moment>, i: nat, x: MachineWrite)
    requires IsRun(run, moments) && i < |run| && x in run[i].w.history.writes
    ensures OnlyTheMark(x.kind, x.before, x.after)
  {
    RunIsSound(run, moments, i);
  }
}
