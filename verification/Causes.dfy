// What every write of a run to a Machine is due to, and what becomes of
// requests that cannot be read, of report-only mode and of dry runs.

module Causes {
  import opened Text
  import opened Signals
  import opened Decisions
  import opened Machines
  import opened Requests
  import opened Store
  import opened ClusterWorld
  import opened ClusterSound
  import opened Waits
  import opened Passes
  import opened Declines
  import opened PassSafety
  import opened ReleaseSafety

  // ------------------------------------------------------------------ causes

  /** The release is of the Machine a True answer of the pass was given about,
      under the mark that was answered. */
  ghost predicate DueByAnswer(h: History, pass: nat, x: MachineWrite) {
    exists a :: a in h.answers && a.pass == pass && a.complete && a.machine.Some?
                && a.machine.value.name == x.before.name && SameMark(a.machine.value, x.before)
  }

  /** The same action is asked for, on the same record. */
  predicate SameMark(m: Machine, n: Machine) {
    && MarkedAction(m) == MarkedAction(n)
    && Value(m.annotations, RemediationBootID) == Value(n.annotations, RemediationBootID)
    && Value(m.annotations, RemediationRequest) == Value(n.annotations, RemediationRequest)
  }

  /** A mark of the pass was set on the Machine with this action. */
  ghost predicate DueByMark(h: History, pass: nat, name: string, action: string) {
    exists r :: r in h.marks && r.pass == pass && r.seen.name == name && r.action == action
  }

  /** The signal calls for a replacement of the Machine, which is marked for a
      restart: by the table, or since that restart is not over and not all checks
      can carry it out; then a pause or an opt-out stands against it. */
  ghost predicate CallsForEscalation(cfg: Config, view: View, s: Signal, m: Machine) {
    var d := DecisionIn(cfg, view.mode, s);
    && s in view.signals && s.node in view.machines && view.machines[s.node].name == m.name
    && MarkedFor(m, ACTION_RESTART) && !m.deleting
    && (d == Replace
        || (&& d == Restart && ReplacesInstead(cfg, view) && !IsPaused(m) && !IsOptedOut(m)
            && (s.request != "" ==> !IsFinished(view, s, d, m))
            && (exists k :: HasCheck(view.checks, m, k) && !k.paused) && !AllHaveTemplates(view.checks, m)))
  }

  ghost predicate DueBySignal(cfg: Config, view: View, h: History, pass: nat, x: MachineWrite) {
    exists s: Signal :: WasFound(h, pass, s.request) && CallsForEscalation(cfg, view, s, x.before)
  }

  ghost predicate Caused(cfg: Config, view: View, h: History, pass: nat, x: MachineWrite) {
    && !cfg.dryRun
    && match x.kind
       case ReleaseWrite => DueByAnswer(h, pass, x)
       case MarkWrite(action) => DueByMark(h, pass, x.before.name, action)
       case EscalateWrite => DueBySignal(cfg, view, h, pass, x)
  }

  /** Every new write has its cause. */
  ghost predicate AllCaused(cfg: Config, view: View, w: World, v: World) {
    forall x :: x in v.history.writes ==> x in w.history.writes || Caused(cfg, view, v.history, v.pass, x)
  }

  lemma CausedLater(cfg: Config, view: View, h: History, g: History, pass: nat, x: MachineWrite)
    requires Caused(cfg, view, h, pass, x) && h.answers <= g.answers && h.marks <= g.marks && h.pending <= g.pending
    ensures Caused(cfg, view, g, pass, x)
  {
    hide CallsForEscalation, SameMark;
    if x.kind.EscalateWrite? {
      var s: Signal :| WasFound(h, pass, s.request) && CallsForEscalation(cfg, view, s, x.before);
      assert WasFound(g, pass, s.request);
    }
  }

  lemma CausesChain(cfg: Config, view: View, u: World, v: World, w: World)
    requires AllCaused(cfg, view, u, v) && AllCaused(cfg, view, v, w) && Later(v, w)
    ensures AllCaused(cfg, view, u, w)
  {
    hide Caused;
    forall x | x in w.history.writes && x !in u.history.writes ensures Caused(cfg, view, w.history, w.pass, x) {
      if x in v.history.writes { CausedLater(cfg, view, v.history, w.history, v.pass, x); }
    }
  }

  lemma NothingWritten(cfg: Config, view: View, w: World, v: World)
    requires v.history.writes == w.history.writes
    ensures AllCaused(cfg, view, w, v)
  {
  }

  // ------------------------------------------------- what acting on a signal writes

  lemma EscalationIsCalledFor(cfg: Config, view: View, s: Signal, m: Machine)
    requires
      var d := DecisionIn(cfg, view.mode, s);
      && !d.Report? && Escalates(AskFor(cfg, view, d, m), d, m) && MarkedFor(m, ACTION_RESTART) && !m.deleting
      && (s.request != "" ==> !IsFinished(view, s, d, m))
    requires s in view.signals && s.node in view.machines && view.machines[s.node].name == m.name
    ensures CallsForEscalation(cfg, view, s, m)
  {
    CoveredExactlyWhen(view.checks, m);
    FallbackByValue(cfg.fallback, view.override);
    hide CoverageFor, RestartFallback, Covered, TemplatesOnly, DecisionIn, HasCheck, AllHaveTemplates, IsFinished;
  }

  lemma EscalateIsCaused(cfg: Config, view: View, st: State, s: Signal, m: Machine)
    requires SoundState(cfg, st, view) && s.node in st.machines && m == st.machines[s.node] && WasPending(st.w, s.request)
    requires MarkedFor(m, ACTION_RESTART) && !m.deleting ==> CallsForEscalation(cfg, view, s, m)
    ensures AllCaused(cfg, view, st.w, Escalate(st.w, cfg.dryRun, m, s.check).0)
  {
    hide SoundState, SoundWorld, CallsForEscalation, Escalated;
    ViewIsSound(cfg, st, view, s.node);
    ArriveKeepsSound(st.w);
    var a := Arrive(st.w);
    if MarkedFor(m, ACTION_RESTART) && !m.deleting && !cfg.dryRun && a.Served() && Locked(a.w.store, m).None? {
      StoreIsSound(a.w);
      LockedHitsWhatWasSeen(a.w.store, m);
      var v := Escalate(st.w, cfg.dryRun, m, s.check).0;
      forall x | x in v.history.writes && x !in st.w.history.writes ensures Caused(cfg, view, v.history, v.pass, x) {
        assert x.kind == EscalateWrite && x.before == m;
        assert WasFound(v.history, v.pass, s.request);
      }
    }
  }

  lemma MarkIsCaused(cfg: Config, view: View, w: World, m: Machine, reason: string, made: MarkMade)
    requires SoundWorld(w) && made.seen == m && made.pass == w.pass
    ensures AllCaused(cfg, view, w, MarkForRemediation(w, cfg.dryRun, m, reason, made).0)
  {
    hide SoundWorld, Merged, Guard;
    ArriveKeepsSound(w);
    var a := Arrive(w);
    if Guard(m).None? && !cfg.dryRun && a.Served() && m.name in a.w.store.machines {
      StoreIsSound(a.w);
      var v := MarkWritten(a.w, m, reason, made);
      var r := made.(upToDate := IsUpToDate(a.w, m), pass := a.w.pass, over := a.w.store.machines[m.name].annotations);
      assert r in v.history.marks;
      forall x | x in v.history.writes && x !in w.history.writes ensures Caused(cfg, view, v.history, v.pass, x) {
        assert x.kind == MarkWrite(made.action) && x.before.name == m.name;
      }
    }
  }

  lemma MarkNowIsCaused(cfg: Config, view: View, st: State, s: Signal, d: Decision, asks: Decision, m: Machine, obs: Observation)
    requires SoundWorld(st.w)
    ensures AllCaused(cfg, view, st.w, MarkNow(cfg, view, st, s, d, asks, m, obs).0.w)
  {
    hide SoundWorld, MarkForRemediation, AllCaused;
    var record := if asks.Restart? then RestartRecord(BootOf(Find(view.nodes, s.node)), s.request) else RestartRecord("", "");
    MarkIsCaused(cfg, view, st.w, m, s.check, MarkMade(st.w.pass, s.node, m, d, ActionOf(asks), record, true, map[]));
  }

  lemma GuardedIsCaused(cfg: Config, view: View, st: State, s: Signal, d: Decision, ask: Ask, m: Machine, obs: Observation)
    requires SoundWorld(st.w) && obs.Observed?
    ensures AllCaused(cfg, view, st.w, Guarded(cfg, view, st, s, d, ask, m, obs).0.w)
  {
    hide SoundWorld, MarkNow, Guard, Unavailable, HeldForChecks, AllCaused;
    NothingWritten(cfg, view, st.w, st.w);
    MarkNowIsCaused(cfg, view, st, s, d, ask.asks, m, obs);
    MarkNowIsCaused(cfg, view, st.(waiting := HeldForChecks(st.waiting, m, view.now).1), s, d, ask.asks, m, obs);
  }

  lemma GuardedElapses(cfg: Config, view: View, st: State, s: Signal, d: Decision, ask: Ask, m: Machine, obs: Observation)
    requires SoundState(cfg, st, view) && obs.Observed? && obs.answer.NoAnswer? && s.node in st.machines
    requires WasPending(st.w, s.request) && DecidedFor(cfg, view, s, d) && !d.Report? && ask == AskFor(cfg, view, d, m)
    requires m == st.machines[s.node] && Escalate(st.w, cfg.dryRun, m, s.check).1.Ok?
    ensures
      var (w, r) := Escalate(st.w, cfg.dryRun, m, s.check);
      var st1 := st.(w := w, machines := st.machines[s.node := r.value]);
      SoundWorld(w) && Later(st.w, w) && Later(w, Guarded(cfg, view, st1, s, d, ask, r.value, obs).0.w)
  {
    hide SoundState, SoundWorld, Escalate, Guarded, CoverageFor, RestartFallback, Covered, TemplatesOnly, Guard, Later;
    ViewIsSound(cfg, st, view, s.node);
    EscalateKeepsSound(st.w, cfg.dryRun, m, s.check);
    EscalatedIsInProgress(st.w, cfg.dryRun, m, s.check);
    var (w, r) := Escalate(st.w, cfg.dryRun, m, s.check);
    assert r.value.name == st.machines[s.node].name;
    assert WasPending(w, s.request) by { StaysPending(st.w, w, s.request); }
    AfterCall(cfg, st, view, w, s.node, r.value);
    GuardedIsSafe(cfg, view, st.(w := w, machines := st.machines[s.node := r.value]), s, d, ask, r.value, obs);
  }

  lemma StaysPending(w: World, v: World, request: string)
    requires WasPending(w, request) && Later(w, v)
    ensures WasPending(v, request)
  {
  }

  lemma RemediateIsCaused(cfg: Config, view: View, st: State, s: Signal, d: Decision, m: Machine, obs: Observation)
    requires SoundState(cfg, st, view) && obs.Observed? && obs.answer.NoAnswer? && s.node in st.machines && m == st.machines[s.node]
    requires WasPending(st.w, s.request) && DecidedFor(cfg, view, s, d) && !d.Report?
    ensures AllCaused(cfg, view, st.w, Remediate(cfg, view, st, s, d, m, obs).0.w)
  {
    hide SoundState, SoundWorld, Guarded, Escalate, AskFor, Escalates, RestartCompleted, RestartAnswers, AllCaused,
         CallsForEscalation, DecisionIn, Later;
    NothingWritten(cfg, view, st.w, st.w);
    ViewIsSound(cfg, st, view, s.node);
    var ask := AskFor(cfg, view, d, m);
    if !Escalates(ask, d, m) {
      GuardedIsCaused(cfg, view, st, s, d, ask, m, obs);
    } else if !(s.request != "" && IsFinished(view, s, d, m)) {
      if MarkedFor(m, ACTION_RESTART) && !m.deleting {
        assert view.machines[s.node].name == m.name by { SeenByName(cfg, st, view, s.node); }
        EscalationIsCalledFor(cfg, view, s, m);
      }
      EscalateIsCaused(cfg, view, st, s, m);
      var (w, r) := Escalate(st.w, cfg.dryRun, m, s.check);
      if r.Ok? {
        var st1 := st.(w := w, machines := st.machines[s.node := r.value]);
        GuardedElapses(cfg, view, st, s, d, ask, m, obs);
        GuardedIsCaused(cfg, view, st1, s, d, ask, r.value, obs);
        CausesChain(cfg, view, st.w, w, Guarded(cfg, view, st1, s, d, ask, r.value, obs).0.w);
      }
    }
  }

  lemma SeenByName(cfg: Config, st: State, view: View, n: string)
    requires SoundState(cfg, st, view) && n in st.machines
    ensures n in view.machines && view.machines[n].name == st.machines[n].name
  {
  }

  lemma HandleIsCaused(cfg: Config, view: View, st: State, s: Signal)
    requires SoundState(cfg, st, view) && WasPending(st.w, s.request) && s in view.signals
    ensures AllCaused(cfg, view, st.w, Handle(cfg, view, st, s).0.w)
  {
    hide SoundState, Remediate, Decided, AllCaused;
    NothingWritten(cfg, view, st.w, st.w);
    var d := DecisionIn(cfg, view.mode, s);
    if s.node in st.machines && !d.Report? && (s.request != "" ==> s.node in view.nodes) {
      var m := st.machines[s.node];
      RemediateIsCaused(cfg, view, st, s, d, m,
                        Observed(d, Decided(cfg.table, s.actions).action, m.name, s.request, None, NoAnswer));
    }
  }

  // ------------------------------------------------------ what answering writes

  /** Every new write is a release of this Machine under this very mark. */
  ghost predicate OnlyReleases(w: World, v: World, name: string, answered: RestartMark) {
    forall x :: x in v.history.writes ==>
      x in w.history.writes || (x.kind.ReleaseWrite? && x.before.name == name && RestartMarkOf(x.before) == answered)
  }

  lemma ReleaseOnlyReleases(w: World, dryRun: bool, m: Machine)
    requires SoundWorld(w) && m in w.store.past
    ensures OnlyReleases(w, Release(w, dryRun, m).0, m.name, RestartMarkOf(m))
  {
    hide SoundWorld, Release;
    ReleaseWritesWhatWasSeen(w, dryRun, m);
  }

  lemma ReadWritesNothing(w: World, name: string)
    requires SoundWorld(w)
    ensures ReadCached(w, name).0.history == w.history
  {
    ArriveKeepsSound(w);
    hide SoundWorld;
  }

  lemma {:induction false} ReleaseAnsweredOnlyReleases(cfg: Config, view: View, st: State, node: string, answered: RestartMark,
                                                       conflicted: bool, attempts: nat)
    requires SoundState(cfg, st, view) && node in st.machines
    requires answered.marked && answered.action == ACTION_RESTART
    requires !conflicted ==> RestartMarkOf(st.machines[node]) == answered
    ensures OnlyReleases(st.w, ReleaseAnswered(cfg, st, node, answered, conflicted, attempts).w, st.machines[node].name, answered)
    decreases attempts, if conflicted then 1 else 0
  {
    hide Release, ReadCached, SoundWorld, OneNodeEach, MarkedFromView, AnsweredFromView;
    if attempts > 0 {
      var m := st.machines[node];
      if conflicted {
        ReadStepIsSafe(cfg, view, st, node);
        ReadWritesNothing(st.w, m.name);
        ReadKeepsSound(st.w, m.name);
        var (w, r) := ReadCached(st.w, m.name);
        if r.Ok? && RestartMarkOf(r.value) == answered {
          ReleaseAnsweredOnlyReleases(cfg, view, st.(w := w, machines := st.machines[node := r.value]), node, answered, false, attempts);
        }
      } else {
        ReleaseStepIsSafe(cfg, view, st, node);
        ReleaseOnlyReleases(st.w, cfg.dryRun, m);
        var (w, r) := Release(st.w, cfg.dryRun, m);
        if r.Err? && r.error.Conflict? {
          ReleaseAnsweredOnlyReleases(cfg, view, st.(w := w), node, answered, true, attempts - 1);
        }
      }
    }
  }

  /** What answering a request does to the history. */
  ghost predicate KeepsAnswer(w: World, v: World, answered: bool, complete: bool, machine: Option<Machine>) {
    && v.history.writes == w.history.writes
    && (answered ==> exists a :: a in v.history.answers && a.pass == w.pass && a.complete == complete && a.machine == machine)
  }

  lemma PatchIsKept(w: World, name: string, seen: Request, conditions: seq<Requests.Condition>, complete: bool, reason: AnswerReason,
                    machine: Option<Machine>, node: Option<Node>)
    requires SoundWorld(w)
    ensures
      var (v, r) := PatchConditions(w, name, seen, conditions, complete, reason, machine, node);
      KeepsAnswer(w, v, r == Ok(true), complete, machine)
  {
    hide SoundWorld;
    ArriveKeepsSound(w);
    var b := Arrive(w);
    var (v, r) := PatchConditions(w, name, seen, conditions, complete, reason, machine, node);
    if r == Ok(true) {
      assert AnswerGiven(w.pass, complete, reason, b.w.requests[name], v.requests[name], machine, node) in v.history.answers;
    }
  }

  lemma AnswerIsKept(w: World, name: string, complete: bool, reason: AnswerReason, machine: Option<Machine>, node: Option<Node>)
    requires SoundWorld(w)
    ensures
      var (v, r) := AnswerRequest(w, name, complete, reason, machine, node);
      KeepsAnswer(w, v, r == Ok(true), complete, machine)
  {
    hide SoundWorld, Pending, PatchConditions;
    ArriveKeepsSound(w);
    var a := Arrive(w);
    if a.fate.Serve? && name in a.w.requests {
      var seen := a.w.requests[name];
      PatchIsKept(a.w, name, seen, WithAnswer(seen.conditions, AnswerCondition(complete, reason)), complete, reason, machine, node);
    }
  }

  lemma TellIsCaused(cfg: Config, view: View, st: State, s: Signal, a: Answer)
    requires a.Give? && SoundState(cfg, st, view) && (a.complete ==> ClaimsRestart(view, st, s)) && s in view.signals
    requires AnswerDue(cfg, view, s, Find(st.machines, s.node), a.complete, a.reason)
    ensures AllCaused(cfg, view, st.w, TellRequest(cfg, view, st, s, a).w)
  {
    hide SoundState, SoundWorld, ReleaseAnswered, AnswerRequest, RestartCompleted, AllCaused, ClaimHolds, AnswerDue;
    NothingWritten(cfg, view, st.w, st.w);
    ViewIsSound(cfg, st, view, s.node);
    if !cfg.dryRun {
      var machine, node := Find(st.machines, s.node), Find(view.nodes, s.node);
      AnswerIsKept(st.w, s.request, a.complete, a.reason, machine, node);
      ClaimIsTrue(cfg, view, st, s, a.complete);
      AnswerKeepsSound(st.w, s.request, a.complete, a.reason, machine, node);
      var (w, r) := AnswerRequest(st.w, s.request, a.complete, a.reason, machine, node);
      AfterAnswer(cfg, st, view, w, s, a.complete, a.reason);
      NothingWritten(cfg, view, st.w, w);
      if r == Ok(true) && a.complete && machine.Some? {
        assert MarkedFor(machine.value, ACTION_RESTART) by { CompletedIsForRestart(machine.value, node); }
        var answered := RestartMarkOf(machine.value);
        ReleaseAnsweredIsSafe(cfg, view, st.(w := w), s.node, answered, false, RELEASE_ATTEMPTS);
        ReleaseAnsweredOnlyReleases(cfg, view, st.(w := w), s.node, answered, false, RELEASE_ATTEMPTS);
        AnsweredIsCause(cfg, view, st.w, w, ReleaseAnswered(cfg, st.(w := w), s.node, answered, false, RELEASE_ATTEMPTS).w,
                        machine.value);
      }
    }
  }

  lemma CompletedIsForRestart(m: Machine, node: Option<Node>)
    requires RestartCompleted(m, node)
    ensures MarkedFor(m, ACTION_RESTART)
  {
  }

  lemma AnsweredIsCause(cfg: Config, view: View, w: World, v: World, u: World, m: Machine)
    requires v.history.writes == w.history.writes && v.history.answers <= u.history.answers && u.pass == v.pass == w.pass
    requires exists a :: a in v.history.answers && a.pass == w.pass && a.complete && a.machine == Some(m)
    requires OnlyReleases(v, u, m.name, RestartMarkOf(m)) && !cfg.dryRun
    ensures AllCaused(cfg, view, w, u)
  {
    var a :| a in v.history.answers && a.pass == w.pass && a.complete && a.machine == Some(m);
    forall x | x in u.history.writes && x !in w.history.writes ensures Caused(cfg, view, u.history, u.pass, x) {
      assert a in u.history.answers;
    }
  }

  // ------------------------------------------------------------- a whole pass

  lemma ActIsCaused(cfg: Config, view: View, p: Progress, s: Signal)
    requires SoundState(cfg, p.st, view) && WasPending(p.st.w, s.request) && s in view.signals
    ensures AllCaused(cfg, view, p.st.w, Act(cfg, view, p, s).st.w)
  {
    hide Handle, TellRequest, SoundState, AllCaused, AnswerDue;
    HandleIsSafe(cfg, view, p.st, s);
    HandleIsCaused(cfg, view, p.st, s);
    var (st, obs) := Handle(cfg, view, p.st, s);
    if obs.Observed? && obs.answer.Give? {
      AnswerStaysDue(cfg, view, p.st, s);
      TellRequestIsSafe(cfg, view, st, s, obs.answer);
      TellIsCaused(cfg, view, st, s, obs.answer);
      CausesChain(cfg, view, p.st.w, st.w, TellRequest(cfg, view, st, s, obs.answer).w);
    }
  }

  lemma PendingWritesNothing(w: World, name: string)
    requires SoundWorld(w)
    ensures IsPending(w, name).0.history.writes == w.history.writes
  {
    ArriveKeepsSound(w);
    hide SoundWorld, Pending;
  }

  lemma TakeIsCaused(cfg: Config, view: View, previous: map<string, Observation>, p: Progress, s: Signal)
    requires SoundState(cfg, p.st, view) && s in view.signals
    ensures AllCaused(cfg, view, p.st.w, TakeSignal(cfg, view, previous, p, s).st.w)
  {
    hide Act, IsPending, SoundState, SoundWorld, AllCaused;
    ViewIsSound(cfg, p.st, view, s.node);
    if s.request == "" {
      ActIsCaused(cfg, view, p, s);
    } else {
      IsPendingKeepsSound(p.st.w, s.request);
      PendingWritesNothing(p.st.w, s.request);
      var (w, r) := IsPending(p.st.w, s.request);
      NothingWritten(cfg, view, p.st.w, w);
      AfterRead(cfg, p.st, view, w);
      if r == Ok(true) {
        var p1 := p.(st := p.st.(w := w), asking := p.asking + {s.request});
        ActIsSafe(cfg, view, p1, s);
        ActIsCaused(cfg, view, p1, s);
        CausesChain(cfg, view, p.st.w, w, Act(cfg, view, p1, s).st.w);
      }
    }
  }

  lemma {:induction false} SignalsAreCaused(cfg: Config, view: View, previous: map<string, Observation>, p: Progress, signals: seq<Signal>)
    requires SoundState(cfg, p.st, view) && forall s :: s in signals ==> s in view.signals
    ensures AllCaused(cfg, view, p.st.w, TakeSignals(cfg, view, previous, p, signals).st.w)
  {
    hide TakeSignal, SoundState, AllCaused;
    if signals == [] {
      NothingWritten(cfg, view, p.st.w, p.st.w);
    } else {
      var n := |signals| - 1;
      var q := TakeSignals(cfg, view, previous, p, signals[..n]);
      TakeSignalsIsSafe(cfg, view, previous, p, signals[..n]);
      SignalsAreCaused(cfg, view, previous, p, signals[..n]);
      TakeSignalIsSafe(cfg, view, previous, q, signals[n]);
      TakeIsCaused(cfg, view, previous, q, signals[n]);
      CausesChain(cfg, view, p.st.w, q.st.w, TakeSignal(cfg, view, previous, q, signals[n]).st.w);
    }
  }

  /** The progress of a pass of a run once it took its signals. */
  function AfterSignals(o: Operator, m: Moment): Progress {
    TakeSignals(m.cfg, m.view, Remembered(o, m), Start(Begin(o, m), m.view, StillWaiting(o, m)), m.view.signals)
  }

  /** The release is of a Machine the pass lets go of at its end, in the version
      it then has. */
  ghost predicate DueAtTheEnd(view: View, p: Progress, x: MachineWrite) {
    !p.unreadable && exists n :: n in p.st.machines && LetGo(view, p, n) && x.before == p.st.machines[n]
  }

  lemma PassIsCaused(run: seq<Operator>, moments: seq<Moment>, i: nat, x: MachineWrite)
    requires IsRun(run, moments) && i < |moments|
    requires x in run[i + 1].w.history.writes && x !in run[i].w.history.writes
    ensures !moments[i].cfg.dryRun
    ensures || Caused(moments[i].cfg, moments[i].view, run[i + 1].w.history, run[i + 1].w.pass, x)
            || (x.kind.ReleaseWrite? && DueAtTheEnd(moments[i].view, AfterSignals(run[i], moments[i]), x))
  {
    hide SoundWorld, TakeSignals, ReleaseEach, HeldNames, DueByAnswer, DueByMark, DueBySignal;
    var o, m := run[i], moments[i];
    RunIsSound(run, moments, i);
    assert CouldRead(o, m);
    BeginIsSound(o, m);
    var p0, p := Start(Begin(o, m), m.view, StillWaiting(o, m)), AfterSignals(o, m);
    WaitsDoNotMatter(m.cfg, State(Begin(o, m), m.view.machines, map[]), m.view, StillWaiting(o, m));
    TakeSignalsIsSafe(m.cfg, m.view, Remembered(o, m), p0, m.view.signals);
    SignalsAreCaused(m.cfg, m.view, Remembered(o, m), p0, m.view.signals);
    if !p.unreadable {
      var nodes := InOrder(p.st.machines.Keys);
      var held := HeldNames(p.st.machines, m.view.nodes, p.asking, p.current);
      ReleasesNothingElse(m.cfg, m.view, p.st, nodes, held);
      ReleaseEachIsSafe(m.cfg, m.view, p.st, nodes, held);
      var st := ReleaseEach(m.cfg, p.st, nodes, held);
      if x in p.st.w.history.writes {
        CausedLater(m.cfg, m.view, p.st.w.history, st.w.history, p.st.w.pass, x);
      } else {
        var n :| n in nodes && n in p.st.machines && Releasable(p.st.machines[n], p.st.machines[n].name in held)
                 && x.before == p.st.machines[n];
        assert LetGo(m.view, p, n);
      }
    }
  }

  /** In every run, whatever its passes run into, each release of a pass was of a
      Machine that a True answer of the pass was given about, under the mark that
      was answered, or of one that the pass let go of at its end, in the version
      it then had. */
  lemma EveryReleaseHasItsCause(run: seq<Operator>, moments: seq<Moment>, i: nat, x: MachineWrite)
    requires IsRun(run, moments) && i < |moments| && x.kind.ReleaseWrite?
    requires x in run[i + 1].w.history.writes && x !in run[i].w.history.writes
    ensures
      || DueByAnswer(run[i + 1].w.history, run[i + 1].w.pass, x)
      || DueAtTheEnd(moments[i].view, AfterSignals(run[i], moments[i]), x)
  {
    PassIsCaused(run, moments, i, x);
  }

  /** In every run each escalation of a pass turned a restart mark, in the version
      the pass had judged, since a signal on that Machine, whose request if any
      was found waiting, calls for a replacement: by the table, or by the fallback
      for a restart that is not over and that not all checks can carry out, on a
      Machine neither paused nor opted out. */
  lemma EveryEscalationIsCalledFor(run: seq<Operator>, moments: seq<Moment>, i: nat, x: MachineWrite) returns (s: Signal)
    requires IsRun(run, moments) && i < |moments| && x.kind.EscalateWrite?
    requires x in run[i + 1].w.history.writes && x !in run[i].w.history.writes
    ensures s in moments[i].view.signals && s.node in moments[i].view.machines
    ensures moments[i].view.machines[s.node].name == x.before.name && MarkedFor(x.before, "Restart") && !x.before.deleting
    ensures FoundWaiting(run[i + 1].w.history, run[i + 1].w.pass, s.request)
    ensures
      var t, view, a := moments[i].cfg.table, moments[i].view, x.before.annotations;
      && !view.mode.ReportOnly?
      && (Reached(t, s.actions, Replace)
          || (&& Reached(t, s.actions, Restart) && PausedKey !in a && SkipRemediationKey !in a
              && (s.request != "" ==> !IsFinished(view, s, Restart, x.before))
              && (exists k :: HasCheck(view.checks, x.before, k) && !k.paused)
              && (exists k :: HasCheck(view.checks, x.before, k) && k.template.None?)
              && (view.override == Some("replace")
                  || (view.override != Some("report") && moments[i].cfg.fallback == Some(ReplaceInstead)))))
  {
    hide HasCheck, Reached, WasFound, FoundWaiting, RunOn, Untouched, CouldRead, IsFinished, DueAtTheEnd;
    PassIsCaused(run, moments, i, x);
    s :| WasFound(run[i + 1].w.history, run[i + 1].w.pass, s.request)
         && CallsForEscalation(moments[i].cfg, moments[i].view, s, x.before);
    RequestsFoundWereWaiting(run, moments, i + 1, run[i + 1].w.pass, s.request);
    DecisionByMode(moments[i].cfg, moments[i].view.mode, s);
  }

  // ----------------------------------------------------- passes that do not act

  /** A pass in report-only mode only reports: in every run it sets no mark and
      escalates none, it answers nothing but that a node has no Machine or is not
      remediated, and what it concludes is a report, but for what it keeps of a
      request that it could not read. */
  lemma ReportOnlyOnlyReports(run: seq<Operator>, moments: seq<Moment>, i: nat)
    requires IsRun(run, moments) && i < |moments| && moments[i].view.mode.ReportOnly?
    ensures forall x :: x in run[i + 1].w.history.writes ==> x in run[i].w.history.writes || x.kind.ReleaseWrite?
    ensures forall r :: r in run[i + 1].w.history.marks ==> r in run[i].w.history.marks
    ensures forall a :: a in run[i + 1].w.history.answers ==>
              a in run[i].w.history.answers || (!a.complete && (a.reason == NoMachine || a.reason == NotRemediated))
    ensures forall k :: k in run[i + 1].seen ==>
              || (run[i + 1].seen[k].Observed? && run[i + 1].seen[k].decision == Report)
              || (k in Remembered(run[i], moments[i]) && run[i + 1].seen[k] == Remembered(run[i], moments[i])[k]
                  && AfterSignals(run[i], moments[i]).unreadable)
  {
    var o, m := run[i], moments[i];
    NothingNewMarked(run, moments, i);
    OnlyDeclined(run, moments, i);
    forall x | x in run[i + 1].w.history.writes && x !in o.w.history.writes ensures x.kind.ReleaseWrite? {
      NothingNewWritten(run, moments, i, x);
    }
    ObservesReports(m.cfg, m.view, Remembered(o, m), Start(Begin(o, m), m.view, StillWaiting(o, m)), m.view.signals);
  }

  lemma NothingNewMarked(run: seq<Operator>, moments: seq<Moment>, i: nat)
    requires IsRun(run, moments) && i < |moments| && (moments[i].view.mode.ReportOnly? || moments[i].cfg.dryRun)
    ensures forall r :: r in run[i + 1].w.history.marks ==> r in run[i].w.history.marks
  {
    hide RunOn, SoundWorld, DecisionIn;
    var m := moments[i];
    RunIsSound(run, moments, i);
    assert CouldRead(run[i], m);
    PassIsSafe(run[i], m);
    forall r | r in run[i + 1].w.history.marks && r !in run[i].w.history.marks ensures false {
      var s :| MadeOn(m.cfg, run[i + 1].w, m.view, r, s);
      DecisionByMode(m.cfg, m.view.mode, s);
    }
  }

  lemma OnlyDeclined(run: seq<Operator>, moments: seq<Moment>, i: nat)
    requires IsRun(run, moments) && i < |moments|
    ensures forall a :: a in run[i + 1].w.history.answers && a !in run[i].w.history.answers ==>
              && !moments[i].cfg.dryRun
              && (moments[i].view.mode.ReportOnly? ==> !a.complete && (a.reason == NoMachine || a.reason == NotRemediated))
  {
    hide RunOn, SoundWorld, DecisionIn;
    var m := moments[i];
    RunIsSound(run, moments, i);
    assert CouldRead(run[i], m);
    PassIsSafe(run[i], m);
    forall a | a in run[i + 1].w.history.answers && a !in run[i].w.history.answers
      ensures !m.cfg.dryRun && (m.view.mode.ReportOnly? ==> !a.complete && (a.reason == NoMachine || a.reason == NotRemediated))
    {
      var s :| ToldOn(m.cfg, run[i + 1].w, m.view, a, s);
      DecisionByMode(m.cfg, m.view.mode, s);
    }
  }

  lemma NothingNewWritten(run: seq<Operator>, moments: seq<Moment>, i: nat, x: MachineWrite)
    requires IsRun(run, moments) && i < |moments| && moments[i].view.mode.ReportOnly?
    requires x in run[i + 1].w.history.writes && x !in run[i].w.history.writes
    ensures x.kind.ReleaseWrite?
  {
    hide RunOn, Untouched, CouldRead;
    PassIsCaused(run, moments, i, x);
    if x.kind.EscalateWrite? {
      var s := EveryEscalationIsCalledFor(run, moments, i, x);
    } else if x.kind.MarkWrite? {
      var m := moments[i];
      var r :| r in run[i + 1].w.history.marks && r.pass == run[i + 1].w.pass && r.seen.name == x.before.name;
      NothingNewMarked(run, moments, i);
      EarlierMarksAreOfEarlierPasses(run, moments, i, r);
    }
  }

  lemma EarlierMarksAreOfEarlierPasses(run: seq<Operator>, moments: seq<Moment>, i: nat, r: MarkMade)
    requires IsRun(run, moments) && i < |moments| && r in run[i].w.history.marks
    ensures r.pass < run[i + 1].w.pass
  {
    hide RunOn;
    RunIsSound(run, moments, i);
    assert HeldTrue(run[i].w, r);
    assert CouldRead(run[i], moments[i]);
    PassIsSafe(run[i], moments[i]);
  }

  /** A step in report-only mode changes nothing, and concludes a report. */
  lemma ReportOnlyStep(cfg: Config, view: View, st: State, s: Signal)
    requires view.mode.ReportOnly?
    ensures
      var (st', o) := Handle(cfg, view, st, s);
      && st' == st && o.Observed? && o.decision == Report
      && o.answer == if s.request == "" || s.node !in view.nodes then NoAnswer
                     else if s.node in st.machines then Give(false, NotRemediated) else Give(false, NoMachine)
  {
    hide Decided;
  }

  /** Where every step concludes a report, so does the pass. */
  lemma {:induction false} ObservesReports(cfg: Config, view: View, previous: map<string, Observation>, p0: Progress, signals: seq<Signal>)
    requires view.mode.ReportOnly? && p0.current == map[]
    ensures
      var p := TakeSignals(cfg, view, previous, p0, signals);
      forall k :: k in p.current ==>
        || (p.current[k].Observed? && p.current[k].decision == Report)
        || (k in previous && p.current[k] == previous[k] && p.unreadable)
  {
    hide Handle, TellRequest, IsPending;
    if signals != [] {
      var n := |signals| - 1;
      ObservesReports(cfg, view, previous, p0, signals[..n]);
      var q := TakeSignals(cfg, view, previous, p0, signals[..n]);
      ReportOnlyStep(cfg, view, q.st, signals[n]);
      if signals[n].request != "" {
        ReportOnlyStep(cfg, view, q.st.(w := IsPending(q.st.w, signals[n].request).0), signals[n]);
      }
    }
  }

  /** A dry run changes nothing: in every run its passes write to no Machine, set
      no mark and answer no request. */
  lemma DryRunChangesNothing(run: seq<Operator>, moments: seq<Moment>, i: nat)
    requires IsRun(run, moments) && i < |moments| && moments[i].cfg.dryRun
    ensures forall x :: x in run[i + 1].w.history.writes ==> x in run[i].w.history.writes
    ensures forall r :: r in run[i + 1].w.history.marks ==> r in run[i].w.history.marks
    ensures forall a :: a in run[i + 1].w.history.answers ==> a in run[i].w.history.answers
  {
    hide RunOn, Untouched, CouldRead;
    NothingNewMarked(run, moments, i);
    OnlyDeclined(run, moments, i);
    forall x | x in run[i + 1].w.history.writes && x !in run[i].w.history.writes ensures false {
      PassIsCaused(run, moments, i, x);
    }
  }

  // ----------------------------------------------------- requests as they are read

  /** What a call that is served finds: the request is pending exactly when it is
      there and waits for an answer. */
  lemma IsPendingExactlyWhen(w: World, name: string)
    ensures
      var a := Arrive(w);
      var r := IsPending(w, name).1;
      if a.fate.Serve? then r.Ok? && (r.value <==> name in a.w.requests && AwaitsAnswer(a.w.requests[name])) else r.Err?
  {
    hide AwaitsAnswer, Pending;
    var a := Arrive(w);
    if name in a.w.requests { PendingExactlyWhen(a.w.requests[name]); }
  }

  /** What the pass finds of the request of its k-th signal, when it comes to it. */
  function Finding(cfg: Config, view: View, previous: map<string, Observation>, p0: Progress, signals: seq<Signal>, k: nat)
    : Result<bool, ApiError>
    requires k < |signals|
  {
    IsPending(TakeSignals(cfg, view, previous, p0, signals[..k]).st.w, signals[k].request).1
  }

  ghost predicate SomeUnread(cfg: Config, view: View, previous: map<string, Observation>, p0: Progress, signals: seq<Signal>) {
    exists k :: 0 <= k < |signals| && signals[k].request != "" && Finding(cfg, view, previous, p0, signals, k).Err?
  }

  ghost predicate IsFoundAsking(cfg: Config, view: View, previous: map<string, Observation>, p0: Progress, signals: seq<Signal>, r: string) {
    r != "" && exists k :: 0 <= k < |signals| && signals[k].request == r && Finding(cfg, view, previous, p0, signals, k) == Ok(true)
  }

  lemma FindingsNext(cfg: Config, view: View, previous: map<string, Observation>, p0: Progress, before: seq<Signal>, s: Signal)
    ensures
      var found := IsPending(TakeSignals(cfg, view, previous, p0, before).st.w, s.request).1;
      && (SomeUnread(cfg, view, previous, p0, before + [s])
          <==> SomeUnread(cfg, view, previous, p0, before) || (s.request != "" && found.Err?))
      && forall r :: IsFoundAsking(cfg, view, previous, p0, before + [s], r)
             <==> IsFoundAsking(cfg, view, previous, p0, before, r) || (r == s.request != "" && found == Ok(true))
  {
    hide TakeSignals, IsPending;
    var n, signals := |before|, before + [s];
    assert signals[..n] == before && signals[n] == s;
    forall k | 0 <= k < n ensures Finding(cfg, view, previous, p0, signals, k) == Finding(cfg, view, previous, p0, before, k) {
      assert signals[..k] == before[..k];
    }
    var found := IsPending(TakeSignals(cfg, view, previous, p0, before).st.w, s.request).1;
    assert Finding(cfg, view, previous, p0, signals, n) == found;
    assert forall k :: 0 <= k < n ==> signals[k] == before[k];
    hide Finding;
    forall r ensures IsFoundAsking(cfg, view, previous, p0, signals, r)
             <==> IsFoundAsking(cfg, view, previous, p0, before, r) || (r == s.request != "" && found == Ok(true)) {
      if IsFoundAsking(cfg, view, previous, p0, before, r) {
        var k :| 0 <= k < n && before[k].request == r && Finding(cfg, view, previous, p0, before, k) == Ok(true);
        assert signals[k].request == r;
      }
    }
    if SomeUnread(cfg, view, previous, p0, before) {
      var k :| 0 <= k < n && before[k].request != "" && Finding(cfg, view, previous, p0, before, k).Err?;
      assert signals[k].request != "";
    }
  }

  /** A pass knows which of its requests are asking, and whether there was one
      that it could not read. */
  lemma {:induction false} RequestsAreAccountedFor(cfg: Config, view: View, previous: map<string, Observation>, p0: Progress, signals: seq<Signal>)
    requires p0.asking == {} && !p0.unreadable
    ensures
      var p := TakeSignals(cfg, view, previous, p0, signals);
      && (p.unreadable <==> SomeUnread(cfg, view, previous, p0, signals))
      && (forall r :: r in p.asking <==> IsFoundAsking(cfg, view, previous, p0, signals, r))
  {
    hide Handle, TellRequest, IsPending;
    if signals != [] {
      var n := |signals| - 1;
      assert signals == signals[..n] + [signals[n]];
      RequestsAreAccountedFor(cfg, view, previous, p0, signals[..n]);
      FindingsNext(cfg, view, previous, p0, signals[..n], signals[n]);
      hide SomeUnread, IsFoundAsking;
    }
  }

  /** On a partial read nothing is released at the end of the pass, and what was
      concluded last about a request that could not be read is kept. */
  lemma PartialReadReleasesNothing(cfg: Config, view: View, previous: map<string, Observation>, w: World, waiting: Waiting, k: nat)
    requires k < |view.signals| && view.signals[k].request != ""
    requires Finding(cfg, view, previous, Start(w, view, waiting), view.signals, k).Err?
    requires view.signals[k].Key() in previous && Distinct(view.signals)
    ensures
      var out := Pass(cfg, view, previous, w, waiting);
      && out.st.w == TakeSignals(cfg, view, previous, Start(w, view, waiting), view.signals).st.w
      && view.signals[k].Key() in out.seen && out.seen[view.signals[k].Key()] == previous[view.signals[k].Key()]
  {
    var p0 := Start(w, view, waiting);
    RequestsAreAccountedFor(cfg, view, previous, p0, view.signals);
    UnreadIsKept(cfg, view, previous, p0, view.signals, k);
    hide TakeSignals;
  }

  lemma {:induction false} UnreadIsKept(cfg: Config, view: View, previous: map<string, Observation>, p0: Progress, signals: seq<Signal>, k: nat)
    requires k < |signals| && signals[k].request != "" && Finding(cfg, view, previous, p0, signals, k).Err?
    requires signals[k].Key() in previous && Distinct(signals)
    ensures
      var p := TakeSignals(cfg, view, previous, p0, signals);
      signals[k].Key() in p.current && p.current[signals[k].Key()] == previous[signals[k].Key()]
  {
    hide Handle, TellRequest, IsPending;
    var n := |signals| - 1;
    var before := signals[..n];
    if k < n {
      assert signals[..k] == before[..k] && before[k] == signals[k];
      assert Distinct(before);
      UnreadIsKept(cfg, view, previous, p0, before, k);
      assert signals[n].Key() != signals[k].Key();
    }
  }
}
