// The outcome of an undisturbed pass over node conditions, in closed form, and
// that the order of the signals does not bear on it.

module PassOutcome {
  import opened Text
  import opened Signals
  import opened Decisions
  import opened Machines
  import opened Requests
  import opened Store
  import opened ClusterWorld
  import opened Waits
  import opened Passes
  import opened PassSafety
  import opened QuietPass

  /** One of the signals calls for d on the node. */
  ghost predicate Calls(cfg: Config, view: View, signals: seq<Signal>, node: string, d: Decision) {
    exists s :: s in signals && s.node == node && DecisionIn(cfg, view.mode, s) == d
  }

  /** What the signals make of a Machine's mark, given whether any of them
      calls for a replacement and whether any calls for a restart. */
  function KindAfter(cfg: Config, view: View, waiting: Waiting, m: Machine, replace: bool, restart: bool): Kind {
    var cov := CoverageFor(view.checks, m);
    var instead := !TemplatesOnly(cov) && RestartFallback(cfg.fallback, view.override).ReplaceInstead? && Covered(cov);
    match KindOf(m)
    case ForRestart =>
      if !m.deleting && (replace || (restart && instead && !IsPaused(m) && !IsOptedOut(m))) then ForReplacement
      else ForRestart
    case Unmarked =>
      if Guard(m).Some? then Unmarked
      else if (replace || (restart && instead)) && Covered(cov) then ForReplacement
      else if restart && TemplatesOnly(cov) && !HeldForChecks(waiting, m, view.now).0.held then ForRestart
      else Unmarked
    case _ => KindOf(m)
  }

  /** The mark a pass leaves: a restart nothing calls for any more is released. */
  function FinalKind(cfg: Config, view: View, waiting: Waiting, m: Machine, replace: bool, restart: bool): Kind {
    var kind := KindAfter(cfg, view, waiting, m, replace, restart);
    if kind.ForRestart? && !replace && !restart && !m.deleting then Unmarked else kind
  }

  /** The wait while the Machine is unmarked. */
  function WaitAfter(cfg: Config, view: View, waiting: Waiting, m: Machine, restart: bool): Option<Wait> {
    if KindOf(m).Unmarked? && restart && AsksWait(cfg, view, m, Restart)
    then Find(HeldForChecks(waiting, m, view.now).1, m.name)
    else Find(waiting, m.name)
  }

  predicate ShowsEarlierMark(m: Machine) {
    m.health.Some? && m.health.value == HealthCheck("False", HAS_REMEDIATE_ANNOTATION)
  }

  /** The wait a pass leaves. */
  function FinalWait(cfg: Config, view: View, waiting: Waiting, m: Machine, replace: bool, restart: bool): Option<Wait> {
    if FinalKind(cfg, view, waiting, m, replace, restart).Unmarked? && ShowsEarlierMark(m)
    then WaitAfter(cfg, view, waiting, m, restart)
    else None
  }

  // ---------------------------------------------------------- signal by signal

  /** Where a Machine that started as m0 is after signals that call for what
      replace and restart say. */
  ghost predicate Reached(cfg: Config, view: View, waiting0: Waiting, m0: Machine, waiting: Waiting, m: Machine,
                          replace: bool, restart: bool)
  {
    && Rest(m) == Rest(m0)
    && KindOf(m) == KindAfter(cfg, view, waiting0, m0, replace, restart)
    && (KindOf(m).Unmarked? || !KindOf(m0).Unmarked? ==>
          Find(waiting, m0.name) == WaitAfter(cfg, view, waiting0, m0, restart))
  }

  lemma ReachedNext(cfg: Config, view: View, waiting0: Waiting, m0: Machine, waiting: Waiting, m: Machine,
                    replace: bool, restart: bool, d: Decision, m': Machine)
    requires Reached(cfg, view, waiting0, m0, waiting, m, replace, restart)
    requires Rest(m') == Rest(m) && KindOf(m') == KindNext(cfg, view, waiting, m, d)
    ensures
      var after := if AsksWait(cfg, view, m, d) then HeldForChecks(waiting, m, view.now).1 else waiting;
      Reached(cfg, view, waiting0, m0, after, m', replace || d.Replace?, restart || d.Restart?)
  {
    hide KindOf, KindNext, KindAfter, WaitAfter, AsksWait, HeldForChecks, Rest;
    KindReached(cfg, view, waiting0, m0, waiting, m, replace, restart, d);
    WaitReached(cfg, view, waiting0, m0, waiting, m, replace, restart, d);
  }

  /** What a signal is asked of is the same as at the start of the pass. */
  lemma SameAsk(cfg: Config, view: View, m0: Machine, m: Machine)
    requires Rest(m) == Rest(m0)
    ensures m.name == m0.name && m.health == m0.health && m.deleting == m0.deleting
    ensures CoverageFor(view.checks, m) == CoverageFor(view.checks, m0)
    ensures IsPaused(m) == IsPaused(m0) && IsOptedOut(m) == IsOptedOut(m0)
    ensures KindOf(m).Unmarked? && KindOf(m0).Unmarked? ==> (Guard(m).None? <==> Guard(m0).None?)
    ensures !KindOf(m).Unmarked? ==> Guard(m).Some?
  {
    SameRest(m, m0);
    SameCoverage(view.checks, m, m0);
    GuardByKind(m);
    GuardByKind(m0);
    hide KindOf, Guard, Rest;
  }

  /** A wait that is asked is the one the pass started with, for a Machine that
      was unmarked then. */
  lemma HoldsAlike(cfg: Config, view: View, waiting0: Waiting, m0: Machine, waiting: Waiting, m: Machine,
                   replace: bool, restart: bool, d: Decision)
    requires Reached(cfg, view, waiting0, m0, waiting, m, replace, restart) && AsksWait(cfg, view, m, d)
    ensures KindOf(m0).Unmarked? && KindOf(m).Unmarked? && Guard(m0).None?
    ensures HeldForChecks(waiting, m, view.now).0.held == HeldForChecks(waiting0, m0, view.now).0.held
    ensures HeldForChecks(waiting, m, view.now).0.held ==>
              Find(HeldForChecks(waiting, m, view.now).1, m.name) == Find(HeldForChecks(waiting0, m0, view.now).1, m0.name)
  {
    SameAsk(cfg, view, m0, m);
    GuardByKind(m);
    GuardByKind(m0);
    hide KindOf, Guard, CoverageFor, RestartFallback, HeldForChecks, Covered, TemplatesOnly, Rest, IsMarked, IsPaused, IsOptedOut;
    HoldOnlyDependsOn(waiting, waiting0, m, m0, view.now, WaitAfter(cfg, view, waiting0, m0, restart));
  }

  lemma KindReached(cfg: Config, view: View, waiting0: Waiting, m0: Machine, waiting: Waiting, m: Machine,
                    replace: bool, restart: bool, d: Decision)
    requires Reached(cfg, view, waiting0, m0, waiting, m, replace, restart)
    ensures KindNext(cfg, view, waiting, m, d) == KindAfter(cfg, view, waiting0, m0, replace || d.Replace?, restart || d.Restart?)
  {
    hide KindOf, KindNext, KindAfter, Rest, WaitAfter;
    if KindOf(m0).Unmarked? && KindOf(m).Unmarked? {
      UnmarkedReached(cfg, view, waiting0, m0, waiting, m, replace, restart, d);
    } else {
      MarkReached(cfg, view, waiting0, m0, waiting, m, replace, restart, d);
    }
  }

  lemma UnmarkedReached(cfg: Config, view: View, waiting0: Waiting, m0: Machine, waiting: Waiting, m: Machine,
                        replace: bool, restart: bool, d: Decision)
    requires Reached(cfg, view, waiting0, m0, waiting, m, replace, restart) && KindOf(m0).Unmarked? && KindOf(m).Unmarked?
    ensures KindNext(cfg, view, waiting, m, d) == KindAfter(cfg, view, waiting0, m0, replace || d.Replace?, restart || d.Restart?)
  {
    hide KindNext, KindOf, Guard, CoverageFor, RestartFallback, HeldForChecks, Covered, TemplatesOnly, Rest, WaitAfter;
    SameAsk(cfg, view, m0, m);
    UnmarkedNext(cfg, view, waiting, m, d);
    if AsksWait(cfg, view, m, d) {
      HoldsAlike(cfg, view, waiting0, m0, waiting, m, replace, restart, d);
    }
  }

  /** What one signal makes of an unmarked Machine. */
  lemma UnmarkedNext(cfg: Config, view: View, waiting: Waiting, m: Machine, d: Decision)
    requires KindOf(m).Unmarked?
    ensures
      var cov := CoverageFor(view.checks, m);
      var instead := !TemplatesOnly(cov) && RestartFallback(cfg.fallback, view.override).ReplaceInstead? && Covered(cov);
      KindNext(cfg, view, waiting, m, d)
      == if Guard(m).Some? then Unmarked
         else if (d.Replace? || (d.Restart? && instead)) && Covered(cov) then ForReplacement
         else if d.Restart? && TemplatesOnly(cov) && !HeldForChecks(waiting, m, view.now).0.held then ForRestart
         else Unmarked
  {
    hide KindOf, Guard, CoverageFor, RestartFallback, HeldForChecks, Covered, TemplatesOnly, Escalates;
  }

  lemma MarkReached(cfg: Config, view: View, waiting0: Waiting, m0: Machine, waiting: Waiting, m: Machine,
                    replace: bool, restart: bool, d: Decision)
    requires Reached(cfg, view, waiting0, m0, waiting, m, replace, restart) && !(KindOf(m0).Unmarked? && KindOf(m).Unmarked?)
    ensures KindNext(cfg, view, waiting, m, d) == KindAfter(cfg, view, waiting0, m0, replace || d.Replace?, restart || d.Restart?)
  {
    SameAsk(cfg, view, m0, m);
    hide KindOf, Guard, CoverageFor, RestartFallback, HeldForChecks, Covered, TemplatesOnly, Rest, WaitAfter, IsPaused, IsOptedOut;
  }

  lemma WaitReached(cfg: Config, view: View, waiting0: Waiting, m0: Machine, waiting: Waiting, m: Machine,
                    replace: bool, restart: bool, d: Decision)
    requires Reached(cfg, view, waiting0, m0, waiting, m, replace, restart)
    ensures
      var after := if AsksWait(cfg, view, m, d) then HeldForChecks(waiting, m, view.now).1 else waiting;
      var kind := KindNext(cfg, view, waiting, m, d);
      kind.Unmarked? || !KindOf(m0).Unmarked? ==>
        Find(after, m0.name) == WaitAfter(cfg, view, waiting0, m0, restart || d.Restart?)
  {
    SameAsk(cfg, view, m0, m);
    if AsksWait(cfg, view, m, d) {
      HoldsAlike(cfg, view, waiting0, m0, waiting, m, replace, restart, d);
    }
    hide KindOf, Guard, CoverageFor, RestartFallback, HeldForChecks, Covered, TemplatesOnly, Rest, IsPaused, IsOptedOut;
  }

  lemma GuardByKind(m: Machine)
    ensures KindOf(m).Unmarked? <==> !IsMarked(m)
    ensures !KindOf(m).Unmarked? ==> Guard(m).Some?
    ensures KindOf(m).Unmarked? ==>
              (Guard(m).None? <==> !m.deleting && !m.controlPlane && !IsPaused(m) && !IsOptedOut(m))
  {
  }

  /** Asking the wait again on the same pass gives the same answer. */
  lemma HoldOnlyDependsOn(waiting: Waiting, waiting0: Waiting, m: Machine, m0: Machine, now: int, found: Option<Wait>)
    requires m.name == m0.name && m.health == m0.health && !IsMarked(m) && !IsMarked(m0)
    requires Find(waiting, m.name) == found
    requires found == Find(waiting0, m0.name)
             || (found == Find(HeldForChecks(waiting0, m0, now).1, m0.name) && HeldForChecks(waiting0, m0, now).0.held)
    ensures HeldForChecks(waiting, m, now).0.held == HeldForChecks(waiting0, m0, now).0.held
    ensures HeldForChecks(waiting, m, now).0.held ==>
              Find(HeldForChecks(waiting, m, now).1, m.name) == Find(HeldForChecks(waiting0, m0, now).1, m0.name)
  {
  }

  ghost predicate Conditions(signals: seq<Signal>) {
    && (forall s :: s in signals ==> s.request == "")
    && (forall i, j :: 0 <= i < j < |signals| ==> signals[i].Key() != signals[j].Key())
  }

  ghost predicate ObsOf(cfg: Config, view: View, obs: Observation, s: Signal) {
    && obs.Observed? && obs.decision == DecisionIn(cfg, view.mode, s) && obs.request == ""
    && obs.machine == if s.node in view.machines then view.machines[s.node].name else ""
  }

  /** A pass without requests, after some of its signals. */
  ghost predicate OnItsWay(cfg: Config, view: View, waiting0: Waiting, p: Progress, signals: seq<Signal>) {
    && !p.unreadable && p.asking == {}
    && AllReached(cfg, view, waiting0, p.st, signals)
    && Concluded(cfg, view, p.current, signals)
  }

  lemma CallsNext(cfg: Config, view: View, before: seq<Signal>, s: Signal, n: string, d: Decision)
    ensures Calls(cfg, view, before + [s], n, d)
            <==> Calls(cfg, view, before, n, d) || (s.node == n && DecisionIn(cfg, view.mode, s) == d)
  {
    if Calls(cfg, view, before, n, d) {
      var x :| x in before && x.node == n && DecisionIn(cfg, view.mode, x) == d;
      assert x in before + [s];
    }
    assert s in before + [s];
  }

  /** The state has every Machine where the signals lead. */
  ghost predicate AllReached(cfg: Config, view: View, waiting0: Waiting, st: State, signals: seq<Signal>) {
    && InSync(st) && st.machines.Keys == view.machines.Keys
    && forall n :: n in view.machines ==> ReachedAt(cfg, view, waiting0, st, signals, n)
  }

  ghost predicate ReachedAt(cfg: Config, view: View, waiting0: Waiting, st: State, signals: seq<Signal>, n: string)
    requires n in view.machines && n in st.machines
  {
    Reached(cfg, view, waiting0, view.machines[n], st.waiting, st.machines[n],
            Calls(cfg, view, signals, n, Replace), Calls(cfg, view, signals, n, Restart))
  }

  lemma OwnStep(cfg: Config, view: View, waiting0: Waiting, st: State, before: seq<Signal>, s: Signal)
    requires AllReached(cfg, view, waiting0, st, before) && !cfg.dryRun && s.request == "" && s.node in view.machines
    ensures
      var st' := Handle(cfg, view, st, s).0;
      s.node in st'.machines && ReachedAt(cfg, view, waiting0, st', before + [s], s.node)
  {
    var n := s.node;
    CallsNext(cfg, view, before, s, n, Replace);
    CallsNext(cfg, view, before, s, n, Restart);
    QuietHandle(cfg, view, st, s);
    assert ReachedAt(cfg, view, waiting0, st, before, n);
    ReachedNext(cfg, view, waiting0, view.machines[n], st.waiting, st.machines[n],
                Calls(cfg, view, before, n, Replace), Calls(cfg, view, before, n, Restart),
                DecisionIn(cfg, view.mode, s), Handle(cfg, view, st, s).0.machines[n]);
  }

  /** A signal moves only the Machine of its node. */
  lemma OthersStay(cfg: Config, view: View, st: State, s: Signal, n: string)
    requires InSync(st) && !cfg.dryRun && s.request == "" && n in st.machines && n != s.node
    ensures
      var st' := Handle(cfg, view, st, s).0;
      && n in st'.machines && st'.machines[n] == st.machines[n]
      && Find(st'.waiting, st.machines[n].name) == Find(st.waiting, st.machines[n].name)
  {
    if s.node in st.machines {
      QuietHandle(cfg, view, st, s);
      HoldKeepsOthers(st.waiting, st.machines[s.node], view.now, st.machines[n].name);
    }
  }

  lemma OtherStep(cfg: Config, view: View, waiting0: Waiting, st: State, before: seq<Signal>, s: Signal, n: string)
    requires AllReached(cfg, view, waiting0, st, before) && !cfg.dryRun && s.request == ""
    requires n in view.machines && n != s.node
    ensures
      var st' := Handle(cfg, view, st, s).0;
      n in st'.machines && ReachedAt(cfg, view, waiting0, st', before + [s], n)
  {
    CallsNext(cfg, view, before, s, n, Replace);
    CallsNext(cfg, view, before, s, n, Restart);
    assert ReachedAt(cfg, view, waiting0, st, before, n);
    SameRest(st.machines[n], view.machines[n]);
    OthersStay(cfg, view, st, s, n);
  }

  lemma StateStep(cfg: Config, view: View, waiting0: Waiting, st: State, before: seq<Signal>, s: Signal)
    requires AllReached(cfg, view, waiting0, st, before) && !cfg.dryRun && s.request == "" && OneNodeEach(view.machines)
    ensures AllReached(cfg, view, waiting0, Handle(cfg, view, st, s).0, before + [s])
  {
    HandleGivesNoAnswer(cfg, view, st, s);
    var st' := Handle(cfg, view, st, s).0;
    forall n | n in view.machines ensures ReachedAt(cfg, view, waiting0, st', before + [s], n) {
      if n == s.node {
        OwnStep(cfg, view, waiting0, st, before, s);
      } else {
        OtherStep(cfg, view, waiting0, st, before, s, n);
      }
    }
  }

  /** What a pass has concluded about the signals it took. */
  ghost predicate Concluded(cfg: Config, view: View, current: map<string, Observation>, signals: seq<Signal>) {
    && (forall s :: s in signals ==> s.Key() in current && ObsOf(cfg, view, current[s.Key()], s))
    && (forall k :: k in current ==> exists s :: s in signals && s.Key() == k)
  }

  lemma ConcludedNext(cfg: Config, view: View, current: map<string, Observation>, before: seq<Signal>, s: Signal, obs: Observation)
    requires Concluded(cfg, view, current, before) && ObsOf(cfg, view, obs, s)
    requires forall x :: x in before ==> x.Key() != s.Key()
    ensures Concluded(cfg, view, current[s.Key() := obs], before + [s])
  {
    assert s in before + [s];
    forall k | k in current ensures exists x :: x in before + [s] && x.Key() == k {
      var x :| x in before && x.Key() == k;
      assert x in before + [s];
    }
  }

  lemma SignalStep(cfg: Config, view: View, previous: map<string, Observation>, waiting0: Waiting, p: Progress,
                   before: seq<Signal>, s: Signal)
    requires OnItsWay(cfg, view, waiting0, p, before)
    requires !cfg.dryRun && s.request == "" && OneNodeEach(view.machines)
    requires forall x :: x in before ==> x.Key() != s.Key()
    ensures OnItsWay(cfg, view, waiting0, TakeSignal(cfg, view, previous, p, s), before + [s])
  {
    HandleGivesNoAnswer(cfg, view, p.st, s);
    StateStep(cfg, view, waiting0, p.st, before, s);
    if s.node in p.st.machines {
      assert ReachedAt(cfg, view, waiting0, p.st, before, s.node);
      SameRest(p.st.machines[s.node], view.machines[s.node]);
    }
    ConcludedNext(cfg, view, p.current, before, s, Handle(cfg, view, p.st, s).1);
  }

  lemma HandleGivesNoAnswer(cfg: Config, view: View, st: State, s: Signal)
    requires !cfg.dryRun && InSync(st) && s.request == ""
    ensures
      var (st', o) := Handle(cfg, view, st, s);
      && InSync(st') && st'.machines.Keys == st.machines.Keys
      && o.Observed? && o.answer.NoAnswer? && o.request == "" && o.decision == DecisionIn(cfg, view.mode, s)
      && o.machine == if s.node in st.machines then st.machines[s.node].name else ""
  {
    if s.node in st.machines {
      QuietHandle(cfg, view, st, s);
    }
  }

  lemma StartsOut(cfg: Config, view: View, w: World, waiting0: Waiting)
    requires InSync(State(w, view.machines, waiting0))
    ensures OnItsWay(cfg, view, waiting0, Start(w, view, waiting0), [])
  {
    assert forall n :: n in view.machines ==>
        ReachedAt(cfg, view, waiting0, State(w, view.machines, waiting0), [], n);
  }

  lemma {:induction false} SignalsLeadThere(cfg: Config, view: View, previous: map<string, Observation>, w: World,
                                            waiting0: Waiting, signals: seq<Signal>)
    requires !cfg.dryRun && InSync(State(w, view.machines, waiting0)) && Conditions(signals)
    ensures OnItsWay(cfg, view, waiting0, TakeSignals(cfg, view, previous, Start(w, view, waiting0), signals), signals)
  {
    hide TakeSignal, OnItsWay;
    if signals == [] {
      StartsOut(cfg, view, w, waiting0);
    } else {
      var n := |signals| - 1;
      var before, s := signals[..n], signals[n];
      SignalsLeadThere(cfg, view, previous, w, waiting0, before);
      assert signals == before + [s];
      SignalStep(cfg, view, previous, waiting0, TakeSignals(cfg, view, previous, Start(w, view, waiting0), before), before, s);
    }
  }

  // ---------------------------------------------------------- the whole pass

  ghost predicate Named(machines: map<string, Machine>) { forall n :: n in machines ==> machines[n].name != "" }

  /** A Machine is held exactly when a signal of its node calls for a restart
      or a replacement. */
  lemma HeldWhenCalledFor(cfg: Config, view: View, p: Progress, n: string)
    requires Concluded(cfg, view, p.current, view.signals) && OneNodeEach(view.machines) && Named(view.machines)
    requires n in view.machines
    ensures
      view.machines[n].name in HeldNames(p.st.machines, view.nodes, p.asking, p.current)
      <==> Calls(cfg, view, view.signals, n, Replace) || Calls(cfg, view, view.signals, n, Restart)
  {
    hide DecisionIn;
    var held := HeldNames(p.st.machines, view.nodes, p.asking, p.current);
    var name := view.machines[n].name;
    if name in held {
      var k :| k in p.current && Holds(p.st.machines, view.nodes, p.asking, p.current[k]) && p.current[k].machine == name;
      var s :| s in view.signals && s.Key() == k;
      assert ObsOf(cfg, view, p.current[k], s);
      assert s.node == n;
    }
    if d: Decision :| d in {Replace, Restart} && Calls(cfg, view, view.signals, n, d) {
      CalledForIsHeld(cfg, view, p, n, d);
    }
  }

  lemma CalledForIsHeld(cfg: Config, view: View, p: Progress, n: string, d: Decision)
    requires Concluded(cfg, view, p.current, view.signals) && Named(view.machines) && n in view.machines
    requires !d.Report? && Calls(cfg, view, view.signals, n, d)
    ensures view.machines[n].name in HeldNames(p.st.machines, view.nodes, p.asking, p.current)
  {
    hide DecisionIn;
    var s :| s in view.signals && s.node == n && DecisionIn(cfg, view.mode, s) == d;
    assert ObsOf(cfg, view, p.current[s.Key()], s);
    assert Holds(p.st.machines, view.nodes, p.asking, p.current[s.Key()]);
  }

  ghost predicate EndsAt(cfg: Config, view: View, waiting0: Waiting, out: PassResult, n: string)
    requires n in view.machines
  {
    var m := view.machines[n];
    var replace := Calls(cfg, view, view.signals, n, Replace);
    var restart := Calls(cfg, view, view.signals, n, Restart);
    && n in out.st.machines && Rest(out.st.machines[n]) == Rest(m)
    && KindOf(out.st.machines[n]) == FinalKind(cfg, view, waiting0, m, replace, restart)
    && Find(out.st.waiting, m.name) == FinalWait(cfg, view, waiting0, m, replace, restart)
    && Synced(out.st.w, out.st.machines[n])
  }

  /** Undisturbed, a pass over node conditions leaves on every Machine the mark
      and the wait the closed form says, on the server as well. */
  lemma PassEndsAt(cfg: Config, view: View, previous: map<string, Observation>, w: World, waiting0: Waiting)
    requires !cfg.dryRun && InSync(State(w, view.machines, waiting0)) && Conditions(view.signals) && Named(view.machines)
    ensures
      var out := Pass(cfg, view, previous, w, waiting0);
      && out.st.machines.Keys == view.machines.Keys
      && (forall n :: n in view.machines ==> EndsAt(cfg, view, waiting0, out, n))
      && (forall name :: name in out.st.waiting ==> exists n :: n in view.machines && view.machines[n].name == name)
  {
    hide TakeSignals, EndsAt, OnItsWay, ReleaseRestarts;
    var p := TakeSignals(cfg, view, previous, Start(w, view, waiting0), view.signals);
    SignalsLeadThere(cfg, view, previous, w, waiting0, view.signals);
    assert OnItsWay(cfg, view, waiting0, p, view.signals) && !p.unreadable by {
      IsReadable(cfg, view, waiting0, p);
    }
    AllEndAt(cfg, view, waiting0, p, Pass(cfg, view, previous, w, waiting0));
    WaitsAreOfMachines(cfg, view, waiting0, ReleaseRestarts(cfg, view, p).waiting, Pass(cfg, view, previous, w, waiting0));
  }

  lemma IsReadable(cfg: Config, view: View, waiting0: Waiting, p: Progress)
    requires OnItsWay(cfg, view, waiting0, p, view.signals)
    ensures !p.unreadable
  {
  }

  lemma AllEndAt(cfg: Config, view: View, waiting0: Waiting, p: Progress, out: PassResult)
    requires !cfg.dryRun && OnItsWay(cfg, view, waiting0, p, view.signals) && OneNodeEach(view.machines) && Named(view.machines)
    requires
      var st := ReleaseRestarts(cfg, view, p);
      out.st == st.(waiting := Forgotten(st.waiting, st.machines))
    ensures out.st.machines.Keys == view.machines.Keys
    ensures forall n :: n in view.machines ==> EndsAt(cfg, view, waiting0, out, n)
  {
    hide HeldNames, ReachedAt, Concluded, ReleaseEach, EndsAt, Calls, InOrder, ReleasedIn, Forgotten;
    var held := HeldNames(p.st.machines, view.nodes, p.asking, p.current);
    ReleasesExactly(cfg, p.st, InOrder(p.st.machines.Keys), held);
    forall n | n in view.machines ensures EndsAt(cfg, view, waiting0, out, n) {
      HeldWhenCalledFor(cfg, view, p, n);
      var st := ReleaseRestarts(cfg, view, p);
      SameReleased(p.st, st, out.st, InOrder(p.st.machines.Keys), held, n);
      MachineEndsAt(cfg, view, waiting0, p, held, out, n);
    }
  }

  lemma SameReleased(st: State, a: State, b: State, nodes: seq<string>, held: set<string>, n: string)
    requires n in st.machines && n in a.machines && a.machines == b.machines && ReleasedIn(st, a, nodes, held, n)
    ensures ReleasedIn(st, b, nodes, held, n)
  {
  }

  lemma WaitsAreOfMachines(cfg: Config, view: View, waiting0: Waiting, waiting: Waiting, out: PassResult)
    requires out.st.machines.Keys == view.machines.Keys && forall n :: n in view.machines ==> EndsAt(cfg, view, waiting0, out, n)
    requires out.st.waiting == Forgotten(waiting, out.st.machines)
    ensures forall name :: name in out.st.waiting ==> exists n :: n in view.machines && view.machines[n].name == name
  {
    hide Rest;
    forall name | name in out.st.waiting ensures exists n :: n in view.machines && view.machines[n].name == name {
      var n :| n in out.st.machines && out.st.machines[n].name == name;
      assert EndsAt(cfg, view, waiting0, out, n);
      SameRest(out.st.machines[n], view.machines[n]);
    }
  }

  lemma MachineEndsAt(cfg: Config, view: View, waiting0: Waiting, p: Progress, held: set<string>, out: PassResult, n: string)
    requires OnItsWay(cfg, view, waiting0, p, view.signals) && OneNodeEach(view.machines) && n in view.machines
    requires InSync(out.st) && n in out.st.machines
    requires ReleasedIn(p.st, out.st, InOrder(p.st.machines.Keys), held, n)
    requires view.machines[n].name in held
             <==> Calls(cfg, view, view.signals, n, Replace) || Calls(cfg, view, view.signals, n, Restart)
    requires out.st.waiting == Forgotten(p.st.waiting, out.st.machines)
    ensures EndsAt(cfg, view, waiting0, out, n)
  {
    hide HeldForChecks, CoverageFor, RestartFallback, Guard, Calls, TemplatesOnly, Covered, AsksWait, InOrder, Concluded;
    var m0, m, m' := view.machines[n], p.st.machines[n], out.st.machines[n];
    assert ReachedAt(cfg, view, waiting0, p.st, view.signals, n);
    SameRest(m, m0);
    SameRest(m', m0);
    GuardByKind(m');
    assert StillPending(out.st.machines, m0.name) <==> EarlierMarkPending(m');
    assert Find(out.st.waiting, m0.name)
        == if EarlierMarkPending(m') then Find(p.st.waiting, m0.name) else None;
  }

  /** The order the signals were collected in does not matter: the mark and the
      wait a pass leaves on every Machine are the same. */
  lemma OrderOfSignalsDoesNotMatter(cfg: Config, view: View, signals: seq<Signal>, previous: map<string, Observation>,
                                    w: World, waiting0: Waiting)
    requires !cfg.dryRun && InSync(State(w, view.machines, waiting0)) && Conditions(view.signals) && Named(view.machines)
    requires multiset(signals) == multiset(view.signals)
    ensures
      var a := Pass(cfg, view, previous, w, waiting0);
      var b := Pass(cfg, view.(signals := signals), previous, w, waiting0);
      && a.st.machines.Keys == b.st.machines.Keys == view.machines.Keys
      && (forall n :: n in view.machines ==> KindOf(a.st.machines[n]) == KindOf(b.st.machines[n]))
      && a.st.waiting == b.st.waiting
  {
    hide Pass, FinalKind, FinalWait, Conditions, InSync, Calls, KindOf, Rest, Named;
    var other := view.(signals := signals);
    SameConditions(view.signals, signals);
    PassEndsAt(cfg, view, previous, w, waiting0);
    PassEndsAt(cfg, other, previous, w, waiting0);
    var a, b := Pass(cfg, view, previous, w, waiting0), Pass(cfg, other, previous, w, waiting0);
    forall n | n in view.machines
      ensures KindOf(a.st.machines[n]) == KindOf(b.st.machines[n])
      ensures Find(a.st.waiting, view.machines[n].name) == Find(b.st.waiting, view.machines[n].name)
    {
      assert EndsAt(cfg, view, waiting0, a, n) && EndsAt(cfg, other, waiting0, b, n);
      SameCalls(cfg, view, signals, n, Replace);
      SameCalls(cfg, view, signals, n, Restart);
      FinalsIgnoreSignals(cfg, view, signals, waiting0, view.machines[n],
                          Calls(cfg, view, view.signals, n, Replace), Calls(cfg, view, view.signals, n, Restart));
    }
    SameWaits(a.st.waiting, b.st.waiting, view.machines);
  }

  lemma SameWaits(a: Waiting, b: Waiting, machines: map<string, Machine>)
    requires forall n :: n in machines ==> Find(a, machines[n].name) == Find(b, machines[n].name)
    requires forall name :: name in a || name in b ==> exists n :: n in machines && machines[n].name == name
    ensures a == b
  {
    forall name | name in a || name in b ensures name in a && name in b && a[name] == b[name] {
      var n :| n in machines && machines[n].name == name;
      assert Find(a, machines[n].name) == Find(b, machines[n].name);
    }
  }

  lemma FinalsIgnoreSignals(cfg: Config, view: View, signals: seq<Signal>, waiting: Waiting, m: Machine, replace: bool, restart: bool)
    ensures FinalKind(cfg, view.(signals := signals), waiting, m, replace, restart)
            == FinalKind(cfg, view, waiting, m, replace, restart)
    ensures FinalWait(cfg, view.(signals := signals), waiting, m, replace, restart)
            == FinalWait(cfg, view, waiting, m, replace, restart)
  {
  }

  lemma SameCalls(cfg: Config, view: View, signals: seq<Signal>, n: string, d: Decision)
    requires multiset(signals) == multiset(view.signals)
    ensures Calls(cfg, view.(signals := signals), signals, n, d) <==> Calls(cfg, view, view.signals, n, d)
  {
    assert forall s :: s in signals <==> s in multiset(signals);
    assert forall s :: s in view.signals <==> s in multiset(view.signals);
  }

  lemma SameConditions(a: seq<Signal>, b: seq<Signal>)
    requires Conditions(a) && multiset(a) == multiset(b)
    ensures Conditions(b)
  {
    forall s | s in b ensures s in a {
      assert s in multiset(b);
    }
    forall i, j | 0 <= i < j < |b| ensures b[i].Key() != b[j].Key() {
      assert b[i] in a && b[j] in a;
      if b[i] == b[j] {
        Twice(b, i, j);
        OnceEach(a, b[i]);
      }
    }
  }

  lemma Twice(s: seq<Signal>, i: nat, j: nat)
    requires i < j < |s| && s[i] == s[j]
    ensures multiset(s)[s[i]] >= 2
  {
    assert s == s[..j] + [s[j]] + s[j + 1..];
    assert s[i] in s[..j];
  }

  lemma {:induction false} OnceEach(s: seq<Signal>, x: Signal)
    requires forall i, j :: 0 <= i < j < |s| ==> s[i].Key() != s[j].Key()
    ensures multiset(s)[x] <= 1
  {
    if s != [] {
      OnceEach(s[1..], x);
      assert s == [s[0]] + s[1..];
      if s[0] == x { assert x !in s[1..]; }
    }
  }
}
