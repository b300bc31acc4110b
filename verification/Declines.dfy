// Exactly when a request is answered and how, and that nothing is answered by a
// step that acts.

module Declines {
  import opened Text
  import opened Signals
  import opened Decisions
  import opened Machines
  import opened Requests
  import opened ClusterWorld
  import opened Waits
  import opened Passes

  /** The checks, as they are now, would carry the decision out under the
      Cluster's fallback. */
  predicate CanCarryOut(d: Decision, cov: Coverage, fallback: Fallback) {
    match d
    case Replace => Covered(cov)
    case Restart => TemplatesOnly(cov) || (fallback.ReplaceInstead? && Covered(cov))
    case Report => false
  }

  /** Some choice of unpausing covering checks would let the decision be
      carried out. */
  ghost predicate Hopeful(d: Decision, cov: Coverage, fallback: Fallback) {
    exists now :: Unpauses(cov, now) && CanCarryOut(d, now, fallback)
  }

  lemma HopeIsUnpausingAll(d: Decision, cov: Coverage, fallback: Fallback)
    ensures Hopeful(d, cov, fallback) <==> CanCarryOut(d, IgnoringPause(cov), fallback)
  {
    IgnoringPauseUnpauses(cov);
    if Hopeful(d, cov, fallback) {
      var now :| Unpauses(cov, now) && CanCarryOut(d, now, fallback);
      UnpausingKeeps(cov, now);
    }
    if CanCarryOut(d, IgnoringPause(cov), fallback) {
      assert Unpauses(cov, IgnoringPause(cov));
    }
  }

  lemma NowIsAChoice(cov: Coverage)
    ensures Covered(cov) ==> Covered(IgnoringPause(cov))
    ensures TemplatesOnly(cov) ==> TemplatesOnly(IgnoringPause(cov))
  {
    assert Unpauses(cov, cov);
    UnpausingKeeps(cov, cov);
  }

  /** What the checks' failure to carry an ask out tells a request. */
  lemma UnavailableExactly(cfg: Config, view: View, sig: Signal, d: Decision, m: Machine)
    requires sig.request != "" && !d.Report?
    ensures
      var ask := AskFor(cfg, view, d, m);
      Unavailable(sig, ask) == Some(Give(false, RemediationUnavailable))
      <==> !Hopeful(d, CoverageFor(view.checks, m), RestartFallback(cfg.fallback, view.override))
    ensures Unavailable(sig, AskFor(cfg, view, d, m)) in
              {None, Some(NoAnswer), Some(Give(false, RemediationUnavailable))}
  {
    var cov := CoverageFor(view.checks, m);
    HopeIsUnpausingAll(d, cov, RestartFallback(cfg.fallback, view.override));
    NowIsAChoice(cov);
  }

  /** Once the guards pass, a request is declined for want of a check exactly
      when no choice of unpausing checks would let its decision be carried out
      under the Cluster's fallback. */
  lemma DeclinedExactlyWhenHopeless(cfg: Config, view: View, st: State, sig: Signal)
    requires sig.request != "" && sig.node in view.nodes && sig.node in st.machines
    requires Guard(st.machines[sig.node]).None? && !DecisionIn(cfg, view.mode, sig).Report?
    ensures
      var m := st.machines[sig.node];
      var o := Handle(cfg, view, st, sig).1;
      (o.Observed? && o.answer == Give(false, RemediationUnavailable))
      <==> !Hopeful(DecisionIn(cfg, view.mode, sig), CoverageFor(view.checks, m), RestartFallback(cfg.fallback, view.override))
  {
    hide Hopeful, CoverageFor, RestartFallback, MarkForRemediation, HeldForChecks, Decided;
    var m, d := st.machines[sig.node], DecisionIn(cfg, view.mode, sig);
    UnavailableExactly(cfg, view, sig, d, m);
    assert Escalate(st.w, cfg.dryRun, m, sig.check) == (st.w, Ok(m));
    assert st.machines == st.machines[sig.node := m];
  }

  lemma EscalatedIsInProgress(w: World, dryRun: bool, m: Machine, reason: string)
    ensures
      var (v, r) := Escalate(w, dryRun, m, reason);
      r.Ok? ==> || (v == w && r.value == m)
                || (Guard(r.value).Some? && Guard(r.value).value.InProgress() && Guard(m).Some? && Guard(m).value.InProgress())
  {
  }

  /** Checks that are paused may still carry the decision out. */
  ghost predicate SomeCheckWould(cfg: Config, view: View, d: Decision, m: Machine) {
    && (exists k :: HasCheck(view.checks, m, k))
    && (d == Replace || AllHaveTemplates(view.checks, m) || ReplacesInstead(cfg, view))
  }

  /** A restart that no template can carry out is to be a replacement. */
  predicate ReplacesInstead(cfg: Config, view: View) {
    view.override == Some("replace") || (view.override != Some("report") && cfg.fallback == Some(ReplaceInstead))
  }

  lemma HopefulExactlyWhen(cfg: Config, view: View, d: Decision, m: Machine)
    requires !d.Report?
    ensures Hopeful(d, CoverageFor(view.checks, m), RestartFallback(cfg.fallback, view.override)) <==> SomeCheckWould(cfg, view, d, m)
  {
    HopeIsUnpausingAll(d, CoverageFor(view.checks, m), RestartFallback(cfg.fallback, view.override));
    UnpausedExactlyWhen(view.checks, m);
    FallbackByValue(cfg.fallback, view.override);
    hide CoverageFor, RestartFallback, Covered, TemplatesOnly, Hopeful;
  }

  /** The Machine is neither being deleted nor marked, by anyone. */
  predicate IsIdle(m: Machine) { !m.deleting && RemediateMachine !in m.annotations }

  /** What a request is told, by what is seen of its node and Machine: what holds
      of each answer. */
  ghost predicate AnswerDue(cfg: Config, view: View, s: Signal, machine: Option<Machine>, complete: bool, reason: AnswerReason) {
    && s.request != "" && s.node in view.nodes && complete == reason.Restarted?
    && if reason.NoMachine? then machine.None?
       else machine.Some? && DueOn(cfg, view, s, DecisionIn(cfg, view.mode, s), machine.value, reason)
  }

  ghost predicate DueOn(cfg: Config, view: View, s: Signal, d: Decision, m: Machine, reason: AnswerReason) {
    && (reason.NotRemediated? <==> d.Report?)
    && (reason.Restarted? <==> IsFinished(view, s, d, m))
    && match reason
       case Restarted => true
       case NotRemediated => true
       case Skipped(SkipControlPlane) => IsIdle(m) && m.controlPlane
       case Skipped(SkipOptedOut) =>
         IsIdle(m) && !m.controlPlane && PausedKey !in m.annotations && SkipRemediationKey in m.annotations
       case RemediationUnavailable => Unhindered(m) && !SomeCheckWould(cfg, view, d, m)
       case _ => false
  }

  /** Nothing stands against marking the Machine. */
  predicate Unhindered(m: Machine) {
    IsIdle(m) && !m.controlPlane && PausedKey !in m.annotations && SkipRemediationKey !in m.annotations
  }

  /** The restart the signal asks for is over. */
  predicate IsFinished(view: View, s: Signal, d: Decision, m: Machine) {
    d == Restart && RestartCompleted(m, Find(view.nodes, s.node)) && RestartAnswers(m, s.request)
  }

  lemma UnhinderedExactlyWhen(m: Machine)
    ensures Guard(m).None? <==> Unhindered(m)
    ensures Guard(m) == Some(SkipControlPlane) <==> IsIdle(m) && m.controlPlane
    ensures Guard(m) == Some(SkipOptedOut)
            <==> IsIdle(m) && !m.controlPlane && PausedKey !in m.annotations && SkipRemediationKey in m.annotations
    ensures Guard(m) != Some(SkipEarlierMark)
  {
  }

  /** What is concluded past the finished restarts and the escalation. */
  lemma GuardedAnswers(cfg: Config, view: View, st: State, s: Signal, d: Decision, m: Machine, obs: Observation)
    requires obs.Observed? && obs.answer.NoAnswer? && s.request != "" && !d.Report?
    ensures
      var o := Guarded(cfg, view, st, s, d, AskFor(cfg, view, d, m), m, obs).1;
      o.Observed? ==>
        o.answer == if Guard(m) == Some(SkipControlPlane) || Guard(m) == Some(SkipOptedOut) then Give(false, Skipped(Guard(m).value))
                    else if Guard(m).None? && !SomeCheckWould(cfg, view, d, m) then Give(false, RemediationUnavailable)
                    else NoAnswer
  {
    hide AskFor, Unavailable, HeldForChecks, Hopeful, SomeCheckWould, MarkForRemediation;
    UnhinderedExactlyWhen(m);
    UnavailableExactly(cfg, view, s, d, m);
    HopefulExactlyWhen(cfg, view, d, m);
    hide Guard, CoverageFor, RestartFallback;
  }

  lemma RemediatedAnswers(cfg: Config, view: View, st: State, s: Signal, d: Decision, m: Machine, obs: Observation)
    requires obs.Observed? && obs.answer.NoAnswer? && s.request != "" && !d.Report?
    requires s.node in view.nodes && d == DecisionIn(cfg, view.mode, s)
    ensures
      var o := Remediate(cfg, view, st, s, d, m, obs).1;
      o.Observed? ==> forall complete, reason :: o.answer == Give(complete, reason) <==> AnswerDue(cfg, view, s, Some(m), complete, reason)
  {
    hide Guarded, Guard, Escalate, AskFor, RestartCompleted, RestartAnswers, DecisionIn, SomeCheckWould;
    var ask := AskFor(cfg, view, d, m);
    UnhinderedExactlyWhen(m);
    GuardedAnswers(cfg, view, st, s, d, m, obs);
    EscalatedIsInProgress(st.w, cfg.dryRun, m, s.check);
    var (w, r) := Escalate(st.w, cfg.dryRun, m, s.check);
    if Escalates(ask, d, m) && r.Ok? {
      EscalatedAnswers(cfg, view, st.(w := w, machines := st.machines[s.node := r.value]), s, d, m, r.value, obs);
    }
    hide Escalates;
  }

  /** An escalation that goes through leaves nothing to tell; otherwise the
      Machine is as it was. */
  lemma EscalatedAnswers(cfg: Config, view: View, st: State, s: Signal, d: Decision, m: Machine, m': Machine, obs: Observation)
    requires obs.Observed? && obs.answer.NoAnswer? && s.request != "" && !d.Report?
    requires m' == m || (Guard(m').Some? && Guard(m').value.InProgress() && Guard(m).Some? && Guard(m).value.InProgress())
    ensures
      var o := Guarded(cfg, view, st, s, d, AskFor(cfg, view, d, m), m', obs).1;
      o.Observed? ==>
        o.answer == if Guard(m) == Some(SkipControlPlane) || Guard(m) == Some(SkipOptedOut) then Give(false, Skipped(Guard(m).value))
                    else if Guard(m).None? && !SomeCheckWould(cfg, view, d, m) then Give(false, RemediationUnavailable)
                    else NoAnswer
  {
    hide AskFor, Guard, SomeCheckWould, MarkNow, Unavailable, HeldForChecks;
    if m' == m { GuardedAnswers(cfg, view, st, s, d, m, obs); }
  }

  /** Each answer a step concludes is the one that is due, and where one is due
      it concludes that, unless its own write failed. */
  lemma AnsweredExactlyWhenDue(cfg: Config, view: View, st: State, s: Signal)
    ensures
      var o := Handle(cfg, view, st, s).1;
      o.Observed? ==>
        forall complete, reason ::
          o.answer == Give(complete, reason) <==> AnswerDue(cfg, view, s, Find(st.machines, s.node), complete, reason)
  {
    hide Remediate, DecisionIn, Decided, RestartCompleted, RestartAnswers, SomeCheckWould;
    var d := DecisionIn(cfg, view.mode, s);
    if s.request == "" {
      ConditionsGetNoAnswer(cfg, view, st, s);
    } else if s.node in view.nodes && s.node in st.machines && !d.Report? {
      var m := st.machines[s.node];
      RemediatedAnswers(cfg, view, st, s, d, m, Observed(d, Decided(cfg.table, s.actions).action, m.name, s.request, None, NoAnswer));
    }
  }

  lemma ConditionsGetNoAnswer(cfg: Config, view: View, st: State, s: Signal)
    requires s.request == ""
    ensures
      var o := Handle(cfg, view, st, s).1;
      o.Observed? ==> o.answer.NoAnswer?
  {
    hide CoverageFor, RestartFallback, HeldForChecks, Escalate, MarkForRemediation, Covered, TemplatesOnly, Decided;
  }

  /** A signal whose handling concludes an answer, True or False, left the
      world and its Machine as they were: nothing is declined by a step that
      marks or escalates. */
  lemma NothingIsAnsweredByActing(cfg: Config, view: View, st: State, sig: Signal)
    ensures
      var (st', o) := Handle(cfg, view, st, sig);
      o.Observed? && o.answer.Give? ==> st'.w == st.w && st'.machines == st.machines
  {
    hide CoverageFor, RestartFallback, HeldForChecks, Escalate, MarkForRemediation, Covered, TemplatesOnly, Decided;
    if sig.node in st.machines {
      var m := st.machines[sig.node];
      EscalatedIsInProgress(st.w, cfg.dryRun, m, sig.check);
      assert st.machines == st.machines[sig.node := m];
    }
  }
}
