// One pass of the cluster controller over one workload cluster, as a function
// of what it read and of the world its calls go to.

module Passes {
  import opened Text
  import opened Sorting
  import opened Signals
  import opened Decisions
  import opened Machines
  import opened Requests
  import opened Store
  import opened ClusterWorld
  import opened Waits

  datatype Mode = ExternalRemediationRequest | ReportOnly | NodeCondition

  datatype Fallback = ReportInstead | ReplaceInstead

  datatype Config = Config(table: Table, dryRun: bool, fallback: Option<Fallback>, poll: int)

  // What a pass reads before it acts: the Machines by the node they own and
  // the nodes by name may be stale. override is the Cluster's
  // restart-fallback annotation.
  datatype View = View(
    mode: Mode, signals: seq<Signal>, machines: map<string, Machine>, nodes: map<string, Node>,
    checks: seq<Check>, override: Option<string>, now: int)

  datatype Answer = NoAnswer | Give(complete: bool, reason: AnswerReason)

  // What was concluded about one signal. The original's empty observation,
  // which holds nothing, is what a failed write concludes.
  datatype Observation =
    | EmptyObservation(escalating: bool)
    | Observed(decision: Decision, action: string, machine: string, request: string,
               skip: Option<Skip>, answer: Answer)

  // The world, the Machines as the pass has them, and the waits.
  datatype State = State(w: World, machines: map<string, Machine>, waiting: Waiting)

  function Find<T>(m: map<string, T>, k: string): Option<T> { if k in m then Some(m[k]) else None }

  function BootOf(node: Option<Node>): string { if node.Some? then node.value.bootID else "" }

  function ParseFallback(text: string): Option<Fallback> {
    if text == "report" then Some(ReportInstead)
    else if text == "replace" then Some(ReplaceInstead)
    else None
  }

  /** The Cluster's valid override, or else the operator's setting. */
  function RestartFallback(configured: Option<Fallback>, override: Option<string>): Fallback {
    var setting := if configured.Some? then configured.value else ReportInstead;
    if override.Some? && ParseFallback(override.value).Some? then ParseFallback(override.value).value
    else setting
  }

  /** A valid override decides, and without one the operator's setting: only
      "replace" asks for a replacement. */
  lemma FallbackByValue(configured: Option<Fallback>, override: Option<string>)
    ensures RestartFallback(configured, override) == ReplaceInstead
            <==> override == Some("replace") || (override != Some("report") && configured == Some(ReplaceInstead))
  {
  }

  function Decline(sig: Signal, reason: AnswerReason): Answer {
    if sig.request == "" then NoAnswer else Give(false, reason)
  }

  /** The decision taken for a signal in a mode. */
  function DecisionIn(cfg: Config, mode: Mode, sig: Signal): Decision {
    if mode.ReportOnly? then Report else Decided(cfg.table, sig.actions).decision
  }

  /** Nothing but reports is decided on where NVSentinel's janitor remediates by
      itself; elsewhere the table decides. */
  lemma DecisionByMode(cfg: Config, mode: Mode, sig: Signal)
    ensures DecisionIn(cfg, mode, sig) == Replace <==> !mode.ReportOnly? && Reached(cfg.table, sig.actions, Replace)
    ensures DecisionIn(cfg, mode, sig) == Restart
            <==> !mode.ReportOnly? && !Reached(cfg.table, sig.actions, Replace) && Reached(cfg.table, sig.actions, Restart)
  {
    DecisionByTable(cfg.table, sig.actions);
  }

  // ------------------------------------------------- deciding on a Machine

  // What is asked of a Machine once its checks are known. asks is what
  // marking it asks for; unavailable says that a restart was called for that
  // no template can carry out.
  datatype Ask = Ask(asks: Decision, unavailable: bool, fallback: Fallback, cov: Coverage)

  function AskFor(cfg: Config, view: View, d: Decision, m: Machine): Ask {
    var cov := CoverageFor(view.checks, m);
    var unavailable := d.Restart? && !TemplatesOnly(cov);
    var fallback := RestartFallback(cfg.fallback, view.override);
    var instead := unavailable && fallback.ReplaceInstead? && Covered(cov);
    Ask(if instead then Replace else d, unavailable, fallback, cov)
  }

  /** The restart mark is to be turned into a replacement mark. */
  predicate Escalates(ask: Ask, d: Decision, m: Machine) {
    ask.asks.Replace? && (d.Replace? || !(IsPaused(m) || IsOptedOut(m)))
  }

  /** What the request is told when the checks cannot carry the ask out, and
      whether they cannot. */
  function Unavailable(sig: Signal, ask: Ask): Option<Answer> {
    var unpaused := IgnoringPause(ask.cov);
    if ask.asks.Restart? && ask.unavailable then
      var waiting := TemplatesOnly(unpaused) || (ask.fallback.ReplaceInstead? && Covered(unpaused));
      Some(if waiting then NoAnswer else Decline(sig, RemediationUnavailable))
    else if ask.asks.Replace? && !Covered(ask.cov) then
      Some(if Covered(unpaused) then NoAnswer else Decline(sig, RemediationUnavailable))
    else None
  }

  function ActionOf(d: Decision): string { if d.Restart? then ACTION_RESTART else ACTION_REMEDIATE }

  /** Marks the Machine, once nothing stands in the way. */
  function MarkNow(cfg: Config, view: View, st: State, sig: Signal, d: Decision, asks: Decision, m: Machine, obs: Observation)
    : (State, Observation)
  {
    var record := if asks.Restart? then RestartRecord(BootOf(Find(view.nodes, sig.node)), sig.request) else RestartRecord("", "");
    var made := MarkMade(st.w.pass, sig.node, m, d, ActionOf(asks), record, true, map[]);
    match MarkForRemediation(st.w, cfg.dryRun, m, sig.check, made)
    case (w, Err(_)) => (st.(w := w), EmptyObservation(false))
    case (w, Ok(updated)) => (st.(w := w, machines := st.machines[sig.node := updated]), obs)
  }

  /** What remains of remediate once the mark was escalated or did not need to
      be. */
  function Guarded(cfg: Config, view: View, st: State, sig: Signal, d: Decision, ask: Ask, m: Machine, obs: Observation)
    : (State, Observation)
    requires obs.Observed?
  {
    match Guard(m)
    case Some(skip) =>
      var quiet := skip.InProgress() || skip.SkipPaused?;
      (st, obs.(skip := Some(skip), answer := if quiet then NoAnswer else Decline(sig, Skipped(skip))))
    case None =>
      match Unavailable(sig, ask)
      case Some(a) => (st, obs.(answer := a))
      case None =>
        if ask.asks.Restart? then
          var (hold, waiting) := HeldForChecks(st.waiting, m, view.now);
          if hold.held then (st.(waiting := waiting), obs.(skip := Some(SkipEarlierMark)))
          else MarkNow(cfg, view, st.(waiting := waiting), sig, d, ask.asks, m, obs)
        else MarkNow(cfg, view, st, sig, d, ask.asks, m, obs)
  }

  function Remediate(cfg: Config, view: View, st: State, sig: Signal, d: Decision, m: Machine, obs: Observation)
    : (State, Observation)
    requires obs.Observed?
  {
    if d.Restart? && sig.request != "" && RestartCompleted(m, Find(view.nodes, sig.node)) && RestartAnswers(m, sig.request) then
      (st, obs.(answer := Give(true, Restarted)))
    else
      var ask := AskFor(cfg, view, d, m);
      if !Escalates(ask, d, m) then Guarded(cfg, view, st, sig, d, ask, m, obs)
      else
        match Escalate(st.w, cfg.dryRun, m, sig.check)
        case (w, Err(_)) => (st.(w := w), EmptyObservation(true))
        case (w, Ok(updated)) =>
          Guarded(cfg, view, st.(w := w, machines := st.machines[sig.node := updated]), sig, d, ask, updated, obs)
  }

  /** Decides one signal and acts on it. */
  function Handle(cfg: Config, view: View, st: State, sig: Signal): (State, Observation) {
    var d := DecisionIn(cfg, view.mode, sig);
    var machine := Find(st.machines, sig.node);
    var obs := Observed(d, Decided(cfg.table, sig.actions).action,
                        if machine.Some? then machine.value.name else "", sig.request, None, NoAnswer);
    if sig.node !in view.nodes && sig.request != "" then (st, obs)
    else if machine.None? then (st, obs.(answer := Decline(sig, NoMachine)))
    else if d.Report? then (st, obs.(answer := Decline(sig, NotRemediated)))
    else Remediate(cfg, view, st, sig, d, machine.value, obs)
  }

  // --------------------------------------------------------------- answering

  // How often a release that loses to another write is tried.
  const RELEASE_ATTEMPTS := 4

  /** Release after an answer of True. Each time the write conflicts the Machine
      is read again from the cache, and the release goes on only under the mark
      that was answered. */
  function ReleaseAnswered(cfg: Config, st: State, node: string, answered: RestartMark, conflicted: bool, attempts: nat): State
    requires node in st.machines
    decreases attempts, if conflicted then 1 else 0
  {
    if attempts == 0 then st
    else if conflicted then
      match ReadCached(st.w, st.machines[node].name)
      case (w, Err(_)) => st.(w := w)
      case (w, Ok(current)) =>
        var st1 := st.(w := w, machines := st.machines[node := current]);
        if RestartMarkOf(current) != answered then st1
        else ReleaseAnswered(cfg, st1, node, answered, false, attempts)
    else
      match Release(st.w, cfg.dryRun, st.machines[node])
      case (w, Ok(updated)) => st.(w := w, machines := st.machines[node := updated])
      case (w, Err(e)) =>
        if e.Conflict? then ReleaseAnswered(cfg, st.(w := w), node, answered, true, attempts - 1)
        else st.(w := w)
  }

  /** Reports an answer back to the request it came from, and releases the
      Machine once a completed restart was reported. */
  function TellRequest(cfg: Config, view: View, st: State, sig: Signal, a: Answer): State
    requires a.Give?
  {
    if cfg.dryRun then st
    else
      var machine := Find(st.machines, sig.node);
      match AnswerRequest(st.w, sig.request, a.complete, a.reason, machine, Find(view.nodes, sig.node))
      case (w, Err(_)) => st.(w := w)
      case (w, Ok(answered)) =>
        if answered && a.complete && machine.Some? then
          ReleaseAnswered(cfg, st.(w := w), sig.node, RestartMarkOf(machine.value), false, RELEASE_ATTEMPTS)
        else st.(w := w)
  }

  // ------------------------------------------------------ the signals in turn

  // What a pass has concluded so far: the observations by signal key, the
  // requests found pending, and whether a request could not be read.
  datatype Progress = Progress(st: State, current: map<string, Observation>, asking: set<string>, unreadable: bool)

  function Act(cfg: Config, view: View, p: Progress, sig: Signal): Progress {
    var (st, obs) := Handle(cfg, view, p.st, sig);
    var st1 := if obs.Observed? && obs.answer.Give? then TellRequest(cfg, view, st, sig, obs.answer) else st;
    p.(st := st1, current := p.current[sig.Key() := obs])
  }

  function TakeSignal(cfg: Config, view: View, previous: map<string, Observation>, p: Progress, sig: Signal): Progress {
    if sig.request == "" then Act(cfg, view, p, sig)
    else
      match IsPending(p.st.w, sig.request)
      case (w, Err(_)) =>
        p.(st := p.st.(w := w), unreadable := true,
           current := if sig.Key() in previous then p.current[sig.Key() := previous[sig.Key()]] else p.current)
      case (w, Ok(pending)) =>
        if !pending then p.(st := p.st.(w := w))
        else Act(cfg, view, p.(st := p.st.(w := w), asking := p.asking + {sig.request}), sig)
  }

  function TakeSignals(cfg: Config, view: View, previous: map<string, Observation>, p: Progress, signals: seq<Signal>): Progress {
    if signals == [] then p
    else
      var n := |signals| - 1;
      TakeSignal(cfg, view, previous, TakeSignals(cfg, view, previous, p, signals[..n]), signals[n])
  }

  // ---------------------------------------------------- releasing the restarts

  predicate Acting(obs: Observation) { obs.Observed? && obs.machine != "" && !obs.decision.Report? }

  /** The restart this Machine is marked for is over and was asked for by a
      request that is not asking any more. */
  predicate Leftover(m: Machine, node: Option<Node>, asking: set<string>) {
    var asked := Value(m.annotations, RemediationRequest);
    asked != "" && asked !in asking && RestartCompleted(m, node)
  }

  /** The observation is of a request that waits for a restart of its own
      behind such a finished one. */
  predicate Behind(machines: map<string, Machine>, nodes: map<string, Node>, asking: set<string>, obs: Observation) {
    && obs.Observed? && obs.decision.Restart? && obs.request != ""
    && exists n :: n in machines && machines[n].name == obs.machine && Leftover(machines[n], Find(nodes, n), asking)
  }

  /** The observation keeps the mark on its Machine. */
  predicate Holds(machines: map<string, Machine>, nodes: map<string, Node>, asking: set<string>, obs: Observation) {
    Acting(obs) && !Behind(machines, nodes, asking, obs)
  }

  predicate Held(machines: map<string, Machine>, nodes: map<string, Node>, asking: set<string>,
                 current: map<string, Observation>, name: string) {
    exists k :: k in current && current[k].Observed? && current[k].machine == name
                && Holds(machines, nodes, asking, current[k])
  }

  predicate Releasable(m: Machine, held: bool) { MarkedFor(m, ACTION_RESTART) && !held }

  predicate NotAfter(a: string, b: string) { Compare(a, b) <= 0 }

  lemma NamesAreOrdered()
    ensures TotalOrder(NotAfter)
  {
    forall a: string, b: string ensures Compare(a, b) == -Compare(b, a) { CompareFlips(a, b); }
    forall a: string, b: string, c: string | NotAfter(a, b) && NotAfter(b, c) ensures NotAfter(a, c) {
      CompareChains(a, b, c);
    }
  }

  /** The names of a set, in order. */
  ghost function InOrder(names: set<string>): (r: seq<string>)
    ensures forall n :: n in r <==> n in names
    ensures NoRepeats(r)
  {
    if names == {} then []
    else
      var n :| n in names;
      var rest := InOrder(names - {n});
      SortMembers([n] + rest, NotAfter);
      Sort([n] + rest, NotAfter)
  }

  lemma InOrderIsSorted(names: set<string>)
    ensures Sorted(InOrder(names), NotAfter)
  {
    NamesAreOrdered();
    if names != {} {
      var n :| n in names && InOrder(names) == Sort([n] + InOrder(names - {n}), NotAfter);
      SortOrders([n] + InOrder(names - {n}), NotAfter);
    }
  }

  /** Releases the Machine of the node, unless it is held. */
  function ReleaseOne(cfg: Config, st: State, node: string, held: set<string>): State {
    if node !in st.machines then st
    else
      var m := st.machines[node];
      if !Releasable(m, m.name in held) then st
      else
        match Release(st.w, cfg.dryRun, m)
        case (w, Err(_)) => st.(w := w)
        case (w, Ok(updated)) => st.(w := w, machines := st.machines[node := updated])
  }

  function ReleaseEach(cfg: Config, st: State, nodes: seq<string>, held: set<string>): State {
    if nodes == [] then st
    else
      var n := |nodes| - 1;
      ReleaseOne(cfg, ReleaseEach(cfg, st, nodes[..n], held), nodes[n], held)
  }

  function HeldNames(machines: map<string, Machine>, nodes: map<string, Node>, asking: set<string>,
                     current: map<string, Observation>): set<string> {
    set k | k in current && Holds(machines, nodes, asking, current[k]) :: current[k].machine
  }

  // ------------------------------------------------------------ the whole pass

  function Start(w: World, view: View, waiting: Waiting): Progress {
    Progress(State(w, view.machines, waiting), map[], {}, false)
  }

  ghost function ReleaseRestarts(cfg: Config, view: View, p: Progress): State {
    var held := HeldNames(p.st.machines, view.nodes, p.asking, p.current);
    ReleaseEach(cfg, p.st, InOrder(p.st.machines.Keys), held)
  }

  // What a pass leaves behind: its state, with the waits that go on, and the
  // observations to compare the next pass with.
  datatype PassResult = PassResult(st: State, seen: map<string, Observation>)

  ghost function Pass(cfg: Config, view: View, previous: map<string, Observation>, w: World, waiting: Waiting): PassResult {
    var p := TakeSignals(cfg, view, previous, Start(w, view, waiting), view.signals);
    var st := if p.unreadable then p.st else ReleaseRestarts(cfg, view, p);
    PassResult(st.(waiting := Forgotten(st.waiting, st.machines)), p.current)
  }
}
