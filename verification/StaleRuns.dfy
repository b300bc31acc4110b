// Runs in which a mark is set from a view older than the operator's own last
// write: where an answer is not credited to what it rests on, and where a
// replacement mark turns into a restart mark.

module StaleRuns {
  import opened Text
  import opened Sorting
  import opened Signals
  import opened Decisions
  import opened Machines
  import opened Requests
  import opened Store
  import opened ClusterWorld
  import opened ClusterSound
  import opened Waits
  import opened Passes
  import opened PassSafety
  import opened QuietPass

  // ------------------------------------------- passes over a single Machine

  function MarkFor(cfg: Config, view: View, w: World, s: Signal, m: Machine): MarkMade {
    var d := DecisionIn(cfg, view.mode, s);
    var asks := AskFor(cfg, view, d, m).asks;
    var record := if asks.Restart? then RestartRecord(BootOf(Find(view.nodes, s.node)), s.request) else RestartRecord("", "");
    MarkMade(w.pass, s.node, m, d, ActionOf(asks), record, true, map[])
  }

  function Asked(w: World, s: Signal): World { if s.request == "" then w else IsPending(w, s.request).0 }

  predicate IsAsking(view: View, w: World, s: Signal) {
    s.request != "" ==> s.request in w.requests && Pending(w.requests[s.request]) && s.node in view.nodes
  }

  /** The signal calls for a mark on the Machine, as it was seen, and nothing
      stands in the way. */
  ghost predicate WouldMark(cfg: Config, view: View, s: Signal, seen: Machine) {
    && !DecisionIn(cfg, view.mode, s).Report? && Guard(seen).None? && !EarlierMarkPending(seen)
    && Unavailable(s, AskFor(cfg, view, DecisionIn(cfg, view.mode, s), seen)).None?
  }

  ghost predicate OnlySignal(cfg: Config, view: View, w: World, s: Signal, seen: Machine) {
    && !cfg.dryRun && Quiet(w) && view.signals == [s] && view.machines == map[s.node := seen] && seen.name != ""
    && IsAsking(view, w, s)
  }

  /** Handling a signal that calls for a mark sets it on the Machine as that is
      on the server, in whatever version the pass saw it. */
  lemma HandleMarks(cfg: Config, view: View, st: State, s: Signal, seen: Machine)
    requires !cfg.dryRun && Quiet(st.w) && st.machines == map[s.node := seen] && WouldMark(cfg, view, s, seen)
    requires (s.request != "" ==> s.node in view.nodes) && seen.name in st.w.store.machines
    ensures
      var v := MarkWritten(st.w, seen, s.check, MarkFor(cfg, view, st.w, s, seen));
      var (st', o) := Handle(cfg, view, st, s);
      && st'.w == v && st'.machines == map[s.node := v.store.machines[seen.name]]
      && o.Observed? && o.decision == DecisionIn(cfg, view.mode, s) && o.machine == seen.name && o.request == s.request
      && o.answer.NoAnswer?
  {
    hide CoverageFor, Covered, TemplatesOnly, Decided, MarkWritten, RestartFallback;
  }

  /** A pass that only sets that mark, which is not one of a finished restart. */
  lemma PassMarks(cfg: Config, view: View, previous: map<string, Observation>, w: World, waiting: Waiting, s: Signal, seen: Machine)
    requires OnlySignal(cfg, view, w, s, seen) && WouldMark(cfg, view, s, seen) && seen.name in w.store.machines
    requires
      var v := MarkWritten(Asked(w, s), seen, s.check, MarkFor(cfg, view, Asked(w, s), s, seen));
      v.store.machines[seen.name].name == seen.name && !RestartCompleted(v.store.machines[seen.name], Find(view.nodes, s.node))
    ensures Pass(cfg, view, previous, w, waiting).st.w
         == MarkWritten(Asked(w, s), seen, s.check, MarkFor(cfg, view, Asked(w, s), s, seen))
  {
    hide Handle, MarkWritten, MarkFor, DecisionIn, Guard, EarlierMarkPending, Unavailable, IsPending, RestartCompleted;
    var p0 := Start(w, view, waiting);
    assert view.signals[..0] == [] && TakeSignals(cfg, view, previous, p0, []) == p0;
    QuietIsPending(w, s.request);
    var st := p0.st.(w := Asked(w, s));
    HandleMarks(cfg, view, st, s, seen);
    var p := TakeSignals(cfg, view, previous, p0, view.signals);
    assert p == TakeSignal(cfg, view, previous, p0, s);
    var o := Handle(cfg, view, st, s).1;
    assert p.current == map[s.Key() := o];
    OnlyMarkHolds(cfg, view, p, s, o);
    NothingToRelease(cfg, p.st, InOrder(p.st.machines.Keys), HeldNames(p.st.machines, view.nodes, p.asking, p.current));
    hide ReleaseEach, HeldNames;
  }

  lemma OnlyMarkHolds(cfg: Config, view: View, p: Progress, s: Signal, o: Observation)
    requires o.Observed? && p.current == map[s.Key() := o] && p.st.machines.Keys == {s.node}
    requires p.st.machines[s.node].name == o.machine != ""
    requires !o.decision.Report? && !RestartCompleted(p.st.machines[s.node], Find(view.nodes, s.node))
    ensures p.st.machines[s.node].name in HeldNames(p.st.machines, view.nodes, p.asking, p.current)
  {
    hide RestartCompleted;
    assert !Behind(p.st.machines, view.nodes, p.asking, o);
    assert Holds(p.st.machines, view.nodes, p.asking, p.current[s.Key()]);
  }

  lemma QuietIsPending(w: World, name: string)
    requires Quiet(w)
    ensures
      var (v, r) := IsPending(w, name);
      && Quiet(v) && v.store == w.store && v.pass == w.pass && v.own == w.own && v.requests == w.requests
      && v.history.marks == w.history.marks && v.history.writes == w.history.writes && v.history.answers == w.history.answers
      && r == Ok(name in w.requests && Pending(w.requests[name]))
  {
  }

  lemma {:induction false} NothingToRelease(cfg: Config, st: State, nodes: seq<string>, held: set<string>)
    requires forall n :: n in st.machines ==> !Releasable(st.machines[n], st.machines[n].name in held)
    ensures ReleaseEach(cfg, st, nodes, held) == st
  {
    if nodes != [] {
      NothingToRelease(cfg, st, nodes[..|nodes| - 1], held);
    }
  }

  /** A pass over a finished restart that answers its request. */
  lemma PassAnswers(cfg: Config, view: View, previous: map<string, Observation>, w: World, waiting: Waiting, s: Signal, m: Machine)
    returns (a: AnswerGiven)
    requires OnlySignal(cfg, view, w, s, m) && s.request != "" && DecisionIn(cfg, view.mode, s).Restart?
    requires Synced(w, m) && !m.deleting && RestartCompleted(m, Find(view.nodes, s.node)) && RestartAnswers(m, s.request)
    ensures
      var v := Pass(cfg, view, previous, w, waiting).st.w;
      && a in v.history.answers && a.complete && a.machine == Some(m) && a.before == w.requests[s.request]
      && v.history.marks == w.history.marks
  {
    hide Handle, TellRequest, IsPending, RestartCompleted, Pending;
    var p0 := Start(w, view, waiting);
    assert view.signals[..0] == [] && TakeSignals(cfg, view, previous, p0, []) == p0;
    QuietIsPending(w, s.request);
    var st := p0.st.(w := Asked(w, s));
    FindsItDone(cfg, view, st, s, m);
    var p := TakeSignals(cfg, view, previous, p0, view.signals);
    assert p == TakeSignal(cfg, view, previous, p0, s);
    a := TellsDone(cfg, view, st, s, m);
    NothingToRelease(cfg, p.st, InOrder(p.st.machines.Keys), HeldNames(p.st.machines, view.nodes, p.asking, p.current));
  }

  lemma FindsItDone(cfg: Config, view: View, st: State, s: Signal, m: Machine)
    requires st.machines == map[s.node := m] && s.request != "" && s.node in view.nodes && DecisionIn(cfg, view.mode, s).Restart?
    requires RestartCompleted(m, Find(view.nodes, s.node)) && RestartAnswers(m, s.request)
    ensures
      var (st', o) := Handle(cfg, view, st, s);
      st' == st && o.Observed? && o.answer == Give(true, Restarted)
  {
    hide CoverageFor, TemplatesOnly, Decided, HeldForChecks, RestartCompleted, RestartAnswers;
  }

  lemma TellsDone(cfg: Config, view: View, st: State, s: Signal, m: Machine) returns (a: AnswerGiven)
    requires !cfg.dryRun && Quiet(st.w) && st.machines == map[s.node := m] && Synced(st.w, m) && !m.deleting
    requires s.request in st.w.requests && Pending(st.w.requests[s.request]) && RestartCompleted(m, Find(view.nodes, s.node))
    ensures
      var st' := TellRequest(cfg, view, st, s, Give(true, Restarted));
      && a in st'.w.history.answers && a.complete && a.machine == Some(m) && a.before == st.w.requests[s.request]
      && st'.w.history.marks == st.w.history.marks && st'.machines.Keys == {s.node} && !IsMarked(st'.machines[s.node])
  {
    hide AnswerRequest, Pending, Release, Released, Stamped, RestartCompleted;
    var node := Find(view.nodes, s.node);
    a := AnswerGoesThrough(st.w, s.request, m, node);
    var w := AnswerRequest(st.w, s.request, true, Restarted, Some(m), node).0;
    QuietRelease(w, m);
    KindWhenReleased(m, w.store);
    assert MarkedAction(m).Some? by { CompletedIsMarked(m, node); }
    ReleaseKeepsAnswers(w, m);
  }

  lemma CompletedIsMarked(m: Machine, node: Option<Node>)
    requires RestartCompleted(m, node)
    ensures MarkedAction(m).Some?
  {
  }

  lemma AnswerGoesThrough(w: World, name: string, m: Machine, node: Option<Node>) returns (a: AnswerGiven)
    requires Quiet(w) && Synced(w, m) && name in w.requests && Pending(w.requests[name])
    ensures
      var (v, r) := AnswerRequest(w, name, true, Restarted, Some(m), node);
      && r == Ok(true) && Quiet(v) && Synced(v, m) && v.history.marks == w.history.marks
      && a in v.history.answers && a.complete && a.machine == Some(m) && a.before == w.requests[name]
  {
    hide Pending, WithAnswer;
    var v := AnswerRequest(w, name, true, Restarted, Some(m), node).0;
    a := AnswerGiven(w.pass, true, Restarted, w.requests[name], v.requests[name], Some(m), node);
  }

  lemma ReleaseKeepsAnswers(w: World, m: Machine)
    requires Quiet(w)
    ensures
      var v := Release(w, false, m).0;
      v.history.answers == w.history.answers && v.history.marks == w.history.marks
  {
  }

  // ------------------------------------------------------------ the runs

  const CFG := Config(map["RESTART_VM" := Restart, "REPLACE_VM" := Replace], false, None, 0)
  const FRESH := Machine("ns", "machine", "cluster", 1, 1, false, false, true, map[], None)
  const CHECK := Check("ns", "check", "cluster", {"machine"}, Some("template"), false)

  function Faulty(action: string, request: string): Signal { Signal("node", "gpu", [action], [], [], false, request) }

  function Booted(bootID: string): Node { Node(bootID, [Machines.NodeCondition.NodeCondition("Ready", "True")]) }

  function Asking(name: string): Request {
    Request(name, 1, false, [Requests.Condition(OWNERSHIP_RELEASED, "True", Restarted)])
  }

  /** A pass that reads the Machine as m and the node with a boot ID. */
  function Reads(mode: Mode, s: Signal, m: Machine, bootID: string): View {
    View(mode, [s], map["node" := m], map["node" := Booted(bootID)], [CHECK], None, 0)
  }

  function At(edits: seq<WorldEdit>, view: View): Moment { Moment(edits, [], CFG, view, false, false, false) }

  function FirstWorld(): World {
    World(Machinery(map["machine" := FRESH], {FRESH}, 1), map[], map["first" := Asking("first")], [], true, 0, History({}, {}, {}, {}))
  }

  lemma Decides(action: string)
    requires action in CFG.table
    ensures Decided(CFG.table, [action]).decision == CFG.table[action]
  {
    assert [action][..0] == [];
    assert BestOf(CFG.table, []) == NothingYet;
  }

  lemma CheckCovers(m: Machine)
    requires m.name == "machine" && m.namespace == "ns" && m.cluster == "cluster"
    ensures CoverageFor([CHECK], m) == [CoveringCheck("check", Some("template"), false)]
  {
    assert [CHECK][..0] == [] && Covering([], m) == [];
    assert Covering([CHECK], m) == [CoveringCheck("check", Some("template"), false)];
  }

  /** An unmarked Machine seen, a restart or a replacement is called for. */
  lemma Calls(mode: Mode, action: string, request: string, bootID: string)
    requires !mode.ReportOnly? && (action == "RESTART_VM" || action == "REPLACE_VM")
    ensures
      var s := Faulty(action, request);
      var view := Reads(mode, s, FRESH, bootID);
      && DecisionIn(CFG, mode, s) == CFG.table[action] && WouldMark(CFG, view, s, FRESH)
      && AskFor(CFG, view, CFG.table[action], FRESH).asks == CFG.table[action]
  {
    Decides(action);
    CheckCovers(FRESH);
    var c := CoveringCheck("check", Some("template"), false);
    assert c in [c] && Covered([c]) && TemplatesOnly([c]);
    hide CoverageFor, Decided, Covered, TemplatesOnly;
  }

  /** The mark a signal calls for on the Machine when that is seen as FRESH. */
  function FreshMark(pass: nat, action: string, request: string, bootID: string, upToDate: bool, over: Annotations): MarkMade
    requires action in CFG.table
  {
    var d := CFG.table[action];
    MarkMade(pass, "node", FRESH, d, ActionOf(d),
             if d.Restart? then RestartRecord(bootID, request) else RestartRecord("", ""), upToDate, over)
  }

  /** The world with that mark set on the Machine, whatever it is by then. */
  ghost predicate HasFreshMark(w: World, v: World, action: string, request: string, bootID: string)
    requires action in CFG.table && "machine" in w.store.machines
  {
    var cur := w.store.machines["machine"];
    var made := FreshMark(w.pass, action, request, bootID, IsUpToDate(w, FRESH), cur.annotations);
    && "machine" in v.store.machines && v.requests == w.requests && v.pass == w.pass && w.store.past <= v.store.past && Quiet(v)
    && var m := v.store.machines["machine"];
    && m.name == "machine" && m in v.store.past && m.deleting == cur.deleting && MarkedFor(m, made.action)
    && RecordOn(m.annotations) == LeftBy(made)
    && MachineWrite(MarkWrite(made.action), cur, m, made.upToDate) in v.history.writes
    && v.history.marks == w.history.marks + {made}
  }

  lemma FreshMarkIsSet(w: World, action: string, request: string, bootID: string)
    requires action in CFG.table && "machine" in w.store.machines && Quiet(w)
    ensures HasFreshMark(w, MarkWritten(w, FRESH, "gpu", FreshMark(w.pass, action, request, bootID, true, map[])), action, request, bootID)
  {
    hide Changed, Marked;
    var made := FreshMark(w.pass, action, request, bootID, true, map[]);
    MarkMergesClean(FRESH, w.store.machines["machine"], "gpu", made.action, made.record);
  }

  lemma NewMarkIsUnfinished(m: Machine, made: MarkMade, bootID: string)
    requires MarkedFor(m, made.action) && RecordOn(m.annotations) == LeftBy(made)
    requires made.action == ACTION_RESTART ==> made.record.bootID == bootID
    ensures !RestartCompleted(m, Some(Booted(bootID)))
  {
  }

  /** What a pass that sees the Machine as FRESH leaves, whatever it is by then:
      the mark it sets, over what that does not record. */
  lemma FreshViewMarks(mode: Mode, action: string, request: string, bootID: string, previous: map<string, Observation>,
                       w: World, waiting: Waiting)
    requires !mode.ReportOnly? && (action == "RESTART_VM" || action == "REPLACE_VM") && Quiet(w) && "machine" in w.store.machines
    requires request != "" ==> request in w.requests && Pending(w.requests[request])
    ensures HasFreshMark(w, Pass(CFG, Reads(mode, Faulty(action, request), FRESH, bootID), previous, w, waiting).st.w,
                         action, request, bootID)
  {
    hide Pass, WouldMark, MarkWritten, Pending, IsPending, AskFor, DecisionIn, RestartCompleted;
    var s := Faulty(action, request);
    var view := Reads(mode, s, FRESH, bootID);
    Calls(mode, action, request, bootID);
    QuietIsPending(w, request);
    var u := Asked(w, s);
    var made := FreshMark(w.pass, action, request, bootID, true, map[]);
    assert MarkFor(CFG, view, u, s, FRESH) == made;
    FreshMarkIsSet(u, action, request, bootID);
    ActionsDiffer();
    var v := MarkWritten(u, FRESH, "gpu", made);
    NewMarkIsUnfinished(v.store.machines["machine"],
                        FreshMark(w.pass, action, request, bootID, IsUpToDate(u, FRESH), u.store.machines["machine"].annotations), bootID);
    PassMarks(CFG, view, previous, w, waiting, s, FRESH);
  }

  lemma BeginsQuiet(o: Operator, edits: seq<WorldEdit>, view: View)
    ensures Quiet(Begin(o, At(edits, view)))
    ensures edits == [] ==> Begin(o, At(edits, view)) == o.w.(env := [], alive := true, pass := o.w.pass + 1)
  {
  }

  lemma FirstIsUntouched()
    ensures Untouched(Operator(FirstWorld(), map[], map[]))
  {
    assert Sound(FirstWorld().store);
    assert SoundRequests(FirstWorld());
    assert FirstWorld().own == map[];
  }

  lemma AskingIsPending(name: string)
    ensures Pending(Asking(name)) && Asking(name).name == name
  {
    var conditions := Asking(name).conditions;
    assert OWNERSHIP_RELEASED[0] == 'N' && COMPLETE[0] == 'E';
    assert conditions[0].kind != COMPLETE && conditions[1..] == [];
    assert ConditionStatus(conditions[1..], COMPLETE) == "";
    assert ConditionStatus(conditions, COMPLETE) == "";
  }

  /** Two passes that see the Machine as FRESH, the second although the first
      set a mark. */
  ghost function TwoPasses(first: View, edits: seq<WorldEdit>, second: View): (seq<Operator>, seq<Moment>) {
    var o0 := Operator(FirstWorld(), map[], map[]);
    var m0, m1 := At([], first), At(edits, second);
    var o1 := RunOn(o0, m0);
    ([o0, o1, RunOn(o1, m1)], [m0, m1])
  }

  /** Each of two passes set its mark, the first on the new Machine and the
      second on what the first left, with a later request pending by then. */
  ghost predicate MarkedTwice(run: seq<Operator>, moments: seq<Moment>, action: string, request: string, boot: string,
                              more: string, laterBoot: string) {
    && IsRun(run, moments) && |run| == 3 && action in CFG.table && "RESTART_VM" in CFG.table
    && var w0, w1 := Begin(run[0], moments[0]), Begin(run[1], moments[1]);
    && "machine" in w0.store.machines && w0.store.machines["machine"] == FRESH && w0.history == History({}, {}, {}, {})
    && HasFreshMark(w0, run[1].w, action, request, boot)
    && "machine" in w1.store.machines && "machine" in run[1].w.store.machines
    && w1.store.machines["machine"] == run[1].w.store.machines["machine"]
    && w1.history == run[1].w.history && run[2].w.alive
    && HasFreshMark(w1, run[2].w, "RESTART_VM", more, laterBoot)
    && (more != "" ==> more in run[2].w.requests && Pending(run[2].w.requests[more]) && run[2].w.requests[more].name == more)
  }

  /** The first of the passes asks for a restart or a replacement, with a first
      request or without, and the second for a restart. */
  lemma TwoMarks(mode: Mode, action: string, request: string, boot: string, edits: seq<WorldEdit>, more: string, laterBoot: string)
    requires !mode.ReportOnly? && (action == "RESTART_VM" || action == "REPLACE_VM") && (request == "" || request == "first")
    requires (edits == [] && more == "") || (more != "" && edits == [WriteRequest(Asking(more))])
    ensures
      var (run, moments) := TwoPasses(Reads(mode, Faulty(action, request), FRESH, boot), edits,
                                      Reads(mode, Faulty("RESTART_VM", more), FRESH, laterBoot));
      MarkedTwice(run, moments, action, request, boot, more, laterBoot)
  {
    hide Pass, Pending, Untouched, Reads, CouldRead;
    var first, second := Reads(mode, Faulty(action, request), FRESH, boot), Reads(mode, Faulty("RESTART_VM", more), FRESH, laterBoot);
    var (run, moments) := TwoPasses(first, edits, second);
    FirstIsUntouched();
    AskingIsPending("first");
    BeginsQuiet(run[0], [], first);
    FreshIsRead(run[0], [], mode, action, request, boot);
    FreshViewMarks(mode, action, request, boot, map[], Begin(run[0], moments[0]), map[]);
    var w1 := Begin(run[1], moments[1]);
    BeginsWith(run[1], edits, more, second);
    FreshIsRead(run[1], edits, mode, "RESTART_VM", more, laterBoot);
    StillAsks(w1, more);
    FreshViewMarks(mode, "RESTART_VM", more, laterBoot, Remembered(run[1], moments[1]), w1, StillWaiting(run[1], moments[1]));
  }

  lemma FreshIsRead(o: Operator, edits: seq<WorldEdit>, mode: Mode, action: string, request: string, boot: string)
    requires FRESH in Begin(o, At(edits, Reads(mode, Faulty(action, request), FRESH, boot))).store.past
    ensures CouldRead(o, At(edits, Reads(mode, Faulty(action, request), FRESH, boot)))
  {
    hide Begin;
  }

  lemma StillAsks(w: World, more: string)
    requires more != "" ==> more in w.requests && w.requests[more] == Asking(more).(version := w.requests[more].version)
    ensures more != "" ==> Pending(w.requests[more]) && w.requests[more].name == more
  {
    AskingIsPending(more);
  }

  lemma BeginsWith(o: Operator, edits: seq<WorldEdit>, more: string, view: View)
    requires (edits == [] && more == "") || (more != "" && edits == [WriteRequest(Asking(more))])
    ensures
      var w := Begin(o, At(edits, view));
      && Quiet(w) && w.history == o.w.history && w.store.machines == o.w.store.machines && w.store.past == o.w.store.past
      && (more != "" ==> more in w.requests && w.requests[more] == Asking(more).(version := w.requests[more].version))
  {
    if more != "" {
      assert edits[1..] == [];
      assert EditAll(o.w, edits) == EditAll(EditWorld(o.w, edits[0]), []);
    }
  }

  function FreshRead(o: Operator, request: string): Moment
    requires "machine" in o.w.store.machines
  {
    At([], Reads(ExternalRemediationRequest, Faulty("RESTART_VM", request), o.w.store.machines["machine"], "second boot"))
  }

  /** A pass that finds the mark of a finished restart for the request. */
  lemma ThirdPass(o: Operator, request: string) returns (a: AnswerGiven)
    requires "machine" in o.w.store.machines && o.w.store.machines["machine"].name == "machine"
    requires o.w.store.machines["machine"] in o.w.store.past && !o.w.store.machines["machine"].deleting
    requires MarkedFor(o.w.store.machines["machine"], ACTION_RESTART) && request != ""
    requires RecordOn(o.w.store.machines["machine"].annotations) == RestartRecord("first boot", request)
    requires request in o.w.requests && Pending(o.w.requests[request]) && o.w.requests[request].name == request
    ensures
      var v := RunOn(o, FreshRead(o, request)).w;
      && CouldRead(o, FreshRead(o, request)) && a in v.history.answers && a.complete
      && a.machine == Some(o.w.store.machines["machine"]) && a.before.name == request && v.history.marks == o.w.history.marks
  {
    hide Pass, Pending, CoverageFor, Decided;
    var m := FreshRead(o, request);
    BeginsQuiet(o, [], m.view);
    Decides("RESTART_VM");
    assert RestartCompleted(o.w.store.machines["machine"], Some(Booted("second boot")));
    a := PassAnswers(CFG, m.view, Remembered(o, m), Begin(o, m), StillWaiting(o, m), Faulty("RESTART_VM", request),
                     o.w.store.machines["machine"]);
  }

  /** Two marks, the later over the earlier without a boot ID of its own. */
  lemma LeftoverBoot(w0: World, v0: World, w1: World, v1: World)
    requires "machine" in w0.store.machines && w0.store.machines["machine"] == FRESH && w0.history.marks == {}
    requires HasFreshMark(w0, v0, "RESTART_VM", "first", "first boot")
    requires "machine" in w1.store.machines && w1.store.machines["machine"] == v0.store.machines["machine"]
    requires w1.history == v0.history && HasFreshMark(w1, v1, "RESTART_VM", "second", "")
    ensures "machine" in v1.store.machines
    ensures
      var m := v1.store.machines["machine"];
      && m.name == "machine" && m in v1.store.past && !m.deleting && MarkedFor(m, ACTION_RESTART)
      && RecordOn(m.annotations) == RestartRecord("first boot", "second")
      && (forall r :: r in v1.history.marks ==> r.record != RecordOn(m.annotations))
      && exists r :: r in v1.history.marks && SetBy(r, m) && !StandsAlone(r)
  {
    var m := v1.store.machines["machine"];
    var made := FreshMark(w1.pass, "RESTART_VM", "second", "", IsUpToDate(w1, FRESH), w1.store.machines["machine"].annotations);
    assert made in v1.history.marks && SetBy(made, m) && !StandsAlone(made);
  }

  /** A request is asked for through a node whose boot ID is read as empty, from a
      view older than the mark of an earlier request. The mark then carries the
      boot ID recorded for the earlier request, and the next pass answers the new
      one True on its strength: no mark of the run has the record the answer
      rests on, and the one that set it does not stand alone. */
  lemma AnswerWithoutCredit() returns (run: seq<Operator>, moments: seq<Moment>, a: AnswerGiven)
    ensures IsRun(run, moments) && |run| == 4 && a in run[3].w.history.answers && a.complete
    ensures a.machine.Some? && RecordOn(a.machine.value.annotations) == RestartRecord("first boot", a.before.name)
    ensures forall r :: r in run[3].w.history.marks ==> r.record != RecordOn(a.machine.value.annotations)
    ensures exists r :: r in run[3].w.history.marks && SetBy(r, a.machine.value) && !StandsAlone(r)
  {
    hide RunOn, Pending, HasFreshMark, SetBy, StandsAlone, RecordOn, Untouched, CouldRead, Reads, Begin, FreshRead;
    var mode := ExternalRemediationRequest;
    var first := Reads(mode, Faulty("RESTART_VM", "first"), FRESH, "first boot");
    var second := Reads(mode, Faulty("RESTART_VM", "second"), FRESH, "");
    TwoMarks(mode, "RESTART_VM", "first", "first boot", [WriteRequest(Asking("second"))], "second", "");
    var (run2, moments2) := TwoPasses(first, [WriteRequest(Asking("second"))], second);
    var o := run2[2];
    LeftoverBoot(Begin(run2[0], moments2[0]), run2[1].w, Begin(run2[1], moments2[1]), o.w);
    a := ThirdPass(o, "second");
    var m := FreshRead(o, "second");
    run, moments := run2 + [RunOn(o, m)], moments2 + [m];
    assert run[..3] == run2 && moments[..2] == moments2;
  }

  /** A Machine is marked for a replacement, and the next pass, which sees it as
      it was before, turns that into a restart mark. */
  lemma ReplacementMarkTurned() returns (run: seq<Operator>, moments: seq<Moment>, x: MachineWrite)
    ensures IsRun(run, moments) && |run| == 3 && x in run[2].w.history.writes && !x.upToDate
    ensures MarkedFor(x.before, ACTION_REMEDIATE) && MarkedFor(x.after, ACTION_RESTART)
  {
    hide RunOn, Untouched, CouldRead, Reads, Begin;
    TwoMarks(Mode.NodeCondition, "REPLACE_VM", "", "boot", [], "", "boot");
    var first := Reads(Mode.NodeCondition, Faulty("REPLACE_VM", ""), FRESH, "boot");
    var second := Reads(Mode.NodeCondition, Faulty("RESTART_VM", ""), FRESH, "boot");
    run, moments := TwoPasses(first, [], second).0, TwoPasses(first, [], second).1;
    var w1 := Begin(run[1], moments[1]);
    var cur := w1.store.machines["machine"];
    x := MachineWrite(MarkWrite(ACTION_RESTART), cur, run[2].w.store.machines["machine"], IsUpToDate(w1, FRESH));
    RunIsSound(run, moments, 2);
    assert KeepsReplacement(x);
  }
}
