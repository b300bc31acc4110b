// Everything the cluster controller's API calls can touch, and what the rest
// of the world does between any two of them: it edits Machines and requests,
// lets a call fail, loses the response to one, or crashes the operator.
// What the operator did is kept as history, which only grows.

module ClusterWorld {
  import opened Text
  import opened Machines
  import opened Requests
  import opened Store
  import opened Decisions

  // Someone else's edit of the mark: none, all of it removed together, or the
  // bare remediate-machine annotation set on an unmarked Machine.
  datatype MarkEdit = KeepMark | ClearMark | ForeignMark

  datatype WorldEdit =
    | Touch(rest: Machine, marks: MarkEdit)
    | Vanish(name: string)
    | WriteRequest(request: Request)
    | DropRequest(name: string)

  // What becomes of one API call: it is served; it fails; it is served and the
  // response is lost; or the operator crashes before it reaches the server.
  datatype Fate = Serve | Fail | Lose | Crash

  // What happens just before a call is served, and which cached version a
  // read from the cache returns.
  datatype Turn = Turn(edits: seq<WorldEdit>, fate: Fate, reread: Option<Machine>)

  // -------------------------------------------------------------- history

  // A request as a pass found it pending.
  datatype FoundPending = FoundPending(pass: nat, request: Request)

  // A mark made on the Machine of a node as the pass saw it, with the
  // annotations it was written over. upToDate says that the Machine seen was at least as recent as the
  // operator's own last write to it.
  datatype MarkMade = MarkMade(pass: nat, node: string, seen: Machine, decision: Decision,
                               action: string, record: RestartRecord, upToDate: bool, over: Annotations)

  datatype WriteKind = MarkWrite(action: string) | ReleaseWrite | EscalateWrite

  datatype MachineWrite = MachineWrite(kind: WriteKind, before: Machine, after: Machine, upToDate: bool)

  // An answer, with the Machine and the node the pass saw when it gave it.
  datatype AnswerGiven = AnswerGiven(pass: nat, complete: bool, reason: AnswerReason,
                                     before: Request, after: Request,
                                     machine: Option<Machine>, node: Option<Node>)

  datatype History = History(pending: set<FoundPending>, marks: set<MarkMade>,
                             writes: set<MachineWrite>, answers: set<AnswerGiven>)

  // own is the version of the operator's last write to each Machine.
  datatype World = World(
    store: Machinery,
    own: map<string, nat>,
    requests: map<string, Request>,
    env: seq<Turn>,
    alive: bool,
    pass: nat,
    history: History)

  // ---------------------------------------------------------- the environment

  function Only(a: Annotations, keys: set<Key>): Annotations { map k | k in a && k in keys :: a[k] }

  function Touched(s: Machinery, rest: Machine, marks: MarkEdit): Machine {
    var before: Annotations := if rest.name in s.machines then Only(s.machines[rest.name].annotations, MARK_KEYS) else map[];
    var after: Annotations :=
      match marks
      case KeepMark => before
      case ClearMark => map[]
      case ForeignMark => if RemediateMachine in before then before else map[RemediateMachine := ""];
    rest.(annotations := Without(rest.annotations, MARK_KEYS) + after)
  }

  function EditWorld(w: World, e: WorldEdit): World {
    match e
    case Touch(rest, marks) => w.(store := Put(w.store, Touched(w.store, rest, marks)))
    case Vanish(name) => w.(store := Remove(w.store, name))
    case WriteRequest(r) =>
      w.(store := w.store.(clock := w.store.clock + 1),
         requests := w.requests[r.name := r.(version := w.store.clock + 1)])
    case DropRequest(name) => w.(requests := w.requests - {name})
  }

  function EditAll(w: World, edits: seq<WorldEdit>): World
    decreases |edits|
  {
    if edits == [] then w else EditAll(EditWorld(w, edits[0]), edits[1..])
  }

  datatype Arrival = Arrival(w: World, fate: Fate, reread: Option<Machine>)
  {
    /** The call had its effect on the server. */
    predicate Served() { fate.Serve? || fate.Lose? }
  }

  /** A call arrives at the server, after whatever happens before it. */
  function Arrive(w: World): Arrival {
    if !w.alive then Arrival(w, Crash, None)
    else if w.env == [] then Arrival(w, Serve, None)
    else
      var turn := w.env[0];
      var w1 := EditAll(w.(env := w.env[1..]), turn.edits);
      Arrival(w1.(alive := !turn.fate.Crash?), turn.fate, turn.reread)
  }

  // ------------------------------------------------------------- Machine calls

  function Respond<T>(w: World, fate: Fate, value: T): (World, Result<T, ApiError>) {
    (w, if fate.Lose? then Err(Unreachable) else Ok(value))
  }

  function Written(w: World, kind: WriteKind, before: Machine, updated: Machine, upToDate: bool): World {
    var s := Put(w.store, updated);
    var after := s.machines[updated.name];
    w.(store := s,
       own := w.own[updated.name := after.version],
       history := w.history.(writes := w.history.writes + {MachineWrite(kind, before, after, upToDate)}))
  }

  /** A patch with the resourceVersion of the Machine seen. */
  function PatchLocked(w: World, kind: WriteKind, seen: Machine, updated: Machine): (World, Result<Machine, ApiError>)
    requires updated.name == seen.name
  {
    var a := Arrive(w);
    if !a.Served() then (a.w, Err(Unreachable))
    else
      match Locked(a.w.store, seen)
      case Some(e) => (a.w, Err(e))
      case None =>
        var w1 := Written(a.w, kind, a.w.store.machines[seen.name], updated, true);
        Respond(w1, a.fate, w1.store.machines[seen.name])
  }

  /** What a merge patch from seen to updated carries. */
  function Changed(seen: Annotations, updated: Annotations): Annotations {
    map k | k in updated && !(k in seen && seen[k] == updated[k]) :: updated[k]
  }

  predicate IsUpToDate(w: World, seen: Machine) { seen.name in w.own ==> w.own[seen.name] <= seen.version }

  /** What the change from the Machine seen to the marked one makes of the
      Machine as it is. */
  function Merged(before: Machine, seen: Machine, reason: string, made: MarkMade): Machine {
    var change := Changed(seen.annotations, Marked(seen, made.action, reason, made.record).annotations);
    before.(annotations := before.annotations + change, name := seen.name)
  }

  function MarkWritten(w: World, seen: Machine, reason: string, made: MarkMade): World
    requires seen.name in w.store.machines
  {
    var before := w.store.machines[seen.name];
    var upToDate := IsUpToDate(w, seen);
    var v := Written(w, MarkWrite(made.action), before, Merged(before, seen, reason, made), upToDate);
    v.(history := v.history.(marks := v.history.marks + {made.(upToDate := upToDate, pass := w.pass, over := before.annotations)}))
  }

  /** The patch that sets a mark, which carries no resourceVersion: what it
      changes is merged into the Machine as it is by then. */
  function PatchMark(w: World, seen: Machine, reason: string, made: MarkMade): (World, Result<Machine, ApiError>) {
    var a := Arrive(w);
    if !a.Served() then (a.w, Err(Unreachable))
    else if seen.name !in a.w.store.machines then (a.w, Err(NotFound))
    else
      var v := MarkWritten(a.w, seen, reason, made);
      Respond(v, a.fate, v.store.machines[seen.name])
  }

  /** A read from the manager's cache, which returns some version there was. An
      object is stored under its name. */
  function ReadCached(w: World, name: string): (World, Result<Machine, ApiError>) {
    var a := Arrive(w);
    if !a.fate.Serve? then (a.w, Err(Unreachable))
    else
      match a.reread
      case Some(m) => (a.w, if m in a.w.store.past && m.name == name then Ok(m) else Err(NotFound))
      case None => (a.w, if name in a.w.store.machines then Ok(a.w.store.machines[name].(name := name)) else Err(NotFound))
  }

  // The actuator (internal/capi). Each returns the Machine as the caller has
  // it afterwards.

  function Release(w: World, dryRun: bool, m: Machine): (World, Result<Machine, ApiError>) {
    if MarkedAction(m).None? || m.deleting || dryRun then (w, Ok(m))
    else PatchLocked(w, ReleaseWrite, m, Released(m))
  }

  function Escalate(w: World, dryRun: bool, m: Machine, reason: string): (World, Result<Machine, ApiError>) {
    if !MarkedFor(m, ACTION_RESTART) || m.deleting || dryRun then (w, Ok(m))
    else PatchLocked(w, EscalateWrite, m, Escalated(m, reason))
  }

  function MarkForRemediation(w: World, dryRun: bool, m: Machine, reason: string, made: MarkMade)
    : (World, Result<Machine, ApiError>)
  {
    if Guard(m).Some? || dryRun then (w, Ok(m))
    else PatchMark(w, m, reason, made)
  }

  // ------------------------------------------------------------- request calls

  /** Reads a request live; one that is gone is not pending. */
  function IsPending(w: World, name: string): (World, Result<bool, ApiError>) {
    var a := Arrive(w);
    if !a.fate.Serve? then (a.w, Err(Unreachable))
    else
      var pending := name in a.w.requests && Pending(a.w.requests[name]);
      var w1 := if pending
                then a.w.(history := a.w.history.(pending := a.w.history.pending + {FoundPending(w.pass, a.w.requests[name])}))
                else a.w;
      (w1, Ok(pending))
  }

  /** A patch of a request's conditions with the resourceVersion of the one
      seen. The Machine and the node are what the pass saw, for the history. */
  function PatchConditions(w: World, name: string, seen: Request, conditions: seq<Requests.Condition>, complete: bool, reason: AnswerReason,
                           machine: Option<Machine>, node: Option<Node>): (World, Result<bool, ApiError>) {
    var a := Arrive(w);
    if !a.Served() then (a.w, Err(Unreachable))
    else if name !in a.w.requests then (a.w, Err(NotFound))
    else if a.w.requests[name].version != seen.version then (a.w, Err(Conflict))
    else
      var version := a.w.store.clock + 1;
      var after := seen.(conditions := conditions, version := version);
      var given := AnswerGiven(w.pass, complete, reason, a.w.requests[name], after, machine, node);
      Respond(a.w.(store := a.w.store.(clock := version),
                   requests := a.w.requests[name := after],
                   history := a.w.history.(answers := a.w.history.answers + {given})),
              a.fate, true)
  }

  /** Answers a request that is still pending, with a patch locked to the
      version read. */
  function AnswerRequest(w: World, name: string, complete: bool, reason: AnswerReason,
                         machine: Option<Machine>, node: Option<Node>): (World, Result<bool, ApiError>) {
    var a := Arrive(w);
    if !a.fate.Serve? then (a.w, Err(Unreachable))
    else if name !in a.w.requests || !Pending(a.w.requests[name]) then (a.w, Ok(false))
    else
      var seen := a.w.requests[name];
      PatchConditions(a.w, name, seen, WithAnswer(seen.conditions, AnswerCondition(complete, reason)),
                      complete, reason, machine, node)
  }
}
