// Everything the quarantine controller's API calls can touch, and what the
// rest of the world does between any two of them: it edits Machines, rules and
// Clusters, lets a call fail or forbids it, loses the response to one, or
// crashes the operator. What the operator did is kept as history.

module QuarantineWorld {
  import opened Text
  import opened Machines
  import opened Store
  import opened Devices

  const BLOCKING_EFFECTS: set<string> := {"NoSchedule", "NoExecute"}
  const MANAGED_BY := "nvsentinel-capi-remediator"

  // A DeviceTaintRule. device is what its selector names, with the empty
  // string for what it leaves out; machine is the annotation that has the
  // owner's whole name.
  datatype Rule = Rule(
    name: string, managedBy: string, machineLabel: string, namespaceLabel: string, clusterLabel: string,
    machine: string, requestedAt: int, device: Device, effect: string)

  // Whom a rule is labelled for.
  datatype Owner = Owner(namespace: string, name: string, cluster: string)

  predicate Blocks(r: Rule, d: Device) { r.device == d && r.effect in BLOCKING_EFFECTS }

  datatype ClusterInfo = ClusterInfo(paused: bool, selected: bool)

  // Whether the cluster serves DeviceTaintRules in a version the operator knows.
  datatype Kind = KindServed | KindMissing | KindUnknown

  datatype Error = Api(e: ApiError) | Rejection(reason: Reason)

  datatype WorldEdit =
    | EditMachine(edit: Edit)
    | WriteRule(rule: Rule)
    | DropRule(name: string)
    | SetCluster(name: string, info: Option<ClusterInfo>)
    | SetDevices(devices: Result<seq<Device>, Error>)
    | SetKind(kind: Kind)
    | PassTime(now: int)

  datatype Fate = Serve | Fail | Forbid | Lose | Crash

  datatype Turn = Turn(edits: seq<WorldEdit>, fate: Fate, reread: Option<Machine>)

  // A rule that a pass read.
  datatype RuleRead = RuleRead(pass: nat, rule: Rule)

  // A Cluster that a pass read, None where there was none by the name.
  datatype ClusterRead = ClusterRead(pass: nat, name: string, info: Option<ClusterInfo>)

  // A rule that a pass made.
  datatype RuleMade = RuleMade(pass: nat, rule: Rule)

  // A write of the replace status.
  datatype StatusWrite = StatusWrite(pass: nat, before: Machine, after: Machine)

  // A deletion that the server carried out, with the Machine as it was, what
  // the pass took its request to name and the devices it had seen to, and the
  // rules there were.
  datatype Deletion = Deletion(
    pass: nat, target: Machine, names: seq<string>, devices: seq<Device>, rules: map<string, Rule>, untouched: bool)

  datatype History = History(seen: set<RuleRead>, clusters: set<ClusterRead>, statuses: set<StatusWrite>,
                             created: set<RuleMade>, deletions: set<Deletion>)

  // devices is what the locator would find; untouched says that nobody else
  // changed or deleted a rule yet.
  datatype World = World(
    store: Machinery,
    rules: map<string, Rule>,
    clusters: map<string, ClusterInfo>,
    devices: Result<seq<Device>, Error>,
    kind: Kind,
    now: int,
    untouched: bool,
    env: seq<Turn>,
    alive: bool,
    pass: nat,
    history: History)

  // ---------------------------------------------------------- the environment

  function EditWorld(w: World, e: WorldEdit): World {
    match e
    case EditMachine(edit) => w.(store := Apply(w.store, edit))
    case WriteRule(rule) =>
      w.(rules := w.rules[rule.name := rule],
         untouched := w.untouched && (rule.name in w.rules ==> w.rules[rule.name] == rule))
    case DropRule(name) => w.(rules := w.rules - {name}, untouched := w.untouched && name !in w.rules)
    case SetCluster(name, info) =>
      w.(clusters := if info.Some? then w.clusters[name := info.value] else w.clusters - {name})
    case SetDevices(devices) => w.(devices := devices)
    case SetKind(kind) => w.(kind := kind)
    case PassTime(now) => w.(now := now)
  }

  function EditAll(w: World, edits: seq<WorldEdit>): World
    decreases |edits|
  {
    if edits == [] then w else EditAll(EditWorld(w, edits[0]), edits[1..])
  }

  datatype Arrival = Arrival(w: World, fate: Fate, reread: Option<Machine>)
  {
    predicate Served() { fate.Serve? || fate.Lose? }

    /** What the caller is told when the call had no effect. */
    function Refusal(): Error { if fate.Forbid? then Api(ForbiddenCall) else Api(Unreachable) }
  }

  /** A call arrives at the server, after whatever happens before it. */
  function Arrive(w: World): Arrival {
    if !w.alive then Arrival(w, Crash, None)
    else if w.env == [] then Arrival(w, Serve, None)
    else
      var turn := w.env[0];
      var w1 := EditAll(w.(env := w.env[1..]), turn.edits);
      Arrival(w1.(alive := !turn.fate.Crash?), turn.fate, turn.reread)
  }

  // ---------------------------------------------------------------- the calls

  /** Reads a Machine from the manager's cache, in any version there was. */
  function GetMachine(w: World, name: string): (World, Result<Machine, Error>) {
    var a := Arrive(w);
    if !a.fate.Serve? then (a.w, Err(a.Refusal()))
    else
      match a.reread
      case Some(m) => (a.w, if m in a.w.store.past && m.name == name then Ok(m) else Err(Api(NotFound)))
      case None => (a.w, if name in a.w.store.machines then Ok(a.w.store.machines[name]) else Err(Api(NotFound)))
  }

  function GetCluster(w: World, name: string): (World, Result<ClusterInfo, Error>) {
    var a := Arrive(w);
    if !a.fate.Serve? then (a.w, Err(a.Refusal()))
    else
      var info := if name in a.w.clusters then Some(a.w.clusters[name]) else None;
      (a.w.(history := a.w.history.(clusters := a.w.history.clusters + {ClusterRead(w.pass, name, info)})),
       if info.Some? then Ok(info.value) else Err(Api(NotFound)))
  }

  /** The locator's answer. */
  function FindDevices(w: World): (World, Result<seq<Device>, Error>) {
    var a := Arrive(w);
    if !a.fate.Serve? then (a.w, Err(a.Refusal())) else (a.w, a.w.devices)
  }

  /** The kind of the rules, as discovery has it. */
  function FindKind(w: World): (World, Result<(), Error>) {
    var a := Arrive(w);
    if !a.fate.Serve? then (a.w, Err(a.Refusal()))
    else (a.w, match a.w.kind
               case KindServed => Ok(())
               case KindMissing => Err(Rejection(DeviceTaintRuleUnavailable))
               case KindUnknown => Err(Api(Unreachable)))
  }

  function Noted(w: World, rules: set<Rule>): World {
    w.(history := w.history.(seen := w.history.seen + set r | r in rules :: RuleRead(w.pass, r)))
  }

  /** Reads a rule from the server. */
  function GetRule(w: World, name: string): (World, Result<Rule, Error>) {
    var a := Arrive(w);
    if !a.fate.Serve? then (a.w, Err(a.Refusal()))
    else if name !in a.w.rules then (a.w, Err(Api(NotFound)))
    else (Noted(a.w, {a.w.rules[name]}), Ok(a.w.rules[name]))
  }

  predicate Labelled(r: Rule, machineLabel: string, namespaceLabel: string) {
    r.managedBy == MANAGED_BY && r.machineLabel == machineLabel && r.namespaceLabel == namespaceLabel
  }

  /** Lists the rules with these labels, as the server has them, each under its
      own name. */
  function ListRules(w: World, machineLabel: string, namespaceLabel: string): (World, Result<set<Rule>, Error>) {
    var a := Arrive(w);
    if !a.fate.Serve? then (a.w, Err(a.Refusal()))
    else
      var listed := set n | n in a.w.rules && Labelled(a.w.rules[n], machineLabel, namespaceLabel) ::
                      a.w.rules[n].(name := n);
      (Noted(a.w, listed), Ok(listed))
  }

  datatype Creation = Created | AlreadyExists | NotCreated(error: Error)

  function CreateRule(w: World, rule: Rule): (World, Creation) {
    var a := Arrive(w);
    if !a.Served() then (a.w, NotCreated(a.Refusal()))
    else if rule.name in a.w.rules then (a.w, if a.fate.Lose? then NotCreated(Api(Unreachable)) else AlreadyExists)
    else
      var w1 := a.w.(rules := a.w.rules[rule.name := rule],
                     history := a.w.history.(created := a.w.history.created + {RuleMade(w.pass, rule)}));
      (w1, if a.fate.Lose? then NotCreated(Api(Unreachable)) else Created)
  }

  function Respond<T>(w: World, fate: Fate, value: T): (World, Result<T, Error>) {
    (w, if fate.Lose? then Err(Api(Unreachable)) else Ok(value))
  }

  /** A patch of the replace status, with the resourceVersion of the Machine
      seen. */
  function PatchStatus(w: World, seen: Machine, updated: Machine): (World, Result<Machine, Error>)
    requires updated.name == seen.name
  {
    var a := Arrive(w);
    if !a.Served() then (a.w, Err(a.Refusal()))
    else
      match Locked(a.w.store, seen)
      case Some(e) => (a.w, Err(Api(e)))
      case None =>
        var s := Put(a.w.store, updated);
        var after := s.machines[updated.name];
        var write := StatusWrite(w.pass, a.w.store.machines[seen.name], after);
        Respond(a.w.(store := s, history := a.w.history.(statuses := a.w.history.statuses + {write})), a.fate, after)
  }

  /** Deletes the Machine, on the condition that it is the one seen, in the very
      version seen. What names and devices say is kept for the history. */
  function DeleteMachine(w: World, seen: Machine, names: seq<string>, devices: seq<Device>): (World, Result<(), Error>) {
    var a := Arrive(w);
    if !a.Served() then (a.w, Err(a.Refusal()))
    else
      match Locked(a.w.store, seen)
      case Some(e) => (a.w, Err(Api(e)))
      case None =>
        var target := a.w.store.machines[seen.name];
        if target.uid != seen.uid then (a.w, Err(Api(Conflict)))
        else
          var deletion := Deletion(w.pass, target, names, devices, a.w.rules, a.w.untouched);
          Respond(a.w.(store := Put(a.w.store, target.(deleting := true)),
                       history := a.w.history.(deletions := a.w.history.deletions + {deletion})), a.fate, ())
  }
}
