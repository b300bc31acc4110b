// internal/quarantine/rules.go and internal/controller/quarantine_controller.go
// as functions of the world their calls go to: how a request to replace a
// Machine is carried out.

module Quarantines {
  import opened Text
  import opened Sorting
  import opened Machines
  import opened Store
  import opened Devices
  import opened QuarantineWorld

  // digest and shorten are whatever shortens rule names and label values.
  datatype Config = Config(digest: string -> string, shorten: string -> string, drivers: set<string>, dryRun: bool)

  // ----------------------------------------------------------------- the rules

  function OwnerOf(m: Machine): Owner { Owner(m.namespace, m.name, m.cluster) }

  function FullName(o: Owner): string { o.namespace + "/" + o.name }

  /** The rule that quarantines the device. */
  function RuleFor(cfg: Config, d: Device, o: Owner, now: int): Rule {
    Rule(RuleName(cfg.digest, d), MANAGED_BY, cfg.shorten(o.name), cfg.shorten(o.namespace), cfg.shorten(o.cluster),
         FullName(o), now, d, "NoSchedule")
  }

  /** No error when the rule named for the device is there and blocks it. */
  function CheckRule(cfg: Config, w: World, d: Device): (World, Option<Error>) {
    match GetRule(w, RuleName(cfg.digest, d))
    case (w1, Err(e)) => (w1, Some(e))
    case (w1, Ok(rule)) => (w1, if Blocks(rule, d) then None else Some(Rejection(DeviceTaintRuleConflict)))
  }

  /** Creates the device's rule unless it is there; tells whether it did. */
  function Ensure(cfg: Config, w: World, d: Device, o: Owner): (World, Result<bool, Error>) {
    match FindKind(w)
    case (w1, Err(e)) => (w1, Err(e))
    case (w1, Ok(_)) =>
      match CreateRule(w1, RuleFor(cfg, d, o, w1.now))
      case (w2, NotCreated(e)) => (w2, Err(e))
      case (w2, Created) => (w2, Ok(true))
      case (w2, AlreadyExists) =>
        match CheckRule(cfg, w2, d)
        case (w3, None) => (w3, Ok(false))
        case (w3, Some(e)) => (w3, Err(e))
  }

  function Exists(cfg: Config, w: World, d: Device): (World, Result<bool, Error>) {
    match FindKind(w)
    case (w1, Err(e)) => (w1, Err(e))
    case (w1, Ok(_)) =>
      match CheckRule(cfg, w1, d)
      case (w2, None) => (w2, Ok(true))
      case (w2, Some(e)) => (w2, if e == Api(NotFound) then Ok(false) else Err(e))
  }

  /** The rule was made for this owner and blocks the device it is named for. */
  predicate MadeFor(cfg: Config, r: Rule, o: Owner) {
    && r.machine == FullName(o)
    && r.device.driver != "" && r.device.pool != "" && r.device.name != ""
    && r.effect in BLOCKING_EFFECTS && r.name == RuleName(cfg.digest, r.device)
  }

  /** The devices of the rules made for the owner, in order, each once. */
  ghost function DevicesOf(cfg: Config, listed: set<Rule>, o: Owner): (ds: seq<Device>)
    ensures forall d :: d in ds <==> exists r :: r in listed && MadeFor(cfg, r, o) && r.device == d
  {
    InAnyOrder(set r | r in listed && MadeFor(cfg, r, o) :: r.device)
  }

  ghost function InAnyOrder(ds: set<Device>): (r: seq<Device>)
    ensures NoRepeats(r) && forall d :: d in r <==> d in ds
  {
    if ds == {} then []
    else
      var d :| d in ds;
      var rest := InAnyOrder(ds - {d});
      SortMembers([d] + rest, AtMost);
      Sort([d] + rest, AtMost)
  }

  ghost function Of(cfg: Config, w: World, o: Owner): (World, Result<seq<Device>, Error>) {
    match FindKind(w)
    case (w1, Err(e)) => (w1, Err(e))
    case (w1, Ok(_)) =>
      match ListRules(w1, cfg.shorten(o.name), cfg.shorten(o.namespace))
      case (w2, Err(e)) => (w2, Err(e))
      case (w2, Ok(listed)) => (w2, Ok(DevicesOf(cfg, listed, o)))
  }

  // ------------------------------------------------------- the status and ends

  function WithStatus(m: Machine, status: string): Machine {
    m.(annotations := if status == "" then m.annotations - {ReplaceStatusKey} else m.annotations[ReplaceStatusKey := status])
  }

  /** The Machine with its new status, or as it was when the write failed. */
  function SetStatus(w: World, m: Machine, status: string): (World, Machine, Option<Error>) {
    if (status == "" && ReplaceStatusKey !in m.annotations)
       || (ReplaceStatusKey in m.annotations && m.annotations[ReplaceStatusKey] == status)
    then (w, m, None)
    else
      match PatchStatus(w, m, WithStatus(m, status))
      case (w1, Err(e)) => (w1, m, Some(e))
      case (w1, Ok(updated)) => (w1, updated, None)
  }

  function RejectRequest(cfg: Config, w: World, m: Machine, reason: Reason): (World, Option<Error>) {
    if cfg.dryRun then (w, None)
    else
      var (w1, _, e) := SetStatus(w, m, RejectedStatus(reason));
      (w1, e)
  }

  /** What an error comes to: a rejection and a forbidden call end the request,
      everything else leaves it for a later pass. */
  function FailWith(cfg: Config, w: World, m: Machine, e: Error): (World, Option<Error>) {
    match e
    case Rejection(reason) => RejectRequest(cfg, w, m, reason)
    case Api(ForbiddenCall) => RejectRequest(cfg, w, m, Forbidden)
    case _ => (w, Some(e))
  }

  function ReasonOf(skip: Skip): Reason {
    match skip
    case SkipControlPlane => ControlPlaneMachine
    case SkipAlreadyMarked => AlreadyMarkedForRemediation
    case SkipPaused => MachinePaused
    case SkipOptedOut => MachineOptedOutOfRemediation
    case SkipDeleting => OtherReason("Deleting")
    case SkipEarlierMark => OtherReason("EarlierMarkPending")
  }

  /** The first guard, of the Cluster and then of the Machine, in the way. */
  function GuardReplace(cluster: ClusterInfo, m: Machine): Option<Reason> {
    if cluster.paused then Some(ClusterPaused)
    else if m.controlPlane then Some(ReasonOf(SkipControlPlane))
    else if IsMarked(m) then Some(ReasonOf(SkipAlreadyMarked))
    else if IsPaused(m) then Some(ReasonOf(SkipPaused))
    else if IsOptedOut(m) then Some(ReasonOf(SkipOptedOut))
    else if !m.ownedByMachineSet then Some(NotReplaceable)
    else None
  }

  // ------------------------------------------------------------ the quarantine

  function EnsureAll(cfg: Config, w: World, ds: seq<Device>, o: Owner): (World, Option<Error>) {
    if ds == [] then (w, None)
    else
      var n := |ds| - 1;
      match EnsureAll(cfg, w, ds[..n], o)
      case (w1, Some(e)) => (w1, Some(e))
      case (w1, None) =>
        match Ensure(cfg, w1, ds[n], o)
        case (w2, Err(e)) => (w2, Some(e))
        case (w2, Ok(_)) => (w2, None)
  }

  // What reading the rules back finds: all there, an error, or one missing.
  datatype ReadBack = AllThere | OneMissing | Unread(error: Error)

  function ReadAll(cfg: Config, w: World, ds: seq<Device>): (World, ReadBack) {
    if ds == [] then (w, AllThere)
    else
      var n := |ds| - 1;
      var (w1, before) := ReadAll(cfg, w, ds[..n]);
      if !before.AllThere? then (w1, before)
      else
        match Exists(cfg, w1, ds[n])
        case (w2, Err(e)) => (w2, Unread(e))
        case (w2, Ok(there)) => (w2, if there then AllThere else OneMissing)
  }

  // Where quarantining the devices leaves the request: with every rule in
  // place, or at an end.
  datatype Step = Ready(w: World, m: Machine, devices: seq<Device>) | Ended(w: World, error: Option<Error>)

  function Ending(end: (World, Option<Error>)): Step { Ended(end.0, end.1) }

  function Quarantine(cfg: Config, w: World, m: Machine, names: seq<string>, status: string): Step {
    match FindDevices(w)
    case (w1, Err(e)) => Ending(FailWith(cfg, w1, m, e))
    case (w1, Ok(held)) =>
      match Selected(held, cfg.drivers, names)
      case Err(reason) => Ending(FailWith(cfg, w1, m, Rejection(reason)))
      case Ok(devices) =>
        if cfg.dryRun then Ended(w1, None)
        else
          var (w2, m2, e2) := if status != STATUS_REPLACING then SetStatus(w1, m, STATUS_QUARANTINING) else (w1, m, None);
          if e2.Some? then Ended(w2, e2) else Tainted(cfg, w2, m2, devices, status)
  }

  /** Makes the rules, reads each of them back, and writes down that they are
      there. */
  function Tainted(cfg: Config, w: World, m: Machine, devices: seq<Device>, status: string): Step {
    match EnsureAll(cfg, w, devices, OwnerOf(m))
    case (w1, Some(e)) => Ending(FailWith(cfg, w1, m, e))
    case (w1, None) =>
      match ReadAll(cfg, w1, devices)
      case (w2, Unread(e)) => Ending(FailWith(cfg, w2, m, e))
      case (w2, OneMissing) => Ended(w2, Some(Api(Unreachable)))
      case (w2, AllThere) =>
        if status == STATUS_REPLACING then Ready(w2, m, devices)
        else
          var (w3, m3, e3) := SetStatus(w2, m, STATUS_REPLACING);
          if e3.Some? then Ended(w3, e3) else Ready(w3, m3, devices)
  }

  /** In status replacing, the devices of the Machine's own rules, provided they
      cover the names; none otherwise. */
  ghost function Resumed(cfg: Config, w: World, m: Machine, names: seq<string>, status: string): (World, Result<Option<seq<Device>>, Error>) {
    if status != STATUS_REPLACING then (w, Ok(None))
    else
      match Of(cfg, w, OwnerOf(m))
      case (w1, Err(e)) => (w1, Err(e))
      case (w1, Ok(made)) => (w1, Ok(if Covers(made, names) then Some(made) else None))
  }

  function DeleteFor(cfg: Config, w: World, m: Machine, names: seq<string>, devices: seq<Device>): (World, Option<Error>) {
    match DeleteMachine(w, m, names, devices)
    case (w1, Ok(_)) => (w1, None)
    case (w1, Err(e)) => if e == Api(NotFound) then (w1, None) else FailWith(cfg, w1, m, e)
  }

  /** Carries out the request once the guards let it. */
  ghost function CarryOut(cfg: Config, w: World, m: Machine, names: seq<string>, status: string): (World, Option<Error>) {
    match Resumed(cfg, w, m, names, status)
    case (w1, Err(e)) => FailWith(cfg, w1, m, e)
    case (w1, Ok(Some(devices))) => if cfg.dryRun then (w1, None) else DeleteFor(cfg, w1, m, names, devices)
    case (w1, Ok(None)) =>
      match Quarantine(cfg, w1, m, names, status)
      case Ended(w2, e) => (w2, e)
      case Ready(w2, m2, devices) => DeleteFor(cfg, w2, m2, names, devices)
  }

  /** One pass over a Machine as it was read, up to the error it ends in. */
  ghost function Replace(cfg: Config, w: World, m: Machine): (World, Option<Error>) {
    var status := Value(m.annotations, ReplaceStatusKey);
    if m.deleting then (w, None)
    else if ReplaceKey !in m.annotations then
      if status == "" || cfg.dryRun then (w, None)
      else
        var (w1, _, e) := SetStatus(w, m, "");
        (w1, e)
    else if IsRejected(status) then (w, None)
    else
      match GetCluster(w, m.cluster)
      case (w1, Err(e)) => (w1, if e == Api(NotFound) then None else Some(e))
      case (w1, Ok(cluster)) =>
        if !cluster.selected then (w1, None)
        else if GuardReplace(cluster, m).Some? then RejectRequest(cfg, w1, m, GuardReplace(cluster, m).value)
        else
          match Requested(m.annotations[ReplaceKey])
          case Err(reason) => FailWith(cfg, w1, m, Rejection(reason))
          case Ok(names) => CarryOut(cfg, w1, m, names, status)
  }

  // How the pass over a Machine ends: done, to be looked at again shortly, or
  // to be tried again with a backoff.
  datatype Outcome = Done | Shortly | Backoff

  ghost function Reconciled(cfg: Config, w: World, name: string): (World, Outcome) {
    match GetMachine(w, name)
    case (w1, Err(e)) => (w1, if e == Api(NotFound) then Done else Backoff)
    case (w1, Ok(m)) =>
      match Replace(cfg, w1, m)
      case (w2, None) => (w2, Done)
      case (w2, Some(e)) => (w2, if e == Api(Conflict) then Shortly else Backoff)
  }
}
