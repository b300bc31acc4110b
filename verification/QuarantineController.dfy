// internal/quarantine/rules.go and internal/controller/quarantine_controller.go
// as objects: the rules behind their client, and the reconciler that carries
// out a request step by step on its own copy of the Machine. Its methods are
// proved to do what the functions of module Quarantines say.

module QuarantineControllers {
  import opened Text
  import opened Sorting
  import opened Machines
  import opened Store
  import opened Devices
  import opened QuarantineWorld
  import opened Quarantines
  import Actuators

  type Copy = Actuators.Copy

  class Server {
    var w: World

    constructor (w: World)
      ensures this.w == w
    {
      this.w := w;
    }

    method GetMachine(name: string) returns (r: Result<Machine, Error>)
      modifies this
      ensures (w, r) == QuarantineWorld.GetMachine(old(w), name)
    {
      var (after, out) := QuarantineWorld.GetMachine(w, name);
      w, r := after, out;
    }

    method GetCluster(name: string) returns (r: Result<ClusterInfo, Error>)
      modifies this
      ensures (w, r) == QuarantineWorld.GetCluster(old(w), name)
    {
      var (after, out) := QuarantineWorld.GetCluster(w, name);
      w, r := after, out;
    }

    method FindDevices() returns (r: Result<seq<Device>, Error>)
      modifies this
      ensures (w, r) == QuarantineWorld.FindDevices(old(w))
    {
      var (after, out) := QuarantineWorld.FindDevices(w);
      w, r := after, out;
    }

    method FindKind() returns (r: Result<(), Error>)
      modifies this
      ensures (w, r) == QuarantineWorld.FindKind(old(w))
    {
      var (after, out) := QuarantineWorld.FindKind(w);
      w, r := after, out;
    }

    method GetRule(name: string) returns (r: Result<Rule, Error>)
      modifies this
      ensures (w, r) == QuarantineWorld.GetRule(old(w), name)
    {
      var (after, out) := QuarantineWorld.GetRule(w, name);
      w, r := after, out;
    }

    method ListRules(machineLabel: string, namespaceLabel: string) returns (r: Result<set<Rule>, Error>)
      modifies this
      ensures (w, r) == QuarantineWorld.ListRules(old(w), machineLabel, namespaceLabel)
      ensures r.Ok? ==> forall x, y :: x in r.value && y in r.value && x.name == y.name ==> x == y
    {
      var (after, out) := QuarantineWorld.ListRules(w, machineLabel, namespaceLabel);
      w, r := after, out;
    }

    method CreateRule(rule: Rule) returns (r: Creation)
      modifies this
      ensures (w, r) == QuarantineWorld.CreateRule(old(w), rule)
    {
      var (after, out) := QuarantineWorld.CreateRule(w, rule);
      w, r := after, out;
    }

    method PatchStatus(seen: Machine, updated: Machine) returns (r: Result<Machine, Error>)
      requires updated.name == seen.name
      modifies this
      ensures (w, r) == QuarantineWorld.PatchStatus(old(w), seen, updated)
    {
      var (after, out) := QuarantineWorld.PatchStatus(w, seen, updated);
      w, r := after, out;
    }

    method DeleteMachine(seen: Machine, names: seq<string>, devices: seq<Device>) returns (r: Result<(), Error>)
      modifies this
      ensures (w, r) == QuarantineWorld.DeleteMachine(old(w), seen, names, devices)
    {
      var (after, out) := QuarantineWorld.DeleteMachine(w, seen, names, devices);
      w, r := after, out;
    }
  }

  lemma {:induction false} InAnyOrderIsSorted(ds: set<Device>)
    ensures Sorted(InAnyOrder(ds), AtMost)
  {
    DevicesAreOrdered();
    if ds != {} {
      var d :| d in ds && InAnyOrder(ds) == Sort([d] + InAnyOrder(ds - {d}), AtMost);
      SortOrders([d] + InAnyOrder(ds - {d}), AtMost);
    }
  }

  /** A list of the devices is, sorted, the one the functions mean. */
  lemma SortedIsInAnyOrder(listed: seq<Device>, ds: set<Device>)
    requires NoRepeats(listed) && forall d :: d in listed <==> d in ds
    ensures Sort(listed, AtMost) == InAnyOrder(ds)
  {
    DevicesAreOrdered();
    SortMembers(listed, AtMost);
    SortOrders(listed, AtMost);
    InAnyOrderIsSorted(ds);
    SortedUnique(Sort(listed, AtMost), InAnyOrder(ds), AtMost);
  }

  class Rules {
    const cfg: Config
    const server: Server

    constructor (cfg: Config, server: Server)
      ensures this.cfg == cfg && this.server == server
    {
      this.cfg, this.server := cfg, server;
    }

    method Check(d: Device) returns (e: Option<Error>)
      modifies server
      ensures (server.w, e) == CheckRule(cfg, old(server.w), d)
    {
      var got := server.GetRule(RuleName(cfg.digest, d));
      if got.Err? {
        return Some(got.error);
      }
      if got.value.device != d || got.value.effect !in BLOCKING_EFFECTS {
        return Some(Rejection(DeviceTaintRuleConflict));
      }
      e := None;
    }

    method Ensure(d: Device, owner: Owner) returns (created: Result<bool, Error>)
      modifies server
      ensures (server.w, created) == Quarantines.Ensure(cfg, old(server.w), d, owner)
    {
      var kind := server.FindKind();
      if kind.Err? {
        return Err(kind.error);
      }
      var creation := server.CreateRule(RuleFor(cfg, d, owner, server.w.now));
      match creation {
        case Created => created := Ok(true);
        case NotCreated(e) => created := Err(e);
        case AlreadyExists =>
          var e := Check(d);
          created := if e.Some? then Err(e.value) else Ok(false);
      }
    }

    method Exists(d: Device) returns (there: Result<bool, Error>)
      modifies server
      ensures (server.w, there) == Quarantines.Exists(cfg, old(server.w), d)
    {
      var kind := server.FindKind();
      if kind.Err? {
        return Err(kind.error);
      }
      var e := Check(d);
      if e.Some? {
        return if e.value == Api(NotFound) then Ok(false) else Err(e.value);
      }
      there := Ok(true);
    }

    /** The devices whose rules were made for the owner, whatever order the
        rules are listed in. */
    method Of(owner: Owner) returns (made: Result<seq<Device>, Error>)
      modifies server
      ensures (server.w, made) == Quarantines.Of(cfg, old(server.w), owner)
    {
      var kind := server.FindKind();
      if kind.Err? {
        return Err(kind.error);
      }
      var listed := server.ListRules(cfg.shorten(owner.name), cfg.shorten(owner.namespace));
      if listed.Err? {
        return Err(listed.error);
      }
      var devices := MadeDevices(cfg, listed.value, owner);
      made := Ok(devices);
    }
  }

  method MadeDevices(cfg: Config, listed: set<Rule>, owner: Owner) returns (made: seq<Device>)
    requires forall x, y :: x in listed && y in listed && x.name == y.name ==> x == y
    ensures made == DevicesOf(cfg, listed, owner)
  {
    var devices: seq<Device> := [];
    var left := listed;
    while left != {}
      invariant left <= listed && NoRepeats(devices)
      invariant forall d :: d in devices ==> exists r :: r in listed && r !in left && MadeFor(cfg, r, owner) && r.device == d
      invariant forall r :: r in listed && r !in left && MadeFor(cfg, r, owner) ==> r.device in devices
      decreases left
    {
      var r :| r in left;
      assert MadeFor(cfg, r, owner) ==> r.device !in devices by {
        forall x | x in listed && x !in left && MadeFor(cfg, x, owner) && MadeFor(cfg, r, owner) ensures x.device != r.device {
          assert x.name != r.name;
        }
      }
      left := left - {r};
      if !MadeFor(cfg, r, owner) {
        continue;
      }
      devices := devices + [r.device];
    }
    SortedIsInAnyOrder(devices, set r | r in listed && MadeFor(cfg, r, owner) :: r.device);
    made := Sort(devices, AtMost);
  }

  /** An error ends the making of the rules, whatever devices are left. */
  lemma {:induction false} EnsureErrorStays(cfg: Config, w: World, ds: seq<Device>, o: Owner, i: nat)
    requires i <= |ds| && EnsureAll(cfg, w, ds[..i], o).1.Some?
    ensures EnsureAll(cfg, w, ds, o) == EnsureAll(cfg, w, ds[..i], o)
    decreases |ds| - i
  {
    if i < |ds| {
      assert ds[..i + 1][..i] == ds[..i];
      EnsureErrorStays(cfg, w, ds, o, i + 1);
    } else {
      assert ds[..i] == ds;
    }
  }

  lemma {:induction false} ReadErrorStays(cfg: Config, w: World, ds: seq<Device>, i: nat)
    requires i <= |ds| && !ReadAll(cfg, w, ds[..i]).1.AllThere?
    ensures ReadAll(cfg, w, ds) == ReadAll(cfg, w, ds[..i])
    decreases |ds| - i
  {
    if i < |ds| {
      assert ds[..i + 1][..i] == ds[..i];
      ReadErrorStays(cfg, w, ds, i + 1);
    } else {
      assert ds[..i] == ds;
    }
  }

  class MachineQuarantineReconciler {
    const cfg: Config
    const server: Server
    const rules: Rules

    constructor (cfg: Config, server: Server)
      ensures Valid() && this.cfg == cfg && this.server == server
    {
      this.cfg, this.server := cfg, server;
      this.rules := new Rules(cfg, server);
    }

    ghost predicate Valid() { rules.cfg == cfg && rules.server == server }

    /** Writes the status, or takes it off, under the copy's version; the copy
        follows only a patch that went through. */
    method SetStatus(c: Copy, status: string) returns (e: Option<Error>)
      modifies server, c
      ensures (server.w, c.m, e) == Quarantines.SetStatus(old(server.w), old(c.m), status)
    {
      var isSet := ReplaceStatusKey in c.m.annotations;
      if (status == "" && !isSet) || (isSet && c.m.annotations[ReplaceStatusKey] == status) {
        return None;
      }
      var updated := c.m.annotations;
      if status == "" {
        updated := updated - {ReplaceStatusKey};
      } else {
        updated := updated[ReplaceStatusKey := status];
      }
      assert c.m.(annotations := updated) == WithStatus(c.m, status);
      var patched := server.PatchStatus(c.m, c.m.(annotations := updated));
      if patched.Err? {
        return Some(patched.error);
      }
      c.m := patched.value;
      e := None;
    }

    method Reject(c: Copy, reason: Reason) returns (e: Option<Error>)
      modifies server, c
      ensures (server.w, e) == RejectRequest(cfg, old(server.w), old(c.m), reason)
    {
      if cfg.dryRun {
        return None;
      }
      e := SetStatus(c, RejectedStatus(reason));
    }

    method Fail(c: Copy, error: Error) returns (e: Option<Error>)
      modifies server, c
      ensures (server.w, e) == FailWith(cfg, old(server.w), old(c.m), error)
    {
      match error {
        case Rejection(reason) => e := Reject(c, reason);
        case Api(ForbiddenCall) => e := Reject(c, Forbidden);
        case Api(_) => e := Some(error);
      }
    }

    /** Makes a rule for each device and reads each of them back. */
    method Taint(c: Copy, devices: seq<Device>) returns (ok: bool, e: Option<Error>)
      requires Valid()
      modifies server, c
      ensures
        var (w1, e1) := EnsureAll(cfg, old(server.w), devices, OwnerOf(old(c.m)));
        var (w2, back) := ReadAll(cfg, w1, devices);
        if e1.Some? then !ok && (server.w, e) == FailWith(cfg, w1, old(c.m), e1.value)
        else if back.Unread? then !ok && (server.w, e) == FailWith(cfg, w2, old(c.m), back.error)
        else if back.OneMissing? then !ok && (server.w, e) == (w2, Some(Api(Unreachable)))
        else ok && server.w == w2 && c.m == old(c.m)
    {
      hide FailWith, Quarantines.Ensure, Quarantines.Exists;
      var owner := OwnerOf(c.m);
      ghost var w0 := server.w;
      for i := 0 to |devices|
        invariant EnsureAll(cfg, w0, devices[..i], owner) == (server.w, None) && c.m == old(c.m)
      {
        assert devices[..i + 1][..i] == devices[..i];
        var created := rules.Ensure(devices[i], owner);
        if created.Err? {
          EnsureErrorStays(cfg, w0, devices, owner, i + 1);
          var failed := Fail(c, created.error);
          return false, failed;
        }
      }
      assert devices[..|devices|] == devices;
      ghost var w1 := server.w;
      for i := 0 to |devices|
        invariant ReadAll(cfg, w1, devices[..i]) == (server.w, AllThere) && c.m == old(c.m)
      {
        assert devices[..i + 1][..i] == devices[..i];
        var there := rules.Exists(devices[i]);
        if there.Err? {
          ReadErrorStays(cfg, w1, devices, i + 1);
          var failed := Fail(c, there.error);
          return false, failed;
        }
        if !there.value {
          ReadErrorStays(cfg, w1, devices, i + 1);
          return false, Some(Api(Unreachable));
        }
      }
      return true, None;
    }

    /** Picks the devices and gets their rules in place. Returns none when the
        request ended there, as it does in a dry run. */
    method Quarantine(c: Copy, names: seq<string>, status: string) returns (devices: Option<seq<Device>>, e: Option<Error>)
      requires Valid()
      modifies server, c
      ensures
        var step := Quarantines.Quarantine(cfg, old(server.w), old(c.m), names, status);
        && server.w == step.w
        && (step.Ended? ==> devices == None && e == step.error)
        && (step.Ready? ==> devices == Some(step.devices) && e == None && c.m == step.m)
    {
      hide FailWith, EnsureAll, ReadAll, Selected, Quarantines.SetStatus;
      var held := server.FindDevices();
      if held.Err? {
        e := Fail(c, held.error);
        return None, e;
      }
      var selected := Select(held.value, cfg.drivers, names);
      if selected.Err? {
        e := Fail(c, Rejection(selected.error));
        return None, e;
      }
      if cfg.dryRun {
        return None, None;
      }
      if status != STATUS_REPLACING {
        e := SetStatus(c, STATUS_QUARANTINING);
        if e.Some? {
          return None, e;
        }
      }
      var ok, failed := Taint(c, selected.value);
      if !ok {
        return None, failed;
      }
      if status != STATUS_REPLACING {
        e := SetStatus(c, STATUS_REPLACING);
        if e.Some? {
          return None, e;
        }
      }
      return Some(selected.value), None;
    }

    method Delete(c: Copy, names: seq<string>, devices: seq<Device>) returns (e: Option<Error>)
      modifies server, c
      ensures (server.w, e) == DeleteFor(cfg, old(server.w), old(c.m), names, devices)
    {
      var deleted := server.DeleteMachine(c.m, names, devices);
      if deleted.Ok? || deleted.error == Api(NotFound) {
        return None;
      }
      e := Fail(c, deleted.error);
    }

    /** Carries out the request once the guards let it: on from its rules when
        they were made and cover it, from the start otherwise. */
    method CarryOut(c: Copy, names: seq<string>, status: string) returns (e: Option<Error>)
      requires Valid()
      modifies server, c
      ensures (server.w, e) == Quarantines.CarryOut(cfg, old(server.w), old(c.m), names, status)
    {
      hide FailWith, Quarantines.Quarantine, DeleteFor, Quarantines.Of, Covers;
      if status == STATUS_REPLACING {
        var made := rules.Of(OwnerOf(c.m));
        if made.Err? {
          e := Fail(c, made.error);
          return;
        }
        if Covers(made.value, names) {
          if cfg.dryRun {
            return None;
          }
          e := Delete(c, names, made.value);
          return;
        }
      }
      var devices: Option<seq<Device>>;
      devices, e := Quarantine(c, names, status);
      if e.Some? || devices.None? {
        return;
      }
      e := Delete(c, names, devices.value);
    }

    method Replace(c: Copy) returns (e: Option<Error>)
      requires Valid()
      modifies server, c
      ensures (server.w, e) == Quarantines.Replace(cfg, old(server.w), old(c.m))
    {
      hide FailWith, Quarantines.CarryOut, RejectRequest, Quarantines.SetStatus, Requested;
      var requested := ReplaceKey in c.m.annotations;
      var status := Value(c.m.annotations, ReplaceStatusKey);
      if c.m.deleting {
        return None;
      } else if !requested {
        if status == "" || cfg.dryRun {
          return None;
        }
        e := SetStatus(c, "");
        return;
      } else if IsRejected(status) {
        return None;
      }
      var cluster := server.GetCluster(c.m.cluster);
      if cluster.Err? {
        return if cluster.error == Api(NotFound) then None else Some(cluster.error);
      }
      if !cluster.value.selected {
        return None;
      }
      var guard := GuardReplace(cluster.value, c.m);
      if guard.Some? {
        e := Reject(c, guard.value);
        return;
      }
      var names := ParseRequest(c.m.annotations[ReplaceKey]);
      if names.Err? {
        e := Fail(c, Rejection(names.error));
        return;
      }
      e := CarryOut(c, names.value, status);
    }

    /** A pass over the Machine of this name, on a copy of its own. */
    method Reconcile(name: string) returns (outcome: Outcome)
      requires Valid()
      modifies server
      ensures (server.w, outcome) == Reconciled(cfg, old(server.w), name)
    {
      hide Quarantines.Replace;
      var got := server.GetMachine(name);
      if got.Err? {
        return if got.error == Api(NotFound) then Done else Backoff;
      }
      var c := new Actuators.Copy(got.value);
      var e := Replace(c);
      if e == Some(Api(Conflict)) {
        return Shortly;
      }
      outcome := if e.Some? then Backoff else Done;
    }
  }
}
