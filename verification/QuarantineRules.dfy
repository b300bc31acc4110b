// The rules that quarantining leaves, over any number of crashes and retries,
// and for whatever digest names them; and what a dry run leaves alone.

module QuarantineRules {
  import opened Text
  import opened Machines
  import opened Store
  import opened Devices
  import opened QuarantineWorld
  import opened Quarantines
  import opened QuarantineSafety

  type Rules = map<string, Rule>

  /** The rules but for when they were asked for. */
  function Undated(rules: Rules): Rules { map n | n in rules :: rules[n].(requestedAt := 0) }

  function With(cfg: Config, rules: Rules, d: Device, o: Owner): Rules {
    var name := RuleName(cfg.digest, d);
    if name in rules then rules else rules[name := RuleFor(cfg, d, o, 0)]
  }

  /** The rules an uninterrupted quarantine of the devices leaves: a rule that is
      there stays as it is, and each missing one is made for the owner. */
  function Plan(cfg: Config, rules: Rules, ds: seq<Device>, o: Owner): Rules {
    if ds == [] then rules
    else With(cfg, Plan(cfg, rules, ds[..|ds| - 1], o), ds[|ds| - 1], o)
  }

  lemma {:induction false} PlanKeeps(cfg: Config, rules: Rules, ds: seq<Device>, o: Owner)
    ensures var p := Plan(cfg, rules, ds, o);
            (forall n :: n in rules ==> n in p && p[n] == rules[n]) && (forall d :: d in ds ==> RuleName(cfg.digest, d) in p)
  {
    if ds != [] {
      PlanKeeps(cfg, rules, ds[..|ds| - 1], o);
      assert forall d :: d in ds ==> d in ds[..|ds| - 1] || d == ds[|ds| - 1];
    }
  }

  /** Planning again adds nothing. */
  lemma {:induction false} PlanOfMade(cfg: Config, rules: Rules, ds: seq<Device>, o: Owner)
    requires forall d :: d in ds ==> RuleName(cfg.digest, d) in rules
    ensures Plan(cfg, rules, ds, o) == rules
  {
    if ds != [] {
      PlanOfMade(cfg, rules, ds[..|ds| - 1], o);
    }
  }

  /** Starting over after any part of the plan comes to the longer of the two. */
  lemma {:induction false} PlanTwice(cfg: Config, rules: Rules, ds: seq<Device>, o: Owner, k: nat, j: nat)
    requires k <= |ds| && j <= |ds|
    ensures Plan(cfg, Plan(cfg, rules, ds[..k], o), ds[..j], o) == Plan(cfg, rules, ds[..if k < j then j else k], o)
    decreases j
  {
    if j <= k {
      PlanKeeps(cfg, rules, ds[..k], o);
      assert forall d :: d in ds[..j] ==> d in ds[..k];
      PlanOfMade(cfg, Plan(cfg, rules, ds[..k], o), ds[..j], o);
    } else {
      PlanTwice(cfg, rules, ds, o, k, j - 1);
      assert ds[..j][..j - 1] == ds[..j - 1];
    }
  }

  // ---------------------------------------------- nobody else writes rules

  predicate LeavesRules(edits: seq<WorldEdit>) { forall e :: e in edits ==> !e.WriteRule? && !e.DropRule? }

  predicate AllLeaveRules(env: seq<Turn>) { forall t :: t in env ==> LeavesRules(t.edits) }

  /** Whatever the locator finds, the request picks these devices or is
      rejected. */
  predicate Picks(cfg: Config, names: seq<string>, ds: seq<Device>, found: Result<seq<Device>, Error>) {
    found.Ok? ==> Selected(found.value, cfg.drivers, names).Err? || Selected(found.value, cfg.drivers, names) == Ok(ds)
  }

  predicate EditsPick(cfg: Config, names: seq<string>, ds: seq<Device>, edits: seq<WorldEdit>) {
    forall e :: e in edits && e.SetDevices? ==> Picks(cfg, names, ds, e.devices)
  }

  predicate AlwaysPicks(cfg: Config, w: World, names: seq<string>, ds: seq<Device>) {
    Picks(cfg, names, ds, w.devices) && forall t :: t in w.env ==> EditsPick(cfg, names, ds, t.edits)
  }

  lemma EditLeaves(w: World, e: WorldEdit)
    ensures !e.WriteRule? && !e.DropRule? ==> EditWorld(w, e).rules == w.rules
    ensures EditWorld(w, e).devices == if e.SetDevices? then e.devices else w.devices
    ensures EditWorld(w, e).env == w.env
  {
  }

  lemma {:induction false} EditsLeave(cfg: Config, w: World, names: seq<string>, ds: seq<Device>, edits: seq<WorldEdit>)
    ensures LeavesRules(edits) ==> EditAll(w, edits).rules == w.rules
    ensures EditsPick(cfg, names, ds, edits) && Picks(cfg, names, ds, w.devices) ==> Picks(cfg, names, ds, EditAll(w, edits).devices)
    ensures EditAll(w, edits).env == w.env
    decreases |edits|
  {
    hide Picks, EditWorld;
    if edits != [] {
      assert edits[0] in edits && forall e :: e in edits[1..] ==> e in edits;
      EditLeaves(w, edits[0]);
      EditsLeave(cfg, EditWorld(w, edits[0]), names, ds, edits[1..]);
    }
  }

  /** A call left the rules as they were, and the rest of the world as tame. */
  ghost predicate Tame(cfg: Config, w: World, v: World, names: seq<string>, ds: seq<Device>) {
    && (AllLeaveRules(w.env) ==> AllLeaveRules(v.env))
    && (AlwaysPicks(cfg, w, names, ds) ==> AlwaysPicks(cfg, v, names, ds))
  }

  ghost predicate SameRules(cfg: Config, w: World, v: World, names: seq<string>, ds: seq<Device>) {
    Tame(cfg, w, v, names, ds) && (AllLeaveRules(w.env) ==> v.rules == w.rules)
  }

  lemma ArriveLeaves(cfg: Config, w: World, names: seq<string>, ds: seq<Device>)
    ensures SameRules(cfg, w, Arrive(w).w, names, ds)
  {
    if w.alive && w.env != [] {
      assert w.env[0] in w.env;
      EditsLeave(cfg, w.(env := w.env[1..]), names, ds, w.env[0].edits);
      assert forall t :: t in w.env[1..] ==> t in w.env;
    }
  }

  lemma ReadsLeave(cfg: Config, w: World, names: seq<string>, ds: seq<Device>, name: string, more: string)
    ensures SameRules(cfg, w, GetMachine(w, name).0, names, ds)
    ensures SameRules(cfg, w, GetCluster(w, name).0, names, ds)
    ensures SameRules(cfg, w, FindKind(w).0, names, ds)
    ensures SameRules(cfg, w, GetRule(w, name).0, names, ds)
    ensures SameRules(cfg, w, ListRules(w, name, more).0, names, ds)
  {
    ArriveLeaves(cfg, w, names, ds);
    hide Picks, EditsPick;
  }

  lemma FindDevicesLeaves(cfg: Config, w: World, names: seq<string>, ds: seq<Device>)
    ensures
      var (v, r) := FindDevices(w);
      SameRules(cfg, w, v, names, ds) && (AlwaysPicks(cfg, w, names, ds) ==> Picks(cfg, names, ds, r))
  {
    ArriveLeaves(cfg, w, names, ds);
    hide Selected, EditsPick;
  }

  lemma WritesLeave(cfg: Config, w: World, names: seq<string>, ds: seq<Device>, m: Machine, status: string, devices: seq<Device>)
    ensures
      var (v, r) := PatchStatus(w, m, WithStatus(m, status));
      SameRules(cfg, w, v, names, ds) && (r.Ok? ==> OwnerOf(r.value) == OwnerOf(m))
    ensures SameRules(cfg, w, DeleteMachine(w, m, names, devices).0, names, ds)
  {
    ArriveLeaves(cfg, w, names, ds);
    hide Picks, EditsPick;
  }

  // --------------------------------------------------------- making the rules

  lemma CreateMakesOne(cfg: Config, w: World, names: seq<string>, ds: seq<Device>, d: Device, o: Owner, now: int)
    requires AllLeaveRules(w.env)
    ensures
      var (v, c) := CreateRule(w, RuleFor(cfg, d, o, now));
      && Tame(cfg, w, v, names, ds)
      && (v.rules == w.rules || Undated(v.rules) == With(cfg, Undated(w.rules), d, o))
      && (!c.NotCreated? ==> Undated(v.rules) == With(cfg, Undated(w.rules), d, o))
  {
    hide Picks, EditsPick;
    ArriveLeaves(cfg, w, names, ds);
    var rule := RuleFor(cfg, d, o, now);
    assert Undated(w.rules[rule.name := rule]) == Undated(w.rules)[rule.name := RuleFor(cfg, d, o, 0)];
  }

  lemma EnsureMakesOne(cfg: Config, w: World, names: seq<string>, ds: seq<Device>, d: Device, o: Owner)
    requires AllLeaveRules(w.env)
    ensures
      var (v, r) := Ensure(cfg, w, d, o);
      && Tame(cfg, w, v, names, ds)
      && (Undated(v.rules) == Undated(w.rules) || Undated(v.rules) == With(cfg, Undated(w.rules), d, o))
      && (r.Ok? ==> Undated(v.rules) == With(cfg, Undated(w.rules), d, o))
  {
    hide AllLeaveRules, AlwaysPicks, GetRule, FindKind, CreateRule, RuleFor, With, Undated;
    ReadsLeave(cfg, w, names, ds, "", "");
    var w1 := FindKind(w).0;
    CreateMakesOne(cfg, w1, names, ds, d, o, w1.now);
    ReadsLeave(cfg, CreateRule(w1, RuleFor(cfg, d, o, w1.now)).0, names, ds, RuleName(cfg.digest, d), "");
  }

  /** Making the rules makes a part of the plan, and all of it unless it ends in
      an error. */
  lemma {:induction false} EnsureAllMakesAPart(cfg: Config, w: World, names: seq<string>, ds: seq<Device>, o: Owner, n: nat) returns (k: nat)
    requires AllLeaveRules(w.env) && n <= |ds|
    ensures
      var (v, e) := EnsureAll(cfg, w, ds[..n], o);
      && Tame(cfg, w, v, names, ds)
      && k <= n && Undated(v.rules) == Plan(cfg, Undated(w.rules), ds[..k], o) && (e.None? ==> k == n)
  {
    hide Ensure, Undated, With, AlwaysPicks;
    if n == 0 {
      k := 0;
    } else {
      assert ds[..n][..n - 1] == ds[..n - 1];
      k := EnsureAllMakesAPart(cfg, w, names, ds, o, n - 1);
      var (w1, e1) := EnsureAll(cfg, w, ds[..n - 1], o);
      if e1.None? {
        EnsureMakesOne(cfg, w1, names, ds, ds[n - 1], o);
        var w2 := Ensure(cfg, w1, ds[n - 1], o).0;
        if Undated(w2.rules) == With(cfg, Undated(w1.rules), ds[n - 1], o) {
          k := n;
        }
      }
    }
  }

  lemma {:induction false} ReadAllLeaves(cfg: Config, w: World, names: seq<string>, ds: seq<Device>, some: seq<Device>)
    ensures SameRules(cfg, w, ReadAll(cfg, w, some).0, names, ds)
  {
    hide GetRule, FindKind, AllLeaveRules, AlwaysPicks;
    if some != [] {
      var n := |some| - 1;
      ReadAllLeaves(cfg, w, names, ds, some[..n]);
      var w1 := ReadAll(cfg, w, some[..n]).0;
      ReadsLeave(cfg, w1, names, ds, "", "");
      ReadsLeave(cfg, FindKind(w1).0, names, ds, RuleName(cfg.digest, some[n]), "");
    }
  }

  lemma StatusLeaves(cfg: Config, w: World, names: seq<string>, ds: seq<Device>, m: Machine, status: string)
    ensures
      var (v, m', _) := SetStatus(w, m, status);
      SameRules(cfg, w, v, names, ds) && OwnerOf(m') == OwnerOf(m)
  {
    hide AlwaysPicks;
    WritesLeave(cfg, w, names, ds, m, status, []);
    hide PatchStatus;
  }

  lemma FailLeaves(cfg: Config, w: World, names: seq<string>, ds: seq<Device>, m: Machine, e: Error)
    ensures SameRules(cfg, w, FailWith(cfg, w, m, e).0, names, ds)
    ensures forall reason :: SameRules(cfg, w, RejectRequest(cfg, w, m, reason).0, names, ds)
  {
    hide AlwaysPicks, SetStatus;
    forall reason ensures SameRules(cfg, w, RejectRequest(cfg, w, m, reason).0, names, ds) {
      StatusLeaves(cfg, w, names, ds, m, RejectedStatus(reason));
    }
  }

  // -------------------------------------------------------------- the pass

  /** The rules went from w to v by a part of the plan. */
  ghost predicate MadeAPart(cfg: Config, w: World, v: World, ds: seq<Device>, o: Owner) {
    exists k :: 0 <= k <= |ds| && Undated(v.rules) == Plan(cfg, Undated(w.rules), ds[..k], o)
  }

  lemma NothingIsAPart(cfg: Config, w: World, v: World, ds: seq<Device>, o: Owner)
    requires v.rules == w.rules
    ensures MadeAPart(cfg, w, v, ds, o)
  {
    assert Undated(v.rules) == Plan(cfg, Undated(w.rules), ds[..0], o);
  }

  lemma PartAfter(cfg: Config, u: World, v: World, w: World, ds: seq<Device>, o: Owner)
    requires MadeAPart(cfg, u, v, ds, o) && w.rules == v.rules
    ensures MadeAPart(cfg, u, w, ds, o)
  {
  }

  lemma TaintedMakesAPart(cfg: Config, w: World, m: Machine, names: seq<string>, ds: seq<Device>, status: string)
    requires AllLeaveRules(w.env)
    ensures
      var step := Tainted(cfg, w, m, ds, status);
      AllLeaveRules(step.w.env) && MadeAPart(cfg, w, step.w, ds, OwnerOf(m))
  {
    hide EnsureAll, ReadAll, FailWith, SetStatus, AlwaysPicks, Undated, MadeAPart, AllLeaveRules;
    var o := OwnerOf(m);
    var k := EnsureAllMakesAPart(cfg, w, names, ds, o, |ds|);
    assert ds[..|ds|] == ds;
    var (w1, e1) := EnsureAll(cfg, w, ds, o);
    assert MadeAPart(cfg, w, w1, ds, o) by { APart(cfg, w, w1, ds, o, k); }
    ReadAllLeaves(cfg, w1, names, ds, ds);
    var (w2, back) := ReadAll(cfg, w1, ds);
    PartAfter(cfg, w, w1, w2, ds, o);
    var e := if e1.Some? then e1.value else if back.Unread? then back.error else Api(Conflict);
    FailLeaves(cfg, w1, names, ds, m, e);
    FailLeaves(cfg, w2, names, ds, m, e);
    StatusLeaves(cfg, w2, names, ds, m, STATUS_REPLACING);
    PartAfter(cfg, w, w1, FailWith(cfg, w1, m, e).0, ds, o);
    PartAfter(cfg, w, w2, FailWith(cfg, w2, m, e).0, ds, o);
    PartAfter(cfg, w, w2, SetStatus(w2, m, STATUS_REPLACING).0, ds, o);
  }

  lemma APart(cfg: Config, w: World, v: World, ds: seq<Device>, o: Owner, k: nat)
    requires k <= |ds| && Undated(v.rules) == Plan(cfg, Undated(w.rules), ds[..k], o)
    ensures MadeAPart(cfg, w, v, ds, o)
  {
  }

  /** A pass, or what is left of one, made a part of the plan. */
  ghost predicate AddsAPart(cfg: Config, w: World, v: World, ds: seq<Device>, o: Owner) {
    AllLeaveRules(w.env) ==> AllLeaveRules(v.env) && MadeAPart(cfg, w, v, ds, o)
  }

  lemma SameIsAPart(cfg: Config, w: World, v: World, names: seq<string>, ds: seq<Device>, o: Owner)
    requires SameRules(cfg, w, v, names, ds)
    ensures AddsAPart(cfg, w, v, ds, o)
  {
    if v.rules == w.rules { NothingIsAPart(cfg, w, v, ds, o); }
  }

  lemma SameThenPart(cfg: Config, u: World, v: World, w: World, names: seq<string>, ds: seq<Device>, o: Owner)
    requires SameRules(cfg, u, v, names, ds) && AddsAPart(cfg, v, w, ds, o)
    ensures AddsAPart(cfg, u, w, ds, o)
  {
    hide AllLeaveRules, AlwaysPicks;
  }

  lemma PartThenSame(cfg: Config, u: World, v: World, w: World, names: seq<string>, ds: seq<Device>, o: Owner)
    requires AddsAPart(cfg, u, v, ds, o) && SameRules(cfg, v, w, names, ds)
    ensures AddsAPart(cfg, u, w, ds, o)
  {
    hide AllLeaveRules, AlwaysPicks;
  }

  lemma QuarantineAddsAPart(cfg: Config, w: World, m: Machine, names: seq<string>, ds: seq<Device>, status: string)
    requires AlwaysPicks(cfg, w, names, ds)
    ensures AddsAPart(cfg, w, Quarantine(cfg, w, m, names, status).w, ds, OwnerOf(m))
  {
    hide FindDevices, FailWith, SetStatus, Tainted, AlwaysPicks, AllLeaveRules, MadeAPart, Selected;
    var o := OwnerOf(m);
    FindDevicesLeaves(cfg, w, names, ds);
    var (w1, found) := FindDevices(w);
    SameIsAPart(cfg, w, w1, names, ds, o);
    var e := if found.Err? then found.error else if Selected(found.value, cfg.drivers, names).Err?
             then Rejection(Selected(found.value, cfg.drivers, names).error) else Api(Conflict);
    FailLeaves(cfg, w1, names, ds, m, e);
    PartThenSame(cfg, w, w1, FailWith(cfg, w1, m, e).0, names, ds, o);
    StatusLeaves(cfg, w1, names, ds, m, STATUS_QUARANTINING);
    var (w2, m2, e2) := if status != STATUS_REPLACING then SetStatus(w1, m, STATUS_QUARANTINING) else (w1, m, None);
    PartThenSame(cfg, w, w1, w2, names, ds, o);
    TaintedAddsAPart(cfg, w2, m2, names, ds, status);
    SameThenPart(cfg, w1, w2, Tainted(cfg, w2, m2, ds, status).w, names, ds, o);
    SameThenPart(cfg, w, w1, Tainted(cfg, w2, m2, ds, status).w, names, ds, o);
  }

  lemma TaintedAddsAPart(cfg: Config, w: World, m: Machine, names: seq<string>, ds: seq<Device>, status: string)
    ensures AddsAPart(cfg, w, Tainted(cfg, w, m, ds, status).w, ds, OwnerOf(m))
  {
    if AllLeaveRules(w.env) { TaintedMakesAPart(cfg, w, m, names, ds, status); }
  }

  lemma DeleteLeaves(cfg: Config, w: World, names: seq<string>, ds: seq<Device>, m: Machine, devices: seq<Device>)
    ensures SameRules(cfg, w, DeleteFor(cfg, w, m, names, devices).0, names, ds)
  {
    hide DeleteMachine, FailWith, AllLeaveRules, AlwaysPicks;
    WritesLeave(cfg, w, names, ds, m, "", devices);
    var (w1, r) := DeleteMachine(w, m, names, devices);
    if r.Err? { FailLeaves(cfg, w1, names, ds, m, r.error); }
  }

  lemma OfLeaves(cfg: Config, w: World, names: seq<string>, ds: seq<Device>, o: Owner)
    ensures SameRules(cfg, w, Of(cfg, w, o).0, names, ds)
  {
    hide FindKind, ListRules, AllLeaveRules, AlwaysPicks;
    ReadsLeave(cfg, w, names, ds, "", "");
    ReadsLeave(cfg, FindKind(w).0, names, ds, cfg.shorten(o.name), cfg.shorten(o.namespace));
  }

  lemma CarryOutAddsAPart(cfg: Config, w: World, m: Machine, names: seq<string>, ds: seq<Device>, status: string)
    requires AlwaysPicks(cfg, w, names, ds)
    ensures AddsAPart(cfg, w, CarryOut(cfg, w, m, names, status).0, ds, OwnerOf(m))
  {
    hide Of, FailWith, Quarantine, DeleteFor, AlwaysPicks, AllLeaveRules, MadeAPart, Covers;
    var o := OwnerOf(m);
    OfLeaves(cfg, w, names, ds, o);
    var (w1, r) := Resumed(cfg, w, m, names, status);
    assert SameRules(cfg, w, w1, names, ds);
    SameIsAPart(cfg, w, w1, names, ds, o);
    if r.Err? {
      FailLeaves(cfg, w1, names, ds, m, r.error);
      PartThenSame(cfg, w, w1, FailWith(cfg, w1, m, r.error).0, names, ds, o);
    } else if r.value.Some? {
      DeleteLeaves(cfg, w1, names, ds, m, r.value.value);
      PartThenSame(cfg, w, w1, DeleteFor(cfg, w1, m, names, r.value.value).0, names, ds, o);
    } else {
      QuarantineAddsAPart(cfg, w1, m, names, ds, status);
      var step := Quarantine(cfg, w1, m, names, status);
      SameThenPart(cfg, w, w1, step.w, names, ds, o);
      if step.Ready? {
        DeleteLeaves(cfg, step.w, names, ds, step.m, step.devices);
        PartThenSame(cfg, w, step.w, DeleteFor(cfg, step.w, step.m, names, step.devices).0, names, ds, o);
      }
    }
  }

  /** Whatever is asked of the Machine comes to these devices or a rejection. */
  ghost predicate SameWork(cfg: Config, w: World, m: Machine, ds: seq<Device>, o: Owner) {
    && OwnerOf(m) == o
    && (ReplaceKey in m.annotations ==>
          Requested(m.annotations[ReplaceKey]).Err? || AlwaysPicks(cfg, w, Requested(m.annotations[ReplaceKey]).value, ds))
  }

  lemma ReplaceAddsAPart(cfg: Config, w: World, m: Machine, ds: seq<Device>, o: Owner)
    requires SameWork(cfg, w, m, ds, o)
    ensures AddsAPart(cfg, w, Replace(cfg, w, m).0, ds, o)
  {
    hide FailWith, RejectRequest, SetStatus, CarryOut, GetCluster, Requested, AlwaysPicks, AllLeaveRules, MadeAPart;
    var status := Value(m.annotations, ReplaceStatusKey);
    var parsed := if ReplaceKey in m.annotations then Requested(m.annotations[ReplaceKey]) else Ok([]);
    var names := if parsed.Ok? then parsed.value else [];
    SameIsAPart(cfg, w, w, names, ds, o);
    StatusLeaves(cfg, w, names, ds, m, "");
    SameIsAPart(cfg, w, SetStatus(w, m, "").0, names, ds, o);
    ReadsLeave(cfg, w, names, ds, m.cluster, "");
    var w1 := GetCluster(w, m.cluster).0;
    SameIsAPart(cfg, w, w1, names, ds, o);
    if ReplaceKey in m.annotations && !m.deleting {
      FailLeaves(cfg, w1, names, ds, m, if parsed.Err? then Rejection(parsed.error) else Api(Conflict));
      forall reason ensures AddsAPart(cfg, w, RejectRequest(cfg, w1, m, reason).0, ds, o) {
        PartThenSame(cfg, w, w1, RejectRequest(cfg, w1, m, reason).0, names, ds, o);
      }
      if parsed.Err? {
        PartThenSame(cfg, w, w1, FailWith(cfg, w1, m, Rejection(parsed.error)).0, names, ds, o);
      } else {
        CarryOutAddsAPart(cfg, w1, m, names, ds, status);
        SameThenPart(cfg, w, w1, CarryOut(cfg, w1, m, names, status).0, names, ds, o);
      }
    }
  }

  /** What the pass reads asks for the same work as before. */
  ghost predicate RoundFor(cfg: Config, w: World, name: string, ds: seq<Device>, o: Owner) {
    var (w1, r) := GetMachine(w, name);
    AllLeaveRules(w.env) && (r.Ok? ==> SameWork(cfg, w1, r.value, ds, o))
  }

  lemma RoundAddsAPart(cfg: Config, w: World, name: string, ds: seq<Device>, o: Owner)
    requires RoundFor(cfg, w, name, ds, o)
    ensures MadeAPart(cfg, w, Reconciled(cfg, w, name).0, ds, o)
  {
    hide Replace, GetMachine, AllLeaveRules, MadeAPart, SameWork;
    ReadsLeave(cfg, w, [], ds, name, "");
    var (w1, r) := GetMachine(w, name);
    SameIsAPart(cfg, w, w1, [], ds, o);
    if r.Ok? {
      ReplaceAddsAPart(cfg, w1, r.value, ds, o);
      SameThenPart(cfg, w, w1, Replace(cfg, w1, r.value).0, [], ds, o);
    }
  }

  // -------------------------------------------------------------------- runs

  /** A run of passes over one request, in which nobody else writes rules. */
  ghost predicate RunFor(cfg: Config, run: seq<World>, rounds: seq<Round>, ds: seq<Device>, o: Owner) {
    && IsRun(cfg.digest, run, rounds)
    && forall i :: 0 <= i < |rounds| ==>
         rounds[i].cfg == cfg && LeavesRules(rounds[i].edits) && RoundFor(cfg, Begin(run[i], rounds[i]), rounds[i].name, ds, o)
  }

  /** However often the passes over a request crash, fail and are tried again,
      at any point the rules are those an uninterrupted quarantine of some first
      part of the devices leaves. */
  lemma {:induction false} RetriesAddAPart(cfg: Config, run: seq<World>, rounds: seq<Round>, ds: seq<Device>, o: Owner, i: nat)
    returns (k: nat)
    requires RunFor(cfg, run, rounds, ds, o) && i < |run|
    ensures k <= |ds| && Undated(run[i].rules) == Plan(cfg, Undated(run[0].rules), ds[..k], o)
  {
    hide Undated, Reconciled, RoundFor;
    if i == 0 {
      k := 0;
    } else {
      var j := RetriesAddAPart(cfg, run, rounds, ds, o, i - 1);
      var w, r := run[i - 1], rounds[i - 1];
      EditsLeave(cfg, w, [], ds, r.edits);
      RoundAddsAPart(cfg, Begin(w, r), r.name, ds, o);
      var l :| 0 <= l <= |ds| && Undated(run[i].rules) == Plan(cfg, Undated(Begin(w, r).rules), ds[..l], o);
      PlanTwice(cfg, Undated(run[0].rules), ds, o, j, l);
      k := if j < l then l else j;
    }
  }

  /** And once the Machine was deleted with these devices seen to, the rules are
      the ones an uninterrupted quarantine of all of them leaves. */
  lemma RetriesEndAsOneRun(cfg: Config, run: seq<World>, rounds: seq<Round>, ds: seq<Device>, o: Owner, i: nat, x: Deletion)
    requires RunFor(cfg, run, rounds, ds, o) && i < |run| && run[i].untouched
    requires x in run[i].history.deletions && x.devices == ds
    ensures Undated(run[i].rules) == Plan(cfg, Undated(run[0].rules), ds, o)
  {
    RunIsSound(cfg.digest, run, rounds, i);
    var k := RetriesAddAPart(cfg, run, rounds, ds, o, i);
    assert GoodDeletion(cfg.digest, run[i].history, x);
    var part := Plan(cfg, Undated(run[0].rules), ds[..k], o);
    forall d | d in ds ensures RuleName(cfg.digest, d) in part {
      assert SawBlocking(cfg.digest, run[i].history, x.pass, d);
      assert RuleName(cfg.digest, d) in run[i].rules;
    }
    PlanOfMade(cfg, part, ds, o);
    PlanTwice(cfg, Undated(run[0].rules), ds, o, k, |ds|);
    assert ds[..|ds|] == ds;
  }

  predicate Quiet(w: World) { w.alive && w.env == [] && w.kind.KindServed? }

  /** Uninterrupted, the quarantine makes all of the plan, exactly when no rule
      of the plan is one that does not block its device. */
  lemma {:induction false} UninterruptedMakesThePlan(cfg: Config, w: World, ds: seq<Device>, o: Owner)
    requires Quiet(w)
    ensures
      var (v, e) := EnsureAll(cfg, w, ds, o);
      var plan := Plan(cfg, Undated(w.rules), ds, o);
      && Quiet(v) && (e.None? <==> forall d :: d in ds ==> InPlace(cfg.digest, plan, d))
      && (e.None? ==> Undated(v.rules) == plan)
      && (e.Some? ==> e.value == Rejection(DeviceTaintRuleConflict))
  {
    if ds != [] {
      var n := |ds| - 1;
      UninterruptedMakesThePlan(cfg, w, ds[..n], o);
      var (w1, e1) := EnsureAll(cfg, w, ds[..n], o);
      var before := Plan(cfg, Undated(w.rules), ds[..n], o);
      PlanKeeps(cfg, Undated(w.rules), ds[..n], o);
      assert forall d :: d in ds <==> d in ds[..n] || d == ds[n];
      assert forall d :: d in ds[..n] ==> (InPlace(cfg.digest, before, d) <==> InPlace(cfg.digest, With(cfg, before, ds[n], o), d));
      if e1.None? {
        QuietEnsure(cfg, w1, ds[n], o);
      }
      hide EnsureAll, Ensure;
    }
  }

  lemma QuietEnsure(cfg: Config, w: World, d: Device, o: Owner)
    requires Quiet(w)
    ensures
      var (v, r) := Ensure(cfg, w, d, o);
      && Quiet(v) && Undated(v.rules) == With(cfg, Undated(w.rules), d, o)
      && (r.Ok? <==> InPlace(cfg.digest, With(cfg, Undated(w.rules), d, o), d))
      && (r.Err? ==> r.error == Rejection(DeviceTaintRuleConflict))
  {
    var rule := RuleFor(cfg, d, o, w.now);
    assert Undated(w.rules[rule.name := rule]) == Undated(w.rules)[rule.name := RuleFor(cfg, d, o, 0)];
  }

  /** Where the digest gives two devices one rule name, the rule of the one is
      never taken for the other's: making the other's rule is rejected, and it is
      not among the devices whose rules were made. */
  lemma CollisionIsNeverTaken(cfg: Config, w: World, a: Device, b: Device, o: Owner)
    requires Quiet(w) && NamedRules(w.rules) && a != b && RuleName(cfg.digest, a) == RuleName(cfg.digest, b)
    requires InPlace(cfg.digest, w.rules, a)
    ensures Ensure(cfg, w, b, o).1 == Err(Rejection(DeviceTaintRuleConflict)) && Ensure(cfg, w, b, o).0.rules == w.rules
    ensures Of(cfg, w, o).1.Ok? && b !in Of(cfg, w, o).1.value
  {
    QuietEnsure(cfg, w, b, o);
    var (w1, r) := ListRules(FindKind(w).0, cfg.shorten(o.name), cfg.shorten(o.namespace));
    assert forall x :: x in r.value ==> x.name in w.rules && w.rules[x.name] == x;
  }

  // --------------------------------------------------------------- dry runs

  /** The call, or the pass, changed no Machine and no rule, as far as the
      operator goes. */
  ghost predicate WroteNothing(w: World, v: World) {
    && SameActs(w.history, v.history)
    && ((forall t :: t in w.env ==> t.edits == []) ==>
          v.store == w.store && v.rules == w.rules && forall t :: t in v.env ==> t.edits == [])
  }

  lemma ReadsWriteNothing(w: World, name: string, more: string)
    ensures WroteNothing(w, GetMachine(w, name).0) && WroteNothing(w, GetCluster(w, name).0)
    ensures WroteNothing(w, FindDevices(w).0) && WroteNothing(w, FindKind(w).0)
    ensures WroteNothing(w, ListRules(w, name, more).0)
  {
    if w.alive && w.env != [] {
      assert w.env[0] in w.env;
      EditsKeepHistory(w.(env := w.env[1..]), w.env[0].edits);
    }
  }

  lemma {:induction false} EditsKeepHistory(w: World, edits: seq<WorldEdit>)
    ensures EditAll(w, edits).history == w.history && EditAll(w, edits).env == w.env
    decreases |edits|
  {
    if edits != [] { EditsKeepHistory(EditWorld(w, edits[0]), edits[1..]); }
  }

  /** A dry run never changes a Machine or a rule. */
  lemma DryRunWritesNothing(cfg: Config, w: World, name: string)
    requires cfg.dryRun
    ensures WroteNothing(w, Reconciled(cfg, w, name).0)
  {
    hide GetMachine, GetCluster, FindDevices, FindKind, ListRules, Selected, Covers, Requested, GuardReplace, WroteNothing;
    ReadsWriteNothing(w, name, "");
    var (w1, r) := GetMachine(w, name);
    if r.Ok? {
      var m := r.value;
      ReadsWriteNothing(w1, m.cluster, "");
      var w2 := GetCluster(w1, m.cluster).0;
      ReadsWriteNothing(w2, "", "");
      var w3 := FindKind(w2).0;
      ReadsWriteNothing(w3, cfg.shorten(m.name), cfg.shorten(m.namespace));
      var w4 := ListRules(w3, cfg.shorten(m.name), cfg.shorten(m.namespace)).0;
      ReadsWriteNothing(w3, "", "");
      ReadsWriteNothing(w4, "", "");
      NothingChains(w, w1, w2);
      NothingChains(w, w2, w3);
      NothingChains(w, w3, w4);
      NothingChains(w, w2, FindDevices(w2).0);
      NothingChains(w, w4, FindDevices(w4).0);
    }
  }

  lemma NothingChains(u: World, v: World, w: World)
    requires WroteNothing(u, v) && WroteNothing(v, w)
    ensures WroteNothing(u, w)
  {
  }
}
