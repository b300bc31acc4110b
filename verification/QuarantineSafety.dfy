// Whatever happens around the operator, and wherever it crashes: a Machine is
// deleted only while its request, its guards and its rules are as the request
// needs them, the status only moves forward, and rules are only added.

module QuarantineSafety {
  import opened Text
  import opened Machines
  import opened Store
  import opened Devices
  import opened QuarantineWorld
  import opened Quarantines

  type Digest = string -> string

  // ------------------------------------------------------------ what is kept

  /** The pass read a rule by the device's rule name that blocks the device. */
  ghost predicate SawBlocking(digest: Digest, h: History, pass: nat, d: Device) {
    exists r :: RuleRead(pass, r) in h.seen && r.name == RuleName(digest, d) && IsTaint(r, d)
  }

  /** The rule names the device and keeps new work off it. */
  predicate IsTaint(r: Rule, d: Device) { r.device == d && (r.effect == "NoSchedule" || r.effect == "NoExecute") }

  ghost predicate InPlace(digest: Digest, rules: map<string, Rule>, d: Device) {
    RuleName(digest, d) in rules && IsTaint(rules[RuleName(digest, d)], d)
  }

  /** The pass read the Cluster, as selected and not paused. */
  ghost predicate SawActive(h: History, pass: nat, cluster: string) {
    ClusterRead(pass, cluster, Some(ClusterInfo(false, true))) in h.clusters
  }

  /** The pass read the Cluster, as selected. */
  ghost predicate SawSelected(h: History, pass: nat, cluster: string) {
    SawActive(h, pass, cluster) || ClusterRead(pass, cluster, Some(ClusterInfo(true, true))) in h.clusters
  }

  /** The Machine's own request names these devices, and none of its own guards
      stands against its replacement. */
  ghost predicate MayGo(m: Machine, names: seq<string>) {
    && ReplaceKey in m.annotations && Means(m.annotations[ReplaceKey], names)
    && !m.deleting && !m.controlPlane && !IsMarked(m) && !IsPaused(m) && !IsOptedOut(m) && m.ownedByMachineSet
  }

  function ReplaceStatus(m: Machine): string { Value(m.annotations, ReplaceStatusKey) }

  ghost predicate GoodDeletion(digest: Digest, h: History, x: Deletion) {
    && MayGo(x.target, x.names) && ReplaceStatus(x.target) == STATUS_REPLACING
    && Covers(x.devices, x.names) && SawActive(h, x.pass, x.target.cluster)
    && (forall d :: d in x.devices ==> SawBlocking(digest, h, x.pass, d))
    && (x.untouched ==> forall d :: d in x.devices ==> InPlace(digest, x.rules, d))
  }

  /** A write of the status moves the request forward, and writes nothing else:
      to quarantining from no status the operator sets, on to replacing, to a
      rejection from anything but a rejection, and off once the request was
      withdrawn. */
  ghost predicate Forward(x: StatusWrite) {
    var s, s' := ReplaceStatus(x.before), ReplaceStatus(x.after);
    && x.after == WithStatus(x.before, s').(version := x.after.version)
    && (ReplaceKey in x.before.annotations <==> s' != "")
    && (s' != "" ==> !IsRejected(s))
    && (s' == "" || s' == STATUS_QUARANTINING || s' == STATUS_REPLACING || IsRejected(s'))
    && (s' == STATUS_QUARANTINING ==> s != STATUS_REPLACING)
    && (s' == STATUS_REPLACING ==> s == STATUS_QUARANTINING)
  }

  /** The status of a Machine with a request is written for a selected Cluster,
      and unless it is a rejection, for one that is not paused. */
  ghost predicate MayWrite(h: History, x: StatusWrite) {
    && Forward(x)
    && (ReplaceKey in x.before.annotations ==> SawSelected(h, x.pass, x.before.cluster))
    && (ReplaceStatus(x.after) == STATUS_QUARANTINING || ReplaceStatus(x.after) == STATUS_REPLACING ==>
          SawActive(h, x.pass, x.before.cluster))
  }

  ghost predicate GoodRule(digest: Digest, r: Rule) {
    r.name == RuleName(digest, r.device) && r.effect == "NoSchedule" && r.managedBy == "nvsentinel-capi-remediator"
  }

  /** The rule was made for a Machine of a Cluster that the pass had read as
      selected and not paused. */
  ghost predicate MadeWell(digest: Digest, h: History, x: RuleMade) {
    GoodRule(digest, x.rule) && exists o: Owner :: x.rule.machine == FullName(o) && SawActive(h, x.pass, o.cluster)
  }

  ghost predicate RulesStay(w: World) {
    w.untouched ==>
      && (forall x :: x in w.history.seen ==> x.rule.name in w.rules && w.rules[x.rule.name] == x.rule)
      && (forall x :: x in w.history.created ==> x.rule.name in w.rules && w.rules[x.rule.name] == x.rule)
  }

  ghost predicate GoodHistory(digest: Digest, h: History) {
    && (forall x :: x in h.deletions ==> GoodDeletion(digest, h, x))
    && (forall x :: x in h.statuses ==> MayWrite(h, x))
    && (forall x :: x in h.created ==> MadeWell(digest, h, x))
  }

  ghost predicate NamedRules(rules: map<string, Rule>) { forall n :: n in rules ==> rules[n].name == n }

  ghost predicate SoundWorld(digest: Digest, w: World) {
    Sound(w.store) && NamedRules(w.rules) && RulesStay(w) && GoodHistory(digest, w.history)
  }

  /** What was true of the past stays true of it, and unless someone else
      changes or deletes one, every rule stays as it was. */
  ghost predicate Later(w: World, v: World) {
    && w.store.past <= v.store.past && v.pass == w.pass && w.history.seen <= v.history.seen && w.history.clusters <= v.history.clusters
    && (v.untouched ==> w.untouched && forall n :: n in w.rules ==> n in v.rules && v.rules[n] == w.rules[n])
  }

  ghost predicate SameActs(h: History, g: History) {
    g.deletions == h.deletions && g.statuses == h.statuses && g.created == h.created
  }

  lemma MoreSeenKeepsGood(digest: Digest, h: History, g: History)
    requires GoodHistory(digest, h) && SameActs(h, g) && h.seen <= g.seen && h.clusters <= g.clusters
    ensures GoodHistory(digest, g)
  {
    hide Forward, GoodRule, MayGo, FullName;
    forall x | x in g.created ensures MadeWell(digest, g, x) {
      assert MadeWell(digest, h, x);
    }
  }

  // ------------------------------------------------------- the environment

  lemma EditKeepsSound(digest: Digest, w: World, e: WorldEdit)
    requires SoundWorld(digest, w)
    ensures SoundWorld(digest, EditWorld(w, e)) && Later(w, EditWorld(w, e)) && EditWorld(w, e).history == w.history
  {
    if e.EditMachine? {
      EditsKeepSound(w.store, [e.edit]);
    }
  }

  lemma {:induction false} EditsKeepWorld(digest: Digest, w: World, edits: seq<WorldEdit>)
    requires SoundWorld(digest, w)
    ensures SoundWorld(digest, EditAll(w, edits)) && Later(w, EditAll(w, edits)) && EditAll(w, edits).history == w.history
    decreases |edits|
  {
    if edits != [] {
      EditKeepsSound(digest, w, edits[0]);
      EditsKeepWorld(digest, EditWorld(w, edits[0]), edits[1..]);
    }
  }

  lemma ArriveKeepsSound(digest: Digest, w: World)
    requires SoundWorld(digest, w)
    ensures
      var v := Arrive(w).w;
      SoundWorld(digest, v) && Later(w, v) && v.history == w.history
  {
    if w.alive && w.env != [] {
      EditsKeepWorld(digest, w.(env := w.env[1..]), w.env[0].edits);
    }
  }

  // --------------------------------------------------------------- the calls

  /** A call that only reads. */
  ghost predicate OnlyReads(digest: Digest, w: World, v: World) {
    SoundWorld(digest, v) && Later(w, v) && SameActs(w.history, v.history)
  }

  lemma GetsKeepSound(digest: Digest, w: World, name: string)
    requires SoundWorld(digest, w)
    ensures OnlyReads(digest, w, GetCluster(w, name).0)
    ensures OnlyReads(digest, w, FindDevices(w).0)
    ensures OnlyReads(digest, w, FindKind(w).0)
    ensures
      var (v, r) := GetCluster(w, name);
      r.Ok? ==> ClusterRead(w.pass, name, Some(r.value)) in v.history.clusters
  {
    ArriveKeepsSound(digest, w);
    hide GoodHistory;
    MoreSeenKeepsGood(digest, Arrive(w).w.history, GetCluster(w, name).0.history);
  }

  lemma GetMachineKeepsSound(digest: Digest, w: World, name: string)
    requires SoundWorld(digest, w)
    ensures
      var (v, r) := GetMachine(w, name);
      OnlyReads(digest, w, v) && (r.Ok? ==> r.value in v.store.past)
  {
    ArriveKeepsSound(digest, w);
  }

  lemma NotedKeepsSound(digest: Digest, w: World, rules: set<Rule>)
    requires SoundWorld(digest, w) && forall r :: r in rules ==> r.name in w.rules && w.rules[r.name] == r
    ensures OnlyReads(digest, w, Noted(w, rules))
    ensures forall r :: r in rules ==> RuleRead(w.pass, r) in Noted(w, rules).history.seen
  {
    MoreSeenKeepsGood(digest, w.history, Noted(w, rules).history);
  }

  lemma GetRuleKeepsSound(digest: Digest, w: World, name: string)
    requires SoundWorld(digest, w)
    ensures
      var (v, r) := GetRule(w, name);
      OnlyReads(digest, w, v) && (r.Ok? ==> r.value.name == name && RuleRead(w.pass, r.value) in v.history.seen)
  {
    ArriveKeepsSound(digest, w);
    var a := Arrive(w);
    if a.fate.Serve? && name in a.w.rules {
      NotedKeepsSound(digest, a.w, {a.w.rules[name]});
    }
  }

  lemma ListRulesKeepsSound(digest: Digest, w: World, machineLabel: string, namespaceLabel: string)
    requires SoundWorld(digest, w)
    ensures
      var (v, r) := ListRules(w, machineLabel, namespaceLabel);
      OnlyReads(digest, w, v) && (r.Ok? ==> forall x :: x in r.value ==> RuleRead(w.pass, x) in v.history.seen)
  {
    ArriveKeepsSound(digest, w);
    var a := Arrive(w);
    if a.fate.Serve? {
      var listed := set n | n in a.w.rules && Labelled(a.w.rules[n], machineLabel, namespaceLabel) ::
                      a.w.rules[n].(name := n);
      NotedKeepsSound(digest, a.w, listed);
    }
  }

  /** A call that makes at most rules. */
  ghost predicate OnlyMakesRules(digest: Digest, w: World, v: World) {
    && SoundWorld(digest, v) && Later(w, v)
    && v.history.deletions == w.history.deletions && v.history.statuses == w.history.statuses
  }

  lemma CreateRuleKeepsSound(digest: Digest, w: World, rule: Rule)
    requires SoundWorld(digest, w) && MadeWell(digest, w.history, RuleMade(w.pass, rule))
    ensures OnlyMakesRules(digest, w, CreateRule(w, rule).0)
  {
    ArriveKeepsSound(digest, w);
    var a := Arrive(w);
    if a.Served() && rule.name !in a.w.rules {
      CreatedKeepsGood(digest, a.w.history, RuleMade(w.pass, rule));
    }
  }

  /** More acts leave what was good of the others. */
  lemma ActsAreApart(digest: Digest, h: History, g: History)
    requires g.seen == h.seen && g.clusters == h.clusters
    ensures forall x :: GoodDeletion(digest, h, x) ==> GoodDeletion(digest, g, x)
    ensures forall x :: MayWrite(h, x) ==> MayWrite(g, x)
    ensures forall x :: MadeWell(digest, h, x) ==> MadeWell(digest, g, x)
  {
    hide Forward, GoodRule, MayGo, FullName;
    forall x | MadeWell(digest, h, x) ensures MadeWell(digest, g, x) {
      var o: Owner :| x.rule.machine == FullName(o) && SawActive(h, x.pass, o.cluster);
      assert SawActive(g, x.pass, o.cluster);
    }
  }

  lemma CreatedKeepsGood(digest: Digest, h: History, x: RuleMade)
    requires GoodHistory(digest, h) && MadeWell(digest, h, x)
    ensures GoodHistory(digest, h.(created := h.created + {x}))
  {
    hide MadeWell, GoodDeletion, MayWrite;
    ActsAreApart(digest, h, h.(created := h.created + {x}));
  }

  lemma StatusKeepsGood(digest: Digest, h: History, x: StatusWrite)
    requires GoodHistory(digest, h) && MayWrite(h, x)
    ensures GoodHistory(digest, h.(statuses := h.statuses + {x}))
  {
    hide MadeWell, GoodDeletion, MayWrite;
    ActsAreApart(digest, h, h.(statuses := h.statuses + {x}));
  }

  lemma DeletionKeepsGood(digest: Digest, h: History, x: Deletion)
    requires GoodHistory(digest, h) && GoodDeletion(digest, h, x)
    ensures GoodHistory(digest, h.(deletions := h.deletions + {x}))
  {
    hide MadeWell, GoodDeletion, MayWrite;
    ActsAreApart(digest, h, h.(deletions := h.deletions + {x}));
  }

  lemma PatchStatusKeepsSound(digest: Digest, w: World, seen: Machine, status: string)
    requires SoundWorld(digest, w) && seen in w.store.past
    requires forall v :: MayWrite(w.history, StatusWrite(w.pass, seen, WithStatus(seen, status).(version := v)))
    ensures
      var (v, r) := PatchStatus(w, seen, WithStatus(seen, status));
      && SoundWorld(digest, v) && Later(w, v) && v.history.deletions == w.history.deletions
      && (r.Ok? ==> r.value in v.store.past && r.value == WithStatus(seen, status).(version := r.value.version))
  {
    hide SoundWorld, Arrive, WithStatus, MayWrite;
    ArriveKeepsSound(digest, w);
    var a := Arrive(w);
    if a.Served() && Locked(a.w.store, seen).None? {
      StoreIsSound(digest, a.w);
      LockedHitsWhatWasSeen(a.w.store, seen);
      StatusWriteKeepsSound(digest, a.w, seen, WithStatus(seen, status));
    }
  }

  lemma StoreIsSound(digest: Digest, w: World)
    requires SoundWorld(digest, w)
    ensures Sound(w.store)
  {
  }

  lemma StatusWriteKeepsSound(digest: Digest, w: World, seen: Machine, updated: Machine)
    requires SoundWorld(digest, w) && MayWrite(w.history, StatusWrite(w.pass, seen, Stamped(w.store, updated)))
    ensures
      var x := StatusWrite(w.pass, seen, Stamped(w.store, updated));
      SoundWorld(digest, w.(store := Put(w.store, updated), history := w.history.(statuses := w.history.statuses + {x})))
  {
    PutKeepsSound(w.store, updated);
    StatusKeepsGood(digest, w.history, StatusWrite(w.pass, seen, Stamped(w.store, updated)));
    hide MayWrite, GoodHistory;
  }

  /** A deletion that succeeds hits the very Machine that was judged, however
      stale the read was. */
  lemma DeleteMachineKeepsSound(digest: Digest, w: World, seen: Machine, names: seq<string>, devices: seq<Device>)
    requires SoundWorld(digest, w) && seen in w.store.past
    requires MayGo(seen, names) && ReplaceStatus(seen) == STATUS_REPLACING && Covers(devices, names)
    requires SawActive(w.history, w.pass, seen.cluster) && forall d :: d in devices ==> SawBlocking(digest, w.history, w.pass, d)
    ensures SoundWorld(digest, DeleteMachine(w, seen, names, devices).0)
    ensures Later(w, DeleteMachine(w, seen, names, devices).0)
  {
    hide SoundWorld, Arrive, MayGo, SawBlocking, Covers, ReplaceStatus;
    ArriveKeepsSound(digest, w);
    var a := Arrive(w);
    if a.Served() && Locked(a.w.store, seen).None? {
      StoreIsSound(digest, a.w);
      LockedHitsWhatWasSeen(a.w.store, seen);
      forall d | d in devices ensures SawBlocking(digest, a.w.history, w.pass, d) {
        SawStays(digest, w.history, a.w.history, w.pass, d);
      }
      DeletionIsGood(digest, a.w, seen, names, devices);
    }
  }

  lemma DeletionIsGood(digest: Digest, w: World, m: Machine, names: seq<string>, devices: seq<Device>)
    requires SoundWorld(digest, w) && MayGo(m, names) && ReplaceStatus(m) == STATUS_REPLACING && Covers(devices, names)
    requires SawActive(w.history, w.pass, m.cluster) && forall d :: d in devices ==> SawBlocking(digest, w.history, w.pass, d)
    ensures
      var x := Deletion(w.pass, m, names, devices, w.rules, w.untouched);
      SoundWorld(digest, w.(store := Put(w.store, m.(deleting := true)),
                            history := w.history.(deletions := w.history.deletions + {x})))
  {
    hide MayGo, ReplaceStatus, Covers;
    PutKeepsSound(w.store, m.(deleting := true));
    var x := Deletion(w.pass, m, names, devices, w.rules, w.untouched);
    assert GoodDeletion(digest, w.history, x);
    DeletionKeepsGood(digest, w.history, x);
  }

  // --------------------------------------------------------------- the rules

  lemma CheckKeepsSound(cfg: Config, w: World, d: Device)
    requires SoundWorld(cfg.digest, w)
    ensures
      var (v, e) := CheckRule(cfg, w, d);
      OnlyReads(cfg.digest, w, v) && (e.None? ==> SawBlocking(cfg.digest, v.history, w.pass, d))
  {
    hide SoundWorld;
    GetRuleKeepsSound(cfg.digest, w, RuleName(cfg.digest, d));
  }

  lemma ExistsKeepsSound(cfg: Config, w: World, d: Device)
    requires SoundWorld(cfg.digest, w)
    ensures
      var (v, r) := Exists(cfg, w, d);
      OnlyReads(cfg.digest, w, v) && (r == Ok(true) ==> SawBlocking(cfg.digest, v.history, w.pass, d))
  {
    hide SoundWorld, SawBlocking, CheckRule;
    GetsKeepSound(cfg.digest, w, "");
    CheckKeepsSound(cfg, FindKind(w).0, d);
  }

  lemma EnsureKeepsSound(cfg: Config, w: World, d: Device, o: Owner)
    requires SoundWorld(cfg.digest, w) && SawActive(w.history, w.pass, o.cluster)
    ensures OnlyMakesRules(cfg.digest, w, Ensure(cfg, w, d, o).0)
  {
    hide SoundWorld, CheckRule, CreateRule, RuleName;
    GetsKeepSound(cfg.digest, w, "");
    var w1 := FindKind(w).0;
    assert RuleFor(cfg, d, o, w1.now).machine == FullName(o) && SawActive(w1.history, w1.pass, o.cluster);
    CreateRuleKeepsSound(cfg.digest, w1, RuleFor(cfg, d, o, w1.now));
    CheckKeepsSound(cfg, CreateRule(w1, RuleFor(cfg, d, o, w1.now)).0, d);
  }

  lemma {:induction false} EnsureAllKeepsSound(cfg: Config, w: World, ds: seq<Device>, o: Owner)
    requires SoundWorld(cfg.digest, w) && SawActive(w.history, w.pass, o.cluster)
    ensures OnlyMakesRules(cfg.digest, w, EnsureAll(cfg, w, ds, o).0)
  {
    hide SoundWorld, Ensure;
    if ds != [] {
      var n := |ds| - 1;
      EnsureAllKeepsSound(cfg, w, ds[..n], o);
      EnsureKeepsSound(cfg, EnsureAll(cfg, w, ds[..n], o).0, ds[n], o);
    }
  }

  lemma SawStays(digest: Digest, h: History, g: History, pass: nat, d: Device)
    requires SawBlocking(digest, h, pass, d) && h.seen <= g.seen
    ensures SawBlocking(digest, g, pass, d)
  {
  }

  /** Reading the rules back finds a blocking rule for every device, or ends. */
  lemma {:induction false} ReadAllKeepsSound(cfg: Config, w: World, ds: seq<Device>)
    requires SoundWorld(cfg.digest, w)
    ensures
      var (v, r) := ReadAll(cfg, w, ds);
      OnlyReads(cfg.digest, w, v) && (r.AllThere? ==> forall d :: d in ds ==> SawBlocking(cfg.digest, v.history, w.pass, d))
  {
    hide SoundWorld, SawBlocking, Exists;
    if ds != [] {
      var n := |ds| - 1;
      ReadAllKeepsSound(cfg, w, ds[..n]);
      var w1, w2 := ReadAll(cfg, w, ds[..n]).0, ReadAll(cfg, w, ds).0;
      ExistsKeepsSound(cfg, w1, ds[n]);
      if ReadAll(cfg, w, ds).1.AllThere? {
        forall d | d in ds ensures SawBlocking(cfg.digest, w2.history, w.pass, d) {
          if d in ds[..n] { SawStays(cfg.digest, w1.history, w2.history, w.pass, d); } else { assert d == ds[n]; }
        }
      }
    }
  }

  lemma OfKeepsSound(cfg: Config, w: World, o: Owner)
    requires SoundWorld(cfg.digest, w)
    ensures
      var (v, r) := Of(cfg, w, o);
      OnlyReads(cfg.digest, w, v) && (r.Ok? ==> forall d :: d in r.value ==> SawBlocking(cfg.digest, v.history, w.pass, d))
  {
    hide SoundWorld, ListRules, DevicesOf, SawBlocking;
    GetsKeepSound(cfg.digest, w, "");
    var w1 := FindKind(w).0;
    ListRulesKeepsSound(cfg.digest, w1, cfg.shorten(o.name), cfg.shorten(o.namespace));
    var (v, r) := ListRules(w1, cfg.shorten(o.name), cfg.shorten(o.namespace));
    if r.Ok? {
      ListedWereSeen(cfg, r.value, o, v.history, w.pass);
    }
  }

  lemma ListedWereSeen(cfg: Config, listed: set<Rule>, o: Owner, h: History, pass: nat)
    requires forall x :: x in listed ==> RuleRead(pass, x) in h.seen
    ensures forall d :: d in DevicesOf(cfg, listed, o) ==> SawBlocking(cfg.digest, h, pass, d)
  {
    hide DevicesOf, RuleName;
    forall d | d in DevicesOf(cfg, listed, o) ensures SawBlocking(cfg.digest, h, pass, d) {
      var x :| x in listed && MadeFor(cfg, x, o) && x.device == d;
      assert RuleRead(pass, x) in h.seen;
    }
  }

  // -------------------------------------------------------------- the status

  ghost predicate Kept(digest: Digest, w: World, v: World) {
    SoundWorld(digest, v) && Later(w, v)
  }

  /** A status the pass may move the Machine to. */
  ghost predicate MayBecome(h: History, pass: nat, m: Machine, status: string) {
    && (ReplaceKey in m.annotations ==> SawSelected(h, pass, m.cluster))
    && (status == STATUS_QUARANTINING || status == STATUS_REPLACING ==> SawActive(h, pass, m.cluster))
    && (ReplaceKey in m.annotations <==> status != "")
    && (status != "" ==> !IsRejected(ReplaceStatus(m)))
    && (status == "" || status == STATUS_QUARANTINING || status == STATUS_REPLACING || IsRejected(status))
    && (status == STATUS_QUARANTINING ==> ReplaceStatus(m) != STATUS_REPLACING)
    && (status == STATUS_REPLACING ==> ReplaceStatus(m) == STATUS_QUARANTINING)
  }

  lemma SetStatusKeepsSound(digest: Digest, w: World, m: Machine, status: string)
    requires SoundWorld(digest, w) && m in w.store.past && (MayBecome(w.history, w.pass, m, status) || ReplaceStatus(m) == status != "")
    ensures
      var (v, m', e) := SetStatus(w, m, status);
      && Kept(digest, w, v) && v.history.deletions == w.history.deletions && m' in v.store.past
      && (e.None? ==> ReplaceStatus(m') == status && (status != "" ==> m' == WithStatus(m, status).(version := m'.version)))
      && (e.Some? ==> m' == m)
  {
    if ReplaceStatus(m) == status != "" {
      assert m == WithStatus(m, status);
    } else if ReplaceStatusKey in m.annotations || status != "" {
      forall v ensures MayWrite(w.history, StatusWrite(w.pass, m, WithStatus(m, status).(version := v))) {
        assert ReplaceStatus(WithStatus(m, status).(version := v)) == status;
      }
      PatchStatusKeepsSound(digest, w, m, status);
    }
  }

  lemma RejectKeepsSound(cfg: Config, w: World, m: Machine, reason: Reason)
    requires SoundWorld(cfg.digest, w) && m in w.store.past && ReplaceKey in m.annotations && !IsRejected(ReplaceStatus(m))
    requires SawSelected(w.history, w.pass, m.cluster)
    ensures Kept(cfg.digest, w, RejectRequest(cfg, w, m, reason).0)
    ensures RejectRequest(cfg, w, m, reason).0.history.deletions == w.history.deletions
  {
    hide SoundWorld;
    if !cfg.dryRun {
      StatusesDiffer(reason);
      SetStatusKeepsSound(cfg.digest, w, m, RejectedStatus(reason));
    }
  }

  lemma FailKeepsSound(cfg: Config, w: World, m: Machine, e: Error)
    requires SoundWorld(cfg.digest, w) && m in w.store.past && ReplaceKey in m.annotations && !IsRejected(ReplaceStatus(m))
    requires SawSelected(w.history, w.pass, m.cluster)
    ensures Kept(cfg.digest, w, FailWith(cfg, w, m, e).0)
    ensures FailWith(cfg, w, m, e).0.history.deletions == w.history.deletions
  {
    hide SoundWorld, RejectRequest;
    if e.Rejection? { RejectKeepsSound(cfg, w, m, e.reason); }
    if e == Api(ForbiddenCall) { RejectKeepsSound(cfg, w, m, Forbidden); }
  }

  // --------------------------------------------------------------- the pass

  /** What the deletion asks of what the pass has. */
  ghost predicate ReadyToGo(digest: Digest, w: World, m: Machine, names: seq<string>, devices: seq<Device>) {
    && m in w.store.past && MayGo(m, names) && ReplaceStatus(m) == STATUS_REPLACING && Covers(devices, names)
    && SawActive(w.history, w.pass, m.cluster)
    && forall d :: d in devices ==> SawBlocking(digest, w.history, w.pass, d)
  }

  lemma DeleteKeepsSound(cfg: Config, w: World, m: Machine, names: seq<string>, devices: seq<Device>)
    requires SoundWorld(cfg.digest, w) && ReadyToGo(cfg.digest, w, m, names, devices)
    ensures Kept(cfg.digest, w, DeleteFor(cfg, w, m, names, devices).0)
  {
    hide SoundWorld, FailWith, SawBlocking;
    StatusesDiffer(Forbidden);
    DeleteMachineKeepsSound(cfg.digest, w, m, names, devices);
    var (v, r) := DeleteMachine(w, m, names, devices);
    if r.Err? { FailKeepsSound(cfg, v, m, r.error); }
  }

  lemma MayGoWith(m: Machine, m': Machine, names: seq<string>, status: string)
    requires MayGo(m, names) && m' == WithStatus(m, status).(version := m'.version)
    ensures MayGo(m', names) && m'.cluster == m.cluster
  {
  }

  ghost predicate StepKept(digest: Digest, w: World, step: Step, names: seq<string>) {
    && Kept(digest, w, step.w)
    && (step.Ready? ==> ReadyToGo(digest, step.w, step.m, names, step.devices))
  }

  lemma TaintedKeepsSound(cfg: Config, w: World, m: Machine, names: seq<string>, devices: seq<Device>, status: string)
    requires SoundWorld(cfg.digest, w) && m in w.store.past && MayGo(m, names) && Covers(devices, names)
    requires SawActive(w.history, w.pass, m.cluster)
    requires ReplaceStatus(m) == (if status == STATUS_REPLACING then STATUS_REPLACING else STATUS_QUARANTINING)
    ensures StepKept(cfg.digest, w, Tainted(cfg, w, m, devices, status), names)
  {
    hide SoundWorld, EnsureAll, ReadAll, FailWith, SetStatus, SawBlocking, Requested;
    StatusesDiffer(Forbidden);
    var o := OwnerOf(m);
    EnsureAllKeepsSound(cfg, w, devices, o);
    var (w1, e1) := EnsureAll(cfg, w, devices, o);
    if e1.Some? {
      FailKeepsSound(cfg, w1, m, e1.value);
    } else {
      ReadAllKeepsSound(cfg, w1, devices);
      var (w2, back) := ReadAll(cfg, w1, devices);
      if back.Unread? {
        FailKeepsSound(cfg, w2, m, back.error);
      } else if back.AllThere? && status != STATUS_REPLACING {
        WriteDownReplacing(cfg, w2, m, names, devices);
        var (w3, m3, e3) := SetStatus(w2, m, STATUS_REPLACING);
        assert Later(w, w3);
        assert Tainted(cfg, w, m, devices, status) == if e3.Some? then Ended(w3, e3) else Ready(w3, m3, devices);
      } else if back.AllThere? {
        assert w2.pass == w.pass;
        assert ReadyToGo(cfg.digest, w2, m, names, devices);
      }
    }
  }

  lemma WriteDownReplacing(cfg: Config, w: World, m: Machine, names: seq<string>, devices: seq<Device>)
    requires SoundWorld(cfg.digest, w) && m in w.store.past && MayGo(m, names) && Covers(devices, names)
    requires SawActive(w.history, w.pass, m.cluster)
    requires ReplaceStatus(m) == STATUS_QUARANTINING && forall d :: d in devices ==> SawBlocking(cfg.digest, w.history, w.pass, d)
    ensures
      var (v, m', e) := SetStatus(w, m, STATUS_REPLACING);
      Kept(cfg.digest, w, v) && (e.None? ==> ReadyToGo(cfg.digest, v, m', names, devices))
  {
    hide SoundWorld, SetStatus, SawBlocking, Requested;
    StatusesDiffer(Forbidden);
    SetStatusKeepsSound(cfg.digest, w, m, STATUS_REPLACING);
    var (v, m', e) := SetStatus(w, m, STATUS_REPLACING);
    if e.None? {
      MayGoWith(m, m', names, STATUS_REPLACING);
      forall d | d in devices ensures SawBlocking(cfg.digest, v.history, v.pass, d) {
        SawStays(cfg.digest, w.history, v.history, w.pass, d);
      }
    }
  }

  lemma GoingIsAsked(m: Machine, names: seq<string>)
    requires MayGo(m, names)
    ensures ReplaceKey in m.annotations
  {
  }

  lemma QuarantineKeepsSound(cfg: Config, w: World, m: Machine, names: seq<string>)
    requires SoundWorld(cfg.digest, w) && m in w.store.past && MayGo(m, names) && !IsRejected(ReplaceStatus(m))
    requires SawActive(w.history, w.pass, m.cluster)
    ensures StepKept(cfg.digest, w, Quarantine(cfg, w, m, names, ReplaceStatus(m)), names)
  {
    hide SoundWorld, FailWith, SetStatus, Tainted, Requested, Selected, Covers, FindDevices, MayGo, ReadyToGo, IsRejected, ReplaceStatus;
    assert ReplaceKey in m.annotations by { GoingIsAsked(m, names); }
    GetsKeepSound(cfg.digest, w, "");
    var (w1, held) := FindDevices(w);
    if held.Err? {
      FailKeepsSound(cfg, w1, m, held.error);
    } else {
      var selected := Selected(held.value, cfg.drivers, names);
      if selected.Err? {
        FailKeepsSound(cfg, w1, m, Rejection(selected.error));
      } else if !cfg.dryRun {
        SelectedCovers(held.value, cfg.drivers, names);
        DevicesTakenOn(cfg, w1, m, names, selected.value);
      }
    }
  }

  lemma DevicesTakenOn(cfg: Config, w: World, m: Machine, names: seq<string>, devices: seq<Device>)
    requires SoundWorld(cfg.digest, w) && m in w.store.past && MayGo(m, names) && !IsRejected(ReplaceStatus(m)) && Covers(devices, names)
    requires SawActive(w.history, w.pass, m.cluster)
    ensures
      var status := ReplaceStatus(m);
      var (w2, m2, e2) := if status != STATUS_REPLACING then SetStatus(w, m, STATUS_QUARANTINING) else (w, m, None);
      StepKept(cfg.digest, w, if e2.Some? then Ended(w2, e2) else Tainted(cfg, w2, m2, devices, status), names)
  {
    hide SoundWorld, SetStatus, Tainted, Covers, MayGo, ReadyToGo;
    assert ReplaceKey in m.annotations by { GoingIsAsked(m, names); }
    if ReplaceStatus(m) == STATUS_REPLACING {
      TaintedKeepsSound(cfg, w, m, names, devices, ReplaceStatus(m));
    } else {
      StatusesDiffer(Forbidden);
      SetStatusKeepsSound(cfg.digest, w, m, STATUS_QUARANTINING);
      var (w2, m2, e2) := SetStatus(w, m, STATUS_QUARANTINING);
      if e2.None? {
        MayGoWith(m, m2, names, STATUS_QUARANTINING);
        TaintedKeepsSound(cfg, w2, m2, names, devices, ReplaceStatus(m));
      }
    }
  }

  lemma CarryOutKeepsSound(cfg: Config, w: World, m: Machine, names: seq<string>)
    requires SoundWorld(cfg.digest, w) && m in w.store.past && MayGo(m, names) && !IsRejected(ReplaceStatus(m))
    requires SawActive(w.history, w.pass, m.cluster)
    ensures Kept(cfg.digest, w, CarryOut(cfg, w, m, names, ReplaceStatus(m)).0)
  {
    hide SoundWorld, FailWith, Quarantine, DeleteFor, Of, Requested, Covers, SawBlocking;
    OfKeepsSound(cfg, w, OwnerOf(m));
    var (w1, r) := Resumed(cfg, w, m, names, ReplaceStatus(m));
    if r.Err? {
      FailKeepsSound(cfg, w1, m, r.error);
    } else if r.value.Some? {
      DeleteKeepsSound(cfg, w1, m, names, r.value.value);
    } else {
      QuarantineKeepsSound(cfg, w1, m, names);
      var step := Quarantine(cfg, w1, m, names, ReplaceStatus(m));
      if step.Ready? { DeleteKeepsSound(cfg, step.w, step.m, names, step.devices); }
    }
  }

  lemma ReplaceKeepsSound(cfg: Config, w: World, m: Machine)
    requires SoundWorld(cfg.digest, w) && m in w.store.past
    ensures Kept(cfg.digest, w, Replace(cfg, w, m).0)
  {
    hide SoundWorld, FailWith, RejectRequest, CarryOut, Requested, SetStatus, GetCluster, Means;
    var status := ReplaceStatus(m);
    if !m.deleting && ReplaceKey !in m.annotations && status != "" {
      SetStatusKeepsSound(cfg.digest, w, m, "");
    } else if !m.deleting && ReplaceKey in m.annotations && !IsRejected(status) {
      GetsKeepSound(cfg.digest, w, m.cluster);
      var (w1, r) := GetCluster(w, m.cluster);
      if r.Ok? && r.value.selected {
        var guard := GuardReplace(r.value, m);
        var names := Requested(m.annotations[ReplaceKey]);
        assert r.value == ClusterInfo(r.value.paused, true);
        if guard.Some? {
          RejectKeepsSound(cfg, w1, m, guard.value);
        } else if names.Err? {
          FailKeepsSound(cfg, w1, m, Rejection(names.error));
        } else {
          RequestedMeans(m.annotations[ReplaceKey], names.value);
          CarryOutKeepsSound(cfg, w1, m, names.value);
        }
      }
    }
  }

  lemma ReconciledKeepsSound(cfg: Config, w: World, name: string)
    requires SoundWorld(cfg.digest, w)
    ensures Kept(cfg.digest, w, Reconciled(cfg, w, name).0)
  {
    hide SoundWorld, Replace;
    GetMachineKeepsSound(cfg.digest, w, name);
    var (w1, r) := GetMachine(w, name);
    if r.Ok? { ReplaceKeepsSound(cfg, w1, r.value); }
  }

  // -------------------------------------------------------------------- runs

  // One pass of a run: what others do before it, what becomes of its calls, its
  // settings, and the Machine it is for.
  datatype Round = Round(edits: seq<WorldEdit>, turns: seq<Turn>, cfg: Config, name: string)

  function Begin(w: World, r: Round): World {
    EditAll(w, r.edits).(env := r.turns, alive := true, pass := w.pass + 1)
  }

  ghost function RunOn(w: World, r: Round): World { Reconciled(r.cfg, Begin(w, r), r.name).0 }

  /** The operator was never at work; rules of others may be there. */
  ghost predicate Fresh(w: World) {
    Sound(w.store) && NamedRules(w.rules) && w.history == History({}, {}, {}, {}, {})
  }

  ghost predicate IsRun(digest: Digest, run: seq<World>, rounds: seq<Round>) {
    && |run| == |rounds| + 1 && Fresh(run[0])
    && forall i :: 0 <= i < |rounds| ==> rounds[i].cfg.digest == digest && run[i + 1] == RunOn(run[i], rounds[i])
  }

  /** Unless someone else changed or deleted a rule, every rule is as it was. */
  ghost predicate OnlyAdded(w: World, v: World) {
    v.untouched ==> w.untouched && forall n :: n in w.rules ==> n in v.rules && v.rules[n] == w.rules[n]
  }

  lemma RoundKeepsSound(digest: Digest, w: World, r: Round)
    requires SoundWorld(digest, w) && r.cfg.digest == digest
    ensures SoundWorld(digest, RunOn(w, r))
    ensures OnlyAdded(w, RunOn(w, r))
  {
    hide Reconciled;
    EditsKeepWorld(digest, w, r.edits);
    assert SoundWorld(digest, Begin(w, r));
    hide SoundWorld;
    ReconciledKeepsSound(r.cfg, Begin(w, r), r.name);
  }

  lemma {:induction false} RunIsSound(digest: Digest, run: seq<World>, rounds: seq<Round>, i: nat)
    requires IsRun(digest, run, rounds) && i < |run|
    ensures SoundWorld(digest, run[i])
  {
    if i > 0 {
      RunIsSound(digest, run, rounds, i - 1);
      RoundKeepsSound(digest, run[i - 1], rounds[i - 1]);
    }
  }

  /** In every run, for whatever digest names the rules and whatever stale
      version of the Machine a pass read: a deletion that the server carried out
      hit a Machine whose request at that moment is the one carried out, which
      none of its own guards kept, in status replacing; the devices seen to
      cover the request, the pass read a blocking rule for each of them, and
      unless someone else changed or deleted a rule they all are in place. The
      pass had read the Machine's Cluster as selected and not paused. */
  lemma DeletesOnlyTheQuarantined(digest: Digest, run: seq<World>, rounds: seq<Round>, i: nat, x: Deletion)
    requires IsRun(digest, run, rounds) && i < |run| && x in run[i].history.deletions
    ensures ReplaceKey in x.target.annotations && Means(x.target.annotations[ReplaceKey], x.names)
    ensures !x.target.deleting && !x.target.controlPlane && x.target.ownedByMachineSet
    ensures !IsMarked(x.target) && !IsPaused(x.target) && !IsOptedOut(x.target)
    ensures Value(x.target.annotations, ReplaceStatusKey) == STATUS_REPLACING
    ensures x.devices != [] && forall n :: n in x.names ==> exists d :: d in x.devices && d.name == n
    ensures forall d :: d in x.devices ==> SawBlocking(digest, run[i].history, x.pass, d)
    ensures x.untouched ==> forall d :: d in x.devices ==> InPlace(digest, x.rules, d)
    ensures ClusterRead(x.pass, x.target.cluster, Some(ClusterInfo(false, true))) in run[i].history.clusters
  {
    hide Means;
    RunIsSound(digest, run, rounds, i);
    assert GoodDeletion(digest, run[i].history, x);
  }

  /** In every run the operator's writes of the status only move it forward:
      from nothing to quarantining, on to replacing, to a rejection from
      anything but a rejection; a status comes off only once the request was
      withdrawn, a rejection in no other way, and replacing never goes back. */
  lemma StatusOnlyMovesForward(digest: Digest, run: seq<World>, rounds: seq<Round>, i: nat, x: StatusWrite)
    requires IsRun(digest, run, rounds) && i < |run| && x in run[i].history.statuses
    ensures
      var s, s' := ReplaceStatus(x.before), ReplaceStatus(x.after);
      && (s' == "" ==> ReplaceKey !in x.before.annotations)
      && (IsRejected(s) ==> s' == "")
      && (s == STATUS_REPLACING ==> s' == "" || IsRejected(s'))
      && (s' == STATUS_REPLACING ==> s == STATUS_QUARANTINING)
      && (s' != "" ==> s' == STATUS_QUARANTINING || s' == STATUS_REPLACING || IsRejected(s'))
    ensures forall k :: k != ReplaceStatusKey ==>
              (k in x.before.annotations <==> k in x.after.annotations)
              && (k in x.before.annotations ==> x.before.annotations[k] == x.after.annotations[k])
    ensures ReplaceKey in x.before.annotations ==>
              exists c :: ClusterRead(x.pass, x.before.cluster, Some(c)) in run[i].history.clusters && c.selected
                          && (c.paused ==> IsRejected(ReplaceStatus(x.after)))
  {
    RunIsSound(digest, run, rounds, i);
    assert MayWrite(run[i].history, x) && Forward(x);
    StatusesDiffer(Forbidden);
  }

  lemma AddedToItself(w: World)
    ensures OnlyAdded(w, w)
  {
  }

  lemma AddedChains(u: World, v: World, w: World)
    requires OnlyAdded(u, v) && OnlyAdded(v, w)
    ensures OnlyAdded(u, w)
  {
  }

  /** In every run, from one pass to any later one, no rule there was is changed
      or deleted but by someone else. */
  lemma {:induction false} RulesAreOnlyAdded(digest: Digest, run: seq<World>, rounds: seq<Round>, i: nat, j: nat)
    requires IsRun(digest, run, rounds) && i <= j < |run|
    ensures OnlyAdded(run[i], run[j])
    decreases j - i
  {
    hide RunOn, SoundWorld, OnlyAdded, Fresh;
    if i < j {
      RunIsSound(digest, run, rounds, j - 1);
      RoundKeepsSound(digest, run[j - 1], rounds[j - 1]);
      RulesAreOnlyAdded(digest, run, rounds, i, j - 1);
      AddedChains(run[i], run[j - 1], run[j]);
    } else {
      AddedToItself(run[i]);
    }
  }

  /** In every run the rules the operator made for one device have one name and
      block the device, and unless someone else changed or deleted a rule, it
      made just one. */
  lemma OneRulePerDevice(digest: Digest, run: seq<World>, rounds: seq<Round>, i: nat, x: RuleMade, y: RuleMade)
    requires IsRun(digest, run, rounds) && i < |run|
    requires x in run[i].history.created && y in run[i].history.created && x.rule.device == y.rule.device
    ensures
      var r, s := x.rule, y.rule;
      && r.name == s.name == RuleName(digest, r.device) && r.effect == "NoSchedule" && r.managedBy == "nvsentinel-capi-remediator"
      && (run[i].untouched ==> r == s && r.name in run[i].rules && run[i].rules[r.name] == r)
  {
    RunIsSound(digest, run, rounds, i);
    assert MadeWell(digest, run[i].history, x) && MadeWell(digest, run[i].history, y);
  }

  /** In every run a rule is made for a Machine of a Cluster that the pass had
      read as selected and not paused. */
  lemma RulesAreForSelectedClusters(digest: Digest, run: seq<World>, rounds: seq<Round>, i: nat, x: RuleMade) returns (o: Owner)
    requires IsRun(digest, run, rounds) && i < |run| && x in run[i].history.created
    ensures x.rule.machine == o.namespace + "/" + o.name
    ensures ClusterRead(x.pass, o.cluster, Some(ClusterInfo(false, true))) in run[i].history.clusters
  {
    RunIsSound(digest, run, rounds, i);
    assert MadeWell(digest, run[i].history, x);
    o :| x.rule.machine == FullName(o) && SawActive(run[i].history, x.pass, o.cluster);
  }

  /** In every run, a pass over a requested Machine whose Cluster it reads as not
      selected, or finds or reads none, deletes nothing, makes no rule and writes
      no status. */
  lemma UnselectedIsLeftAlone(digest: Digest, run: seq<World>, rounds: seq<Round>, i: nat)
    requires IsRun(digest, run, rounds) && i < |rounds|
    requires
      var (w, got) := GetMachine(Begin(run[i], rounds[i]), rounds[i].name);
      && got.Ok? && ReplaceKey in got.value.annotations
      && (GetCluster(w, got.value.cluster).1.Err? || !GetCluster(w, got.value.cluster).1.value.selected)
    ensures SameActs(run[i].history, run[i + 1].history)
  {
    hide SoundWorld, GetMachine, GetCluster, CarryOut, RejectRequest, FailWith, Requested;
    RunIsSound(digest, run, rounds, i);
    var w0 := Begin(run[i], rounds[i]);
    EditsKeepWorld(digest, run[i], rounds[i].edits);
    assert SoundWorld(digest, w0) by { BeginIsSound(digest, run[i], rounds[i]); }
    GetMachineKeepsSound(digest, w0, rounds[i].name);
    var (w, got) := GetMachine(w0, rounds[i].name);
    GetsKeepSound(digest, w, got.value.cluster);
  }

  lemma BeginIsSound(digest: Digest, w: World, r: Round)
    requires SoundWorld(digest, w)
    ensures SoundWorld(digest, Begin(w, r))
  {
    EditsKeepWorld(digest, w, r.edits);
  }
}
