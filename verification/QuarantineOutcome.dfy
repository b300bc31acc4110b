// What an undisturbed pass comes to: the Machine is deleted exactly when
// everything its request needs is so, and the request is left alone or rejected
// otherwise, with the reason; and what a pass on a stale read comes to.

module QuarantineOutcome {
  import opened Text
  import opened Machines
  import opened Store
  import opened Devices
  import opened QuarantineWorld
  import opened Quarantines
  import opened QuarantineSafety
  import opened QuarantineRules

  /** The pass has the Machine as the server has it. */
  predicate Synced(w: World, m: Machine) { m.name in w.store.machines && w.store.machines[m.name] == m }

  predicate SameButRules(w: World, v: World) {
    Quiet(v) && v.store == w.store && v.devices == w.devices && v.clusters == w.clusters
  }

  lemma QuietStatus(w: World, m: Machine, status: string)
    requires Quiet(w) && Synced(w, m) && (status != "" || ReplaceStatus(m) != "")
    ensures
      var (v, m', e) := SetStatus(w, m, status);
      && e.None? && Quiet(v) && Synced(v, m') && v.rules == w.rules && v.devices == w.devices && v.clusters == w.clusters
      && m' == WithStatus(m, status).(version := m'.version)
  {
    if ReplaceStatus(m) == status && ReplaceStatusKey in m.annotations {
      assert m == WithStatus(m, status);
    }
  }

  lemma QuietReject(cfg: Config, w: World, m: Machine, reason: Reason)
    requires Quiet(w) && Synced(w, m) && !cfg.dryRun
    ensures
      var (v, e) := RejectRequest(cfg, w, m, reason);
      && e.None? && m.name in v.store.machines && v.store.machines[m.name].deleting == m.deleting
      && ReplaceStatus(v.store.machines[m.name]) == RejectedStatus(reason)
  {
    StatusesDiffer(reason);
    QuietStatus(w, m, RejectedStatus(reason));
    hide SetStatus;
  }

  lemma {:induction false} QuietEnsureAll(cfg: Config, w: World, ds: seq<Device>, o: Owner)
    requires Quiet(w)
    ensures SameButRules(w, EnsureAll(cfg, w, ds, o).0)
  {
    if ds != [] {
      QuietEnsureAll(cfg, w, ds[..|ds| - 1], o);
    }
  }

  lemma {:induction false} QuietReadAll(cfg: Config, w: World, ds: seq<Device>)
    requires Quiet(w) && forall d :: d in ds ==> InPlace(cfg.digest, w.rules, d)
    ensures
      var (v, back) := ReadAll(cfg, w, ds);
      back.AllThere? && SameButRules(w, v) && v.rules == w.rules
  {
    if ds != [] {
      QuietReadAll(cfg, w, ds[..|ds| - 1]);
      assert InPlace(cfg.digest, w.rules, ds[|ds| - 1]);
    }
  }

  /** Every rule of the plan blocks its device. */
  ghost predicate NoRuleInTheWay(cfg: Config, w: World, ds: seq<Device>, o: Owner) {
    forall d :: d in ds ==> InPlace(cfg.digest, Plan(cfg, Undated(w.rules), ds, o), d)
  }

  ghost predicate Gone(w: World, name: string) { name in w.store.machines && w.store.machines[name].deleting }

  ghost predicate Rejected(w: World, name: string, reason: string) {
    && name in w.store.machines && !w.store.machines[name].deleting
    && ReplaceStatus(w.store.machines[name]) == "rejected: " + reason
  }

  lemma QuietTainted(cfg: Config, w: World, m: Machine, ds: seq<Device>, status: string)
    requires Quiet(w) && Synced(w, m) && !cfg.dryRun && !m.deleting
    ensures
      var step := Tainted(cfg, w, m, ds, status);
      if NoRuleInTheWay(cfg, w, ds, OwnerOf(m))
      then step.Ready? && Quiet(step.w) && Synced(step.w, step.m) && step.devices == ds && step.m.name == m.name
      else step.Ended? && step.error.None? && Rejected(step.w, m.name, "DeviceTaintRuleConflict")
  {
    hide EnsureAll, ReadAll, SetStatus, Plan;
    StatusesDiffer(DeviceTaintRuleConflict);
    var o := OwnerOf(m);
    UninterruptedMakesThePlan(cfg, w, ds, o);
    QuietEnsureAll(cfg, w, ds, o);
    var (w1, e1) := EnsureAll(cfg, w, ds, o);
    if e1.Some? {
      QuietRejected(cfg, w1, m, DeviceTaintRuleConflict);
      hide RejectRequest;
    } else {
      forall d | d in ds ensures InPlace(cfg.digest, w1.rules, d) {
        assert InPlace(cfg.digest, Undated(w1.rules), d);
      }
      QuietReadAll(cfg, w1, ds);
      QuietStatus(ReadAll(cfg, w1, ds).0, m, STATUS_REPLACING);
    }
  }

  lemma QuietDelete(cfg: Config, w: World, m: Machine, names: seq<string>, ds: seq<Device>)
    requires Quiet(w) && Synced(w, m)
    ensures
      var (v, e) := DeleteFor(cfg, w, m, names, ds);
      e.None? && Gone(v, m.name)
  {
  }

  /** The devices whose rules were made for the Machine before. */
  ghost function Made(cfg: Config, w: World, m: Machine): seq<Device> {
    var o := OwnerOf(m);
    DevicesOf(cfg, set n | n in w.rules && Labelled(w.rules[n], cfg.shorten(o.name), cfg.shorten(o.namespace)) ::
                     w.rules[n].(name := n), o)
  }

  lemma QuietOf(cfg: Config, w: World, m: Machine)
    requires Quiet(w)
    ensures
      var (v, r) := Of(cfg, w, OwnerOf(m));
      r == Ok(Made(cfg, w, m)) && SameButRules(w, v) && v.rules == w.rules
  {
  }

  /** The request was carried out up to the deletion before, and its rules cover
      it. */
  ghost predicate IsResumed(cfg: Config, w: World, m: Machine, names: seq<string>) {
    ReplaceStatus(m) == STATUS_REPLACING && Covers(Made(cfg, w, m), names)
  }

  /** The devices the request means can be told, and no rule is in the way of
      theirs. */
  ghost predicate CanQuarantine(cfg: Config, w: World, m: Machine, names: seq<string>) {
    && w.devices.Ok? && Selected(w.devices.value, cfg.drivers, names).Ok?
    && NoRuleInTheWay(cfg, w, Selected(w.devices.value, cfg.drivers, names).value, OwnerOf(m))
  }

  /** What the VM holds could not be looked up for now, which says nothing about
      the request. */
  predicate NotNow(w: World) { w.devices.Err? && w.devices.error.Api? && w.devices.error != Api(ForbiddenCall) }

  /** Why a request that nothing forbids is rejected. */
  function WhyNot(cfg: Config, w: World, names: seq<string>): string {
    if w.devices.Err? then (if w.devices.error.Rejection? then w.devices.error.reason.Name() else "Forbidden")
    else if Selected(w.devices.value, cfg.drivers, names).Err? then Selected(w.devices.value, cfg.drivers, names).error.Name()
    else "DeviceTaintRuleConflict"
  }

  /** The first of what stands against any request on the Machine, if anything
      does. */
  function WhyForbidden(cluster: ClusterInfo, m: Machine): string {
    if cluster.paused then "ClusterPaused"
    else if m.controlPlane then "ControlPlaneMachine"
    else if RemediateMachine in m.annotations then "AlreadyMarkedForRemediation"
    else if PausedKey in m.annotations then "MachinePaused"
    else if SkipRemediationKey in m.annotations then "MachineOptedOutOfRemediation"
    else if !m.ownedByMachineSet then "NotReplaceable"
    else ""
  }

  /** What carrying out a request that nothing forbids comes to: the error that
      ends the pass, if any, and what becomes of the Machine. */
  ghost predicate ComesTo(cfg: Config, w: World, m: Machine, names: seq<string>, v: World, e: Option<Error>) {
    if IsResumed(cfg, w, m, names) || CanQuarantine(cfg, w, m, names) then e.None? && Gone(v, m.name)
    else if NotNow(w) then e == Some(w.devices.error) && Synced(v, m)
    else e.None? && Rejected(v, m.name, WhyNot(cfg, w, names))
  }

  /** An undisturbed pass over a request deletes the Machine exactly when its
      Cluster is selected and not paused, no guard of the Machine stands against
      it, the request parses, and it either was carried out up to the deletion
      before, with rules that cover it, or its devices can be told and no rule is
      in the way of theirs. Where there is no such Cluster or it is not selected,
      nothing at all changes. Otherwise it rejects the request, with the first
      reason there is, unless the devices it needs cannot be looked up for now:
      then the Machine stays as it is, and the pass ends in that error. */
  lemma DeletesExactlyWhen(cfg: Config, w: World, m: Machine)
    requires Quiet(w) && Synced(w, m) && !cfg.dryRun && !m.deleting
    requires ReplaceKey in m.annotations && !IsRejected(ReplaceStatus(m))
    ensures
      var (v, e) := Replace(cfg, w, m);
      var names := Requested(m.annotations[ReplaceKey]);
      var selected := m.cluster in w.clusters && w.clusters[m.cluster].selected;
      var allowed := selected && !w.clusters[m.cluster].paused && names.Ok? && MayGo(m, names.value);
      && (Gone(v, m.name) <==> allowed && (IsResumed(cfg, w, m, names.value) || CanQuarantine(cfg, w, m, names.value)))
      && (Gone(v, m.name) ==> e.None?)
      && (!Gone(v, m.name) ==>
            if !selected then e.None? && v.store == w.store && v.rules == w.rules
            else if allowed && NotNow(w) then e == Some(w.devices.error) && Synced(v, m)
            else
              && e.None?
              && Rejected(v, m.name,
                          if WhyForbidden(w.clusters[m.cluster], m) != "" then WhyForbidden(w.clusters[m.cluster], m)
                          else if names.Err? then "InvalidRequest" else WhyNot(cfg, w, names.value)))
  {
    hide Requested, RejectRequest, CarryOut, IsResumed, CanQuarantine, NotNow, Means, WhyNot, WhyForbidden, GuardReplace, MayGo;
    var parsed := Requested(m.annotations[ReplaceKey]);
    RequestedExactlyWhen(m.annotations[ReplaceKey]);
    if m.cluster in w.clusters && w.clusters[m.cluster].selected {
      var info := w.clusters[m.cluster];
      var w1 := GetCluster(w, m.cluster).0;
      assert Quiet(w1) && Synced(w1, m) && GetCluster(w, m.cluster).1 == Ok(info);
      hide GetCluster;
      var guard := GuardReplace(info, m);
      GuardIsTold(info, m);
      if parsed.Ok? { RequestedMeans(m.annotations[ReplaceKey], parsed.value); }
      if guard.Some? {
        QuietRejected(cfg, w1, m, guard.value);
      } else if parsed.Err? {
        QuietRejected(cfg, w1, m, parsed.error);
      } else {
        QuietCarriedOut(cfg, w1, m, parsed.value);
        ReadingIsApart(cfg, w, w1, m, parsed.value);
      }
    }
  }

  lemma GuardIsTold(info: ClusterInfo, m: Machine)
    ensures GuardReplace(info, m).None? <==> WhyForbidden(info, m) == ""
    ensures GuardReplace(info, m).Some? ==> GuardReplace(info, m).value.Name() == WhyForbidden(info, m)
    ensures !m.deleting && ReplaceKey in m.annotations ==>
              forall names :: Means(m.annotations[ReplaceKey], names) ==>
                (GuardReplace(info, m).None? <==> !info.paused && MayGo(m, names))
  {
    hide Means;
  }

  lemma ReadingIsApart(cfg: Config, w: World, v: World, m: Machine, names: seq<string>)
    requires v == w.(history := v.history)
    ensures IsResumed(cfg, v, m, names) <==> IsResumed(cfg, w, m, names)
    ensures CanQuarantine(cfg, v, m, names) <==> CanQuarantine(cfg, w, m, names)
    ensures WhyNot(cfg, v, names) == WhyNot(cfg, w, names) && NotNow(v) == NotNow(w)
  {
    hide Selected, Plan, DevicesOf, Covers;
  }

  lemma QuietRejected(cfg: Config, w: World, m: Machine, reason: Reason)
    requires Quiet(w) && Synced(w, m) && !cfg.dryRun && !m.deleting
    ensures
      var (v, e) := RejectRequest(cfg, w, m, reason);
      e.None? && Rejected(v, m.name, reason.Name())
  {
    QuietReject(cfg, w, m, reason);
    StatusesDiffer(reason);
    hide RejectRequest;
  }

  lemma QuietCarriedOut(cfg: Config, w: World, m: Machine, names: seq<string>)
    requires Quiet(w) && Synced(w, m) && !cfg.dryRun && !m.deleting
    ensures
      var (v, e) := CarryOut(cfg, w, m, names, ReplaceStatus(m));
      ComesTo(cfg, w, m, names, v, e)
  {
    hide Of, Quarantine, DeleteFor, Covers, Made, CanQuarantine;
    QuietOf(cfg, w, m);
    var (w1, r) := Resumed(cfg, w, m, names, ReplaceStatus(m));
    assert Quiet(w1) && Synced(w1, m) && SameButRules(w, w1) && w1.rules == w.rules;
    if r.value.Some? {
      QuietDelete(cfg, w1, m, names, r.value.value);
    } else {
      SameQuarantine(cfg, w, w1, m, names);
      QuietQuarantine(cfg, w1, m, names);
      var step := Quarantine(cfg, w1, m, names, ReplaceStatus(m));
      if step.Ready? { QuietDelete(cfg, step.w, step.m, names, step.devices); }
    }
  }

  lemma SameQuarantine(cfg: Config, w: World, v: World, m: Machine, names: seq<string>)
    requires v.devices == w.devices && v.rules == w.rules
    ensures CanQuarantine(cfg, v, m, names) <==> CanQuarantine(cfg, w, m, names)
  {
  }

  lemma QuietQuarantine(cfg: Config, w: World, m: Machine, names: seq<string>)
    requires Quiet(w) && Synced(w, m) && !cfg.dryRun && !m.deleting
    ensures
      var step := Quarantine(cfg, w, m, names, ReplaceStatus(m));
      if CanQuarantine(cfg, w, m, names)
      then step.Ready? && Quiet(step.w) && Synced(step.w, step.m) && step.m.name == m.name
      else step.Ended? && if NotNow(w) then step.error == Some(w.devices.error) && Synced(step.w, m)
                          else step.error.None? && Rejected(step.w, m.name, WhyNot(cfg, w, names))
  {
    hide Selected, Tainted, SetStatus, Plan, RejectRequest;
    StatusesDiffer(Forbidden);
    assert FindDevices(w) == (w, w.devices);
    if w.devices.Err? {
      if !NotNow(w) {
        QuietRejected(cfg, w, m, if w.devices.error.Rejection? then w.devices.error.reason else Forbidden);
      }
    } else {
      var selected := Selected(w.devices.value, cfg.drivers, names);
      if selected.Err? {
        QuietRejected(cfg, w, m, selected.error);
      } else if ReplaceStatus(m) == STATUS_REPLACING {
        QuietTainted(cfg, w, m, selected.value, ReplaceStatus(m));
      } else {
        QuietStatus(w, m, STATUS_QUARANTINING);
        var (w1, m1, _) := SetStatus(w, m, STATUS_QUARANTINING);
        QuietTainted(cfg, w1, m1, selected.value, ReplaceStatus(m));
        assert NoRuleInTheWay(cfg, w1, selected.value, OwnerOf(m1)) <==> NoRuleInTheWay(cfg, w, selected.value, OwnerOf(m));
      }
    }
  }

  // ---------------------------------------------------------- the rules it made

  /** A rule made for the owner is listed as made for it. */
  lemma EnsuredIsListed(cfg: Config, w: World, d: Device, o: Owner)
    requires Quiet(w) && d.driver != "" && d.pool != "" && d.name != ""
    ensures
      var (v, made) := Ensure(cfg, w, d, o);
      var listed := Of(cfg, v, o).1;
      made == Ok(true) ==> listed.Ok? && d in listed.value
  {
    hide RuleName, DevicesOf;
    var (v, made) := Ensure(cfg, w, d, o);
    if made == Ok(true) {
      var rule := RuleFor(cfg, d, o, w.now);
      assert RuleName(cfg.digest, d) in v.rules && v.rules[RuleName(cfg.digest, d)] == rule;
      var listed := ListRules(v, cfg.shorten(o.name), cfg.shorten(o.namespace)).1.value;
      assert rule.(name := RuleName(cfg.digest, d)) == rule;
      assert rule in listed && MadeFor(cfg, rule, o);
    }
  }

  /** What is listed as made for a Machine are the devices of the rules that the
      operator manages, that carry the Machine's labels and whole name, and that
      keep work off the very device they are named for. */
  lemma MadeExactlyWhen(cfg: Config, w: World, m: Machine, d: Device)
    requires NamedRules(w.rules)
    ensures d in Made(cfg, w, m)
      <==> exists n :: n in w.rules
             && w.rules[n].managedBy == "nvsentinel-capi-remediator" && w.rules[n].machine == m.namespace + "/" + m.name
             && w.rules[n].machineLabel == cfg.shorten(m.name) && w.rules[n].namespaceLabel == cfg.shorten(m.namespace)
             && IsTaint(w.rules[n], d) && n == RuleName(cfg.digest, d) && d.driver != "" && d.pool != "" && d.name != ""
  {
    hide RuleName, DevicesOf;
    var o := OwnerOf(m);
    var listed := set n | n in w.rules && Labelled(w.rules[n], cfg.shorten(o.name), cfg.shorten(o.namespace)) ::
                    w.rules[n].(name := n);
    assert forall n :: n in w.rules ==> w.rules[n].(name := n) == w.rules[n];
    if d in Made(cfg, w, m) {
      var r :| r in listed && MadeFor(cfg, r, o) && r.device == d;
      assert r.name in w.rules && w.rules[r.name] == r;
    }
    forall n | n in w.rules && Labelled(w.rules[n], cfg.shorten(o.name), cfg.shorten(o.namespace)) && MadeFor(cfg, w.rules[n], o)
               && w.rules[n].device == d
      ensures d in Made(cfg, w, m)
    {
      assert w.rules[n] in listed;
    }
  }

  // -------------------------------------------------- withdrawn, and stale reads

  /** An undisturbed pass over a Machine whose request was withdrawn takes the
      status off, and changes nothing else. */
  lemma WithdrawnLosesItsStatus(cfg: Config, w: World, m: Machine)
    requires Quiet(w) && Synced(w, m) && !cfg.dryRun && !m.deleting && ReplaceKey !in m.annotations
    ensures
      var (v, e) := Replace(cfg, w, m);
      && e.None? && m.name in v.store.machines && v.rules == w.rules
      && var after := v.store.machines[m.name];
      && Value(after.annotations, ReplaceStatusKey) == ""
      && after == m.(version := after.version, annotations := after.annotations)
      && forall k :: k != ReplaceStatusKey ==>
           (k in after.annotations <==> k in m.annotations) && (k in m.annotations ==> after.annotations[k] == m.annotations[k])
  {
    hide SetStatus;
    if ReplaceStatus(m) != "" { QuietStatus(w, m, ""); }
  }

  /** The Machine was read in a version the server has another of by now. */
  predicate IsStale(w: World, m: Machine) { m.name in w.store.machines && w.store.machines[m.name].version != m.version }

  lemma StaleStatus(w: World, m: Machine, status: string)
    requires Quiet(w) && IsStale(w, m)
    ensures
      var (v, m', e) := SetStatus(w, m, status);
      && Quiet(v) && v.store == w.store && v.rules == w.rules && v.devices == w.devices && m' == m
      && e == if ReplaceStatus(m) == status then None else Some(Api(Conflict))
  {
  }

  lemma StaleReject(cfg: Config, w: World, m: Machine, reason: Reason)
    requires Quiet(w) && IsStale(w, m) && !cfg.dryRun && !IsRejected(ReplaceStatus(m))
    ensures
      var (v, e) := RejectRequest(cfg, w, m, reason);
      v.store == w.store && e == Some(Api(Conflict))
  {
    StatusesDiffer(reason);
    StaleStatus(w, m, RejectedStatus(reason));
    hide SetStatus;
  }

  lemma StaleTainted(cfg: Config, w: World, m: Machine, ds: seq<Device>, status: string)
    requires Quiet(w) && IsStale(w, m) && !cfg.dryRun && !IsRejected(ReplaceStatus(m))
    requires status == STATUS_REPLACING || ReplaceStatus(m) == STATUS_QUARANTINING
    ensures
      var step := Tainted(cfg, w, m, ds, status);
      || (step.Ended? && step.error == Some(Api(Conflict)) && step.w.store == w.store)
      || (step.Ready? && step.m == m && Quiet(step.w) && step.w.store == w.store)
  {
    hide EnsureAll, ReadAll, SetStatus, Plan, RejectRequest;
    StatusesDiffer(DeviceTaintRuleConflict);
    var o := OwnerOf(m);
    UninterruptedMakesThePlan(cfg, w, ds, o);
    QuietEnsureAll(cfg, w, ds, o);
    var (w1, e1) := EnsureAll(cfg, w, ds, o);
    if e1.Some? {
      StaleReject(cfg, w1, m, DeviceTaintRuleConflict);
    } else {
      forall d | d in ds ensures InPlace(cfg.digest, w1.rules, d) {
        assert InPlace(cfg.digest, Undated(w1.rules), d);
      }
      QuietReadAll(cfg, w1, ds);
      StaleStatus(ReadAll(cfg, w1, ds).0, m, STATUS_REPLACING);
    }
  }

  lemma StaleQuarantine(cfg: Config, w: World, m: Machine, names: seq<string>)
    requires Quiet(w) && IsStale(w, m) && !cfg.dryRun && !IsRejected(ReplaceStatus(m)) && !NotNow(w)
    ensures
      var step := Quarantine(cfg, w, m, names, ReplaceStatus(m));
      || (step.Ended? && step.error == Some(Api(Conflict)) && step.w.store == w.store)
      || (step.Ready? && step.m == m && Quiet(step.w) && step.w.store == w.store)
  {
    hide Selected, Tainted, SetStatus, RejectRequest;
    assert FindDevices(w) == (w, w.devices);
    if w.devices.Err? {
      StaleReject(cfg, w, m, if w.devices.error.Rejection? then w.devices.error.reason else Forbidden);
    } else {
      var selected := Selected(w.devices.value, cfg.drivers, names);
      if selected.Err? {
        StaleReject(cfg, w, m, selected.error);
      } else {
        StaleStatus(w, m, STATUS_QUARANTINING);
        var w1 := if ReplaceStatus(m) == STATUS_REPLACING then w else SetStatus(w, m, STATUS_QUARANTINING).0;
        if ReplaceStatus(m) == STATUS_REPLACING || ReplaceStatus(m) == STATUS_QUARANTINING {
          StaleTainted(cfg, w1, m, selected.value, ReplaceStatus(m));
        }
      }
    }
  }

  lemma StaleDelete(cfg: Config, w: World, m: Machine, names: seq<string>, ds: seq<Device>)
    requires Quiet(w) && IsStale(w, m)
    ensures
      var (v, e) := DeleteFor(cfg, w, m, names, ds);
      v.store == w.store && e == Some(Api(Conflict))
  {
  }

  lemma StaleCarriedOut(cfg: Config, w: World, m: Machine, names: seq<string>)
    requires Quiet(w) && IsStale(w, m) && !cfg.dryRun && !IsRejected(ReplaceStatus(m)) && !NotNow(w)
    ensures
      var (v, e) := CarryOut(cfg, w, m, names, ReplaceStatus(m));
      v.store == w.store && e == Some(Api(Conflict))
  {
    hide Of, Quarantine, DeleteFor, Covers, Made;
    QuietOf(cfg, w, m);
    var (w1, r) := Resumed(cfg, w, m, names, ReplaceStatus(m));
    if r.value.Some? {
      StaleDelete(cfg, w1, m, names, r.value.value);
    } else {
      StaleQuarantine(cfg, w1, m, names);
      var step := Quarantine(cfg, w1, m, names, ReplaceStatus(m));
      if step.Ready? { StaleDelete(cfg, step.w, m, names, step.devices); }
    }
  }

  /** A pass over a Machine that was read in an old version, and that has something
      to write to it (a status to take off, or a request to carry out or reject),
      changes no Machine, and is to look again shortly. */
  lemma StaleReadIsLookedAtAgain(cfg: Config, w: World, m: Machine)
    requires w.alive && w.kind.KindServed? && w.env == [Turn([], Serve, Some(m))] && m in w.store.past && IsStale(w, m)
    requires !cfg.dryRun && !m.deleting
    requires if ReplaceKey !in m.annotations then ReplaceStatus(m) != ""
             else !IsRejected(ReplaceStatus(m)) && !NotNow(w) && m.cluster in w.clusters && w.clusters[m.cluster].selected
    ensures
      var (v, outcome) := Reconciled(cfg, w, m.name);
      v.store == w.store && outcome == Shortly
  {
    hide SetStatus, RejectRequest, CarryOut, Requested;
    assert w.env[1..] == [] && EditAll(w.(env := []), []) == w.(env := []);
    var w1 := w.(env := []);
    assert GetMachine(w, m.name) == (w1, Ok(m));
    StaleStatus(w1, m, "");
    if ReplaceKey in m.annotations {
      var w2 := GetCluster(w1, m.cluster).0;
      var info := w.clusters[m.cluster];
      RequestedExactlyWhen(m.annotations[ReplaceKey]);
      var names := Requested(m.annotations[ReplaceKey]);
      if GuardReplace(info, m).Some? {
        StaleReject(cfg, w2, m, GuardReplace(info, m).value);
      } else if names.Err? {
        StaleReject(cfg, w2, m, names.error);
      } else {
        StaleCarriedOut(cfg, w2, m, names.value);
      }
    }
  }
}
