// internal/quarantine/quarantine.go: the replace request on a Machine, and the
// devices it picks out of those the Machine holds.

module Devices {
  import opened Text
  import opened Sorting

  const REQUEST_QUARANTINE := "quarantine"
  const STATUS_QUARANTINING := "quarantining"
  const STATUS_REPLACING := "replacing"
  const REJECTED_PREFIX := "rejected: "
  const RULE_PREFIX := "quarantine-"

  datatype Reason =
    | InvalidRequest | NoDevices | AmbiguousDevices | UnknownDevice
    | DeviceTaintRuleUnavailable | DeviceTaintRuleConflict | Forbidden
    | ClusterPaused | NotReplaceable
    | ControlPlaneMachine | AlreadyMarkedForRemediation | MachinePaused | MachineOptedOutOfRemediation
    | OtherReason(name: string)
  {
    function Name(): string {
      match this
      case InvalidRequest => "InvalidRequest"
      case NoDevices => "NoDevices"
      case AmbiguousDevices => "AmbiguousDevices"
      case UnknownDevice => "UnknownDevice"
      case DeviceTaintRuleUnavailable => "DeviceTaintRuleUnavailable"
      case DeviceTaintRuleConflict => "DeviceTaintRuleConflict"
      case Forbidden => "Forbidden"
      case ClusterPaused => "ClusterPaused"
      case NotReplaceable => "NotReplaceable"
      case ControlPlaneMachine => "ControlPlaneMachine"
      case AlreadyMarkedForRemediation => "AlreadyMarkedForRemediation"
      case MachinePaused => "MachinePaused"
      case MachineOptedOutOfRemediation => "MachineOptedOutOfRemediation"
      case OtherReason(name) => name
    }
  }

  function RejectedStatus(reason: Reason): string { REJECTED_PREFIX + reason.Name() }

  predicate IsRejected(status: string) { REJECTED_PREFIX <= status }

  /** A rejection is told apart from the other statuses, whatever its reason. */
  lemma StatusesDiffer(reason: Reason)
    ensures IsRejected(RejectedStatus(reason))
    ensures !IsRejected(STATUS_QUARANTINING) && !IsRejected(STATUS_REPLACING) && !IsRejected("")
    ensures STATUS_QUARANTINING != STATUS_REPLACING
    ensures RejectedStatus(reason) != "" && STATUS_QUARANTINING != "" && STATUS_REPLACING != ""
  {
    assert STATUS_QUARANTINING[0] == 'q' && STATUS_REPLACING[2] == 'p';
    assert REJECTED_PREFIX[0] == 'r' && REJECTED_PREFIX[2] == 'j';
  }

  datatype Device = Device(driver: string, pool: string, name: string)

  function CompareDevices(a: Device, b: Device): int {
    if a.driver != b.driver then Compare(a.driver, b.driver)
    else if a.pool != b.pool then Compare(a.pool, b.pool)
    else Compare(a.name, b.name)
  }

  predicate AtMost(a: Device, b: Device) { CompareDevices(a, b) <= 0 }

  lemma DevicesAreOrdered()
    ensures TotalOrder(AtMost)
  {
    forall a: Device, b: Device
      ensures CompareDevices(a, b) == -CompareDevices(b, a)
      ensures CompareDevices(a, b) == 0 <==> a == b
    {
      CompareFlips(a.driver, b.driver);
      CompareFlips(a.pool, b.pool);
      CompareFlips(a.name, b.name);
    }
    forall a: Device, b: Device, c: Device | AtMost(a, b) && AtMost(b, c)
      ensures AtMost(a, c)
    {
      DevicesChain(a, b, c);
    }
  }

  lemma DevicesChain(a: Device, b: Device, c: Device)
    requires AtMost(a, b) && AtMost(b, c)
    ensures AtMost(a, c)
  {
    if a.driver == b.driver == c.driver {
      if a.pool == b.pool == c.pool {
        CompareChains(a.name, b.name, c.name);
      } else {
        CompareChains(a.pool, b.pool, c.pool);
      }
    } else {
      CompareChains(a.driver, b.driver, c.driver);
    }
  }

  /** The name of a device's rule, for whatever digest. */
  function RuleName(digest: string -> string, d: Device): string {
    RULE_PREFIX + digest(d.driver + "\0" + d.pool + "\0" + d.name)
  }

  lemma PartsAreTold(a: string, b: string, x: string, y: string)
    requires '\0' !in a && '\0' !in b && a + "\0" + x == b + "\0" + y
    ensures a == b && x == y
  {
    var s := a + "\0" + x;
    assert forall i :: 0 <= i < |a| ==> s[i] == a[i];
    assert forall i :: 0 <= i < |b| ==> s[i] == b[i];
    assert s[|a|] == '\0' && s[|b|] == '\0';
    assert a == s[..|a|] && b == s[..|b|] && x == s[|a| + 1..] && y == s[|b| + 1..];
  }

  /** Where the digest keeps texts apart, different devices have rules by different
      names: no part of a device's name holds the separator. */
  lemma RuleNamesTellDevicesApart(digest: string -> string, a: Device, b: Device)
    requires forall s, t :: digest(s) == digest(t) ==> s == t
    requires '\0' !in a.driver && '\0' !in b.driver && '\0' !in a.pool && '\0' !in b.pool
    ensures RuleName(digest, a) == RuleName(digest, b) <==> a == b
  {
    if RuleName(digest, a) == RuleName(digest, b) {
      var s, t := a.driver + "\0" + a.pool + "\0" + a.name, b.driver + "\0" + b.pool + "\0" + b.name;
      assert digest(s) == RuleName(digest, a)[|RULE_PREFIX|..] && digest(t) == RuleName(digest, b)[|RULE_PREFIX|..];
      assert s == a.driver + "\0" + (a.pool + "\0" + a.name) && t == b.driver + "\0" + (b.pool + "\0" + b.name);
      PartsAreTold(a.driver, b.driver, a.pool + "\0" + a.name, b.pool + "\0" + b.name);
      PartsAreTold(a.pool, b.pool, a.name, b.name);
    }
  }

  // ------------------------------------------------------------ the request

  function TrimEach(parts: seq<string>): (r: seq<string>)
    ensures |r| == |parts|
    ensures forall i :: 0 <= i < |r| ==> r[i] == TrimSpace(parts[i])
  {
    seq(|parts|, i requires 0 <= i < |parts| => TrimSpace(parts[i]))
  }

  /** The device names a request lists, none when it lists none. */
  function Requested(value: string): Result<seq<string>, Reason> {
    var prefix := REQUEST_QUARANTINE + ":";
    if value == REQUEST_QUARANTINE then Ok([])
    else if !(prefix <= value) then Err(InvalidRequest)
    else
      var listed := TrimEach(Split(value[|prefix|..], ','));
      if "" in listed then Err(InvalidRequest) else Ok(Dedup(listed))
  }

  /** The value is the word with a comma-separated list after it, none of whose
      names is blank. */
  ghost predicate IsListOf(value: string, parts: seq<string>) {
    && parts != [] && (forall p :: p in parts ==> ',' !in p && TrimSpace(p) != "")
    && value == "quarantine:" + Join(parts, ',')
  }

  /** What the text of a request asks for: the one device there is, or those it
      lists. */
  ghost predicate Means(value: string, names: seq<string>) {
    if value == "quarantine" then names == [] else exists parts :: IsListOf(value, parts) && names == Dedup(TrimEach(parts))
  }

  lemma ListIsRead(value: string, parts: seq<string>)
    requires IsListOf(value, parts)
    ensures value != "quarantine" && Requested(value) == Ok(Dedup(TrimEach(parts)))
  {
    var prefix := REQUEST_QUARANTINE + ":";
    assert value[|prefix|..] == Join(parts, ',') && value[..|prefix|] == prefix && value[|REQUEST_QUARANTINE|] == ':';
    SplitUndoesJoin(parts, ',');
    forall i | 0 <= i < |parts| ensures TrimSpace(parts[i]) != "" {
      assert parts[i] in parts;
    }
  }

  lemma ReadIsList(value: string)
    requires Requested(value).Ok? && value != "quarantine"
    ensures IsListOf(value, Split(value[|REQUEST_QUARANTINE + ":"|..], ','))
  {
    hide TrimSpace, Split, Join, Dedup;
    var prefix := REQUEST_QUARANTINE + ":";
    assert prefix <= value && "" !in TrimEach(Split(value[|prefix|..], ','));
    hide Requested;
    var parts := Split(value[|prefix|..], ',');
    JoinUndoesSplit(value[|prefix|..], ',');
    assert value == prefix + value[|prefix|..];
    forall p | p in parts ensures TrimSpace(p) != "" {
      var i :| 0 <= i < |parts| && parts[i] == p;
      assert TrimEach(parts)[i] in TrimEach(parts);
    }
  }

  lemma RequestedMeans(value: string, names: seq<string>)
    ensures Requested(value) == Ok(names) <==> Means(value, names)
  {
    hide TrimSpace, Split, Join, Dedup;
    if value != "quarantine" {
      if Requested(value).Ok? {
        ReadIsList(value);
      }
      forall parts | IsListOf(value, parts) ensures Requested(value) == Ok(Dedup(TrimEach(parts))) {
        ListIsRead(value, parts);
      }
    }
  }

  /** Only the bare word asks for the one device there is. Any other value is a
      request exactly when it is the word with a list after it, and otherwise an
      invalid one. */
  lemma RequestedExactlyWhen(value: string)
    ensures Requested(value) == Ok([]) <==> value == "quarantine"
    ensures value != "quarantine" ==> (Requested(value).Ok? <==> exists parts :: IsListOf(value, parts))
    ensures Requested(value).Err? ==> Requested(value).error == InvalidRequest
  {
    hide TrimSpace, Split, Join, IsListOf;
    if value != "quarantine" {
      if Requested(value).Ok? {
        ReadIsList(value);
        var parts := Split(value[|REQUEST_QUARANTINE + ":"|..], ',');
        assert TrimSpace(parts[0]) in Dedup(TrimEach(parts)) by { assert TrimEach(parts)[0] in TrimEach(parts); }
      }
      forall parts | IsListOf(value, parts) ensures Requested(value).Ok? {
        ListIsRead(value, parts);
      }
    }
  }

  /** The request as it is to be read: the bare word names nothing, a list its
      names, and everything else is invalid. */
  ghost predicate IsReading(value: string, r: Result<seq<string>, Reason>) {
    if value == "quarantine" then r == Ok([])
    else if exists parts :: IsListOf(value, parts) then r.Ok? && r.value != [] && Means(value, r.value)
    else r == Err(InvalidRequest)
  }

  lemma RequestedIsReading(value: string)
    ensures IsReading(value, Requested(value))
  {
    RequestedExactlyWhen(value);
    if Requested(value).Ok? {
      RequestedMeans(value, Requested(value).value);
    }
    hide Requested, IsListOf, Means;
  }

  method ParseRequest(value: string) returns (r: Result<seq<string>, Reason>)
    ensures r == Requested(value) && IsReading(value, r)
  {
    hide IsReading;
    RequestedIsReading(value);
    if value == REQUEST_QUARANTINE {
      return Ok([]);
    }
    var prefix := REQUEST_QUARANTINE + ":";
    if !(prefix <= value) {
      return Err(InvalidRequest);
    }
    assert Dedup<string>([]) == [];
    hide Dedup, Split, TrimSpace;
    var parts := Split(value[|prefix|..], ',');
    ghost var listed := TrimEach(parts);
    assert listed[..0] == [];
    var names: seq<string> := [];
    for i := 0 to |parts|
      invariant names == Dedup(listed[..i])
      invariant "" !in listed[..i]
    {
      assert listed[..i + 1] == listed[..i] + [listed[i]];
      DedupAppend(listed[..i], listed[i]);
      var name := TrimSpace(parts[i]);
      if name == "" {
        assert listed[i] in listed;
        return Err(InvalidRequest);
      }
      if name !in names {
        names := names + [name];
      }
    }
    assert listed[..|listed|] == listed;
    r := Ok(names);
  }

  /** A printed list of names reads back without its repeats, in order. */
  lemma PrintedRequestReadsBack(names: seq<string>)
    requires names != []
    requires forall n :: n in names ==> n != "" && Trimmed(n) && ',' !in n
    ensures Requested(REQUEST_QUARANTINE + ":" + Join(names, ',')) == Ok(Dedup(names))
  {
    var prefix := REQUEST_QUARANTINE + ":";
    var value := prefix + Join(names, ',');
    assert |value| >= |prefix| > |REQUEST_QUARANTINE|;
    assert value[|prefix|..] == Join(names, ',');
    SplitUndoesJoin(names, ',');
    forall n | n in names ensures TrimSpace(n) == n { TrimKeepsTrimmed(n); }
    assert TrimEach(names) == names;
  }

  // -------------------------------------------------------------- selection

  function OfDrivers(all: seq<Device>, drivers: set<string>): (r: seq<Device>)
    ensures forall d :: d in r <==> d in all && d.driver in drivers
  {
    if all == [] then []
    else
      var n := |all| - 1;
      OfDrivers(all[..n], drivers) + if all[n].driver in drivers then [all[n]] else []
  }

  function Candidates(all: seq<Device>, drivers: set<string>): seq<Device> {
    Sort(Dedup(OfDrivers(all, drivers)), AtMost)
  }

  function Named(ds: seq<Device>, name: string): (r: seq<Device>)
    ensures forall d :: d in r <==> d in ds && d.name == name
  {
    if ds == [] then []
    else
      var n := |ds| - 1;
      Named(ds[..n], name) + if ds[n].name == name then [ds[n]] else []
  }

  /** The device each name fits, in the order of the names; an error at the
      first name that does not fit just one. */
  function Picked(candidates: seq<Device>, names: seq<string>): Result<seq<Device>, Reason> {
    if names == [] then Ok([])
    else
      var n := |names| - 1;
      var before := Picked(candidates, names[..n]);
      var matches := Named(candidates, names[n]);
      if before.Err? then before
      else if matches == [] then Err(UnknownDevice)
      else if |matches| > 1 then Err(AmbiguousDevices)
      else if matches[0] in before.value then before
      else Ok(before.value + [matches[0]])
  }

  function Selected(all: seq<Device>, drivers: set<string>, requested: seq<string>): Result<seq<Device>, Reason> {
    var candidates := Candidates(all, drivers);
    if requested == [] then
      if candidates == [] then Err(NoDevices)
      else if |candidates| == 1 then Ok(candidates)
      else Err(AmbiguousDevices)
    else
      match Picked(candidates, requested)
      case Err(e) => Err(e)
      case Ok(ds) => Ok(Sort(ds, AtMost))
  }

  method Select(all: seq<Device>, drivers: set<string>, requested: seq<string>)
    returns (r: Result<seq<Device>, Reason>)
    ensures r == Selected(all, drivers, requested)
  {
    var candidates: seq<Device> := [];
    for i := 0 to |all|
      invariant candidates == Dedup(OfDrivers(all[..i], drivers))
    {
      OfDriversNext(all, drivers, i);
      if all[i].driver in drivers && all[i] !in candidates {
        candidates := candidates + [all[i]];
      }
    }
    assert all[..|all|] == all;
    candidates := Sort(candidates, AtMost);
    if |requested| == 0 {
      if |candidates| == 0 {
        return Err(NoDevices);
      }
      if |candidates| == 1 {
        return Ok(candidates);
      }
      return Err(AmbiguousDevices);
    }
    var picked := Pick(candidates, requested);
    match picked {
      case Err(e) => r := Err(e);
      case Ok(selected) => r := Ok(Sort(selected, AtMost));
    }
  }

  method Pick(candidates: seq<Device>, requested: seq<string>) returns (r: Result<seq<Device>, Reason>)
    ensures r == Picked(candidates, requested)
  {
    var selected: seq<Device> := [];
    for i := 0 to |requested|
      invariant Picked(candidates, requested[..i]) == Ok(selected)
    {
      PickedNext(candidates, requested, i);
      var matches := FindNamed(candidates, requested[i]);
      if |matches| != 1 {
        var reason := if |matches| == 0 then UnknownDevice else AmbiguousDevices;
        PickedErrorStays(candidates, requested, i + 1);
        return Err(reason);
      }
      if matches[0] !in selected {
        selected := selected + [matches[0]];
      }
    }
    assert requested[..|requested|] == requested;
    r := Ok(selected);
  }

  lemma PickedNext(candidates: seq<Device>, names: seq<string>, i: nat)
    requires i < |names| && Picked(candidates, names[..i]).Ok?
    ensures
      var before := Picked(candidates, names[..i]).value;
      var matches := Named(candidates, names[i]);
      Picked(candidates, names[..i + 1])
      == if |matches| == 0 then Err(UnknownDevice)
         else if |matches| > 1 then Err(AmbiguousDevices)
         else Ok(if matches[0] in before then before else before + [matches[0]])
  {
    assert names[..i + 1][..i] == names[..i];
  }

  method FindNamed(candidates: seq<Device>, name: string) returns (matches: seq<Device>)
    ensures matches == Named(candidates, name)
  {
    matches := [];
    for i := 0 to |candidates|
      invariant matches == Named(candidates[..i], name)
    {
      assert candidates[..i + 1][..i] == candidates[..i];
      if candidates[i].name == name {
        matches := matches + [candidates[i]];
      }
    }
    assert candidates[..|candidates|] == candidates;
  }

  lemma OfDriversNext(all: seq<Device>, drivers: set<string>, i: nat)
    requires i < |all|
    ensures
      var before := Dedup(OfDrivers(all[..i], drivers));
      Dedup(OfDrivers(all[..i + 1], drivers))
      == if all[i].driver in drivers && all[i] !in before then before + [all[i]] else before
  {
    assert all[..i + 1][..i] == all[..i];
    if all[i].driver in drivers {
      DedupAppend(OfDrivers(all[..i], drivers), all[i]);
    } else {
      assert OfDrivers(all[..i + 1], drivers) == OfDrivers(all[..i], drivers);
    }
  }

  lemma {:induction false} PickedErrorStays(candidates: seq<Device>, names: seq<string>, i: nat)
    requires i <= |names| && Picked(candidates, names[..i]).Err?
    ensures Picked(candidates, names) == Picked(candidates, names[..i])
    decreases |names| - i
  {
    if i < |names| {
      assert names[..i + 1][..i] == names[..i];
      PickedErrorStays(candidates, names, i + 1);
    } else {
      assert names[..i] == names;
    }
  }

  // What a request means, without saying how it is looked up.

  ghost predicate Held(all: seq<Device>, drivers: set<string>, d: Device) {
    d in all && d.driver in drivers
  }

  ghost predicate FitsOne(all: seq<Device>, drivers: set<string>, name: string) {
    && (exists d :: Held(all, drivers, d) && d.name == name)
    && (forall d, e :: Held(all, drivers, d) && Held(all, drivers, e) && d.name == e.name == name ==> d == e)
  }

  ghost predicate HoldsOne(all: seq<Device>, drivers: set<string>) {
    && (exists d :: Held(all, drivers, d))
    && (forall d, e :: Held(all, drivers, d) && Held(all, drivers, e) ==> d == e)
  }

  // c lists the held devices of the drivers, each once.
  ghost predicate Lists(c: seq<Device>, all: seq<Device>, drivers: set<string>) {
    NoRepeats(c) && forall d :: d in c <==> Held(all, drivers, d)
  }

  lemma CandidatesAreHeld(all: seq<Device>, drivers: set<string>)
    ensures Lists(Candidates(all, drivers), all, drivers) && Sorted(Candidates(all, drivers), AtMost)
  {
    DevicesAreOrdered();
    SortOrders(Dedup(OfDrivers(all, drivers)), AtMost);
    SortMembers(Dedup(OfDrivers(all, drivers)), AtMost);
  }

  lemma {:induction false} NamedKeepsDistinct(ds: seq<Device>, name: string)
    requires NoRepeats(ds)
    ensures NoRepeats(Named(ds, name))
  {
    if ds != [] {
      var n := |ds| - 1;
      NamedKeepsDistinct(ds[..n], name);
      assert ds[n] !in ds[..n];
    }
  }

  lemma OneNamed(c: seq<Device>, all: seq<Device>, drivers: set<string>, name: string)
    requires Lists(c, all, drivers)
    ensures |Named(c, name)| == 1 <==> FitsOne(all, drivers, name)
  {
    var m := Named(c, name);
    NamedKeepsDistinct(c, name);
    if |m| == 1 {
      assert m[0] in m;
    } else if |m| > 1 {
      assert m[0] in m && m[1] in m;
    }
    if FitsOne(all, drivers, name) {
      var d :| Held(all, drivers, d) && d.name == name;
      assert d in m;
    }
  }

  ghost predicate Among(all: seq<Device>, drivers: set<string>, names: seq<string>, d: Device) {
    Held(all, drivers, d) && d.name in names
  }

  lemma {:induction false} PickedExactly(c: seq<Device>, all: seq<Device>, drivers: set<string>, names: seq<string>)
    requires Lists(c, all, drivers)
    ensures Picked(c, names).Ok? <==> FitsEach(all, drivers, names)
    ensures Picked(c, names).Ok? ==>
              && NoRepeats(Picked(c, names).value)
              && forall d :: d in Picked(c, names).value <==> Among(all, drivers, names, d)
  {
    hide FitsOne, Held, Lists, Named;
    if names != [] {
      var n := |names| - 1;
      var before := names[..n];
      PickedExactly(c, all, drivers, before);
      hide FitsEach, NoRepeats, Among;
      OneNamed(c, all, drivers, names[n]);
      assert names == before + [names[n]];
      FitsEachNext(all, drivers, before, names[n]);
      if FitsOne(all, drivers, names[n]) {
        AmongNext(c, all, drivers, before, names[n]);
        if Picked(c, before).Ok? { AddedOnce(Picked(c, before).value, Named(c, names[n])[0]); }
      }
    }
  }

  ghost predicate FitsEach(all: seq<Device>, drivers: set<string>, names: seq<string>) {
    forall n :: n in names ==> FitsOne(all, drivers, n)
  }

  lemma FitsEachNext(all: seq<Device>, drivers: set<string>, before: seq<string>, name: string)
    ensures FitsEach(all, drivers, before + [name]) <==> FitsEach(all, drivers, before) && FitsOne(all, drivers, name)
  {
    hide FitsOne;
    assert forall x :: x in before + [name] <==> x in before || x == name;
  }

  lemma AddedOnce(ds: seq<Device>, d: Device)
    requires NoRepeats(ds)
    ensures d !in ds ==> NoRepeats(ds + [d])
  {
  }

  lemma AmongNext(c: seq<Device>, all: seq<Device>, drivers: set<string>, before: seq<string>, name: string)
    requires Lists(c, all, drivers) && |Named(c, name)| == 1
    ensures forall d :: Among(all, drivers, before + [name], d) <==> Among(all, drivers, before, d) || d == Named(c, name)[0]
  {
    hide Held;
    var m := Named(c, name);
    forall d ensures Among(all, drivers, before + [name], d) <==> Among(all, drivers, before, d) || d == m[0] {
      assert d in m <==> d in c && d.name == name;
    }
  }

  /** A request succeeds exactly when each name it lists fits one device the
      Machine holds of the drivers, or, when it lists none, exactly one is
      held; and then it picks precisely those, sorted and without repeats. */
  lemma SelectedExactly(all: seq<Device>, drivers: set<string>, requested: seq<string>)
    ensures
      Selected(all, drivers, requested).Ok?
      <==> if requested == [] then HoldsOne(all, drivers)
           else forall n :: n in requested ==> FitsOne(all, drivers, n)
    ensures
      var r := Selected(all, drivers, requested);
      r.Ok? ==>
        && NoRepeats(r.value) && Sorted(r.value, AtMost)
        && forall d :: d in r.value <==>
             if requested == [] then Held(all, drivers, d) else Among(all, drivers, requested, d)
  {
    var c := Candidates(all, drivers);
    CandidatesAreHeld(all, drivers);
    if requested == [] {
      if |c| == 1 {
        assert c[0] in c;
      } else if |c| > 1 {
        assert c[0] in c && c[1] in c;
      }
    } else {
      PickedExactly(c, all, drivers, requested);
      if Picked(c, requested).Ok? {
        DevicesAreOrdered();
        SortOrders(Picked(c, requested).value, AtMost);
        SortMembers(Picked(c, requested).value, AtMost);
      }
    }
  }

  /** The first of the names that does not fit just one of the held devices. */
  ghost predicate IsFirstMisfit(all: seq<Device>, drivers: set<string>, names: seq<string>, i: int) {
    0 <= i < |names| && !FitsOne(all, drivers, names[i]) && forall j :: 0 <= j < i ==> FitsOne(all, drivers, names[j])
  }

  lemma {:induction false} MisfitIsTold(c: seq<Device>, all: seq<Device>, drivers: set<string>, names: seq<string>, i: int)
    requires Lists(c, all, drivers) && IsFirstMisfit(all, drivers, names, i)
    ensures Picked(c, names) == Err(if exists d :: Held(all, drivers, d) && d.name == names[i] then AmbiguousDevices else UnknownDevice)
  {
    hide FitsOne, Held, Named;
    var n := |names| - 1;
    if i < n {
      assert IsFirstMisfit(all, drivers, names[..n], i);
      MisfitIsTold(c, all, drivers, names[..n], i);
    } else {
      PickedExactly(c, all, drivers, names[..n]);
      OneNamed(c, all, drivers, names[n]);
      SomeNamed(c, all, drivers, names[n]);
      forall x | x in names[..n] ensures FitsOne(all, drivers, x) {
        var j :| 0 <= j < n && names[j] == x;
      }
    }
  }

  lemma SomeNamed(c: seq<Device>, all: seq<Device>, drivers: set<string>, name: string)
    requires Lists(c, all, drivers)
    ensures Named(c, name) != [] <==> exists d :: Held(all, drivers, d) && d.name == name
  {
    hide Held;
    var m := Named(c, name);
    assert forall d :: Held(all, drivers, d) && d.name == name ==> d in m;
    if m != [] {
      assert m[0] in m;
    }
  }

  /** Why nothing is picked: no device is held, or more than one with no name
      listed, or the first name that does not fit just one of them fits several
      or none. */
  lemma RefusedExactlyWhen(all: seq<Device>, drivers: set<string>, requested: seq<string>)
    ensures Selected(all, drivers, requested) == Err(NoDevices) <==> requested == [] && !exists d :: Held(all, drivers, d)
    ensures Selected(all, drivers, requested) == Err(AmbiguousDevices)
            <==> if requested == [] then exists d, e :: Held(all, drivers, d) && Held(all, drivers, e) && d != e
                 else exists i :: IsFirstMisfit(all, drivers, requested, i)
                                  && exists d :: Held(all, drivers, d) && d.name == requested[i]
    ensures Selected(all, drivers, requested) == Err(UnknownDevice)
            <==> requested != [] && exists i :: IsFirstMisfit(all, drivers, requested, i)
                                                && !exists d :: Held(all, drivers, d) && d.name == requested[i]
  {
    var c := Candidates(all, drivers);
    CandidatesAreHeld(all, drivers);
    hide Candidates, Held;
    if requested == [] {
      if c != [] { assert c[0] in c; }
      if |c| > 1 { assert c[1] in c; }
    } else {
      PickedExactly(c, all, drivers, requested);
      forall i | IsFirstMisfit(all, drivers, requested, i)
        ensures Picked(c, requested) == Err(if exists d :: Held(all, drivers, d) && d.name == requested[i] then AmbiguousDevices else UnknownDevice)
      {
        MisfitIsTold(c, all, drivers, requested, i);
      }
      if Picked(c, requested).Err? {
        var i := FirstMisfit(all, drivers, requested);
      }
      hide FitsOne, Picked;
    }
  }

  lemma {:induction false} FirstMisfit(all: seq<Device>, drivers: set<string>, names: seq<string>) returns (i: nat)
    requires !FitsEach(all, drivers, names)
    ensures IsFirstMisfit(all, drivers, names, i)
  {
    hide FitsOne;
    var n := |names| - 1;
    assert names == names[..n] + [names[n]];
    if FitsEach(all, drivers, names[..n]) {
      i := n;
      assert forall j :: 0 <= j < n ==> names[j] in names[..n];
      FitsEachNext(all, drivers, names[..n], names[n]);
    } else {
      i := FirstMisfit(all, drivers, names[..n]);
    }
  }

  /** Whatever is picked covers the request: every name it lists, and at
      least one device when it lists none. */
  lemma SelectedCovers(all: seq<Device>, drivers: set<string>, requested: seq<string>)
    requires Selected(all, drivers, requested).Ok?
    ensures Covers(Selected(all, drivers, requested).value, requested)
  {
    var r := Selected(all, drivers, requested).value;
    SelectedExactly(all, drivers, requested);
    if requested == [] {
      var d :| Held(all, drivers, d);
      assert d in r;
    } else {
      forall n | n in requested ensures exists d :: d in r && d.name == n {
        assert FitsOne(all, drivers, n);
        var d :| Held(all, drivers, d) && d.name == n;
        assert Among(all, drivers, requested, d);
      }
      assert requested[0] in requested;
    }
  }

  /** Every name is among the devices, or there is a device at all when no
      name is given. */
  predicate Covers(ds: seq<Device>, names: seq<string>) {
    && ds != []
    && forall n :: n in names ==> exists d :: d in ds && d.name == n
  }

  /** The order and repetition of what the Machine holds and of the names do
      not matter. */
  lemma SelectionIgnoresOrder(all: seq<Device>, all': seq<Device>, drivers: set<string>,
                              requested: seq<string>, requested': seq<string>)
    requires forall d :: d in all <==> d in all'
    requires forall n :: n in requested <==> n in requested'
    ensures
      var r, r' := Selected(all, drivers, requested), Selected(all', drivers, requested');
      r.Ok? == r'.Ok? && (r.Ok? ==> r == r')
  {
    SelectedExactly(all, drivers, requested);
    SelectedExactly(all', drivers, requested');
    assert requested == [] || requested[0] in requested';
    assert requested' == [] || requested'[0] in requested;
    forall d ensures Held(all, drivers, d) <==> Held(all', drivers, d) {}
    forall d ensures Among(all, drivers, requested, d) <==> Among(all', drivers, requested', d) {}
    forall n ensures FitsOne(all, drivers, n) <==> FitsOne(all', drivers, n) {}
    var r, r' := Selected(all, drivers, requested), Selected(all', drivers, requested');
    if r.Ok? && r'.Ok? {
      DevicesAreOrdered();
      SortedUnique(r.value, r'.value, AtMost);
    }
  }
}
