// internal/capi: the Machine as this operator reads it, its guards, the mark
// this operator puts on it, and the MachineHealthChecks that act on the mark.

module Machines {
  import opened Text
  import opened Sorting

  // The annotations the operator reads or writes, and any others.
  datatype Key =
    | RemediateMachine
    | RemediationReason
    | RemediationAction
    | RemediationBootID
    | RemediationRequest
    | PausedKey
    | SkipRemediationKey
    | ReplaceKey
    | ReplaceStatusKey
    | OtherKey(name: string)

  type Annotations = map<Key, string>

  const ACTION_REMEDIATE := "Remediate"
  const ACTION_RESTART := "Restart"

  lemma ActionsDiffer()
    ensures ACTION_REMEDIATE != ACTION_RESTART
  {
    assert ACTION_REMEDIATE[2] != ACTION_RESTART[2];
  }

  /** The HealthCheckSucceeded condition. */
  datatype HealthCheck = HealthCheck(status: string, reason: string)

  const HAS_REMEDIATE_ANNOTATION := "HasRemediateAnnotation"

  datatype Machine = Machine(
    namespace: string,
    name: string,
    cluster: string,
    uid: nat,
    version: nat,
    deleting: bool,
    controlPlane: bool,
    ownedByMachineSet: bool,
    annotations: Annotations,
    health: Option<HealthCheck>)

  function Value(a: Annotations, k: Key): string { if k in a then a[k] else "" }

  function Without(a: Annotations, keys: set<Key>): Annotations { a - keys }

  // ----------------------------------------------------------------- guards

  datatype Skip = SkipDeleting | SkipAlreadyMarked | SkipControlPlane | SkipPaused | SkipOptedOut | SkipEarlierMark
  {
    predicate InProgress() { SkipDeleting? || SkipAlreadyMarked? }
  }

  predicate IsMarked(m: Machine) { RemediateMachine in m.annotations }

  predicate IsPaused(m: Machine) { PausedKey in m.annotations }

  predicate IsOptedOut(m: Machine) { SkipRemediationKey in m.annotations }

  function Guard(m: Machine): Option<Skip> {
    if m.deleting then Some(SkipDeleting)
    else if IsMarked(m) then Some(SkipAlreadyMarked)
    else if m.controlPlane then Some(SkipControlPlane)
    else if IsPaused(m) then Some(SkipPaused)
    else if IsOptedOut(m) then Some(SkipOptedOut)
    else None
  }

  /** The Machine is unmarked, and its checks still show the mark it carried. */
  predicate EarlierMarkPending(m: Machine) {
    && !IsMarked(m)
    && m.health.Some? && m.health.value == HealthCheck("False", HAS_REMEDIATE_ANNOTATION)
  }

  // --------------------------------------------------------------- the mark

  const MARK_KEYS: set<Key> :=
    {RemediateMachine, RemediationReason, RemediationAction, RemediationBootID, RemediationRequest}

  // What the operator records next to the mark; nobody else writes these.
  const OWN_KEYS: set<Key> := {RemediationReason, RemediationAction, RemediationBootID, RemediationRequest}

  /** The action this operator asked for, if the mark is its own. */
  function MarkedAction(m: Machine): Option<string> {
    if IsMarked(m) && RemediationAction in m.annotations then Some(m.annotations[RemediationAction]) else None
  }

  predicate MarkedFor(m: Machine, action: string) { MarkedAction(m) == Some(action) }

  // bootID and request are empty where nothing is recorded.
  datatype RestartRecord = RestartRecord(bootID: string, request: string)

  function Marked(m: Machine, action: string, reason: string, record: RestartRecord): Machine {
    var a := m.annotations[RemediateMachine := ""][RemediationReason := reason][RemediationAction := action];
    var b := if record.bootID != "" then a[RemediationBootID := record.bootID] else a;
    var c := if record.request != "" then b[RemediationRequest := record.request] else b;
    m.(annotations := c)
  }

  function Released(m: Machine): Machine { m.(annotations := Without(m.annotations, MARK_KEYS)) }

  function Escalated(m: Machine, reason: string): Machine {
    m.(annotations := Without(m.annotations[RemediationAction := ACTION_REMEDIATE][RemediationReason := reason],
                              {RemediationBootID, RemediationRequest}))
  }

  datatype RestartMark = RestartMark(action: string, bootID: string, request: string, marked: bool)

  function RestartMarkOf(m: Machine): RestartMark {
    RestartMark(
      if MarkedAction(m).Some? then MarkedAction(m).value else "",
      Value(m.annotations, RemediationBootID),
      Value(m.annotations, RemediationRequest),
      MarkedAction(m).Some?)
  }

  // -------------------------------------------------------------- the node

  datatype NodeCondition = NodeCondition(kind: string, status: string)

  datatype Node = Node(bootID: string, conditions: seq<NodeCondition>)

  /** The status of the first condition of the kind, empty without one. */
  function StatusOf(conditions: seq<NodeCondition>, kind: string): string {
    if conditions == [] then ""
    else if conditions[0].kind == kind then conditions[0].status
    else StatusOf(conditions[1..], kind)
  }

  predicate IsReady(n: Node) { StatusOf(n.conditions, "Ready") == "True" }

  /** The first condition of the kind is True. */
  ghost predicate FirstIsTrue(conditions: seq<NodeCondition>, kind: string) {
    exists i :: 0 <= i < |conditions| && conditions[i] == NodeCondition(kind, "True")
                && forall j :: 0 <= j < i ==> conditions[j].kind != kind
  }

  lemma {:induction false} ReadyIsOfTheFirst(conditions: seq<NodeCondition>, kind: string)
    ensures StatusOf(conditions, kind) == "True" <==> FirstIsTrue(conditions, kind)
  {
    if conditions != [] {
      var rest := conditions[1..];
      ReadyIsOfTheFirst(rest, kind);
      if conditions[0].kind != kind {
        if FirstIsTrue(rest, kind) {
          var i :| 0 <= i < |rest| && rest[i] == NodeCondition(kind, "True") && forall j :: 0 <= j < i ==> rest[j].kind != kind;
          assert forall j :: 0 < j < i + 1 ==> conditions[j] == rest[j - 1];
          assert conditions[i + 1] == NodeCondition(kind, "True");
        }
        if FirstIsTrue(conditions, kind) {
          var i :| 0 <= i < |conditions| && conditions[i] == NodeCondition(kind, "True")
                   && forall j :: 0 <= j < i ==> conditions[j].kind != kind;
          assert forall j :: 0 <= j < i - 1 ==> rest[j] == conditions[j + 1];
          assert rest[i - 1] == NodeCondition(kind, "True");
        }
      }
    }
  }

  /** A restart is over exactly when the Machine is under this operator's restart
      mark with a boot ID recorded, and its node is there, has another boot ID
      and is Ready by the first such condition. */
  lemma CompletedExactlyWhen(m: Machine, node: Option<Node>)
    ensures RestartCompleted(m, node)
      <==> && RemediateMachine in m.annotations && RemediationAction in m.annotations
           && m.annotations[RemediationAction] == "Restart"
           && RemediationBootID in m.annotations && m.annotations[RemediationBootID] != ""
           && node.Some? && node.value.bootID !in {"", m.annotations[RemediationBootID]}
           && FirstIsTrue(node.value.conditions, "Ready")
  {
    if node.Some? { ReadyIsOfTheFirst(node.value.conditions, "Ready"); }
  }

  predicate RestartCompleted(m: Machine, node: Option<Node>) {
    && MarkedFor(m, ACTION_RESTART) && node.Some?
    && var recorded := Value(m.annotations, RemediationBootID);
    && recorded != "" && node.value.bootID != "" && node.value.bootID != recorded
    && IsReady(node.value)
  }

  predicate RestartAnswers(m: Machine, request: string) {
    var asked := Value(m.annotations, RemediationRequest);
    asked == "" || asked == request
  }

  // ------------------------------------------------------------ the coverage

  // selected are the names of the Machines the check's selector matches; a
  // selector that does not parse matches none.
  datatype Check = Check(
    namespace: string, name: string, cluster: string, selected: set<string>,
    template: Option<string>, paused: bool)

  datatype CoveringCheck = CoveringCheck(name: string, template: Option<string>, paused: bool)

  type Coverage = seq<CoveringCheck>

  predicate Selects(c: Check, m: Machine) {
    c.namespace == m.namespace && c.cluster == m.cluster && m.name in c.selected
  }

  function Covering(checks: seq<Check>, m: Machine): Coverage {
    if checks == [] then []
    else
      var n := |checks| - 1;
      Covering(checks[..n], m)
      + if Selects(checks[n], m) then [CoveringCheck(checks[n].name, checks[n].template, checks[n].paused)] else []
  }

  predicate ByName(a: CoveringCheck, b: CoveringCheck) { Compare(a.name, b.name) <= 0 }

  function CoverageFor(checks: seq<Check>, m: Machine): Coverage { Sort(Covering(checks, m), ByName) }

  lemma NamesGoInOrder()
    ensures TotalPreorder(ByName)
  {
    forall a: CoveringCheck, b: CoveringCheck ensures ByName(a, b) || ByName(b, a) {
      CompareFlips(a.name, b.name);
    }
    forall a: CoveringCheck, b: CoveringCheck, c: CoveringCheck | ByName(a, b) && ByName(b, c) ensures ByName(a, c) {
      CompareChains(a.name, b.name, c.name);
    }
  }

  /** One of the checks selects the Machine, and is this one. */
  ghost predicate IsCovering(checks: seq<Check>, m: Machine, c: CoveringCheck) {
    exists k :: k in checks && Selects(k, m) && c == CoveringCheck(k.name, k.template, k.paused)
  }

  lemma {:induction false} CoveringIsSelecting(checks: seq<Check>, m: Machine, c: CoveringCheck)
    ensures c in Covering(checks, m) <==> IsCovering(checks, m, c)
  {
    if checks != [] {
      var n := |checks| - 1;
      CoveringIsSelecting(checks[..n], m, c);
      assert forall k :: k in checks <==> k in checks[..n] || k == checks[n];
    }
  }

  /** The coverage of a Machine has exactly the checks that select it, in the
      order of their names, and as often as they are listed. */
  lemma CoverageIsWhatSelects(checks: seq<Check>, m: Machine)
    ensures forall c :: c in CoverageFor(checks, m) <==> IsCovering(checks, m, c)
    ensures Sorted(CoverageFor(checks, m), ByName)
    ensures multiset(CoverageFor(checks, m)) == multiset(Covering(checks, m))
  {
    NamesGoInOrder();
    SortOrders(Covering(checks, m), ByName);
    SortMembers(Covering(checks, m), ByName);
    forall c ensures c in Covering(checks, m) <==> IsCovering(checks, m, c) {
      CoveringIsSelecting(checks, m, c);
    }
  }

  method CoverageOf(checks: seq<Check>, m: Machine) returns (cov: Coverage)
    ensures cov == CoverageFor(checks, m)
    ensures Sorted(cov, ByName) && forall c :: c in cov <==> IsCovering(checks, m, c)
  {
    CoverageIsWhatSelects(checks, m);
    cov := [];
    for i := 0 to |checks|
      invariant cov == Covering(checks[..i], m)
    {
      assert checks[..i + 1][..i] == checks[..i];
      if !Selects(checks[i], m) {
        continue;
      }
      cov := cov + [CoveringCheck(checks[i].name, checks[i].template, checks[i].paused)];
    }
    assert checks[..|checks|] == checks;
    cov := Sort(cov, ByName);
  }

  predicate Covered(cov: Coverage) { exists c :: c in cov && !c.paused }

  predicate TemplatesOnly(cov: Coverage) { Covered(cov) && forall c :: c in cov ==> c.template.Some? }

  function IgnoringPause(cov: Coverage): (r: Coverage)
    ensures |r| == |cov|
    ensures forall i :: 0 <= i < |r| ==> r[i] == cov[i].(paused := false)
  {
    seq(|cov|, i requires 0 <= i < |cov| => cov[i].(paused := false))
  }

  /** A MachineHealthCheck of the Machine's Cluster and namespace selects it. */
  ghost predicate HasCheck(checks: seq<Check>, m: Machine, k: Check) {
    k in checks && k.namespace == m.namespace && k.cluster == m.cluster && m.name in k.selected
  }

  ghost predicate AllHaveTemplates(checks: seq<Check>, m: Machine) {
    forall k :: HasCheck(checks, m, k) ==> k.template.Some?
  }

  /** Marking does something exactly when a check that is not paused selects the
      Machine, and leads to templates only when all that select it, paused or
      not, have one. */
  lemma CoveredExactlyWhen(checks: seq<Check>, m: Machine)
    ensures Covered(CoverageFor(checks, m)) <==> exists k :: HasCheck(checks, m, k) && !k.paused
    ensures TemplatesOnly(CoverageFor(checks, m))
            <==> (exists k :: HasCheck(checks, m, k) && !k.paused) && AllHaveTemplates(checks, m)
  {
    var cov := CoverageFor(checks, m);
    CoverageIsWhatSelects(checks, m);
    hide CoverageFor;
    forall k | HasCheck(checks, m, k) ensures CoveringCheck(k.name, k.template, k.paused) in cov {
      assert IsCovering(checks, m, CoveringCheck(k.name, k.template, k.paused));
    }
    forall c | c in cov ensures exists k :: HasCheck(checks, m, k) && k.paused == c.paused && k.template == c.template {
      var k :| k in checks && Selects(k, m) && c == CoveringCheck(k.name, k.template, k.paused);
      assert HasCheck(checks, m, k);
    }
  }

  /** The same with every check unpaused. */
  lemma UnpausedExactlyWhen(checks: seq<Check>, m: Machine)
    ensures Covered(IgnoringPause(CoverageFor(checks, m))) <==> exists k :: HasCheck(checks, m, k)
    ensures TemplatesOnly(IgnoringPause(CoverageFor(checks, m)))
            <==> (exists k :: HasCheck(checks, m, k)) && AllHaveTemplates(checks, m)
  {
    var cov := CoverageFor(checks, m);
    CoverageIsWhatSelects(checks, m);
    hide CoverageFor;
    var all := IgnoringPause(cov);
    forall k | HasCheck(checks, m, k) ensures CoveringCheck(k.name, k.template, false) in all {
      var c := CoveringCheck(k.name, k.template, k.paused);
      assert IsCovering(checks, m, c);
      var i :| 0 <= i < |cov| && cov[i] == c;
      assert all[i] in all;
    }
    forall c | c in all ensures !c.paused && exists k :: HasCheck(checks, m, k) && k.template == c.template {
      var i :| 0 <= i < |all| && all[i] == c;
      assert cov[i] in cov;
      var k :| k in checks && Selects(k, m) && cov[i] == CoveringCheck(k.name, k.template, k.paused);
      assert HasCheck(checks, m, k);
    }
  }

  /** now is the coverage with some of the paused checks unpaused. */
  ghost predicate Unpauses(cov: Coverage, now: Coverage) {
    && |now| == |cov|
    && forall i :: 0 <= i < |cov| ==>
         now[i] == cov[i] || (cov[i].paused && now[i] == cov[i].(paused := false))
  }

  lemma IgnoringPauseUnpauses(cov: Coverage)
    ensures Unpauses(cov, IgnoringPause(cov))
  {
  }

  /** Unpausing more never takes coverage away. */
  lemma UnpausingKeeps(cov: Coverage, now: Coverage)
    requires Unpauses(cov, now)
    ensures Covered(now) ==> Covered(IgnoringPause(cov))
    ensures TemplatesOnly(now) ==> TemplatesOnly(IgnoringPause(cov))
  {
    var all := IgnoringPause(cov);
    if Covered(now) {
      var c :| c in now && !c.paused;
      var i :| 0 <= i < |now| && now[i] == c;
      assert all[i] in all;
    }
    if TemplatesOnly(now) {
      forall c | c in all ensures c.template.Some? {
        var i :| 0 <= i < |all| && all[i] == c;
        assert now[i] in now;
      }
    }
  }
}
