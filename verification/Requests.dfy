// internal/signal/extrr: NVSentinel's ExternalRemediationRequests, read and
// answered through the conditions on their status.

module Requests {
  import opened Text
  import opened Machines

  const OWNERSHIP_RELEASED := "NVSentinelOwnershipReleased"
  const COMPLETE := "ExternalRemediationComplete"

  // Why a request is answered the way it is.
  datatype AnswerReason = Restarted | NotRemediated | NoMachine | RemediationUnavailable | Skipped(skip: Skip) | NotOurs(name: string)

  datatype Condition = Condition(kind: string, status: string, reason: AnswerReason)

  datatype Request = Request(name: string, version: nat, deleting: bool, conditions: seq<Condition>)

  /** The status of the first condition of the kind, empty without one. */
  function ConditionStatus(conditions: seq<Condition>, kind: string): string {
    if conditions == [] then ""
    else if conditions[0].kind == kind then conditions[0].status
    else ConditionStatus(conditions[1..], kind)
  }

  predicate Answered(r: Request) {
    var status := ConditionStatus(r.conditions, COMPLETE);
    status == "True" || status == "False"
  }

  predicate Pending(r: Request) {
    !r.deleting && ConditionStatus(r.conditions, OWNERSHIP_RELEASED) == "True" && !Answered(r)
  }

  /** The first condition of the kind has the status. */
  ghost predicate FirstIs(conditions: seq<Condition>, kind: string, status: string) {
    exists i :: 0 <= i < |conditions| && conditions[i].kind == kind && conditions[i].status == status
                && forall j :: 0 <= j < i ==> conditions[j].kind != kind
  }

  lemma {:induction false} StatusIsOfTheFirst(conditions: seq<Condition>, kind: string, status: string)
    requires status != ""
    ensures ConditionStatus(conditions, kind) == status <==> FirstIs(conditions, kind, status)
  {
    if conditions != [] {
      var rest := conditions[1..];
      StatusIsOfTheFirst(rest, kind, status);
      if conditions[0].kind != kind {
        if FirstIs(rest, kind, status) {
          var i :| 0 <= i < |rest| && rest[i].kind == kind && rest[i].status == status
                   && forall j :: 0 <= j < i ==> rest[j].kind != kind;
          assert forall j :: 0 < j < i + 1 ==> conditions[j] == rest[j - 1];
          assert conditions[i + 1].kind == kind && conditions[i + 1].status == status;
        }
        if FirstIs(conditions, kind, status) {
          var i :| 0 <= i < |conditions| && conditions[i].kind == kind && conditions[i].status == status
                   && forall j :: 0 <= j < i ==> conditions[j].kind != kind;
          assert forall j :: 0 <= j < i - 1 ==> rest[j] == conditions[j + 1];
          assert rest[i - 1].kind == kind && rest[i - 1].status == status;
        }
      }
    }
  }

  /** NVSentinel released the node to the request, which is not being deleted and
      has no answer, by anyone: as its conditions say. */
  ghost predicate AwaitsAnswer(r: Request) {
    && !r.deleting && FirstIs(r.conditions, "NVSentinelOwnershipReleased", "True")
    && !FirstIs(r.conditions, "ExternalRemediationComplete", "True")
    && !FirstIs(r.conditions, "ExternalRemediationComplete", "False")
  }

  /** A request is pending exactly when it is not being deleted, its first
      condition on the ownership is True, and its first one on the remediation,
      if any, is neither True nor False. */
  lemma PendingExactlyWhen(r: Request)
    ensures Pending(r) <==> AwaitsAnswer(r)
  {
    StatusIsOfTheFirst(r.conditions, OWNERSHIP_RELEASED, "True");
    StatusIsOfTheFirst(r.conditions, COMPLETE, "True");
    StatusIsOfTheFirst(r.conditions, COMPLETE, "False");
  }

  function AnswerCondition(complete: bool, reason: AnswerReason): Condition {
    Condition(COMPLETE, if complete then "True" else "False", reason)
  }

  function Replaced(conditions: seq<Condition>, answer: Condition): (r: seq<Condition>)
    ensures |r| == |conditions|
    ensures forall i :: 0 <= i < |r| ==> r[i] == if conditions[i].kind == COMPLETE then answer else conditions[i]
  {
    seq(|conditions|, i requires 0 <= i < |conditions| =>
      if conditions[i].kind == COMPLETE then answer else conditions[i])
  }

  predicate Has(conditions: seq<Condition>, kind: string) {
    exists i :: 0 <= i < |conditions| && conditions[i].kind == kind
  }

  function WithAnswer(conditions: seq<Condition>, answer: Condition): seq<Condition> {
    Replaced(conditions, answer) + if Has(conditions, COMPLETE) then [] else [answer]
  }

  method AnswerConditions(conditions: seq<Condition>, answer: Condition) returns (updated: seq<Condition>)
    ensures updated == WithAnswer(conditions, answer)
  {
    updated := conditions;
    var replaced := false;
    for i := 0 to |conditions|
      invariant |updated| == |conditions|
      invariant forall j :: 0 <= j < i ==> updated[j] == if conditions[j].kind == COMPLETE then answer else conditions[j]
      invariant forall j :: i <= j < |conditions| ==> updated[j] == conditions[j]
      invariant replaced == Has(conditions[..i], COMPLETE)
    {
      assert conditions[..i + 1] == conditions[..i] + [conditions[i]];
      if updated[i].kind == COMPLETE {
        updated := updated[i := answer];
        replaced := true;
        assert conditions[..i + 1][i].kind == COMPLETE;
      }
      assert forall j :: 0 <= j < i ==> conditions[..i][j] == conditions[..i + 1][j];
    }
    assert conditions[..|conditions|] == conditions;
    assert updated == Replaced(conditions, answer);
    if !replaced {
      updated := updated + [answer];
    }
  }

  lemma {:induction false} StatusAppend(conditions: seq<Condition>, last: Condition, kind: string)
    ensures ConditionStatus(conditions + [last], kind)
            == if Has(conditions, kind) then ConditionStatus(conditions, kind)
               else if last.kind == kind then last.status else ""
  {
    if conditions == [] {
      assert conditions + [last] == [last];
    } else {
      StatusAppend(conditions[1..], last, kind);
      assert (conditions + [last])[1..] == conditions[1..] + [last];
      if Has(conditions, kind) && conditions[0].kind != kind {
        var i :| 0 <= i < |conditions| && conditions[i].kind == kind;
        assert conditions[1..][i - 1].kind == kind;
      }
      if Has(conditions[1..], kind) {
        var i :| 0 <= i < |conditions[1..]| && conditions[1..][i].kind == kind;
        assert conditions[i + 1].kind == kind;
      }
    }
  }

  lemma {:induction false} StatusReplaced(conditions: seq<Condition>, answer: Condition, kind: string)
    requires answer.kind == COMPLETE
    ensures ConditionStatus(Replaced(conditions, answer), kind)
            == if kind != COMPLETE then ConditionStatus(conditions, kind)
               else if Has(conditions, COMPLETE) then answer.status else ""
  {
    if conditions != [] {
      StatusReplaced(conditions[1..], answer, kind);
      assert Replaced(conditions, answer)[1..] == Replaced(conditions[1..], answer);
      if Has(conditions, COMPLETE) && conditions[0].kind != COMPLETE {
        var i :| 0 <= i < |conditions| && conditions[i].kind == COMPLETE;
        assert conditions[1..][i - 1].kind == COMPLETE;
      }
      if Has(conditions[1..], COMPLETE) {
        var i :| 0 <= i < |conditions[1..]| && conditions[1..][i].kind == COMPLETE;
        assert conditions[i + 1].kind == COMPLETE;
      }
    }
  }

  /** An answer settles the request and touches no other condition: the others
      stay what and where they are, and read the same. */
  lemma AnswerSettlesAndKeepsTheRest(conditions: seq<Condition>, complete: bool, reason: AnswerReason, kind: string)
    ensures
      var answer := AnswerCondition(complete, reason);
      var after := WithAnswer(conditions, answer);
      && ConditionStatus(after, COMPLETE) == answer.status
      && (kind != COMPLETE ==> ConditionStatus(after, kind) == ConditionStatus(conditions, kind))
      && (forall i :: 0 <= i < |conditions| && conditions[i].kind != COMPLETE ==> after[i] == conditions[i])
      && (forall c :: c in after && c.kind != COMPLETE ==> c in conditions)
      && (forall c :: c in after && c.kind == COMPLETE ==> c == answer && c.reason == reason)
  {
    var answer := AnswerCondition(complete, reason);
    var replaced := Replaced(conditions, answer);
    StatusReplaced(conditions, answer, COMPLETE);
    StatusReplaced(conditions, answer, kind);
    if !Has(conditions, COMPLETE) {
      StatusAppend(replaced, answer, COMPLETE);
      StatusAppend(replaced, answer, kind);
      if !Has(replaced, kind) { NoStatusWithout(replaced, kind); }
    } else {
      assert WithAnswer(conditions, answer) == replaced;
    }
  }

  lemma {:induction false} NoStatusWithout(conditions: seq<Condition>, kind: string)
    requires !Has(conditions, kind)
    ensures ConditionStatus(conditions, kind) == ""
  {
    if conditions != [] {
      assert forall i :: 0 <= i < |conditions[1..]| ==> conditions[1..][i] == conditions[i + 1];
      NoStatusWithout(conditions[1..], kind);
    }
  }
}
