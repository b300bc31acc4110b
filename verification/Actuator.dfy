// internal/capi and internal/signal/extrr as the controller calls them: the
// API server behind its client, and the writes to a Machine, each of which
// brings the caller's own copy up to date in place when it went through.

module Actuators {
  import opened Text
  import opened Machines
  import opened Requests
  import opened Store
  import opened ClusterWorld

  class Server {
    var w: World

    constructor (w: World)
      ensures this.w == w
    {
      this.w := w;
    }

    method PatchLocked(kind: WriteKind, seen: Machine, updated: Machine) returns (r: Result<Machine, ApiError>)
      requires updated.name == seen.name
      modifies this
      ensures (w, r) == ClusterWorld.PatchLocked(old(w), kind, seen, updated)
    {
      var (after, out) := ClusterWorld.PatchLocked(w, kind, seen, updated);
      w, r := after, out;
    }

    method PatchMark(seen: Machine, reason: string, made: MarkMade) returns (r: Result<Machine, ApiError>)
      modifies this
      ensures (w, r) == ClusterWorld.PatchMark(old(w), seen, reason, made)
    {
      var (after, out) := ClusterWorld.PatchMark(w, seen, reason, made);
      w, r := after, out;
    }

    method Get(name: string) returns (r: Result<Machine, ApiError>)
      modifies this
      ensures (w, r) == ReadCached(old(w), name)
    {
      var (after, out) := ReadCached(w, name);
      w, r := after, out;
    }

    method IsPending(name: string) returns (r: Result<bool, ApiError>)
      modifies this
      ensures (w, r) == ClusterWorld.IsPending(old(w), name)
    {
      var (after, out) := ClusterWorld.IsPending(w, name);
      w, r := after, out;
    }

    method Answer(name: string, complete: bool, reason: AnswerReason, machine: Option<Machine>, node: Option<Node>)
      returns (r: Result<bool, ApiError>)
      modifies this
      ensures (w, r) == AnswerRequest(old(w), name, complete, reason, machine, node)
      ensures
        var a := Arrive(old(w));
        a.fate.Serve? ==> (r == Ok(false) <==> !(name in a.w.requests && AwaitsAnswer(a.w.requests[name])))
    {
      hide AwaitsAnswer, Pending, WithAnswer, ClusterWorld.PatchConditions;
      var got := GetRequest(name);
      if got.Err? {
        return Err(got.error);
      }
      if got.value.Some? {
        PendingExactlyWhen(got.value.value);
      }
      if got.value.None? || !Pending(got.value.value) {
        return Ok(false);
      }
      var seen := got.value.value;
      var conditions := AnswerConditions(seen.conditions, AnswerCondition(complete, reason));
      r := PatchConditions(name, seen, conditions, complete, reason, machine, node);
    }

    method GetRequest(name: string) returns (r: Result<Option<Request>, ApiError>)
      modifies this
      ensures w == Arrive(old(w)).w
      ensures r == if !Arrive(old(w)).fate.Serve? then Err(Unreachable)
                   else Ok(if name in w.requests then Some(w.requests[name]) else None)
    {
      var a := Arrive(w);
      w := a.w;
      r := if !a.fate.Serve? then Err(Unreachable) else Ok(if name in w.requests then Some(w.requests[name]) else None);
    }

    /** A patch of the status with the resourceVersion of the request seen. */
    method PatchConditions(name: string, seen: Request, conditions: seq<Requests.Condition>, complete: bool, reason: AnswerReason,
                           machine: Option<Machine>, node: Option<Node>)
      returns (r: Result<bool, ApiError>)
      modifies this
      ensures (w, r) == ClusterWorld.PatchConditions(old(w), name, seen, conditions, complete, reason, machine, node)
      ensures r != Ok(false)
    {
      var (after, out) := ClusterWorld.PatchConditions(w, name, seen, conditions, complete, reason, machine, node);
      w, r := after, out;
    }
  }

  // A pass's own copy of a Machine, which later signals of the pass see.
  class Copy {
    var m: Machine

    constructor (m: Machine)
      ensures this.m == m
    {
      this.m := m;
    }
  }

  /** What a write leaves of the caller's copy: it is brought up to date only
      when the write went through. */
  function UpToDate(before: Machine, r: Result<Machine, ApiError>): Machine { if r.Ok? then r.value else before }

  class Actuator {
    const server: Server
    const dryRun: bool

    constructor (server: Server, dryRun: bool)
      ensures this.server == server && this.dryRun == dryRun
    {
      this.server, this.dryRun := server, dryRun;
    }

    /** Withdraws the mark this operator set; released says whether there was
        one to withdraw. */
    method Release(c: Copy) returns (released: Result<bool, ApiError>)
      modifies server, c
      ensures
        var (w, r) := ClusterWorld.Release(old(server.w), dryRun, old(c.m));
        && server.w == w && c.m == UpToDate(old(c.m), r)
        && released == (if r.Err? then Err(r.error) else Ok(MarkedAction(old(c.m)).Some? && !old(c.m.deleting)))
    {
      if MarkedAction(c.m).None? || c.m.deleting {
        return Ok(false);
      }
      if dryRun {
        return Ok(true);
      }
      var updated := c.m.annotations;
      updated := updated - {RemediateMachine};
      updated := updated - {RemediationReason};
      updated := updated - {RemediationAction};
      updated := updated - {RemediationBootID};
      updated := updated - {RemediationRequest};
      assert updated == Without(c.m.annotations, MARK_KEYS);
      var patched := server.PatchLocked(ReleaseWrite, c.m, c.m.(annotations := updated));
      match patched {
        case Err(e) => released := Err(e);
        case Ok(m) =>
          c.m := m;
          released := Ok(true);
      }
    }

    /** A restart mark set by the operator becomes a replacement mark. */
    method Escalate(c: Copy, reason: string) returns (escalated: Result<bool, ApiError>)
      modifies server, c
      ensures
        var (w, r) := ClusterWorld.Escalate(old(server.w), dryRun, old(c.m), reason);
        && server.w == w && c.m == UpToDate(old(c.m), r)
        && escalated == (if r.Err? then Err(r.error) else Ok(MarkedFor(old(c.m), ACTION_RESTART) && !old(c.m.deleting)))
    {
      if !MarkedFor(c.m, ACTION_RESTART) || c.m.deleting {
        return Ok(false);
      }
      if dryRun {
        return Ok(true);
      }
      var updated := c.m.annotations;
      updated := updated[RemediationAction := ACTION_REMEDIATE];
      updated := updated[RemediationReason := reason];
      updated := updated - {RemediationBootID};
      updated := updated - {RemediationRequest};
      assert updated == Escalated(c.m, reason).annotations;
      var patched := server.PatchLocked(EscalateWrite, c.m, c.m.(annotations := updated));
      match patched {
        case Err(e) => escalated := Err(e);
        case Ok(m) =>
          c.m := m;
          escalated := Ok(true);
      }
    }

    /** Sets the mark, with what is recorded next to it, unless a guard leaves
        the Machine alone. */
    method MarkForRemediation(c: Copy, reason: string, made: MarkMade) returns (skipped: Result<Option<Skip>, ApiError>)
      modifies server, c
      ensures
        var (w, r) := ClusterWorld.MarkForRemediation(old(server.w), dryRun, old(c.m), reason, made);
        && server.w == w && c.m == UpToDate(old(c.m), r)
        && skipped == (if r.Err? then Err(r.error) else Ok(Guard(old(c.m))))
    {
      var skip := Guard(c.m);
      if skip.Some? {
        return Ok(skip);
      }
      if dryRun {
        return Ok(None);
      }
      var patched := server.PatchMark(c.m, reason, made);
      match patched {
        case Err(e) => skipped := Err(e);
        case Ok(m) =>
          c.m := m;
          skipped := Ok(None);
      }
    }
  }
}
