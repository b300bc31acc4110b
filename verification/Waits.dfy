// The bounded wait before a Machine is marked for a restart while its checks
// still report an earlier mark, and the time of the next pass. All times are
// in nanoseconds.

module Waits {
  import opened Text
  import opened Machines

  const EARLIER_MARK_GRACE: int := 60_000_000_000
  const DEFAULT_POLL_INTERVAL: int := 120_000_000_000

  // A wait begins at since. Once its bound let a restart through it is over.
  datatype Wait = Wait(since: int, over: bool)

  type Waiting = map<string, Wait>

  // Whether to hold a restart back; shown is positive only when a wait gets over,
  // and then tells its length.
  datatype Hold = Hold(held: bool, shown: int)

  function HeldForChecks(waiting: Waiting, m: Machine, now: int): (Hold, Waiting) {
    if !EarlierMarkPending(m) then (Hold(false, 0), waiting - {m.name})
    else if m.name !in waiting then (Hold(true, 0), waiting[m.name := Wait(now, false)])
    else
      var wait := waiting[m.name];
      if now - wait.since < EARLIER_MARK_GRACE then (Hold(true, 0), waiting)
      else if wait.over then (Hold(false, 0), waiting)
      else (Hold(false, now - wait.since), waiting[m.name := wait.(over := true)])
  }

  /** A restart is held back exactly while the Machine is unmarked, its checks
      still show an earlier mark, and the wait for that is new or not a minute old;
      a new wait begins now. */
  lemma HeldExactlyWhen(waiting: Waiting, m: Machine, now: int)
    ensures
      var (hold, after) := HeldForChecks(waiting, m, now);
      && (hold.held
          <==> && RemediateMachine !in m.annotations && m.health == Some(HealthCheck("False", "HasRemediateAnnotation"))
               && (m.name in waiting ==> now - waiting[m.name].since < 60_000_000_000))
      && (hold.held ==> m.name in after && after[m.name] == if m.name in waiting then waiting[m.name] else Wait(now, false))
  {
  }

  lemma HoldKeepsOthers(waiting: Waiting, m: Machine, now: int, name: string)
    requires name != m.name
    ensures
      var after := HeldForChecks(waiting, m, now).1;
      (name in after <==> name in waiting) && (name in waiting ==> after[name] == waiting[name])
  {
  }

  predicate StillPending(machines: map<string, Machine>, name: string) {
    exists n :: n in machines && machines[n].name == name && EarlierMarkPending(machines[n])
  }

  /** The waits that go on: of Machines that still show their earlier mark. */
  function Forgotten(waiting: Waiting, machines: map<string, Machine>): Waiting {
    map n | n in waiting && StillPending(machines, n) :: waiting[n]
  }

  function Left(wait: Wait, now: int): int { EARLIER_MARK_GRACE - (now - wait.since) }

  predicate Unfinished(wait: Wait, now: int) { !wait.over && Left(wait, now) > 0 }

  /** The time to the next pass is the least of the poll interval and of what is
      left of the unfinished waits. */
  ghost predicate IsNextLook(waiting: Waiting, poll: int, now: int, next: int) {
    && 0 < next <= poll
    && (forall n :: n in waiting && Unfinished(waiting[n], now) ==> next <= Left(waiting[n], now))
    && (next < poll ==> exists n :: n in waiting && Unfinished(waiting[n], now) && next == Left(waiting[n], now))
  }

  // ------------------------------------------------------ one wait, in turn

  function Consult(waiting: Waiting, m: Machine, times: seq<int>): (Waiting, seq<Hold>) {
    if times == [] then (waiting, [])
    else
      var (before, holds) := Consult(waiting, m, times[..|times| - 1]);
      var (hold, after) := HeldForChecks(before, m, times[|times| - 1]);
      (after, holds + [hold])
  }

  /** One of the times is past the bound. */
  ghost predicate Ended(since: int, times: seq<int>) {
    exists j :: 0 <= j < |times| && times[j] - since >= EARLIER_MARK_GRACE
  }

  /** What is said at a time, after the ones before: held before the bound, and
      past it let through, with how long it took the first time only. */
  ghost function HoldAfter(since: int, before: seq<int>, now: int): Hold {
    if now - since < EARLIER_MARK_GRACE then Hold(true, 0)
    else if Ended(since, before) then Hold(false, 0)
    else Hold(false, now - since)
  }

  lemma EndedNext(since: int, before: seq<int>, now: int)
    ensures Ended(since, before + [now]) <==> Ended(since, before) || now - since >= EARLIER_MARK_GRACE
    ensures !Ended(since, [])
  {
    if Ended(since, before) {
      var j :| 0 <= j < |before| && before[j] - since >= EARLIER_MARK_GRACE;
      assert (before + [now])[j] == before[j];
    }
    assert (before + [now])[|before|] == now;
  }

  /** A stored wait holds the restart on exactly the passes before its bound,
      and the bound is reported on the first pass after it and never again. */
  lemma {:induction false} HoldsUntilTheBoundAndReportsOnce(waiting: Waiting, m: Machine, times: seq<int>)
    requires EarlierMarkPending(m) && m.name in waiting && !waiting[m.name].over
    ensures
      var since := waiting[m.name].since;
      var (after, holds) := Consult(waiting, m, times);
      && |holds| == |times|
      && (forall i :: 0 <= i < |times| ==> holds[i] == HoldAfter(since, times[..i], times[i]))
      && after == waiting[m.name := Wait(since, Ended(since, times))]
  {
    hide Ended, EarlierMarkPending, HeldForChecks;
    var since := waiting[m.name].since;
    if times == [] {
      EndedNext(since, [], 0);
      assert waiting == waiting[m.name := Wait(since, false)];
    } else {
      var n := |times| - 1;
      HoldsUntilTheBoundAndReportsOnce(waiting, m, times[..n]);
      assert times == times[..n] + [times[n]];
      EndedNext(since, times[..n], times[n]);
      assert forall i :: 0 <= i < n ==> times[..n][..i] == times[..i];
      HoldNext(waiting, m, since, times[..n], times[n]);
    }
  }

  lemma HoldNext(waiting: Waiting, m: Machine, since: int, before: seq<int>, now: int)
    requires EarlierMarkPending(m) && m.name in waiting
    ensures HeldForChecks(waiting[m.name := Wait(since, Ended(since, before))], m, now)
         == (HoldAfter(since, before, now),
             waiting[m.name := Wait(since, Ended(since, before) || now - since >= EARLIER_MARK_GRACE)])
  {
    hide Ended;
    var w := waiting[m.name := Wait(since, Ended(since, before))];
    assert w[m.name := Wait(since, true)] == waiting[m.name := Wait(since, true)];
  }

  // --------------------------------------------------- waits over many passes

  /** From pass to pass a wait keeps its start, is over once it was over or
      its time is up, and otherwise began at this pass. */
  ghost predicate MovesOn(waiting: Waiting, later: Waiting, now: int) {
    forall n :: n in later ==>
      || (&& n in waiting && later[n].since == waiting[n].since
          && (waiting[n].over ==> later[n].over)
          && (later[n].over ==> waiting[n].over || Left(later[n], now) <= 0))
      || later[n] == Wait(now, false)
  }

  lemma MovesOnChains(a: Waiting, b: Waiting, c: Waiting, now: int)
    requires MovesOn(a, b, now) && MovesOn(b, c, now)
    ensures MovesOn(a, c, now)
  {
  }

  /** No wait began later than now, and none is over before its bound. */
  ghost predicate Punctual(waiting: Waiting, now: int) {
    forall n :: n in waiting ==> waiting[n].since <= now && (waiting[n].over ==> Left(waiting[n], now) <= 0)
  }

  lemma PunctualStays(waiting: Waiting, later: Waiting, before: int, now: int)
    requires Punctual(waiting, before) && before <= now && MovesOn(waiting, later, now)
    ensures Punctual(later, now)
  {
  }

  // The Cluster's waits as a pass leaves them.
  datatype Look = Look(now: int, waiting: Waiting)

  /** The next pass comes when the last one asked for it, or later, and the
      wait of the Machine goes on. */
  ghost predicate NextPass(a: Look, b: Look, poll: int, name: string) {
    && (exists next :: IsNextLook(a.waiting, poll, a.now, next) && b.now >= a.now + next)
    && MovesOn(a.waiting, b.waiting, b.now)
    && name in a.waiting && name in b.waiting && a.waiting[name].since == b.waiting[name].since
  }

  /** The unfinished waits that began before the one of the Machine. */
  function Older(l: Look, name: string): set<string>
    requires name in l.waiting
  {
    set n | n in l.waiting && Unfinished(l.waiting[n], l.now) && l.waiting[n].since < l.waiting[name].since
  }

  function Remaining(l: Look, name: string): int
    requires name in l.waiting
  {
    Left(l.waiting[name], l.now)
  }

  /** How many more passes a wait can last: one for each older unfinished
      wait, and one for each poll interval in what remains of it. */
  function Bound(l: Look, name: string, poll: int): nat
    requires name in l.waiting && poll > 0
  {
    if Remaining(l, name) <= 0 then 0 else |Older(l, name)| + Remaining(l, name) / poll + 1
  }

  lemma SmallerSubset(a: set<string>, b: set<string>, x: string)
    requires a <= b && x in b && x !in a
    ensures |a| < |b|
  {
    assert a <= b - {x};
    SubsetSize(a, b - {x});
  }

  lemma {:induction false} SubsetSize(a: set<string>, b: set<string>)
    requires a <= b
    ensures |a| <= |b|
  {
    if a != {} {
      var x :| x in a;
      SubsetSize(a - {x}, b - {x});
    }
  }

  lemma LessThanOne(p: int, d: int)
    requires p > 0 && p * d < p
    ensures d < 1
  {
    if d >= 1 { MulGrows(p, d); }
  }

  lemma {:induction false} MulGrows(p: int, d: int)
    requires p > 0 && d >= 1
    ensures p * d >= p
    decreases d
  {
    if d > 1 {
      MulGrows(p, d - 1);
      assert p * d == p * (d - 1) + p;
    }
  }

  /** b is k steps below a, so its quotient is at least k smaller. */
  lemma Quotients(b: int, a: int, k: int, poll: int)
    requires poll > 0 && b <= a - poll * k
    ensures b / poll <= a / poll - k
  {
    var qa, qb := a / poll, b / poll;
    assert poll * qb <= b && a < poll * qa + poll;
    assert poll * (qb + k - qa) == poll * qb + poll * k - poll * qa;
    LessThanOne(poll, qb + k - qa);
  }

  /** Each pass that follows the requeue brings the end of the wait closer. */
  lemma PassBringsTheEndCloser(a: Look, b: Look, poll: int, name: string)
    requires poll > 0 && NextPass(a, b, poll, name)
    requires Remaining(a, name) > 0 && !a.waiting[name].over && a.waiting[name].since <= a.now
    ensures Bound(b, name, poll) < Bound(a, name, poll)
  {
    var next :| IsNextLook(a.waiting, poll, a.now, next) && b.now >= a.now + next;
    var mine := a.waiting[name].since;
    if Remaining(b, name) > 0 {
      forall n | n in Older(b, name) ensures n in Older(a, name) {
        assert b.waiting[n].since < mine < b.now;
      }
      SubsetSize(Older(b, name), Older(a, name));
      if next == poll {
        Quotients(Remaining(b, name), Remaining(a, name), 1, poll);
      } else {
        Quotients(Remaining(b, name), Remaining(a, name), 0, poll);
        var w :| w in a.waiting && Unfinished(a.waiting[w], a.now) && next == Left(a.waiting[w], a.now);
        assert a.waiting[w].since < mine;
        assert w in Older(a, name);
        assert w !in Older(b, name);
        SmallerSubset(Older(b, name), Older(a, name), w);
      }
    } else {
      assert Remaining(a, name) / poll >= 0 by { Quotients(0, Remaining(a, name), 0, poll); }
    }
  }

  /** A run of passes that follows its requeues, with the wait going on, comes to
      the end of it within the bound. */
  lemma {:induction false} WaitEnds(run: seq<Look>, poll: int, name: string) returns (k: nat)
    requires poll > 0 && run != [] && name in run[0].waiting && run[0].waiting[name].since <= run[0].now
    requires forall i :: 0 <= i < |run| - 1 ==> NextPass(run[i], run[i + 1], poll, name)
    requires run[0].waiting[name].over ==> Remaining(run[0], name) <= 0
    requires |run| > Bound(run[0], name, poll)
    ensures k <= Bound(run[0], name, poll) && k < |run|
    ensures name in run[k].waiting && run[k].now - run[0].waiting[name].since >= EARLIER_MARK_GRACE
    decreases |run|
  {
    if Remaining(run[0], name) <= 0 {
      k := 0;
    } else {
      assert NextPass(run[0], run[1], poll, name);
      PassBringsTheEndCloser(run[0], run[1], poll, name);
      forall i | 0 <= i < |run[1..]| - 1 ensures NextPass(run[1..][i], run[1..][i + 1], poll, name) {
        assert NextPass(run[i + 1], run[i + 2], poll, name);
      }
      var j := WaitEnds(run[1..], poll, name);
      k := j + 1;
    }
  }
}
