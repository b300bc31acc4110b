// The management cluster's Machines behind its API server. Every write gives
// the Machine a version of its own; a locked write goes through only on the
// version it was made from, and a cached read may return any version there
// ever was.

module Store {
  import opened Text
  import opened Machines

  // What an API call can fail with, as far as callers tell errors apart.
  datatype ApiError = NotFound | Conflict | ForbiddenCall | Unreachable

  datatype Machinery = Machinery(machines: map<string, Machine>, past: set<Machine>, clock: nat)

  ghost predicate Sound(s: Machinery) {
    && (forall n :: n in s.machines ==> s.machines[n].name == n && s.machines[n] in s.past)
    && (forall m :: m in s.past ==> m.version <= s.clock)
    && (forall a, b :: a in s.past && b in s.past && a.version == b.version ==> a == b)
  }

  function Stamped(s: Machinery, m: Machine): Machine { m.(version := s.clock + 1) }

  /** The Machine written, whatever version is there. */
  function Put(s: Machinery, m: Machine): Machinery {
    var v := Stamped(s, m);
    Machinery(s.machines[m.name := v], s.past + {v}, s.clock + 1)
  }

  function Remove(s: Machinery, name: string): Machinery {
    s.(machines := s.machines - {name})
  }

  /** What the API server says to a write locked to the version of seen. */
  function Locked(s: Machinery, seen: Machine): Option<ApiError> {
    if seen.name !in s.machines then Some(NotFound)
    else if s.machines[seen.name].version != seen.version then Some(Conflict)
    else None
  }

  lemma PutKeepsSound(s: Machinery, m: Machine)
    requires Sound(s)
    ensures Sound(Put(s, m))
  {
  }

  /** A locked write that goes through hits the very Machine it was made from,
      however stale the read was. */
  lemma LockedHitsWhatWasSeen(s: Machinery, seen: Machine)
    requires Sound(s) && seen in s.past && Locked(s, seen).None?
    ensures s.machines[seen.name] == seen
  {
  }

  // What someone else does between two of the operator's calls, as far as
  // Machines go.
  datatype Edit = Write(m: Machine) | Delete(name: string)

  function Apply(s: Machinery, e: Edit): Machinery {
    match e
    case Write(m) => Put(s, m)
    case Delete(name) => Remove(s, name)
  }

  function ApplyAll(s: Machinery, edits: seq<Edit>): Machinery
    decreases |edits|
  {
    if edits == [] then s else ApplyAll(Apply(s, edits[0]), edits[1..])
  }

  lemma {:induction false} EditsKeepSound(s: Machinery, edits: seq<Edit>)
    requires Sound(s)
    ensures Sound(ApplyAll(s, edits)) && s.past <= ApplyAll(s, edits).past && s.clock <= ApplyAll(s, edits).clock
    decreases |edits|
  {
    if edits != [] {
      EditsKeepSound(Apply(s, edits[0]), edits[1..]);
    }
  }
}
