// internal/signal: the fault NVSentinel raised for a node, and the actions it
// can recommend.

module Signals {
  import opened Text

  const ACTION_NONE := "NONE"
  const ACTION_COMPONENT_RESET := "COMPONENT_RESET"
  const ACTION_CONTACT_SUPPORT := "CONTACT_SUPPORT"
  const ACTION_RUN_FIELDDIAG := "RUN_FIELDDIAG"
  const ACTION_RESTART_VM := "RESTART_VM"
  const ACTION_RESTART_BM := "RESTART_BM"
  const ACTION_REPLACE_VM := "REPLACE_VM"
  const ACTION_RUN_DCGMEUD := "RUN_DCGMEUD"
  const ACTION_CUSTOM := "CUSTOM"
  const ACTION_UNKNOWN := "UNKNOWN"

  predicate IsKnownAction(name: string) {
    || name == ACTION_NONE || name == ACTION_COMPONENT_RESET || name == ACTION_CONTACT_SUPPORT
    || name == ACTION_RUN_FIELDDIAG || name == ACTION_RESTART_VM || name == ACTION_RESTART_BM
    || name == ACTION_REPLACE_VM || name == ACTION_RUN_DCGMEUD || name == ACTION_CUSTOM
    || name == ACTION_UNKNOWN
  }

  /** No action name is a proper prefix of another, so a name that was cut is
      never taken for one. */
  lemma KnownActionsArePrefixFree(a: string, b: string)
    requires IsKnownAction(a) && IsKnownAction(b) && a <= b
    ensures a == b
  {
    assert a[0] == b[0] && a[1] == b[1] && a[2] == b[2];
    if |a| > 8 { assert a[8] == b[8]; }
  }

  // The signal, without the origin, the event's ID and the texts nothing is
  // decided on. request is empty for a signal read from a node condition.
  datatype Signal = Signal(
    node: string,
    check: string,
    actions: seq<string>,
    errorCodes: seq<string>,
    gpuUUIDs: seq<string>,
    truncated: bool,
    request: string)
  {
    /** Identifies the fault, whichever source observed it. */
    function Key(): string { node + "/" + check }
  }

  lemma SlashEndsNode(s: Signal)
    requires '/' !in s.node
    ensures |s.Key()| > |s.node| && s.Key()[|s.node|] == '/'
    ensures forall i :: 0 <= i < |s.node| ==> s.Key()[i] != '/'
  {
    assert forall i :: 0 <= i < |s.node| ==> s.Key()[i] == s.node[i];
  }

  /** A node name has no slash, so the key tells node and check apart. */
  lemma KeysTellSignalsApart(a: Signal, b: Signal)
    requires '/' !in a.node && '/' !in b.node
    ensures a.Key() == b.Key() <==> a.node == b.node && a.check == b.check
  {
    SlashEndsNode(a);
    SlashEndsNode(b);
    if a.Key() == b.Key() {
      assert |a.node| == |b.node|;
      assert a.node == a.Key()[..|a.node|] == b.node;
      assert a.check == a.Key()[|a.node| + 1..] == b.check;
    }
  }
}
