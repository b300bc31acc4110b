// internal/decision: the table from recommended actions to decisions, and the
// fold that lets the most disruptive one win.

module Decisions {
  import opened Text
  import opened Signals
  import opened Condition

  datatype Decision = Report | Restart | Replace
  {
    function Rank(): nat { match this case Report => 0 case Restart => 1 case Replace => 2 }

    predicate MoreDisruptiveThan(o: Decision) { Rank() > o.Rank() }
  }

  type Table = map<string, Decision>

  /** The decision for one action, and whether the table knows it. */
  function Lookup(t: Table, action: string): (Decision, bool) {
    if action in t then (t[action], true) else (Report, false)
  }

  // The decision, and the recommended action that determined it: empty when
  // the signal carried none.
  datatype Outcome = Outcome(decision: Decision, action: string)

  datatype Best = NothingYet | Found(outcome: Outcome, known: bool)

  function Better(t: Table, best: Best, action: string): Best {
    var (d, known) := Lookup(t, action);
    if || best.NothingYet? || d.MoreDisruptiveThan(best.outcome.decision)
       || (known && !best.known && d == best.outcome.decision)
    then Found(Outcome(d, action), known) else best
  }

  function BestOf(t: Table, actions: seq<string>): Best {
    if actions == [] then NothingYet
    else Better(t, BestOf(t, actions[..|actions| - 1]), actions[|actions| - 1])
  }

  function Decided(t: Table, actions: seq<string>): Outcome {
    match BestOf(t, actions)
    case NothingYet => Outcome(Report, "")
    case Found(outcome, _) => outcome
  }

  method Decide(t: Table, s: Signal) returns (outcome: Outcome)
    ensures outcome == Decided(t, s.actions)
    ensures outcome.decision == Replace <==> Reached(t, s.actions, Replace)
    ensures outcome.decision == Restart <==> !Reached(t, s.actions, Replace) && Reached(t, s.actions, Restart)
  {
    var best, bestKnown, found := Outcome(Report, ""), false, false;
    for i := 0 to |s.actions|
      invariant BestOf(t, s.actions[..i]) == if found then Found(best, bestKnown) else NothingYet
      invariant !found ==> best == Outcome(Report, "")
    {
      assert s.actions[..i + 1][..i] == s.actions[..i];
      var (d, known) := Lookup(t, s.actions[i]);
      if !found || d.MoreDisruptiveThan(best.decision) || (known && !bestKnown && d == best.decision) {
        best, bestKnown, found := Outcome(d, s.actions[i]), known, true;
      }
    }
    assert s.actions[..|s.actions|] == s.actions;
    outcome := best;
    DecisionByTable(t, s.actions);
  }

  /** The table maps the action to d. */
  predicate Reaches(t: Table, action: string, d: Decision) { action in t && t[action] == d }

  /** It maps one of the actions to d. */
  ghost predicate Reached(t: Table, actions: seq<string>, d: Decision) {
    exists a :: a in actions && Reaches(t, a, d)
  }

  /** Which of the actions is named for decision d: the first one the table
      knows to call for it, or the first of all when it knows none. */
  ghost predicate IsNamed(t: Table, actions: seq<string>, d: Decision, i: nat) {
    && i < |actions|
    && if Reached(t, actions, d)
       then Reaches(t, actions[i], d) && forall j :: 0 <= j < i ==> !Reaches(t, actions[j], d)
       else i == 0
  }

  ghost predicate IsGreatest(t: Table, actions: seq<string>, d: Decision) {
    && (forall a :: a in actions ==> Lookup(t, a).0.Rank() <= d.Rank())
    && exists a :: a in actions && Lookup(t, a).0 == d
  }

  lemma GreatestNext(t: Table, before: seq<string>, last: string, d: Decision)
    requires IsGreatest(t, before, d)
    ensures
      var e := Lookup(t, last).0;
      IsGreatest(t, before + [last], if e.MoreDisruptiveThan(d) then e else d)
  {
    hide Lookup;
    assert forall a :: a in before + [last] <==> a in before || a == last;
  }

  lemma OneIsGreatest(t: Table, action: string)
    ensures IsGreatest(t, [action], Lookup(t, action).0)
  {
    hide Lookup;
    assert action in [action];
  }

  lemma {:induction false} BestIsGreatest(t: Table, actions: seq<string>)
    requires actions != []
    ensures BestOf(t, actions).Found? && IsGreatest(t, actions, Decided(t, actions).decision)
  {
    hide IsGreatest, Lookup;
    var n := |actions| - 1;
    var before, last := actions[..n], actions[n];
    assert actions == before + [last];
    if before == [] {
      OneIsGreatest(t, last);
    } else {
      BestIsGreatest(t, before);
      GreatestNext(t, before, last, Decided(t, before).decision);
    }
  }

  /** The first of the actions that the best one comes from. */
  lemma {:induction false} BestIsNamed(t: Table, actions: seq<string>) returns (i: nat)
    requires actions != []
    ensures BestOf(t, actions).Found?
    ensures
      var o := Decided(t, actions);
      && IsNamed(t, actions, o.decision, i) && o.action == actions[i]
      && (BestOf(t, actions).known <==> Reached(t, actions, o.decision))
  {
    var n := |actions| - 1;
    var before, last := actions[..n], actions[n];
    assert actions == before + [last];
    ReachedNext(t, before, last, Decided(t, actions).decision);
    hide Reached, IsGreatest;
    if before == [] {
      i := 0;
    } else {
      i := BestIsNamed(t, before);
      BestIsGreatest(t, before);
      NotAboveTheGreatest(t, before, Decided(t, before).decision);
      assert forall j :: 0 <= j < n ==> actions[j] == before[j];
      if BestOf(t, actions) != BestOf(t, before) {
        i := n;
        UnreachedAt(t, before, Decided(t, actions).decision);
      }
    }
  }

  lemma ReachedNext(t: Table, before: seq<string>, last: string, d: Decision)
    ensures Reached(t, before + [last], d) <==> Reached(t, before, d) || Reaches(t, last, d)
    ensures !Reached(t, [], d)
  {
    assert forall a :: a in before + [last] <==> a in before || a == last;
  }

  lemma NotAboveTheGreatest(t: Table, actions: seq<string>, d: Decision)
    requires IsGreatest(t, actions, d)
    ensures forall e: Decision :: e.MoreDisruptiveThan(d) ==> !Reached(t, actions, e)
  {
  }

  lemma UnreachedAt(t: Table, actions: seq<string>, d: Decision)
    ensures !Reached(t, actions, d) ==> forall j :: 0 <= j < |actions| ==> !Reaches(t, actions[j], d)
  {
  }

  /** A replacement is decided on exactly when the table calls for one on some
      action, and a restart exactly when it calls for one on some action and
      for a replacement on none. Everything else is reported. */
  lemma DecisionByTable(t: Table, actions: seq<string>)
    ensures Decided(t, actions).decision == Replace <==> Reached(t, actions, Replace)
    ensures Decided(t, actions).decision == Restart <==> !Reached(t, actions, Replace) && Reached(t, actions, Restart)
  {
    if actions != [] {
      var d := Decided(t, actions).decision;
      BestIsGreatest(t, actions);
      NotAboveTheGreatest(t, actions, d);
      var a :| a in actions && Lookup(t, a).0 == d;
      assert Reaches(t, a, d) || d.Report?;
    }
  }

  /** The decision is the most disruptive any of the actions calls for, and the
      action named is the first that called for it. */
  lemma DecisionIsGreatest(t: Table, actions: seq<string>) returns (i: nat)
    requires actions != []
    ensures
      var o := Decided(t, actions);
      && (o.decision == Replace <==> Reached(t, actions, Replace))
      && (o.decision == Restart <==> !Reached(t, actions, Replace) && Reached(t, actions, Restart))
      && IsNamed(t, actions, o.decision, i) && o.action == actions[i]
  {
    hide BestOf, IsNamed, Lookup;
    DecisionByTable(t, actions);
    i := BestIsNamed(t, actions);
  }

  /** Fewer actions never make for a more disruptive decision. */
  lemma FewerActionsNeverEscalate(t: Table, fewer: seq<string>, more: seq<string>)
    requires forall a :: a in fewer ==> a in more
    ensures Decided(t, fewer).decision == Replace ==> Decided(t, more).decision == Replace
    ensures Decided(t, fewer).decision == Restart ==> Decided(t, more).decision != Report
  {
    DecisionByTable(t, fewer);
    DecisionByTable(t, more);
    assert forall d :: Reached(t, fewer, d) ==> Reached(t, more, d);
  }

  /** The decision depends on which actions there are, not on their order or
      on how often each is listed. */
  lemma OrderAndRepeatsDoNotMatter(t: Table, a: seq<string>, b: seq<string>)
    requires forall x :: x in a <==> x in b
    ensures Decided(t, a).decision == Decided(t, b).decision
  {
    FewerActionsNeverEscalate(t, a, b);
    FewerActionsNeverEscalate(t, b, a);
  }

  /** Whatever the limit a message was cut to, and for every table: what is
      replaced on it is replaced on the same events with room for all of them,
      and what is restarted on it is not merely reported on those. */
  lemma CutNeverEscalates(t: Table, patterns: Patterns, check: string, events: seq<string>, maxLen: int, roomy: int)
    requires forall e :: e in events ==> WellFormed(e)
    requires Width(events) <= roomy
    ensures
      var cut := Parse(patterns, check, Printed(events, maxLen));
      var whole := Parse(patterns, check, Printed(events, roomy));
      cut.Some? ==>
        && whole.Some? && !whole.value.truncated
        && (Decided(t, cut.value.actions).decision == Replace ==> Decided(t, whole.value.actions).decision == Replace)
        && (Decided(t, cut.value.actions).decision == Restart ==> Decided(t, whole.value.actions).decision != Report)
  {
    hide Parse, Printed, Decided, WellFormed, Cut, Matches, Contains;
    ParseUndoesPrinting(patterns, check, events, maxLen);
    ParseUndoesPrinting(patterns, check, events, roomy);
    assert events[..|events|] == events;
    KeptWholeIs(events, roomy, |events|);
    MatchesMembers(patterns.action, events, KeptWhole(events, maxLen));
    if Parse(patterns, check, Printed(events, maxLen)).Some? {
      FewerActionsNeverEscalate(t,
        Parse(patterns, check, Printed(events, maxLen)).value.actions,
        Parse(patterns, check, Printed(events, roomy)).value.actions);
    }
  }

  lemma {:induction false} MatchesMembers(find: string -> seq<string>, events: seq<string>, k: nat)
    requires k <= |events|
    ensures forall x :: x in Matches(find, events[..k]) ==> x in Matches(find, events)
    decreases |events| - k
  {
    if k < |events| {
      MatchesAppend(find, events, k);
      MatchesMembers(find, events, k + 1);
    } else {
      assert events[..k] == events;
    }
  }

  // -------------------------------------------------- overrides as one text

  datatype OverrideError = NotAPair(pair: string) | ListedTwice(action: string)

  type Overrides = Result<map<string, string>, OverrideError>

  function IndexOf(s: string, c: char): (i: nat)
    ensures i <= |s|
    ensures i < |s| ==> s[i] == c
    ensures forall j :: 0 <= j < i ==> s[j] != c
  {
    if s == "" || s[0] == c then 0 else 1 + IndexOf(s[1..], c)
  }

  function AddPair(sofar: Overrides, text: string): Overrides {
    var pair := TrimSpace(text);
    if sofar.Err? || pair == "" then sofar
    else
      var i := IndexOf(pair, '=');
      var action := TrimSpace(pair[..i]);
      if i == |pair| || action == "" then Err(NotAPair(pair))
      else if action in sofar.value then Err(ListedTwice(action))
      else Ok(sofar.value[action := TrimSpace(pair[i + 1..])])
  }

  function Overridden(pairs: seq<string>): Overrides {
    if pairs == [] then Ok(map[]) else AddPair(Overridden(pairs[..|pairs| - 1]), pairs[|pairs| - 1])
  }

  /** Reads ACTION=decision pairs, comma-separated. */
  method ParseOverrides(s: string) returns (r: Overrides)
    ensures r == Overridden(Split(s, ','))
  {
    hide TrimSpace, Split, IndexOf;
    var pairs := Split(s, ',');
    var out: map<string, string> := map[];
    for i := 0 to |pairs|
      invariant Overridden(pairs[..i]) == Ok(out)
    {
      assert pairs[..i + 1][..i] == pairs[..i];
      var pair := TrimSpace(pairs[i]);
      if pair == "" {
        continue;
      }
      var at := IndexOf(pair, '=');
      var action := TrimSpace(pair[..at]);
      if at == |pair| || action == "" {
        ErrorStays(pairs, i + 1);
        return Err(NotAPair(pair));
      }
      if action in out {
        ErrorStays(pairs, i + 1);
        return Err(ListedTwice(action));
      }
      out := out[action := TrimSpace(pair[at + 1..])];
    }
    assert pairs[..|pairs|] == pairs;
    r := Ok(out);
  }

  lemma {:induction false} ErrorStays(pairs: seq<string>, i: nat)
    requires i <= |pairs| && Overridden(pairs[..i]).Err?
    ensures Overridden(pairs) == Overridden(pairs[..i])
    decreases |pairs| - i
  {
    if i < |pairs| {
      assert pairs[..i + 1][..i] == pairs[..i];
      ErrorStays(pairs, i + 1);
    } else {
      assert pairs[..i] == pairs;
    }
  }

  /** The text, but for spaces, is an action that is not blank, an equals sign and
      a value. */
  ghost predicate IsPair(text: string, action: string, value: string) {
    var t := TrimSpace(text);
    exists i :: 0 <= i < |t| && t[i] == '=' && '=' !in t[..i]
                && action == TrimSpace(t[..i]) != "" && value == TrimSpace(t[i + 1..])
  }

  lemma PairIsAt(text: string, action: string, value: string)
    ensures
      var t := TrimSpace(text);
      var i := IndexOf(t, '=');
      IsPair(text, action, value) <==> i < |t| && action == TrimSpace(t[..i]) != "" && value == TrimSpace(t[i + 1..])
  {
    hide TrimSpace;
    var t := TrimSpace(text);
    var i := IndexOf(t, '=');
    forall k | 0 <= k < |t| && t[k] == '=' && '=' !in t[..k] ensures k == i {
      assert forall j :: 0 <= j < k ==> t[..k][j] == t[j];
    }
    assert '=' !in t[..i];
    hide IndexOf;
  }

  ghost predicate EachIsPair(pairs: seq<string>) {
    forall p :: p in pairs && TrimSpace(p) != "" ==> exists action, value :: IsPair(p, action, value)
  }

  ghost predicate Listed(pairs: seq<string>, action: string, value: string) {
    exists p :: p in pairs && IsPair(p, action, value)
  }

  /** No two of the pairs are for one action. */
  ghost predicate EachActionOnce(pairs: seq<string>) {
    forall i, j, action, v, u :: 0 <= i < j < |pairs| && IsPair(pairs[i], action, v) ==> !IsPair(pairs[j], action, u)
  }

  lemma OnePairMore(before: seq<string>, last: string)
    ensures EachIsPair(before + [last])
            <==> EachIsPair(before) && (TrimSpace(last) == "" || exists action, value :: IsPair(last, action, value))
    ensures forall action, value :: Listed(before + [last], action, value)
                                <==> Listed(before, action, value) || IsPair(last, action, value)
    ensures EachActionOnce(before + [last])
            <==> EachActionOnce(before) && forall action, v, u :: IsPair(last, action, u) ==> !Listed(before, action, v)
  {
    hide IsPair, TrimSpace;
    var all := before + [last];
    assert forall p :: p in all <==> p in before || p == last;
    assert forall i :: 0 <= i < |before| ==> all[i] == before[i];
    assert all[|before|] == last;
    if EachActionOnce(all) {
      forall action, v | Listed(before, action, v) ensures forall u :: !IsPair(last, action, u) {
        var p :| p in before && IsPair(p, action, v);
        var i :| 0 <= i < |before| && before[i] == p;
        assert IsPair(all[i], action, v) && 0 <= i < |before| < |all|;
      }
      forall i, j, action, v, u | 0 <= i < j < |before| && IsPair(before[i], action, v) ensures !IsPair(before[j], action, u) {
        assert IsPair(all[i], action, v) && all[j] == before[j];
      }
    } else if EachActionOnce(before) && forall action, v, u :: IsPair(last, action, u) ==> !Listed(before, action, v) {
      forall i, j, action, v, u | 0 <= i < j < |all| && IsPair(all[i], action, v) ensures !IsPair(all[j], action, u) {
        assert all[i] == before[i] && before[i] in before;
        assert Listed(before, action, v);
      }
    }
  }

  /** The pairs are read exactly when each that is not blank is one and no action
      is listed twice, and then as what they list. */
  lemma {:induction false} OverriddenExactlyWhen(pairs: seq<string>)
    ensures Overridden(pairs).Ok? <==> EachIsPair(pairs) && EachActionOnce(pairs)
    ensures Overridden(pairs).Ok? ==>
              forall action, value :: Listed(pairs, action, value)
                                  <==> action in Overridden(pairs).value && Overridden(pairs).value[action] == value
  {
    hide IsPair, TrimSpace, IndexOf;
    if pairs != [] {
      var n := |pairs| - 1;
      var before, last := pairs[..n], pairs[n];
      assert pairs == before + [last];
      OverriddenExactlyWhen(before);
      OnePairMore(before, last);
      forall action, value ensures
        var t := TrimSpace(last);
        var i := IndexOf(t, '=');
        IsPair(last, action, value) <==> i < |t| && action == TrimSpace(t[..i]) != "" && value == TrimSpace(t[i + 1..])
      {
        PairIsAt(last, action, value);
      }
      var t := TrimSpace(last);
      var i := IndexOf(t, '=');
      var added := Overridden(before);
      if i < |t| && TrimSpace(t[..i]) != "" {
        assert IsPair(last, TrimSpace(t[..i]), TrimSpace(t[i + 1..]));
        assert added.Ok? && TrimSpace(t[..i]) in added.value ==>
            Listed(before, TrimSpace(t[..i]), added.value[TrimSpace(t[..i])]);
      }
      hide EachIsPair, EachActionOnce, Listed;
    }
  }

  // One entry of the chart's decisions value, as the chart prints it.
  datatype Entry = Entry(action: string, decision: string)
  {
    function Text(): string { action + "=" + decision }

    ghost predicate Plain() {
      && action != "" && Trimmed(action) && Trimmed(decision)
      && '=' !in action && ',' !in action && ',' !in decision
    }
  }

  function Texts(entries: seq<Entry>): seq<string> { seq(|entries|, i requires 0 <= i < |entries| => entries[i].Text()) }

  function AsMap(entries: seq<Entry>): map<string, string> {
    if entries == [] then map[]
    else AsMap(entries[..|entries| - 1])[entries[|entries| - 1].action := entries[|entries| - 1].decision]
  }

  lemma {:induction false} AsMapKeys(entries: seq<Entry>)
    ensures forall a :: a in AsMap(entries) <==> exists e :: e in entries && e.action == a
  {
    if entries != [] {
      var n := |entries| - 1;
      AsMapKeys(entries[..n]);
      assert entries == entries[..n] + [entries[n]];
    }
  }

  lemma PairReadsBack(e: Entry, sofar: map<string, string>)
    requires e.Plain() && e.action !in sofar
    ensures AddPair(Ok(sofar), e.Text()) == Ok(sofar[e.action := e.decision])
  {
    PairParts(e);
    TrimKeepsTrimmed(e.Text());
    TrimKeepsTrimmed(e.action);
    TrimKeepsTrimmed(e.decision);
  }

  lemma PairParts(e: Entry)
    requires e.Plain()
    ensures
      var pair := e.Text();
      && pair != "" && Trimmed(pair) && IndexOf(pair, '=') == |e.action| < |pair|
      && pair[..|e.action|] == e.action && pair[|e.action| + 1..] == e.decision
  {
    var pair := e.Text();
    assert pair[0] == e.action[0];
    assert pair[|pair| - 1] == if e.decision == "" then '=' else e.decision[|e.decision| - 1];
    assert pair[|e.action|] == '=';
    assert forall j :: 0 <= j < |e.action| ==> pair[j] == e.action[j];
  }

  /** The list the chart renders parses back to the values it was rendered
      from. */
  lemma {:induction false} RenderedOverridesReadBack(entries: seq<Entry>)
    requires entries != []
    requires forall e :: e in entries ==> e.Plain()
    requires forall i, j :: 0 <= i < j < |entries| ==> entries[i].action != entries[j].action
    ensures Overridden(Split(Join(Texts(entries), ','), ',')) == Ok(AsMap(entries))
  {
    forall p | p in Texts(entries) ensures ',' !in p {
      var i :| 0 <= i < |entries| && p == entries[i].Text();
      assert entries[i] in entries;
    }
    SplitUndoesJoin(Texts(entries), ',');
    PairsReadBack(entries, |entries|);
    assert entries[..|entries|] == entries;
    assert Texts(entries)[..|entries|] == Texts(entries);
  }

  lemma {:induction false} PairsReadBack(entries: seq<Entry>, k: nat)
    requires k <= |entries|
    requires forall e :: e in entries ==> e.Plain()
    requires forall i, j :: 0 <= i < j < |entries| ==> entries[i].action != entries[j].action
    ensures Overridden(Texts(entries)[..k]) == Ok(AsMap(entries[..k]))
  {
    hide AddPair;
    if k > 0 {
      PairsReadBack(entries, k - 1);
      assert Texts(entries)[..k][..k - 1] == Texts(entries)[..k - 1];
      assert entries[..k][..k - 1] == entries[..k - 1];
      AsMapKeys(entries[..k - 1]);
      assert entries[k - 1] in entries;
      PairReadsBack(entries[k - 1], AsMap(entries[..k - 1]));
    }
  }
}
