// internal/signal/condition: the printer that joins a check's events into one
// length-limited message, and the parser that reads the message back.

module Condition {
  import opened Text
  import opened Signals

  const EVENT_SEPARATOR := ';'
  const TRUNCATION_SUFFIX := "..."
  const ACTION_MARKER := "Recommended Action="

  // What the three capture expressions find in one event. They are left
  // open: the results hold whatever they are.
  datatype Patterns = Patterns(
    action: string -> seq<string>,
    errorCode: string -> seq<string>,
    gpuUUID: string -> seq<string>)

  // ------------------------------------------------- the terminal action

  predicate IsBlankChar(c: char) { c == ' ' || c == '\t' || c == '\n' || c == '\r' || c == '\U{0c}' }

  predicate IsActionChar(c: char) { 'A' <= c <= 'Z' || c == '_' }

  /** What `Recommended Action=([A-Z_]+)\s*$` captures. */
  function TerminalAction(event: string): Option<string> {
    var body := StripRight(event, IsBlankChar);
    var before := StripRight(body, IsActionChar);
    var name := body[|before|..];
    if name != "" && HasSuffix(before, ACTION_MARKER) then Some(name) else None
  }

  predicate IsComplete(event: string) {
    var action := TerminalAction(event);
    action.Some? && IsKnownAction(action.value)
  }

  /** The expression's own meaning: the event is some text, the marker, a name
      and blanks. */
  ghost predicate EndsInAction(event: string, name: string) {
    exists text, blanks :: Splits(event, text, name, blanks)
  }

  ghost predicate Splits(event: string, text: string, name: string, blanks: string) {
    && event == text + ACTION_MARKER + name + blanks
    && name != "" && (forall c :: c in name ==> IsActionChar(c))
    && (forall c :: c in blanks ==> IsBlankChar(c))
  }

  lemma {:induction false} StripRightIsLongest(s: string, t: string, p: char -> bool)
    requires s != "" ==> !p(s[|s| - 1])
    requires forall c :: c in t ==> p(c)
    ensures StripRight(s + t, p) == s
  {
    if t == "" {
      assert s + t == s;
    } else {
      var n := |t| - 1;
      assert (s + t)[..|s + t| - 1] == s + t[..n];
      assert t[n] in t;
      StripRightIsLongest(s, t[..n], p);
    }
  }

  lemma CapturedIsAMatch(event: string, name: string)
    requires TerminalAction(event) == Some(name)
    ensures EndsInAction(event, name)
  {
    var body := StripRight(event, IsBlankChar);
    var before := StripRight(body, IsActionChar);
    var text := before[..|before| - |ACTION_MARKER|];
    assert event == body + event[|body|..];
    assert body == before + name;
    assert before == text + ACTION_MARKER;
    assert Splits(event, text, name, event[|body|..]);
  }

  lemma MatchIsCaptured(event: string, name: string, text: string, blanks: string)
    requires Splits(event, text, name, blanks)
    ensures TerminalAction(event) == Some(name)
  {
    var marked := text + ACTION_MARKER;
    assert name[|name| - 1] in name;
    assert (marked + name)[|marked + name| - 1] == name[|name| - 1];
    StripRightIsLongest(marked + name, blanks, IsBlankChar);
    assert marked[|marked| - 1] == '=';
    StripRightIsLongest(marked, name, IsActionChar);
    hide StripRight;
  }

  /** The computed capture is the expression's match, and the only one. */
  lemma TerminalActionIsTheMatch(event: string, name: string)
    ensures TerminalAction(event) == Some(name) <==> EndsInAction(event, name)
  {
    hide TerminalAction, Splits;
    if TerminalAction(event) == Some(name) {
      CapturedIsAMatch(event, name);
    }
    if EndsInAction(event, name) {
      var text, blanks :| Splits(event, text, name, blanks);
      MatchIsCaptured(event, name, text, blanks);
    }
  }

  // ------------------------------------------------------------ the printer

  /** The room the events take: each is followed by a separator. */
  function Width(events: seq<string>): nat {
    if events == [] then 0 else |events[0]| + 1 + Width(events[1..])
  }

  /** How many events fit in maxLen, counted from the first. */
  function KeptWhole(events: seq<string>, maxLen: int): (k: nat)
    ensures k <= |events|
    ensures k > 0 ==> Width(events[..k]) <= maxLen
    ensures k < |events| ==> Width(events[..k + 1]) > maxLen
  {
    if events == [] || |events[0]| + 1 > maxLen then
      assert events != [] ==> Width(events[..1]) == |events[0]| + 1;
      0
    else
      var k := KeptWhole(events[1..], maxLen - |events[0]| - 1);
      assert events[..k + 1][1..] == events[1..][..k];
      assert k < |events[1..]| ==> events[..k + 2][1..] == events[1..][..k + 1];
      1 + k
  }

  /** The room left for the first event that does not fit, without the
      separators around it and the truncation suffix. */
  function Room(events: seq<string>, maxLen: int): int {
    maxLen - Width(events[..KeptWhole(events, maxLen)]) - 1 - |TRUNCATION_SUFFIX|
  }

  /** What is printed of the first event that does not fit. */
  function Cut(events: seq<string>, maxLen: int): (cut: string)
    ensures cut != "" ==> KeptWhole(events, maxLen) < |events| && cut < events[KeptWhole(events, maxLen)]
  {
    var k := KeptWhole(events, maxLen);
    var room := Room(events, maxLen);
    if k < |events| && room > 0 then
      WidthAppend(events, k);
      events[k][..room]
    else ""
  }

  /** The pieces the message shows: the events kept whole, then the cut. */
  function Pieces(events: seq<string>, maxLen: int): seq<string> {
    var k := KeptWhole(events, maxLen);
    events[..k] + if Cut(events, maxLen) == "" then [] else [Cut(events, maxLen)]
  }

  function Printed(events: seq<string>, maxLen: int): string {
    var pieces := Pieces(events, maxLen);
    Join(pieces, EVENT_SEPARATOR) + [EVENT_SEPARATOR]
    + if KeptWhole(events, maxLen) < |events| then TRUNCATION_SUFFIX else ""
  }

  lemma {:induction false} WidthAppend(events: seq<string>, i: nat)
    requires i < |events|
    ensures Width(events[..i + 1]) == Width(events[..i]) + |events[i]| + 1
  {
    if i > 0 {
      WidthAppend(events[1..], i - 1);
      assert events[..i][1..] == events[1..][..i - 1];
      assert events[..i + 1][1..] == events[1..][..i];
    }
  }

  lemma {:induction false} WidthGrows(events: seq<string>, i: nat, j: nat)
    requires i <= j <= |events|
    ensures Width(events[..i]) <= Width(events[..j])
    decreases j - i
  {
    if i < j {
      WidthAppend(events, i);
      WidthGrows(events, i + 1, j);
    }
  }

  lemma {:induction false} JoinWidth(parts: seq<string>)
    requires parts != []
    ensures |Join(parts, EVENT_SEPARATOR)| == Width(parts) - 1
  {
    if |parts| > 1 { JoinWidth(parts[1..]); }
  }

  /** The connector's printer: whole events while they fit, then as much of
      the next as there is room for. */
  method JoinEvents(events: seq<string>, maxLen: int) returns (message: string)
    ensures message == Printed(events, maxLen)
  {
    var b: string := "";
    var truncated := false;
    var i := 0;
    ghost var shown: seq<string> := [];
    while i < |events|
      invariant 0 <= i <= |events| && !truncated
      invariant i > 0 ==> Width(events[..i]) <= maxLen
      invariant shown == events[..i] && b == Join(shown, EVENT_SEPARATOR)
    {
      var ev := events[i];
      var sep := if i > 0 then [EVENT_SEPARATOR] else "";
      WidthAppend(events, i);
      if i > 0 { JoinWidth(shown); JoinAppend(shown, ev, EVENT_SEPARATOR); }
      assert events[..i + 1] == events[..i] + [ev];
      if |b| + |sep| + |ev| + 1 > maxLen {
        var available := maxLen - |b| - |sep| - 1 - |TRUNCATION_SUFFIX|;
        KeptWholeIs(events, maxLen, i);
        assert available == Room(events, maxLen);
        if available > 0 {
          if i > 0 { JoinAppend(shown, ev[..available], EVENT_SEPARATOR); }
          shown := shown + [ev[..available]];
          b := b + sep + ev[..available];
        }
        truncated := true;
        break;
      }
      b := b + sep + ev;
      shown := shown + [ev];
      i := i + 1;
    }
    assert events[..|events|] == events;
    KeptWholeIs(events, maxLen, i);
    assert shown == Pieces(events, maxLen);
    message := b + [EVENT_SEPARATOR];
    if truncated {
      message := message + TRUNCATION_SUFFIX;
    }
  }

  lemma KeptWholeIs(events: seq<string>, maxLen: int, k: nat)
    requires k <= |events|
    requires k > 0 ==> Width(events[..k]) <= maxLen
    requires k < |events| ==> Width(events[..k + 1]) > maxLen
    ensures KeptWhole(events, maxLen) == k
  {
    var kept := KeptWhole(events, maxLen);
    if kept < k {
      WidthGrows(events, kept + 1, k);
    } else if k < kept {
      WidthGrows(events, k + 1, kept);
    }
  }

  // ------------------------------------------------------------- the parser

  function Visible(parts: seq<string>): seq<string> {
    if parts == [] then []
    else
      var n := |parts| - 1;
      Visible(parts[..n]) + if TrimSpace(parts[n]) == "" then [] else [parts[n]]
  }

  function TrimSuffix(s: string, suffix: string): string {
    if HasSuffix(s, suffix) then s[..|s| - |suffix|] else s
  }

  /** The complete events a message carries. */
  function EventsOf(message: string, truncated: bool): seq<string> {
    var body := if truncated then TrimSuffix(message, TRUNCATION_SUFFIX) else message;
    var shown := Visible(Split(body, EVENT_SEPARATOR));
    if truncated && shown != [] && !IsComplete(shown[|shown| - 1])
    then shown[..|shown| - 1] else shown
  }

  method Events(message: string, truncated: bool) returns (out: seq<string>)
    ensures out == EventsOf(message, truncated)
  {
    hide TrimSpace, IsComplete, Split, HasSuffix;
    var body := if truncated then TrimSuffix(message, TRUNCATION_SUFFIX) else message;
    var parts := Split(body, EVENT_SEPARATOR);
    out := [];
    for i := 0 to |parts|
      invariant out == Visible(parts[..i])
    {
      assert parts[..i + 1][..i] == parts[..i];
      if TrimSpace(parts[i]) == "" {
        continue;
      }
      out := out + [parts[i]];
    }
    assert parts[..|parts|] == parts;
    if truncated && |out| > 0 && !IsComplete(out[|out| - 1]) {
      out := out[..|out| - 1];
    }
  }

  /** Every match in every event, in order. */
  function Matches(find: string -> seq<string>, events: seq<string>): seq<string> {
    if events == [] then []
    else Matches(find, events[..|events| - 1]) + find(events[|events| - 1])
  }

  /** The submatches across the events, each once, in order of first
      appearance. */
  method Captures(find: string -> seq<string>, events: seq<string>) returns (out: seq<string>)
    ensures out == Dedup(Matches(find, events))
  {
    assert Dedup(Matches(find, [])) == [];
    hide Dedup;
    var seen: set<string> := {};
    out := [];
    assert events[..0] == [];
    for i := 0 to |events|
      invariant out == Dedup(Matches(find, events[..i]))
      invariant forall x :: x in seen <==> x in out
    {
      var found := find(events[i]);
      ghost var before := Matches(find, events[..i]);
      assert before + found[..0] == before;
      for j := 0 to |found|
        invariant out == Dedup(before + found[..j])
        invariant forall x :: x in seen <==> x in out
      {
        DedupNext(before, found, j);
        if found[j] !in seen {
          seen := seen + {found[j]};
          out := out + [found[j]];
        }
      }
      MatchesAppend(find, events, i);
      assert found[..|found|] == found;
    }
    assert events[..|events|] == events;
  }

  lemma DedupNext(before: seq<string>, found: seq<string>, j: nat)
    requires j < |found|
    ensures
      var kept := Dedup(before + found[..j]);
      Dedup(before + found[..j + 1]) == if found[j] in kept then kept else kept + [found[j]]
  {
    DedupAppend(before + found[..j], found[j]);
    assert before + found[..j] + [found[j]] == before + found[..j + 1];
  }

  lemma MatchesAppend(find: string -> seq<string>, events: seq<string>, i: nat)
    requires i < |events|
    ensures Matches(find, events[..i + 1]) == Matches(find, events[..i]) + find(events[i])
  {
    assert events[..i + 1][..i] == events[..i];
  }

  /** Decodes one node condition; None for one NVSentinel did not author. */
  function Parse(patterns: Patterns, conditionType: string, message: string): Option<Signal> {
    if !Contains(message, ACTION_MARKER) then None
    else
      var truncated := HasSuffix(message, [EVENT_SEPARATOR] + TRUNCATION_SUFFIX);
      var evs := EventsOf(message, truncated);
      Some(Signal("", conditionType,
                  Dedup(Matches(patterns.action, evs)),
                  Dedup(Matches(patterns.errorCode, evs)),
                  Dedup(Matches(patterns.gpuUUID, evs)),
                  truncated, ""))
  }

  method ParseCondition(patterns: Patterns, conditionType: string, message: string) returns (sig: Option<Signal>)
    ensures sig == Parse(patterns, conditionType, message)
  {
    if !Contains(message, ACTION_MARKER) {
      return None;
    }
    var truncated := HasSuffix(message, [EVENT_SEPARATOR] + TRUNCATION_SUFFIX);
    var evs := Events(message, truncated);
    var actions := Captures(patterns.action, evs);
    var errorCodes := Captures(patterns.errorCode, evs);
    var gpuUUIDs := Captures(patterns.gpuUUID, evs);
    sig := Some(Signal("", conditionType, actions, errorCodes, gpuUUIDs, truncated, ""));
  }

  // ------------------------------------------ what the connector writes

  /** An event as the connector stores it: no separator, and ending in a known
      action, the only place the marker is in. */
  ghost predicate WellFormed(event: string) {
    && EVENT_SEPARATOR !in event
    && exists text, name :: Ends(event, text, name)
  }

  ghost predicate Ends(event: string, text: string, name: string) {
    && event == text + ACTION_MARKER + name && IsKnownAction(name)
    && forall i :: 0 <= i <= |event| && At(event, i, ACTION_MARKER) ==> i == |text|
  }

  lemma KnownActionsAreNames(name: string)
    requires IsKnownAction(name)
    ensures name != "" && forall c :: c in name ==> IsActionChar(c)
  {
  }

  lemma WellFormedIsComplete(event: string)
    requires WellFormed(event)
    ensures IsComplete(event) && TrimSpace(event) != "" && Contains(event, ACTION_MARKER)
  {
    hide TerminalAction, TrimSpace, IsKnownAction, IsActionChar, IsBlankChar;
    var text, name :| Ends(event, text, name);
    KnownActionsAreNames(name);
    assert Splits(event, text, name, "");
    TerminalActionIsTheMatch(event, name);
    assert At(event, |text|, ACTION_MARKER);
    assert event[|text|] == ACTION_MARKER[0];
    TrimLeftOfVisible(event, |text|);
  }

  /** In a prefix of an event the marker can only be where the event has it,
      so what follows it is a prefix of the event's action. */
  lemma CutShowsPrefix(event: string, cut: string, text: string, name: string,
                       before: string, shown: string, blanks: string)
    requires Ends(event, text, name) && cut < event && Splits(cut, before, shown, blanks)
    ensures shown < name
  {
    hide IsKnownAction, IsActionChar, IsBlankChar;
    MarkerStays(event, cut, before, shown + blanks);
    assert cut == before + ACTION_MARKER + shown + blanks == (before + ACTION_MARKER) + (shown + blanks);
    RestOfPrefix(before + ACTION_MARKER, shown + blanks, text + ACTION_MARKER, name);
    assert shown == (shown + blanks)[..|shown|] == name[..|shown|];
  }

  lemma MarkerStays(event: string, cut: string, before: string, rest: string)
    requires cut <= event && cut == (before + ACTION_MARKER) + rest
    ensures At(event, |before|, ACTION_MARKER)
  {
    var n := |before| + |ACTION_MARKER|;
    assert cut == event[..|cut|];
    assert event[|before|..n] == cut[|before|..n] == ACTION_MARKER;
  }

  lemma RestOfPrefix(a: string, x: string, b: string, y: string)
    requires |a| == |b| && a + x < b + y
    ensures x < y
  {
    assert x == (a + x)[|a|..] && y == (b + y)[|a|..];
  }

  /** No proper prefix of an event ends in a known action. */
  lemma CutIsIncomplete(event: string, cut: string)
    requires WellFormed(event) && cut < event
    ensures !IsComplete(cut)
  {
    if IsComplete(cut) {
      var text, name :| Ends(event, text, name);
      var shown := TerminalAction(cut).value;
      TerminalActionIsTheMatch(cut, shown);
      var before, blanks :| Splits(cut, before, shown, blanks);
      CutShowsPrefix(event, cut, text, name, before, shown, blanks);
      KnownActionsArePrefixFree(shown, name);
    }
  }

  lemma {:induction false} VisibleOfVisible(parts: seq<string>)
    requires forall p :: p in parts ==> TrimSpace(p) != ""
    ensures Visible(parts) == parts
  {
    hide TrimSpace;
    if parts != [] {
      var n := |parts| - 1;
      VisibleOfVisible(parts[..n]);
      assert parts == parts[..n] + [parts[n]];
    }
  }

  lemma VisibleAppend(parts: seq<string>, p: string)
    ensures Visible(parts + [p]) == Visible(parts) + if TrimSpace(p) == "" then [] else [p]
  {
    assert (parts + [p])[..|parts|] == parts;
  }

  /** The pieces with the empty text the printer shows for none. */
  function Shown(events: seq<string>, maxLen: int): (shown: seq<string>)
    ensures shown != []
  {
    if Pieces(events, maxLen) == [] then [""] else Pieces(events, maxLen)
  }

  lemma ShownHasNoSeparator(events: seq<string>, maxLen: int)
    requires forall e :: e in events ==> WellFormed(e)
    ensures forall p :: p in Shown(events, maxLen) ==> EVENT_SEPARATOR !in p
  {
    var k := KeptWhole(events, maxLen);
    forall p | p in Shown(events, maxLen) ensures EVENT_SEPARATOR !in p {
      if p in events[..k] {
        assert p in events;
      } else if p != "" {
        assert WellFormed(events[k]) && p == events[k][..|p|];
      }
    }
  }

  /** The message is a joined list that ends in an empty text, or in the
      suffix when an event was not kept whole. */
  lemma PrintedShape(events: seq<string>, maxLen: int)
    ensures
      var body := Join(Shown(events, maxLen) + [""], EVENT_SEPARATOR);
      Printed(events, maxLen)
      == body + if KeptWhole(events, maxLen) < |events| then TRUNCATION_SUFFIX else ""
    ensures
      HasSuffix(Join(Shown(events, maxLen) + [""], EVENT_SEPARATOR), [EVENT_SEPARATOR])
  {
    hide Cut, KeptWhole, Pieces;
    var shown := Shown(events, maxLen);
    assert Join(shown, EVENT_SEPARATOR) == Join(Pieces(events, maxLen), EVENT_SEPARATOR);
    hide Join, Shown;
    JoinAppend(shown, "", EVENT_SEPARATOR);
    var body := Join(shown + [""], EVENT_SEPARATOR);
    assert body == Join(shown, EVENT_SEPARATOR) + [EVENT_SEPARATOR];
    assert body[|body| - 1..] == [EVENT_SEPARATOR];
  }

  lemma SuffixTells(body: string, cutShort: bool)
    requires HasSuffix(body, [EVENT_SEPARATOR])
    ensures
      var message := body + if cutShort then TRUNCATION_SUFFIX else "";
      && HasSuffix(message, [EVENT_SEPARATOR] + TRUNCATION_SUFFIX) == cutShort
      && (if cutShort then TrimSuffix(message, TRUNCATION_SUFFIX) else message) == body
  {
    var message := body + if cutShort then TRUNCATION_SUFFIX else "";
    var suffix := [EVENT_SEPARATOR] + TRUNCATION_SUFFIX;
    if cutShort {
      assert message[|message| - 4..] == suffix;
      assert message[|message| - 3..] == TRUNCATION_SUFFIX;
      assert message[..|message| - 3] == body;
    } else {
      assert message == body;
      assert message[|message| - 1] == EVENT_SEPARATOR;
      assert suffix[3] == '.';
      if |message| >= 4 { assert message[|message| - 4..][3] == EVENT_SEPARATOR; }
    }
  }

  lemma BodySplits(events: seq<string>, maxLen: int)
    requires forall e :: e in events ==> WellFormed(e)
    ensures Visible(Split(Join(Shown(events, maxLen) + [""], EVENT_SEPARATOR), EVENT_SEPARATOR))
            == Visible(Pieces(events, maxLen))
  {
    var shown := Shown(events, maxLen);
    ShownHasNoSeparator(events, maxLen);
    SplitUndoesJoin(shown + [""], EVENT_SEPARATOR);
    VisibleAppend(shown, "");
    VisibleAppend([], "");
    assert [] + [""] == [""];
  }

  /** The printed message splits back into its pieces. */
  lemma PrintedSplits(events: seq<string>, maxLen: int)
    requires forall e :: e in events ==> WellFormed(e)
    ensures
      var cutShort := KeptWhole(events, maxLen) < |events|;
      var message := Printed(events, maxLen);
      var body := if cutShort then TrimSuffix(message, TRUNCATION_SUFFIX) else message;
      && HasSuffix(message, [EVENT_SEPARATOR] + TRUNCATION_SUFFIX) == cutShort
      && Visible(Split(body, EVENT_SEPARATOR)) == Visible(Pieces(events, maxLen))
  {
    PrintedShape(events, maxLen);
    SuffixTells(Join(Shown(events, maxLen) + [""], EVENT_SEPARATOR), KeptWhole(events, maxLen) < |events|);
    BodySplits(events, maxLen);
  }

  /** The parser drops the cut and nothing else. */
  lemma EventsOfPrinted(events: seq<string>, maxLen: int)
    requires forall e :: e in events ==> WellFormed(e)
    ensures EventsOf(Printed(events, maxLen), KeptWhole(events, maxLen) < |events|)
            == events[..KeptWhole(events, maxLen)]
  {
    hide TrimSpace, IsComplete, Split, TrimSuffix, Printed, WellFormed, Visible;
    var k := KeptWhole(events, maxLen);
    var kept, cut := events[..k], Cut(events, maxLen);
    forall e | e in events ensures IsComplete(e) && TrimSpace(e) != "" { WellFormedIsComplete(e); }
    PrintedSplits(events, maxLen);
    VisibleOfVisible(kept);
    VisibleAppend(kept, cut);
    if cut != "" {
      CutIsIncomplete(events[k], cut);
      assert Pieces(events, maxLen) == kept + [cut];
    } else {
      assert Pieces(events, maxLen) == kept;
    }
  }

  /** Parsing undoes printing, whatever the limit: the message is taken for
      NVSentinel's exactly when an event was kept whole or the cut still shows
      the marker; then it is flagged exactly when an event was not kept whole,
      and its tokens are those of the events kept whole and no others. */
  lemma ParseUndoesPrinting(patterns: Patterns, check: string, events: seq<string>, maxLen: int)
    requires forall e :: e in events ==> WellFormed(e)
    ensures
      var k := KeptWhole(events, maxLen);
      var parsed := Parse(patterns, check, Printed(events, maxLen));
      && (parsed.Some? <==> k > 0 || Contains(Cut(events, maxLen), ACTION_MARKER))
      && (parsed.Some? ==>
            && parsed.value.check == check
            && (parsed.value.truncated <==> k < |events|)
            && parsed.value.actions == Dedup(Matches(patterns.action, events[..k]))
            && parsed.value.errorCodes == Dedup(Matches(patterns.errorCode, events[..k]))
            && parsed.value.gpuUUIDs == Dedup(Matches(patterns.gpuUUID, events[..k])))
  {
    PrintedSplits(events, maxLen);
    EventsOfPrinted(events, maxLen);
    MarkerShows(events, maxLen);
  }

  lemma MarkerShows(events: seq<string>, maxLen: int)
    requires forall e :: e in events ==> WellFormed(e)
    ensures Contains(Printed(events, maxLen), ACTION_MARKER)
            <==> KeptWhole(events, maxLen) > 0 || Contains(Cut(events, maxLen), ACTION_MARKER)
  {
    var k := KeptWhole(events, maxLen);
    var pieces := Pieces(events, maxLen);
    var tail := if k < |events| then TRUNCATION_SUFFIX else "";
    var shown := if pieces == [] then [""] else pieces;
    JoinAppend(shown, tail, EVENT_SEPARATOR);
    ContainsJoined(shown + [tail], ACTION_MARKER, EVENT_SEPARATOR);
    assert |tail| < |ACTION_MARKER|;
    assert EVENT_SEPARATOR !in ACTION_MARKER;
    if k > 0 {
      WellFormedIsComplete(events[0]);
      assert events[0] in shown + [tail];
    }
    forall p | p in shown + [tail] && Contains(p, ACTION_MARKER)
      ensures k > 0 || p == Cut(events, maxLen)
    {
    }
    if Contains(Cut(events, maxLen), ACTION_MARKER) {
      assert Cut(events, maxLen) in shown + [tail];
    }
  }
}
