// What holds of the cluster controller's world whatever it does and whatever
// happens around it: where marks come from, that answers are earned, and that
// a replacement mark stays.

module ClusterSound {
  import opened Text
  import opened Machines
  import opened Requests
  import opened Store
  import opened Decisions
  import opened ClusterWorld

  ghost predicate NoOwn(m: Machine) { forall k :: k in OWN_KEYS ==> k !in m.annotations }

  function RecordOn(a: Annotations): RestartRecord {
    RestartRecord(Value(a, RemediationBootID), Value(a, RemediationRequest))
  }

  /** What a Machine is left with: what the mark records, and where it records
      nothing, what was there. */
  function LeftBy(r: MarkMade): RestartRecord {
    RestartRecord(
      if r.record.bootID != "" then r.record.bootID else RecordOn(r.over).bootID,
      if r.record.request != "" then r.record.request else RecordOn(r.over).request)
  }

  /** What the mark does not record was not there either. */
  predicate StandsAlone(r: MarkMade) {
    && (r.record.bootID != "" || RecordOn(r.over).bootID == "")
    && (r.record.request != "" || RecordOn(r.over).request == "")
  }

  /** The restart mark on m was set by r. */
  ghost predicate SetBy(r: MarkMade, m: Machine) {
    && r.seen.name == m.name && r.action == ACTION_RESTART && r.decision.Restart? && MarkedFor(m, ACTION_RESTART)
    && RecordOn(m.annotations) == LeftBy(r)
  }

  ghost predicate HasMaker(h: History, m: Machine) { exists r :: r in h.marks && SetBy(r, m) }

  /** A Machine carries the very record of the mark that was set exactly when
      that mark stands alone. */
  lemma RecordIsItsOwnExactlyWhen(r: MarkMade, m: Machine)
    requires SetBy(r, m)
    ensures RecordOn(m.annotations) == r.record <==> StandsAlone(r)
  {
  }

  /** A write to a Machine under this operator's replacement mark leaves that
      mark, unless it sets a restart mark, and it sets none with the operator's
      own last write in view. */
  ghost predicate KeepsReplacement(w: MachineWrite) {
    MarkedFor(w.before, ACTION_REMEDIATE) ==>
      && (MarkedFor(w.after, ACTION_REMEDIATE) <==> w.kind != MarkWrite(ACTION_RESTART))
      && (w.kind.MarkWrite? ==> !w.upToDate)
  }

  /** A write changes nothing but the five annotations of the mark: a release
      removes them all, an escalation leaves a replacement mark without a record,
      and a mark asks for its action. */
  ghost predicate OnlyTheMark(kind: WriteKind, before: Machine, after: Machine) {
    var a, b := after.annotations, before.annotations;
    && after == before.(version := after.version, annotations := a)
    && (forall k :: k !in {RemediateMachine, RemediationReason, RemediationAction, RemediationBootID, RemediationRequest} ==>
          (k in a <==> k in b) && (k in b ==> a[k] == b[k]))
    && match kind
       case ReleaseWrite =>
         && RemediateMachine !in a && RemediationReason !in a && RemediationAction !in a
         && RemediationBootID !in a && RemediationRequest !in a
       case EscalateWrite => MarkedFor(after, "Remediate") && RemediationBootID !in a && RemediationRequest !in a
       case MarkWrite(action) => MarkedFor(after, action)
  }

  lemma VersionsDoNotMatter(kind: WriteKind, before: Machine, updated: Machine, version: nat)
    requires OnlyTheMark(kind, before, updated)
    ensures OnlyTheMark(kind, before, updated.(version := version))
  {
  }

  /** The answer went to a pending version and settled it, with everything else
      about the request as it was. */
  ghost predicate Settles(a: AnswerGiven) {
    && Pending(a.before) && a.after.name == a.before.name && a.after.deleting == a.before.deleting
    && a.after.conditions == WithAnswer(a.before.conditions, AnswerCondition(a.complete, a.reason))
  }

  /** A True answer rests on what the pass saw: the Machine under this
      operator's restart mark, for this request or none, and the node back
      with another boot ID than the mark recorded. */
  ghost predicate SawRestart(a: AnswerGiven) {
    a.complete ==>
      && a.machine.Some? && RestartCompleted(a.machine.value, a.node)
      && RestartAnswers(a.machine.value, a.before.name)
  }

  /** An earlier pass set the mark the answer rests on. */
  ghost predicate Credited(h: History, a: AnswerGiven) {
    a.complete ==>
      a.machine.Some? && exists r :: r in h.marks && SetBy(r, a.machine.value) && r.pass < a.pass
  }

  /** An unmarked Machine carries nothing the operator records with a mark. */
  ghost predicate CleanWhenUnmarked(s: Machinery) {
    forall m :: m in s.past && !IsMarked(m) ==> NoOwn(m)
  }

  /** What was seen clean since the operator's own last write still is. */
  ghost predicate StaysClean(w: World) {
    && (forall n :: n in w.own ==> w.own[n] <= w.store.clock)
    && forall m :: m in w.store.past && m.name in w.store.machines && IsUpToDate(w, m) && NoOwn(m)
                   ==> NoOwn(w.store.machines[m.name])
  }

  ghost predicate EveryMarkWasMade(w: World) {
    forall m :: m in w.store.past && MarkedFor(m, ACTION_RESTART) ==> HasMaker(w.history, m)
  }

  ghost predicate MarksHeldTrue(w: World) {
    forall r :: r in w.history.marks ==> HeldTrue(w, r)
  }

  /** The pass found the request pending, if one is named. */
  ghost predicate WasFound(h: History, pass: nat, request: string) {
    request != "" ==> exists f :: f in h.pending && f.pass == pass && f.request.name == request
  }

  /** What was found pending was waiting for an answer. */
  ghost predicate OnlyWaitingFound(h: History) { forall f :: f in h.pending ==> Pending(f.request) }

  ghost predicate HeldTrue(w: World, r: MarkMade) {
    && r.pass <= w.pass && WasFound(w.history, r.pass, r.record.request)
    && (r.upToDate ==> StandsAlone(r))
  }

  ghost predicate WritesAndAnswersGood(h: History) {
    && (forall x :: x in h.writes ==> KeepsReplacement(x) && OnlyTheMark(x.kind, x.before, x.after))
    && (forall a :: a in h.answers ==> Settles(a) && SawRestart(a) && Credited(h, a))
  }

  ghost predicate AnswersDated(w: World) { forall a :: a in w.history.answers ==> a.pass <= w.pass }

  ghost predicate SoundRequests(w: World) {
    forall n :: n in w.requests ==> w.requests[n].name == n && w.requests[n].version <= w.store.clock
  }

  ghost predicate SoundWorld(w: World) {
    && Sound(w.store) && SoundRequests(w)
    && CleanWhenUnmarked(w.store) && StaysClean(w) && EveryMarkWasMade(w)
    && MarksHeldTrue(w) && AnswersDated(w) && WritesAndAnswersGood(w.history) && OnlyWaitingFound(w.history)
  }

  /** What was true of the past stays true of it. */
  ghost predicate Later(w: World, v: World) {
    && w.store.past <= v.store.past && w.store.clock <= v.store.clock && v.pass == w.pass
    && w.history.pending <= v.history.pending && w.history.marks <= v.history.marks
    && w.history.writes <= v.history.writes && w.history.answers <= v.history.answers
    && (forall r :: r in v.history.marks ==> r in w.history.marks || r.pass == w.pass)
    && (forall a :: a in v.history.answers ==> a in w.history.answers || a.pass == w.pass)
  }

  ghost predicate SameMarksAndAnswers(w: World, v: World) {
    v.history.marks == w.history.marks && v.history.answers == w.history.answers
  }

  ghost predicate GivenFor(x: AnswerGiven, name: string, complete: bool, reason: AnswerReason, machine: Option<Machine>, node: Option<Node>) {
    x.before.name == name && x.complete == complete && x.reason == reason && x.machine == machine && x.node == node
  }

  /** Every request is as it was before, or has a newer version. */
  ghost predicate RequestsMoveOn(w: World, v: World) {
    && w.store.clock <= v.store.clock
    && forall n :: n in v.requests ==>
        (n in w.requests && v.requests[n] == w.requests[n]) || v.requests[n].version > w.store.clock
  }

  // ------------------------------------------------------- the environment

  lemma TouchKeepsMark(s: Machinery, rest: Machine, marks: MarkEdit)
    requires Sound(s) && CleanWhenUnmarked(s)
    ensures
      var t := Touched(s, rest, marks);
      if rest.name !in s.machines then NoOwn(t)
      else
        var cur := s.machines[rest.name];
        NoOwn(t) || (forall k :: k in MARK_KEYS ==>
                       (k in t.annotations <==> k in cur.annotations)
                       && (k in cur.annotations ==> t.annotations[k] == cur.annotations[k]))
  {
    var t := Touched(s, rest, marks);
    assert forall k :: k in OWN_KEYS ==> k in MARK_KEYS;
    if rest.name in s.machines {
      var cur := s.machines[rest.name];
      if marks.ForeignMark? && !IsMarked(cur) {
        assert NoOwn(t);
      }
    }
  }

  lemma TouchKeepsClean(w: World, rest: Machine, marks: MarkEdit)
    requires SoundWorld(w)
    ensures
      var v := EditWorld(w, Touch(rest, marks));
      Sound(v.store) && CleanWhenUnmarked(v.store) && StaysClean(v)
  {
    var t := Touched(w.store, rest, marks);
    TouchKeepsMark(w.store, rest, marks);
    TouchedStaysClean(w.store, rest, marks);
    hide Touched;
    PutKeepsSound(w.store, t);
    PutKeepsClean(w.store, t);
    PutStaysClean(w, t, w.own);
  }

  lemma TouchedStaysClean(s: Machinery, rest: Machine, marks: MarkEdit)
    requires Sound(s) && CleanWhenUnmarked(s)
    ensures
      var t := Touched(s, rest, marks);
      && t.name == rest.name && CleanOrMarked(t)
      && ((rest.name in s.machines ==> NoOwn(s.machines[rest.name])) ==> NoOwn(t))
  {
    var t := Touched(s, rest, marks);
    TouchKeepsMark(s, rest, marks);
    hide Touched;
    assert RemediateMachine in MARK_KEYS && forall k :: k in OWN_KEYS ==> k in MARK_KEYS;
  }

  ghost predicate CleanOrMarked(m: Machine) { !IsMarked(m) ==> NoOwn(m) }

  lemma PutKeepsClean(s: Machinery, m: Machine)
    requires CleanWhenUnmarked(s) && CleanOrMarked(m)
    ensures CleanWhenUnmarked(Put(s, m))
  {
    assert CleanOrMarked(Stamped(s, m)) && forall x :: x in Put(s, m).past <==> x in s.past || x == Stamped(s, m);
  }

  /** A Machine is written, by someone else who keeps it clean, or by the
      operator. */
  lemma PutStaysClean(w: World, m: Machine, own: map<string, nat>)
    requires Sound(w.store) && StaysClean(w)
    requires own == w.own[m.name := w.store.clock + 1]
             || (own == w.own && ((m.name in w.store.machines ==> NoOwn(w.store.machines[m.name])) ==> NoOwn(m)))
    ensures StaysClean(w.(store := Put(w.store, m), own := own))
  {
    assert NoOwn(Stamped(w.store, m)) == NoOwn(m);
  }

  lemma TouchKeepsMakers(w: World, rest: Machine, marks: MarkEdit)
    requires SoundWorld(w)
    ensures EveryMarkWasMade(EditWorld(w, Touch(rest, marks)))
  {
    var t := Touched(w.store, rest, marks);
    var v := EditWorld(w, Touch(rest, marks));
    var s := Stamped(w.store, t);
    TouchKeepsMark(w.store, rest, marks);
    assert RemediationAction in OWN_KEYS;
    assert forall m :: m in v.store.past <==> m in w.store.past || m == s;
    if MarkedFor(s, ACTION_RESTART) {
      var cur := w.store.machines[rest.name];
      assert MarkedFor(cur, ACTION_RESTART) && HasMaker(w.history, cur);
      var r :| r in w.history.marks && SetBy(r, cur);
      assert SetBy(r, s);
    }
  }

  /** A Machine written by someone else, with the mark it had or none of this
      operator's. */
  lemma TouchKeepsSound(w: World, rest: Machine, marks: MarkEdit)
    requires SoundWorld(w)
    ensures SoundWorld(EditWorld(w, Touch(rest, marks)))
  {
    TouchKeepsClean(w, rest, marks);
    TouchKeepsMakers(w, rest, marks);
    var v := EditWorld(w, Touch(rest, marks));
    assert forall r :: HeldTrue(w, r) ==> HeldTrue(v, r);
  }

  lemma EditKeepsSound(w: World, e: WorldEdit)
    requires SoundWorld(w)
    ensures SoundWorld(EditWorld(w, e)) && Later(w, EditWorld(w, e)) && RequestsMoveOn(w, EditWorld(w, e))
    ensures EditWorld(w, e).history == w.history
  {
    match e {
      case Touch(rest, marks) => TouchKeepsSound(w, rest, marks);
      case Vanish(_) =>
      case WriteRequest(_) =>
      case DropRequest(_) =>
    }
  }

  lemma {:induction false} EditsKeepWorld(w: World, edits: seq<WorldEdit>)
    requires SoundWorld(w)
    ensures SoundWorld(EditAll(w, edits)) && Later(w, EditAll(w, edits)) && RequestsMoveOn(w, EditAll(w, edits))
    ensures EditAll(w, edits).history == w.history
    decreases |edits|
  {
    if edits != [] {
      var v := EditWorld(w, edits[0]);
      EditKeepsSound(w, edits[0]);
      EditsKeepWorld(v, edits[1..]);
    }
  }

  lemma ArriveKeepsSound(w: World)
    requires SoundWorld(w)
    ensures
      var v := Arrive(w).w;
      SoundWorld(v) && Later(w, v) && RequestsMoveOn(w, v) && v.history == w.history && v.pass == w.pass
  {
    if w.alive && w.env != [] {
      EditsKeepWorld(w.(env := w.env[1..]), w.env[0].edits);
    }
  }

  // --------------------------------------------------- the operator's writes

  lemma WrittenKeepsStore(w: World, kind: WriteKind, before: Machine, updated: Machine, upToDate: bool)
    requires SoundWorld(w) && CleanOrMarked(updated)
    ensures
      var v := Written(w, kind, before, updated, upToDate);
      Sound(v.store) && SoundRequests(v) && CleanWhenUnmarked(v.store) && StaysClean(v) && MarksHeldTrue(v)
  {
    hide CleanOrMarked, CleanWhenUnmarked, NoOwn, HeldTrue;
    var v := Written(w, kind, before, updated, upToDate);
    PutKeepsSound(w.store, updated);
    PutKeepsClean(w.store, updated);
    PutStaysClean(w, updated, v.own);
    SameMarksHeldTrue(w, v);
  }

  lemma SameMarksHeldTrue(w: World, v: World)
    requires MarksHeldTrue(w) && v.history.marks == w.history.marks && v.history.pending == w.history.pending && v.pass == w.pass
    ensures MarksHeldTrue(v)
  {
    assert forall r :: HeldTrue(w, r) ==> HeldTrue(v, r);
  }

  ghost predicate Grows(h: History, g: History) { h.marks <= g.marks && h.pending <= g.pending }

  lemma ClaimsCarry(h: History, g: History)
    requires Grows(h, g)
    ensures forall m :: HasMaker(h, m) ==> HasMaker(g, m)
    ensures forall x :: Credited(h, x) ==> Credited(g, x)
  {
    forall m | HasMaker(h, m) ensures HasMaker(g, m) {
      var r :| r in h.marks && SetBy(r, m);
      assert r in g.marks;
    }
  }

  /** A write of the operator that sets no restart mark. */
  lemma WrittenKeepsSound(w: World, kind: WriteKind, before: Machine, updated: Machine)
    requires !kind.MarkWrite? && SoundWorld(w) && CleanOrMarked(updated) && !MarkedFor(updated, ACTION_RESTART)
    requires MarkedFor(before, ACTION_REMEDIATE) ==> MarkedFor(updated, ACTION_REMEDIATE)
    requires OnlyTheMark(kind, before, updated)
    ensures SoundWorld(Written(w, kind, before, updated, true))
  {
    var v := Written(w, kind, before, updated, true);
    var s := Stamped(w.store, updated);
    WrittenKeepsStore(w, kind, before, updated, true);
    assert MarkedAction(s) == MarkedAction(updated);
    assert KeepsReplacement(MachineWrite(kind, before, s, true));
    VersionsDoNotMatter(kind, before, updated, s.version);
    hide OnlyTheMark;
    UnmarkedKeepsMakers(w, v, s);
    WriteKeepsGood(w.history, MachineWrite(kind, before, s, true));
    hide Sound, SoundRequests, CleanWhenUnmarked, StaysClean, MarksHeldTrue, EveryMarkWasMade, WritesAndAnswersGood,
         KeepsReplacement, CleanOrMarked, MarkedFor;
  }

  lemma UnmarkedKeepsMakers(w: World, v: World, s: Machine)
    requires EveryMarkWasMade(w) && v.store.past == w.store.past + {s} && v.history.marks == w.history.marks
    requires !MarkedFor(s, ACTION_RESTART)
    ensures EveryMarkWasMade(v)
  {
    hide SetBy, MarkedFor;
    assert forall m :: HasMaker(w.history, m) ==> HasMaker(v.history, m);
  }

  lemma WriteKeepsGood(h: History, x: MachineWrite)
    requires WritesAndAnswersGood(h) && KeepsReplacement(x) && OnlyTheMark(x.kind, x.before, x.after)
    ensures WritesAndAnswersGood(h.(writes := h.writes + {x}))
  {
    ClaimsCarry(h, h.(writes := h.writes + {x}));
    hide KeepsReplacement, OnlyTheMark, Settles, SawRestart, Credited;
  }

  /** A locked write of the operator, to a Machine it saw in some version. */
  lemma PatchLockedKeepsSound(w: World, kind: WriteKind, seen: Machine, updated: Machine)
    requires !kind.MarkWrite? && SoundWorld(w) && seen in w.store.past && updated.name == seen.name
    requires CleanOrMarked(updated) && !MarkedFor(updated, ACTION_RESTART)
    requires MarkedFor(seen, ACTION_REMEDIATE) ==> MarkedFor(updated, ACTION_REMEDIATE)
    requires OnlyTheMark(kind, seen, updated)
    ensures
      var (v, r) := PatchLocked(w, kind, seen, updated);
      && SoundWorld(v) && Later(w, v) && SameMarksAndAnswers(w, v)
      && (r.Ok? ==> r.value in v.store.past && r.value == updated.(version := r.value.version))
  {
    hide SoundWorld, Arrive, CleanOrMarked, OnlyTheMark;
    var a := Arrive(w);
    ArriveKeepsSound(w);
    if a.Served() && Locked(a.w.store, seen).None? {
      StoreIsSound(a.w);
      LockedHitsWhatWasSeen(a.w.store, seen);
      WrittenKeepsSound(a.w, kind, seen, updated);
    }
  }

  lemma StoreIsSound(w: World)
    requires SoundWorld(w)
    ensures Sound(w.store) && SoundRequests(w)
  {
  }

  lemma OwnWritesAreOfTheMark(m: Machine, reason: string)
    ensures OnlyTheMark(ReleaseWrite, m, Released(m))
    ensures MarkedFor(m, ACTION_RESTART) ==> OnlyTheMark(EscalateWrite, m, Escalated(m, reason))
  {
  }

  lemma ReleaseKeepsSound(w: World, dryRun: bool, m: Machine)
    requires SoundWorld(w) && m in w.store.past && MarkedFor(m, ACTION_RESTART)
    ensures
      var (v, r) := Release(w, dryRun, m);
      && SoundWorld(v) && Later(w, v) && SameMarksAndAnswers(w, v)
      && (r.Ok? ==> r.value in v.store.past && r.value.name == m.name)
  {
    ActionsDiffer();
    if !m.deleting && !dryRun {
      assert NoOwn(Released(m));
      OwnWritesAreOfTheMark(m, "");
      PatchLockedKeepsSound(w, ReleaseWrite, m, Released(m));
    }
  }

  lemma EscalateKeepsSound(w: World, dryRun: bool, m: Machine, reason: string)
    requires SoundWorld(w) && m in w.store.past
    ensures
      var (v, r) := Escalate(w, dryRun, m, reason);
      && SoundWorld(v) && Later(w, v) && SameMarksAndAnswers(w, v)
      && (r.Ok? ==> r.value in v.store.past && r.value.name == m.name)
  {
    ActionsDiffer();
    if MarkedFor(m, ACTION_RESTART) && !m.deleting && !dryRun {
      OwnWritesAreOfTheMark(m, reason);
      PatchLockedKeepsSound(w, EscalateWrite, m, Escalated(m, reason));
    }
  }

  /** What a mark made from a Machine that carries nothing of the operator's
      merges into the Machine as it is: the mark, over what it does not record. */
  lemma MarkMergesClean(seen: Machine, before: Machine, reason: string, action: string, record: RestartRecord)
    requires NoOwn(seen) && !IsMarked(seen)
    ensures
      var change := Changed(seen.annotations, Marked(seen, action, reason, record).annotations);
      var after := before.(annotations := before.annotations + change);
      && MarkedFor(after, action)
      && Value(after.annotations, RemediationBootID)
         == (if record.bootID != "" then record.bootID else Value(before.annotations, RemediationBootID))
      && Value(after.annotations, RemediationRequest)
         == (if record.request != "" then record.request else Value(before.annotations, RemediationRequest))
  {
  }

  ghost predicate MarkIsHonest(w: World, seen: Machine, made: MarkMade) {
    && made.seen == seen && made.pass == w.pass
    && (made.action == ACTION_RESTART || made.action == ACTION_REMEDIATE)
    && (made.action == ACTION_RESTART ==> made.decision.Restart?)
    && WasFound(w.history, w.pass, made.record.request)
  }

  /** Setting a mark, which is not locked to what was seen. */
  lemma MarkKeepsSound(w: World, dryRun: bool, seen: Machine, reason: string, made: MarkMade)
    requires SoundWorld(w) && seen in w.store.past && MarkIsHonest(w, seen, made)
    ensures
      var (v, r) := MarkForRemediation(w, dryRun, seen, reason, made);
      && SoundWorld(v) && Later(w, v) && v.history.answers == w.history.answers
      && (forall x :: x in v.history.marks ==> x in w.history.marks || x == made.(upToDate := x.upToDate, over := x.over))
      && (r.Ok? ==> r.value in v.store.past && r.value.name == seen.name)
  {
    hide PatchMark, SoundWorld;
    if Guard(seen).None? && !dryRun {
      PatchMarkKeepsSound(w, seen, reason, made);
    }
  }

  lemma PatchMarkKeepsSound(w: World, seen: Machine, reason: string, made: MarkMade)
    requires SoundWorld(w) && seen in w.store.past && MarkIsHonest(w, seen, made) && !IsMarked(seen)
    ensures
      var (v, r) := PatchMark(w, seen, reason, made);
      && SoundWorld(v) && Later(w, v) && v.history.answers == w.history.answers
      && (forall x :: x in v.history.marks ==> x in w.history.marks || x == made.(upToDate := x.upToDate, over := x.over))
      && (r.Ok? ==> r.value in v.store.past && r.value.name == seen.name)
  {
    hide SoundWorld;
    var a := Arrive(w);
    ArriveKeepsSound(w);
    if a.Served() && seen.name in a.w.store.machines {
      MarkWriteKeepsSound(a.w, seen, reason, made);
      MarkWriteFrame(a.w, seen, reason, made);
    }
    hide MarkWritten;
  }

  lemma MarkWriteFrame(w: World, seen: Machine, reason: string, made: MarkMade)
    requires seen.name in w.store.machines && made.pass == w.pass
    ensures
      var v := MarkWritten(w, seen, reason, made);
      && Later(w, v) && v.history.answers == w.history.answers && seen.name in v.store.machines
      && v.store.machines[seen.name] in v.store.past && v.store.machines[seen.name].name == seen.name
      && (forall x :: x in v.history.marks ==> x in w.history.marks || x == made.(upToDate := x.upToDate, over := x.over))
  {
    hide Merged;
    assert Merged(w.store.machines[seen.name], seen, reason, made).name == seen.name by { MergedIsNamed(w.store.machines[seen.name], seen, reason, made); }
  }

  lemma MergedIsNamed(before: Machine, seen: Machine, reason: string, made: MarkMade)
    ensures Merged(before, seen, reason, made).name == seen.name
  {
  }

  lemma MergedIsOfTheMark(before: Machine, seen: Machine, reason: string, made: MarkMade)
    requires before.name == seen.name && !IsMarked(seen) && NoOwn(seen)
    ensures OnlyTheMark(MarkWrite(made.action), before, Merged(before, seen, reason, made))
  {
    var change := Changed(seen.annotations, Marked(seen, made.action, reason, made.record).annotations);
    assert forall k :: k in change ==> k in MARK_KEYS;
  }

  lemma MarkWriteKeepsSound(w: World, seen: Machine, reason: string, made: MarkMade)
    requires SoundWorld(w) && seen in w.store.past && MarkIsHonest(w, seen, made)
    requires !IsMarked(seen) && seen.name in w.store.machines
    ensures SoundWorld(MarkWritten(w, seen, reason, made))
  {
    var before := w.store.machines[seen.name];
    MarkMergesClean(seen, before, reason, made.action, made.record);
    MergedIsOfTheMark(before, seen, reason, made);
    assert before.name == seen.name;
    hide SoundWorld, OnlyTheMark, Changed, Marked;
    MadeKeepsSound(w, before, Merged(before, seen, reason, made),
                   made.(upToDate := IsUpToDate(w, seen), pass := w.pass, over := before.annotations));
  }

  /** A mark that meets this operator's replacement mark was made from a view
      older than the operator's own last write, and keeps the replacement mark
      exactly when it asks for a replacement itself. */
  lemma MarkOverReplacement(w: World, seen: Machine, reason: string, made: MarkMade)
    requires SoundWorld(w) && seen in w.store.past && !IsMarked(seen) && seen.name in w.store.machines
    requires MarkedFor(w.store.machines[seen.name], ACTION_REMEDIATE)
    requires made.action == ACTION_RESTART || made.action == ACTION_REMEDIATE
    ensures !IsUpToDate(w, seen)
    ensures
      var after := MarkWritten(w, seen, reason, made).store.machines[seen.name];
      && MarkedFor(after, made.action)
      && (MarkedFor(after, ACTION_REMEDIATE) <==> made.action == ACTION_REMEDIATE)
  {
    ActionsDiffer();
    assert RemediationAction in OWN_KEYS;
    MarkMergesClean(seen, w.store.machines[seen.name], reason, made.action, made.record);
  }

  lemma MadeKeepsSound(w: World, before: Machine, updated: Machine, made: MarkMade)
    requires SoundWorld(w) && updated.name == made.seen.name && MarkedFor(updated, made.action)
    requires made.over == before.annotations && (made.upToDate ==> NoOwn(before))
    requires RecordOn(updated.annotations) == LeftBy(made)
    requires (made.action == ACTION_RESTART && made.decision.Restart?) || made.action == ACTION_REMEDIATE
    requires HeldTrue(w, made) && OnlyTheMark(MarkWrite(made.action), before, updated)
    ensures
      var w1 := Written(w, MarkWrite(made.action), before, updated, made.upToDate);
      SoundWorld(w1.(history := w1.history.(marks := w1.history.marks + {made})))
  {
    var w1 := Written(w, MarkWrite(made.action), before, updated, made.upToDate);
    var v := w1.(history := w1.history.(marks := w1.history.marks + {made}));
    hide Sound, SoundRequests, CleanWhenUnmarked, StaysClean, EveryMarkWasMade, MarksHeldTrue, WritesAndAnswersGood, NoOwn;
    WrittenKeepsStore(w, MarkWrite(made.action), before, updated, made.upToDate);
    HistoryIsApart(w1, v);
    MarksStayTrue(w, v, made);
    MadeKeepsMakers(w, v, made, Stamped(w.store, updated));
    VersionsDoNotMatter(MarkWrite(made.action), before, updated, Stamped(w.store, updated).version);
    hide OnlyTheMark;
    MadeKeepsGood(w.history, v.history, before, made, Stamped(w.store, updated));
    hide HeldTrue, RecordOn, LeftBy, MarkedFor;
  }

  lemma HistoryIsApart(w: World, v: World)
    requires StaysClean(w) && SoundRequests(w) && v == w.(history := v.history)
    ensures StaysClean(v) && SoundRequests(v)
  {
    hide NoOwn;
    assert forall m :: IsUpToDate(v, m) == IsUpToDate(w, m);
  }

  lemma MadeKeepsMakers(w: World, v: World, made: MarkMade, s: Machine)
    requires EveryMarkWasMade(w) && v.store.past == w.store.past + {s} && v.history.marks == w.history.marks + {made}
    requires MarkedFor(s, ACTION_RESTART) ==> SetBy(made, s)
    requires w.history.pending <= v.history.pending
    ensures EveryMarkWasMade(v)
  {
    ClaimsCarry(w.history, v.history);
    hide SetBy;
  }

  lemma MadeKeepsGood(h: History, g: History, before: Machine, made: MarkMade, s: Machine)
    requires WritesAndAnswersGood(h) && MarkedFor(s, made.action) && (made.upToDate ==> NoOwn(before))
    requires made.action == ACTION_RESTART || made.action == ACTION_REMEDIATE
    requires OnlyTheMark(MarkWrite(made.action), before, s)
    requires g == h.(writes := h.writes + {MachineWrite(MarkWrite(made.action), before, s, made.upToDate)}, marks := h.marks + {made})
    ensures WritesAndAnswersGood(g)
  {
    ActionsDiffer();
    assert RemediationAction in OWN_KEYS;
    assert KeepsReplacement(MachineWrite(MarkWrite(made.action), before, s, made.upToDate));
    ClaimsCarry(h, g);
    hide KeepsReplacement, OnlyTheMark, Settles, SawRestart, Credited;
  }

  lemma MarksStayTrue(w: World, v: World, made: MarkMade)
    requires MarksHeldTrue(w) && v.pass == w.pass && w.history.pending <= v.history.pending
    requires v.history.marks == w.history.marks + {made} && HeldTrue(v, made)
    ensures MarksHeldTrue(v)
  {
    forall r | r in v.history.marks ensures HeldTrue(v, r) {
      assert r in w.history.marks ==> HeldTrue(w, r);
    }
  }

  lemma ReadKeepsSound(w: World, name: string)
    requires SoundWorld(w)
    ensures
      var (v, r) := ReadCached(w, name);
      && SoundWorld(v) && Later(w, v) && SameMarksAndAnswers(w, v)
      && (r.Ok? ==> r.value in v.store.past && r.value.name == name)
  {
    ArriveKeepsSound(w);
  }

  // ------------------------------------------------------ the request calls

  lemma IsPendingKeepsSound(w: World, name: string)
    requires SoundWorld(w)
    ensures
      var (v, r) := IsPending(w, name);
      && SoundWorld(v) && Later(w, v) && SameMarksAndAnswers(w, v)
      && (r == Ok(true) ==> WasFound(v.history, w.pass, name))
  {
    ArriveKeepsSound(w);
    var a := Arrive(w);
    var v := IsPending(w, name).0;
    assert forall r :: HeldTrue(a.w, r) ==> HeldTrue(v, r);
    assert forall x :: Credited(a.w.history, x) ==> Credited(v.history, x);
    assert forall m :: HasMaker(a.w.history, m) <==> HasMaker(v.history, m);
  }

  lemma GivenKeepsGood(h: History, given: AnswerGiven)
    requires WritesAndAnswersGood(h) && Settles(given) && SawRestart(given) && Credited(h, given)
    ensures WritesAndAnswersGood(h.(answers := h.answers + {given}))
  {
    var g := h.(answers := h.answers + {given});
    ClaimsCarry(h, g);
    assert Credited(h, given) ==> Credited(g, given);
  }

  /** The claim an answer of True makes about what the pass saw, and about who
      made the mark it rests on. */
  ghost predicate ClaimHolds(w: World, name: string, complete: bool, machine: Option<Machine>, node: Option<Node>) {
    complete ==>
      && machine.Some? && machine.value in w.store.past
      && RestartCompleted(machine.value, node) && RestartAnswers(machine.value, name)
      && exists r :: r in w.history.marks && SetBy(r, machine.value) && r.pass < w.pass
  }

  lemma PatchConditionsKeepsSound(w: World, name: string, seen: Request, complete: bool, reason: AnswerReason,
                                  machine: Option<Machine>, node: Option<Node>)
    requires SoundWorld(w) && name in w.requests && w.requests[name] == seen && Pending(seen)
    requires ClaimHolds(w, name, complete, machine, node)
    ensures
      var conditions := WithAnswer(seen.conditions, AnswerCondition(complete, reason));
      var (v, r) := PatchConditions(w, name, seen, conditions, complete, reason, machine, node);
      && SoundWorld(v) && Later(w, v) && v.history.marks == w.history.marks
      && forall x :: x in v.history.answers ==> x in w.history.answers || GivenFor(x, name, complete, reason, machine, node)
  {
    hide SoundWorld, Arrive, Pending, WithAnswer, RestartCompleted, RestartAnswers, SetBy;
    var b := Arrive(w);
    ArriveKeepsSound(w);
    StoreIsSound(b.w);
    if b.Served() && name in b.w.requests && b.w.requests[name].version == seen.version {
      StoreIsSound(w);
      SameVersionIsSame(w, b.w, name);
      var conditions := WithAnswer(seen.conditions, AnswerCondition(complete, reason));
      var v := PatchConditions(w, name, seen, conditions, complete, reason, machine, node).0;
      var given := AnswerGiven(w.pass, complete, reason, seen, v.requests[name], machine, node);
      AnsweredKeepsSound(b.w, name, given, b.w.(store := v.store, requests := v.requests, history := v.history, env := v.env));
    }
    PatchConditionsFrame(w, name, seen, WithAnswer(seen.conditions, AnswerCondition(complete, reason)), complete, reason, machine, node);
    hide Later, ClaimHolds;
  }

  lemma PatchConditionsFrame(w: World, name: string, seen: Request, conditions: seq<Requests.Condition>, complete: bool,
                             reason: AnswerReason, machine: Option<Machine>, node: Option<Node>)
    requires Later(w, Arrive(w).w) && Arrive(w).w.history == w.history
    requires name in Arrive(w).w.requests ==> Arrive(w).w.requests[name].name == name
    ensures
      var v := PatchConditions(w, name, seen, conditions, complete, reason, machine, node).0;
      && Later(w, v) && v.history.marks == w.history.marks
      && forall x :: x in v.history.answers ==> x in w.history.answers || GivenFor(x, name, complete, reason, machine, node)
  {
    hide Arrive;
  }

  lemma SameVersionIsSame(w: World, v: World, name: string)
    requires SoundRequests(w) && RequestsMoveOn(w, v) && name in w.requests && name in v.requests
    requires v.requests[name].version == w.requests[name].version
    ensures v.requests[name] == w.requests[name]
  {
  }

  lemma AnsweredKeepsSound(w: World, name: string, given: AnswerGiven, v: World)
    requires SoundWorld(w) && name in w.requests && w.requests[name] == given.before && given.pass == w.pass
    requires Settles(given) && given.after.version == w.store.clock + 1
    requires ClaimHolds(w, name, given.complete, given.machine, given.node)
    requires v == w.(store := w.store.(clock := w.store.clock + 1), requests := w.requests[name := given.after],
                     history := w.history.(answers := w.history.answers + {given}))
    ensures SoundWorld(v)
  {
    hide WithAnswer, Pending, RestartCompleted, Answered;
    ClaimsCarry(w.history, v.history);
    assert forall r :: HeldTrue(w, r) ==> HeldTrue(v, r);
    GivenKeepsGood(w.history, given);
  }

  /** An answer whose claim about the restart is true of what was seen. */
  lemma AnswerKeepsSound(w: World, name: string, complete: bool, reason: AnswerReason,
                         machine: Option<Machine>, node: Option<Node>)
    requires SoundWorld(w) && ClaimHolds(w, name, complete, machine, node)
    ensures
      var (v, r) := AnswerRequest(w, name, complete, reason, machine, node);
      && SoundWorld(v) && Later(w, v) && v.history.marks == w.history.marks
      && forall x :: x in v.history.answers ==> x in w.history.answers || GivenFor(x, name, complete, reason, machine, node)
  {
    hide PatchConditions, SoundWorld;
    ArriveKeepsSound(w);
    var a := Arrive(w);
    if a.fate.Serve? && name in a.w.requests && Pending(a.w.requests[name]) {
      PatchConditionsKeepsSound(a.w, name, a.w.requests[name], complete, reason, machine, node);
    }
  }
}
