// A restart asked for behind another request's finished restart: the pass that
// finds it removes the old mark without answering, and a later one marks the
// Machine anew.

module RestartProgress {
  import opened Text
  import opened Sorting
  import opened Signals
  import opened Decisions
  import opened Machines
  import opened Requests
  import opened Store
  import opened ClusterWorld
  import opened ClusterSound
  import opened Waits
  import opened Passes
  import opened PassSafety
  import opened ReleaseSafety
  import opened QuietPass

  // ------------------------------------------------- the waits of any pass

  lemma HandleMovesWaitsOn(cfg: Config, view: View, st: State, s: Signal)
    ensures MovesOn(st.waiting, Handle(cfg, view, st, s).0.waiting, view.now)
  {
    hide MarkForRemediation, Escalate, CoverageFor, Decided, RestartFallback, Covered, TemplatesOnly;
  }

  lemma {:induction false} ReleaseAnsweredKeepsWaits(cfg: Config, st: State, node: string, answered: RestartMark,
                                                     conflicted: bool, attempts: nat)
    requires node in st.machines
    ensures ReleaseAnswered(cfg, st, node, answered, conflicted, attempts).waiting == st.waiting
    decreases attempts, if conflicted then 1 else 0
  {
    hide ReadCached, Release;
    if attempts > 0 {
      if conflicted {
        var (w, r) := ReadCached(st.w, st.machines[node].name);
        if r.Ok? && RestartMarkOf(r.value) == answered {
          ReleaseAnsweredKeepsWaits(cfg, st.(w := w, machines := st.machines[node := r.value]), node, answered, false, attempts);
        }
      } else {
        var (w, r) := Release(st.w, cfg.dryRun, st.machines[node]);
        if r.Err? && r.error.Conflict? {
          ReleaseAnsweredKeepsWaits(cfg, st.(w := w), node, answered, true, attempts - 1);
        }
      }
    }
  }

  lemma TellRequestKeepsWaits(cfg: Config, view: View, st: State, s: Signal, a: Answer)
    requires a.Give?
    ensures TellRequest(cfg, view, st, s, a).waiting == st.waiting
  {
    hide ReleaseAnswered, AnswerRequest;
    if s.node in st.machines {
      var machine := Find(st.machines, s.node);
      var (w, _) := AnswerRequest(st.w, s.request, a.complete, a.reason, machine, Find(view.nodes, s.node));
      ReleaseAnsweredKeepsWaits(cfg, st.(w := w), s.node, RestartMarkOf(machine.value), false, RELEASE_ATTEMPTS);
    }
  }

  lemma {:induction false} SignalsMoveWaitsOn(cfg: Config, view: View, previous: map<string, Observation>, p: Progress, signals: seq<Signal>)
    ensures MovesOn(p.st.waiting, TakeSignals(cfg, view, previous, p, signals).st.waiting, view.now)
  {
    hide Handle, TellRequest, IsPending, MovesOn;
    if signals == [] {
      assert MovesOn(p.st.waiting, p.st.waiting, view.now) by { WaitsStand(p.st.waiting, view.now); }
    } else {
      var n := |signals| - 1;
      SignalsMoveWaitsOn(cfg, view, previous, p, signals[..n]);
      var q, s := TakeSignals(cfg, view, previous, p, signals[..n]), signals[n];
      var w := if s.request == "" then q.st.w else IsPending(q.st.w, s.request).0;
      var st := q.st.(w := w);
      HandleMovesWaitsOn(cfg, view, st, s);
      var (st', o) := Handle(cfg, view, st, s);
      if o.Observed? && o.answer.Give? { TellRequestKeepsWaits(cfg, view, st', s, o.answer); }
      MovesOnChains(p.st.waiting, q.st.waiting, st'.waiting, view.now);
    }
  }

  lemma WaitsStand(waiting: Waiting, now: int)
    ensures MovesOn(waiting, waiting, now)
  {
  }

  lemma {:induction false} ReleaseEachKeepsWaits(cfg: Config, st: State, nodes: seq<string>, held: set<string>)
    ensures ReleaseEach(cfg, st, nodes, held).waiting == st.waiting
  {
    hide Release;
    if nodes != [] {
      ReleaseEachKeepsWaits(cfg, st, nodes[..|nodes| - 1], held);
    }
  }

  /** From one pass to the next, whatever it runs into, each wait goes on from
      when it began, is over only past its bound, or is new. */
  lemma PassMovesWaitsOn(cfg: Config, view: View, previous: map<string, Observation>, w: World, waiting: Waiting)
    ensures MovesOn(waiting, Pass(cfg, view, previous, w, waiting).st.waiting, view.now)
  {
    hide TakeSignals, ReleaseEach;
    SignalsMoveWaitsOn(cfg, view, previous, Start(w, view, waiting), view.signals);
    var p := TakeSignals(cfg, view, previous, Start(w, view, waiting), view.signals);
    ReleaseEachKeepsWaits(cfg, p.st, InOrder(p.st.machines.Keys), HeldNames(p.st.machines, view.nodes, p.asking, p.current));
  }

  // -------------------------------- the signals of other nodes, undisturbed

  predicate NotAsking(w: World, request: string) { request in w.requests ==> !Pending(w.requests[request]) }

  /** Nothing happened to the Machine of node n, its wait and request r, and
      asked still is not asking. */
  ghost predicate Aside(st: State, st': State, n: string, r: string, asked: string)
    requires n in st.machines
  {
    && InSync(st') && st'.machines.Keys == st.machines.Keys
    && (forall k :: k in st.machines ==> st'.machines[k].name == st.machines[k].name)
    && st'.machines[n] == st.machines[n]
    && Find(st'.waiting, st.machines[n].name) == Find(st.waiting, st.machines[n].name)
    && Find(st'.w.requests, r) == Find(st.w.requests, r)
    && (NotAsking(st.w, asked) ==> NotAsking(st'.w, asked))
  }

  /** A change to the Machine of another node, and to its wait. */
  lemma ElsewhereIsAside(st: State, st': State, x: string, now: int, n: string, r: string, asked: string)
    requires InSync(st) && n in st.machines && x in st.machines && x != n && OnlyNode(st, st', x)
    requires st'.waiting == st.waiting || st'.waiting == HeldForChecks(st.waiting, st.machines[x], now).1
    ensures Aside(st, st', n, r, asked)
  {
    SameRest(st.machines[x], st'.machines[x]);
    HoldKeepsOthers(st.waiting, st.machines[x], now, st.machines[n].name);
    hide Rest, HeldForChecks, Pending;
  }

  lemma HandleAside(cfg: Config, view: View, st: State, s: Signal, n: string, r: string, asked: string)
    requires !cfg.dryRun && InSync(st) && n in st.machines && s.node != n
    ensures Aside(st, Handle(cfg, view, st, s).0, n, r, asked)
    ensures
      var o := Handle(cfg, view, st, s).1;
      o.Observed? && (st.machines[n].name != "" ==> o.machine != st.machines[n].name)
  {
    hide OnlyNode, KindNext, HeldForChecks, AsksWait, SettledEarly, Rest, Decided;
    if s.node in st.machines {
      QuietHandle(cfg, view, st, s);
      assert st.machines[s.node].name != st.machines[n].name;
      ElsewhereIsAside(st, Handle(cfg, view, st, s).0, s.node, view.now, n, r, asked);
    } else {
      assert Handle(cfg, view, st, s).0 == st;
    }
    hide Handle, Aside;
  }

  lemma QuietAnswer(w: World, name: string, complete: bool, reason: AnswerReason, machine: Option<Machine>, node: Option<Node>)
    requires Quiet(w)
    ensures
      var (v, r) := AnswerRequest(w, name, complete, reason, machine, node);
      && Quiet(v) && v.store.machines == w.store.machines && r.Ok?
      && (forall k :: k != name ==> Find(v.requests, k) == Find(w.requests, k))
      && (NotAsking(w, name) ==> v.requests == w.requests)
  {
  }

  lemma QuietReleaseAnswered(cfg: Config, st: State, node: string, answered: RestartMark)
    requires !cfg.dryRun && InSync(st) && node in st.machines
    ensures
      var st' := ReleaseAnswered(cfg, st, node, answered, false, RELEASE_ATTEMPTS);
      OnlyNode(st, st', node) && st'.waiting == st.waiting
  {
    var m := st.machines[node];
    QuietRelease(st.w, m);
    Kinds(m, "", RestartRecord("", ""), st.w.store);
    var (w, r) := Release(st.w, false, m);
    KeepsSync(st, node, w, r.value);
    hide Release;
  }

  lemma TellAside(cfg: Config, view: View, st: State, s: Signal, a: Answer, n: string, r: string, asked: string)
    requires !cfg.dryRun && InSync(st) && n in st.machines && s.node != n && s.request != r && a.Give?
    ensures Aside(st, TellRequest(cfg, view, st, s, a), n, r, asked)
  {
    hide ReleaseAnswered, AnswerRequest, Rest, Pending;
    var machine := Find(st.machines, s.node);
    QuietAnswer(st.w, s.request, a.complete, a.reason, machine, Find(view.nodes, s.node));
    var (w, _) := AnswerRequest(st.w, s.request, a.complete, a.reason, machine, Find(view.nodes, s.node));
    assert NotAsking(st.w, asked) ==> NotAsking(w, asked) by {
      if asked != s.request { assert Find(w.requests, asked) == Find(st.w.requests, asked); }
    }
    if machine.Some? {
      QuietReleaseAnswered(cfg, st.(w := w), s.node, RestartMarkOf(machine.value));
      var st' := ReleaseAnswered(cfg, st.(w := w), s.node, RestartMarkOf(machine.value), false, RELEASE_ATTEMPTS);
      SameRest(st.machines[s.node], st'.machines[s.node]);
    }
  }

  lemma AsideChains(a: State, b: State, c: State, n: string, r: string, asked: string)
    requires n in a.machines && Aside(a, b, n, r, asked) && Aside(b, c, n, r, asked)
    ensures Aside(a, c, n, r, asked)
  {
    assert forall k :: k in a.machines ==> k in b.machines;
  }

  /** The observations by other keys are as they were, and none by these is
      about the Machine. */
  ghost predicate KeptBut(current: map<string, Observation>, current': map<string, Observation>, name: string, keys: set<string>) {
    && (forall k :: k in current && k !in keys ==> k in current' && current'[k] == current[k])
    && (forall k :: k in current' ==>
          || (k in current && current'[k] == current[k])
          || (k in keys && current'[k].Observed? && current'[k].machine != name))
  }

  lemma KeptChains(a: map<string, Observation>, b: map<string, Observation>, c: map<string, Observation>, name: string,
                   some: set<string>, more: set<string>, all: set<string>)
    requires KeptBut(a, b, name, some) && KeptBut(b, c, name, more) && some <= all && more <= all
    ensures KeptBut(a, c, name, all)
  {
  }

  /** What signals of other nodes leave of a pass's progress. */
  ghost predicate Passed(p: Progress, p': Progress, n: string, r: string, asked: string, keys: set<string>)
    requires n in p.st.machines
  {
    && p'.unreadable == p.unreadable && Aside(p.st, p'.st, n, r, asked)
    && (NotAsking(p.st.w, asked) && asked !in p.asking ==> asked !in p'.asking)
    && KeptBut(p.current, p'.current, p.st.machines[n].name, keys)
  }

  lemma ConcludedAside(p: Progress, st: State, key: string, o: Observation, n: string, r: string, asked: string)
    requires n in p.st.machines && Aside(p.st, st, n, r, asked) && o.Observed? && o.machine != p.st.machines[n].name
    ensures Passed(p, p.(st := st, current := p.current[key := o]), n, r, asked, {key})
  {
    hide Aside;
  }

  lemma ActAside(cfg: Config, view: View, p: Progress, s: Signal, n: string, r: string, asked: string)
    requires !cfg.dryRun && InSync(p.st) && n in p.st.machines && p.st.machines[n].name != ""
    requires s.node != n && (s.request != "" ==> s.request != r) && r != ""
    ensures Passed(p, Act(cfg, view, p, s), n, r, asked, {s.Key()})
  {
    hide Handle, TellRequest, InSync, Passed, Pending;
    HandleAside(cfg, view, p.st, s, n, r, asked);
    var (st', o) := Handle(cfg, view, p.st, s);
    var st := if o.answer.Give? then TellRequest(cfg, view, st', s, o.answer) else st';
    if o.answer.Give? {
      TellAside(cfg, view, st', s, o.answer, n, r, asked);
      AsideChains(p.st, st', st, n, r, asked);
    }
    ConcludedAside(p, st, s.Key(), o, n, r, asked);
  }

  lemma TakeAside(cfg: Config, view: View, previous: map<string, Observation>, p: Progress, s: Signal, n: string, r: string, asked: string)
    requires !cfg.dryRun && InSync(p.st) && n in p.st.machines && p.st.machines[n].name != ""
    requires s.node != n && (s.request != "" ==> s.request != r) && r != ""
    ensures Passed(p, TakeSignal(cfg, view, previous, p, s), n, r, asked, {s.Key()})
  {
    hide Act, IsPending, Pending, InSync;
    if s.request == "" {
      ActAside(cfg, view, p, s, n, r, asked);
    } else {
      QuietRead(p.st, s.request);
      var (w, pending) := IsPending(p.st.w, s.request);
      var st := p.st.(w := w);
      if pending.value {
        var q := p.(st := st, asking := p.asking + {s.request});
        ActAside(cfg, view, q, s, n, r, asked);
      }
    }
  }

  lemma QuietRead(st: State, request: string)
    requires InSync(st)
    ensures
      var (w, pending) := IsPending(st.w, request);
      && InSync(st.(w := w)) && w.requests == st.w.requests && w.store == st.w.store
      && pending == Ok(request in st.w.requests && Pending(st.w.requests[request]))
  {
  }

  function KeysOf(signals: seq<Signal>): set<string> { set s | s in signals :: s.Key() }

  ghost predicate Others(signals: seq<Signal>, n: string, r: string) {
    forall s :: s in signals ==> s.node != n && (s.request != "" ==> s.request != r)
  }

  lemma {:induction false} TakeAllAside(cfg: Config, view: View, previous: map<string, Observation>, p: Progress, signals: seq<Signal>,
                                        n: string, r: string, asked: string)
    requires !cfg.dryRun && InSync(p.st) && n in p.st.machines && p.st.machines[n].name != "" && r != ""
    requires Others(signals, n, r)
    ensures Passed(p, TakeSignals(cfg, view, previous, p, signals), n, r, asked, KeysOf(signals))
  {
    hide TakeSignal;
    if signals != [] {
      var k := |signals| - 1;
      TakeAllAside(cfg, view, previous, p, signals[..k], n, r, asked);
      var q := TakeSignals(cfg, view, previous, p, signals[..k]);
      TakeAside(cfg, view, previous, q, signals[k], n, r, asked);
      assert signals == signals[..k] + [signals[k]];
      var p' := TakeSignal(cfg, view, previous, q, signals[k]);
      AsideChains(p.st, q.st, p'.st, n, r, asked);
      PassedChains(p, q, p', n, r, asked, KeysOf(signals[..k]), {signals[k].Key()}, KeysOf(signals));
    }
  }

  lemma PassedChains(a: Progress, b: Progress, c: Progress, n: string, r: string, asked: string,
                     some: set<string>, more: set<string>, all: set<string>)
    requires n in a.st.machines && Passed(a, b, n, r, asked, some) && Passed(b, c, n, r, asked, more)
    requires some <= all && more <= all
    ensures Passed(a, c, n, r, asked, all)
  {
    hide InSync, Pending, NotAsking, KeptBut;
    AsideChains(a.st, b.st, c.st, n, r, asked);
    KeptChains(a.current, b.current, c.current, a.st.machines[n].name, some, more, all);
  }

  // -------------------------------------------- the request of the node itself

  /** The request asks for a restart of the node, which templates can carry out
      and no guard but a mark stands against. */
  ghost predicate AsksRestart(cfg: Config, view: View, s: Signal, m: Machine) {
    && s.request != "" && s.node in view.nodes && DecisionIn(cfg, view.mode, s).Restart?
    && TemplatesOnly(CoverageFor(view.checks, m))
    && !m.deleting && !m.controlPlane && !IsPaused(m) && !IsOptedOut(m)
  }

  ghost predicate RestartOf(cfg: Config, view: View, s: Signal, m: Machine, o: Observation) {
    o.Observed? && o.decision.Restart? && o.request == s.request && o.machine == m.name && o.answer.NoAnswer?
  }

  /** A finished restart of another request does not answer this one. */
  lemma FindsItOver(cfg: Config, view: View, st: State, s: Signal)
    requires s.node in st.machines && AsksRestart(cfg, view, s, st.machines[s.node])
    requires RestartCompleted(st.machines[s.node], Find(view.nodes, s.node))
    requires !RestartAnswers(st.machines[s.node], s.request)
    ensures Handle(cfg, view, st, s).0 == st && RestartOf(cfg, view, s, st.machines[s.node], Handle(cfg, view, st, s).1)
  {
    hide CoverageFor, TemplatesOnly, Decided, HeldForChecks;
  }

  /** The Machine is marked for a restart that was asked for by r, at the boot
      ID the node now has. */
  ghost predicate MarkedAnew(m: Machine, r: string, bootID: string) {
    && MarkedFor(m, ACTION_RESTART) && Value(m.annotations, RemediationRequest) == r
    && Value(m.annotations, RemediationBootID) == bootID
  }

  lemma MarksAnew(cfg: Config, view: View, st: State, s: Signal)
    requires !cfg.dryRun && InSync(st) && s.node in st.machines && AsksRestart(cfg, view, s, st.machines[s.node])
    requires !IsMarked(st.machines[s.node]) && NoOwn(st.machines[s.node])
    ensures
      var m := st.machines[s.node];
      var (st', o) := Handle(cfg, view, st, s);
      var (hold, waiting) := HeldForChecks(st.waiting, m, view.now);
      && RestartOf(cfg, view, s, m, o) && OnlyNode(st, st', s.node) && st'.waiting == waiting
      && if hold.held then st'.machines[s.node] == m
         else MarkedAnew(st'.machines[s.node], s.request, BootOf(Find(view.nodes, s.node)))
  {
    hide CoverageFor, TemplatesOnly, Decided, HeldForChecks, MarkForRemediation;
    var m := st.machines[s.node];
    var made := MarkMade(st.w.pass, s.node, m, Restart, ACTION_RESTART,
                         RestartRecord(BootOf(Find(view.nodes, s.node)), s.request), true, map[]);
    QuietMark(st.w, m, s.check, made);
    Kinds(m, s.check, made.record, st.w.store);
    KeepsSync(st, s.node, MarkForRemediation(st.w, false, m, s.check, made).0, MarkForRemediation(st.w, false, m, s.check, made).1.value);
    assert st.machines == st.machines[s.node := m];
  }

  lemma {:induction false} TakeInTwo(cfg: Config, view: View, previous: map<string, Observation>, p: Progress, a: seq<Signal>, b: seq<Signal>)
    ensures TakeSignals(cfg, view, previous, p, a + b)
         == TakeSignals(cfg, view, previous, TakeSignals(cfg, view, previous, p, a), b)
  {
    if b == [] {
      assert a + b == a;
    } else {
      var k := |b| - 1;
      assert (a + b)[..|a + b| - 1] == a + b[..k];
      TakeInTwo(cfg, view, previous, p, a, b[..k]);
    }
  }

  /** The only signal of its node is this request, which is pending, and the
      pass has every Machine as it is and knows the node. */
  ghost predicate OnlyAsker(cfg: Config, view: View, w: World, i: nat) {
    && !cfg.dryRun && InSync(State(w, view.machines, map[])) && Distinct(view.signals) && i < |view.signals|
    && var s := view.signals[i];
    && s.node in view.machines && view.machines[s.node].name != ""
    && s.request != "" && s.node in view.nodes
    && s.request in w.requests && Pending(w.requests[s.request])
    && Others(view.signals[..i] + view.signals[i + 1..], s.node, s.request)
  }

  /** What the signals before this one leave: it finds everything about its
      node as it was. */
  lemma BeforeOwn(cfg: Config, view: View, previous: map<string, Observation>, w: World, waiting: Waiting, i: nat, asked: string)
    requires OnlyAsker(cfg, view, w, i)
    ensures
      var s := view.signals[i];
      var p := TakeSignals(cfg, view, previous, Start(w, view, waiting), view.signals[..i]);
      && !p.unreadable && Aside(State(w, view.machines, waiting), p.st, s.node, s.request, asked)
      && (NotAsking(w, asked) ==> asked !in p.asking)
      && s.Key() !in p.current
      && forall k :: k in p.current ==> p.current[k].Observed? && p.current[k].machine != view.machines[s.node].name
  {
    hide Pending, TemplatesOnly, CoverageFor, DecisionIn;
    var s := view.signals[i];
    assert Others(view.signals[..i], s.node, s.request) by {
      assert forall x :: x in view.signals[..i] ==> x in view.signals[..i] + view.signals[i + 1..];
    }
    TakeAllAside(cfg, view, previous, Start(w, view, waiting), view.signals[..i], s.node, s.request, asked);
    assert s.Key() !in KeysOf(view.signals[..i]);
  }

  /** Of the observations so far only the one by this key is about the Machine. */
  ghost predicate OnlyObserved(p: Progress, name: string, key: string, o: Observation) {
    && key in p.current && p.current[key] == o
    && forall k :: k in p.current && k != key ==> p.current[k].Observed? && p.current[k].machine != name
  }

  lemma AfterOwn(cfg: Config, view: View, previous: map<string, Observation>, w: World, p: Progress, i: nat, asked: string, o: Observation)
    requires OnlyAsker(cfg, view, w, i) && InSync(p.st) && !p.unreadable
    requires
      var s := view.signals[i];
      && s.node in p.st.machines && p.st.machines[s.node].name == view.machines[s.node].name
      && OnlyObserved(p, view.machines[s.node].name, s.Key(), o)
    ensures
      var s := view.signals[i];
      var q := TakeSignals(cfg, view, previous, p, view.signals[i + 1..]);
      && !q.unreadable && Aside(p.st, q.st, s.node, s.request, asked)
      && OnlyObserved(q, view.machines[s.node].name, s.Key(), o)
      && (NotAsking(p.st.w, asked) && asked !in p.asking ==> asked !in q.asking)
  {
    hide Pending, TemplatesOnly, CoverageFor, DecisionIn;
    var s := view.signals[i];
    var rest := view.signals[i + 1..];
    assert Others(rest, s.node, s.request) by {
      assert forall x :: x in rest ==> x in view.signals[..i] + rest;
    }
    TakeAllAside(cfg, view, previous, p, view.signals[i + 1..], s.node, s.request, asked);
    assert s.Key() !in KeysOf(view.signals[i + 1..]);
  }

  lemma HeldByOne(machines: map<string, Machine>, nodes: map<string, Node>, p: Progress, name: string, key: string, o: Observation)
    requires OnlyObserved(p, name, key, o) && o.Observed? && o.machine == name
    ensures name in HeldNames(machines, nodes, p.asking, p.current) <==> Holds(machines, nodes, p.asking, o)
  {
    hide Holds;
    if Holds(machines, nodes, p.asking, o) { assert Holds(machines, nodes, p.asking, p.current[key]); }
  }

  /** How the pass ends for the Machine. */
  lemma EndsFor(cfg: Config, view: View, p: Progress, n: string, key: string, o: Observation)
    requires !cfg.dryRun && InSync(p.st) && n in p.st.machines
    requires OnlyObserved(p, p.st.machines[n].name, key, o) && o.Observed? && o.machine == p.st.machines[n].name
    ensures
      var m := p.st.machines[n];
      var st := ReleaseRestarts(cfg, view, p);
      && n in st.machines && InSync(st) && st.w.requests == p.st.w.requests && st.waiting == p.st.waiting
      && Rest(st.machines[n]) == Rest(m)
      && if KindOf(m).ForRestart? && !m.deleting && !Holds(p.st.machines, view.nodes, p.asking, o)
         then KindOf(st.machines[n]).Unmarked? else st.machines[n] == m
  {
    hide Holds, HeldNames;
    HeldByOne(p.st.machines, view.nodes, p, p.st.machines[n].name, key, o);
    var held := HeldNames(p.st.machines, view.nodes, p.asking, p.current);
    var nodes := InOrder(p.st.machines.Keys);
    assert n in nodes;
    ReleasesExactly(cfg, p.st, nodes, held);
    assert ReleasedIn(p.st, ReleaseEach(cfg, p.st, nodes, held), nodes, held, n);
  }

  /** The progress of the pass once it took the request of the node, given what
      handling it does. */
  lemma AtOwn(cfg: Config, view: View, previous: map<string, Observation>, w: World, waiting: Waiting, i: nat, asked: string)
    returns (p: Progress, st: State)
    requires OnlyAsker(cfg, view, w, i)
    ensures
      var s := view.signals[i];
      && p == TakeSignals(cfg, view, previous, Start(w, view, waiting), view.signals[..i])
      && st == p.st.(w := IsPending(p.st.w, s.request).0)
      && Aside(State(w, view.machines, waiting), st, s.node, s.request, asked)
      && (NotAsking(w, asked) && asked != s.request ==> asked !in p.asking + {s.request})
      && !p.unreadable
      && (forall k :: k in p.current ==> p.current[k].Observed? && p.current[k].machine != view.machines[s.node].name)
      && TakeSignal(cfg, view, previous, p, s) == Act(cfg, view, Progress(st, p.current, p.asking + {s.request}, false), s)
  {
    hide Act, IsPending;
    var s := view.signals[i];
    p := TakeSignals(cfg, view, previous, Start(w, view, waiting), view.signals[..i]);
    BeforeOwn(cfg, view, previous, w, waiting, i, asked);
    QuietRead(p.st, s.request);
    st := p.st.(w := IsPending(p.st.w, s.request).0);
    assert Find(p.st.w.requests, s.request) == Find(w.requests, s.request);
  }

  lemma PassInThree(cfg: Config, view: View, previous: map<string, Observation>, p0: Progress, i: nat)
    requires i < |view.signals|
    ensures
      var p := TakeSignals(cfg, view, previous, p0, view.signals[..i]);
      TakeSignals(cfg, view, previous, p0, view.signals)
      == TakeSignals(cfg, view, previous, TakeSignal(cfg, view, previous, p, view.signals[i]), view.signals[i + 1..])
  {
    hide TakeSignal;
    assert view.signals == view.signals[..i + 1] + view.signals[i + 1..];
    TakeInTwo(cfg, view, previous, p0, view.signals[..i + 1], view.signals[i + 1..]);
    assert view.signals[..i + 1][..i] == view.signals[..i];
  }

  /** A mark that records the boot ID its node still has is not over. */
  lemma NewMarkHolds(view: View, p: Progress, n: string, o: Observation)
    requires o.Observed? && n in p.st.machines && p.st.machines[n].name != "" && OneNodeEach(p.st.machines)
    requires MarkedAnew(p.st.machines[n], o.request, BootOf(Find(view.nodes, n)))
    requires o.decision.Restart? && o.machine == p.st.machines[n].name
    ensures Holds(p.st.machines, view.nodes, p.asking, o)
  {
  }

  lemma HoldOnlyByItsName(a: Waiting, b: Waiting, m: Machine, now: int)
    requires Find(a, m.name) == Find(b, m.name)
    ensures HeldForChecks(a, m, now).0 == HeldForChecks(b, m, now).0
    ensures Find(HeldForChecks(a, m, now).1, m.name) == Find(HeldForChecks(b, m, now).1, m.name)
  {
  }

  /** A pass that finds the finished restart of another request, which is not
      asking any more, on the Machine removes that mark, and leaves this request
      as it was: it is not answered. */
  lemma FinishedMarkGoes(cfg: Config, view: View, previous: map<string, Observation>, w: World, waiting: Waiting, i: nat)
    requires OnlyAsker(cfg, view, w, i) && AsksRestart(cfg, view, view.signals[i], view.machines[view.signals[i].node])
    requires
      var s := view.signals[i];
      var m := view.machines[s.node];
      && RestartCompleted(m, Find(view.nodes, s.node)) && !RestartAnswers(m, s.request)
      && NotAsking(w, Value(m.annotations, RemediationRequest))
    ensures
      var s := view.signals[i];
      var m := view.machines[s.node];
      var out := Pass(cfg, view, previous, w, waiting);
      && Quiet(out.st.w) && s.node in out.st.machines && Synced(out.st.w, out.st.machines[s.node])
      && out.st.machines[s.node].name == m.name
      && !IsMarked(out.st.machines[s.node])
      && Find(out.st.w.requests, s.request) == Find(w.requests, s.request)
  {
    hide TakeSignals, TakeSignal, Handle, IsPending, ReleaseRestarts, TemplatesOnly, CoverageFor, DecisionIn, Pending;
    var s := view.signals[i];
    var n, m := s.node, view.machines[s.node];
    var asked := Value(m.annotations, RemediationRequest);
    var p1, st := AtOwn(cfg, view, previous, w, waiting, i, asked);
    FindsItOver(cfg, view, st, s);
    var o := Handle(cfg, view, st, s).1;
    var p2 := Progress(st, p1.current[s.Key() := o], p1.asking + {s.request}, false);
    AfterOwn(cfg, view, previous, w, p2, i, asked, o);
    PassInThree(cfg, view, previous, Start(w, view, waiting), i);
    var p := TakeSignals(cfg, view, previous, p2, view.signals[i + 1..]);
    assert p.st.machines[n] == m;
    assert asked !in p.asking;
    assert Behind(p.st.machines, view.nodes, p.asking, o) by {
      assert Leftover(p.st.machines[n], Find(view.nodes, n), p.asking);
    }
    EndsFor(cfg, view, p, n, s.Key(), o);
    var end := ReleaseRestarts(cfg, view, p);
    SameRest(end.machines[n], m);
  }

  /** Handling a request whose own restart is over concludes that it is. */
  lemma FindsItsOwn(cfg: Config, view: View, st: State, s: Signal)
    requires s.node in st.machines && s.request != "" && s.node in view.nodes && DecisionIn(cfg, view.mode, s).Restart?
    requires RestartCompleted(st.machines[s.node], Find(view.nodes, s.node)) && RestartAnswers(st.machines[s.node], s.request)
    ensures Handle(cfg, view, st, s).0 == st
    ensures
      var o := Handle(cfg, view, st, s).1;
      o.Observed? && o.machine == st.machines[s.node].name && o.answer == Give(true, Restarted)
  {
    hide CoverageFor, TemplatesOnly, Decided, HeldForChecks, RestartCompleted, RestartAnswers;
  }

  lemma TellsIt(cfg: Config, view: View, st: State, s: Signal, a: Answer)
    requires !cfg.dryRun && InSync(st) && s.node in st.machines && a == Give(true, Restarted)
    requires s.request in st.w.requests && Pending(st.w.requests[s.request])
    requires MarkedFor(st.machines[s.node], ACTION_RESTART) && !st.machines[s.node].deleting
    ensures
      var st' := TellRequest(cfg, view, st, s, a);
      && OnlyNodeAnd(st, st', s.node) && !IsMarked(st'.machines[s.node]) && s.request in st'.w.requests
      && st'.w.requests[s.request].conditions
         == WithAnswer(st.w.requests[s.request].conditions, AnswerCondition(true, Restarted))
  {
    var m := st.machines[s.node];
    var node := Find(view.nodes, s.node);
    QuietAnswer(st.w, s.request, true, Restarted, Some(m), node);
    var (w, r) := AnswerRequest(st.w, s.request, true, Restarted, Some(m), node);
    assert r == Ok(true);
    hide AnswerRequest;
    QuietRelease(w, m);
    Kinds(m, "", RestartRecord("", ""), w.store);
    var (w2, r2) := Release(w, false, m);
    KeepsSync(st.(w := w), s.node, w2, r2.value);
    hide Release, Pending, WithAnswer;
  }

  /** Only the Machine of the node changed, and requests may have. */
  ghost predicate OnlyNodeAnd(st: State, st': State, n: string)
    requires n in st.machines
  {
    && n in st'.machines && st'.machines == st.machines[n := st'.machines[n]]
    && Rest(st'.machines[n]) == Rest(st.machines[n]) && InSync(st')
  }

  /** A pass that finds a request's own finished restart answers the request
      True, with every other condition as it was, and releases the Machine. */
  lemma FinishedRestartIsAnswered(cfg: Config, view: View, previous: map<string, Observation>, w: World, waiting: Waiting, i: nat)
    requires OnlyAsker(cfg, view, w, i) && DecisionIn(cfg, view.mode, view.signals[i]).Restart?
    requires
      var s := view.signals[i];
      var m := view.machines[s.node];
      RestartCompleted(m, Find(view.nodes, s.node)) && RestartAnswers(m, s.request) && !m.deleting
    ensures
      var s := view.signals[i];
      var m := view.machines[s.node];
      var out := Pass(cfg, view, previous, w, waiting);
      && s.node in out.st.machines && Synced(out.st.w, out.st.machines[s.node]) && out.st.machines[s.node].name == m.name
      && !IsMarked(out.st.machines[s.node])
      && s.request in out.st.w.requests
      && out.st.w.requests[s.request].conditions
         == WithAnswer(w.requests[s.request].conditions, AnswerCondition(true, Restarted))
      && Answered(out.st.w.requests[s.request])
  {
    hide TakeSignals, TakeSignal, Handle, TellRequest, IsPending, ReleaseRestarts, Pending, WithAnswer, DecisionIn, RestartCompleted;
    var s := view.signals[i];
    var n, m := s.node, view.machines[s.node];
    var p1, st := AtOwn(cfg, view, previous, w, waiting, i, "");
    assert Find(st.w.requests, s.request) == Find(w.requests, s.request);
    FindsItsOwn(cfg, view, st, s);
    var o := Handle(cfg, view, st, s).1;
    assert MarkedFor(m, ACTION_RESTART) by { CompletedIsMarked(m, Find(view.nodes, n)); }
    TellsIt(cfg, view, st, s, o.answer);
    var st' := TellRequest(cfg, view, st, s, o.answer);
    var p2 := Progress(st', p1.current[s.Key() := o], p1.asking + {s.request}, false);
    SameRest(st'.machines[n], m);
    AfterOwn(cfg, view, previous, w, p2, i, "", o);
    PassInThree(cfg, view, previous, Start(w, view, waiting), i);
    var p := TakeSignals(cfg, view, previous, p2, view.signals[i + 1..]);
    EndsFor(cfg, view, p, n, s.Key(), o);
    AnswerSettlesAndKeepsTheRest(w.requests[s.request].conditions, true, Restarted, COMPLETE);
  }

  lemma CompletedIsMarked(m: Machine, node: Option<Node>)
    requires RestartCompleted(m, node)
    ensures MarkedFor(m, ACTION_RESTART)
  {
  }

  /** A pass that finds the Machine unmarked marks it for this request, at the
      boot ID its node has, unless the wait for the checks holds it back. */
  lemma MarkedUnlessHeld(cfg: Config, view: View, previous: map<string, Observation>, w: World, waiting: Waiting, i: nat)
    requires OnlyAsker(cfg, view, w, i) && AsksRestart(cfg, view, view.signals[i], view.machines[view.signals[i].node])
    requires
      var m := view.machines[view.signals[i].node];
      !IsMarked(m) && NoOwn(m)
    ensures
      var s := view.signals[i];
      var m := view.machines[s.node];
      var out := Pass(cfg, view, previous, w, waiting);
      var (hold, after) := HeldForChecks(waiting, m, view.now);
      && Quiet(out.st.w) && s.node in out.st.machines && Synced(out.st.w, out.st.machines[s.node])
      && out.st.machines[s.node].name == m.name
      && Find(out.st.w.requests, s.request) == Find(w.requests, s.request)
      && if hold.held then out.st.machines[s.node] == m && Find(out.st.waiting, m.name) == Find(after, m.name)
         else MarkedAnew(out.st.machines[s.node], s.request, BootOf(Find(view.nodes, s.node)))
  {
    hide TakeSignals, TakeSignal, Handle, IsPending, ReleaseRestarts, TemplatesOnly, CoverageFor, DecisionIn, Pending, Holds,
         IsPaused, IsOptedOut, HeldForChecks, RestartCompleted, Forgotten;
    var s := view.signals[i];
    var n, m := s.node, view.machines[s.node];
    var p1, st := AtOwn(cfg, view, previous, w, waiting, i, "");
    MarksAnew(cfg, view, st, s);
    var (st', o) := Handle(cfg, view, st, s);
    var p2 := Progress(st', p1.current[s.Key() := o], p1.asking + {s.request}, false);
    SameRest(st'.machines[n], m);
    AfterOwn(cfg, view, previous, w, p2, i, "", o);
    PassInThree(cfg, view, previous, Start(w, view, waiting), i);
    var p := TakeSignals(cfg, view, previous, p2, view.signals[i + 1..]);
    EndsFor(cfg, view, p, n, s.Key(), o);
    if !HeldForChecks(st.waiting, m, view.now).0.held { NewMarkHolds(view, p, n, o); }
    HoldOnlyByItsName(st.waiting, waiting, m, view.now);
    if HeldForChecks(st.waiting, m, view.now).0.held {
      HeldKeepsItsWait(st.waiting, ReleaseRestarts(cfg, view, p), n, m, view.now);
    }
  }

  lemma HeldKeepsItsWait(waiting: Waiting, st: State, n: string, m: Machine, now: int)
    requires HeldForChecks(waiting, m, now).0.held && n in st.machines && st.machines[n] == m
    ensures Find(Forgotten(st.waiting, st.machines), m.name) == Find(st.waiting, m.name)
  {
    assert EarlierMarkPending(m);
    assert StillPending(st.machines, m.name);
  }
}
// The same over a run of passes.

module RestartRuns {
  import opened Text
  import opened Machines
  import opened Requests
  import opened Store
  import opened ClusterWorld
  import opened ClusterSound
  import opened Waits
  import opened Passes
  import opened PassSafety
  import opened QuietPass
  import opened RestartProgress

  // The node, its Machine, and the request that waits.
  datatype Case = Case(node: string, machine: string, request: string)

  /** The operator goes on as it was, nothing disturbs its pass, and the request
      asks for a restart, at its place among the signals. */
  ghost predicate AsksAt(o: Operator, m: Moment, c: Case, i: nat) {
    && o.w.alive && !m.restarted && !m.interrupted && m.turns == [] && OnlyAsker(m.cfg, m.view, Begin(o, m), i)
    && m.view.signals[i].node == c.node && m.view.signals[i].request == c.request
    && m.view.machines[c.node].name == c.machine
    && AsksRestart(m.cfg, m.view, m.view.signals[i], m.view.machines[c.node])
  }

  ghost predicate Asks(o: Operator, m: Moment, c: Case) { exists i: nat :: AsksAt(o, m, c, i) }

  /** The pass finds the Machine unmarked. */
  ghost predicate FindsUnmarked(o: Operator, m: Moment, c: Case) {
    Asks(o, m, c) && c.node in m.view.machines && !IsMarked(m.view.machines[c.node]) && NoOwn(m.view.machines[c.node])
  }

  /** The pass finds another request's finished restart on the Machine, and that
      request not asking any more. */
  ghost predicate FindsFinished(o: Operator, m: Moment, c: Case) {
    && Asks(o, m, c) && c.node in m.view.machines
    && var machine := m.view.machines[c.node];
    && RestartCompleted(machine, Find(m.view.nodes, c.node)) && !RestartAnswers(machine, c.request)
    && NotAsking(Begin(o, m), Value(machine.annotations, RemediationRequest))
  }

  /** After the pass the Machine is marked for the request, at the boot ID its
      node had on that pass. */
  ghost predicate MarkedAfter(o: Operator, m: Moment, c: Case) {
    c.machine in o.w.store.machines
    && MarkedAnew(o.w.store.machines[c.machine], c.request, BootOf(Find(m.view.nodes, c.node)))
  }

  lemma PassMarksOrHolds(o: Operator, m: Moment, c: Case)
    requires FindsUnmarked(o, m, c) && !MarkedAfter(RunOn(o, m), m, c)
    ensures
      var (hold, after) := HeldForChecks(o.waiting, m.view.machines[c.node], m.view.now);
      hold.held && c.machine in RunOn(o, m).waiting && Find(RunOn(o, m).waiting, c.machine) == Find(after, c.machine)
  {
    hide Pass, OnlyAsker, HeldForChecks, NoOwn;
    var i: nat :| AsksAt(o, m, c, i);
    MarkedUnlessHeld(m.cfg, m.view, Remembered(o, m), Begin(o, m), o.waiting, i);
    HeldHasWait(o.waiting, m.view.machines[c.node], m.view.now);
  }

  lemma HeldHasWait(waiting: Waiting, m: Machine, now: int)
    ensures HeldForChecks(waiting, m, now).0.held ==>
              var after := HeldForChecks(waiting, m, now).1;
              && m.name in after && now - after[m.name].since < EARLIER_MARK_GRACE
              && (m.name in waiting ==> after[m.name] == waiting[m.name])
  {
  }

  lemma RunMovesWaitsOn(o: Operator, m: Moment)
    requires !m.restarted && !m.interrupted && o.w.alive
    ensures MovesOn(o.waiting, RunOn(o, m).waiting, m.view.now)
  {
    PassMovesWaitsOn(m.cfg, m.view, Remembered(o, m), Begin(o, m), o.waiting);
  }

  ghost predicate Follows(before: Moment, after: Operator, m: Moment, poll: int) {
    exists next :: IsNextLook(after.waiting, poll, before.view.now, next) && m.view.now >= before.view.now + next
  }

  /** A pass that finds another request's finished restart removes that mark and
      leaves the request as it was. While the request stays pending, and the
      passes come when the last one asked for them, one of the next passes marks
      the Machine for it, within the bound on how long the wait for the checks
      can last from the first of them. */
  lemma RestartComesAnew(run: seq<Operator>, moments: seq<Moment>, c: Case, poll: int) returns (k: nat)
    requires |moments| >= 2 && |run| == |moments| + 1 && poll > 0
    requires forall i :: 0 <= i < |moments| ==> run[i + 1] == RunOn(run[i], moments[i])
    requires FindsFinished(run[0], moments[0], c)
    requires forall i :: 1 <= i < |moments| && (forall j :: 1 <= j < i ==> !MarkedAfter(run[j + 1], moments[j], c)) ==>
               FindsUnmarked(run[i], moments[i], c)
    requires Punctual(run[0].waiting, moments[0].view.now) && moments[0].view.now <= moments[1].view.now
    requires forall i :: 1 <= i < |moments| - 1 ==> Follows(moments[i], run[i + 1], moments[i + 1], poll)
    requires c.machine in run[2].waiting ==>
               |moments| - 1 > Bound(Look(moments[1].view.now, run[2].waiting), c.machine, poll)
    ensures c.machine in run[1].w.store.machines && !IsMarked(run[1].w.store.machines[c.machine])
    ensures Find(run[1].w.requests, c.request) == Find(Begin(run[0], moments[0]).requests, c.request)
    ensures 1 <= k < |moments| && MarkedAfter(run[k + 1], moments[k], c)
  {
    hide RunOn, MarkedAfter, HeldForChecks, FindsUnmarked, IsNextLook;
    FinishedGoes(run[0], moments[0], c);
    if k' :| 1 <= k' < |moments| && MarkedAfter(run[k' + 1], moments[k'], c) {
      k := k';
    } else {
      forall i | 1 <= i < |moments| ensures WaitsAt(run, moments, c, i) && WithinGrace(run, moments, c, i) {
        assert FindsUnmarked(run[i], moments[i], c);
        HeldThen(run[i], moments[i], c);
      }
      var j := WaitRunsOut(run, moments, c, poll);
      assert false;
    }
  }

  /** The pass held the restart back, by a wait that goes on from the last. */
  ghost predicate WaitsAt(run: seq<Operator>, moments: seq<Moment>, c: Case, i: nat)
    requires |run| == |moments| + 1 && i < |moments|
  {
    && c.machine in run[i + 1].waiting && MovesOn(run[i].waiting, run[i + 1].waiting, moments[i].view.now)
    && (c.machine in run[i].waiting ==> run[i + 1].waiting[c.machine] == run[i].waiting[c.machine])
  }

  ghost predicate WithinGrace(run: seq<Operator>, moments: seq<Moment>, c: Case, i: nat)
    requires |run| == |moments| + 1 && i < |moments| && c.machine in run[i + 1].waiting
  {
    moments[i].view.now - run[i + 1].waiting[c.machine].since < EARLIER_MARK_GRACE
  }

  /** A run that keeps waiting reaches the end of the wait within its bound. */
  lemma WaitRunsOut(run: seq<Operator>, moments: seq<Moment>, c: Case, poll: int) returns (k: nat)
    requires |moments| >= 2 && |run| == |moments| + 1 && poll > 0
    requires forall i :: 1 <= i < |moments| ==> WaitsAt(run, moments, c, i)
    requires forall i :: 1 <= i < |moments| - 1 ==> Follows(moments[i], run[i + 1], moments[i + 1], poll)
    requires MovesOn(run[0].waiting, run[1].waiting, moments[0].view.now)
    requires Punctual(run[0].waiting, moments[0].view.now) && moments[0].view.now <= moments[1].view.now
    requires c.machine in run[2].waiting ==>
               |moments| - 1 > Bound(Look(moments[1].view.now, run[2].waiting), c.machine, poll)
    ensures 1 <= k < |moments| && c.machine in run[k + 1].waiting && !WithinGrace(run, moments, c, k)
  {
    hide IsNextLook, MovesOn, Bound, Punctual;
    var looks := seq(|moments| - 1, i requires 0 <= i < |moments| - 1 => Look(moments[i + 1].view.now, run[i + 2].waiting));
    assert WaitsAt(run, moments, c, 1);
    FirstWait(run, moments, c);
    forall i | 0 <= i < |looks| - 1 ensures NextPass(looks[i], looks[i + 1], poll, c.machine) {
      assert WaitsAt(run, moments, c, i + 1) && WaitsAt(run, moments, c, i + 2);
      assert Follows(moments[i + 1], run[i + 2], moments[i + 2], poll);
    }
    var j := WaitEnds(looks, poll, c.machine);
    SinceStays(looks, poll, c.machine, j);
    k := j + 1;
  }

  lemma HeldThen(o: Operator, m: Moment, c: Case)
    requires FindsUnmarked(o, m, c) && !MarkedAfter(RunOn(o, m), m, c)
    ensures
      var after := RunOn(o, m);
      && c.machine in after.waiting && MovesOn(o.waiting, after.waiting, m.view.now)
      && m.view.now - after.waiting[c.machine].since < EARLIER_MARK_GRACE
      && (c.machine in o.waiting ==> after.waiting[c.machine] == o.waiting[c.machine])
  {
    hide RunOn, HeldForChecks, OnlyAsker;
    PassMarksOrHolds(o, m, c);
    HeldHasWait(o.waiting, m.view.machines[c.node], m.view.now);
    RunMovesWaitsOn(o, m);
  }

  lemma FinishedGoes(o: Operator, m: Moment, c: Case)
    requires FindsFinished(o, m, c)
    ensures
      var after := RunOn(o, m);
      && c.machine in after.w.store.machines && !IsMarked(after.w.store.machines[c.machine])
      && Find(after.w.requests, c.request) == Find(Begin(o, m).requests, c.request)
      && MovesOn(o.waiting, after.waiting, m.view.now)
  {
    hide Pass, OnlyAsker, RestartCompleted, NotAsking;
    var i: nat :| AsksAt(o, m, c, i);
    FinishedMarkGoes(m.cfg, m.view, Remembered(o, m), Begin(o, m), o.waiting, i);
    RunMovesWaitsOn(o, m);
  }

  lemma FirstWait(run: seq<Operator>, moments: seq<Moment>, c: Case)
    requires |moments| >= 2 && |run| == |moments| + 1
    requires MovesOn(run[0].waiting, run[1].waiting, moments[0].view.now) && WaitsAt(run, moments, c, 1)
    requires Punctual(run[0].waiting, moments[0].view.now) && moments[0].view.now <= moments[1].view.now
    ensures
      var wait := run[2].waiting[c.machine];
      wait.since <= moments[1].view.now && (wait.over ==> Left(wait, moments[1].view.now) <= 0)
  {
    PunctualStays(run[0].waiting, run[1].waiting, moments[0].view.now, moments[0].view.now);
    PunctualStays(run[1].waiting, run[2].waiting, moments[0].view.now, moments[1].view.now);
  }

  lemma {:induction false} SinceStays(looks: seq<Look>, poll: int, name: string, j: nat)
    requires forall i :: 0 <= i < |looks| - 1 ==> NextPass(looks[i], looks[i + 1], poll, name)
    requires j < |looks| && name in looks[0].waiting
    ensures name in looks[j].waiting && looks[j].waiting[name].since == looks[0].waiting[name].since
  {
    if j > 0 {
      SinceStays(looks, poll, name, j - 1);
      assert NextPass(looks[j - 1], looks[j], poll, name);
    }
  }
}
