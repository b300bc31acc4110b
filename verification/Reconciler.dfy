// internal/controller/cluster_controller.go: the reconciler of the workload
// clusters, with what it remembers about each from pass to pass. Its methods
// are proved to do what the functions of module Passes and Waits say.

module Reconcilers {
  import opened Text
  import opened Sorting
  import opened Signals
  import opened Decisions
  import opened Machines
  import opened Requests
  import opened Store
  import opened ClusterWorld
  import opened Waits
  import opened Passes
  import opened PassSafety
  import opened Causes
  import opened Actuators

  // ------------------------------------------------------- what a pass reads

  datatype ClusterRead = Unreadable | Gone | Deleting | Unselected | PausedCluster | Active

  datatype ClientRead = Connected | NotConnected | NoClient

  // A Machine of the Cluster, with the name of the node it owns, if any.
  datatype Listed = Listed(machine: Machine, node: string)

  // What the reads of a pass return, None for one that fails.
  datatype Reading = Reading(
    cluster: ClusterRead, client: ClientRead, mode: Option<Mode>, signals: Option<seq<Signal>>,
    listed: Option<seq<Listed>>, checks: Option<seq<Check>>, nodes: Option<map<string, Node>>, live: bool,
    override: Option<string>, now: int)

  datatype Requeue = Never | After(delay: int) | Backoff

  function ByNode(listed: seq<Listed>): map<string, Machine> {
    if listed == [] then map[]
    else
      var n := |listed| - 1;
      var before := ByNode(listed[..n]);
      if listed[n].node == "" then before else before[listed[n].node := listed[n].machine]
  }

  /** Every read that the pass needs went through. */
  predicate Complete(r: Reading) {
    && r.cluster.Active? && r.client.Connected? && r.mode.Some? && r.signals.Some? && r.listed.Some?
    && (r.signals.value == [] ||
        (r.checks.Some? && r.nodes.Some? && (r.mode.value.ExternalRemediationRequest? ==> r.live)))
  }

  function ViewOf(r: Reading): View
    requires Complete(r)
  {
    var some := r.signals.value != [];
    View(r.mode.value, r.signals.value, ByNode(r.listed.value), if some then r.nodes.value else map[],
         if some then r.checks.value else [], r.override, r.now)
  }

  function PollInterval(cfg: Config): int { if cfg.poll > 0 then cfg.poll else DEFAULT_POLL_INTERVAL }

  // ------------------------------------------------- the copies a pass works on

  ghost function MachinesOf(copies: map<string, Copy>): map<string, Machine>
    reads copies.Values
  {
    map n | n in copies :: copies[n].m
  }

  ghost predicate Apart(copies: map<string, Copy>) {
    forall a, b :: a in copies && b in copies && a != b ==> copies[a] != copies[b]
  }

  function CopyAt(copies: map<string, Copy>, node: string): (c: Copy?)
    ensures c != null ==> node in copies && copies[node] == c
  {
    if node in copies then copies[node] else null
  }

  /** The Machines whose checks still show the mark they carried. */
  method PendingNames(copies: map<string, Copy>) returns (pending: set<string>)
    ensures forall name :: name in pending <==> StillPending(MachinesOf(copies), name)
  {
    pending := {};
    var nodes := copies.Keys;
    while nodes != {}
      invariant nodes <= copies.Keys
      invariant forall n :: n in copies && n !in nodes && EarlierMarkPending(copies[n].m) ==> copies[n].m.name in pending
      invariant forall name :: name in pending ==> StillPending(MachinesOf(copies), name)
      decreases nodes
    {
      var n :| n in nodes;
      nodes := nodes - {n};
      if EarlierMarkPending(copies[n].m) {
        assert MachinesOf(copies)[n] == copies[n].m;
        pending := pending + {copies[n].m.name};
      }
    }
  }

  /** The Machines by the node they own, each as a copy of the pass's own. */
  method MachinesByNode(listed: seq<Listed>) returns (copies: map<string, Copy>)
    ensures Apart(copies) && fresh(copies.Values) && MachinesOf(copies) == ByNode(listed)
    ensures forall i :: 0 <= i < |listed| && listed[i].node != "" ==> listed[i].node in copies
  {
    copies := map[];
    for i := 0 to |listed|
      invariant Apart(copies) && fresh(copies.Values) && MachinesOf(copies) == ByNode(listed[..i])
    {
      assert listed[..i + 1][..i] == listed[..i];
      if listed[i].node != "" {
        var c := new Copy(listed[i].machine);
        ghost var before := MachinesOf(copies);
        assert forall n :: n in copies ==> copies[n] in copies.Values;
        copies := copies[listed[i].node := c];
        assert MachinesOf(copies) == before[listed[i].node := listed[i].machine];
      }
    }
    assert listed[..|listed|] == listed;
    forall i | 0 <= i < |listed| && listed[i].node != "" ensures listed[i].node in copies {
      ListedIsByNode(listed, i);
      assert listed[i].node in MachinesOf(copies);
    }
  }

  /** No Machine is listed twice. */
  ghost predicate EachOnce(listed: seq<Listed>) {
    forall i, j :: 0 <= i < j < |listed| ==> listed[i].machine.name != listed[j].machine.name
  }

  lemma {:induction false} ByNodeIsListed(listed: seq<Listed>, n: string) returns (i: nat)
    requires n in ByNode(listed)
    ensures i < |listed| && listed[i] == Listed(ByNode(listed)[n], n)
  {
    var k := |listed| - 1;
    if listed[k].node == n && n != "" {
      i := k;
    } else {
      i := ByNodeIsListed(listed[..k], n);
    }
  }

  /** Every node a listed Machine owns has a Machine, the last of those that own
      it. */
  lemma {:induction false} ListedIsByNode(listed: seq<Listed>, i: nat)
    requires i < |listed| && listed[i].node != ""
    ensures listed[i].node in ByNode(listed)
    ensures (forall j :: i < j < |listed| ==> listed[j].node != listed[i].node) ==> ByNode(listed)[listed[i].node] == listed[i].machine
  {
    var k := |listed| - 1;
    if i < k {
      ListedIsByNode(listed[..k], i);
    }
  }

  lemma ListedOnceOneNode(listed: seq<Listed>)
    requires EachOnce(listed)
    ensures OneNodeEach(ByNode(listed))
  {
    var machines := ByNode(listed);
    forall a, b | a in machines && b in machines && machines[a].name == machines[b].name ensures a == b {
      var i := ByNodeIsListed(listed, a);
      var j := ByNodeIsListed(listed, b);
    }
  }

  // ------------------------------------------- a Machine stays that Machine

  ghost predicate SameMachines(st: State, st': State) {
    st'.machines.Keys == st.machines.Keys && forall n :: n in st.machines ==> st'.machines[n].name == st.machines[n].name
  }

  lemma WritesKeepNames(w: World, dryRun: bool, m: Machine, reason: string, made: MarkMade)
    ensures
      var r := ClusterWorld.Release(w, dryRun, m).1;
      r.Ok? ==> r.value.name == m.name
    ensures
      var r := ClusterWorld.Escalate(w, dryRun, m, reason).1;
      r.Ok? ==> r.value.name == m.name
    ensures
      var r := ClusterWorld.MarkForRemediation(w, dryRun, m, reason, made).1;
      r.Ok? ==> r.value.name == m.name
  {
  }

  lemma ReadKeepsName(w: World, name: string)
    ensures ReadCached(w, name).1.Ok? ==> ReadCached(w, name).1.value.name == name
  {
  }

  lemma GuardedKeepsMachines(cfg: Config, view: View, st: State, s: Signal, d: Decision, ask: Ask, m: Machine, obs: Observation)
    requires obs.Observed? && s.node in st.machines && m.name == st.machines[s.node].name
    ensures SameMachines(st, Guarded(cfg, view, st, s, d, ask, m, obs).0)
  {
    hide MarkNow, HeldForChecks, Unavailable, Guard;
    MarkNowKeepsMachines(cfg, view, st, s, d, ask.asks, m, obs);
    MarkNowKeepsMachines(cfg, view, st.(waiting := HeldForChecks(st.waiting, m, view.now).1), s, d, ask.asks, m, obs);
  }

  lemma MarkNowKeepsMachines(cfg: Config, view: View, st: State, s: Signal, d: Decision, asks: Decision, m: Machine, obs: Observation)
    requires s.node in st.machines && m.name == st.machines[s.node].name
    ensures SameMachines(st, MarkNow(cfg, view, st, s, d, asks, m, obs).0)
  {
    hide ClusterWorld.MarkForRemediation;
    var record := if asks.Restart? then RestartRecord(BootOf(Find(view.nodes, s.node)), s.request) else RestartRecord("", "");
    WritesKeepNames(st.w, cfg.dryRun, m, s.check, MarkMade(st.w.pass, s.node, m, d, ActionOf(asks), record, true, map[]));
  }

  lemma DryRunMarksNothing(cfg: Config, view: View, st: State, s: Signal, d: Decision, asks: Decision, m: Machine, obs: Observation)
    requires cfg.dryRun && s.node in st.machines && m == st.machines[s.node]
    ensures MarkNow(cfg, view, st, s, d, asks, m, obs) == (st, obs)
  {
    hide Guard;
    assert st.machines == st.machines[s.node := m];
  }

  lemma RemediateKeepsMachines(cfg: Config, view: View, st: State, s: Signal, d: Decision, m: Machine, obs: Observation)
    requires obs.Observed? && s.node in st.machines && m.name == st.machines[s.node].name
    ensures SameMachines(st, Remediate(cfg, view, st, s, d, m, obs).0)
  {
    hide Guarded, ClusterWorld.Escalate, ClusterWorld.Release, ClusterWorld.MarkForRemediation,
         AskFor, RestartCompleted, RestartAnswers, Escalates;
    var ask := AskFor(cfg, view, d, m);
    GuardedKeepsMachines(cfg, view, st, s, d, ask, m, obs);
    WritesKeepNames(st.w, cfg.dryRun, m, s.check, MarkMade(0, "", m, d, "", RestartRecord("", ""), false, map[]));
    var (w, r) := ClusterWorld.Escalate(st.w, cfg.dryRun, m, s.check);
    if r.Ok? { EscalatedKeepsMachines(cfg, view, st, s, d, ask, w, r.value, obs); }
  }

  lemma EscalatedKeepsMachines(cfg: Config, view: View, st: State, s: Signal, d: Decision, ask: Ask, w: World, m: Machine, obs: Observation)
    requires obs.Observed? && s.node in st.machines && m.name == st.machines[s.node].name
    ensures SameMachines(st, Guarded(cfg, view, st.(w := w, machines := st.machines[s.node := m]), s, d, ask, m, obs).0)
  {
    hide Guarded;
    GuardedKeepsMachines(cfg, view, st.(w := w, machines := st.machines[s.node := m]), s, d, ask, m, obs);
  }

  lemma HandleKeepsMachines(cfg: Config, view: View, st: State, s: Signal)
    ensures SameMachines(st, Handle(cfg, view, st, s).0)
  {
    hide Remediate, Decided;
    if s.node in st.machines {
      var m, d := st.machines[s.node], DecisionIn(cfg, view.mode, s);
      RemediateKeepsMachines(cfg, view, st, s, d, m, Observed(d, Decided(cfg.table, s.actions).action, m.name, s.request, None, NoAnswer));
    }
  }

  lemma {:induction false} ReleaseAnsweredKeepsMachines(cfg: Config, st: State, node: string, answered: RestartMark,
                                                        conflicted: bool, attempts: nat)
    requires node in st.machines
    ensures SameMachines(st, ReleaseAnswered(cfg, st, node, answered, conflicted, attempts))
    decreases attempts, if conflicted then 1 else 0
  {
    hide ClusterWorld.Release, ReadCached, RestartMarkOf;
    if attempts > 0 {
      var m := st.machines[node];
      if conflicted {
        ReadKeepsName(st.w, m.name);
        var (w, r) := ReadCached(st.w, m.name);
        if r.Ok? && RestartMarkOf(r.value) == answered {
          ReleaseAnsweredKeepsMachines(cfg, st.(w := w, machines := st.machines[node := r.value]), node, answered, false, attempts);
        }
      } else {
        WritesKeepNames(st.w, cfg.dryRun, m, "", MarkMade(0, "", m, Report, "", RestartRecord("", ""), false, map[]));
        var (w, r) := ClusterWorld.Release(st.w, cfg.dryRun, m);
        if r.Err? && r.error.Conflict? {
          ReleaseAnsweredKeepsMachines(cfg, st.(w := w), node, answered, true, attempts - 1);
        }
      }
    }
  }

  lemma ActKeepsMachines(cfg: Config, view: View, p: Progress, s: Signal)
    ensures SameMachines(p.st, Act(cfg, view, p, s).st)
  {
    hide Handle, ReleaseAnswered, AnswerRequest;
    HandleKeepsMachines(cfg, view, p.st, s);
    var (st, o) := Handle(cfg, view, p.st, s);
    if o.Observed? && o.answer.Give? && s.node in st.machines {
      var machine := Find(st.machines, s.node);
      var (w, _) := AnswerRequest(st.w, s.request, o.answer.complete, o.answer.reason, machine, Find(view.nodes, s.node));
      ReleaseAnsweredKeepsMachines(cfg, st.(w := w), s.node, RestartMarkOf(machine.value), false, RELEASE_ATTEMPTS);
    }
  }

  lemma TakeKeepsMachines(cfg: Config, view: View, previous: map<string, Observation>, p: Progress, s: Signal)
    ensures SameMachines(p.st, TakeSignal(cfg, view, previous, p, s).st)
  {
    hide Act, ClusterWorld.IsPending;
    ActKeepsMachines(cfg, view, p, s);
    if s.request != "" {
      var w := ClusterWorld.IsPending(p.st.w, s.request).0;
      ActKeepsMachines(cfg, view, p.(st := p.st.(w := w), asking := p.asking + {s.request}), s);
    }
  }

  lemma {:induction false} SignalsKeepMachines(cfg: Config, view: View, previous: map<string, Observation>, p: Progress, signals: seq<Signal>)
    ensures SameMachines(p.st, TakeSignals(cfg, view, previous, p, signals).st)
  {
    hide TakeSignal;
    if signals != [] {
      var n := |signals| - 1;
      SignalsKeepMachines(cfg, view, previous, p, signals[..n]);
      TakeKeepsMachines(cfg, view, previous, TakeSignals(cfg, view, previous, p, signals[..n]), signals[n]);
    }
  }

  // ------------------------------------------------- releasing the restarts

  /** A request waits on the Machine for a restart of its own, behind one that
      is over and nobody asks for any more. */
  ghost predicate WaitsBehind(machines: map<string, Machine>, nodes: map<string, Node>, asking: set<string>,
                              current: map<string, Observation>, name: string, request: string) {
    exists k :: k in current && Acting(current[k]) && Behind(machines, nodes, asking, current[k])
                && current[k].machine == name && current[k].request == request
  }

  /** leftover names, for each Machine that requests wait on so, the first of
      them. */
  ghost predicate NamesTheFirst(machines: map<string, Machine>, nodes: map<string, Node>, asking: set<string>,
                                current: map<string, Observation>, leftover: map<string, string>) {
    && (forall name :: name in leftover ==> WaitsBehind(machines, nodes, asking, current, name, leftover[name]))
    && forall name, request :: WaitsBehind(machines, nodes, asking, current, name, request) ==>
         name in leftover && NotAfter(leftover[name], request)
  }

  method NodeOf(copies: map<string, Copy>) returns (nodeOf: map<string, string>)
    requires OneNodeEach(MachinesOf(copies))
    ensures forall n :: n in copies ==> copies[n].m.name in nodeOf && nodeOf[copies[n].m.name] == n
    ensures forall name :: name in nodeOf ==> nodeOf[name] in copies && copies[nodeOf[name]].m.name == name
  {
    nodeOf := map[];
    var left := copies.Keys;
    ghost var machines := MachinesOf(copies);
    while left != {}
      invariant left <= copies.Keys
      invariant forall n :: n in copies && n !in left ==> copies[n].m.name in nodeOf && nodeOf[copies[n].m.name] == n
      invariant forall name :: name in nodeOf ==>
                  nodeOf[name] in copies && nodeOf[name] !in left && copies[nodeOf[name]].m.name == name
      decreases left
    {
      var n :| n in left;
      assert forall k :: k in copies && k !in left ==> machines[k].name != machines[n].name;
      left := left - {n};
      nodeOf := nodeOf[copies[n].m.name := n];
    }
  }

  lemma BehindByNode(machines: map<string, Machine>, nodes: map<string, Node>, asking: set<string>, obs: Observation,
                     nodeOf: map<string, string>)
    requires OneNodeEach(machines) && obs.Observed?
    requires forall n :: n in machines ==> machines[n].name in nodeOf && nodeOf[machines[n].name] == n
    requires forall name :: name in nodeOf ==> nodeOf[name] in machines && machines[nodeOf[name]].name == name
    ensures Behind(machines, nodes, asking, obs)
            <==> obs.machine in nodeOf && obs.decision.Restart? && obs.request != ""
                 && Leftover(machines[nodeOf[obs.machine]], Find(nodes, nodeOf[obs.machine]), asking)
  {
    hide Leftover;
  }

  method IsBehind(copies: map<string, Copy>, nodes: map<string, Node>, nodeOf: map<string, string>, obs: Observation, asking: set<string>)
    returns (behind: bool)
    requires OneNodeEach(MachinesOf(copies)) && obs.Observed?
    requires forall n :: n in copies ==> copies[n].m.name in nodeOf && nodeOf[copies[n].m.name] == n
    requires forall name :: name in nodeOf ==> nodeOf[name] in copies && copies[nodeOf[name]].m.name == name
    ensures behind == Behind(MachinesOf(copies), nodes, asking, obs)
  {
    behind := false;
    if obs.machine in nodeOf && obs.decision.Restart? && obs.request != "" {
      var n := nodeOf[obs.machine];
      behind := Leftover(copies[n].m, Find(nodes, n), asking);
    }
    BehindByNode(MachinesOf(copies), nodes, asking, obs, nodeOf);
  }

  /** Of two requests that wait on a Machine, the first by name. */
  function WithEarlier(leftover: map<string, string>, name: string, request: string): (r: map<string, string>)
    ensures name in r && r.Keys == leftover.Keys + {name}
  {
    if name !in leftover || Compare(request, leftover[name]) < 0 then leftover[name := request] else leftover
  }

  lemma EarlierIsFirst(leftover: map<string, string>, name: string, request: string)
    ensures NotAfter(WithEarlier(leftover, name, request)[name], request)
    ensures forall n, r :: n in leftover && NotAfter(leftover[n], r) ==> NotAfter(WithEarlier(leftover, name, request)[n], r)
  {
    CompareFlips(request, request);
    if name in leftover {
      CompareFlips(request, leftover[name]);
      forall r | NotAfter(leftover[name], r) && NotAfter(request, leftover[name]) ensures NotAfter(request, r) {
        CompareChains(request, leftover[name], r);
      }
    }
  }

  ghost predicate Judged(machines: map<string, Machine>, nodes: map<string, Node>, asking: set<string>,
                         current: map<string, Observation>, keys: set<string>, held: set<string>, leftover: map<string, string>)
  {
    && (forall k :: k in current && k in keys && Holds(machines, nodes, asking, current[k]) ==> current[k].machine in held)
    && (forall name :: name in held ==> Held(machines, nodes, asking, current, name))
    && (forall k :: k in current && k in keys && Acting(current[k]) && Behind(machines, nodes, asking, current[k]) ==>
          current[k].machine in leftover && NotAfter(leftover[current[k].machine], current[k].request))
    && (forall name :: name in leftover ==> WaitsBehind(machines, nodes, asking, current, name, leftover[name]))
  }

  lemma UnlessBehind(machines: map<string, Machine>, nodes: map<string, Node>, asking: set<string>,
                   current: map<string, Observation>, keys: set<string>, held: set<string>, leftover: map<string, string>, k: string)
    requires Judged(machines, nodes, asking, current, keys, held, leftover) && k in current
    requires Acting(current[k]) ==> !Behind(machines, nodes, asking, current[k])
    ensures
      var more := if Acting(current[k]) then held + {current[k].machine} else held;
      Judged(machines, nodes, asking, current, keys + {k}, more, leftover)
  {
    hide Behind, NotAfter, WaitsBehind;
  }

  lemma WhenBehind(machines: map<string, Machine>, nodes: map<string, Node>, asking: set<string>,
                   current: map<string, Observation>, keys: set<string>, held: set<string>, leftover: map<string, string>, k: string)
    requires Judged(machines, nodes, asking, current, keys, held, leftover) && k in current
    requires Acting(current[k]) && Behind(machines, nodes, asking, current[k])
    ensures Judged(machines, nodes, asking, current, keys + {k}, held,
                   WithEarlier(leftover, current[k].machine, current[k].request))
  {
    hide Behind, NotAfter, Held;
    var obs := current[k];
    EarlierIsFirst(leftover, obs.machine, obs.request);
    assert WaitsBehind(machines, nodes, asking, current, obs.machine, obs.request);
    var after := WithEarlier(leftover, obs.machine, obs.request);
    forall name | name in after ensures WaitsBehind(machines, nodes, asking, current, name, after[name]) {
      assert after[name] == obs.request || (name in leftover && after[name] == leftover[name]);
    }
    hide WithEarlier, WaitsBehind;
  }

  /** What holds a Machine, and what waits on it, whatever order the
      observations come in. */
  method Judge(copies: map<string, Copy>, nodes: map<string, Node>, current: map<string, Observation>, asking: set<string>)
    returns (held: set<string>, leftover: map<string, string>)
    requires OneNodeEach(MachinesOf(copies))
    ensures held == HeldNames(MachinesOf(copies), nodes, asking, current)
    ensures NamesTheFirst(MachinesOf(copies), nodes, asking, current, leftover)
  {
    hide Behind, Compare, Judged, WithEarlier;
    ghost var machines := MachinesOf(copies);
    var nodeOf := NodeOf(copies);
    held, leftover := {}, map[];
    var left := current.Keys;
    assert Judged(machines, nodes, asking, current, {}, held, leftover) by { NothingJudged(machines, nodes, asking, current); }
    ghost var keys := {};
    while left != {}
      invariant keys + left == current.Keys && Judged(machines, nodes, asking, current, keys, held, leftover)
      decreases left
    {
      var k :| k in left;
      left := left - {k};
      var obs := current[k];
      ghost var before := keys;
      keys := keys + {k};
      if !Acting(obs) {
        UnlessBehind(machines, nodes, asking, current, before, held, leftover, k);
        continue;
      }
      var behind := IsBehind(copies, nodes, nodeOf, obs, asking);
      if behind {
        WhenBehind(machines, nodes, asking, current, before, held, leftover, k);
        leftover := WithEarlier(leftover, obs.machine, obs.request);
        continue;
      }
      UnlessBehind(machines, nodes, asking, current, before, held, leftover, k);
      held := held + {obs.machine};
    }
    AllJudged(machines, nodes, asking, current, held, leftover);
  }

  lemma NothingJudged(machines: map<string, Machine>, nodes: map<string, Node>, asking: set<string>, current: map<string, Observation>)
    ensures Judged(machines, nodes, asking, current, {}, {}, map[])
  {
  }

  lemma AllJudged(machines: map<string, Machine>, nodes: map<string, Node>, asking: set<string>,
                  current: map<string, Observation>, held: set<string>, leftover: map<string, string>)
    requires Judged(machines, nodes, asking, current, current.Keys, held, leftover)
    ensures held == HeldNames(machines, nodes, asking, current)
    ensures NamesTheFirst(machines, nodes, asking, current, leftover)
  {
    hide Behind, NotAfter;
  }

  /** The names in order, whatever order they come in. */
  method SortedNames(names: set<string>) returns (sorted: seq<string>)
    ensures sorted == InOrder(names)
  {
    sorted := [];
    var left := names;
    while left != {}
      invariant left <= names && NoRepeats(sorted) && forall n :: n in sorted <==> n in names && n !in left
      decreases left
    {
      var n :| n in left;
      left := left - {n};
      sorted := sorted + [n];
    }
    SortMembers(sorted, NotAfter);
    NamesAreOrdered();
    SortOrders(sorted, NotAfter);
    InOrderIsSorted(names);
    sorted := Sort(sorted, NotAfter);
    SortedUnique(sorted, InOrder(names), NotAfter);
  }

  function WaitsAmong(waits: Waiting, names: set<string>): Waiting { map n | n in waits && n in names :: waits[n] }

  /** The waits of these Machines only. */
  method Among(waits: Waiting, names: set<string>) returns (kept: Waiting)
    ensures kept == WaitsAmong(waits, names)
  {
    kept := waits;
    var left := waits.Keys;
    while left != {}
      invariant left <= kept.Keys
      invariant forall n :: n in kept <==> n in waits && (n in left || n in names)
      invariant forall n :: n in kept ==> kept[n] == waits[n]
      decreases left
    {
      var n :| n in left;
      left := left - {n};
      if n !in names {
        kept := kept - {n};
      }
    }
  }

  lemma PendingIsStillPending(waits: Waiting, pending: set<string>, machines: map<string, Machine>)
    requires forall name :: name in pending <==> StillPending(machines, name)
    ensures Forgotten(waits, machines) == WaitsAmong(waits, pending)
  {
    hide StillPending;
  }

  /** One try at a release, as far as it goes by itself. */
  lemma TriesAfterRead(cfg: Config, st: State, node: string, answered: RestartMark, attempts: nat)
    requires node in st.machines && attempts > 0
    ensures
      var (w, r) := ReadCached(st.w, st.machines[node].name);
      ReleaseAnswered(cfg, st, node, answered, true, attempts)
      == if r.Err? then st.(w := w)
         else
           var st1 := st.(w := w, machines := st.machines[node := r.value]);
           if RestartMarkOf(r.value) != answered then st1 else ReleaseAnswered(cfg, st1, node, answered, false, attempts)
  {
    hide ReadCached, RestartMarkOf;
  }

  lemma NoTriesLeft(cfg: Config, st: State, node: string, answered: RestartMark, conflicted: bool)
    requires node in st.machines
    ensures ReleaseAnswered(cfg, st, node, answered, conflicted, 0) == st
  {
  }

  lemma TriesRelease(cfg: Config, st: State, node: string, answered: RestartMark, attempts: nat)
    requires node in st.machines && attempts > 0
    ensures
      var (w, r) := ClusterWorld.Release(st.w, cfg.dryRun, st.machines[node]);
      ReleaseAnswered(cfg, st, node, answered, false, attempts)
      == if r.Ok? then st.(w := w, machines := st.machines[node := r.value])
         else if r.error.Conflict? then ReleaseAnswered(cfg, st.(w := w), node, answered, true, attempts - 1)
         else st.(w := w)
  {
    hide ClusterWorld.Release;
  }

  // ------------------------------------------------------------ the reconciler

  class ClusterReconciler {
    const cfg: Config
    const server: Server
    const actuator: Actuator
    // By Cluster, the last observation of each signal key.
    var seen: map<string, map<string, Observation>>
    // By Cluster, the mode of its last pass.
    var modes: map<string, Mode>
    // By Cluster, the waits of its Machines for their checks.
    var waiting: map<string, Waiting>

    constructor (cfg: Config, server: Server)
      ensures Valid() && this.cfg == cfg && this.server == server
      ensures forall key :: SeenOf(key) == map[] && WaitsOf(key) == map[]
    {
      this.cfg, this.server := cfg, server;
      this.actuator := new Actuator(server, cfg.dryRun);
      this.seen, this.modes, this.waiting := map[], map[], map[];
    }

    ghost predicate Valid() { actuator.server == server && actuator.dryRun == cfg.dryRun }

    function SeenOf(key: string): map<string, Observation>
      reads this`seen
    {
      if key in seen then seen[key] else map[]
    }

    function WaitsOf(key: string): Waiting
      reads this`waiting
    {
      if key in waiting then waiting[key] else map[]
    }

    ghost function Now(key: string, copies: map<string, Copy>): State
      reads this`waiting, server, copies.Values
    {
      State(server.w, MachinesOf(copies), WaitsOf(key))
    }

    twostate predicate OtherWaitsStay(key: string)
      reads this`waiting
    {
      forall k :: k != key ==> WaitsOf(k) == old(WaitsOf(k))
    }

    // ------------------------------------------------------------- the waits

    method HeldForChecks(key: string, machine: Copy, now: int) returns (held: bool, shown: int)
      modifies this`waiting
      ensures (Hold(held, shown), WaitsOf(key)) == Waits.HeldForChecks(old(WaitsOf(key)), machine.m, now)
      ensures OtherWaitsStay(key)
    {
      var name := machine.m.name;
      if !EarlierMarkPending(machine.m) {
        if key in waiting {
          waiting := waiting[key := waiting[key] - {name}];
        }
        return false, 0;
      }
      if name !in WaitsOf(key) {
        if key !in waiting {
          waiting := waiting[key := map[]];
        }
        waiting := waiting[key := waiting[key][name := Wait(now, false)]];
        return true, 0;
      }
      var wait := waiting[key][name];
      if now - wait.since < EARLIER_MARK_GRACE {
        return true, 0;
      } else if wait.over {
        return false, 0;
      } else {
        waiting := waiting[key := waiting[key][name := wait.(over := true)]];
        return false, now - wait.since;
      }
    }

    method NextLook(key: string, now: int) returns (next: int)
      ensures IsNextLook(WaitsOf(key), PollInterval(cfg), now, next)
    {
      next := PollInterval(cfg);
      var waits := WaitsOf(key);
      var left := waits.Keys;
      while left != {}
        invariant left <= waits.Keys && 0 < next <= PollInterval(cfg)
        invariant forall n :: n in waits && n !in left && Unfinished(waits[n], now) ==> next <= Left(waits[n], now)
        invariant next < PollInterval(cfg) ==>
                    exists n :: n in waits && Unfinished(waits[n], now) && next == Left(waits[n], now)
        decreases left
      {
        var n :| n in left;
        left := left - {n};
        var rest := EARLIER_MARK_GRACE - (now - waits[n].since);
        if !waits[n].over && rest > 0 && rest < next {
          next := rest;
        }
      }
    }

    method ForgetWaits(key: string, copies: map<string, Copy>)
      modifies this`waiting
      ensures WaitsOf(key) == Forgotten(old(WaitsOf(key)), MachinesOf(copies))
      ensures OtherWaitsStay(key)
    {
      hide StillPending, MachinesOf;
      var pending := PendingNames(copies);
      var waits := Among(WaitsOf(key), pending);
      PendingIsStillPending(WaitsOf(key), pending, MachinesOf(copies));
      hide Forgotten, WaitsAmong;
      KeepWaits(key, waits);
    }

    method KeepWaits(key: string, waits: Waiting)
      modifies this`waiting
      ensures WaitsOf(key) == waits && OtherWaitsStay(key)
    {
      if |waits| == 0 {
        assert waits == map[];
        waiting := waiting - {key};
      } else {
        waiting := waiting[key := waits];
      }
    }

    /** Drops everything remembered about a Cluster. */
    method Forget(key: string)
      modifies this
      ensures SeenOf(key) == map[] && WaitsOf(key) == map[] && key !in modes
      ensures OtherWaitsStay(key) && forall k :: k != key ==> SeenOf(k) == old(SeenOf(k)) && Find(modes, k) == old(Find(modes, k))
    {
      seen, modes, waiting := seen - {key}, modes - {key}, waiting - {key};
    }

    method Remember(key: string, current: map<string, Observation>)
      modifies this`seen
      ensures SeenOf(key) == current && forall k :: k != key ==> SeenOf(k) == old(SeenOf(k))
    {
      if |current| == 0 {
        seen := seen - {key};
        return;
      }
      seen := seen[key := current];
    }

    /** Observations do not outlive the mode they were made in. */
    method NoteMode(key: string, mode: Mode)
      modifies this`modes, this`seen
      ensures modes == old(modes)[key := mode]
      ensures SeenOf(key) == if old(key in modes && modes[key] != mode) then map[] else old(SeenOf(key))
      ensures forall k :: k != key ==> SeenOf(k) == old(SeenOf(k))
    {
      var changed := key in modes && modes[key] != mode;
      modes := modes[key := mode];
      if changed {
        seen := seen - {key};
      }
    }

    // ------------------------------------------------- one signal, decided

    /** Marks the Machine unless a guard, the checks or their wait stand in the
        way. */
    method Guarded(key: string, view: View, sig: Signal, d: Decision, ask: Ask, ghost copies: map<string, Copy>, machine: Copy,
                   concluded: Observation)
      returns (obs: Observation)
      requires Valid() && Apart(copies) && sig.node in copies && copies[sig.node] == machine && concluded.Observed?
      modifies server, this`waiting, machine
      ensures (Now(key, copies), obs) == Passes.Guarded(cfg, view, old(Now(key, copies)), sig, d, ask, old(machine.m), concluded)
      ensures OtherWaitsStay(key)
    {
      hide MarkNow, Unavailable, Waits.HeldForChecks;
      obs := concluded;
      var skip := Guard(machine.m);
      if skip.Some? {
        obs := obs.(skip := skip);
        if skip.value.InProgress() || skip.value.SkipPaused? {
          obs := obs.(answer := NoAnswer);
        } else {
          obs := obs.(answer := Decline(sig, Skipped(skip.value)));
        }
        return;
      }
      var unavailable := Unavailable(sig, ask);
      if unavailable.Some? {
        return obs.(answer := unavailable.value);
      }
      if ask.asks.Restart? {
        var held, _ := HeldForChecks(key, machine, view.now);
        if held {
          return obs.(skip := Some(SkipEarlierMark));
        }
      }
      obs := Mark(key, view, sig, d, ask.asks, copies, machine, concluded);
    }

    method Mark(ghost key: string, view: View, sig: Signal, d: Decision, asks: Decision, ghost copies: map<string, Copy>,
                machine: Copy, concluded: Observation)
      returns (obs: Observation)
      requires Valid() && Apart(copies) && sig.node in copies && copies[sig.node] == machine && Guard(machine.m).None?
      modifies server, machine
      ensures (Now(key, copies), obs) == MarkNow(cfg, view, old(Now(key, copies)), sig, d, asks, old(machine.m), concluded)
    {
      hide ClusterWorld.MarkForRemediation, Guard, BootOf;
      obs := concluded;
      ghost var st := Now(key, copies);
      if cfg.dryRun {
        DryRunMarksNothing(cfg, view, st, sig, d, asks, machine.m, concluded);
        return;
      }
      var record := RestartRecord("", "");
      if asks.Restart? {
        record := RestartRecord(BootOf(Find(view.nodes, sig.node)), sig.request);
      }
      var made := MarkMade(server.w.pass, sig.node, machine.m, d, ActionOf(asks), record, true, map[]);
      var marked := actuator.MarkForRemediation(machine, sig.check, made);
      assert MachinesOf(copies) == st.machines[sig.node := machine.m];
      assert marked.Err? ==> MachinesOf(copies) == st.machines;
      if marked.Err? {
        obs := EmptyObservation(false);
      }
    }

    /** Acts on a decision to restart or to replace: answers, escalates, marks,
        or leaves it at an observation. */
    method Remediate(key: string, view: View, sig: Signal, d: Decision, ghost copies: map<string, Copy>, machine: Copy,
                     concluded: Observation)
      returns (obs: Observation)
      requires Valid() && Apart(copies) && sig.node in copies && copies[sig.node] == machine && concluded.Observed? && !d.Report?
      modifies server, this`waiting, machine
      ensures (Now(key, copies), obs) == Passes.Remediate(cfg, view, old(Now(key, copies)), sig, d, old(machine.m), concluded)
      ensures OtherWaitsStay(key)
    {
      hide Passes.Guarded, ClusterWorld.Escalate, Covered, TemplatesOnly, RestartFallback, RestartCompleted, CoverageFor;
      var node := Find(view.nodes, sig.node);
      var restart := d.Restart?;
      if restart && sig.request != "" && RestartCompleted(machine.m, node) && RestartAnswers(machine.m, sig.request) {
        return concluded.(answer := Give(true, Restarted));
      }

      var cov := CoverageOf(view.checks, machine.m);
      var restartUnavailable := restart && !TemplatesOnly(cov);
      var fallback := RestartFallback(cfg.fallback, view.override);
      if restartUnavailable && fallback.ReplaceInstead? && Covered(cov) {
        restart := false;
      }
      var ask := Ask(if d.Restart? && !restart then Replace else d, restartUnavailable, fallback, cov);
      assert ask == AskFor(cfg, view, d, machine.m);

      var held := IsPaused(machine.m) || IsOptedOut(machine.m);
      if !restart && (d.Replace? || !held) {
        label before:
        var escalated := actuator.Escalate(machine, sig.check);
        assert MachinesOf(copies) == old@before(MachinesOf(copies))[sig.node := machine.m];
        if escalated.Err? {
          assert MachinesOf(copies) == old(MachinesOf(copies));
          return EmptyObservation(true);
        }
      }
      obs := Guarded(key, view, sig, d, ask, copies, machine, concluded);
    }

    /** Decides one signal and acts on it. */
    method Handle(key: string, view: View, sig: Signal, ghost copies: map<string, Copy>, machine: Copy?)
      returns (obs: Observation)
      requires Valid() && Apart(copies) && machine == CopyAt(copies, sig.node)
      modifies server, this`waiting, if machine == null then {} else {machine}
      ensures (Now(key, copies), obs) == Passes.Handle(cfg, view, old(Now(key, copies)), sig)
      ensures view.mode.ReportOnly? ==> Now(key, copies) == old(Now(key, copies)) && obs.Observed? && obs.decision == Report
      ensures OtherWaitsStay(key)
    {
      if view.mode.ReportOnly? { ReportOnlyStep(cfg, view, Now(key, copies), sig); }
      var outcome := Decide(cfg.table, sig);
      var d := if view.mode.ReportOnly? then Report else outcome.decision;
      obs := Observed(d, outcome.action, if machine == null then "" else machine.m.name,
                      sig.request, None, NoAnswer);
      if sig.node !in view.nodes && sig.request != "" {
        return;
      }
      if machine == null {
        obs := obs.(answer := Decline(sig, NoMachine));
      } else if d.Report? {
        obs := obs.(answer := Decline(sig, NotRemediated));
      } else {
        obs := Remediate(key, view, sig, d, copies, machine, obs);
      }
    }

    // -------------------------------------------------------------- answering

    /** One try at releasing the Machine, on the cached version when the last
        one lost to another write. */
    method TryRelease(ghost key: string, ghost node: string, ghost copies: map<string, Copy>, machine: Copy,
                      answered: RestartMark, conflicted: bool, ghost attempts: nat) returns (again: bool)
      requires Valid() && Apart(copies) && node in copies && copies[node] == machine && attempts > 0
      modifies server, machine
      ensures
        Passes.ReleaseAnswered(cfg, old(Now(key, copies)), node, answered, conflicted, attempts)
        == if again then Passes.ReleaseAnswered(cfg, Now(key, copies), node, answered, true, attempts - 1) else Now(key, copies)
    {
      hide ClusterWorld.Release, ReadCached, RestartMarkOf, Passes.ReleaseAnswered;
      ghost var before := Now(key, copies);
      if conflicted {
        TriesAfterRead(cfg, before, node, answered, attempts);
        var current := server.Get(machine.m.name);
        if current.Err? {
          return false;
        }
        machine.m := current.value;
        assert MachinesOf(copies) == before.machines[node := machine.m];
        if RestartMarkOf(machine.m) != answered {
          return false;
        }
      }
      again := ReleaseOnce(key, node, copies, machine, answered, attempts);
    }

    method ReleaseOnce(ghost key: string, ghost node: string, ghost copies: map<string, Copy>, machine: Copy,
                       ghost answered: RestartMark, ghost attempts: nat) returns (again: bool)
      requires Valid() && Apart(copies) && node in copies && copies[node] == machine && attempts > 0
      modifies server, machine
      ensures
        Passes.ReleaseAnswered(cfg, old(Now(key, copies)), node, answered, false, attempts)
        == if again then Passes.ReleaseAnswered(cfg, Now(key, copies), node, answered, true, attempts - 1) else Now(key, copies)
    {
      hide ClusterWorld.Release, Passes.ReleaseAnswered;
      ghost var st := Now(key, copies);
      TriesRelease(cfg, st, node, answered, attempts);
      var released := actuator.Release(machine);
      assert MachinesOf(copies) == st.machines[node := machine.m];
      again := released.Err? && released.error.Conflict?;
      ghost var (w, r) := ClusterWorld.Release(st.w, cfg.dryRun, st.machines[node]);
      assert r.Err? ==> Now(key, copies) == st.(w := w);
      assert r.Ok? ==> Now(key, copies) == st.(w := w, machines := st.machines[node := r.value]);
    }

    /** Release after an answer of True, with a few more tries when other writes
        get in between and the answered mark is still there. */
    method ReleaseAnswered(ghost key: string, ghost node: string, ghost copies: map<string, Copy>, machine: Copy)
      requires Valid() && Apart(copies) && node in copies && copies[node] == machine
      modifies server, machine
      ensures Now(key, copies)
           == Passes.ReleaseAnswered(cfg, old(Now(key, copies)), node, RestartMarkOf(old(machine.m)), false, RELEASE_ATTEMPTS)
    {
      hide Passes.ReleaseAnswered, RestartMarkOf;
      var answered := RestartMarkOf(machine.m);
      var conflicted := false;
      var attempts := 0;
      ghost var end := Passes.ReleaseAnswered(cfg, Now(key, copies), node, answered, false, RELEASE_ATTEMPTS);
      while attempts < RELEASE_ATTEMPTS
        invariant 0 <= attempts <= RELEASE_ATTEMPTS
        invariant end == Passes.ReleaseAnswered(cfg, Now(key, copies), node, answered, conflicted, RELEASE_ATTEMPTS - attempts)
      {
        conflicted := TryRelease(key, node, copies, machine, answered, conflicted, RELEASE_ATTEMPTS - attempts);
        if !conflicted {
          return;
        }
        attempts := attempts + 1;
      }
      NoTriesLeft(cfg, Now(key, copies), node, answered, conflicted);
    }

    /** Reports an answer back to the request, and releases the Machine once a
        completed restart was reported. */
    method Answer(ghost key: string, view: View, sig: Signal, a: Passes.Answer, ghost copies: map<string, Copy>, machine: Copy?)
      requires Valid() && Apart(copies) && machine == CopyAt(copies, sig.node) && a.Give?
      modifies server, if machine == null then {} else {machine}
      ensures Now(key, copies) == TellRequest(cfg, view, old(Now(key, copies)), sig, a)
    {
      if cfg.dryRun {
        return;
      }
      var about := if machine == null then None else Some(machine.m);
      assert about == Find(MachinesOf(copies), sig.node);
      var answered := server.Answer(sig.request, a.complete, a.reason, about, Find(view.nodes, sig.node));
      if answered.Err? || !answered.value {
        return;
      }
      if a.complete && machine != null {
        ReleaseAnswered(key, sig.node, copies, machine);
      }
    }

    // ------------------------------------------------------------ a whole pass

    /** Releases the Machines whose restart nothing asks for any more, in the
        order of their nodes; says which request, if any, waits on each. */
    method ReleaseRestarts(ghost key: string, nodes: map<string, Node>, copies: map<string, Copy>,
                           current: map<string, Observation>, asking: set<string>) returns (leftover: map<string, string>)
      requires Valid() && Apart(copies) && OneNodeEach(MachinesOf(copies))
      modifies server, copies.Values
      ensures
        var st := old(Now(key, copies));
        && Now(key, copies) == ReleaseEach(cfg, st, InOrder(copies.Keys), HeldNames(st.machines, nodes, asking, current))
        && NamesTheFirst(st.machines, nodes, asking, current, leftover)
    {
      hide HeldNames, NamesTheFirst, ReleaseOne, InOrder;
      var held: set<string>;
      held, leftover := Judge(copies, nodes, current, asking);
      ghost var st := Now(key, copies);
      var names := SortedNames(copies.Keys);
      for i := 0 to |names|
        invariant Now(key, copies) == ReleaseEach(cfg, st, names[..i], held)
      {
        assert names[..i + 1][..i] == names[..i];
        ReleaseIfUnheld(key, copies, names[i], held);
      }
      assert names[..|names|] == names;
    }

    method ReleaseIfUnheld(ghost key: string, copies: map<string, Copy>, node: string, held: set<string>)
      requires Valid() && Apart(copies) && node in copies
      modifies server, copies[node]
      ensures Now(key, copies) == ReleaseOne(cfg, old(Now(key, copies)), node, held)
    {
      hide ClusterWorld.Release;
      var machine := copies[node];
      if !Releasable(machine.m, machine.m.name in held) {
        return;
      }
      ghost var st := Now(key, copies);
      var released := actuator.Release(machine);
      assert MachinesOf(copies) == st.machines[node := machine.m];
      assert released.Err? ==> MachinesOf(copies) == st.machines;
    }

    /** Handles the signals in turn, each request only once it was found
        pending. */
    method TakeSignals(key: string, view: View, previous: map<string, Observation>, copies: map<string, Copy>)
      returns (current: map<string, Observation>, asking: set<string>, unreadable: bool)
      requires Valid() && Apart(copies)
      modifies server, this`waiting, copies.Values
      ensures Progress(Now(key, copies), current, asking, unreadable)
           == Passes.TakeSignals(cfg, view, previous, Progress(old(Now(key, copies)), map[], {}, false), view.signals)
      ensures OtherWaitsStay(key)
    {
      hide Passes.TakeSignal;
      current, asking, unreadable := map[], {}, false;
      ghost var start := Progress(Now(key, copies), map[], {}, false);
      for i := 0 to |view.signals|
        invariant Progress(Now(key, copies), current, asking, unreadable)
               == Passes.TakeSignals(cfg, view, previous, start, view.signals[..i])
        invariant OtherWaitsStay(key)
      {
        assert view.signals[..i + 1][..i] == view.signals[..i];
        current, asking, unreadable := TakeSignal(key, view, previous, copies, current, asking, unreadable, view.signals[i]);
      }
      assert view.signals[..|view.signals|] == view.signals;
    }

    method TakeSignal(key: string, view: View, previous: map<string, Observation>, copies: map<string, Copy>,
                      current0: map<string, Observation>, asking0: set<string>, unreadable0: bool, sig: Signal)
      returns (current: map<string, Observation>, asking: set<string>, unreadable: bool)
      requires Valid() && Apart(copies)
      modifies server, this`waiting, copies.Values
      ensures Progress(Now(key, copies), current, asking, unreadable)
           == Passes.TakeSignal(cfg, view, previous, Progress(old(Now(key, copies)), current0, asking0, unreadable0), sig)
      ensures OtherWaitsStay(key)
    {
      hide ClusterWorld.IsPending, TellRequest, Passes.Handle;
      current, asking, unreadable := current0, asking0, unreadable0;
      if sig.request != "" {
        var pending := server.IsPending(sig.request);
        if pending.Err? {
          unreadable := true;
          if sig.Key() in previous {
            current := current[sig.Key() := previous[sig.Key()]];
          }
          return;
        }
        if !pending.value {
          return;
        }
        asking := asking + {sig.request};
      }
      var machine := CopyAt(copies, sig.node);
      var obs := Handle(key, view, sig, copies, machine);
      if obs.Observed? && obs.answer.Give? {
        Answer(key, view, sig, obs.answer, copies, machine);
      }
      current := current[sig.Key() := obs];
    }

    /** Reads a Cluster and acts on it, and says when to look again. */
    method Reconcile(key: string, r: Reading) returns (requeue: Requeue)
      requires Valid() && (r.listed.Some? ==> EachOnce(r.listed.value))
      modifies this, server
      ensures Valid()
      ensures OtherWaitsStay(key) && forall k :: k != key ==> SeenOf(k) == old(SeenOf(k)) && Find(modes, k) == old(Find(modes, k))
      // Nothing is written on a partial read.
      ensures !Complete(r) ==> server.w == old(server.w)
      ensures r.cluster.Unreadable? || (r.cluster.Active? && r.client.NoClient?) ==> server.w == old(server.w) && requeue == Backoff
      ensures r.cluster.Active? && r.client.Connected? ==>
                if r.mode.None? || r.signals.None? then server.w == old(server.w) && requeue == After(PollInterval(cfg))
                else if r.listed.None? then server.w == old(server.w) && requeue == Backoff
                else if r.signals.value == [] then Complete(r)
                else if r.checks.None? then server.w == old(server.w) && requeue == Backoff
                else if r.nodes.None? || (r.mode.value.ExternalRemediationRequest? && !r.live)
                then server.w == old(server.w) && requeue == After(PollInterval(cfg))
                else Complete(r)
      ensures r.cluster.Gone? || r.cluster.Deleting? || r.cluster.Unselected? ==>
                requeue == Never && SeenOf(key) == map[] && WaitsOf(key) == map[] && key !in modes
      ensures r.cluster.PausedCluster? || (r.cluster.Active? && r.client.NotConnected?) ==>
                && requeue == After(PollInterval(cfg)) && WaitsOf(key) == map[]
                && SeenOf(key) == old(SeenOf(key)) && modes == old(modes)
      ensures !Complete(r) && r.cluster.Active? && r.client.Connected? ==> WaitsOf(key) == old(WaitsOf(key))
      ensures Complete(r) ==>
                var previous := if old(key in modes && modes[key] != r.mode.value) then map[] else old(SeenOf(key));
                var out := Pass(cfg, ViewOf(r), previous, old(server.w), old(WaitsOf(key)));
                && server.w == out.st.w && SeenOf(key) == out.seen && WaitsOf(key) == out.st.waiting
                && requeue.After? && IsNextLook(WaitsOf(key), PollInterval(cfg), r.now, requeue.delay)
    {
      hide Pass, ByNode, ViewOf, EachOnce;
      match r.cluster {
        case Unreadable => return Backoff;
        case Gone =>
          Forget(key);
          return Never;
        case Deleting =>
          Forget(key);
          return Never;
        case Unselected =>
          Forget(key);
          return Never;
        case PausedCluster =>
          // The checks may stand still as well, so no wait goes on.
          ForgetWaits(key, map[]);
          return After(PollInterval(cfg));
        case Active =>
      }
      if r.client.NotConnected? {
        ForgetWaits(key, map[]);
        return After(PollInterval(cfg));
      } else if r.client.NoClient? {
        return Backoff;
      }
      if r.mode.None? {
        return After(PollInterval(cfg));
      }
      NoteMode(key, r.mode.value);
      if r.signals.None? {
        return After(PollInterval(cfg));
      }
      if r.listed.None? {
        return Backoff;
      }
      var copies := MachinesByNode(r.listed.value);
      var checks: seq<Check>, nodes: map<string, Node> := [], map[];
      if |r.signals.value| > 0 {
        if r.checks.None? {
          return Backoff;
        }
        checks := r.checks.value;
        if r.nodes.None? {
          return After(PollInterval(cfg));
        }
        nodes := r.nodes.value;
        if r.mode.value.ExternalRemediationRequest? && !r.live {
          return After(PollInterval(cfg));
        }
      }
      ListedOnceOneNode(r.listed.value);
      assert Complete(r);
      RunPass(key, r, copies);
      var delay := NextLook(key, r.now);
      requeue := After(delay);
    }

    /** Nothing is released when a request could not be read: it may still hold
        its Machine. */
    method ReleaseIfRead(ghost key: string, view: View, copies: map<string, Copy>, current: map<string, Observation>,
                         asking: set<string>, unreadable: bool)
      requires Valid() && Apart(copies) && OneNodeEach(MachinesOf(copies))
      modifies server, copies.Values
      ensures
        var p := Progress(old(Now(key, copies)), current, asking, unreadable);
        Now(key, copies) == if unreadable then p.st else Passes.ReleaseRestarts(cfg, view, p)
    {
      hide ReleaseEach, HeldNames, InOrder, NamesTheFirst;
      if !unreadable {
        assert copies.Keys == MachinesOf(copies).Keys;
        var _ := ReleaseRestarts(key, view.nodes, copies, current, asking);
      }
    }

    /** The pass itself, once everything it needs was read. */
    method RunPass(key: string, r: Reading, copies: map<string, Copy>)
      requires Valid() && Complete(r) && Apart(copies)
      requires MachinesOf(copies) == ByNode(r.listed.value) && OneNodeEach(ByNode(r.listed.value))
      modifies this`seen, this`waiting, server, copies.Values
      ensures
        var out := Pass(cfg, ViewOf(r), old(SeenOf(key)), old(server.w), old(WaitsOf(key)));
        server.w == out.st.w && SeenOf(key) == out.seen && WaitsOf(key) == out.st.waiting
      ensures OtherWaitsStay(key) && forall k :: k != key ==> SeenOf(k) == old(SeenOf(k))
    {
      hide Passes.TakeSignals, Passes.ReleaseRestarts, Forgotten, ByNode;
      var view := ViewOf(r);
      var previous := SeenOf(key);
      ghost var p0 := Start(server.w, view, WaitsOf(key));
      assert Now(key, copies) == p0.st;
      var current, asking, unreadable := TakeSignals(key, view, previous, copies);
      SignalsKeepMachines(cfg, view, previous, p0, view.signals);
      ReleaseIfRead(key, view, copies, current, asking, unreadable);
      Remember(key, current);
      ForgetWaits(key, copies);
    }
  }
}
