// Where the hypotheses of the other theorems cannot be dropped: for each, what
// goes wrong without it.

module Limits {
  import opened Text
  import opened Signals
  import opened Decisions
  import opened Machines
  import opened Requests
  import opened Store
  import opened ClusterWorld
  import opened ClusterSound
  import opened Waits
  import opened Passes
  import opened PassSafety
  import opened QuietPass
  import opened ReleaseSafety

  lemma UnheldIsReleased(cfg: Config, view: View, p: Progress, node: string)
    requires !cfg.dryRun && InSync(p.st) && node in p.st.machines && IsReleased(p.st.machines[node], {})
    requires HeldNames(p.st.machines, view.nodes, p.asking, p.current) == {}
    ensures
      var s := ReleaseRestarts(cfg, view, p).w.store;
      var name := p.st.machines[node].name;
      name in s.machines && !IsMarked(s.machines[name])
  {
    var nodes := InOrder(p.st.machines.Keys);
    assert node in nodes;
    ReleasesExactly(cfg, p.st, nodes, {});
    var st := ReleaseEach(cfg, p.st, nodes, {});
    assert ReleasedIn(p.st, st, nodes, {}, node);
    SameRest(st.machines[node], p.st.machines[node]);
  }

  /** A failed escalation holds nothing, so the pass releases a Machine that
      one of its signals calls to replace. */
  lemma FailedEscalationReleases(cfg: Config, view: View, previous: map<string, Observation>, w: World, waiting: Waiting,
                                 s: Signal, m: Machine)
    requires !cfg.dryRun && view.signals == [s] && view.machines == map[s.node := m]
    requires s.request == "" && DecisionIn(cfg, view.mode, s) == Replace
    requires w.alive && w.env == [Turn([], Fail, None)] && Synced(w, m)
    requires MarkedFor(m, ACTION_RESTART) && !m.deleting
    ensures
      var out := Pass(cfg, view, previous, w, waiting);
      m.name in out.st.w.store.machines && !IsMarked(out.st.w.store.machines[m.name])
  {
    hide Decided, CoverageFor;
    var p0 := Start(w, view, waiting);
    assert view.signals[..0] == [] && TakeSignals(cfg, view, previous, p0, []) == p0;
    var p := TakeSignals(cfg, view, previous, p0, view.signals);
    assert p == TakeSignal(cfg, view, previous, p0, s);
    assert w.env[1..] == [] && Arrive(w) == Arrival(w.(env := []), Fail, None);
    assert AskFor(cfg, view, Replace, m).asks == Replace;
    assert Escalate(w, false, m, s.check) == (w.(env := []), Err(Unreachable));
    assert Handle(cfg, view, p0.st, s) == (p0.st.(w := w.(env := [])), EmptyObservation(true));
    assert p.current == map[s.Key() := EmptyObservation(true)];
    assert HeldNames(p.st.machines, view.nodes, p.asking, p.current) == {};
    UnheldIsReleased(cfg, view, p, s.node);
  }

  /** A mark that meets the operator's own replacement mark was made from a view
      older than that, and turns it into a restart mark exactly when it asks for a
      restart. */
  lemma StaleMarkTurnsReplacement(w: World, seen: Machine, reason: string, made: MarkMade)
    requires SoundWorld(w) && Quiet(w) && seen in w.store.past && Guard(seen).None?
    requires seen.name in w.store.machines && MarkedFor(w.store.machines[seen.name], ACTION_REMEDIATE)
    requires made.action == ACTION_RESTART || made.action == ACTION_REMEDIATE
    ensures !IsUpToDate(w, seen)
    ensures
      var after := MarkForRemediation(w, false, seen, reason, made).0.store.machines[seen.name];
      MarkedFor(after, ACTION_RESTART) <==> made.action == ACTION_RESTART
  {
    ActionsDiffer();
    MarkOverReplacement(w, seen, reason, made);
    hide SoundWorld;
  }

  /** A restart asked for by a node condition finds its Machine marked. */
  lemma FindsItMarked(cfg: Config, view: View, st: State, s: Signal)
    requires s.request == "" && s.node in st.machines && DecisionIn(cfg, view.mode, s) == Restart
    requires MarkedFor(st.machines[s.node], ACTION_RESTART) && TemplatesOnly(CoverageFor(view.checks, st.machines[s.node]))
    ensures Handle(cfg, view, st, s).0 == st
    ensures
      var o := Handle(cfg, view, st, s).1;
      o.Observed? && o.answer.NoAnswer?
  {
    hide Decided, CoverageFor, TemplatesOnly;
  }

  lemma ReportsOnly(cfg: Config, view: View, st: State, s: Signal)
    requires s.request == "" && s.node in st.machines && DecisionIn(cfg, view.mode, s) == Report
    ensures Handle(cfg, view, st, s).0 == st
    ensures
      var o := Handle(cfg, view, st, s).1;
      o.Observed? && o.answer.NoAnswer? && o.decision.Report?
  {
    hide Decided;
  }

  /** With two signals of one key, the later conclusion takes the place of the
      earlier one, and the Machine the earlier one needs is released. */
  lemma SharedKeyReleases(cfg: Config, view: View, previous: map<string, Observation>, w: World, waiting: Waiting,
                          a: Signal, b: Signal, m: Machine)
    requires !cfg.dryRun && view.signals == [a, b] && view.machines == map[a.node := m] && Quiet(w) && Synced(w, m)
    requires a.node == b.node && a.check == b.check && a.request == b.request == ""
    requires DecisionIn(cfg, view.mode, a) == Restart && DecisionIn(cfg, view.mode, b) == Report
    requires MarkedFor(m, ACTION_RESTART) && !m.deleting && TemplatesOnly(CoverageFor(view.checks, m))
    ensures
      var out := Pass(cfg, view, previous, w, waiting);
      m.name in out.st.w.store.machines && !IsMarked(out.st.w.store.machines[m.name])
  {
    hide Handle, ReleaseRestarts, CoverageFor, TemplatesOnly, DecisionIn;
    var p0 := Start(w, view, waiting);
    FindsItMarked(cfg, view, p0.st, a);
    ReportsOnly(cfg, view, p0.st, b);
    assert view.signals[..1] == [a] && [a][..0] == [];
    assert TakeSignals(cfg, view, previous, p0, []) == p0;
    assert TakeSignals(cfg, view, previous, p0, [a]) == TakeSignal(cfg, view, previous, p0, a);
    var p1 := TakeSignal(cfg, view, previous, p0, a);
    var p := TakeSignals(cfg, view, previous, p0, view.signals);
    assert p == TakeSignal(cfg, view, previous, p1, b);
    assert p.st == p0.st && p.current.Keys == {b.Key()};
    assert HeldNames(p.st.machines, view.nodes, p.asking, p.current) == {};
    UnheldIsReleased(cfg, view, p, a.node);
  }
}
