# A verified model of nvsentinel-capi-remediator

The operator reads faults that NVSentinel raises on the nodes of workload
clusters and hands the Cluster API Machines behind them over for a restart or a
replacement. Three parts of it are modelled here, each with what it is for.

**The mark, restart, answer and release protocol** of
`internal/controller/cluster_controller.go` and `internal/capi`. A pass reads
signals, Machines, nodes and MachineHealthChecks, which may be stale. It then
marks Machines, turns a restart mark into a replacement mark, answers requests
and releases Machines. `ClusterWorld` has the API objects its calls touch: each
call is preceded by any number of edits of others and is served, fails, is
served with its response lost, or finds the operator crashed. `Passes` is one
pass as a function of that world. `PassSafety` has what holds in every run of
passes, `ReleaseSafety` what a pass releases, `Causes` what every write of a run
is due to and what report-only mode and a dry run leave undone, `QuietPass` and `PassOutcome` the
outcome of an undisturbed pass in closed form, `RestartProgress` and
`RestartRuns` that a waiting request gets its restart, `Waits` the bounded wait
for the checks, `Declines` exactly when a request is answered and how, and `Limits` what goes
wrong without the hypotheses. `StaleRuns` has two whole runs in which a pass
marks a Machine from a view older than the operator's own last write: an answer
is not credited to the restart it rests on, and a replacement mark turns into a
restart mark. `Actuators` and `Reconcilers` are the same code as
objects: the actuator that brings a pass's copy of a Machine up to date in
place, and the reconciler with the maps it keeps from pass to pass. Their
methods are proved equal to the functions, for every order a map is walked in.

**The device-quarantine protocol** of
`internal/controller/quarantine_controller.go` and `internal/quarantine`.
`QuarantineWorld` and `Quarantines` are built like the above.
`QuarantineSafety` has what holds in every run, for any function in the place
of the digest that names the rules. `QuarantineRules` compares runs with crashes
and retries to one without, `QuarantineOutcome` says exactly when an undisturbed
pass deletes its Machine, why it rejects a request and what a stale read comes
to, and `QuarantineControllers` is the code as objects.

**Decoding and deciding** of `internal/signal/condition` and
`internal/decision`: `Condition` has the connector's length-limited printer and
the parser that undoes it, `Decisions` the fold that lets the most disruptive
action win, `Devices` the request value and the choice of devices.

Everything an operator step changes durably is on API objects. What others may
do to these is arbitrary, but for two things. In the cluster controller's world
they remove the five mark annotations together (`docs/operations.md` asks for
that) and set no mark of this operator's themselves; and the versions of objects
come from one growing counter.

## Hypotheses

These are the ones the theorems carry, since the code needs them.

- A mark is set by a patch without a resourceVersion
  (`internal/capi/remediate.go:80`), so it can meet a mark the pass did not see.
  What the theorems say of that is exact and carries no hypothesis. A Machine
  carries the very record of the mark set on it exactly when that mark stands
  alone: it left out nothing (a boot ID, a request) that was there before
  (`ClusterSound.RecordIsItsOwnExactlyWhen`, `PassSafety.EveryCreditIsDue`). A
  mark that records both stands alone however stale its view was, and so does
  one set with the operator's own last write in view;
  `StaleRuns.AnswerWithoutCredit` is a run where neither is so and an answer
  rests on a boot ID recorded for another request. A replacement mark that is
  met stays exactly when the mark that meets it asks for a replacement too
  (`ClusterSound.MarkOverReplacement`, `PassSafety.ReplacementMarksStay`);
  `StaleRuns.ReplacementMarkTurned` is a run where it does not.
- A failed escalation concludes an observation that holds nothing. At the end of
  a pass it excuses the very signal whose escalation failed and no other
  (`ReleaseSafety.LetGoExactlyWhen`); `Limits.FailedEscalationReleases` is a pass
  in which that releases the Machine.
- Signal keys are distinct in a pass, and so are the requests of its signals
  (`internal/signal/extrr/extrr.go:243-245`); see `Limits.SharedKeyReleases`.
- A rule that someone else changed or dropped is made again by a later pass, so
  the operator may make more than one rule for a device then; each has the same
  name and blocks the device (`QuarantineSafety.OneRulePerDevice`).
- The clock stands still during a pass.

## Model

| member | source | states |
|---|---|---|
| PassSafety.EveryAnswerIsEarned | internal/controller/cluster_controller.go:526-534 | in every run, with edits, failures and crashes between any two calls, an answer was given by a pass that is no dry run to the request of one of its signals, and was due on what that pass read; it went to a version of the request that was not being deleted, that NVSentinel had released and that had no answer, and left it answered so, with this reason and nothing else changed; an answer of True was given when the Machine that pass read for the signal's node had this operator's restart mark for that request or none, with a recorded boot ID, and the node as it read it was Ready on another |
| PassSafety.AnswersTellWhatWasSeen | internal/controller/cluster_controller.go:847-887 | every answer goes back to a signal of the pass that gave it, with the node as that pass read it and a version of the Machine it read for that node |
| PassSafety.EveryCreditIsDue | internal/capi/remediate.go:66-83 | in every run, the mark an answer of True rests on was set by an earlier pass, for a signal of it on that Machine that it decided to restart, and whose request, if any, it found pending; the Machine carries the boot ID that pass read and that request exactly when the mark stood alone, as it does when it records both or was set with the operator's own last write in view, and then a request the Machine names is the one answered |
| ClusterSound.RecordIsItsOwnExactlyWhen | internal/capi/remediate.go:66-83 | a Machine carries the record of the mark set on it exactly when that mark left out nothing that was there before |
| StaleRuns.AnswerWithoutCredit | internal/capi/remediate.go:73-83 | a run of three passes whose answer of True rests on a record no mark made: a mark without a boot ID was set from a stale view over the mark of another request |
| PassSafety.EveryMarkIsCalledFor | internal/controller/cluster_controller.go:609-683 | in every run a mark was made by a pass that is no dry run and not in report-only mode, for a signal whose request if any was waiting when found, on a Machine seen unmarked, not being deleted, no control plane, neither paused nor opted out, and selected by a check that is not paused; a restart mark takes that the table calls for a restart and no replacement and that all checks of the Machine have templates; any other mark asks for a replacement, which the table or the fallback calls for |
| PassSafety.EveryWriteIsOfTheMark | internal/capi/release.go:56-165 | in every run a write to a Machine changes nothing but the five annotations of the mark: a release removes them all, an escalation leaves a replacement mark without boot ID and request, and a mark asks for its action |
| PassSafety.MarksRecordWhatWasSeen | internal/controller/cluster_controller.go:667-683 | in every run, a mark was made by a pass of the run for one of its signals on that node and Machine, as that signal was decided, and a restart mark records the boot ID the pass read and the signal's request, another mark nothing |
| PassSafety.ReplacementMarksStay | internal/capi/release.go:56-84 | in every run a write of the operator over its own replacement mark keeps that mark exactly when it sets no restart mark, so every release and every escalation does, however stale its read; and no mark meets one with the operator's own last write in view |
| ClusterSound.MarkOverReplacement | internal/capi/remediate.go:80-83 | a mark that meets the operator's replacement mark was made from a view older than the operator's own last write, and keeps it exactly when it asks for a replacement |
| StaleRuns.ReplacementMarkTurned | internal/capi/remediate.go:80-83 | a run of two passes in which the second, from a stale view, turns the replacement mark of the first into a restart mark |
| PassSafety.PassIsSafe | internal/controller/cluster_controller.go:389-421 | a whole pass, disturbed anywhere, keeps the invariant of the protocol |
| PassSafety.FinishedMarkIsOlder | internal/controller/cluster_controller.go:670-683 | a mark that a pass finds finished was set by an earlier pass |
| ClusterSound.PatchLockedKeepsSound | internal/capi/release.go:73-78 | a write locked to the version seen keeps the invariant, whatever happened since the read |
| ClusterSound.MarkKeepsSound | internal/capi/remediate.go:80-83 | so does the unlocked write of a mark, which merges into the Machine as it is by then |
| ClusterSound.AnswerKeepsSound | internal/signal/extrr/answer.go:61-108 | so does an answer, which goes through only on the very version that was found pending |
| ClusterSound.EditsKeepWorld | docs/operations.md:132-139 | whatever others do to Machines and requests between two calls keeps the invariant |
| Store.LockedHitsWhatWasSeen | internal/capi/release.go:71-75 | a locked write that goes through hits the very Machine it was made from, however stale the read |
| ReleaseSafety.LetGoExactlyWhen | internal/controller/cluster_controller.go:741-815 | whatever a pass ran into, its end lets a Machine go exactly when the Machine is marked for a restart and each live signal of its node for a restart or a replacement either failed to escalate or is a request for a restart of its own behind one that is over and names another request, which is not asking any more |
| ReleaseSafety.ReleasedOnlyWhenLeftOver | internal/controller/cluster_controller.go:741-815 | so at the end of a pass a Machine with a live signal for a restart or a replacement, whose own escalation did not fail, is let go only where that is such a waiting request |
| Causes.EveryReleaseHasItsCause | internal/controller/cluster_controller.go:847-921 | in every run, each release a pass writes is of a Machine its end lets go, in the version judged, or of one under the very mark of an answer of True the same pass gave |
| Causes.EveryEscalationIsCalledFor | internal/controller/cluster_controller.go:548-577 | in every run, each escalation turned a restart mark in the version judged, for a live signal on that Machine: the table calls for a replacement, or for a restart that is not over, that not all checks of the Machine can carry out and that the fallback replaces, while the Machine is neither paused nor opted out |
| Causes.ReportOnlyOnlyReports | internal/controller/cluster_controller.go:435-439 | in every run a pass in report-only mode sets no mark and escalates none, gives no answer but that a node has no Machine or is not remediated, and concludes nothing but reports, unless it keeps what it last concluded on a request it could not read |
| Causes.ReportOnlyStep | internal/controller/cluster_controller.go:431-484 | a signal handled in report-only mode changes nothing and concludes a report, with the answer that goes with it |
| Causes.DryRunChangesNothing | internal/controller/cluster_controller.go:659-662 | in every run a dry run writes to no Machine, sets no mark and answers no request |
| Causes.IsPendingExactlyWhen | internal/signal/extrr/answer.go:34-45 | a read that is served finds a request pending exactly when it is there, not being deleted, released by NVSentinel and without an answer; every other read fails |
| Causes.RequestsAreAccountedFor | internal/controller/cluster_controller.go:386-405 | what a pass takes for asking are exactly the requests it found pending, and it knows of a partial read exactly when one could not be read |
| Causes.PartialReadReleasesNothing | internal/controller/cluster_controller.go:391-421 | on a partial read the end of the pass writes nothing, and what was concluded last on the unread request stays |
| ReleaseSafety.ReleasesNothingElse | internal/controller/cluster_controller.go:782-797 | the end of a pass writes to no Machine but those it lets go of, each in the version it judged |
| ReleaseSafety.ActMoves | internal/controller/cluster_controller.go:410-415 | acting on a signal changes only the Machine of its node, and a mark it sets is not of a finished restart |
| QuietPass.ReleasesExactly | internal/controller/cluster_controller.go:782-797 | undisturbed, exactly the restart-marked, non-deleting Machines that nothing holds are released |
| QuietPass.QuietHandle | internal/controller/cluster_controller.go:431-484 | undisturbed, handling a signal leaves the mark and the wait that a table of cases says, on its own node only |
| PassOutcome.PassEndsAt | internal/controller/cluster_controller.go:389-421 | undisturbed, a pass over node conditions leaves on every Machine the mark and the wait of a closed form in which decisions its signals call for, with escalation, fallback, holds and release |
| PassOutcome.OrderOfSignalsDoesNotMatter | internal/controller/cluster_controller.go:389-419 | so the marks and waits are the same for every order of the signals |
| RestartProgress.FinishedMarkGoes | internal/controller/cluster_controller.go:726-730 | a request that finds the finished restart of another, which no longer asks, is left as it was and that mark is removed |
| RestartProgress.MarkedUnlessHeld | internal/controller/cluster_controller.go:639-683 | a pass that finds the Machine unmarked marks it for the request at the node's current boot ID, unless the wait for the checks holds it back |
| RestartProgress.FinishedRestartIsAnswered | internal/controller/cluster_controller.go:847-887 | a pass that finds the request's own finished restart answers it True, keeps its other conditions and releases the Machine |
| RestartProgress.PassMovesWaitsOn | internal/controller/cluster_controller.go:1082-1086 | from pass to pass, whatever happens in one, a wait keeps its start, is over only past its bound, or is new |
| RestartRuns.RestartComesAnew | internal/controller/cluster_controller.go:513-534 | over a run that follows its requeues, the old mark goes, the request is not answered by it, and a pass within the bound on the wait marks the Machine for this request |
| Waits.HeldExactlyWhen | internal/controller/cluster_controller.go:1096-1130 | a restart is held back exactly while the Machine is unmarked, its checks still show an earlier mark, and the wait for that is new or less than a minute old |
| Waits.HoldsUntilTheBoundAndReportsOnce | internal/controller/cluster_controller.go:1096-1130 | a stored wait holds the restart on exactly the passes before its bound, and the bound is reported once |
| Waits.PassBringsTheEndCloser | internal/controller/cluster_controller.go:1135-1152 | each pass that follows the requeue lowers a measure: the older unfinished waits and the poll intervals that remain |
| Waits.WaitEnds | internal/controller/cluster_controller.go:1077-1086 | so a wait ends within that many passes |
| Declines.DeclinedExactlyWhenHopeless | internal/controller/cluster_controller.go:609-632 | once the guards pass, a request is declined for want of a check exactly when no choice of unpausing checks would let its decision be carried out under the fallback |
| Declines.HopefulExactlyWhen | internal/controller/cluster_controller.go:606-630 | unpausing checks would let a decision be carried out exactly when a check selects the Machine and, for a restart, all that do have templates or the fallback replaces |
| Declines.AnsweredExactlyWhenDue | internal/controller/cluster_controller.go:462-484 | a step answers a request exactly as is due: that no Machine owns the node, that nothing is remediated, that a finished restart of its own is over, that a control plane or an opted-out Machine is skipped, or that no check would carry the decision out; it waits on every other guard, and where the node is gone |
| Declines.NothingIsAnsweredByActing | internal/controller/cluster_controller.go:568-605 | a step that concludes an answer wrote nothing: no request is declined by a step that marks or escalates |
| Limits.FailedEscalationReleases | internal/controller/cluster_controller.go:571-577 | after a failed escalation the pass releases a Machine its signal calls to replace |
| Limits.StaleMarkTurnsReplacement | internal/capi/remediate.go:80 | undisturbed, a mark that meets the operator's replacement mark, on the read of some earlier version, turns it into a restart mark exactly when it asks for a restart |
| Limits.SharedKeyReleases | internal/controller/cluster_controller.go:415 | with two signals of one key the Machine the earlier one needs is released |
| Passes.DecisionByMode | internal/controller/cluster_controller.go:830-842 | in report-only mode nothing but reports is decided; in the others the table decides: a replacement exactly when it calls for one on some action, a restart exactly when it does on some action and for a replacement on none |
| Passes.FallbackByValue | internal/controller/cluster_controller.go:692-711 | a restart falls back to a replacement exactly when the Cluster says so, or does not say otherwise and the operator is set to |
| Requests.PendingExactlyWhen | internal/signal/extrr/extrr.go:185-220 | a request is pending exactly when it is not being deleted, its first condition on the ownership is True and its first on the remediation, if any, is neither True nor False |
| Requests.AnswerConditions | internal/signal/extrr/answer.go:86-97 | the loop replaces each answer condition in place, or appends one |
| Requests.AnswerSettlesAndKeepsTheRest | internal/signal/extrr/answer.go:61-108 | the answer is what the request then reads, and every condition of another type stays what and where it is |
| Machines.CoverageOf | internal/capi/coverage.go:143-171 | the loop and the sort give exactly the checks that select the Machine, in the order of their names |
| Machines.CoverageIsWhatSelects | internal/capi/coverage.go:143-171 | the specified coverage has exactly the checks that select the Machine, ordered by name, each as often as it is listed |
| Machines.CoveredExactlyWhen | internal/capi/coverage.go:65-103 | marking does something exactly when a check that is not paused selects the Machine, and leads to templates only when all that select it have one |
| Machines.CompletedExactlyWhen | internal/capi/release.go:91-112 | a restart is over exactly when the Machine has this operator's restart mark with a boot ID, and its node is there with another one and True in its first Ready condition |
| Machines.UnpausingKeeps | internal/capi/coverage.go:105-113 | whatever some choice of unpausing checks gives, unpausing all gives |
| Signals.KnownActionsArePrefixFree | internal/signal/signal.go:50-61 | no known action is a proper prefix of another |
| Signals.KeysTellSignalsApart | internal/signal/signal.go:108-110 | the key tells node and check apart |
| Condition.JoinEvents | internal/signal/condition/condition_test.go:138-167 | the printer's loop writes the events that fit, then as much of the next as there is room for |
| Condition.TerminalActionIsTheMatch | internal/signal/condition/condition.go:108-111 | the computed terminal action is the match of the expression, and the only one |
| Condition.CutIsIncomplete | internal/signal/condition/condition.go:105-107 | no proper prefix of a well-formed event ends in a known action |
| Condition.Events | internal/signal/condition/condition.go:85-103 | the loop keeps the visible events and drops an incomplete last one |
| Condition.Captures | internal/signal/condition/condition.go:116-132 | the loop collects the first submatches once each, in order of first appearance |
| Condition.ParseCondition | internal/signal/condition/condition.go:63-79 | the method computes the parse that the theorem below is about |
| Condition.ParseUndoesPrinting | internal/signal/condition/condition.go:63-132 | for any well-formed events and any limit, the parse of the printed message is flagged as truncated exactly when an event was not kept whole, and its actions, codes and UUIDs are those of the events kept whole and no others; it is taken for NVSentinel's exactly when an event was kept or the cut still shows the marker |
| Decisions.Decide | internal/decision/decision.go:208-238 | the loop computes the fold, which decides on a replacement exactly when the table calls for one on some action, and on a restart exactly when it does so and calls for a replacement on none |
| Decisions.DecisionIsGreatest | internal/decision/decision.go:199-238 | a replacement wins over a restart and a restart over a report, and the action named is the first known one that calls for the decision, or the first of all |
| Decisions.OrderAndRepeatsDoNotMatter | internal/decision/decision.go:204-207 | the decision depends on which actions there are only |
| Decisions.CutNeverEscalates | internal/decision/decision.go:204-238 | for every table and limit, what is replaced on the cut message is replaced on the same events whole, and what is restarted on it is not merely reported on them |
| Decisions.ParseOverrides | internal/decision/decision.go:142-161 | the loop reads the pairs in turn and stops at the first bad or repeated one |
| Decisions.OverriddenExactlyWhen | internal/decision/decision.go:136-161 | an override list is read exactly when each pair that is not blank is an action, an equals sign and a value, and no action is listed twice, and then as the map of what it lists |
| Decisions.RenderedOverridesReadBack | charts/nvsentinel-capi-remediator/templates/deployment.yaml:67-72 | the override list the chart renders parses back to the same map |
| Devices.ParseRequest | internal/quarantine/quarantine.go:175-198 | the loop reads the bare word as naming nothing, a list after the word and a colon as its names, trimmed and once each, and rejects every other value and every list with a blank name as invalid |
| Devices.RequestedExactlyWhen | internal/quarantine/quarantine.go:175-198 | only the bare word names nothing; any other value is a request exactly when it is the word, a colon and a comma-separated list without a blank name, and is rejected as invalid otherwise |
| Devices.PrintedRequestReadsBack | internal/quarantine/quarantine.go:175-198 | a printed list of names reads back without its repeats |
| Devices.Select | internal/quarantine/quarantine.go:206-252 | the loops pick the devices the specification picks |
| Devices.SelectedExactly | internal/quarantine/quarantine.go:200-252 | selection succeeds exactly when each listed name fits one held device, or one is held at all, and then gives precisely those, sorted and once each |
| Devices.RefusedExactlyWhen | internal/quarantine/quarantine.go:206-252 | the reason of a refusal: no device, more than one with none named, or the first name that does not fit just one held device fits several or none |
| Devices.SelectedCovers | internal/quarantine/rules.go:133-147 | what is selected covers the request |
| Devices.SelectionIgnoresOrder | internal/quarantine/quarantine.go:200-252 | the order and repetition of the devices and of the names do not matter |
| Devices.StatusesDiffer | internal/quarantine/quarantine.go:94-101 | a rejection is told apart from every other status, whatever its reason |
| Devices.RuleNamesTellDevicesApart | internal/quarantine/quarantine.go:288-302 | where the digest keeps texts apart, different devices have rules by different names |
| QuarantineSafety.DeletesOnlyTheQuarantined | internal/controller/quarantine_controller.go:144-230 | in every run, for any digest and any stale read, a deletion that succeeds hits a Machine whose current request text means the devices carried out, which none of its own guards keeps, in status replacing, and whose Cluster the pass read as selected and not paused; the pass read a blocking rule for each of a set of devices that covers the request, and all are in place unless someone else changed a rule |
| QuarantineSafety.StatusOnlyMovesForward | internal/controller/quarantine_controller.go:376-399 | in every run the status goes from nothing to quarantining, on to replacing, to a rejection from anything but one, and off only once the request was withdrawn; a request's status is written only for a Cluster read as selected, and only to a rejection for a paused one; nothing else on the Machine changes |
| QuarantineSafety.RulesAreOnlyAdded | internal/quarantine/rules.go:73-89 | in every run, from one pass to any later one, no rule is changed or deleted but by someone else |
| QuarantineSafety.OneRulePerDevice | internal/quarantine/rules.go:215-249 | in every run the rules the operator made for one device have one name, are marked as its own and keep new work off the device, and there is only one, still in place, unless someone else changed or dropped a rule |
| QuarantineSafety.RulesAreForSelectedClusters | internal/controller/quarantine_controller.go:178-180 | in every run each rule the operator made is for a Machine of a Cluster that the pass had read as selected and not paused |
| QuarantineSafety.UnselectedIsLeftAlone | internal/controller/quarantine_controller.go:167-180 | in every run a pass over a request whose Cluster it reads as not selected, or finds or reads none, deletes nothing, makes no rule and writes no status |
| QuarantineSafety.DeleteMachineKeepsSound | internal/controller/quarantine_controller.go:217-223 | the deletion, locked to the version and UID seen, hits the very Machine that was judged |
| QuarantineSafety.ReadAllKeepsSound | internal/controller/quarantine_controller.go:273-283 | reading the rules back finds a blocking rule for every device, or ends the pass |
| QuarantineSafety.OfKeepsSound | internal/quarantine/rules.go:95-131 | each device of the rules made for a Machine has a blocking rule that was read |
| QuarantineRules.RetriesAddAPart | internal/controller/quarantine_controller.go:241-296 | over any crashes and retries of one request the rules are always those an uninterrupted quarantine of some first part of its devices leaves |
| QuarantineRules.RetriesEndAsOneRun | internal/controller/quarantine_controller.go:241-296 | once the Machine was deleted with its devices seen to, they are the rules an uninterrupted quarantine of all of them leaves |
| QuarantineRules.UninterruptedMakesThePlan | internal/controller/quarantine_controller.go:262-271 | an uninterrupted quarantine makes exactly the missing rules, and ends in a conflict exactly when a rule by a device's name does not block it |
| QuarantineRules.CollisionIsNeverTaken | internal/quarantine/rules.go:167-191 | where the digest gives two devices one name, the rule of one is rejected for the other and not listed for it |
| QuarantineRules.DryRunWritesNothing | internal/controller/quarantine_controller.go:252-255 | a dry run changes no Machine and no rule |
| QuarantineOutcome.DeletesExactlyWhen | internal/controller/quarantine_controller.go:144-325 | an undisturbed pass over a request, new or resumed after a crash in whatever status, deletes the Machine exactly when its Cluster is selected and not paused, its own guards let it, the request parses, and either the request was in status replacing with rules made that cover it, or its devices can be told and no rule is in the way; with no such Cluster or an unselected one nothing changes; otherwise it rejects the request with the first reason there is, but where only the lookup of the devices failed for now, which leaves the Machine as it is and ends the pass in that error |
| QuarantineOutcome.WithdrawnLosesItsStatus | internal/controller/quarantine_controller.go:153-160 | an undisturbed pass takes the status of a withdrawn request off and changes nothing else on the Machine |
| QuarantineOutcome.StaleReadIsLookedAtAgain | internal/controller/quarantine_controller.go:122-137 | a pass on an old version of the Machine that has a status or a deletion to write changes no Machine and is to look again shortly |
| QuarantineOutcome.EnsuredIsListed | internal/quarantine/rules.go:73-131 | a rule made for a Machine's device is among those listed for that Machine |
| QuarantineOutcome.MadeExactlyWhen | internal/quarantine/rules.go:95-131 | what counts as made for a Machine are the rules the operator manages with its labels and whole name, each by the name of the device it keeps work off |
| Actuators.Actuator.Release | internal/capi/release.go:56-84 | removes the five annotations under the version seen, and brings the copy up to date when that went through |
| Actuators.Actuator.Escalate | internal/capi/release.go:140-165 | turns a restart mark into a replacement mark, likewise |
| Actuators.Actuator.MarkForRemediation | internal/capi/remediate.go:55-89 | sets the mark and its record unless a guard stands in the way, likewise |
| Actuators.Server.Answer | internal/signal/extrr/answer.go:61-108 | reads the request, answers it if it is released and has no answer, and patches under the version read; a read that is served leaves it unanswered exactly when it does not wait for one |
| Reconcilers.ClusterReconciler.Reconcile | internal/controller/cluster_controller.go:275-422 | nothing is written on a partial read, and each read that fails is polled again or backed off from; a Cluster that goes is forgotten, a paused or unreachable one loses its waits; otherwise the world, what was seen, the waits and the requeue are those of the pass |
| Reconcilers.ClusterReconciler.TakeSignals | internal/controller/cluster_controller.go:389-416 | the loop over the signals does what the function does, request by request |
| Reconcilers.ClusterReconciler.Handle | internal/controller/cluster_controller.go:431-484 | decides a signal and changes the Machine, the server and the waits as the function says; in report-only mode it changes nothing and concludes a report |
| Reconcilers.ClusterReconciler.Remediate | internal/controller/cluster_controller.go:494-690 | likewise, once the decision calls for a restart or a replacement |
| Reconcilers.ClusterReconciler.Answer | internal/controller/cluster_controller.go:847-887 | likewise, for answering and the release that follows |
| Reconcilers.ClusterReconciler.ReleaseAnswered | internal/controller/cluster_controller.go:897-921 | the retry loop releases the Machine on a fresh version for as long as it carries the mark that was answered |
| Reconcilers.ClusterReconciler.ReleaseRestarts | internal/controller/cluster_controller.go:741-815 | whatever order the maps are walked in, releases the Machines nothing holds, in node order, and names the first request that waits on each |
| Reconcilers.Judge | internal/controller/cluster_controller.go:750-774 | the held Machines and the first waiting request of each, for every order of the observations |
| Reconcilers.ClusterReconciler.HeldForChecks | internal/controller/cluster_controller.go:1096-1130 | updates the Cluster's waits and no other's as the function says |
| Reconcilers.ClusterReconciler.NextLook | internal/controller/cluster_controller.go:1135-1152 | the requeue is positive, at most the poll interval, never past the end of an unfinished wait, and one of these |
| Reconcilers.ClusterReconciler.ForgetWaits | internal/controller/cluster_controller.go:1158-1176 | keeps exactly the waits of Machines that are still as they were |
| Reconcilers.ClusterReconciler.NoteMode | internal/controller/cluster_controller.go:1182-1207 | a change of mode drops what was concluded in the old one |
| Reconcilers.ClusterReconciler.Remember | internal/controller/cluster_controller.go:1042-1061 | stores what the pass concluded, for this Cluster only |
| Reconcilers.ClusterReconciler.Forget | internal/controller/cluster_controller.go:1065-1073 | drops everything about one Cluster |
| Reconcilers.MachinesByNode | internal/controller/cluster_controller.go:980-997 | a copy of each Machine by the node it owns, the last listed where two name one |
| Reconcilers.ListedIsByNode | internal/controller/cluster_controller.go:980-997 | every node a listed Machine owns is a key, with the last Machine that owns it |
| QuarantineControllers.Rules.Ensure | internal/quarantine/rules.go:73-89 | creates the rule, or checks the one there |
| QuarantineControllers.Rules.Of | internal/quarantine/rules.go:95-131 | the devices of the rules made for the owner, sorted, whatever order they are listed in |
| QuarantineControllers.Rules.Exists | internal/quarantine/rules.go:150-165 | whether the device's rule is in place |
| QuarantineControllers.Rules.Check | internal/quarantine/rules.go:170-191 | a rule by that name that does not block the device is a conflict |
| QuarantineControllers.MachineQuarantineReconciler.Reconcile | internal/controller/quarantine_controller.go:122-137 | carries out the request on the Machine as read, and says when to look again |
| QuarantineControllers.MachineQuarantineReconciler.Replace | internal/controller/quarantine_controller.go:144-230 | the step-by-step request equals the function the safety results are about |
| QuarantineControllers.MachineQuarantineReconciler.Quarantine | internal/controller/quarantine_controller.go:241-296 | likewise for finding the devices and making their rules |
| QuarantineControllers.MachineQuarantineReconciler.Taint | internal/controller/quarantine_controller.go:262-283 | the two loops make every rule and read every one back, and stop at the first that fails |
| QuarantineControllers.MachineQuarantineReconciler.SetStatus | internal/controller/quarantine_controller.go:376-399 | sets or removes the status under the version seen, and brings the copy up to date when that went through |
| QuarantineControllers.MachineQuarantineReconciler.Fail | internal/controller/quarantine_controller.go:340-352 | rejects for a rejection or a forbidden call, and hands any other error on |
| QuarantineControllers.MachineQuarantineReconciler.Reject | internal/controller/quarantine_controller.go:356-371 | writes the rejection down, but for a dry run |

## Left out

- `internal/quarantine/locator.go`: the devices a Machine's VM holds, or the error for want of them, are whatever the environment says at each call.
- `cmd/manager/main.go`, the watches and their predicates, kustomize and RBAC: wiring.
- Mode discovery (`internal/controller/mode.go`): the mode is a parameter of a pass.
- `decision.New`, `ParseDecision` and the default table: the results about decisions hold for every table.
- Logs, Events and texts for people, `wouldRelease`, which only keeps a dry run from repeating itself, and what makes an observation news. The value of the reason annotation stands for the signal's check.
- SHA-256 and the shortening of label values are arbitrary functions; a rule name is the digest of driver, pool and name.
- The capture expressions of the parser are arbitrary functions, but for the terminal action; characters stand for bytes.
- The reading of an ExternalRemediationRequest into a signal, and the order in which signals are collected.
- Label selectors: a check has the set of the names it selects, a Cluster says whether it is selected.
- Other owners of a Machine than a MachineSet, and API versions: a Machine says whether a MachineSet owns it.
- The waits between the tries of a release that conflicts: there are four tries.
- That a deleted Machine goes at last: a deletion sets its deletion mark, and the environment may remove it.
- What a refused read of the kind of the rules says beyond served, missing and unknown.
- PassOutcome.PassEndsAt: is about node conditions, whose signals carry no request; with requests the outcome also depends on which of them are pending, which RestartProgress follows for one request of a node.
- RestartRuns.RestartComesAnew: takes the request to be the only signal of its node, which NVSentinel sees to; other nodes may have any signals.
