/** Terminations across retries: the restart loop, publication, and every other call. */
module KernelTermination {
  import opened Text
  import opened Kernel
  import opened KernelInvariant

  // -------------------------------------------------------- the restart loop

  lemma StopMemberKeepsInv(k: State, id: Pid, member: Pid, fault: Option<set<OpId>>)
    requires Inv(k)
    ensures Inv(StopMember(k, id, member, fault).0)
  {
    if member != id && Live(k.table, member) {
      CleanupKeepsInv(k, member, fault);
      CleanupFrame(k, member, fault);
      var (k1, done) := CleanupStep(k, member, fault);
      if done { MarkKeepsInv(k1, member, Cancelled(GROUP_RESTART)); }
    }
  }

  /** Stopping a member leaves it terminal and touches no termination and no registration. */
  lemma StopMemberFrame(k: State, id: Pid, member: Pid, fault: Option<set<OpId>>)
    ensures var (k', ok) := StopMember(k, id, member, fault);
            && k'.progress == k.progress && k'.outcomes == k.outcomes && k'.specs == k.specs && k'.identities == k.identities
            && k'.history == k.history.(events := k'.history.events)
            && k'.table.nextPid == k.table.nextPid && k'.table.procs.Keys == k.table.procs.Keys
            && (ok ==> member == id || Dead(k'.table, member))
  {
    if member != id && Live(k.table, member) {
      CleanupFrame(k, member, fault);
      MarkExitTable(CleanupStep(k, member, fault).0, member, Cancelled(GROUP_RESTART));
    }
  }

  lemma SpawnFrame(k: State, spec: SpawnSpec, fault: SpawnFault)
    requires TableOk(k.table)
    ensures var (k', spawned) := SpawnStep(k, spec, fault);
            && k'.progress == k.progress && k'.outcomes == k.outcomes && k'.operations == k.operations
            && k'.supervisor == k.supervisor && k'.history.lineage == k.history.lineage
            && k.table.nextPid <= k'.table.nextPid && k.table.procs.Keys <= k'.table.procs.Keys
            && (spawned.Some? ==> spawned.value == k.table.nextPid && k'.table.nextPid == k.table.nextPid + 1
                                  && k'.history.orphans == k.history.orphans)
  {
  }

  /** A new lineage entry under a fresh process id disturbs no earlier match. */
  lemma LineageKeepsTransactions(t: ProcessTable, ops: map<OpId, Pid>, h: History, h': History, p: Pid, member: Pid,
                                 progress: map<Pid, Progress>, outcomes: map<Pid, Outcome>)
    requires ProgressesOk(t, ops, h, progress) && OutcomesOk(t, h, outcomes)
    requires p !in h.lineage && h' == h.(lineage := h.lineage[p := member])
    ensures ProgressesOk(t, ops, h', progress) && OutcomesOk(t, h', outcomes)
  {
    forall i | i in progress ensures ProgressOk(t, ops, h', i, progress[i]) {
      assert ProgressOk(t, ops, h, i, progress[i]);
    }
    forall i | i in outcomes ensures OutcomeOk(t, h', i, outcomes[i]) {
      assert OutcomeOk(t, h, i, outcomes[i]);
    }
  }

  lemma LineageKeepsInv(k: State, p: Pid, member: Pid)
    requires Inv(k) && p < k.table.nextPid && p !in k.history.lineage
    requires member < k.table.nextPid && member !in k.history.orphans
    ensures Inv(k.(history := k.history.(lineage := k.history.lineage[p := member])))
  {
    var k' := k.(history := k.history.(lineage := k.history.lineage[p := member]));
    LineageKeepsTransactions(k.table, k.operations, k.history, k'.history, p, member, k.progress, k.outcomes);
    forall x | x in k.history.events ensures EventOk(k', x) { assert EventOk(k, x); }
    QuietKeepsHistory(k, k');
  }

  /** Where the restart loop stands: `j` ids are dealt with, each by its replacement, unless one of
      the first was an orphan. */
  predicate LoopAt(k: State, id: Pid, ids: seq<Pid>, j: nat) {
    && id in k.progress && k.progress[id].phase.Restarting? && k.progress[id].restartIds == ids
    && |k.progress[id].restarted| <= j <= |ids|
    && (|k.progress[id].restarted| < j ==> !NoOrphan(ids, |k.progress[id].restarted| + 1, k.history.orphans))
  }

  lemma RecordedIsOk(k: State, id: Pid, ids: seq<Pid>, j: nat, p: Pid)
    requires Inv(k) && LoopAt(k, id, ids, j) && j < |ids| && p !in k.history.lineage
    ensures var h := k.history.(lineage := k.history.lineage[p := ids[j]]);
      ProgressOk(k.table, k.operations, h, id, k.progress[id].(restarted := k.progress[id].restarted + [p]))
  {
    assert ProgressOk(k.table, k.operations, k.history, id, k.progress[id]);
  }

  lemma RecordKeepsInv(k: State, id: Pid, ids: seq<Pid>, j: nat, p: Pid)
    requires Inv(k) && LoopAt(k, id, ids, j) && j < |ids|
    requires p < k.table.nextPid && p !in k.history.lineage && ids[j] < k.table.nextPid && ids[j] !in k.history.orphans
    ensures Inv(RecordReplacement(k, id, ids[j], p))
  {
    RecordedIsOk(k, id, ids, j, p);
    LineageKeepsInv(k, p, ids[j]);
    var k1 := k.(history := k.history.(lineage := k.history.lineage[p := ids[j]]));
    SupervisorIsFree(k1, InheritLineage(k.supervisor, ids[j], p));
    var k2 := k1.(supervisor := InheritLineage(k.supervisor, ids[j], p));
    SetProgressKeepsInv(k2, id, k.progress[id].(restarted := k.progress[id].restarted + [p]));
  }

  lemma RecordMovesLoop(k: State, id: Pid, ids: seq<Pid>, j: nat, p: Pid)
    requires LoopAt(k, id, ids, j) && j < |ids|
    ensures var k' := RecordReplacement(k, id, ids[j], p);
      LoopAt(k', id, ids, j + 1) && Forward(k, k') && OthersUntouched(k, k', id)
  {
  }

  /** A restart that goes on from `k` to `k'` without losing its place. */
  ghost predicate LoopMoves(k: State, k': State, ok: bool, id: Pid, ids: seq<Pid>, j: nat) {
    && Inv(k') && Forward(k, k') && OthersUntouched(k, k', id) && (ok ==> LoopAt(k', id, ids, j + 1))
    && (!ok ==> k'.progress == k.progress)
  }

  lemma SpawnKeepsLoop(k: State, id: Pid, ids: seq<Pid>, j: nat, spec: SpawnSpec, fault: SpawnFault)
    requires Inv(k) && LoopAt(k, id, ids, j)
    ensures var r := SpawnStep(k, spec, fault);
      && Inv(r.0) && Forward(k, r.0) && OthersUntouched(k, r.0, id) && r.0.progress == k.progress
      && (r.1.Some? ==> LoopAt(r.0, id, ids, j) && r.1.value == k.table.nextPid < r.0.table.nextPid
                        && r.0.history.lineage == k.history.lineage && r.0.history.orphans == k.history.orphans)
  {
    SpawnKeepsInv(k, spec, fault);
    SpawnFrame(k, spec, fault);
  }

  lemma SpawnedReplacement(k: State, id: Pid, ids: seq<Pid>, j: nat, fault: SpawnFault)
    requires Inv(k) && LoopAt(k, id, ids, j) && j < |ids| && ids[j] in k.specs
    ensures var r := Replace(k, id, ids[j], fault); LoopMoves(k, r.0, r.1, id, ids, j)
  {
    var member := ids[j];
    assert member in k.identities.byProcess;
    assert RegOk(k.table, k.identities, k.specs, member);
    SpawnKeepsLoop(k, id, ids, j, k.specs[member], fault);
    var spawned := SpawnStep(k, k.specs[member], fault);
    if spawned.1.Some? {
      RecordKeepsInv(spawned.0, id, ids, j, spawned.1.value);
      RecordMovesLoop(spawned.0, id, ids, j, spawned.1.value);
      ForwardTransitive(k, spawned.0, RecordReplacement(spawned.0, id, member, spawned.1.value), id);
    }
  }

  lemma ReplaceKeepsInv(k: State, id: Pid, ids: seq<Pid>, j: nat, fault: SpawnFault)
    requires Inv(k) && LoopAt(k, id, ids, j) && j < |ids| && ids[j] in k.table.procs
    ensures var r := Replace(k, id, ids[j], fault); LoopMoves(k, r.0, r.1, id, ids, j)
  {
    if ids[j] in k.specs {
      SpawnedReplacement(k, id, ids, j, fault);
    } else {
      assert ids[j] in k.identities.byProcess ==> RegOk(k.table, k.identities, k.specs, ids[j]);
    }
  }

  lemma RestartOneKeepsInv(k: State, id: Pid, ids: seq<Pid>, j: nat, f: Faults)
    requires Inv(k) && LoopAt(k, id, ids, j) && j < |ids|
    ensures var r := RestartOne(k, id, ids[j], j, f); LoopMoves(k, r.0, r.1, id, ids, j)
  {
    assert ProgressOk(k.table, k.operations, k.history, id, k.progress[id]);
    StopMemberKeepsInv(k, id, ids[j], f.cleanup(j + 1));
    StopMemberFrame(k, id, ids[j], f.cleanup(j + 1));
    var stopped := StopMember(k, id, ids[j], f.cleanup(j + 1));
    if stopped.1 { ReplaceKeepsInv(stopped.0, id, ids, j, f.spawn(j)); }
  }

  lemma ForwardTransitive(a: State, b: State, c: State, id: Pid)
    requires Forward(a, b) && Forward(b, c) && OthersUntouched(a, b, id) && OthersUntouched(b, c, id)
    ensures Forward(a, c) && OthersUntouched(a, c, id)
  {
  }

  /** The restart loop went from `k` to `k'`, to its end or to a failure it can resume from. */
  ghost predicate LoopEnds(k: State, k': State, ok: bool, id: Pid, ids: seq<Pid>) {
    && Inv(k') && Forward(k, k') && OthersUntouched(k, k', id) && id in k'.progress && k'.progress[id].phase.Restarting?
    && (ok ==> LoopAt(k', id, ids, |ids|))
  }

  lemma LoopGoesOn(k: State, k1: State, k2: State, ok: bool, id: Pid, ids: seq<Pid>, j: nat)
    requires LoopMoves(k, k1, true, id, ids, j) && LoopEnds(k1, k2, ok, id, ids)
    ensures LoopEnds(k, k2, ok, id, ids)
  {
    ForwardTransitive(k, k1, k2, id);
  }

  lemma LoopStops(k: State, k1: State, id: Pid, ids: seq<Pid>, j: nat)
    requires LoopAt(k, id, ids, j) && LoopMoves(k, k1, false, id, ids, j)
    ensures LoopEnds(k, k1, false, id, ids)
  {
  }

  lemma {:induction false} RestartLoopKeepsInv(k: State, id: Pid, ids: seq<Pid>, j: nat, f: Faults, r: (State, bool))
    requires Inv(k) && LoopAt(k, id, ids, j) && r == RestartFrom(k, id, ids, j, f)
    ensures LoopEnds(k, r.0, r.1, id, ids)
    decreases |ids| - j
  {
    if j < |ids| {
      RestartOneKeepsInv(k, id, ids, j, f);
      var one := RestartOne(k, id, ids[j], j, f);
      if one.1 {
        RestartLoopKeepsInv(one.0, id, ids, j + 1, f, r);
        LoopGoesOn(k, one.0, r.0, r.1, id, ids, j);
      } else {
        LoopStops(k, one.0, id, ids, j);
      }
    } else {
      LoopIsDone(k, id, ids);
    }
  }

  /** The restart loop keeps the invariant, and resumes after the replacements already made. */
  lemma RestartFromKeepsInv(k: State, id: Pid, ids: seq<Pid>, j: nat, f: Faults)
    requires Inv(k) && LoopAt(k, id, ids, j)
    ensures var r := RestartFrom(k, id, ids, j, f); LoopEnds(k, r.0, r.1, id, ids)
  {
    RestartLoopKeepsInv(k, id, ids, j, f, RestartFrom(k, id, ids, j, f));
  }

  lemma LoopIsDone(k: State, id: Pid, ids: seq<Pid>)
    requires Inv(k) && LoopAt(k, id, ids, |ids|)
    ensures LoopEnds(k, k, true, id, ids)
  {
  }

  // ------------------------------------------------------------ publication

  lemma FinishKeepsInv(k: State, id: Pid, ids: seq<Pid>)
    requires Inv(k) && LoopAt(k, id, ids, |ids|)
    ensures Finish(k, id).1.Some? && Inv(Finish(k, id).0)
  {
    var p := k.progress[id];
    assert ProgressOk(k.table, k.operations, k.history, id, p);
    var (k', outcome) := Finish(k, id);
    assert OutcomeOk(k'.table, k'.history, id, outcome.value);
    forall i | i in k'.progress ensures ProgressOk(k'.table, k'.operations, k'.history, i, k'.progress[i]) {
      assert ProgressOk(k.table, k.operations, k.history, i, k.progress[i]);
    }
    forall i | i in k'.outcomes ensures OutcomeOk(k'.table, k'.history, i, k'.outcomes[i]) {
      if i != id { assert OutcomeOk(k.table, k.history, i, k.outcomes[i]); }
    }
    forall x | x in k.history.events ensures EventOk(k', x) { assert EventOk(k, x); }
    QuietKeepsHistory(k, k');
  }

  /** How far a termination has come: 0 not begun, 1..4 its phase, 5 published. */
  function Stage(k: State, id: Pid): nat {
    if id in k.outcomes then 5 else if id in k.progress then 1 + PhaseRank(k.progress[id].phase) else 0
  }

  predicate HasReason(k: State, id: Pid, reason: ExitReason) {
    (id in k.progress && k.progress[id].reason == reason) || (id in k.outcomes && k.outcomes[id].reason == reason)
  }

  predicate HasDecision(k: State, id: Pid, d: RestartDecision) {
    || (id in k.progress && k.progress[id].phase.Restarting? && k.progress[id].decision == Some(d))
    || (id in k.outcomes && k.outcomes[id].decision == d)
  }

  /** A call keeps a termination's reason, decision and outcome and never moves it back. */
  ghost predicate KeepsTermination(k: State, k': State, id: Pid) {
    && Stage(k, id) <= Stage(k', id)
    && (id in k.outcomes ==> id in k'.outcomes && k'.outcomes[id] == k.outcomes[id])
    && (forall reason :: HasReason(k, id, reason) ==> HasReason(k', id, reason))
    && (forall d :: HasDecision(k, id, d) ==> HasDecision(k', id, d))
  }

  predicate SameTermination(k: State, k': State, id: Pid) {
    && (id in k'.progress <==> id in k.progress) && (id in k.progress ==> k'.progress[id] == k.progress[id])
    && (id in k'.outcomes <==> id in k.outcomes) && (id in k.outcomes ==> k'.outcomes[id] == k.outcomes[id])
  }

  lemma BeginKeepsInv(k: State, id: Pid, reason: ExitReason)
    requires Inv(k) && id !in k.outcomes
    ensures var k0 := BeginTermination(k, id, reason);
      Inv(k0) && id in k0.progress && OthersUntouched(k, k0, id) && k0.progress.Keys == k.progress.Keys + {id}
  {
    if id !in k.progress {
      SetProgressKeepsInv(k, id, Progress(reason, Cleanup, None, [], []));
    }
  }

  /** The phases of one call: they stop before cleanup or stand at the restarts. */
  lemma ReachKeepsInv(k: State, id: Pid, reason: ExitReason, f: Faults)
    requires Inv(k) && id !in k.outcomes
    ensures var k0 := BeginTermination(k, id, reason);
            var r := Advance(k0, id, f);
      && Inv(r.0) && Forward(k0, r.0) && OthersUntouched(k, r.0, id)
      && (!r.1 ==> r.0.progress[id].phase.Cleanup?)
      && (r.1 ==> LoopAt(r.0, id, r.0.progress[id].restartIds, |r.0.progress[id].restarted|))
  {
    var k0 := BeginTermination(k, id, reason);
    BeginKeepsInv(k, id, reason);
    AdvanceKeepsInv(k0, id, f);
    var k1 := Advance(k0, id, f).0;
    assert ProgressOk(k1.table, k1.operations, k1.history, id, k1.progress[id]);
  }

  /** The inside of one `terminate_process` call, between the first lookup and publication. */
  function Attempt(k: State, id: Pid, reason: ExitReason, f: Faults): (State, bool) {
    var reached := Advance(BeginTermination(k, id, reason), id, f);
    if !reached.1 then reached
    else RestartFrom(reached.0, id, reached.0.progress[id].restartIds, |reached.0.progress[id].restarted|, f)
  }

  lemma TerminatePublishes(k: State, id: Pid, reason: ExitReason, f: Faults)
    requires id !in k.outcomes
    ensures TerminateStep(k, id, reason, f) == Publish(Attempt(k, id, reason, f).0, id, Attempt(k, id, reason, f).1)
  {
  }

  lemma RestartsAfter(k: State, k0: State, k1: State, id: Pid, f: Faults)
    requires Inv(k1) && Forward(k0, k1) && OthersUntouched(k, k1, id) && id in k1.progress && k0.progress.Keys >= k.progress.Keys
    requires LoopAt(k1, id, k1.progress[id].restartIds, |k1.progress[id].restarted|)
    ensures var ids := k1.progress[id].restartIds;
            var r := RestartFrom(k1, id, ids, |k1.progress[id].restarted|, f);
      && Inv(r.0) && Forward(k0, r.0) && OthersUntouched(k, r.0, id) && id in r.0.progress && r.0.progress[id].phase.Restarting?
      && (r.1 ==> LoopAt(r.0, id, ids, |ids|))
  {
    RestartFromKeepsInv(k1, id, k1.progress[id].restartIds, |k1.progress[id].restarted|, f);
  }

  lemma AttemptKeepsInv(k: State, id: Pid, reason: ExitReason, f: Faults)
    returns (k': State, ok: bool, ids: seq<Pid>)
    requires Inv(k) && AtRest(k) && id !in k.outcomes
    ensures Inv(k') && Forward(BeginTermination(k, id, reason), k') && OthersUntouched(k, k', id)
    ensures k'.progress[id].phase.Cleanup? || k'.progress[id].phase.Restarting?
    ensures ok ==> LoopAt(k', id, ids, |ids|)
    ensures TerminateStep(k, id, reason, f) == Publish(k', id, ok)
  {
    var k0 := BeginTermination(k, id, reason);
    TerminatePublishes(k, id, reason, f);
    BeginKeepsInv(k, id, reason);
    ReachKeepsInv(k, id, reason, f);
    var reached := Advance(k0, id, f);
    ids := reached.0.progress[id].restartIds;
    k', ok := Attempt(k, id, reason, f).0, Attempt(k, id, reason, f).1;
    if reached.1 {
      RestartsAfter(k, k0, reached.0, id, f);
    }
  }

  function Publish(k: State, id: Pid, ok: bool): (State, Option<Outcome>) {
    if ok then Finish(k, id) else (k, None)
  }

  lemma PublishKeepsInv(k: State, k1: State, ok: bool, ids: seq<Pid>, id: Pid)
    requires Inv(k1) && OthersUntouched(k, k1, id) && AtRest(k) && k1.progress.Keys <= k.progress.Keys + {id}
    requires id in k1.progress && (k1.progress[id].phase.Cleanup? || k1.progress[id].phase.Restarting?)
    requires ok ==> LoopAt(k1, id, ids, |ids|)
    ensures Inv(Publish(k1, id, ok).0) && AtRest(Publish(k1, id, ok).0)
  {
    if ok { FinishKeepsInv(k1, id, ids); }
  }

  lemma TerminateKeepsInv(k: State, id: Pid, reason: ExitReason, f: Faults)
    requires Inv(k) && AtRest(k)
    ensures Inv(TerminateStep(k, id, reason, f).0) && AtRest(TerminateStep(k, id, reason, f).0)
  {
    if id !in k.outcomes {
      var k1, ok, ids := AttemptKeepsInv(k, id, reason, f);
      PublishKeepsInv(k, k1, ok, ids, id);
    }
  }

  /** What one call does to terminations: the first reason stays, nothing moves back, the
      answer is the published outcome, and nobody else's termination is touched. */
  ghost predicate Answers(k: State, id: Pid, reason: ExitReason, k': State, r: Option<Outcome>) {
    && KeepsTermination(k, k', id) && Stage(k', id) >= 1
    && (Stage(k, id) == 0 ==> HasReason(k', id, reason))
    && (r.Some? <==> id in k'.outcomes) && (r.Some? ==> r.value == k'.outcomes[id])
    && (forall i | i != id :: SameTermination(k, k', i))
  }

  lemma PublishSparesOthers(k: State, k1: State, ok: bool, id: Pid, reason: ExitReason, i: Pid)
    requires id !in k.outcomes && Forward(BeginTermination(k, id, reason), k1) && OthersUntouched(k, k1, id)
    requires (ok ==> k1.progress[id].decision.Some?) && i != id
    ensures SameTermination(k, Publish(k1, id, ok).0, i)
  {
  }

  lemma PublishKeepsTermination(k: State, k1: State, ok: bool, id: Pid, reason: ExitReason)
    requires id !in k.outcomes && Forward(BeginTermination(k, id, reason), k1)
    requires ok ==> k1.progress[id].decision.Some?
    ensures var k' := Publish(k1, id, ok).0;
      && KeepsTermination(k, k', id) && Stage(k', id) >= 1 && (Stage(k, id) == 0 ==> HasReason(k', id, reason))
  {
    var k0 := BeginTermination(k, id, reason);
    assert id in k0.progress && id in k1.progress;
    assert k1.progress[id].reason == k0.progress[id].reason;
  }

  lemma PublishAnswers(k: State, k1: State, ok: bool, id: Pid, reason: ExitReason)
    requires id !in k.outcomes && Forward(BeginTermination(k, id, reason), k1) && OthersUntouched(k, k1, id)
    requires ok ==> k1.progress[id].decision.Some?
    ensures Answers(k, id, reason, Publish(k1, id, ok).0, Publish(k1, id, ok).1)
  {
    PublishKeepsTermination(k, k1, ok, id, reason);
    forall i | i != id ensures SameTermination(k, Publish(k1, id, ok).0, i) {
      PublishSparesOthers(k, k1, ok, id, reason, i);
    }
  }

  lemma TerminateAnswers(k: State, id: Pid, reason: ExitReason, f: Faults)
    requires Inv(k) && AtRest(k)
    ensures Answers(k, id, reason, TerminateStep(k, id, reason, f).0, TerminateStep(k, id, reason, f).1)
  {
    if id !in k.outcomes {
      var k1, ok, ids := AttemptKeepsInv(k, id, reason, f);
      assert ok ==> ProgressOk(k1.table, k1.operations, k1.history, id, k1.progress[id]);
      PublishAnswers(k, k1, ok, id, reason);
    }
  }
}
