/** When a termination that stopped at its restarts completes: what a retry needs. */
module KernelRetry {
  import opened Text
  import opened Kernel
  import opened KernelInvariant
  import opened KernelTermination
  import opened KernelRuns
  import opened KernelReplacements

  /** Nothing outside the runtime fails. */
  ghost predicate FaultFree(f: Faults) {
    forall i: nat :: f.cleanup(i).None? && f.spawn(i).NoFault?
  }

  // -------------------------------------------------------------- conditions

  /** The loop stops this process on its way from index `j` to `i`. */
  predicate StoppedIn(ids: seq<Pid>, j: nat, i: nat, p: Pid)
    requires i < |ids|
  {
    exists n | j <= n <= i :: ids[n] == p
  }

  /** By its turn the agent's current process is terminal, the agent was not replaced on the way,
      and the parent is still live. */
  predicate MayReplace(k: State, spec: SpawnSpec, ids: seq<Pid>, j: nat, i: nat)
    requires i < |ids|
  {
    && (spec.agent in k.identities.byAgent ==>
          var p := k.identities.byAgent[spec.agent].process; Dead(k.table, p) || StoppedIn(ids, j, i, p))
    && (forall n | j <= n < i :: ids[n] in k.specs ==> k.specs[ids[n]].agent != spec.agent)
    && (spec.parent.Some? ==> Live(k.table, spec.parent.value) && !StoppedIn(ids, j, i, spec.parent.value))
  }

  /** The `i`-th restart goes through in a loop that starts at `j`; read off the tables before it. */
  predicate Ready(k: State, ids: seq<Pid>, j: nat, i: nat)
    requires i < |ids|
  {
    && ids[i] in k.table.procs
    && (ids[i] in k.specs ==> MayReplace(k, k.specs[ids[i]], ids, j, i))
  }

  // ----------------------------------------------------- spawned before named

  /** A termination lists replacements that were spawned. */
  predicate Issued(progress: map<Pid, Progress>, next: Pid) {
    forall id {:trigger progress[id]} | id in progress :: AllBelow(progress[id].restarted, next)
  }

  predicate AllBelow(made: seq<Pid>, next: Pid) {
    forall i | 0 <= i < |made| :: made[i] < next
  }

  /** Specs name parents, agents processes and terminations replacements that were spawned before. */
  predicate Named(k: State) {
    && TableOk(k.table) && Issued(k.progress, k.table.nextPid)
    && (forall p {:trigger k.specs[p]} | p in k.specs && k.specs[p].parent.Some? :: k.specs[p].parent.value < k.table.nextPid)
    && (forall a {:trigger k.identities.byAgent[a]} | a in k.identities.byAgent ::
          k.identities.byAgent[a].process < k.table.nextPid)
  }

  lemma SpawnKeepsNamed(k: State, spec: SpawnSpec, fault: SpawnFault)
    requires Named(k)
    ensures Named(SpawnStep(k, spec, fault).0)
  {
  }

  /** Nothing is named anew: at most the states of known processes differ, and terminations in
      their phases and decisions. */
  predicate SameNames(k: State, k': State) {
    && k'.specs == k.specs && k'.identities == k.identities && k'.table.nextPid == k.table.nextPid
    && k'.table.procs.Keys == k.table.procs.Keys
    && forall id {:trigger k'.progress[id]} | id in k'.progress :: Listed(k.progress, id, k'.progress[id].restarted)
  }

  predicate Listed(progress: map<Pid, Progress>, id: Pid, made: seq<Pid>) {
    made == [] || (id in progress && made == progress[id].restarted)
  }

  lemma SameNamesKeep(k: State, k': State)
    requires Named(k) && SameNames(k, k')
    ensures Named(k')
  {
  }

  lemma MarkExitNames(k: State, id: Pid, reason: ExitReason)
    ensures SameNames(k, MarkExit(k, id, reason).0)
  {
  }

  lemma StopNames(k: State, id: Pid, member: Pid, fault: Option<set<OpId>>)
    ensures SameNames(k, StopMember(k, id, member, fault).0)
  {
    StopMemberFrame(k, id, member, fault);
  }

  lemma RecordKeepsNamed(k: State, id: Pid, member: Pid, p: Pid)
    requires Named(k) && id in k.progress && p < k.table.nextPid
    ensures Named(RecordReplacement(k, id, member, p))
  {
  }

  lemma ReplaceKeepsNamed(k: State, id: Pid, member: Pid, fault: SpawnFault)
    requires Named(k)
    ensures Named(Replace(k, id, member, fault).0)
  {
    if member in k.specs {
      SpawnKeepsNamed(k, k.specs[member], fault);
      var spawned := SpawnStep(k, k.specs[member], fault);
      if spawned.1.Some? && id in spawned.0.progress { RecordKeepsNamed(spawned.0, id, member, spawned.1.value); }
    }
  }

  lemma RestartOneKeepsNamed(k: State, id: Pid, member: Pid, j: nat, f: Faults)
    requires Named(k)
    ensures Named(RestartOne(k, id, member, j, f).0)
  {
    var stopped := StopMember(k, id, member, f.cleanup(j + 1)).0;
    StopNames(k, id, member, f.cleanup(j + 1));
    SameNamesKeep(k, stopped);
    ReplaceKeepsNamed(stopped, id, member, f.spawn(j));
  }

  lemma {:induction false} RestartsKeepNamed(k: State, id: Pid, ids: seq<Pid>, j: nat, f: Faults)
    requires Named(k)
    ensures Named(RestartFrom(k, id, ids, j, f).0)
    decreases |ids| - j
  {
    if j < |ids| {
      RestartOneKeepsNamed(k, id, ids[j], j, f);
      RestartsKeepNamed(RestartOne(k, id, ids[j], j, f).0, id, ids, j + 1, f);
    }
  }

  lemma PhaseNames(k: State, id: Pid, f: Faults)
    requires id in k.progress && !k.progress[id].phase.Restarting?
    ensures SameNames(k, PhaseStep(k, id, f).0)
  {
    match k.progress[id].phase
    case Cleanup => CleanupFrame(k, id, f.cleanup(0));
    case MarkTerminal => MarkExitNames(k, id, k.progress[id].reason);
    case Supervise =>
  }

  lemma SameNamesTransitive(a: State, b: State, c: State)
    requires SameNames(a, b) && SameNames(b, c)
    ensures SameNames(a, c)
  {
    forall id | id in c.progress ensures Listed(a.progress, id, c.progress[id].restarted) {
      assert Listed(b.progress, id, c.progress[id].restarted);
      assert id in b.progress ==> Listed(a.progress, id, b.progress[id].restarted);
    }
  }

  lemma {:induction false} AdvanceNames(k: State, id: Pid, f: Faults)
    requires id in k.progress
    ensures SameNames(k, Advance(k, id, f).0)
    decreases 3 - PhaseRank(k.progress[id].phase)
  {
    if !k.progress[id].phase.Restarting? {
      PhaseNames(k, id, f);
      var k1 := PhaseStep(k, id, f).0;
      if PhaseStep(k, id, f).1 {
        AdvanceNames(k1, id, f);
        SameNamesTransitive(k, k1, Advance(k1, id, f).0);
      }
    }
  }

  lemma ReachKeepsNamed(k: State, id: Pid, reason: ExitReason, f: Faults)
    requires Named(k)
    ensures Named(Advance(BeginTermination(k, id, reason), id, f).0)
  {
    var k0 := BeginTermination(k, id, reason);
    AdvanceNames(k0, id, f);
    SameNamesKeep(k0, Advance(k0, id, f).0);
  }

  lemma FinishKeepsNamed(k: State, id: Pid)
    requires Named(k)
    ensures Named(Finish(k, id).0)
  {
  }

  lemma RestartPartKeepsNamed(k: State, id: Pid, f: Faults)
    requires Named(k) && id in k.progress
    ensures var r := RestartFrom(k, id, k.progress[id].restartIds, |k.progress[id].restarted|, f).0;
      Named(r) && Named(Finish(r, id).0)
  {
    RestartsKeepNamed(k, id, k.progress[id].restartIds, |k.progress[id].restarted|, f);
    FinishKeepsNamed(RestartFrom(k, id, k.progress[id].restartIds, |k.progress[id].restarted|, f).0, id);
  }

  lemma TerminateKeepsNamed(k: State, id: Pid, reason: ExitReason, f: Faults)
    requires Named(k)
    ensures Named(TerminateStep(k, id, reason, f).0)
  {
    ReachKeepsNamed(k, id, reason, f);
    RestartPartKeepsNamed(Advance(BeginTermination(k, id, reason), id, f).0, id, f);
  }

  lemma BindKeepsNamed(k: State, p: Pid, osPid: int)
    requires Inv(k) && Named(k)
    ensures Named(BindStep(k, p, osPid).0)
  {
    if IsCurrent(k.identities, p) { assert RegOk(k.table, k.identities, k.specs, p); }
  }

  lemma SmallCallKeepsNamed(k: State, call: Call)
    requires Named(k) && !call.Spawn? && !call.Terminate? && !call.Bind?
    ensures Named(Step(k, call))
  {
  }

  lemma StepKeepsNamed(k: State, call: Call)
    requires Inv(k) && Named(k)
    ensures Named(Step(k, call))
  {
    match call
    case Spawn(spec, fault) => SpawnKeepsNamed(k, spec, fault);
    case Terminate(id, reason, faults) => TerminateKeepsNamed(k, id, reason, faults);
    case Bind(p, osPid) => BindKeepsNamed(k, p, osPid);
    case _ => SmallCallKeepsNamed(k, call);
  }

  /** In every run. */
  lemma {:induction false} RunKeepsNamed(k: State, calls: seq<Call>)
    requires Inv(k) && AtRest(k) && Named(k)
    ensures Named(Run(k, calls))
    decreases |calls|
  {
    if calls != [] {
      StepKeepsNamed(k, calls[0]);
      StepKeepsInv(k, calls[0]);
      RunKeepsNamed(Step(k, calls[0]), calls[1..]);
    }
  }

  // ---------------------------------------------------------- one restart

  /** The table after `member` is stopped. */
  ghost predicate Stopped(t: ProcessTable, t': ProcessTable, member: Pid) {
    && t'.nextPid == t.nextPid
    && (forall p {:trigger Live(t', p)} :: Live(t', p) <==> Live(t, p) && p != member)
    && (forall p {:trigger Dead(t', p)} :: Dead(t', p) <==> Dead(t, p) || p == member)
  }

  lemma MarkedIsStopped(t: ProcessTable, t': ProcessTable, member: Pid)
    requires MarkedTable(t, t', member)
    ensures Stopped(t, t', member)
  {
  }

  lemma StopsIff(k: State, id: Pid, member: Pid, fault: Option<set<OpId>>)
    requires fault.None? && Dead(k.table, id)
    ensures var (k', ok) := StopMember(k, id, member, fault);
      && (ok <==> member in k.table.procs)
      && (ok ==> Stopped(k.table, k'.table, member) && k'.specs == k.specs && k'.identities == k.identities
                 && k'.progress == k.progress)
  {
    if member != id && Live(k.table, member) {
      var cleaned := CleanupStep(k, member, fault).0;
      MarkExitTable(cleaned, member, Cancelled(GROUP_RESTART));
      MarkedIsStopped(cleaned.table, StopMember(k, id, member, fault).0.table, member);
    }
  }

  /** The state after one successful restart, as far as the next ones see it. */
  ghost predicate Passed(k: State, k': State, member: Pid) {
    var p := k.table.nextPid;
    && (forall q {:trigger Live(k'.table, q)} | q < p :: Live(k'.table, q) <==> Live(k.table, q) && q != member)
    && (forall q {:trigger Dead(k'.table, q)} | q < p :: Dead(k'.table, q) <==> Dead(k.table, q) || q == member)
    && (member !in k.specs ==> k'.specs == k.specs && k'.identities == k.identities && k'.table.nextPid == p)
    && (member in k.specs ==>
          && Live(k'.table, p) && k'.specs == k.specs[p := k.specs[member]] && k'.table.nextPid == p + 1
          && k'.identities == Register(k.identities, k.specs[member].agent, p))
  }

  lemma NewProcessTable(t: ProcessTable, spec: SpawnSpec)
    requires TableOk(t)
    ensures var t' := NewProcess(t, spec);
      && Live(t', t.nextPid)
      && (forall q {:trigger Live(t', q)} | q < t.nextPid :: Live(t', q) <==> Live(t, q))
      && (forall q {:trigger Dead(t', q)} | q < t.nextPid :: Dead(t', q) <==> Dead(t, q))
  {
  }

  lemma ReplacesIff(k: State, id: Pid, member: Pid)
    requires TableOk(k.table) && id in k.progress && member in k.specs
    ensures var (k', ok) := Replace(k, id, member, NoFault);
      && (ok <==> MaySpawn(k, k.specs[member], NoFault))
      && (ok ==> && k'.table == NewProcess(k.table, k.specs[member]) && k'.specs == k.specs[k.table.nextPid := k.specs[member]]
                 && k'.identities == Register(k.identities, k.specs[member].agent, k.table.nextPid) && id in k'.progress)
  {
  }

  lemma MaySpawnAfterStop(k: State, t: ProcessTable, spec: SpawnSpec, ids: seq<Pid>, j: nat)
    requires j < |ids| && Stopped(k.table, t, ids[j])
    ensures MaySpawn(k.(table := t), spec, NoFault) <==> MayReplace(k, spec, ids, j, j)
  {
    assert forall p :: StoppedIn(ids, j, j, p) <==> p == ids[j];
  }

  lemma PassedAfterSpawn(k: State, s: State, k': State, member: Pid)
    requires TableOk(s.table) && Stopped(k.table, s.table, member) && s.specs == k.specs && s.identities == k.identities
    requires member in k.specs && k'.table == NewProcess(s.table, k.specs[member])
    requires k'.specs == k.specs[k.table.nextPid := k.specs[member]]
    requires k'.identities == Register(k.identities, k.specs[member].agent, k.table.nextPid)
    ensures Passed(k, k', member)
  {
    NewProcessTable(s.table, k.specs[member]);
  }

  lemma MaySpawnReads(k: State, k': State, spec: SpawnSpec)
    requires k'.table == k.table && k'.identities == k.identities
    ensures MaySpawn(k, spec, NoFault) == MaySpawn(k', spec, NoFault)
  {
  }

  /** One restart goes through exactly when its member is ready. */
  lemma RestartOnePassesIff(k: State, id: Pid, ids: seq<Pid>, j: nat, f: Faults)
    requires FaultFree(f) && TableOk(k.table) && Dead(k.table, id) && id in k.progress && j < |ids|
    ensures var (k', ok) := RestartOne(k, id, ids[j], j, f);
      && (ok <==> Ready(k, ids, j, j))
      && (ok ==> Passed(k, k', ids[j]) && id in k'.progress)
  {
    var m := ids[j];
    StopsIff(k, id, m, f.cleanup(j + 1));
    StopNames(k, id, m, f.cleanup(j + 1));
    var s := StopMember(k, id, m, f.cleanup(j + 1)).0;
    if m in k.table.procs && m in k.specs {
      assert f.spawn(j) == NoFault;
      ReplacesIff(s, id, m);
      MaySpawnAfterStop(k, s.table, k.specs[m], ids, j);
      MaySpawnReads(s, k.(table := s.table), k.specs[m]);
      if Replace(s, id, m, NoFault).1 { PassedAfterSpawn(k, s, Replace(s, id, m, NoFault).0, m); }
    }
  }

  // ------------------------------------------------------------- the loop

  lemma StoppedInShifts(ids: seq<Pid>, j: nat, i: nat, p: Pid)
    requires j < i < |ids|
    ensures StoppedIn(ids, j, i, p) <==> p == ids[j] || StoppedIn(ids, j + 1, i, p)
  {
  }

  lemma AgentShifts(k: State, k': State, spec: SpawnSpec, ids: seq<Pid>, j: nat, i: nat)
    requires j < i < |ids| && Named(k) && Passed(k, k', ids[j]) && Minted(k.table, ids)
    requires ids[j] in k.specs ==> k.specs[ids[j]].agent != spec.agent
    ensures (spec.agent in k.identities.byAgent ==>
               var p := k.identities.byAgent[spec.agent].process; Dead(k.table, p) || StoppedIn(ids, j, i, p))
       <==> (spec.agent in k'.identities.byAgent ==>
               var p := k'.identities.byAgent[spec.agent].process; Dead(k'.table, p) || StoppedIn(ids, j + 1, i, p))
  {
    if spec.agent in k.identities.byAgent {
      StoppedInShifts(ids, j, i, k.identities.byAgent[spec.agent].process);
    }
  }

  lemma ReplacedAgentBlocks(k: State, k': State, spec: SpawnSpec, ids: seq<Pid>, j: nat, i: nat)
    requires j < i < |ids| && Passed(k, k', ids[j]) && Minted(k.table, ids)
    requires ids[j] in k.specs && k.specs[ids[j]].agent == spec.agent
    ensures !MayReplace(k, spec, ids, j, i) && !MayReplace(k', spec, ids, j + 1, i)
  {
    assert k'.identities.byAgent[spec.agent].process == k.table.nextPid;
    assert Live(k'.table, k.table.nextPid);
  }

  lemma OthersShift(k: State, k': State, spec: SpawnSpec, ids: seq<Pid>, j: nat, i: nat)
    requires j < i < |ids| && Passed(k, k', ids[j]) && Minted(k.table, ids)
    requires ids[j] in k.specs ==> k.specs[ids[j]].agent != spec.agent
    ensures (forall n | j <= n < i :: ids[n] in k.specs ==> k.specs[ids[n]].agent != spec.agent)
       <==> (forall n | j + 1 <= n < i :: ids[n] in k'.specs ==> k'.specs[ids[n]].agent != spec.agent)
  {
  }

  lemma ParentShifts(k: State, k': State, parent: Pid, ids: seq<Pid>, j: nat, i: nat)
    requires j < i < |ids| && Passed(k, k', ids[j]) && parent < k.table.nextPid
    ensures (Live(k.table, parent) && !StoppedIn(ids, j, i, parent))
       <==> (Live(k'.table, parent) && !StoppedIn(ids, j + 1, i, parent))
  {
    StoppedInShifts(ids, j, i, parent);
  }

  lemma MayReplaceShifts(k: State, k': State, spec: SpawnSpec, ids: seq<Pid>, j: nat, i: nat)
    requires j < i < |ids| && Named(k) && Passed(k, k', ids[j]) && Minted(k.table, ids)
    requires spec.parent.Some? ==> spec.parent.value < k.table.nextPid
    ensures MayReplace(k, spec, ids, j, i) <==> MayReplace(k', spec, ids, j + 1, i)
  {
    if ids[j] in k.specs && k.specs[ids[j]].agent == spec.agent {
      ReplacedAgentBlocks(k, k', spec, ids, j, i);
    } else {
      AgentShifts(k, k', spec, ids, j, i);
      OthersShift(k, k', spec, ids, j, i);
      if spec.parent.Some? { ParentShifts(k, k', spec.parent.value, ids, j, i); }
    }
  }

  lemma ReadyShifts(k: State, k': State, ids: seq<Pid>, j: nat, i: nat)
    requires j < i < |ids| && Named(k) && Passed(k, k', ids[j]) && Minted(k.table, ids) && ids[j] in k.table.procs
    ensures Ready(k, ids, j, i) <==> Ready(k', ids, j + 1, i)
  {
    var m := ids[i];
    assert m < k.table.nextPid;
    assert m in k.table.procs <==> Live(k.table, m) || Dead(k.table, m);
    assert m in k'.table.procs <==> Live(k'.table, m) || Dead(k'.table, m);
    if m in k.specs { MayReplaceShifts(k, k', k.specs[m], ids, j, i); }
  }

  predicate AllReady(k: State, ids: seq<Pid>, j: nat) {
    forall i {:trigger Ready(k, ids, j, i)} | j <= i < |ids| :: Ready(k, ids, j, i)
  }

  lemma AllReadyShifts(k: State, k': State, ids: seq<Pid>, j: nat)
    requires j < |ids| && Named(k) && Passed(k, k', ids[j]) && Minted(k.table, ids) && Ready(k, ids, j, j)
    ensures AllReady(k, ids, j) <==> AllReady(k', ids, j + 1)
  {
    var next := j + 1;
    if AllReady(k, ids, j) {
      forall i | next <= i < |ids| ensures Ready(k', ids, next, i) {
        assert Ready(k, ids, j, i);
        ReadyShifts(k, k', ids, j, i);
      }
    }
    if AllReady(k', ids, j + 1) {
      forall i | j <= i < |ids| ensures Ready(k, ids, j, i) {
        if i > j {
          assert Ready(k', ids, j + 1, i);
          ReadyShifts(k, k', ids, j, i);
        }
      }
    }
  }

  /** The restart loop goes through exactly when every member is ready, before it starts. */
  lemma {:induction false} RestartsPassIff(k: State, id: Pid, ids: seq<Pid>, j: nat, f: Faults)
    requires FaultFree(f) && Named(k) && Dead(k.table, id) && id in k.progress && Minted(k.table, ids) && j <= |ids|
    ensures RestartFrom(k, id, ids, j, f).1 <==> AllReady(k, ids, j)
    decreases |ids| - j
  {
    if j < |ids| {
      RestartOnePassesIff(k, id, ids, j, f);
      if Ready(k, ids, j, j) {
        var k1 := RestartOne(k, id, ids[j], j, f).0;
        RestartOneKeepsNamed(k, id, ids[j], j, f);
        AllReadyShifts(k, k1, ids, j);
        RestartsPassIff(k1, id, ids, j + 1, f);
      }
    }
  }

  lemma RestartingPublishesIff(k: State, id: Pid, f: Faults)
    requires Inv(k) && Named(k) && FaultFree(f) && id in k.progress && k.progress[id].phase.Restarting?
    requires Minted(k.table, k.progress[id].restartIds)
    ensures var ids, j := k.progress[id].restartIds, |k.progress[id].restarted|;
            var restarts := RestartFrom(k, id, ids, j, f);
      && (restarts.1 <==> AllReady(k, ids, j))
      && (restarts.1 ==> Finish(restarts.0, id).1.Some?)
  {
    var ids, j := k.progress[id].restartIds, |k.progress[id].restarted|;
    assert ProgressOk(k.table, k.operations, k.history, id, k.progress[id]);
    RestartsPassIff(k, id, ids, j, f);
    if RestartFrom(k, id, ids, j, f).1 { RestartedFinishes(k, id, f); }
  }

  lemma RestartedFinishes(k: State, id: Pid, f: Faults)
    requires Inv(k) && id in k.progress && k.progress[id].phase.Restarting?
    requires RestartFrom(k, id, k.progress[id].restartIds, |k.progress[id].restarted|, f).1
    ensures Finish(RestartFrom(k, id, k.progress[id].restartIds, |k.progress[id].restarted|, f).0, id).1.Some?
  {
    assert ProgressOk(k.table, k.operations, k.history, id, k.progress[id]);
    RestartFromKeepsInv(k, id, k.progress[id].restartIds, |k.progress[id].restarted|, f);
  }

  // ------------------------------------------------------- the phases before

  /** Before the restarts only the terminating process itself changes in the table. */
  ghost predicate PhasesMove(k: State, k': State, id: Pid) {
    && k'.specs == k.specs && k'.identities == k.identities && k'.table.nextPid == k.table.nextPid
    && (forall p {:trigger Live(k'.table, p)} | p != id :: Live(k'.table, p) <==> Live(k.table, p))
    && (forall p {:trigger Dead(k'.table, p)} | p != id :: Dead(k'.table, p) <==> Dead(k.table, p))
  }

  lemma MarkMoves(k: State, id: Pid, reason: ExitReason)
    ensures var k' := MarkExit(k, id, reason).0; PhasesMove(k, k', id) && k'.supervisor == k.supervisor
  {
    if Live(k.table, id) { MarkExitTable(k, id, reason); }
  }

  /** The phase before the supervisor's record keeps the reason and the supervisor. */
  lemma EarlyPhaseMoves(k: State, id: Pid, f: Faults)
    requires id in k.progress && (k.progress[id].phase.Cleanup? || k.progress[id].phase.MarkTerminal?)
    ensures var k' := PhaseStep(k, id, f).0;
      && PhasesMove(k, k', id) && k'.supervisor == k.supervisor
      && id in k'.progress && k'.progress[id].reason == k.progress[id].reason && k'.progress[id].restarted == k.progress[id].restarted
      && !k'.progress[id].phase.Restarting?
  {
    if k.progress[id].phase.MarkTerminal? { MarkMoves(k, id, k.progress[id].reason); }
  }

  /** The supervisor's answer to the exit of this process, as it stands. */
  function Answer(k: State, id: Pid, reason: ExitReason): seq<Pid> {
    RestartIds(id, RecordExit(k.supervisor, id, reason).1)
  }

  lemma {:induction false} AdvancePlans(k: State, id: Pid, f: Faults)
    requires id in k.progress && !k.progress[id].phase.Restarting? && Advance(k, id, f).1
    ensures var k' := Advance(k, id, f).0;
      && PhasesMove(k, k', id) && k'.progress[id].restartIds == Answer(k, id, k.progress[id].reason)
      && k'.progress[id].restarted == k.progress[id].restarted
      && k'.supervisor == RecordExit(k.supervisor, id, k.progress[id].reason).0
    decreases 3 - PhaseRank(k.progress[id].phase)
  {
    var k1 := PhaseStep(k, id, f).0;
    if !k.progress[id].phase.Supervise? {
      EarlyPhaseMoves(k, id, f);
      AdvancePlans(k1, id, f);
    }
  }

  lemma ReadyBeforeStop(k: State, k': State, id: Pid, ids: seq<Pid>, i: nat)
    requires PhasesMove(k, k', id) && id in k.table.procs && Dead(k'.table, id) && i < |ids| && ids[0] == id
    ensures Ready(k, ids, 0, i) <==> Ready(k', ids, 0, i)
  {
    assert StoppedIn(ids, 0, i, id);
    var m := ids[i];
    assert m in k.table.procs <==> Live(k.table, m) || Dead(k.table, m);
    assert m in k'.table.procs <==> Live(k'.table, m) || Dead(k'.table, m);
    if m in k.specs && k.specs[m].parent.Some? {
      assert k.specs[m].parent.value == id ==> StoppedIn(ids, 0, i, k.specs[m].parent.value);
    }
  }

  lemma AllReadyBeforeStop(k: State, k': State, id: Pid, ids: seq<Pid>)
    requires PhasesMove(k, k', id) && id in k.table.procs && Dead(k'.table, id) && (ids == [] || ids[0] == id)
    ensures AllReady(k, ids, 0) <==> AllReady(k', ids, 0)
  {
    forall i: nat | i < |ids| ensures Ready(k, ids, 0, i) <==> Ready(k', ids, 0, i) {
      ReadyBeforeStop(k, k', id, ids, i);
    }
    assert AllReady(k, ids, 0) <==> forall i: nat {:trigger Ready(k, ids, 0, i)} | i < |ids| :: Ready(k, ids, 0, i);
    assert AllReady(k', ids, 0) <==> forall i: nat {:trigger Ready(k', ids, 0, i)} | i < |ids| :: Ready(k', ids, 0, i);
  }

  // ------------------------------------------------------------- the theorem

  /** What a call will restart: what the termination in progress has settled on, or else what the
      supervisor answers to the reason of the first call. */
  function ToRestart(k: State, id: Pid, reason: ExitReason): seq<Pid> {
    if id !in k.progress then Answer(k, id, reason)
    else if k.progress[id].phase.Restarting? then k.progress[id].restartIds
    else Answer(k, id, k.progress[id].reason)
  }

  lemma DeadAtRestarts(k: State, id: Pid)
    requires Inv(k) && id in k.progress && k.progress[id].phase.Restarting?
    ensures Dead(k.table, id)
  {
    assert ProgressOk(k.table, k.operations, k.history, id, k.progress[id]);
  }

  lemma NothingMadeYet(k: State, id: Pid, reason: ExitReason)
    requires Inv(k) && AtRest(k) && !BeginTermination(k, id, reason).progress[id].phase.Restarting?
    ensures MadeBefore(k, id) == BeginTermination(k, id, reason).progress[id].restarted == []
  {
    if id in k.progress { assert ProgressOk(k.table, k.operations, k.history, id, k.progress[id]); }
  }

  /** From the first phase the loop settles on the supervisor's answer, and whether all is ready
      does not change on the way. */
  lemma FreshPlan(k: State, id: Pid, f: Faults)
    requires id in k.progress && !k.progress[id].phase.Restarting? && k.progress[id].restarted == []
    requires Advance(k, id, f).1 && id in k.table.procs && Dead(Advance(k, id, f).0.table, id)
    ensures var k1 := Advance(k, id, f).0;
            var ids := Answer(k, id, k.progress[id].reason);
      && k1.progress[id].restartIds == ids && k1.progress[id].restarted == [] && k1.table.nextPid == k.table.nextPid
      && (AllReady(k1, ids, 0) <==> AllReady(k, ids, 0))
  {
    AdvancePlans(k, id, f);
    AllReadyBeforeStop(k, Advance(k, id, f).0, id, Answer(k, id, k.progress[id].reason));
  }

  lemma ReadyReads(k: State, k': State, ids: seq<Pid>, j: nat)
    requires k'.table == k.table && k'.specs == k.specs && k'.identities == k.identities
    ensures AllReady(k, ids, j) <==> AllReady(k', ids, j)
  {
    forall i: nat | j <= i < |ids| ensures Ready(k, ids, j, i) <==> Ready(k', ids, j, i) {
    }
    assert AllReady(k, ids, j) <==> forall i: nat {:trigger Ready(k, ids, j, i)} | j <= i < |ids| :: Ready(k, ids, j, i);
    assert AllReady(k', ids, j) <==> forall i: nat {:trigger Ready(k', ids, j, i)} | j <= i < |ids| :: Ready(k', ids, j, i);
  }

  /** What the phases leave to the restarts is what the state before the call says. */
  predicate PlanKept(k: State, k': State, id: Pid, reason: ExitReason) {
    var ids, made := ToRestart(k, id, reason), MadeBefore(k, id);
    && id in k'.progress && k'.progress[id].restartIds == ids && k'.progress[id].restarted == made
    && k'.table.nextPid == k.table.nextPid
    && (AllReady(k', ids, |made|) <==> AllReady(k, ids, |made|))
  }

  lemma FreshPlanIsKept(k: State, id: Pid, reason: ExitReason, f: Faults)
    requires !BeginTermination(k, id, reason).progress[id].phase.Restarting? && id in k.table.procs
    requires MadeBefore(k, id) == BeginTermination(k, id, reason).progress[id].restarted == []
    requires Advance(BeginTermination(k, id, reason), id, f).1
    requires Dead(Advance(BeginTermination(k, id, reason), id, f).0.table, id)
    ensures PlanKept(k, Advance(BeginTermination(k, id, reason), id, f).0, id, reason)
  {
    var k0 := BeginTermination(k, id, reason);
    FreshPlan(k0, id, f);
    ReadyReads(k, k0, ToRestart(k, id, reason), 0);
  }

  lemma PlanIsKept(k: State, id: Pid, reason: ExitReason, f: Faults)
    requires Inv(k) && AtRest(k) && id in k.table.procs && Advance(BeginTermination(k, id, reason), id, f).1
    requires Inv(Advance(BeginTermination(k, id, reason), id, f).0)
    ensures PlanKept(k, Advance(BeginTermination(k, id, reason), id, f).0, id, reason)
  {
    if !BeginTermination(k, id, reason).progress[id].phase.Restarting? {
      DeadAtRestarts(Advance(BeginTermination(k, id, reason), id, f).0, id);
      NothingMadeYet(k, id, reason);
      FreshPlanIsKept(k, id, reason, f);
    }
  }

  /** The call publishes exactly when its restarts go through. */
  lemma PublishesIfRestarted(k: State, id: Pid, reason: ExitReason, f: Faults, k1: State)
    requires id !in k.outcomes && Advance(BeginTermination(k, id, reason), id, f) == (k1, true)
    requires var restarts := RestartFrom(k1, id, k1.progress[id].restartIds, |k1.progress[id].restarted|, f);
      restarts.1 ==> Finish(restarts.0, id).1.Some?
    ensures TerminateStep(k, id, reason, f).1.Some?
      <==> RestartFrom(k1, id, k1.progress[id].restartIds, |k1.progress[id].restarted|, f).1
  {
  }

  /** A call in which nothing fails publishes an outcome exactly when every process it has still to
      restart is known, by its turn its agent has no live process, and its parent is live. All is
      read off the state before the call. */
  lemma TerminationPublishesIff(k: State, id: Pid, reason: ExitReason, f: Faults)
    requires Inv(k) && AtRest(k) && Named(k) && FaultFree(f) && id in k.table.procs && id !in k.outcomes
    requires Minted(k.table, ToRestart(k, id, reason))
    ensures TerminateStep(k, id, reason, f).1.Some? <==> AllReady(k, ToRestart(k, id, reason), |MadeBefore(k, id)|)
  {
    var k1 := Reached(k, id, reason, f);
    RestartingPublishesIff(k1, id, f);
    PublishesIfRestarted(k, id, reason, f, k1);
  }

  lemma Reached(k: State, id: Pid, reason: ExitReason, f: Faults) returns (k1: State)
    requires Inv(k) && AtRest(k) && Named(k) && FaultFree(f) && id in k.table.procs && id !in k.outcomes
    ensures Advance(BeginTermination(k, id, reason), id, f) == (k1, true)
    ensures Inv(k1) && Named(k1) && PlanKept(k, k1, id, reason) && k1.progress[id].phase.Restarting?
  {
    var k0 := BeginTermination(k, id, reason);
    BeginKeepsInv(k, id, reason);
    AdvancePasses(k0, id, f);
    ReachKeepsInv(k, id, reason, f);
    ReachKeepsNamed(k, id, reason, f);
    k1 := Advance(k0, id, f).0;
    PlanIsKept(k, id, reason, f);
  }

  /** In every run from a fresh kernel. Process ids are issued by the kernel, so groups name
      processes that were spawned. */
  lemma EveryRunPublishesIff(
      groups: map<string, Group>, groupOf: map<Pid, string>, calls: seq<Call>, id: Pid, reason: ExitReason, f: Faults)
    requires FaultFree(f)
    requires var k := Run(Boot(groups, groupOf), calls);
      id in k.table.procs && id !in k.outcomes && Minted(k.table, ToRestart(k, id, reason))
    ensures var k := Run(Boot(groups, groupOf), calls);
      TerminateStep(k, id, reason, f).1.Some? <==> AllReady(k, ToRestart(k, id, reason), |MadeBefore(k, id)|)
  {
    BootInv(groups, groupOf);
    RunKeepsInv(Boot(groups, groupOf), calls);
    RunKeepsNamed(Boot(groups, groupOf), calls);
    TerminationPublishesIff(Run(Boot(groups, groupOf), calls), id, reason, f);
  }

  // ------------------------------------------------ a replacement for each

  lemma PublishedPlan(k: State, id: Pid, reason: ExitReason, f: Faults, k1: State)
    requires Advance(BeginTermination(k, id, reason), id, f) == (k1, true)
    ensures k1.progress[id].restartIds == ToRestart(k, id, reason)
  {
    var k0 := BeginTermination(k, id, reason);
    if !k0.progress[id].phase.Restarting? { AdvancePlans(k0, id, f); }
  }

  lemma NoLineageOfOrphans(k: State, p: Pid)
    requires Inv(k) && p in k.history.lineage
    ensures k.history.lineage[p] !in k.history.orphans
  {
  }

  /** The replacements made so far stand for the first processes to restart exactly when none of
      those was an orphan. */
  lemma MadeIffNoOrphan(k: State, id: Pid)
    requires Inv(k) && id in k.progress && k.progress[id].phase.Restarting?
    ensures var ids, made := k.progress[id].restartIds, k.progress[id].restarted;
      Matched(k.history.lineage, made, ids) <==> NoOrphan(ids, |made|, k.history.orphans)
  {
    var ids, made := k.progress[id].restartIds, k.progress[id].restarted;
    assert ProgressOk(k.table, k.operations, k.history, id, k.progress[id]);
    if Matched(k.history.lineage, made, ids) {
      forall i | 0 <= i < |ids| && i < |made| ensures ids[i] !in k.history.orphans {
        NoLineageOfOrphans(k, made[i]);
      }
    }
  }

  /** A process that is still in the table is an orphan exactly when it has no spawn spec. */
  lemma OrphanIffNoSpec(k: State, p: Pid)
    requires Inv(k) && p in k.table.procs
    ensures p in k.history.orphans <==> p !in k.specs
  {
    assert p in k.identities.byProcess ==> RegOk(k.table, k.identities, k.specs, p);
  }

  /** The first `n` ids are still in the table. */
  predicate StillKnown(t: ProcessTable, ids: seq<Pid>, n: nat) {
    forall i | 0 <= i < |ids| && i < n :: ids[i] in t.procs
  }

  lemma SpecsTell(k: State, id: Pid, reason: ExitReason)
    requires Inv(k) && AtRest(k)
    requires var ids, made := ToRestart(k, id, reason), MadeBefore(k, id); StillKnown(k.table, ids, |made|)
    ensures var ids, made := ToRestart(k, id, reason), MadeBefore(k, id);
      Matched(k.history.lineage, made, ids) && Retained(k.specs, ids, |made|) <==> Retained(k.specs, ids, 0)
  {
    var ids, made := ToRestart(k, id, reason), MadeBefore(k, id);
    if id in k.progress {
      assert ProgressOk(k.table, k.operations, k.history, id, k.progress[id]);
      if k.progress[id].phase.Restarting? {
        MadeIffNoOrphan(k, id);
        forall i | 0 <= i < |made| ensures ids[i] in k.history.orphans <==> ids[i] !in k.specs {
          OrphanIffNoSpec(k, ids[i]);
        }
      }
    }
  }

  /** The call that publishes an outcome has a replacement for every process it had to restart, in
      order, exactly when each one still to restart has its spawn spec in the table, and the
      replacements made before the call stand for the first ones. As long as those are still in the
      table, that is exactly when every process to restart has its spawn spec. */
  lemma ReplacementsMatchIff(k: State, id: Pid, reason: ExitReason, f: Faults)
    requires Inv(k) && AtRest(k) && Named(k) && id !in k.outcomes && TerminateStep(k, id, reason, f).1.Some?
    requires Minted(k.table, ToRestart(k, id, reason))
    ensures var (k', r) := TerminateStep(k, id, reason, f);
            var ids, made := ToRestart(k, id, reason), MadeBefore(k, id);
      && RestartIds(id, r.value.decision) == ids
      && ((|r.value.restarted| == |ids| && Matched(k'.history.lineage, r.value.restarted, ids)) <==>
            (Matched(k.history.lineage, made, ids) && Retained(k.specs, ids, |made|)))
      && (StillKnown(k.table, ids, |made|) ==>
            ((|r.value.restarted| == |ids| && Matched(k'.history.lineage, r.value.restarted, ids)) <==> Retained(k.specs, ids, 0)))
  {
    if StillKnown(k.table, ToRestart(k, id, reason), |MadeBefore(k, id)|) { SpecsTell(k, id, reason); }
    var k1 := ReachesRestarts(k, id, reason, f);
    PublishedPlan(k, id, reason, f, k1);
    MadeIsIssued(k, id);
    RestartsMatchIff(k1, id, f);
  }

  lemma MadeIsIssued(k: State, id: Pid)
    requires Named(k)
    ensures AllBelow(MadeBefore(k, id), k.table.nextPid)
  {
  }

  lemma RestartsMatchIff(k: State, id: Pid, f: Faults)
    requires Inv(k) && id in k.progress && LoopAt(k, id, k.progress[id].restartIds, |k.progress[id].restarted|)
    requires Minted(k.table, k.progress[id].restartIds) && AllBelow(k.progress[id].restarted, k.table.nextPid)
    requires RestartFrom(k, id, k.progress[id].restartIds, |k.progress[id].restarted|, f).1
    ensures var ids, made := k.progress[id].restartIds, k.progress[id].restarted;
            var (k', r) := Finish(RestartFrom(k, id, ids, |made|, f).0, id);
      && r.Some? && RestartIds(id, r.value.decision) == ids
      && ((|r.value.restarted| == |ids| && Matched(k'.history.lineage, r.value.restarted, ids)) <==>
            (Matched(k.history.lineage, made, ids) && Retained(k.specs, ids, |made|)))
  {
    var ids, made := k.progress[id].restartIds, k.progress[id].restarted;
    var done := RestartFrom(k, id, ids, |made|, f).0;
    PublishesDecision(k, id, f);
    RestartFromAdds(k, id, ids, |made|, f);
    AddedMatchIff(k, done, id, ids);
    MadeMatchIff(k, done, id, ids);
  }

  // ---------------------------------------------------- a restart that sticks

  const PARENT := SpawnSpec(1, None)

  const CHILD := SpawnSpec(2, Some(0))

  const NO_FAULTS := Faults(i => None, i => NoFault)

  /** A process and its child, which may be restarted once; then the parent completes. */
  const FAMILY := [Spawn(PARENT, NoFault), Spawn(CHILD, NoFault), SetPolicy(1, RestartOnFailure(1)), Terminate(0, Completed, NO_FAULTS)]

  predicate Family(k: State) {
    && k.table.nextPid == 2 && Live(k.table, 0) && Live(k.table, 1)
    && k.specs == map[0 := PARENT, 1 := CHILD] && k.progress == map[] && k.outcomes == map[]
    && k.supervisor == Supervisor(map[1 := RestartOnFailure(1)], map[], map[], map[])
  }

  lemma FamilyIsUp()
    ensures Family(Run(Boot(map[], map[]), FAMILY[..3]))
  {
    var k0 := Boot(map[], map[]);
    var k1 := SpawnStep(k0, PARENT, NoFault).0;
    var k2 := SpawnStep(k1, CHILD, NoFault).0;
    var k3 := Step(k2, FAMILY[2]);
    var calls := FAMILY[..3];
    assert calls[1..][1..] == [FAMILY[2]] && calls[1..][1..][1..] == [];
    assert Run(k0, calls) == Run(k1, calls[1..]) == Run(k2, calls[1..][1..]) == Run(k3, []) == k3;
    assert Live(k1.table, 0) && Live(k2.table, 0) && Live(k2.table, 1);
  }

  /** What a termination that is no failure leaves: its process is terminal, all else stands. */
  ghost predicate Ended(k: State, k': State, id: Pid) {
    && PhasesMove(k, k', id) && Dead(k'.table, id) && k'.supervisor == k.supervisor
    && k'.progress.Keys == {} && k'.outcomes.Keys == k.outcomes.Keys + {id}
  }

  lemma PublishEnds(k: State, k1: State, id: Pid)
    requires PhasesMove(k, k1, id) && Dead(k1.table, id) && k1.supervisor == k.supervisor
    requires k1.progress.Keys == {id} && k1.outcomes == k.outcomes && Finish(k1, id).1.Some?
    ensures Ended(k, Finish(k1, id).0, id)
  {
  }

  lemma QuietReach(k: State, id: Pid, f: Faults) returns (k1: State)
    requires Inv(k) && AtRest(k) && id in k.table.procs && id !in k.outcomes && k.progress == map[] && f.cleanup(0).None?
    ensures Advance(BeginTermination(k, id, Completed), id, f) == (k1, true)
    ensures Inv(k1) && id in k1.progress && k1.progress[id].phase.Restarting? && k1.progress[id].reason == Completed
  {
    BeginKeepsInv(k, id, Completed);
    AdvancePasses(BeginTermination(k, id, Completed), id, f);
    ReachKeepsInv(k, id, Completed, f);
    k1 := Advance(BeginTermination(k, id, Completed), id, f).0;
  }

  lemma QuietEnd(k: State, id: Pid, f: Faults)
    requires Inv(k) && AtRest(k) && id in k.table.procs && id !in k.outcomes && k.progress == map[] && f.cleanup(0).None?
    ensures Ended(k, TerminateStep(k, id, Completed, f).0, id)
  {
    var k1 := QuietReach(k, id, f);
    QuietPhases(k, id, f, k1);
    DeadAtRestarts(k1, id);
    NothingToRestart(k1, id, f);
    PublishEnds(k, k1, id);
  }

  lemma QuietPhases(k: State, id: Pid, f: Faults, k1: State)
    requires k.progress == map[] && Advance(BeginTermination(k, id, Completed), id, f) == (k1, true)
    ensures PhasesMove(k, k1, id) && k1.supervisor == k.supervisor && k1.progress.Keys == {id} && k1.outcomes == k.outcomes
  {
    var k0 := BeginTermination(k, id, Completed);
    AdvancePlans(k0, id, f);
    AdvanceKeepsOthers(k0, id, f);
  }

  lemma {:induction false} AdvanceKeepsOthers(k: State, id: Pid, f: Faults)
    requires id in k.progress
    ensures var k' := Advance(k, id, f).0; k'.progress.Keys == k.progress.Keys && k'.outcomes == k.outcomes
    decreases 3 - PhaseRank(k.progress[id].phase)
  {
    if !k.progress[id].phase.Restarting? {
      PhaseKeepsOthers(k, id, f);
      if PhaseStep(k, id, f).1 { AdvanceKeepsOthers(PhaseStep(k, id, f).0, id, f); }
    }
  }

  lemma PhaseKeepsOthers(k: State, id: Pid, f: Faults)
    requires id in k.progress && !k.progress[id].phase.Restarting?
    ensures var k' := PhaseStep(k, id, f).0; k'.progress.Keys == k.progress.Keys && k'.outcomes == k.outcomes
  {
    if k.progress[id].phase.Cleanup? { CleanupFrame(k, id, f.cleanup(0)); }
  }

  /** The parent is terminal, the child live and restartable. */
  predicate Orphaned(k: State) {
    && Dead(k.table, 0) && Live(k.table, 1) && 1 in k.specs && k.specs[1] == CHILD && 1 !in k.progress && 1 !in k.outcomes
    && k.supervisor == Supervisor(map[1 := RestartOnFailure(1)], map[], map[], map[])
  }

  lemma ParentEnds(k: State)
    requires Inv(k) && AtRest(k) && Family(k)
    ensures Orphaned(TerminateStep(k, 0, Completed, NO_FAULTS).0)
  {
    QuietEnd(k, 0, NO_FAULTS);
  }

  lemma ChildIsStuck(k: State, reason: ExitReason, f: Faults)
    requires Inv(k) && AtRest(k) && Named(k) && FaultFree(f) && IsFailureExit(reason) && Orphaned(k)
    ensures TerminateStep(k, 1, reason, f).1.None?
  {
    assert ToRestart(k, 1, reason) == [1];
    assert !Ready(k, [1], 0, 0);
    TerminationPublishesIff(k, 1, reason, f);
  }

  lemma OrphanedAfter(calls: seq<Call>, last: Call)
    requires Family(Run(Boot(map[], map[]), calls)) && last == Terminate(0, Completed, NO_FAULTS)
    ensures var k := Run(Boot(map[], map[]), calls + [last]); Inv(k) && AtRest(k) && Named(k) && Orphaned(k)
  {
    var k0 := Boot(map[], map[]);
    BootInv(map[], map[]);
    RunKeepsInv(k0, calls);
    ParentEnds(Run(k0, calls));
    RunLast(k0, calls, last);
    RunKeepsInv(k0, calls + [last]);
    RunKeepsNamed(k0, calls + [last]);
  }

  /** Then the child fails: its restart is due, but even a call in which nothing else fails does not
      complete, since the parent is terminal. */
  lemma RestartSticks(reason: ExitReason, f: Faults)
    requires IsFailureExit(reason) && FaultFree(f)
    ensures TerminateStep(Run(Boot(map[], map[]), FAMILY), 1, reason, f).1.None?
  {
    FamilyIsUp();
    OrphanedAfter(FAMILY[..3], FAMILY[3]);
    assert FAMILY == FAMILY[..3] + [FAMILY[3]];
    ChildIsStuck(Run(Boot(map[], map[]), FAMILY), reason, f);
  }

  lemma {:induction false} RunLast(k: State, calls: seq<Call>, last: Call)
    ensures Run(k, calls + [last]) == Step(Run(k, calls), last)
    decreases |calls|
  {
    if calls == [] {
      assert calls + [last] == [last] && [last][1..] == [];
    } else {
      assert (calls + [last])[1..] == calls[1..] + [last];
      RunLast(Step(k, calls[0]), calls[1..], last);
    }
  }
}
