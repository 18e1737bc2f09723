/** Replacements: which restarted processes get one, and what a refused budget costs. */
module KernelReplacements {
  import opened Text
  import opened Kernel
  import opened KernelInvariant
  import opened KernelTermination
  import opened KernelRuns

  // ------------------------------------------------------------------ frames

  /** What neither the phases nor stopping a member touches. */
  predicate SameRegistration(k: State, k': State) {
    && k'.specs == k.specs && k'.identities == k.identities && k'.table.nextPid == k.table.nextPid
    && k'.history.orphans == k.history.orphans && k'.history.lineage == k.history.lineage
  }

  lemma CleanupPhaseFrame(k: State, id: Pid, fault: Option<set<OpId>>)
    requires id in k.progress
    ensures var k' := CleanupPhase(k, id, fault).0;
      SameRegistration(k, k') && id in k'.progress && k'.progress[id].restarted == k.progress[id].restarted
  {
    CleanupFrame(k, id, fault);
  }

  lemma MarkPhaseFrame(k: State, id: Pid)
    requires id in k.progress
    ensures var k' := MarkPhase(k, id).0;
      SameRegistration(k, k') && id in k'.progress && k'.progress[id].restarted == k.progress[id].restarted
  {
  }

  lemma PhaseFrame(k: State, id: Pid, f: Faults)
    requires id in k.progress && !k.progress[id].phase.Restarting?
    ensures var k' := PhaseStep(k, id, f).0;
      SameRegistration(k, k') && k'.progress[id].restarted == k.progress[id].restarted
  {
    match k.progress[id].phase
    case Cleanup => CleanupPhaseFrame(k, id, f.cleanup(0));
    case MarkTerminal => MarkPhaseFrame(k, id);
    case Supervise =>
  }

  lemma {:induction false} AdvanceFrame(k: State, id: Pid, f: Faults)
    requires id in k.progress
    ensures SameRegistration(k, Advance(k, id, f).0)
    ensures Advance(k, id, f).0.progress[id].restarted == k.progress[id].restarted
    decreases 3 - PhaseRank(k.progress[id].phase)
  {
    if !k.progress[id].phase.Restarting? {
      PhaseFrame(k, id, f);
      var pass := PhaseStep(k, id, f);
      if pass.1 { AdvanceFrame(pass.0, id, f); }
    }
  }

  // --------------------------------------------------- no refused reservation

  lemma SpawnMakesNoOrphan(k: State, spec: SpawnSpec, fault: SpawnFault)
    requires !fault.BudgetFails?
    ensures SpawnStep(k, spec, fault).0.history.orphans == k.history.orphans
  {
  }

  lemma RestartOneMakesNoOrphan(k: State, id: Pid, member: Pid, j: nat, f: Faults)
    requires !f.spawn(j).BudgetFails?
    ensures RestartOne(k, id, member, j, f).0.history.orphans == k.history.orphans
  {
    StopMemberFrame(k, id, member, f.cleanup(j + 1));
    var stopped := StopMember(k, id, member, f.cleanup(j + 1)).0;
    if member in stopped.specs {
      SpawnMakesNoOrphan(stopped, stopped.specs[member], f.spawn(j));
    }
  }

  lemma {:induction false} RestartsMakeNoOrphan(k: State, id: Pid, ids: seq<Pid>, j: nat, f: Faults)
    requires forall i: nat :: !f.spawn(i).BudgetFails?
    ensures RestartFrom(k, id, ids, j, f).0.history.orphans == k.history.orphans
    decreases |ids| - j
  {
    if j < |ids| {
      RestartOneMakesNoOrphan(k, id, ids[j], j, f);
      var one := RestartOne(k, id, ids[j], j, f);
      if one.1 { RestartsMakeNoOrphan(one.0, id, ids, j + 1, f); }
    }
  }

  lemma TerminateMakesNoOrphan(k: State, id: Pid, reason: ExitReason, f: Faults)
    requires forall i: nat :: !f.spawn(i).BudgetFails?
    ensures TerminateStep(k, id, reason, f).0.history.orphans == k.history.orphans
  {
    if id !in k.outcomes {
      var k0 := BeginTermination(k, id, reason);
      AdvanceFrame(k0, id, f);
      var k1 := Advance(k0, id, f).0;
      RestartsMakeNoOrphan(k1, id, k1.progress[id].restartIds, |k1.progress[id].restarted|, f);
    }
  }

  /** No budget reservation of the call is refused, for a replacement neither. */
  ghost predicate Granted(call: Call) {
    match call
    case Spawn(_, fault) => !fault.BudgetFails?
    case Terminate(_, _, faults) => forall i: nat :: !faults.spawn(i).BudgetFails?
    case _ => true
  }

  lemma StepMakesNoOrphan(k: State, call: Call)
    requires Granted(call)
    ensures Step(k, call).history.orphans == k.history.orphans
  {
    match call
    case Spawn(spec, fault) => SpawnMakesNoOrphan(k, spec, fault);
    case Terminate(id, reason, faults) => TerminateMakesNoOrphan(k, id, reason, faults);
    case _ =>
  }

  lemma {:induction false} RunMakesNoOrphan(k: State, calls: seq<Call>)
    requires forall c | c in calls :: Granted(c)
    ensures Run(k, calls).history.orphans == k.history.orphans
    decreases |calls|
  {
    if calls != [] {
      StepMakesNoOrphan(k, calls[0]);
      RunMakesNoOrphan(Step(k, calls[0]), calls[1..]);
    }
  }

  /** In every run without a refused budget, replacements included, each agent has at most one
      live process. */
  lemma GrantedRunsKeepOneLive(groups: map<string, Group>, groupOf: map<Pid, string>, calls: seq<Call>, agent: AgentId)
    requires forall c | c in calls :: Granted(c)
    ensures AtMostOneLive(Run(Boot(groups, groupOf), calls), agent)
  {
    BootInv(groups, groupOf);
    RunKeepsInv(Boot(groups, groupOf), calls);
    RunMakesNoOrphan(Boot(groups, groupOf), calls);
    var k := Run(Boot(groups, groupOf), calls);
    forall p, q | Live(k.table, p) && Live(k.table, q) && k.table.procs[p].agent == k.table.procs[q].agent == agent ensures p == q {
      OneRegisteredLiveProcess(k, p, q);
    }
  }

  /** And every published outcome lists one replacement per restart id, in order. */
  lemma GrantedRunsReplaceAll(groups: map<string, Group>, groupOf: map<Pid, string>, calls: seq<Call>, id: Pid)
    requires forall c | c in calls :: Granted(c)
    requires id in Run(Boot(groups, groupOf), calls).outcomes
    ensures var k := Run(Boot(groups, groupOf), calls);
            var ids := RestartIds(id, k.outcomes[id].decision);
      |k.outcomes[id].restarted| == |ids| && Matched(k.history.lineage, k.outcomes[id].restarted, ids)
  {
    BootInv(groups, groupOf);
    RunKeepsInv(Boot(groups, groupOf), calls);
    RunMakesNoOrphan(Boot(groups, groupOf), calls);
    var k := Run(Boot(groups, groupOf), calls);
    assert OutcomeOk(k.table, k.history, id, k.outcomes[id]);
  }

  // -------------------------------------------------- retained spawn specs

  /** From index `j` on every restart id has its spawn spec. */
  predicate Retained(specs: map<Pid, SpawnSpec>, ids: seq<Pid>, j: nat) {
    forall i | j <= i < |ids| :: ids[i] in specs
  }

  /** `made` stands for `ids[j..j + |made|]`, one to one and in order. */
  predicate Stands(lineage: map<Pid, Pid>, made: seq<Pid>, ids: seq<Pid>, j: nat) {
    && j + |made| <= |ids|
    && forall i | 0 <= i < |made| :: made[i] in lineage && lineage[made[i]] == ids[j + i]
  }

  /** Every restart id is the id of a process that was spawned. */
  predicate Minted(t: ProcessTable, ids: seq<Pid>) {
    forall i | 0 <= i < |ids| :: ids[i] < t.nextPid
  }

  /** One restart that succeeds: a replacement exactly for a member with a spec. */
  predicate Restarted(k: State, k': State, id: Pid, member: Pid) {
    var p := k.table.nextPid;
    && id in k.progress && id in k'.progress
    && if member in k.specs then
         && k'.progress[id].restarted == k.progress[id].restarted + [p]
         && k'.history.lineage == k.history.lineage[p := member]
         && k'.specs == k.specs[p := k.specs[member]] && k'.table.nextPid == p + 1
       else
         && k'.progress[id].restarted == k.progress[id].restarted
         && k'.history.lineage == k.history.lineage && k'.specs == k.specs && k'.table.nextPid == p
  }

  lemma ReplaceRestarts(k: State, id: Pid, member: Pid, fault: SpawnFault)
    requires id in k.progress && Replace(k, id, member, fault).1
    ensures Restarted(k, Replace(k, id, member, fault).0, id, member)
  {
  }

  lemma RestartOneRestarts(k: State, id: Pid, member: Pid, j: nat, f: Faults)
    requires id in k.progress && RestartOne(k, id, member, j, f).1
    ensures Restarted(k, RestartOne(k, id, member, j, f).0, id, member)
  {
    StopMemberFrame(k, id, member, f.cleanup(j + 1));
    ReplaceRestarts(StopMember(k, id, member, f.cleanup(j + 1)).0, id, member, f.spawn(j));
  }

  /** What the restart loop adds to `made`: one replacement per retained spec, in order. */
  predicate Added(k: State, k': State, id: Pid, ids: seq<Pid>, j: nat) {
    && id in k.progress && id in k'.progress && j <= |ids|
    && (var made, all := k.progress[id].restarted, k'.progress[id].restarted;
        && made <= all && |all| <= |made| + |ids| - j
        && (|all| == |made| + |ids| - j <==> Retained(k.specs, ids, j))
        && (Retained(k.specs, ids, j) ==> Stands(k'.history.lineage, all[|made|..], ids, j)))
    && (forall p | p in k.history.lineage && p < k.table.nextPid ::
          p in k'.history.lineage && k'.history.lineage[p] == k.history.lineage[p])
    && (forall p | p in k'.history.lineage && p < k.table.nextPid :: p in k.history.lineage)
    && k.table.nextPid <= k'.table.nextPid
  }

  lemma AddedStep(k: State, k1: State, k2: State, id: Pid, ids: seq<Pid>, j: nat)
    requires j < |ids| && Minted(k.table, ids) && Restarted(k, k1, id, ids[j]) && Added(k1, k2, id, ids, j + 1)
    ensures Added(k, k2, id, ids, j)
  {
    var p := k.table.nextPid;
    var made, some, all := k.progress[id].restarted, k1.progress[id].restarted, k2.progress[id].restarted;
    assert Retained(k1.specs, ids, j + 1) <==> Retained(k.specs, ids, j + 1);
    assert Retained(k.specs, ids, j) <==> ids[j] in k.specs && Retained(k.specs, ids, j + 1);
    if Retained(k.specs, ids, j) {
      var later := all[|some|..];
      assert all[|made|..] == [p] + later by { assert some == all[..|some|]; }
      assert p in k1.history.lineage && p < k1.table.nextPid;
    }
  }

  lemma {:induction false} RestartFromAdds(k: State, id: Pid, ids: seq<Pid>, j: nat, f: Faults)
    requires id in k.progress && j <= |ids| && Minted(k.table, ids) && RestartFrom(k, id, ids, j, f).1
    ensures Added(k, RestartFrom(k, id, ids, j, f).0, id, ids, j)
    decreases |ids| - j
  {
    if j < |ids| {
      RestartOneRestarts(k, id, ids[j], j, f);
      var k1 := RestartOne(k, id, ids[j], j, f).0;
      RestartFromAdds(k1, id, ids, j + 1, f);
      AddedStep(k, k1, RestartFrom(k, id, ids, j, f).0, id, ids, j);
    } else {
      assert k.progress[id].restarted[|k.progress[id].restarted|..] == [];
    }
  }

  /** The replacements a termination had made when it failed. */
  function MadeBefore(k: State, id: Pid): seq<Pid> {
    if id in k.progress then k.progress[id].restarted else []
  }

  lemma MatchedSplits(lineage: map<Pid, Pid>, all: seq<Pid>, made: seq<Pid>, ids: seq<Pid>)
    requires made <= all && |all| == |ids| && Stands(lineage, all[|made|..], ids, |made|)
    ensures Matched(lineage, all, ids) <==> Matched(lineage, made, ids)
  {
    forall i | |made| <= i < |all| ensures all[i] in lineage && lineage[all[i]] == ids[i] {
      assert all[i] == all[|made|..][i - |made|];
    }
    forall i | 0 <= i < |made| ensures made[i] == all[i] {
    }
  }

  /** A call that publishes goes through the restarts of this state. */
  lemma ReachesRestarts(k: State, id: Pid, reason: ExitReason, f: Faults) returns (k1: State)
    requires Inv(k) && AtRest(k) && id !in k.outcomes && TerminateStep(k, id, reason, f).1.Some?
    ensures Advance(BeginTermination(k, id, reason), id, f) == (k1, true)
    ensures Inv(k1) && SameRegistration(k, k1) && id in k1.progress && k1.progress[id].restarted == MadeBefore(k, id)
    ensures LoopAt(k1, id, k1.progress[id].restartIds, |k1.progress[id].restarted|)
    ensures var restarts := RestartFrom(k1, id, k1.progress[id].restartIds, |k1.progress[id].restarted|, f);
      restarts.1 && TerminateStep(k, id, reason, f) == Finish(restarts.0, id)
  {
    ReachKeepsInv(k, id, reason, f);
    AdvanceFrame(BeginTermination(k, id, reason), id, f);
    k1 := Advance(BeginTermination(k, id, reason), id, f).0;
  }

  /** The outcome's decision is the one the restarts went by. */
  lemma PublishesDecision(k: State, id: Pid, f: Faults)
    requires Inv(k) && id in k.progress && LoopAt(k, id, k.progress[id].restartIds, |k.progress[id].restarted|)
    requires RestartFrom(k, id, k.progress[id].restartIds, |k.progress[id].restarted|, f).1
    ensures var done := RestartFrom(k, id, k.progress[id].restartIds, |k.progress[id].restarted|, f).0;
            var r := Finish(done, id);
      && id in done.progress && r.1.Some? && r.1.value.restarted == done.progress[id].restarted
      && r.0.history == done.history && RestartIds(id, r.1.value.decision) == k.progress[id].restartIds
  {
    assert ProgressOk(k.table, k.operations, k.history, id, k.progress[id]);
    RestartFromKeepsInv(k, id, k.progress[id].restartIds, |k.progress[id].restarted|, f);
  }

  /** Replacements made before the loop stand or fall with the lineage before it. */
  lemma MadeMatchIff(k: State, k': State, id: Pid, ids: seq<Pid>)
    requires id in k.progress && Added(k, k', id, ids, |k.progress[id].restarted|)
    requires forall i | 0 <= i < |k.progress[id].restarted| :: k.progress[id].restarted[i] < k.table.nextPid
    ensures var made := k.progress[id].restarted;
      Matched(k'.history.lineage, made, ids) <==> Matched(k.history.lineage, made, ids)
  {
    var made := k.progress[id].restarted;
    forall i | 0 <= i < |made|
      ensures made[i] in k'.history.lineage <==> made[i] in k.history.lineage
      ensures made[i] in k.history.lineage ==> k'.history.lineage[made[i]] == k.history.lineage[made[i]]
    {
      assert made[i] < k.table.nextPid;
    }
  }

  lemma AddedMatchIff(k: State, k': State, id: Pid, ids: seq<Pid>)
    requires id in k.progress && Added(k, k', id, ids, |k.progress[id].restarted|)
    ensures var made, all := k.progress[id].restarted, k'.progress[id].restarted;
      (|all| == |ids| && Matched(k'.history.lineage, all, ids)) <==>
        (Matched(k'.history.lineage, made, ids) && Retained(k.specs, ids, |made|))
  {
    var made, all := k.progress[id].restarted, k'.progress[id].restarted;
    if |all| == |ids| {
      MatchedSplits(k'.history.lineage, all, made, ids);
    }
  }
}
