/** What holds over every run of kernel calls, with any faults. */
module KernelRuns {
  import opened Text
  import opened Kernel
  import opened KernelInvariant
  import opened KernelTermination

  // ------------------------------------------------------ the other calls

  /** The table after one process moved between live states. */
  lemma SignalKeepsInv(k: State, id: Pid, next: ProcessState)
    requires Inv(k)
    ensures Inv(SignalStep(k, id, next))
  {
    var k' := SignalStep(k, id, next);
    if k' != k {
      assert Live(k.table, id) && Live(k'.table, id);
      assert k'.table.procs.Keys == k.table.procs.Keys;
      forall p | p in k.identities.byProcess ensures RegOk(k'.table, k.identities, k.specs, p) {
        assert RegOk(k.table, k.identities, k.specs, p);
      }
      forall a | a in k.identities.byAgent ensures AgentOk(k.identities, a) { assert AgentOk(k.identities, a); }
      forall i | i in k'.progress ensures ProgressOk(k'.table, k'.operations, k'.history, i, k'.progress[i]) {
        assert ProgressOk(k.table, k.operations, k.history, i, k.progress[i]);
      }
      forall i | i in k'.outcomes ensures OutcomeOk(k'.table, k'.history, i, k'.outcomes[i]) {
        assert OutcomeOk(k.table, k.history, i, k.outcomes[i]);
      }
      forall x | x in k.history.events ensures EventOk(k', x) { assert EventOk(k, x); }
      QuietKeepsHistory(k, k');
    }
  }

  lemma BindKeepsRegistry(t: ProcessTable, r: IdentityRegistry, specs: map<Pid, SpawnSpec>, p: Pid, osPid: int)
    requires RegistryOk(t, r, specs) && IsCurrent(r, p)
    ensures var bound := r.byProcess[p].(osPid := Some(osPid));
            RegistryOk(t, r.(byProcess := r.byProcess[p := bound], byAgent := r.byAgent[bound.agent := bound]), specs)
  {
    var bound := r.byProcess[p].(osPid := Some(osPid));
    var r' := r.(byProcess := r.byProcess[p := bound], byAgent := r.byAgent[bound.agent := bound]);
    assert AgentOk(r, bound.agent) && RegOk(t, r, specs, p);
    forall q | q in r'.byProcess ensures RegOk(t, r', specs, q) { assert RegOk(t, r, specs, q); }
    forall a | a in r'.byAgent ensures AgentOk(r', a) { assert AgentOk(r, a); }
    assert r'.byProcess.Keys == r.byProcess.Keys;
  }

  lemma BindKeepsInv(k: State, p: Pid, osPid: int)
    requires Inv(k)
    ensures Inv(BindStep(k, p, osPid).0)
  {
    var k' := BindStep(k, p, osPid).0;
    if IsCurrent(k.identities, p) {
      BindKeepsRegistry(k.table, k.identities, k.specs, p, osPid);
      assert k'.identities.byProcess.Keys == k.identities.byProcess.Keys;
      forall x | x in k.history.events ensures EventOk(k', x) { assert EventOk(k, x); }
      QuietKeepsHistory(k, k');
    }
  }

  lemma ReapKeepsRegistry(t: ProcessTable, r: IdentityRegistry, specs: map<Pid, SpawnSpec>, id: Pid)
    requires RegistryOk(t, r, specs) && Dead(t, id)
    ensures RegistryOk(t.(procs := t.procs - {id}), Unregister(r, t.procs[id].agent, id), specs - {id})
  {
    var t', r', specs' := t.(procs := t.procs - {id}), Unregister(r, t.procs[id].agent, id), specs - {id};
    assert id in r.byProcess ==> RegOk(t, r, specs, id);
    forall q | q in r'.byProcess ensures RegOk(t', r', specs', q) {
      assert RegOk(t, r, specs, q);
    }
    forall a | a in r'.byAgent ensures AgentOk(r', a) {
      assert AgentOk(r, a);
    }
  }

  lemma ReapKeepsTransactions(k: State, id: Pid)
    requires Inv(k) && Dead(k.table, id)
    ensures var k' := ReapStep(k, id);
      && ProgressesOk(k'.table, k'.operations, k'.history, k'.progress) && OutcomesOk(k'.table, k'.history, k'.outcomes)
      && OpsOk(k'.table, k'.operations)
  {
    var k' := ReapStep(k, id);
    forall i | i in k'.progress ensures ProgressOk(k'.table, k'.operations, k'.history, i, k'.progress[i]) {
      assert ProgressOk(k.table, k.operations, k.history, i, k.progress[i]);
    }
    forall i | i in k'.outcomes ensures OutcomeOk(k'.table, k'.history, i, k'.outcomes[i]) {
      assert OutcomeOk(k.table, k.history, i, k.outcomes[i]);
    }
  }

  lemma ReapKeepsInv(k: State, id: Pid)
    requires Inv(k)
    ensures Inv(ReapStep(k, id))
  {
    if Dead(k.table, id) {
      var k' := ReapStep(k, id);
      ReapKeepsRegistry(k.table, k.identities, k.specs, id);
      ReapKeepsTransactions(k, id);
      forall x | x in k.history.events ensures EventOk(k', x) { assert EventOk(k, x); }
      QuietKeepsHistory(k, k');
    }
  }

  lemma SubmitKeepsInv(k: State, owner: Pid, op: OpId)
    requires Inv(k) && AtRest(k)
    ensures Inv(SubmitStep(k, owner, op))
  {
    var k' := SubmitStep(k, owner, op);
    if k' != k {
      forall i | i in k'.progress ensures ProgressOk(k'.table, k'.operations, k'.history, i, k'.progress[i]) {
        assert ProgressOk(k.table, k.operations, k.history, i, k.progress[i]);
      }
      forall x | x in k.history.events ensures EventOk(k', x) { assert EventOk(k, x); }
      QuietKeepsHistory(k, k');
    }
  }

  lemma SettleKeepsInv(k: State, op: OpId)
    requires Inv(k)
    ensures Inv(k.(operations := k.operations - {op}))
  {
    var k' := k.(operations := k.operations - {op});
    QuietKeepsTransactions(k.table, k.operations, k'.operations, k.history, k.history, k.progress, k.outcomes);
    forall x | x in k.history.events ensures EventOk(k', x) { assert EventOk(k, x); }
    QuietKeepsHistory(k, k');
  }

  lemma BootInv(groups: map<string, Group>, groupOf: map<Pid, string>)
    ensures Inv(Boot(groups, groupOf)) && AtRest(Boot(groups, groupOf))
  {
  }

  lemma ReapCallKeepsInv(k: State, id: Pid)
    requires Inv(k) && AtRest(k)
    ensures Inv(ReapStep(k, id)) && AtRest(ReapStep(k, id))
  {
    ReapKeepsInv(k, id);
  }

  lemma SpawnCallKeepsInv(k: State, spec: SpawnSpec, fault: SpawnFault)
    requires Inv(k) && AtRest(k)
    ensures Inv(SpawnStep(k, spec, fault).0) && AtRest(SpawnStep(k, spec, fault).0)
  {
    SpawnKeepsInv(k, spec, fault);
    SpawnFrame(k, spec, fault);
  }

  /** The calls that neither spawn nor terminate a process. */
  lemma SmallCallKeepsInv(k: State, call: Call)
    requires Inv(k) && AtRest(k) && !call.Spawn? && !call.Terminate?
    ensures Inv(Step(k, call)) && AtRest(Step(k, call))
  {
    match call
    case Reap(id) => ReapCallKeepsInv(k, id);
    case Bind(id, osPid) => BindKeepsInv(k, id, osPid);
    case Signal(id, next) => SignalKeepsInv(k, id, next);
    case SetPolicy(id, policy) => SupervisorIsFree(k, k.supervisor.(policies := k.supervisor.policies[id := policy]));
    case Submit(id, op) => SubmitKeepsInv(k, id, op);
    case Settle(op) => SettleKeepsInv(k, op);
  }

  lemma StepKeepsInv(k: State, call: Call)
    requires Inv(k) && AtRest(k)
    ensures Inv(Step(k, call)) && AtRest(Step(k, call))
  {
    match call
    case Spawn(spec, fault) => SpawnCallKeepsInv(k, spec, fault);
    case Terminate(id, reason, faults) => TerminateKeepsInv(k, id, reason, faults);
    case _ => SmallCallKeepsInv(k, call);
  }

  /** Every run of calls keeps the invariant, whatever fails inside them. */
  lemma {:induction false} RunKeepsInv(k: State, calls: seq<Call>)
    requires Inv(k) && AtRest(k)
    ensures Inv(Run(k, calls)) && AtRest(Run(k, calls))
    decreases |calls|
  {
    if calls != [] {
      StepKeepsInv(k, calls[0]);
      RunKeepsInv(Step(k, calls[0]), calls[1..]);
    }
  }

  // ------------------------------------------------- terminations over runs

  predicate Reaps(call: Call, id: Pid) {
    call.Reap? && call.id == id
  }

  lemma SameKeepsTermination(k: State, k': State, id: Pid)
    requires SameTermination(k, k', id)
    ensures KeepsTermination(k, k', id)
  {
  }

  lemma OtherCallsKeepTermination(k: State, call: Call, id: Pid)
    requires TableOk(k.table) && !Reaps(call, id) && !call.Terminate?
    ensures SameTermination(k, Step(k, call), id)
  {
    match call
    case Spawn(spec, fault) => SpawnFrame(k, spec, fault);
    case Reap(_) =>
    case Bind(_, _) =>
    case Signal(_, _) =>
    case SetPolicy(_, _) =>
    case Submit(_, _) =>
    case Settle(_) =>
  }

  lemma StepKeepsTermination(k: State, call: Call, id: Pid)
    requires Inv(k) && AtRest(k) && !Reaps(call, id)
    ensures KeepsTermination(k, Step(k, call), id)
  {
    if call.Terminate? {
      TerminateAnswers(k, call.id, call.reason, call.faults);
      if call.id != id { SameKeepsTermination(k, Step(k, call), id); }
    } else {
      OtherCallsKeepTermination(k, call, id);
      SameKeepsTermination(k, Step(k, call), id);
    }
  }

  /** Phases only advance, and a published outcome and its reason stay, over every run that
      does not reap the process. */
  lemma {:induction false} RunKeepsTermination(k: State, calls: seq<Call>, id: Pid)
    requires Inv(k) && AtRest(k) && forall c | c in calls :: !Reaps(c, id)
    ensures KeepsTermination(k, Run(k, calls), id)
    decreases |calls|
  {
    if calls != [] {
      StepKeepsTermination(k, calls[0], id);
      StepKeepsInv(k, calls[0]);
      RunKeepsTermination(Step(k, calls[0]), calls[1..], id);
    }
  }

  /** After the first success every call until the reap answers the same outcome and changes
      nothing, whatever reason it brings and whatever happened in between. */
  lemma OutcomeIsFinal(k: State, id: Pid, reason: ExitReason, f: Faults, calls: seq<Call>, reason': ExitReason, f': Faults)
    requires Inv(k) && AtRest(k) && TerminateStep(k, id, reason, f).1.Some?
    requires forall c | c in calls :: !Reaps(c, id)
    ensures var later := Run(TerminateStep(k, id, reason, f).0, calls);
            TerminateStep(later, id, reason', f') == (later, TerminateStep(k, id, reason, f).1)
  {
    var k1 := TerminateStep(k, id, reason, f).0;
    TerminateAnswers(k, id, reason, f);
    TerminateKeepsInv(k, id, reason, f);
    RunKeepsTermination(k1, calls, id);
  }

  /** The outcome carries the reason of the first call, however many calls failed before the
      one that succeeded. */
  lemma FirstReasonWins(k: State, id: Pid, reason: ExitReason, f: Faults, calls: seq<Call>, reason': ExitReason, f': Faults)
    requires Inv(k) && AtRest(k) && Stage(k, id) == 0
    requires forall c | c in calls :: !Reaps(c, id)
    requires TerminateStep(Run(TerminateStep(k, id, reason, f).0, calls), id, reason', f').1.Some?
    ensures TerminateStep(Run(TerminateStep(k, id, reason, f).0, calls), id, reason', f').1.value.reason == reason
  {
    var k1 := TerminateStep(k, id, reason, f).0;
    TerminateAnswers(k, id, reason, f);
    TerminateKeepsInv(k, id, reason, f);
    RunKeepsTermination(k1, calls, id);
    RunKeepsInv(k1, calls);
    var k2 := Run(k1, calls);
    TerminateAnswers(k2, id, reason', f');
    TerminateKeepsInv(k2, id, reason', f');
    assert HasReason(k2, id, reason);
    assert HasReason(TerminateStep(k2, id, reason', f').0, id, reason);
  }

  /** In every run a process is cleaned up before it is marked terminal and marked before the
      supervisor records its exit; mark and record happen at most once; and the generations
      an agent's processes get only grow, even across reaps. */
  lemma EveryRunIsOrdered(groups: map<string, Group>, groupOf: map<Pid, string>, calls: seq<Call>)
    ensures Ordered(Run(Boot(groups, groupOf), calls).history.events)
    ensures EventsOnce(Run(Boot(groups, groupOf), calls).history.events)
  {
    BootInv(groups, groupOf);
    RunKeepsInv(Boot(groups, groupOf), calls);
  }

  /** No active operation belongs to a terminal process. */
  lemma TerminalProcessHasNoOperations(k: State, id: Pid)
    requires Inv(k) && Dead(k.table, id)
    ensures NoOps(k.operations, id)
  {
  }

  lemma PhasePasses(k: State, id: Pid, f: Faults)
    requires Inv(k) && id in k.progress && !k.progress[id].phase.Restarting? && id in k.table.procs && f.cleanup(0).None?
    ensures PhaseStep(k, id, f).1
  {
    PhaseKeepsInv(k, id, f);
  }

  lemma {:induction false} AdvancePasses(k: State, id: Pid, f: Faults)
    requires Inv(k) && id in k.progress && id in k.table.procs && f.cleanup(0).None?
    ensures Advance(k, id, f).1
    decreases 3 - PhaseRank(k.progress[id].phase)
  {
    if !k.progress[id].phase.Restarting? {
      PhasePasses(k, id, f);
      PhaseKeepsInv(k, id, f);
      AdvancePasses(PhaseStep(k, id, f).0, id, f);
    }
  }

  /** Once its cleanup no longer fails, a termination whose reason is no failure completes, no
      matter how many earlier calls failed, and restarts nothing. */
  lemma CleanTerminationCompletes(k: State, id: Pid, reason: ExitReason, f: Faults)
    requires Inv(k) && AtRest(k) && id in k.table.procs && id !in k.outcomes && f.cleanup(0).None?
    requires !IsFailureExit(if id in k.progress then k.progress[id].reason else reason)
    ensures var r := TerminateStep(k, id, reason, f).1; r.Some? && r.value.decision.DoNotRestart? && r.value.restarted == []
  {
    var k0 := BeginTermination(k, id, reason);
    BeginKeepsInv(k, id, reason);
    AdvancePasses(k0, id, f);
    ReachKeepsInv(k, id, reason, f);
    NothingToRestart(Advance(k0, id, f).0, id, f);
  }

  /** A termination whose reason is no failure has nothing to restart and is published. */
  lemma NothingToRestart(k: State, id: Pid, f: Faults)
    requires Inv(k) && id in k.progress && k.progress[id].phase.Restarting? && !IsFailureExit(k.progress[id].reason)
    ensures var todo := k.progress[id];
            var r := Finish(RestartFrom(k, id, todo.restartIds, |todo.restarted|, f).0, id).1;
      && RestartFrom(k, id, todo.restartIds, |todo.restarted|, f) == (k, true)
      && r.Some? && r.value.decision.DoNotRestart? && r.value.restarted == []
  {
    assert ProgressOk(k.table, k.operations, k.history, id, k.progress[id]);
  }

  // ---------------------------------------------------------- the registry

  /** Of the processes whose spawn succeeded, at most one per agent is live, and it is the
      agent's current one. */
  lemma OneRegisteredLiveProcess(k: State, p: Pid, q: Pid)
    requires Inv(k) && Live(k.table, p) && Live(k.table, q) && k.table.procs[p].agent == k.table.procs[q].agent
    requires p in k.identities.byProcess && q in k.identities.byProcess
    ensures p == q && IsCurrent(k.identities, p)
  {
    assert RegOk(k.table, k.identities, k.specs, p) && RegOk(k.table, k.identities, k.specs, q);
  }

  /** A live process of the agent that no index knows. */
  predicate LiveUnregistered(k: State, agent: AgentId) {
    exists p | p in k.table.procs :: Live(k.table, p) && k.table.procs[p].agent == agent && p !in k.identities.byProcess
  }

  predicate AtMostOneLive(k: State, agent: AgentId) {
    forall p, q | p in k.table.procs && q in k.table.procs && Live(k.table, p) && Live(k.table, q)
                  && k.table.procs[p].agent == agent && k.table.procs[q].agent == agent :: p == q
  }

  /** When a spawn may happen, the agent has no live process but unregistered ones. */
  lemma OnlyUnregisteredLive(k: State, spec: SpawnSpec, fault: SpawnFault, p: Pid)
    requires Inv(k) && MaySpawn(k, spec, fault)
    requires Live(k.table, p) && k.table.procs[p].agent == spec.agent
    ensures p !in k.identities.byProcess
  {
    assert p in k.identities.byProcess ==> RegOk(k.table, k.identities, k.specs, p);
  }

  /** A spawn gives its agent a second live process exactly when a live one of that agent is in
      no index: the duplicate check reads the index. */
  lemma SpawnDuplicatesIff(k: State, spec: SpawnSpec, fault: SpawnFault)
    requires Inv(k) && AtMostOneLive(k, spec.agent)
    ensures AtMostOneLive(SpawnStep(k, spec, fault).0, spec.agent) <==>
            !(MaySpawn(k, spec, fault) && LiveUnregistered(k, spec.agent))
  {
    var k' := SpawnStep(k, spec, fault).0;
    if MaySpawn(k, spec, fault) {
      NewProcessTable(k.table, spec);
      var n := k.table.nextPid;
      assert Live(k'.table, n);
      if LiveUnregistered(k, spec.agent) {
        var p :| p in k.table.procs && Live(k.table, p) && k.table.procs[p].agent == spec.agent;
        assert Live(k'.table, p) && p != n;
      } else {
        forall p | p in k.table.procs && k.table.procs[p].agent == spec.agent ensures !Live(k.table, p) {
          if Live(k.table, p) { OnlyUnregisteredLive(k, spec, fault, p); }
        }
      }
    }
  }

  /** Such a run exists: a spawn under a parent is refused by the budget, and one without the
      parent succeeds beside the process it left. */
  lemma RefusedBudgetLeavesSecondLiveProcess()
    ensures var calls := [Spawn(SpawnSpec(1, None), NoFault), Spawn(SpawnSpec(7, Some(0)), BudgetFails), Spawn(SpawnSpec(7, None), NoFault)];
      !AtMostOneLive(Run(Boot(map[], map[]), calls), 7)
  {
    var k := Boot(map[], map[]);
    var parent, child, again := SpawnSpec(1, None), SpawnSpec(7, Some(0)), SpawnSpec(7, None);
    var k1 := SpawnStep(k, parent, NoFault).0;
    assert Live(k1.table, 0);
    var k2 := SpawnStep(k1, child, BudgetFails).0;
    assert Live(k2.table, 1) && MaySpawn(k2, again, NoFault);
    var k3 := SpawnStep(k2, again, NoFault).0;
    assert Live(k3.table, 1) && Live(k3.table, 2);
    var calls := [Spawn(parent, NoFault), Spawn(child, BudgetFails), Spawn(again, NoFault)];
    assert calls[1..][1..] == [Spawn(again, NoFault)];
    assert Run(k, calls) == Run(k1, calls[1..]) == Run(k2, calls[1..][1..]) == Run(k3, []) == k3;
  }

  /** Only an agent's newest generation can be bound to an OS process id, and as long as it is
      registered it can; both indexes show the binding. */
  lemma OnlyTheCurrentGenerationBinds(k: State, p: Pid, osPid: int)
    requires Inv(k)
    ensures var (k', r) := BindStep(k, p, osPid);
            && (r.Some? <==> p in k.identities.byProcess && Newest(k.identities, k.identities.byProcess[p]))
            && (r.None? ==> k' == k)
            && (r.Some? ==> BoundIn(k.identities, k'.identities, p, r.value, osPid))
  {
    if p in k.identities.byProcess {
      assert RegOk(k.table, k.identities, k.specs, p);
    }
    if IsCurrent(k.identities, p) {
      assert AgentOk(k.identities, k.identities.byProcess[p].agent);
    }
  }

  predicate Newest(r: IdentityRegistry, i: Identity) {
    i.agent in r.generations && i.generation == r.generations[i.agent]
  }

  predicate BoundIn(r: IdentityRegistry, r': IdentityRegistry, p: Pid, i: Identity, osPid: int) {
    && i.osPid == Some(osPid)
    && p in r'.byProcess && r'.byProcess[p] == i && i.agent in r'.byAgent && r'.byAgent[i.agent] == i
    && (forall q | q in r.byProcess && q != p :: q in r'.byProcess && r'.byProcess[q] == r.byProcess[q])
  }
}
