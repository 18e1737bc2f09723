/** The runtime object: its methods update the tables step by step, as the source does, and do
    exactly the steps the run theorems are about. */
module KernelRuntime {
  import opened Text
  import opened Kernel
  import opened KernelInvariant
  import opened KernelTermination
  import opened KernelRuns

  class Runtime {
    var table: ProcessTable
    var supervisor: Supervisor
    var operations: map<OpId, Pid>
    var terminalProgress: map<Pid, Progress>
    var terminalOutcomes: map<Pid, Outcome>
    var spawnSpecs: map<Pid, SpawnSpec>
    var identities: IdentityRegistry
    ghost var history: History

    ghost function View(): State
      reads this
    {
      State(table, supervisor, operations, terminalProgress, terminalOutcomes, spawnSpecs, identities, history)
    }

    ghost predicate Valid()
      reads this
    {
      Inv(View()) && AtRest(View())
    }

    constructor (groups: map<string, Group>, groupOf: map<Pid, string>)
      ensures Valid() && View() == Boot(groups, groupOf)
    {
      table := ProcessTable(map[], 0);
      supervisor := Supervisor(map[], map[], groupOf, groups);
      operations := map[];
      terminalProgress := map[];
      terminalOutcomes := map[];
      spawnSpecs := map[];
      identities := IdentityRegistry(map[], map[], map[]);
      history := History([], {}, map[]);
      new;
      BootInv(groups, groupOf);
    }

    /** Cancels operations one by one. */
    method CancelAll(which: set<OpId>)
      modifies this`operations
      ensures operations == old(operations) - which
    {
      var todo := which;
      while todo != {}
        invariant todo <= which
        invariant operations == old(operations) - (which - todo)
        decreases todo
      {
        var o: OpId :| o in todo;
        todo := todo - {o};
        operations := operations - {o};
      }
    }

    /** Cancels the process's operations; `fault` says after which ones it stops. */
    method CleanupProcessResources(id: Pid, fault: Option<set<OpId>>) returns (done: bool)
      modifies this`operations, this`history
      ensures (View(), done) == CleanupStep(old(View()), id, fault)
    {
      if id !in table.procs {
        return false;
      }
      var owned := set o | o in operations && operations[o] == id;
      CancelAll(if fault.Some? then owned * fault.value else owned);
      assert operations == CancelOps(old(operations), id, if fault.Some? then fault.value else old(operations).Keys);
      done := fault.None?;
      if done {
        history := Log(history, CleanedUp(id));
      }
    }

    method MarkExit(id: Pid, reason: ExitReason) returns (ok: bool)
      modifies this`table, this`history
      ensures (View(), ok) == Kernel.MarkExit(old(View()), id, reason)
    {
      if id !in table.procs {
        return false;
      }
      var exited := ExitProcess(table.procs[id], reason);
      if exited.None? {
        return false;
      }
      table := SetProcess(table, id, exited.value);
      history := Log(history, Marked(id));
      return true;
    }

    method SpawnInner(spec: SpawnSpec, fault: SpawnFault) returns (r: Option<Pid>)
      modifies this`table, this`spawnSpecs, this`identities, this`history
      ensures (View(), r) == SpawnStep(old(View()), spec, fault)
    {
      if spec.agent in identities.byAgent {
        var existing := identities.byAgent[spec.agent].process;
        if existing !in table.procs || !IsTerminal(table.procs[existing].state) {
          return None;
        }
      }
      if spec.parent.Some? && (spec.parent.value !in table.procs || IsTerminal(table.procs[spec.parent.value].state)) {
        return None;
      }
      if fault.ForkFails? {
        return None;
      }
      var p := table.nextPid;
      table := NewProcess(table, spec);
      if fault.BudgetFails? {
        history := history.(orphans := history.orphans + {p});
        return None;
      }
      spawnSpecs := spawnSpecs[p := spec];
      identities := Register(identities, spec.agent, p);
      history := Log(history, Registered(p, spec.agent, identities.generations[spec.agent]));
      return Some(p);
    }

    method SpawnProcess(spec: SpawnSpec, fault: SpawnFault) returns (r: Option<Pid>)
      requires Valid()
      modifies this
      ensures Valid() && (View(), r) == SpawnStep(old(View()), spec, fault)
    {
      StepKeepsInv(View(), Spawn(spec, fault));
      r := SpawnInner(spec, fault);
    }

    /** One pass of the phase loop. */
    method AdvancePhase(id: Pid, f: Faults) returns (ok: bool)
      requires id in terminalProgress && !terminalProgress[id].phase.Restarting?
      modifies this
      ensures (View(), ok) == PhaseStep(old(View()), id, f)
    {
      var progress := terminalProgress[id];
      match progress.phase
      case Cleanup =>
        ok := CleanupProcessResources(id, f.cleanup(0));
        if ok { terminalProgress := terminalProgress[id := progress.(phase := MarkTerminal)]; }
      case MarkTerminal =>
        ok := true;
        if id !in table.procs || !IsTerminal(table.procs[id].state) {
          ok := MarkExit(id, progress.reason);
        }
        if ok { terminalProgress := terminalProgress[id := progress.(phase := Supervise)]; }
      case Supervise =>
        var (tree, decision) := RecordExit(supervisor, id, progress.reason);
        supervisor := tree;
        terminalProgress := terminalProgress[id :=
          progress.(restartIds := RestartIds(id, decision), decision := Some(decision), phase := Restarting)];
        history := Log(history, ExitRecorded(id));
        ok := true;
    }

    /** Stops and replaces the `j`-th process to restart. */
    method RestartMember(id: Pid, member: Pid, j: nat, f: Faults) returns (ok: bool)
      modifies this
      ensures (View(), ok) == RestartOne(old(View()), id, member, j, f)
    {
      if member != id {
        if member !in table.procs {
          return false;
        }
        if !IsTerminal(table.procs[member].state) {
          ok := CleanupProcessResources(member, f.cleanup(j + 1));
          if !ok {
            return false;
          }
          ok := MarkExit(member, Cancelled(GROUP_RESTART));
          if !ok {
            return false;
          }
        }
      }
      assert (View(), true) == StopMember(old(View()), id, member, f.cleanup(j + 1));
      if member !in spawnSpecs {
        return true;
      }
      var replacement := SpawnInner(spawnSpecs[member], f.spawn(j));
      if replacement.None? || id !in terminalProgress {
        return false;
      }
      supervisor := InheritLineage(supervisor, member, replacement.value);
      var progress := terminalProgress[id];
      terminalProgress := terminalProgress[id := progress.(restarted := progress.restarted + [replacement.value])];
      history := history.(lineage := history.lineage[replacement.value := member]);
      return true;
    }

    /** The phase loop. */
    method AdvanceToRestarts(id: Pid, f: Faults) returns (ok: bool)
      requires id in terminalProgress
      modifies this
      ensures (View(), ok) == Advance(old(View()), id, f)
    {
      while !terminalProgress[id].phase.Restarting?
        invariant id in terminalProgress
        invariant Advance(View(), id, f) == Advance(old(View()), id, f)
        decreases 3 - PhaseRank(terminalProgress[id].phase)
      {
        ok := AdvancePhase(id, f);
        if !ok {
          return;
        }
      }
      return true;
    }

    /** The restart loop, from the first id without a replacement. */
    method RestartMembers(id: Pid, ids: seq<Pid>, done: nat, f: Faults) returns (ok: bool)
      modifies this
      ensures (View(), ok) == RestartFrom(old(View()), id, ids, done, f)
    {
      var j := done;
      while j < |ids|
        invariant RestartFrom(View(), id, ids, j, f) == RestartFrom(old(View()), id, ids, done, f)
      {
        ok := RestartMember(id, ids[j], j, f);
        if !ok {
          return;
        }
        j := j + 1;
      }
      return true;
    }

    /** Publishes a finished termination. */
    method Publish(id: Pid) returns (r: Option<Outcome>)
      modifies this`terminalProgress, this`terminalOutcomes
      ensures (View(), r) == Finish(old(View()), id)
    {
      if id !in terminalProgress || terminalProgress[id].decision.None? {
        return None;
      }
      var done := terminalProgress[id];
      var outcome := Outcome(id, done.reason, done.decision.value, done.restarted);
      terminalProgress := terminalProgress - {id};
      terminalOutcomes := terminalOutcomes[id := outcome];
      return Some(outcome);
    }

    method TerminateProcess(id: Pid, reason: ExitReason, f: Faults) returns (r: Option<Outcome>)
      requires Valid()
      modifies this
      ensures Valid() && (View(), r) == TerminateStep(old(View()), id, reason, f)
    {
      TerminateKeepsInv(View(), id, reason, f);
      if id in terminalOutcomes {
        return Some(terminalOutcomes[id]);
      }
      if id !in terminalProgress {
        terminalProgress := terminalProgress[id := Progress(reason, Cleanup, None, [], [])];
      }
      var ok := AdvanceToRestarts(id, f);
      if !ok {
        return None;
      }
      ok := RestartMembers(id, terminalProgress[id].restartIds, |terminalProgress[id].restarted|, f);
      if !ok {
        return None;
      }
      r := Publish(id);
    }

    /** Drops the spec, the progress and the outcome kept for a process. */
    method Forget(id: Pid)
      modifies this
      ensures View() == old(View()).(specs := old(spawnSpecs) - {id}, progress := old(terminalProgress) - {id},
                                     outcomes := old(terminalOutcomes) - {id})
    {
      spawnSpecs := spawnSpecs - {id};
      terminalProgress := terminalProgress - {id};
      terminalOutcomes := terminalOutcomes - {id};
    }

    method ReapProcess(id: Pid)
      requires Valid()
      modifies this
      ensures Valid() && View() == ReapStep(old(View()), id)
    {
      ReapCallKeepsInv(View(), id);
      if id in table.procs && IsTerminal(table.procs[id].state) {
        var agent := table.procs[id].agent;
        table := table.(procs := table.procs - {id});
        Forget(id);
        identities := Unregister(identities, agent, id);
      }
    }

    method BindOsProcessId(p: Pid, osPid: int) returns (r: Option<Identity>)
      requires Valid()
      modifies this
      ensures Valid() && (View(), r) == BindStep(old(View()), p, osPid)
    {
      StepKeepsInv(View(), Bind(p, osPid));
      if p !in identities.byProcess {
        return None;
      }
      var identity := identities.byProcess[p];
      if identity.agent !in identities.byAgent || identities.byAgent[identity.agent].process != p {
        return None;
      }
      identity := identity.(osPid := Some(osPid));
      identities := identities.(byProcess := identities.byProcess[p := identity],
                                byAgent := identities.byAgent[identity.agent := identity]);
      return Some(identity);
    }
  }
}
