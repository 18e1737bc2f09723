/** What every kernel call keeps, whatever fails inside it. */
module KernelInvariant {
  import opened Text
  import opened Kernel

  // ------------------------------------------------------------- invariant

  predicate TableOk(t: ProcessTable) {
    forall p | p in t.procs :: p < t.nextPid
  }

  /** A registered process: known, with its spec, a generation already issued, and either its
      agent's current process, as the newest generation always is, or terminal. */
  predicate RegOk(t: ProcessTable, r: IdentityRegistry, specs: map<Pid, SpawnSpec>, p: Pid)
    requires p in r.byProcess
  {
    var i := r.byProcess[p];
    && i.process == p && p in t.procs && t.procs[p].agent == i.agent
    && p in specs && specs[p].agent == i.agent
    && i.agent in r.generations && i.generation <= r.generations[i.agent]
    && (IsCurrent(r, p) || (IsTerminal(t.procs[p].state) && i.generation < r.generations[i.agent]))
  }

  predicate AgentOk(r: IdentityRegistry, a: AgentId)
    requires a in r.byAgent
  {
    var i := r.byAgent[a];
    && i.agent == a && i.process in r.byProcess && r.byProcess[i.process] == i
    && a in r.generations && i.generation == r.generations[a]
  }

  /** No two registered processes of one agent share a generation. */
  predicate DistinctGenerations(byProcess: map<Pid, Identity>) {
    forall p, q {:trigger byProcess[p], byProcess[q]}
      | p in byProcess && q in byProcess && p != q && byProcess[p].agent == byProcess[q].agent ::
      byProcess[p].generation != byProcess[q].generation
  }

  predicate RegistryOk(t: ProcessTable, r: IdentityRegistry, specs: map<Pid, SpawnSpec>) {
    && (forall p {:trigger RegOk(t, r, specs, p)} | p in r.byProcess :: RegOk(t, r, specs, p))
    && (forall a {:trigger AgentOk(r, a)} | a in r.byAgent :: AgentOk(r, a))
    && DistinctGenerations(r.byProcess)
    && specs.Keys <= r.byProcess.Keys
  }

  /** Every process is registered or an orphan of a refused budget reservation. */
  predicate OrphansOk(t: ProcessTable, r: IdentityRegistry, h: History) {
    && (forall p | p in t.procs :: p in r.byProcess || p in h.orphans)
    && (forall p | p in h.orphans :: p < t.nextPid && p !in r.byProcess)
    && (forall p | p in h.lineage :: p < t.nextPid && h.lineage[p] < t.nextPid && h.lineage[p] !in h.orphans)
  }

  /** Active operations belong to live processes. */
  predicate OpsOk(t: ProcessTable, ops: map<OpId, Pid>) {
    forall o | o in ops :: Live(t, ops[o])
  }

  predicate NoOps(ops: map<OpId, Pid>, id: Pid) {
    forall o | o in ops :: ops[o] != id
  }

  /** None of the first `n` ids is an orphan. */
  predicate NoOrphan(ids: seq<Pid>, n: nat, orphans: set<Pid>) {
    forall i | 0 <= i < |ids| && i < n :: ids[i] !in orphans
  }

  /** The replacements made so far stand for the first restart ids, one to one and in order. */
  predicate Matched(lineage: map<Pid, Pid>, restarted: seq<Pid>, ids: seq<Pid>) {
    && |restarted| <= |ids|
    && forall i | 0 <= i < |restarted| :: restarted[i] in lineage && lineage[restarted[i]] == ids[i]
  }

  predicate ProgressOk(t: ProcessTable, ops: map<OpId, Pid>, h: History, id: Pid, p: Progress) {
    match p.phase
    case Cleanup => p.decision.None? && p.restarted == []
    case MarkTerminal => p.decision.None? && p.restarted == [] && id in t.procs && NoOps(ops, id) && CleanedUp(id) in h.events
    case Supervise => p.decision.None? && p.restarted == [] && Dead(t, id)
    case Restarting =>
      && Dead(t, id) && p.decision.Some? && p.restartIds == RestartIds(id, p.decision.value)
      && (!IsFailureExit(p.reason) ==> p.decision.value.DoNotRestart?)
      && |p.restarted| <= |p.restartIds|
      && (NoOrphan(p.restartIds, |p.restarted|, h.orphans) ==> Matched(h.lineage, p.restarted, p.restartIds))
  }

  predicate OutcomeOk(t: ProcessTable, h: History, id: Pid, o: Outcome) {
    var ids := RestartIds(id, o.decision);
    && Dead(t, id) && o.process == id
    && (!IsFailureExit(o.reason) ==> o.decision.DoNotRestart? && o.restarted == [])
    && (NoOrphan(ids, |ids|, h.orphans) ==> |o.restarted| == |ids| && Matched(h.lineage, o.restarted, ids))
  }

  predicate ProgressesOk(t: ProcessTable, ops: map<OpId, Pid>, h: History, progress: map<Pid, Progress>) {
    forall id {:trigger ProgressOk(t, ops, h, id, progress[id])} | id in progress :: ProgressOk(t, ops, h, id, progress[id])
  }

  predicate OutcomesOk(t: ProcessTable, h: History, outcomes: map<Pid, Outcome>) {
    forall id {:trigger OutcomeOk(t, h, id, outcomes[id])} | id in outcomes :: OutcomeOk(t, h, id, outcomes[id])
  }

  // ---- history

  /** Cleanup precedes the terminal mark, and the mark precedes the supervisor's record. */
  predicate Ordered(events: seq<Event>) {
    && (forall i | 0 <= i < |events| && events[i].Marked? :: CleanedUp(events[i].process) in events[..i])
    && (forall i | 0 <= i < |events| && events[i].ExitRecorded? :: Marked(events[i].process) in events[..i])
  }

  /** Marks and records happen at most once per process; an agent's generations only grow. */
  predicate EventsOnce(events: seq<Event>) {
    && (forall i, j | 0 <= i < j < |events| && (events[i].Marked? || events[i].ExitRecorded?) :: events[i] != events[j])
    && (forall i, j | 0 <= i < j < |events| && events[i].Registered? && events[j].Registered? ::
          events[i].agent == events[j].agent ==> events[i].generation < events[j].generation)
  }

  predicate Past(progress: map<Pid, Progress>, outcomes: map<Pid, Outcome>, t: ProcessTable, id: Pid) {
    id in outcomes || (id in progress && progress[id].phase.Restarting?) || (id !in t.procs && id < t.nextPid)
  }

  predicate EventOk(k: State, e: Event) {
    match e
    case CleanedUp(_) => true
    case Marked(p) => Dead(k.table, p) || (p !in k.table.procs && p < k.table.nextPid)
    case ExitRecorded(p) => Past(k.progress, k.outcomes, k.table, p)
    case Registered(_, a, g) => a in k.identities.generations && g <= k.identities.generations[a]
  }

  ghost predicate HistoryOk(k: State) {
    && Ordered(k.history.events) && EventsOnce(k.history.events)
    && (forall e {:trigger EventOk(k, e)} | e in k.history.events :: EventOk(k, e))
    && (forall p {:trigger Dead(k.table, p)} | Dead(k.table, p) :: Marked(p) in k.history.events)
  }

  ghost predicate Inv(k: State) {
    && TableOk(k.table)
    && RegistryOk(k.table, k.identities, k.specs)
    && OrphansOk(k.table, k.identities, k.history)
    && OpsOk(k.table, k.operations)
    && ProgressesOk(k.table, k.operations, k.history, k.progress)
    && OutcomesOk(k.table, k.history, k.outcomes)
    && k.progress.Keys !! k.outcomes.Keys
    && HistoryOk(k)
  }

  /** Between calls a termination is waiting to repeat its cleanup or its restarts. */
  predicate AtRest(k: State) {
    forall id | id in k.progress :: k.progress[id].phase.Cleanup? || k.progress[id].phase.Restarting?
  }

  // ----------------------------------------------------------- event lemmas

  lemma LogKeepsOrder(events: seq<Event>, e: Event)
    requires Ordered(events)
    requires e.Marked? ==> CleanedUp(e.process) in events
    requires e.ExitRecorded? ==> Marked(e.process) in events
    ensures Ordered(events + [e])
  {
    var events' := events + [e];
    forall i | 0 <= i < |events'| ensures events'[..i] == if i < |events| then events[..i] else events {
    }
  }

  predicate NewerThan(events: seq<Event>, agent: AgentId, generation: int) {
    forall i | 0 <= i < |events| && events[i].Registered? && events[i].agent == agent :: events[i].generation < generation
  }

  lemma LogKeepsOnce(events: seq<Event>, e: Event)
    requires EventsOnce(events)
    requires e.Marked? || e.ExitRecorded? ==> e !in events
    requires e.Registered? ==> NewerThan(events, e.agent, e.generation)
    ensures EventsOnce(events + [e])
  {
  }

  lemma LogKeepsHistory(k: State, k': State, e: Event)
    requires HistoryOk(k) && k'.history.events == k.history.events + [e]
    requires forall x | x in k.history.events :: EventOk(k', x)
    requires EventOk(k', e)
    requires e.Marked? ==> CleanedUp(e.process) in k.history.events && e !in k.history.events
    requires e.ExitRecorded? ==> Marked(e.process) in k.history.events && e !in k.history.events
    requires e.Registered? ==> NewerThan(k.history.events, e.agent, e.generation)
    requires forall p | Dead(k'.table, p) :: Dead(k.table, p) || e == Marked(p)
    ensures HistoryOk(k')
  {
    LogKeepsOrder(k.history.events, e);
    LogKeepsOnce(k.history.events, e);
  }

  /** A change that logs nothing keeps the history if it keeps the facts about past events. */
  lemma QuietKeepsHistory(k: State, k': State)
    requires HistoryOk(k) && k'.history.events == k.history.events
    requires forall x | x in k.history.events :: EventOk(k', x)
    requires forall p | Dead(k'.table, p) :: Dead(k.table, p)
    ensures HistoryOk(k')
  {
  }

  // ------------------------------------------------------- cleanup and mark

  /** Dropping operations or logging an event leaves every termination as it was. */
  lemma QuietKeepsTransactions(t: ProcessTable, ops: map<OpId, Pid>, ops': map<OpId, Pid>, h: History, h': History,
                               progress: map<Pid, Progress>, outcomes: map<Pid, Outcome>)
    requires ProgressesOk(t, ops, h, progress) && OutcomesOk(t, h, outcomes)
    requires forall o | o in ops' :: o in ops && ops'[o] == ops[o]
    requires h'.orphans == h.orphans && h'.lineage == h.lineage && forall e | e in h.events :: e in h'.events
    ensures ProgressesOk(t, ops', h', progress) && OutcomesOk(t, h', outcomes)
  {
    forall i | i in progress ensures ProgressOk(t, ops', h', i, progress[i]) {
      assert ProgressOk(t, ops, h, i, progress[i]);
    }
    forall i | i in outcomes ensures OutcomeOk(t, h', i, outcomes[i]) {
      assert OutcomeOk(t, h, i, outcomes[i]);
    }
  }

  lemma LogKeepsInv(k: State, e: Event)
    requires Inv(k) && EventOk(k, e) && !e.Marked? && !e.Registered?
    requires e.ExitRecorded? ==> Marked(e.process) in k.history.events && e !in k.history.events
    ensures Inv(k.(history := Log(k.history, e)))
  {
    var k' := k.(history := Log(k.history, e));
    QuietKeepsTransactions(k.table, k.operations, k.operations, k.history, k'.history, k.progress, k.outcomes);
    forall x | x in k.history.events ensures EventOk(k', x) { assert EventOk(k, x); }
    LogKeepsHistory(k, k', e);
  }

  lemma CancelKeepsInv(k: State, id: Pid, which: set<OpId>)
    requires Inv(k)
    ensures Inv(k.(operations := CancelOps(k.operations, id, which)))
  {
    var k' := k.(operations := CancelOps(k.operations, id, which));
    QuietKeepsTransactions(k.table, k.operations, k'.operations, k.history, k.history, k.progress, k.outcomes);
    forall x | x in k.history.events ensures EventOk(k', x) { assert EventOk(k, x); }
    QuietKeepsHistory(k, k');
  }

  lemma CleanupKeepsInv(k: State, id: Pid, fault: Option<set<OpId>>)
    requires Inv(k)
    ensures Inv(CleanupStep(k, id, fault).0)
  {
    if id in k.table.procs {
      match fault
      case Some(done) => CancelKeepsInv(k, id, done);
      case None =>
        CancelKeepsInv(k, id, k.operations.Keys);
        LogKeepsInv(k.(operations := CancelOps(k.operations, id, k.operations.Keys)), CleanedUp(id));
    }
  }

  /** What a cleanup touches, and what it leaves behind when it completes. */
  lemma CleanupFrame(k: State, id: Pid, fault: Option<set<OpId>>)
    ensures var (k', done) := CleanupStep(k, id, fault);
            && k' == k.(operations := k'.operations, history := k'.history)
            && k'.history == k.history.(events := k'.history.events)
            && (done ==> id in k.table.procs && NoOps(k'.operations, id) && CleanedUp(id) in k'.history.events)
  {
  }

  /** No terminal reason and no live state makes `mark_exit` fail. */
  lemma ExitProcessTotal(p: Process, reason: ExitReason)
    ensures ExitProcess(p, reason).Some? <==> !IsTerminal(p.state)
    ensures ExitProcess(p, reason).Some? ==>
              ExitProcess(p, reason).value == p.(state := TerminalState(reason), exit := Some(reason))
  {
  }

  /** The table after a process is marked terminal: nothing else changes. */
  predicate MarkedTable(t: ProcessTable, t': ProcessTable, id: Pid) {
    && t'.nextPid == t.nextPid && t'.procs.Keys == t.procs.Keys
    && Live(t, id) && Dead(t', id) && t'.procs[id].agent == t.procs[id].agent
    && forall p | p in t.procs && p != id :: t'.procs[p] == t.procs[p]
  }

  lemma MarkExitTable(k: State, id: Pid, reason: ExitReason)
    requires Live(k.table, id)
    ensures var (k', ok) := MarkExit(k, id, reason);
            ok && MarkedTable(k.table, k'.table, id) && k' == k.(table := k'.table, history := Log(k.history, Marked(id)))
  {
    ExitProcessTotal(k.table.procs[id], reason);
  }

  lemma MarkKeepsRegistry(t: ProcessTable, t': ProcessTable, r: IdentityRegistry, specs: map<Pid, SpawnSpec>, id: Pid)
    requires RegistryOk(t, r, specs) && MarkedTable(t, t', id)
    ensures RegistryOk(t', r, specs)
  {
    forall p | p in r.byProcess ensures RegOk(t', r, specs, p) {
      assert RegOk(t, r, specs, p);
    }
    forall a | a in r.byAgent ensures AgentOk(r, a) { assert AgentOk(r, a); }
  }

  lemma MarkKeepsTransactions(k: State, k': State, id: Pid)
    requires Inv(k) && MarkedTable(k.table, k'.table, id)
    requires k' == k.(table := k'.table, history := Log(k.history, Marked(id)))
    ensures ProgressesOk(k'.table, k'.operations, k'.history, k'.progress)
    ensures OutcomesOk(k'.table, k'.history, k'.outcomes)
  {
    forall i | i in k'.progress ensures ProgressOk(k'.table, k'.operations, k'.history, i, k'.progress[i]) {
      assert ProgressOk(k.table, k.operations, k.history, i, k.progress[i]);
    }
    forall i | i in k'.outcomes ensures OutcomeOk(k'.table, k'.history, i, k'.outcomes[i]) {
      assert OutcomeOk(k.table, k.history, i, k.outcomes[i]);
    }
  }

  lemma MarkKeepsInv(k: State, id: Pid, reason: ExitReason)
    requires Inv(k) && Live(k.table, id) && NoOps(k.operations, id) && CleanedUp(id) in k.history.events
    ensures MarkExit(k, id, reason).1 && Inv(MarkExit(k, id, reason).0)
  {
    MarkExitTable(k, id, reason);
    var k' := MarkExit(k, id, reason).0;
    MarkKeepsRegistry(k.table, k'.table, k.identities, k.specs, id);
    MarkKeepsTransactions(k, k', id);
    assert EventOk(k, Marked(id)) <==> Dead(k.table, id);
    forall x | x in k.history.events ensures EventOk(k', x) {
      assert EventOk(k, x);
    }
    LogKeepsHistory(k, k', Marked(id));
  }

  // ------------------------------------------------------------------ spawn

  /** The table after a spawn: one new live process under a fresh id. */
  predicate SpawnedTable(t: ProcessTable, t': ProcessTable, agent: AgentId) {
    && t'.nextPid == t.nextPid + 1
    && t'.procs.Keys == t.procs.Keys + {t.nextPid} && Live(t', t.nextPid) && t'.procs[t.nextPid].agent == agent
    && forall p | p in t.procs && p != t.nextPid :: t'.procs[p] == t.procs[p]
  }

  lemma NewProcessTable(t: ProcessTable, spec: SpawnSpec)
    requires TableOk(t)
    ensures t.nextPid !in t.procs && SpawnedTable(t, NewProcess(t, spec), spec.agent) && TableOk(NewProcess(t, spec))
  {
  }

  lemma SpawnKeepsTransactions(k: State, k': State, agent: AgentId)
    requires Inv(k) && SpawnedTable(k.table, k'.table, agent)
    requires k'.progress == k.progress && k'.outcomes == k.outcomes && k'.operations == k.operations
    requires k'.history.lineage == k.history.lineage && k.history.orphans <= k'.history.orphans
    requires forall e | e in k.history.events :: e in k'.history.events
    ensures ProgressesOk(k'.table, k'.operations, k'.history, k'.progress)
    ensures OutcomesOk(k'.table, k'.history, k'.outcomes)
    ensures OpsOk(k'.table, k'.operations)
  {
    forall i | i in k'.progress ensures ProgressOk(k'.table, k'.operations, k'.history, i, k'.progress[i]) {
      assert ProgressOk(k.table, k.operations, k.history, i, k.progress[i]);
    }
    forall i | i in k'.outcomes ensures OutcomeOk(k'.table, k'.history, i, k'.outcomes[i]) {
      assert OutcomeOk(k.table, k.history, i, k.outcomes[i]);
    }
  }

  lemma SpawnKeepsEvents(k: State, k': State, agent: AgentId, e: Event)
    requires Inv(k) && SpawnedTable(k.table, k'.table, agent) && e in k.history.events
    requires k'.progress == k.progress && k'.outcomes == k.outcomes
    requires forall a | a in k.identities.generations ::
               a in k'.identities.generations && k.identities.generations[a] <= k'.identities.generations[a]
    ensures EventOk(k', e)
  {
    assert EventOk(k, e);
  }

  lemma OrphanKeepsInv(k: State, spec: SpawnSpec)
    requires Inv(k) && MaySpawn(k, spec, BudgetFails)
    ensures Inv(SpawnStep(k, spec, BudgetFails).0)
  {
    var k' := SpawnStep(k, spec, BudgetFails).0;
    assert k.table.nextPid in k.identities.byProcess ==> RegOk(k.table, k.identities, k.specs, k.table.nextPid);
    NewProcessTable(k.table, spec);
    SpawnKeepsTransactions(k, k', spec.agent);
    forall p | p in k.identities.byProcess ensures RegOk(k'.table, k.identities, k.specs, p) {
      assert RegOk(k.table, k.identities, k.specs, p);
    }
    forall a | a in k.identities.byAgent ensures AgentOk(k.identities, a) { assert AgentOk(k.identities, a); }
    forall e | e in k.history.events ensures EventOk(k', e) { SpawnKeepsEvents(k, k', spec.agent, e); }
    QuietKeepsHistory(k, k');
  }

  lemma RegisterKeepsRegistry(t: ProcessTable, t': ProcessTable, r: IdentityRegistry, specs: map<Pid, SpawnSpec>, spec: SpawnSpec)
    requires TableOk(t) && RegistryOk(t, r, specs) && SpawnedTable(t, t', spec.agent)
    requires spec.agent in r.byAgent ==> Dead(t, r.byAgent[spec.agent].process)
    ensures t.nextPid !in r.byProcess
    ensures RegistryOk(t', Register(r, spec.agent, t.nextPid), specs[t.nextPid := spec])
  {
    var p, r', specs' := t.nextPid, Register(r, spec.agent, t.nextPid), specs[t.nextPid := spec];
    assert p in r.byProcess ==> RegOk(t, r, specs, p);
    forall q | q in r'.byProcess ensures RegOk(t', r', specs', q) {
      if q != p {
        assert RegOk(t, r, specs, q);
        assert IsCurrent(r, q) && r.byProcess[q].agent == spec.agent ==> Dead(t, q);
      }
    }
    forall a | a in r'.byAgent ensures AgentOk(r', a) {
      if a != spec.agent {
        assert AgentOk(r, a);
      }
    }
    forall q | q in r.byProcess && r.byProcess[q].agent == spec.agent
      ensures r.byProcess[q].generation < r'.byProcess[p].generation
    {
      assert RegOk(t, r, specs, q);
    }
  }

  lemma RegisteredKeepsInv(k: State, spec: SpawnSpec)
    requires Inv(k) && MaySpawn(k, spec, NoFault)
    ensures Inv(SpawnStep(k, spec, NoFault).0)
  {
    var (k', spawned) := SpawnStep(k, spec, NoFault);
    NewProcessTable(k.table, spec);
    SpawnKeepsTransactions(k, k', spec.agent);
    RegisterKeepsRegistry(k.table, k'.table, k.identities, k.specs, spec);
    forall e | e in k.history.events ensures EventOk(k', e) { SpawnKeepsEvents(k, k', spec.agent, e); }
    var g := k'.identities.generations[spec.agent];
    forall i | 0 <= i < |k.history.events| && k.history.events[i].Registered? && k.history.events[i].agent == spec.agent
      ensures k.history.events[i].generation < g
    {
      assert EventOk(k, k.history.events[i]);
    }
    LogKeepsHistory(k, k', Registered(k.table.nextPid, spec.agent, g));
  }

  lemma SpawnKeepsInv(k: State, spec: SpawnSpec, fault: SpawnFault)
    requires Inv(k)
    ensures Inv(SpawnStep(k, spec, fault).0)
  {
    if MaySpawn(k, spec, fault) {
      match fault
      case NoFault => RegisteredKeepsInv(k, spec);
      case ForkFails =>
      case BudgetFails => OrphanKeepsInv(k, spec);
    }
  }

  // ------------------------------------------------------------- the phases

  /** What the inside of a termination does to terminations: reasons and recorded decisions
      stay, phases only advance, nobody else's entry is touched, and no outcome is published. */
  predicate Forward(k: State, k': State) {
    && k'.outcomes == k.outcomes && k'.progress.Keys == k.progress.Keys
    && (forall i | i in k.progress ::
          && k'.progress[i].reason == k.progress[i].reason
          && PhaseRank(k.progress[i].phase) <= PhaseRank(k'.progress[i].phase)
          && (k.progress[i].phase.Restarting? ==> k'.progress[i].decision == k.progress[i].decision))
    && k.table.nextPid <= k'.table.nextPid && k.table.procs.Keys <= k'.table.procs.Keys
  }

  predicate OthersUntouched(k: State, k': State, id: Pid) {
    forall i | i in k.progress && i != id :: i in k'.progress && k'.progress[i] == k.progress[i]
  }

  lemma SetProgressKeepsInv(k: State, id: Pid, p: Progress)
    requires Inv(k) && id !in k.outcomes && ProgressOk(k.table, k.operations, k.history, id, p)
    requires id in k.progress && k.progress[id].phase.Restarting? ==> p.phase.Restarting?
    ensures Inv(SetProgress(k, id, p))
  {
    var k' := SetProgress(k, id, p);
    forall i | i in k'.progress ensures ProgressOk(k'.table, k'.operations, k'.history, i, k'.progress[i]) {
      if i != id { assert ProgressOk(k.table, k.operations, k.history, i, k.progress[i]); }
    }
    forall x | x in k.history.events ensures EventOk(k', x) { assert EventOk(k, x); }
    QuietKeepsHistory(k, k');
  }

  lemma CleanupPhaseKeepsInv(k: State, id: Pid, fault: Option<set<OpId>>)
    requires Inv(k) && id in k.progress && k.progress[id].phase.Cleanup?
    ensures var (k', ok) := CleanupPhase(k, id, fault); Inv(k') && Forward(k, k') && OthersUntouched(k, k', id)
  {
    CleanupKeepsInv(k, id, fault);
    CleanupFrame(k, id, fault);
    var (k1, done) := CleanupStep(k, id, fault);
    assert ProgressOk(k.table, k.operations, k.history, id, k.progress[id]);
    if done {
      SetProgressKeepsInv(k1, id, k.progress[id].(phase := MarkTerminal));
    }
  }

  lemma MarkLivePhaseKeepsInv(k: State, id: Pid)
    requires Inv(k) && id in k.progress && k.progress[id].phase.MarkTerminal? && !Dead(k.table, id)
    ensures MarkPhase(k, id).1 && Inv(MarkPhase(k, id).0)
    ensures Forward(k, MarkPhase(k, id).0) && OthersUntouched(k, MarkPhase(k, id).0, id)
  {
    assert ProgressOk(k.table, k.operations, k.history, id, k.progress[id]);
    var reason := k.progress[id].reason;
    MarkKeepsInv(k, id, reason);
    MarkExitTable(k, id, reason);
    var k1 := MarkExit(k, id, reason).0;
    SetProgressKeepsInv(k1, id, k.progress[id].(phase := Supervise));
  }

  lemma MarkPhaseKeepsInv(k: State, id: Pid)
    requires Inv(k) && id in k.progress && k.progress[id].phase.MarkTerminal?
    ensures MarkPhase(k, id).1 && Inv(MarkPhase(k, id).0)
    ensures Forward(k, MarkPhase(k, id).0) && OthersUntouched(k, MarkPhase(k, id).0, id)
  {
    if Dead(k.table, id) {
      assert ProgressOk(k.table, k.operations, k.history, id, k.progress[id]);
      SetProgressKeepsInv(k, id, k.progress[id].(phase := Supervise));
    } else {
      MarkLivePhaseKeepsInv(k, id);
    }
  }

  /** The decision a Supervise pass records may stand in the progress entry. */
  lemma RecordedProgressOk(k: State, id: Pid)
    requires Inv(k) && id in k.progress && k.progress[id].phase.Supervise?
    ensures var decision := RecordExit(k.supervisor, id, k.progress[id].reason).1;
      ProgressOk(k.table, k.operations, k.history, id,
                 k.progress[id].(restartIds := RestartIds(id, decision), decision := Some(decision), phase := Restarting))
  {
    assert ProgressOk(k.table, k.operations, k.history, id, k.progress[id]);
  }

  lemma MayRecordExit(k: State, id: Pid)
    requires Inv(k) && id in k.progress && k.progress[id].phase.Supervise?
    ensures Marked(id) in k.history.events && ExitRecorded(id) !in k.history.events && id !in k.outcomes
  {
    assert ProgressOk(k.table, k.operations, k.history, id, k.progress[id]);
    assert ExitRecorded(id) in k.history.events ==> EventOk(k, ExitRecorded(id));
  }

  lemma SuperviseKeepsInv(k: State, id: Pid)
    requires Inv(k) && id in k.progress && k.progress[id].phase.Supervise?
    ensures Inv(SuperviseStep(k, id))
  {
    var recorded := RecordExit(k.supervisor, id, k.progress[id].reason);
    RecordedProgressOk(k, id);
    MayRecordExit(k, id);
    SupervisorIsFree(k, recorded.0);
    var k1 := k.(supervisor := recorded.0);
    var p := k.progress[id].(restartIds := RestartIds(id, recorded.1), decision := Some(recorded.1), phase := Restarting);
    SetProgressKeepsInv(k1, id, p);
    LogKeepsInv(SetProgress(k1, id, p), ExitRecorded(id));
  }

  lemma SupervisePhaseKeepsInv(k: State, id: Pid)
    requires Inv(k) && id in k.progress && k.progress[id].phase.Supervise?
    ensures var k' := SuperviseStep(k, id); Inv(k') && Forward(k, k') && OthersUntouched(k, k', id)
  {
    SuperviseKeepsInv(k, id);
  }

  lemma SupervisorIsFree(k: State, s: Supervisor)
    requires Inv(k)
    ensures Inv(k.(supervisor := s))
  {
    var k' := k.(supervisor := s);
    forall x | x in k.history.events ensures EventOk(k', x) { assert EventOk(k, x); }
    QuietKeepsHistory(k, k');
  }

  lemma PhaseKeepsInv(k: State, id: Pid, f: Faults)
    requires Inv(k) && id in k.progress && !k.progress[id].phase.Restarting?
    ensures var (k', ok) := PhaseStep(k, id, f);
            && Inv(k') && Forward(k, k') && OthersUntouched(k, k', id)
            && (!ok ==> k.progress[id].phase.Cleanup?)
  {
    match k.progress[id].phase
    case Cleanup => CleanupPhaseKeepsInv(k, id, f.cleanup(0));
    case MarkTerminal => MarkPhaseKeepsInv(k, id);
    case Supervise => SupervisePhaseKeepsInv(k, id);
  }

  /** The phase loop keeps the invariant and can only stop in Cleanup or Restarting. */
  lemma {:induction false} AdvanceKeepsInv(k: State, id: Pid, f: Faults)
    requires Inv(k) && id in k.progress
    ensures var (k', ok) := Advance(k, id, f);
            && Inv(k') && Forward(k, k') && OthersUntouched(k, k', id)
            && (!ok ==> k'.progress[id].phase.Cleanup?)
    decreases 3 - PhaseRank(k.progress[id].phase)
  {
    if !k.progress[id].phase.Restarting? {
      PhaseKeepsInv(k, id, f);
      var (k1, ok) := PhaseStep(k, id, f);
      if ok { AdvanceKeepsInv(k1, id, f); }
    }
  }
}
