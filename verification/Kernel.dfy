/** The kernel's process lifecycle (crates/kernel/src/runtime.rs) over its process table
    (process/table.rs) and supervisor tree (supervision/tree.rs). Calls are serialized.
    Everything that can go wrong outside the shown tables is a fault the caller of a step
    chooses: a cleanup that stops half way, a space fork or a budget reservation refused. */
module Kernel {
  import opened Text

  type Pid = int
  type AgentId = int
  datatype OpId = OpId(number: int)

  // --------------------------------------------------------------- entities

  datatype ProcessState = Created | Ready | Running | Waiting | Stopping | Exited | Failed

  datatype ExitReason = Completed | Cancelled(why: string) | Failure(why: string) | Panic(why: string) | DeadlineExceeded

  datatype Process = Process(agent: AgentId, parent: Option<Pid>, state: ProcessState, exit: Option<ExitReason>)

  datatype SpawnSpec = SpawnSpec(agent: AgentId, parent: Option<Pid>)

  datatype Identity = Identity(agent: AgentId, process: Pid, generation: int, osPid: Option<int>)

  datatype RestartPolicy = Never | RestartOnFailure(maxRestarts: int)

  datatype GroupStrategy = OneForOne | OneForAll | RestForOne

  datatype Group = Group(strategy: GroupStrategy, members: seq<Pid>)

  datatype Supervisor = Supervisor(
    policies: map<Pid, RestartPolicy>, restarts: map<Pid, int>,
    groupOf: map<Pid, string>, groups: map<string, Group>)

  datatype RestartDecision =
    | DoNotRestart | Restart(attempt: int) | FailedLimitReached | RestartGroup(attempt: int, siblings: seq<Pid>)

  datatype Phase = Cleanup | MarkTerminal | Supervise | Restarting

  datatype Progress = Progress(
    reason: ExitReason, phase: Phase, decision: Option<RestartDecision>,
    restartIds: seq<Pid>, restarted: seq<Pid>)

  datatype Outcome = Outcome(process: Pid, reason: ExitReason, decision: RestartDecision, restarted: seq<Pid>)

  /** History, for stating whole-run properties; no call reads it. */
  datatype Event =
    | CleanedUp(process: Pid)
    | Marked(process: Pid)
    | ExitRecorded(process: Pid)
    | Registered(process: Pid, agent: AgentId, generation: int)

  datatype History = History(
    events: seq<Event>,
    orphans: set<Pid>,        // spawned, then refused by the budget
    lineage: map<Pid, Pid>)   // replacement -> process it replaces

  /** The table mints process ids that are never used again. */
  datatype ProcessTable = ProcessTable(procs: map<Pid, Process>, nextPid: Pid)

  datatype IdentityRegistry = IdentityRegistry(
    byAgent: map<AgentId, Identity>, byProcess: map<Pid, Identity>, generations: map<AgentId, int>)

  datatype State = State(
    table: ProcessTable,
    supervisor: Supervisor,
    operations: map<OpId, Pid>,      // active operations and their owner
    progress: map<Pid, Progress>,
    outcomes: map<Pid, Outcome>,
    specs: map<Pid, SpawnSpec>,
    identities: IdentityRegistry,
    history: History)

  function Log(h: History, e: Event): History {
    h.(events := h.events + [e])
  }

  // ----------------------------------------------------------- process table

  predicate IsTerminal(s: ProcessState) {
    s.Exited? || s.Failed?
  }

  predicate CanTransition(from: ProcessState, to: ProcessState) {
    match from
    case Created => to.Ready? || to.Stopping? || to.Failed?
    case Ready => to.Running? || to.Stopping? || to.Failed?
    case Running => to.Waiting? || to.Stopping? || to.Failed?
    case Waiting => to.Running? || to.Stopping? || to.Failed?
    case Stopping => to.Exited? || to.Failed?
    case _ => false
  }

  function TerminalState(reason: ExitReason): ProcessState {
    if reason.Failure? || reason.Panic? then Failed else Exited
  }

  /** `ProcessTable::mark_exit`, on one process. */
  function ExitProcess(p: Process, reason: ExitReason): Option<Process> {
    var target := TerminalState(reason);
    var via := if target.Exited? && !p.state.Stopping? then Stopping else p.state;
    if IsTerminal(p.state) || (via != p.state && !CanTransition(p.state, via)) || !CanTransition(via, target) then None
    else Some(p.(state := target, exit := Some(reason)))
  }

  function SetProcess(table: ProcessTable, id: Pid, p: Process): ProcessTable {
    table.(procs := table.procs[id := p])
  }

  function MarkExit(k: State, id: Pid, reason: ExitReason): (State, bool) {
    if id !in k.table.procs then (k, false)
    else match ExitProcess(k.table.procs[id], reason)
      case None => (k, false)
      case Some(p) => (k.(table := SetProcess(k.table, id, p), history := Log(k.history, Marked(id))), true)
  }

  predicate Live(table: ProcessTable, p: Pid) {
    p in table.procs && !IsTerminal(table.procs[p].state)
  }

  predicate Dead(table: ProcessTable, p: Pid) {
    p in table.procs && IsTerminal(table.procs[p].state)
  }

  // -------------------------------------------------------------- supervisor

  predicate IsFailureExit(reason: ExitReason) {
    reason.Failure? || reason.Panic? || reason.DeadlineExceeded?
  }

  function Policy(s: Supervisor, id: Pid): RestartPolicy {
    if id in s.policies then s.policies[id] else Never
  }

  function Attempts(s: Supervisor, id: Pid): int {
    if id in s.restarts then s.restarts[id] else 0
  }

  function Without(members: seq<Pid>, id: Pid): seq<Pid> {
    if members == [] then []
    else if members[0] == id then Without(members[1..], id)
    else [members[0]] + Without(members[1..], id)
  }

  function After(members: seq<Pid>, id: Pid): seq<Pid> {
    if members == [] then [] else if members[0] == id then members[1..] else After(members[1..], id)
  }

  function Siblings(s: Supervisor, id: Pid): seq<Pid> {
    if id !in s.groupOf || s.groupOf[id] !in s.groups then []
    else
      var g := s.groups[s.groupOf[id]];
      match g.strategy
      case OneForOne => []
      case OneForAll => Without(g.members, id)
      case RestForOne => After(g.members, id)
  }

  /** `SupervisorTree::record_exit`. */
  function RecordExit(s: Supervisor, id: Pid, reason: ExitReason): (Supervisor, RestartDecision) {
    if !IsFailureExit(reason) || Policy(s, id).Never? then (s, DoNotRestart)
    else
      var next := Attempts(s, id) + 1;
      if next > Policy(s, id).maxRestarts then (s, FailedLimitReached)
      else
        var counted := s.restarts[id := next];
        var siblings := Siblings(s, id);
        if siblings == [] then (s.(restarts := counted), Restart(next))
        else (s.(restarts := counted - set p | p in siblings), RestartGroup(next, siblings))
  }

  function ReplaceFirst(members: seq<Pid>, previous: Pid, replacement: Pid): seq<Pid> {
    if members == [] then []
    else if members[0] == previous then [replacement] + members[1..]
    else [members[0]] + ReplaceFirst(members[1..], previous, replacement)
  }

  /** `SupervisorTree::inherit_restart_lineage`. */
  function InheritLineage(s: Supervisor, previous: Pid, replacement: Pid): Supervisor {
    var s1 := s.(policies := s.policies[replacement := Policy(s, previous)],
                 restarts := s.restarts[replacement := Attempts(s, previous)]);
    if previous !in s.groupOf then s1
    else
      var name := s.groupOf[previous];
      var s2 := s1.(groupOf := s1.groupOf[replacement := name]);
      if name !in s2.groups then s2
      else s2.(groups := s2.groups[name := s2.groups[name].(members := ReplaceFirst(s2.groups[name].members, previous, replacement))])
  }

  function RestartIds(id: Pid, decision: RestartDecision): seq<Pid> {
    match decision
    case Restart(_) => [id]
    case RestartGroup(_, siblings) => [id] + siblings
    case _ => []
  }

  // ------------------------------------------------------------------ faults

  datatype SpawnFault = NoFault | ForkFails | BudgetFails

  /** Cleanup 0 is the terminating process's own; cleanup and spawn `i + 1` and `i` belong to
      the `i`-th process to restart. `Some(done)` stops a cleanup after cancelling `done`. */
  datatype Faults = Faults(cleanup: nat -> Option<set<OpId>>, spawn: nat -> SpawnFault)

  // ------------------------------------------------------------------- steps

  function CancelOps(ops: map<OpId, Pid>, id: Pid, which: set<OpId>): map<OpId, Pid> {
    map o | o in ops && !(ops[o] == id && o in which) :: ops[o]
  }

  /** `cleanup_process_resources`; the flag says whether it completed. */
  function CleanupStep(k: State, id: Pid, fault: Option<set<OpId>>): (State, bool) {
    if id !in k.table.procs then (k, false)
    else match fault
      case Some(done) => (k.(operations := CancelOps(k.operations, id, done)), false)
      case None => (k.(operations := CancelOps(k.operations, id, k.operations.Keys), history := Log(k.history, CleanedUp(id))), true)
  }

  /** When `spawn_process` gets as far as a new row in the process table. */
  predicate MaySpawn(k: State, spec: SpawnSpec, fault: SpawnFault) {
    && (spec.agent in k.identities.byAgent ==> Dead(k.table, k.identities.byAgent[spec.agent].process))
    && (spec.parent.Some? ==> Live(k.table, spec.parent.value))
    && !fault.ForkFails?
  }

  function NewProcess(table: ProcessTable, spec: SpawnSpec): ProcessTable {
    ProcessTable(table.procs[table.nextPid := Process(spec.agent, spec.parent, Created, None)], table.nextPid + 1)
  }

  function Register(r: IdentityRegistry, agent: AgentId, p: Pid): IdentityRegistry {
    var generation := (if agent in r.generations then r.generations[agent] else 0) + 1;
    var identity := Identity(agent, p, generation, None);
    IdentityRegistry(r.byAgent[agent := identity], r.byProcess[p := identity], r.generations[agent := generation])
  }

  /** `spawn_process`; answers the new process id, if any. */
  function SpawnStep(k: State, spec: SpawnSpec, fault: SpawnFault): (State, Option<Pid>) {
    var p := k.table.nextPid;
    if !MaySpawn(k, spec, fault) then (k, None)
    else if fault.BudgetFails? then
      (k.(table := NewProcess(k.table, spec), history := k.history.(orphans := k.history.orphans + {p})), None)
    else
      var registry := Register(k.identities, spec.agent, p);
      (k.(table := NewProcess(k.table, spec), specs := k.specs[p := spec], identities := registry,
          history := Log(k.history, Registered(p, spec.agent, registry.generations[spec.agent]))),
       Some(p))
  }

  function SetProgress(k: State, id: Pid, p: Progress): State {
    k.(progress := k.progress[id := p])
  }

  /** The Supervise phase: one `record_exit`, its decision and the next phase together. */
  function SuperviseStep(k: State, id: Pid): State
    requires id in k.progress
  {
    var recorded := RecordExit(k.supervisor, id, k.progress[id].reason);
    SetProgress(k.(supervisor := recorded.0, history := Log(k.history, ExitRecorded(id))), id,
                k.progress[id].(restartIds := RestartIds(id, recorded.1), decision := Some(recorded.1), phase := Restarting))
  }

  function PhaseRank(p: Phase): nat {
    match p case Cleanup => 0 case MarkTerminal => 1 case Supervise => 2 case Restarting => 3
  }

  function MarkPhase(k: State, id: Pid): (State, bool)
    requires id in k.progress
  {
    var marked := if Dead(k.table, id) then (k, true) else MarkExit(k, id, k.progress[id].reason);
    if marked.1 then (SetProgress(marked.0, id, k.progress[id].(phase := Supervise)), true) else marked
  }

  function CleanupPhase(k: State, id: Pid, fault: Option<set<OpId>>): (State, bool)
    requires id in k.progress
  {
    var cleaned := CleanupStep(k, id, fault);
    if cleaned.1 then (SetProgress(cleaned.0, id, k.progress[id].(phase := MarkTerminal)), true) else cleaned
  }

  /** One pass of the phase loop; the flag is false when the pass failed. */
  function PhaseStep(k: State, id: Pid, f: Faults): (r: (State, bool))
    requires id in k.progress && !k.progress[id].phase.Restarting?
    ensures id in r.0.progress
    ensures PhaseRank(r.0.progress[id].phase) == PhaseRank(k.progress[id].phase) + if r.1 then 1 else 0
  {
    match k.progress[id].phase
    case Cleanup => CleanupPhase(k, id, f.cleanup(0))
    case MarkTerminal => MarkPhase(k, id)
    case Supervise => (SuperviseStep(k, id), true)
  }

  /** The phase loop, up to the restarts; the flag says whether it got there. */
  function Advance(k: State, id: Pid, f: Faults): (r: (State, bool))
    requires id in k.progress
    ensures id in r.0.progress && (r.1 ==> r.0.progress[id].phase.Restarting?)
    decreases 3 - PhaseRank(k.progress[id].phase)
  {
    if k.progress[id].phase.Restarting? then (k, true)
    else
      var pass := PhaseStep(k, id, f);
      if pass.1 then Advance(pass.0, id, f) else pass
  }

  const GROUP_RESTART := "supervisor group restart"

  /** Stops a group member that is still live, before it is replaced. */
  function StopMember(k: State, id: Pid, member: Pid, fault: Option<set<OpId>>): (State, bool) {
    if member == id || Dead(k.table, member) then (k, true)
    else if member !in k.table.procs then (k, false)
    else
      var cleaned := CleanupStep(k, member, fault);
      if cleaned.1 then MarkExit(cleaned.0, member, Cancelled(GROUP_RESTART)) else cleaned
  }

  function RecordReplacement(k: State, id: Pid, member: Pid, p: Pid): State
    requires id in k.progress
  {
    SetProgress(k.(supervisor := InheritLineage(k.supervisor, member, p),
                   history := k.history.(lineage := k.history.lineage[p := member])),
                id, k.progress[id].(restarted := k.progress[id].restarted + [p]))
  }

  function Replace(k: State, id: Pid, member: Pid, fault: SpawnFault): (State, bool) {
    if member !in k.specs then (k, true)
    else
      var spawned := SpawnStep(k, k.specs[member], fault);
      if spawned.1.None? || id !in spawned.0.progress then (spawned.0, false)
      else (RecordReplacement(spawned.0, id, member, spawned.1.value), true)
  }

  function RestartOne(k: State, id: Pid, member: Pid, j: nat, f: Faults): (State, bool) {
    var stopped := StopMember(k, id, member, f.cleanup(j + 1));
    if stopped.1 then Replace(stopped.0, id, member, f.spawn(j)) else stopped
  }

  /** The restart loop from index `j`. */
  function RestartFrom(k: State, id: Pid, ids: seq<Pid>, j: nat, f: Faults): (State, bool)
    decreases |ids| - j
  {
    if j >= |ids| then (k, true)
    else
      var one := RestartOne(k, id, ids[j], j, f);
      if one.1 then RestartFrom(one.0, id, ids, j + 1, f) else one
  }

  function BeginTermination(k: State, id: Pid, reason: ExitReason): State {
    if id in k.progress then k
    else k.(progress := k.progress[id := Progress(reason, Cleanup, None, [], [])])
  }

  function Finish(k: State, id: Pid): (State, Option<Outcome>) {
    if id !in k.progress || k.progress[id].decision.None? then (k, None)
    else
      var done := k.progress[id];
      var outcome := Outcome(id, done.reason, done.decision.value, done.restarted);
      (k.(progress := k.progress - {id}, outcomes := k.outcomes[id := outcome]), Some(outcome))
  }

  /** `terminate_process`; None is an error the caller may retry. */
  function TerminateStep(k: State, id: Pid, reason: ExitReason, f: Faults): (State, Option<Outcome>) {
    if id in k.outcomes then (k, Some(k.outcomes[id]))
    else
      var reached := Advance(BeginTermination(k, id, reason), id, f);
      if !reached.1 then (reached.0, None)
      else
        var todo := reached.0.progress[id];
        var restarted := RestartFrom(reached.0, id, todo.restartIds, |todo.restarted|, f);
        if restarted.1 then Finish(restarted.0, id) else (restarted.0, None)
  }

  function Unregister(r: IdentityRegistry, agent: AgentId, p: Pid): IdentityRegistry {
    r.(byProcess := r.byProcess - {p},
       byAgent := if agent in r.byAgent && r.byAgent[agent].process == p then r.byAgent - {agent} else r.byAgent)
  }

  /** `reap_process`. */
  function ReapStep(k: State, id: Pid): State {
    if !Dead(k.table, id) then k
    else k.(table := k.table.(procs := k.table.procs - {id}), specs := k.specs - {id},
            progress := k.progress - {id}, outcomes := k.outcomes - {id},
            identities := Unregister(k.identities, k.table.procs[id].agent, id))
  }

  predicate IsCurrent(r: IdentityRegistry, p: Pid) {
    && p in r.byProcess
    && r.byProcess[p].agent in r.byAgent && r.byAgent[r.byProcess[p].agent].process == p
  }

  /** `bind_os_process_id`. */
  function BindStep(k: State, p: Pid, osPid: int): (State, Option<Identity>) {
    if !IsCurrent(k.identities, p) then (k, None)
    else
      var bound := k.identities.byProcess[p].(osPid := Some(osPid));
      (k.(identities := k.identities.(byProcess := k.identities.byProcess[p := bound],
                                      byAgent := k.identities.byAgent[bound.agent := bound])),
       Some(bound))
  }

  /** One transition of the process table that stays short of the terminal states; Start,
      Wait and Resume are made of these. */
  function SignalStep(k: State, id: Pid, next: ProcessState): State {
    if id in k.table.procs && CanTransition(k.table.procs[id].state, next) && !IsTerminal(next) then
      k.(table := SetProcess(k.table, id, k.table.procs[id].(state := next)))
    else k
  }

  /** `submit_operation`. */
  function SubmitStep(k: State, owner: Pid, op: OpId): State {
    if Live(k.table, owner) && op !in k.operations then k.(operations := k.operations[op := owner]) else k
  }

  datatype Call =
    | Spawn(spec: SpawnSpec, fault: SpawnFault)
    | Terminate(id: Pid, reason: ExitReason, faults: Faults)
    | Reap(id: Pid)
    | Bind(id: Pid, osPid: int)
    | Signal(id: Pid, next: ProcessState)
    | SetPolicy(id: Pid, policy: RestartPolicy)
    | Submit(id: Pid, op: OpId)
    | Settle(op: OpId)

  function Step(k: State, call: Call): State {
    match call
    case Spawn(spec, fault) => SpawnStep(k, spec, fault).0
    case Terminate(id, reason, faults) => TerminateStep(k, id, reason, faults).0
    case Reap(id) => ReapStep(k, id)
    case Bind(id, osPid) => BindStep(k, id, osPid).0
    case Signal(id, next) => SignalStep(k, id, next)
    case SetPolicy(id, policy) => k.(supervisor := k.supervisor.(policies := k.supervisor.policies[id := policy]))
    case Submit(id, op) => SubmitStep(k, id, op)
    case Settle(op) => k.(operations := k.operations - {op})
  }

  function Run(k: State, calls: seq<Call>): State
    decreases |calls|
  {
    if calls == [] then k else Run(Step(k, calls[0]), calls[1..])
  }

  /** A fresh kernel; the supervisor may already hold groups. */
  function Boot(groups: map<string, Group>, groupOf: map<Pid, string>): State {
    State(ProcessTable(map[], 0), Supervisor(map[], map[], groupOf, groups), map[], map[], map[], map[],
          IdentityRegistry(map[], map[], map[]), History([], {}, map[]))
  }
}
