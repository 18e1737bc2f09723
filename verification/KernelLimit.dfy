/** The restart limit over whole lineages: a process, its replacement, the replacement's
    replacement, and so on. */
module KernelLimit {
  import opened Text
  import opened Kernel
  import opened KernelInvariant
  import opened KernelTermination
  import opened KernelRuns
  import opened KernelReplacements

  // ---------------------------------------------------------------- lineages

  /** How many replacements lie between a process and the first of its lineage. */
  function Depth(lineage: map<Pid, Pid>, p: Pid): nat
    decreases p
  {
    if p in lineage && 0 <= lineage[p] < p then 1 + Depth(lineage, lineage[p]) else 0
  }

  function Root(lineage: map<Pid, Pid>, p: Pid): Pid
    decreases p
  {
    if p in lineage && 0 <= lineage[p] < p then Root(lineage, lineage[p]) else p
  }

  /** A process is replaced by a later one. */
  predicate Descending(lineage: map<Pid, Pid>) {
    forall p {:trigger lineage[p]} | p in lineage :: 0 <= lineage[p] < p
  }

  predicate Below(lineage: map<Pid, Pid>, n: Pid) {
    forall p {:trigger lineage[p]} | p in lineage :: p < n
  }

  lemma {:induction false} DepthKept(lineage: map<Pid, Pid>, n: Pid, m: Pid, q: Pid)
    requires Below(lineage, n) && q != n
    ensures Depth(lineage[n := m], q) == Depth(lineage, q)
    decreases q
  {
    if q in lineage && 0 <= lineage[q] < q {
      DepthKept(lineage, n, m, lineage[q]);
    }
  }

  lemma NewDepth(lineage: map<Pid, Pid>, n: Pid, m: Pid)
    requires Below(lineage, n) && 0 <= m < n
    ensures Depth(lineage[n := m], n) == Depth(lineage, m) + 1
  {
    DepthKept(lineage, n, m, m);
  }

  predicate Within(a: map<Pid, Pid>, b: map<Pid, Pid>) {
    forall p {:trigger p in b} | p in a :: p in b && b[p] == a[p]
  }

  // --------------------------------------------------------------- counting

  /** No strategy of its group restarts anyone but `q` when `q` fails. */
  predicate Alone(groups: map<string, Group>, groupOf: map<Pid, string>, q: Pid) {
    q !in groupOf || groupOf[q] !in groups ||
    (var g := groups[groupOf[q]]; g.strategy.OneForOne? || g.members == [] || g.members == [q])
  }

  predicate AloneAt(s: Supervisor, q: Pid) {
    Alone(s.groups, s.groupOf, q)
  }

  /** Every process is alone in its group, or its group is one-for-one. */
  ghost predicate Separate(groups: map<string, Group>, groupOf: map<Pid, string>) {
    forall q {:trigger Alone(groups, groupOf, q)} :: Alone(groups, groupOf, q)
  }

  function Limit(policy: RestartPolicy): int {
    if policy.Never? then 0 else policy.maxRestarts
  }

  predicate Recorded(h: History, q: Pid) {
    ExitRecorded(q) in h.events
  }

  /** Until a process's exit is recorded, its counter is the depth of its lineage and it is alone. */
  predicate CountAt(s: Supervisor, h: History, q: Pid) {
    Recorded(h, q) || (Attempts(s, q) == Depth(h.lineage, q) && AloneAt(s, q))
  }

  /** A pending restart is the failed process's own, counted, and within `max` for the family. */
  predicate PendingAt(s: Supervisor, h: History, progress: map<Pid, Progress>, id: Pid, inFamily: bool, max: int)
    requires id in progress
  {
    var d := progress[id].decision;
    progress[id].phase.Restarting? && d.Some? ==>
      && Recorded(h, id) && (progress[id].restarted == [] ==> AloneAt(s, id))
      && !d.value.RestartGroup?
      && (d.value.Restart? ==> d.value.attempt == Attempts(s, id) == Depth(h.lineage, id) + 1 && (inFamily ==> d.value.attempt <= max))
  }

  predicate LimitAt(s: Supervisor, h: History, q: Pid, max: int) {
    Limit(Policy(s, q)) <= max && Depth(h.lineage, q) <= max
  }

  predicate Kin(lineage: map<Pid, Pid>, family: iset<Pid>) {
    forall p {:trigger lineage[p]} | p in lineage :: p in family <==> lineage[p] in family
  }

  ghost predicate Counts(s: Supervisor, h: History) {
    forall q {:trigger CountAt(s, h, q)} :: CountAt(s, h, q)
  }

  predicate Pendings(s: Supervisor, h: History, progress: map<Pid, Progress>, family: iset<Pid>, max: int) {
    forall id {:trigger PendingAt(s, h, progress, id, id in family, max)} | id in progress ::
      PendingAt(s, h, progress, id, id in family, max)
  }

  ghost predicate Limits(s: Supervisor, h: History, family: iset<Pid>, max: int) {
    forall q {:trigger LimitAt(s, h, q, max)} | q in family :: LimitAt(s, h, q, max)
  }

  predicate Nonnegative(t: ProcessTable) {
    0 <= t.nextPid && forall p {:trigger t.procs[p]} | p in t.procs :: 0 <= p
  }

  ghost predicate Counted(k: State, family: iset<Pid>, max: int) {
    && Nonnegative(k.table)
    && Descending(k.history.lineage) && Kin(k.history.lineage, family)
    && Counts(k.supervisor, k.history)
    && Pendings(k.supervisor, k.history, k.progress, family, max)
    && Limits(k.supervisor, k.history, family, max)
  }

  // ----------------------------------------------------------- quiet changes

  /** A change that no counter, no lineage and no recorded exit sees. */
  ghost predicate Quiet(k: State, k': State) {
    && k'.supervisor == k.supervisor && k'.history.lineage == k.history.lineage
    && (forall q {:trigger Recorded(k'.history, q)} | Recorded(k'.history, q) :: Recorded(k.history, q))
    && (forall q {:trigger Recorded(k.history, q)} | Recorded(k.history, q) :: Recorded(k'.history, q))
    && Nonnegative(k'.table)
    && (forall id {:trigger k'.progress[id]} | id in k'.progress && k'.progress[id].phase.Restarting? ::
          id in k.progress && k.progress[id] == k'.progress[id])
  }

  lemma QuietKeepsCounted(k: State, k': State, family: iset<Pid>, max: int)
    requires Counted(k, family, max) && Quiet(k, k')
    ensures Counted(k', family, max)
  {
    forall q ensures CountAt(k'.supervisor, k'.history, q) {
      assert CountAt(k.supervisor, k.history, q);
    }
    forall id | id in k'.progress ensures PendingAt(k'.supervisor, k'.history, k'.progress, id, id in family, max) {
      if k'.progress[id].phase.Restarting? {
        assert PendingAt(k.supervisor, k.history, k.progress, id, id in family, max);
      }
    }
    forall q | q in family ensures LimitAt(k'.supervisor, k'.history, q, max) {
      assert LimitAt(k.supervisor, k.history, q, max);
    }
  }

  // ------------------------------------------------------------- the phases

  lemma NotYetRecorded(k: State, id: Pid)
    requires Inv(k) && id in k.progress && k.progress[id].phase.Supervise?
    ensures !Recorded(k.history, id)
  {
    assert ProgressOk(k.table, k.operations, k.history, id, k.progress[id]);
    assert Recorded(k.history, id) ==> EventOk(k, ExitRecorded(id));
  }

  lemma NoSiblings(s: Supervisor, id: Pid)
    requires AloneAt(s, id)
    ensures Siblings(s, id) == []
  {
    SingleMember(id, id);
  }

  lemma SingleMember(m: Pid, p: Pid)
    ensures Without([m], m) == [] && After([m], m) == [] && ReplaceFirst([m], m, p) == [p]
    ensures Without([], m) == [] && After([], m) == [] && ReplaceFirst([], m, p) == []
  {
    assert [m][1..] == [];
  }

  /** For a process that is alone a failure is answered by the depth of the lineage: the next
      attempt while the limit allows it, and a refusal from then on. */
  lemma FailureIsAnsweredByDepth(k: State, family: iset<Pid>, max: int, id: Pid, reason: ExitReason)
    requires Counted(k, family, max) && !Recorded(k.history, id)
    ensures var depth := Depth(k.history.lineage, id);
            var (s, decision) := RecordExit(k.supervisor, id, reason);
      && s == k.supervisor.(restarts := s.restarts)
      && (forall q | q != id :: Attempts(s, q) == Attempts(k.supervisor, q))
      && decision == (if !IsFailureExit(reason) || Policy(k.supervisor, id).Never? then DoNotRestart
                      else if depth + 1 <= Limit(Policy(k.supervisor, id)) then Restart(depth + 1)
                      else FailedLimitReached)
      && (decision.Restart? ==> Attempts(s, id) == depth + 1)
  {
    assert CountAt(k.supervisor, k.history, id);
    NoSiblings(k.supervisor, id);
  }

  lemma SuperviseKeepsCounted(k: State, family: iset<Pid>, max: int, id: Pid)
    requires Inv(k) && Counted(k, family, max) && id in k.progress && k.progress[id].phase.Supervise?
    ensures Counted(SuperviseStep(k, id), family, max)
  {
    NotYetRecorded(k, id);
    FailureIsAnsweredByDepth(k, family, max, id, k.progress[id].reason);
    assert CountAt(k.supervisor, k.history, id);
    var k' := SuperviseStep(k, id);
    forall q ensures CountAt(k'.supervisor, k'.history, q) {
      assert CountAt(k.supervisor, k.history, q);
    }
    forall i | i in k'.progress ensures PendingAt(k'.supervisor, k'.history, k'.progress, i, i in family, max) {
      if i != id {
        assert PendingAt(k.supervisor, k.history, k.progress, i, i in family, max);
      } else if id in family {
        assert LimitAt(k.supervisor, k.history, id, max);
      }
    }
    forall q | q in family ensures LimitAt(k'.supervisor, k'.history, q, max) {
      assert LimitAt(k.supervisor, k.history, q, max);
    }
  }

  lemma CleanupIsQuiet(k: State, id: Pid, fault: Option<set<OpId>>)
    requires id in k.progress && Nonnegative(k.table) && !k.progress[id].phase.Restarting?
    ensures Quiet(k, CleanupPhase(k, id, fault).0)
  {
    CleanupFrame(k, id, fault);
  }

  lemma MarkIsQuiet(k: State, id: Pid)
    requires id in k.progress && Nonnegative(k.table) && !k.progress[id].phase.Restarting?
    ensures Quiet(k, MarkPhase(k, id).0)
  {
  }

  lemma PhaseKeepsCounted(k: State, family: iset<Pid>, max: int, id: Pid, f: Faults)
    requires Inv(k) && Counted(k, family, max) && id in k.progress && !k.progress[id].phase.Restarting?
    ensures Counted(PhaseStep(k, id, f).0, family, max)
  {
    match k.progress[id].phase
    case Cleanup =>
      CleanupIsQuiet(k, id, f.cleanup(0));
      QuietKeepsCounted(k, PhaseStep(k, id, f).0, family, max);
    case MarkTerminal =>
      MarkIsQuiet(k, id);
      QuietKeepsCounted(k, PhaseStep(k, id, f).0, family, max);
    case Supervise => SuperviseKeepsCounted(k, family, max, id);
  }

  lemma {:induction false} AdvanceKeepsCounted(k: State, family: iset<Pid>, max: int, id: Pid, f: Faults)
    requires Inv(k) && Counted(k, family, max) && id in k.progress
    ensures Inv(Advance(k, id, f).0) && Counted(Advance(k, id, f).0, family, max)
    decreases 3 - PhaseRank(k.progress[id].phase)
  {
    if !k.progress[id].phase.Restarting? {
      PhaseKeepsInv(k, id, f);
      PhaseKeepsCounted(k, family, max, id, f);
      var pass := PhaseStep(k, id, f);
      if pass.1 { AdvanceKeepsCounted(pass.0, family, max, id, f); }
    }
  }

  // ------------------------------------------------------------ replacements

  lemma FreshNotRecorded(k: State)
    requires Inv(k)
    ensures !Recorded(k.history, k.table.nextPid) && k.table.nextPid !in k.table.procs && Below(k.history.lineage, k.table.nextPid)
  {
    var p := k.table.nextPid;
    assert Recorded(k.history, p) ==> EventOk(k, ExitRecorded(p));
    assert p in k.outcomes ==> OutcomeOk(k.table, k.history, p, k.outcomes[p]);
    assert p in k.progress ==> ProgressOk(k.table, k.operations, k.history, p, k.progress[p]);
  }

  /** The supervisor after a replacement: the new process takes over policy and count. */
  lemma InheritTakesOver(s: Supervisor, previous: Pid, p: Pid)
    ensures var s' := InheritLineage(s, previous, p);
      && Attempts(s', p) == Attempts(s, previous) && Policy(s', p) == Policy(s, previous)
      && (forall q {:trigger Attempts(s', q)} | q != p :: Attempts(s', q) == Attempts(s, q))
      && (forall q {:trigger Policy(s', q)} | q != p :: Policy(s', q) == Policy(s, q))
  {
  }

  /** Who is alone stays alone, and the replacement is in the place of the process replaced. */
  lemma InheritKeepsAlone(s: Supervisor, previous: Pid, p: Pid, q: Pid)
    requires AloneAt(s, previous) && AloneAt(s, p)
    ensures AloneAt(InheritLineage(s, previous, p), p)
    ensures q != previous && q != p && AloneAt(s, q) ==> AloneAt(InheritLineage(s, previous, p), q)
  {
    SingleMember(previous, p);
  }

  /** The replacement of a failed process is one deeper, with the count to match. */
  lemma RecordKeepsCounted(k: State, family: iset<Pid>, max: int, id: Pid, p: Pid)
    requires Counted(k, family, max) && id in k.progress && k.progress[id].phase.Restarting?
    requires k.progress[id].decision.Some? && k.progress[id].decision.value.Restart? && k.progress[id].restarted == []
    requires 0 <= id < p && Below(k.history.lineage, p) && !Recorded(k.history, p)
    requires p in k.progress ==> !k.progress[p].phase.Restarting?
    requires p in family <==> id in family
    ensures Counted(RecordReplacement(k, id, id, p), family, max)
  {
    var k' := RecordReplacement(k, id, id, p);
    InheritTakesOver(k.supervisor, id, p);
    NewDepth(k.history.lineage, p, id);
    assert CountAt(k.supervisor, k.history, p);
    assert PendingAt(k.supervisor, k.history, k.progress, id, id in family, max);
    forall q ensures CountAt(k'.supervisor, k'.history, q) {
      assert CountAt(k.supervisor, k.history, q);
      InheritKeepsAlone(k.supervisor, id, p, q);
      if q != p { DepthKept(k.history.lineage, p, id, q); }
    }
    forall i | i in k'.progress ensures PendingAt(k'.supervisor, k'.history, k'.progress, i, i in family, max) {
      if i != p {
        assert PendingAt(k.supervisor, k.history, k.progress, i, i in family, max);
        InheritKeepsAlone(k.supervisor, id, p, i);
        DepthKept(k.history.lineage, p, id, i);
      }
    }
    forall q | q in family ensures LimitAt(k'.supervisor, k'.history, q, max) {
      if q == p {
        assert LimitAt(k.supervisor, k.history, id, max);
      } else {
        assert LimitAt(k.supervisor, k.history, q, max);
        DepthKept(k.history.lineage, p, id, q);
      }
    }
  }

  lemma SpawnIsQuiet(k: State, spec: SpawnSpec, fault: SpawnFault)
    requires Nonnegative(k.table)
    ensures Quiet(k, SpawnStep(k, spec, fault).0)
  {
  }

  lemma ReplaceKeepsCounted(k: State, family: iset<Pid>, max: int, id: Pid, fault: SpawnFault, final: map<Pid, Pid>)
    requires Inv(k) && Counted(k, family, max) && id in k.progress && k.progress[id].phase.Restarting?
    requires k.progress[id].decision.Some? && k.progress[id].decision.value.Restart? && k.progress[id].restarted == []
    requires Kin(final, family) && Within(Replace(k, id, id, fault).0.history.lineage, final)
    ensures Counted(Replace(k, id, id, fault).0, family, max)
  {
    if id in k.specs {
      var spawned := SpawnStep(k, k.specs[id], fault);
      SpawnIsQuiet(k, k.specs[id], fault);
      QuietKeepsCounted(k, spawned.0, family, max);
      if spawned.1.Some? {
        var p := spawned.1.value;
        assert ProgressOk(k.table, k.operations, k.history, id, k.progress[id]);
        assert p in k.progress ==> ProgressOk(k.table, k.operations, k.history, p, k.progress[p]);
        FreshNotRecorded(k);
        RestartingIsMinted(k, id);
        assert p in RecordReplacement(spawned.0, id, id, p).history.lineage;
        assert p in final && final[p] == id;
        RecordKeepsCounted(spawned.0, family, max, id, p);
      }
    }
  }

  lemma RestartingIsMinted(k: State, id: Pid)
    requires Inv(k) && Nonnegative(k.table) && id in k.progress && k.progress[id].phase.Restarting?
    ensures 0 <= id < k.table.nextPid
  {
    assert ProgressOk(k.table, k.operations, k.history, id, k.progress[id]);
  }

  /** Without siblings the only process to restart is the one that failed. */
  lemma RestartIdsAreOwn(k: State, family: iset<Pid>, max: int, id: Pid)
    requires Inv(k) && Counted(k, family, max) && id in k.progress && k.progress[id].phase.Restarting?
    ensures k.progress[id].decision.Some?
    ensures k.progress[id].restartIds == if k.progress[id].decision.value.Restart? then [id] else []
  {
    assert ProgressOk(k.table, k.operations, k.history, id, k.progress[id]);
    assert PendingAt(k.supervisor, k.history, k.progress, id, id in family, max);
  }

  lemma RestartsKeepCounted(k: State, family: iset<Pid>, max: int, id: Pid, f: Faults, final: map<Pid, Pid>)
    requires Inv(k) && Counted(k, family, max) && id in k.progress && k.progress[id].phase.Restarting?
    requires var restarts := RestartFrom(k, id, k.progress[id].restartIds, |k.progress[id].restarted|, f);
      Kin(final, family) && Within(restarts.0.history.lineage, final)
    ensures Counted(RestartFrom(k, id, k.progress[id].restartIds, |k.progress[id].restarted|, f).0, family, max)
  {
    RestartIdsAreOwn(k, family, max, id);
    var ids := k.progress[id].restartIds;
    if |k.progress[id].restarted| < |ids| {
      var one := RestartOne(k, id, id, 0, f);
      assert one == Replace(k, id, id, f.spawn(0));
      assert RestartFrom(k, id, ids, 0, f) == one by {
        assert one.1 ==> RestartFrom(one.0, id, ids, 1, f) == (one.0, true);
      }
      ReplaceKeepsCounted(k, family, max, id, f.spawn(0), final);
    }
  }

  lemma ReachKeepsCounted(k: State, family: iset<Pid>, max: int, id: Pid, reason: ExitReason, f: Faults)
    requires Inv(k) && Counted(k, family, max) && id !in k.outcomes
    ensures var reached := Advance(BeginTermination(k, id, reason), id, f).0;
      Inv(reached) && Counted(reached, family, max)
  {
    var k0 := BeginTermination(k, id, reason);
    BeginKeepsInv(k, id, reason);
    BeginIsQuiet(k, id, reason);
    QuietKeepsCounted(k, k0, family, max);
    AdvanceKeepsCounted(k0, family, max, id, f);
  }

  lemma BeginIsQuiet(k: State, id: Pid, reason: ExitReason)
    requires Nonnegative(k.table)
    ensures Quiet(k, BeginTermination(k, id, reason))
  {
  }

  lemma FinishKeepsCounted(k: State, family: iset<Pid>, max: int, id: Pid)
    requires Counted(k, family, max)
    ensures Counted(Finish(k, id).0, family, max)
  {
    FinishLineage(k, id);
    QuietKeepsCounted(k, Finish(k, id).0, family, max);
  }

  lemma TerminateKeepsCounted(k: State, family: iset<Pid>, max: int, id: Pid, reason: ExitReason, f: Faults, final: map<Pid, Pid>)
    requires Inv(k) && Counted(k, family, max)
    requires Kin(final, family) && Within(TerminateStep(k, id, reason, f).0.history.lineage, final)
    ensures Counted(TerminateStep(k, id, reason, f).0, family, max)
  {
    if id !in k.outcomes {
      ReachKeepsCounted(k, family, max, id, reason, f);
      var reached := Advance(BeginTermination(k, id, reason), id, f);
      if reached.1 {
        var todo := reached.0.progress[id];
        var restarts := RestartFrom(reached.0, id, todo.restartIds, |todo.restarted|, f);
        FinishLineage(restarts.0, id);
        RestartsKeepCounted(reached.0, family, max, id, f, final);
        FinishKeepsCounted(restarts.0, family, max, id);
      }
    }
  }

  lemma FinishLineage(k: State, id: Pid)
    ensures Finish(k, id).0.history == k.history && Finish(k, id).0.table == k.table && Finish(k, id).0.supervisor == k.supervisor
  {
  }

  // -------------------------------------------------------------------- runs

  /** Policies set for the family keep within `max`. */
  predicate Modest(call: Call, family: iset<Pid>, max: int) {
    call.SetPolicy? && call.id in family ==> Limit(call.policy) <= max
  }

  lemma SetPolicyKeepsCounted(k: State, family: iset<Pid>, max: int, id: Pid, policy: RestartPolicy)
    requires Counted(k, family, max) && (id in family ==> Limit(policy) <= max)
    ensures Counted(Step(k, SetPolicy(id, policy)), family, max)
  {
    var k' := Step(k, SetPolicy(id, policy));
    forall q ensures CountAt(k'.supervisor, k'.history, q) {
      assert CountAt(k.supervisor, k.history, q);
    }
    forall i | i in k'.progress ensures PendingAt(k'.supervisor, k'.history, k'.progress, i, i in family, max) {
      assert PendingAt(k.supervisor, k.history, k.progress, i, i in family, max);
    }
    forall q | q in family ensures LimitAt(k'.supervisor, k'.history, q, max) {
      assert LimitAt(k.supervisor, k.history, q, max);
    }
  }

  lemma OtherCallsAreQuiet(k: State, call: Call)
    requires Nonnegative(k.table) && !call.SetPolicy? && !call.Terminate?
    ensures Quiet(k, Step(k, call))
  {
    match call
    case Spawn(spec, fault) => SpawnIsQuiet(k, spec, fault);
    case Reap(id) => ReapIsQuiet(k, id);
    case _ => TinyCallIsQuiet(k, call);
  }

  lemma ReapIsQuiet(k: State, id: Pid)
    requires Nonnegative(k.table)
    ensures Quiet(k, ReapStep(k, id))
  {
  }

  lemma TinyCallIsQuiet(k: State, call: Call)
    requires Nonnegative(k.table) && (call.Bind? || call.Signal? || call.Submit? || call.Settle?)
    ensures Quiet(k, Step(k, call))
  {
  }

  lemma StepKeepsCounted(k: State, family: iset<Pid>, max: int, call: Call, final: map<Pid, Pid>)
    requires Inv(k) && Counted(k, family, max) && Modest(call, family, max)
    requires Kin(final, family) && Within(Step(k, call).history.lineage, final)
    ensures Counted(Step(k, call), family, max)
  {
    match call
    case SetPolicy(id, policy) => SetPolicyKeepsCounted(k, family, max, id, policy);
    case Terminate(id, reason, faults) => TerminateKeepsCounted(k, family, max, id, reason, faults, final);
    case _ =>
      OtherCallsAreQuiet(k, call);
      QuietKeepsCounted(k, Step(k, call), family, max);
  }

  /** Lineages are only added to, under new processes. */
  predicate Grows(k: State, k': State) {
    && Within(k.history.lineage, k'.history.lineage)
    && (forall p {:trigger p in k'.history.lineage} | p in k'.history.lineage && p < k.table.nextPid :: p in k.history.lineage)
    && k.table.nextPid <= k'.table.nextPid && Below(k'.history.lineage, k'.table.nextPid)
  }

  lemma ReplaceGrows(k: State, id: Pid, member: Pid, fault: SpawnFault)
    requires Below(k.history.lineage, k.table.nextPid)
    ensures Grows(k, Replace(k, id, member, fault).0)
  {
  }

  lemma RestartOneGrows(k: State, id: Pid, member: Pid, j: nat, f: Faults)
    requires Below(k.history.lineage, k.table.nextPid)
    ensures Grows(k, RestartOne(k, id, member, j, f).0)
  {
    StopMemberFrame(k, id, member, f.cleanup(j + 1));
    ReplaceGrows(StopMember(k, id, member, f.cleanup(j + 1)).0, id, member, f.spawn(j));
  }

  lemma {:induction false} RestartsGrow(k: State, id: Pid, ids: seq<Pid>, j: nat, f: Faults)
    requires Below(k.history.lineage, k.table.nextPid)
    ensures Grows(k, RestartFrom(k, id, ids, j, f).0)
    decreases |ids| - j
  {
    if j < |ids| {
      RestartOneGrows(k, id, ids[j], j, f);
      var one := RestartOne(k, id, ids[j], j, f);
      if one.1 {
        RestartsGrow(one.0, id, ids, j + 1, f);
        var last := RestartFrom(one.0, id, ids, j + 1, f).0;
        forall p | p in k.history.lineage ensures p in last.history.lineage && last.history.lineage[p] == k.history.lineage[p] {
          assert p in one.0.history.lineage;
        }
      }
    }
  }

  lemma TerminateGrows(k: State, id: Pid, reason: ExitReason, f: Faults)
    requires Below(k.history.lineage, k.table.nextPid)
    ensures Grows(k, TerminateStep(k, id, reason, f).0)
  {
    if id !in k.outcomes {
      TerminatePublishes(k, id, reason, f);
      AttemptGrows(k, id, reason, f);
    }
  }

  lemma AttemptGrows(k: State, id: Pid, reason: ExitReason, f: Faults)
    requires Below(k.history.lineage, k.table.nextPid)
    ensures var attempt := Attempt(k, id, reason, f); Grows(k, Publish(attempt.0, id, attempt.1).0)
  {
    AdvanceFrame(BeginTermination(k, id, reason), id, f);
    var reached := Advance(BeginTermination(k, id, reason), id, f);
    if reached.1 {
      RestartedGrows(k, reached.0, id, f);
    }
  }

  lemma RestartedGrows(k: State, k1: State, id: Pid, f: Faults)
    requires Below(k.history.lineage, k.table.nextPid) && SameRegistration(k, k1) && id in k1.progress
    ensures var restarts := RestartFrom(k1, id, k1.progress[id].restartIds, |k1.progress[id].restarted|, f).0;
      Grows(k, restarts) && Grows(k, Finish(restarts, id).0)
  {
    RestartsGrow(k1, id, k1.progress[id].restartIds, |k1.progress[id].restarted|, f);
    FinishLineage(RestartFrom(k1, id, k1.progress[id].restartIds, |k1.progress[id].restarted|, f).0, id);
  }

  lemma OtherCallsGrow(k: State, call: Call)
    requires Below(k.history.lineage, k.table.nextPid) && !call.Terminate?
    ensures Step(k, call).history.lineage == k.history.lineage && k.table.nextPid <= Step(k, call).table.nextPid
  {
  }

  lemma StepGrows(k: State, call: Call)
    requires Below(k.history.lineage, k.table.nextPid)
    ensures Grows(k, Step(k, call))
  {
    if call.Terminate? {
      TerminateGrows(k, call.id, call.reason, call.faults);
    } else {
      OtherCallsGrow(k, call);
    }
  }

  lemma {:induction false} RunGrows(k: State, calls: seq<Call>)
    requires Below(k.history.lineage, k.table.nextPid)
    ensures Grows(k, Run(k, calls))
    decreases |calls|
  {
    if calls != [] {
      var k1 := Step(k, calls[0]);
      StepGrows(k, calls[0]);
      RunGrows(k1, calls[1..]);
      var last := Run(k1, calls[1..]);
      forall p | p in k.history.lineage ensures p in last.history.lineage && last.history.lineage[p] == k.history.lineage[p] {
        assert p in k1.history.lineage;
      }
    }
  }

  lemma {:induction false} RunKeepsCounted(k: State, family: iset<Pid>, max: int, calls: seq<Call>, final: map<Pid, Pid>)
    requires Inv(k) && AtRest(k) && Counted(k, family, max) && Below(k.history.lineage, k.table.nextPid)
    requires forall c | c in calls :: Modest(c, family, max)
    requires Kin(final, family) && final == Run(k, calls).history.lineage
    ensures Counted(Run(k, calls), family, max)
    decreases |calls|
  {
    if calls != [] {
      var k1 := Step(k, calls[0]);
      StepGrows(k, calls[0]);
      RunGrows(k1, calls[1..]);
      StepKeepsInv(k, calls[0]);
      StepKeepsCounted(k, family, max, calls[0], final);
      RunKeepsCounted(k1, family, max, calls[1..], final);
    }
  }

  lemma BootCounted(groups: map<string, Group>, groupOf: map<Pid, string>, family: iset<Pid>, max: int)
    requires Separate(groups, groupOf) && 0 <= max
    ensures Counted(Boot(groups, groupOf), family, max)
  {
    var k := Boot(groups, groupOf);
    forall q ensures CountAt(k.supervisor, k.history, q) { assert Alone(groups, groupOf, q); }
  }

  ghost function FamilyOf(lineage: map<Pid, Pid>, p: Pid): iset<Pid> {
    iset q | Root(lineage, q) == Root(lineage, p)
  }

  lemma FamilyIsKin(lineage: map<Pid, Pid>, p: Pid)
    requires Descending(lineage)
    ensures Kin(lineage, FamilyOf(lineage, p))
  {
  }

  lemma RunDescends(groups: map<string, Group>, groupOf: map<Pid, string>, calls: seq<Call>)
    requires Separate(groups, groupOf)
    ensures Descending(Run(Boot(groups, groupOf), calls).history.lineage)
  {
    var k := Boot(groups, groupOf);
    BootInv(groups, groupOf);
    BootCounted(groups, groupOf, iset{}, 0);
    RunKeepsCounted(k, iset{}, 0, calls, Run(k, calls).history.lineage);
  }

  /** Every policy a run sets for the lineage of `p` allows at most `max` restarts. */
  ghost predicate ModestRun(final: map<Pid, Pid>, calls: seq<Call>, p: Pid, max: int) {
    0 <= max && forall c | c in calls :: Modest(c, FamilyOf(final, p), max)
  }

  /** Over every run in which groups restart nobody but the process that failed, no lineage has more
      replacements than the policies set for it allow. */
  lemma LimitSpansLineage(groups: map<string, Group>, groupOf: map<Pid, string>, calls: seq<Call>, p: Pid, max: int)
    requires Separate(groups, groupOf)
    requires ModestRun(Run(Boot(groups, groupOf), calls).history.lineage, calls, p, max)
    ensures Depth(Run(Boot(groups, groupOf), calls).history.lineage, p) <= max
  {
    var k := Boot(groups, groupOf);
    var final := Run(k, calls).history.lineage;
    var family := FamilyOf(final, p);
    RunDescends(groups, groupOf, calls);
    FamilyIsKin(final, p);
    BootInv(groups, groupOf);
    BootCounted(groups, groupOf, family, max);
    RunKeepsCounted(k, family, max, calls, final);
    assert LimitAt(Run(k, calls).supervisor, Run(k, calls).history, p, max);
  }
}
