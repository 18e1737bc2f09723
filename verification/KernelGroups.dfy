/** Group strategies: which configurations keep the restart limit of a lineage. */
module KernelGroups {
  import opened Text
  import opened Kernel
  import opened KernelInvariant
  import opened KernelRuns
  import opened KernelReplacements
  import opened KernelLimit
  import opened KernelRetry

  /** A failure keeps another process's count exactly when that process is not restarted along
      with it, or has none. */
  lemma FailureKeepsCountIff(s: Supervisor, id: Pid, reason: ExitReason, q: Pid)
    requires q != id
    ensures var (s', decision) := RecordExit(s, id, reason);
      Attempts(s', q) == Attempts(s, q) <==> Attempts(s, q) == 0 || !(decision.RestartGroup? && q in decision.siblings)
  {
  }

  // --------------------------------------- a sibling restarted against its limit

  const CRASH := Failure("crash")

  /** The first `n` processes, one agent each and without parents. */
  function Fleet(n: nat): seq<Call> {
    if n == 0 then [] else Fleet(n - 1) + [Spawn(SpawnSpec(n - 1, None), NoFault)]
  }

  /** Then the process `m` may be restarted once, and fails. */
  function Crash(n: nat, m: Pid): seq<Call> {
    Fleet(n) + [SetPolicy(m, RestartOnFailure(1))] + [Terminate(m, CRASH, NO_FAULTS)]
  }

  /** Process `i` is up as its agent's current one. */
  predicate UpAt(k: State, i: Pid) {
    && Live(k.table, i) && i in k.specs && k.specs[i] == SpawnSpec(i, None)
    && i in k.identities.byAgent && k.identities.byAgent[i].process == i
  }

  predicate FleetUp(k: State, n: nat) {
    && k.table.nextPid == n && (forall i {:trigger UpAt(k, i)} | 0 <= i < n :: UpAt(k, i))
    && (forall a | a in k.identities.byAgent :: a < n)
    && k.progress == map[] && k.outcomes == map[] && k.history.lineage == map[]
  }

  lemma SpawnJoins(k: State, n: nat)
    requires FleetUp(k, n)
    ensures var k' := SpawnStep(k, SpawnSpec(n, None), NoFault).0; FleetUp(k', n + 1) && k'.supervisor == k.supervisor
  {
    var k' := SpawnStep(k, SpawnSpec(n, None), NoFault).0;
    assert n !in k.identities.byAgent;
    forall i | 0 <= i < n + 1 ensures UpAt(k', i) {
      if i < n { assert UpAt(k, i); }
    }
  }

  lemma {:induction false} FleetIsUp(groups: map<string, Group>, groupOf: map<Pid, string>, n: nat)
    ensures var k := Run(Boot(groups, groupOf), Fleet(n));
      FleetUp(k, n) && k.supervisor == Supervisor(map[], map[], groupOf, groups)
  {
    if n > 0 {
      FleetIsUp(groups, groupOf, n - 1);
      var k := Run(Boot(groups, groupOf), Fleet(n - 1));
      SpawnJoins(k, n - 1);
      RunLast(Boot(groups, groupOf), Fleet(n - 1), Spawn(SpawnSpec(n - 1, None), NoFault));
    }
  }

  /** A group of at least two, whose strategy looks beyond the failed process. */
  predicate Joint(groups: map<string, Group>, groupOf: map<Pid, string>, name: string) {
    && name in groups && !groups[name].strategy.OneForOne?
    && (var members := groups[name].members;
        && |members| >= 2 && 0 <= members[0] && 0 <= members[1] && members[0] != members[1]
        && members[0] in groupOf && groupOf[members[0]] == name)
  }

  /** Whichever of the two strategies, the second member is the first sibling of the first. */
  lemma SecondIsSibling(s: Supervisor, name: string)
    requires Joint(s.groups, s.groupOf, name)
    ensures var members := s.groups[name].members;
      Siblings(s, members[0]) != [] && Siblings(s, members[0])[0] == members[1]
  {
    var members := s.groups[name].members;
    assert Without(members, members[0]) == Without(members[1..], members[0]);
    assert members[1..][0] == members[1];
  }

  lemma CrashIsAnswered(k: State, name: string)
    requires Joint(k.supervisor.groups, k.supervisor.groupOf, name)
    requires var m := k.supervisor.groups[name].members[0];
      Policy(k.supervisor, m) == RestartOnFailure(1) && Attempts(k.supervisor, m) == 0
    ensures var members := k.supervisor.groups[name].members;
            var ids := Answer(k, members[0], CRASH);
      |ids| >= 2 && ids[0] == members[0] && ids[1] == members[1]
  {
    SecondIsSibling(k.supervisor, name);
  }

  /** A process that is up, or has just ended, can be replaced. */
  predicate ReadyAt(k: State, i: Pid) {
    && i in k.table.procs && i in k.specs && k.specs[i] == SpawnSpec(i, None)
    && i in k.identities.byAgent && k.identities.byAgent[i].process == i
  }

  lemma ReadyIsReady(k: State, ids: seq<Pid>, j: nat)
    requires j < |ids| && ReadyAt(k, ids[j])
    ensures KernelRetry.Ready(k, ids, j, j)
  {
    assert StoppedIn(ids, j, j, ids[j]);
  }

  lemma OtherStaysReady(k: State, k': State, a: Pid, b: Pid)
    requires Passed(k, k', a) && ReadyAt(k, a) && ReadyAt(k, b) && a != b && b < k.table.nextPid
    ensures ReadyAt(k', b)
  {
    assert Live(k.table, b) || Dead(k.table, b);
    assert Live(k'.table, b) || Dead(k'.table, b);
  }

  /** One restart that went through and is recorded. */
  ghost predicate OneReplaced(k: State, k': State, id: Pid, m: Pid) {
    && Passed(k, k', m) && Named(k') && Dead(k'.table, id) && id in k'.progress
    && k'.history.lineage == k.history.lineage[k.table.nextPid := m] && k'.table.nextPid == k.table.nextPid + 1
  }

  lemma ReadyIsReplaced(k: State, id: Pid, ids: seq<Pid>, j: nat, f: Faults) returns (k': State)
    requires FaultFree(f) && Named(k) && Dead(k.table, id) && id < k.table.nextPid && id in k.progress
    requires j < |ids| && ReadyAt(k, ids[j])
    ensures RestartOne(k, id, ids[j], j, f) == (k', true) && OneReplaced(k, k', id, ids[j])
  {
    ReadyIsReady(k, ids, j);
    RestartOnePassesIff(k, id, ids, j, f);
    RestartOneRestarts(k, id, ids[j], j, f);
    RestartOneKeepsNamed(k, id, ids[j], j, f);
    k' := RestartOne(k, id, ids[j], j, f).0;
  }

  predicate Replaces(lineage: map<Pid, Pid>, p: Pid, m: Pid) {
    p in lineage && lineage[p] == m
  }

  /** Both are replaced, and nobody that was there before is a replacement. */
  predicate Doubled(lineage: map<Pid, Pid>, n: nat, a: Pid, b: Pid) {
    Replaces(lineage, n, a) && Replaces(lineage, n + 1, b) && forall p | p in lineage :: p >= n
  }

  lemma StaysDoubled(k: State, r: State, n: nat, a: Pid, b: Pid)
    requires Doubled(k.history.lineage, n, a, b) && k.table.nextPid >= n && Grows(k, r)
    ensures Doubled(r.history.lineage, n, a, b)
  {
    assert n in k.history.lineage && n + 1 in k.history.lineage;
  }

  lemma TwoRestarts(k: State, k1: State, k2: State, id: Pid, ids: seq<Pid>, j: nat, f: Faults)
    requires j + 1 < |ids|
    requires RestartOne(k, id, ids[j], j, f) == (k1, true) && RestartOne(k1, id, ids[j + 1], j + 1, f) == (k2, true)
    ensures RestartFrom(k, id, ids, j, f) == RestartFrom(k2, id, ids, j + 2, f)
  {
    assert RestartFrom(k1, id, ids, j + 1, f) == RestartFrom(k2, id, ids, j + 2, f);
  }

  lemma TwoAreReplaced(k: State, n: nat, id: Pid, ids: seq<Pid>, j: nat, f: Faults) returns (k1: State, k2: State)
    requires FaultFree(f) && Named(k) && Dead(k.table, id) && id < k.table.nextPid == n && id in k.progress
    requires j + 1 < |ids| && ids[j] != ids[j + 1] && ids[j + 1] < n && ReadyAt(k, ids[j]) && ReadyAt(k, ids[j + 1])
    requires k.history.lineage == map[]
    ensures RestartOne(k, id, ids[j], j, f) == (k1, true) && RestartOne(k1, id, ids[j + 1], j + 1, f) == (k2, true)
    ensures Doubled(k2.history.lineage, n, ids[j], ids[j + 1])
    ensures k2.table.nextPid == n + 2 && Below(k2.history.lineage, n + 2)
  {
    k1 := ReadyIsReplaced(k, id, ids, j, f);
    OtherStaysReady(k, k1, ids[j], ids[j + 1]);
    k2 := ReadyIsReplaced(k1, id, ids, j + 1, f);
    TwoDouble(k, k1, k2, id, n, ids[j], ids[j + 1]);
  }

  lemma TwoDouble(k: State, k1: State, k2: State, id: Pid, n: nat, a: Pid, b: Pid)
    requires OneReplaced(k, k1, id, a) && OneReplaced(k1, k2, id, b) && k.history.lineage == map[] && k.table.nextPid == n
    ensures Doubled(k2.history.lineage, n, a, b) && k2.table.nextPid == n + 2 && Below(k2.history.lineage, n + 2)
  {
  }

  lemma DoubledToTheEnd(k: State, n: nat, id: Pid, ids: seq<Pid>, j: nat, f: Faults, a: Pid, b: Pid)
    requires Doubled(k.history.lineage, n, a, b) && k.table.nextPid == n + 2 && Below(k.history.lineage, n + 2)
    ensures Doubled(RestartFrom(k, id, ids, j, f).0.history.lineage, n, a, b)
  {
    RestartsGrow(k, id, ids, j, f);
    StaysDoubled(k, RestartFrom(k, id, ids, j, f).0, n, a, b);
  }

  /** Two ready members in a row are both replaced, whatever comes after. */
  lemma BothAreReplaced(k: State, n: nat, id: Pid, ids: seq<Pid>, j: nat, f: Faults)
    requires FaultFree(f) && Named(k) && Dead(k.table, id) && id < k.table.nextPid == n && id in k.progress
    requires j + 1 < |ids| && ids[j] != ids[j + 1] && ids[j + 1] < n && ReadyAt(k, ids[j]) && ReadyAt(k, ids[j + 1])
    requires k.history.lineage == map[]
    ensures Doubled(RestartFrom(k, id, ids, j, f).0.history.lineage, n, ids[j], ids[j + 1])
  {
    var k1, k2 := TwoAreReplaced(k, n, id, ids, j, f);
    EndIsDoubled(k, k1, k2, n, id, ids, j, f);
  }

  lemma EndIsDoubled(k: State, k1: State, k2: State, n: nat, id: Pid, ids: seq<Pid>, j: nat, f: Faults)
    requires j + 1 < |ids|
    requires RestartOne(k, id, ids[j], j, f) == (k1, true) && RestartOne(k1, id, ids[j + 1], j + 1, f) == (k2, true)
    requires Doubled(k2.history.lineage, n, ids[j], ids[j + 1]) && k2.table.nextPid == n + 2 && Below(k2.history.lineage, n + 2)
    ensures Doubled(RestartFrom(k, id, ids, j, f).0.history.lineage, n, ids[j], ids[j + 1])
  {
    TwoRestarts(k, k1, k2, id, ids, j, f);
    DoubledToTheEnd(k2, n, id, ids, j + 2, f, ids[j], ids[j + 1]);
  }

  /** The state in which the restarts begin. */
  lemma CrashReaches(k: State, n: nat, name: string) returns (k1: State)
    requires Inv(k) && AtRest(k) && Named(k) && FleetUp(k, n) && Joint(k.supervisor.groups, k.supervisor.groupOf, name)
    requires var members := k.supervisor.groups[name].members;
      members[0] < n && members[1] < n && k.supervisor.policies == map[members[0] := RestartOnFailure(1)] && k.supervisor.restarts == map[]
    ensures var a, b := k.supervisor.groups[name].members[0], k.supervisor.groups[name].members[1];
      && Advance(BeginTermination(k, a, CRASH), a, NO_FAULTS) == (k1, true)
      && a in k1.progress && k1.progress[a].restarted == []
      && (var ids := k1.progress[a].restartIds; |ids| >= 2 && ids[0] == a && ids[1] == b)
      && Named(k1) && Dead(k1.table, a) && ReadyAt(k1, a) && ReadyAt(k1, b)
      && k1.table.nextPid == n && k1.history.lineage == map[]
  {
    var a, b := k.supervisor.groups[name].members[0], k.supervisor.groups[name].members[1];
    assert UpAt(k, a) && UpAt(k, b);
    k1 := Reached(k, a, CRASH, NO_FAULTS);
    CrashIsAnswered(k, name);
    DeadAtRestarts(k1, a);
    AdvanceFrame(BeginTermination(k, a, CRASH), a, NO_FAULTS);
    AdvanceNames(BeginTermination(k, a, CRASH), a, NO_FAULTS);
  }

  /** Publication leaves the lineages of the restarts. */
  lemma TerminateLineage(k: State, id: Pid, reason: ExitReason, f: Faults, k1: State)
    requires id !in k.outcomes && Advance(BeginTermination(k, id, reason), id, f) == (k1, true)
    ensures TerminateStep(k, id, reason, f).0.history.lineage
      == RestartFrom(k1, id, k1.progress[id].restartIds, |k1.progress[id].restarted|, f).0.history.lineage
  {
    FinishLineage(RestartFrom(k1, id, k1.progress[id].restartIds, |k1.progress[id].restarted|, f).0, id);
  }

  /** The crash of the first member in the fleet replaces both. */
  lemma CrashReplacesBoth(k: State, n: nat, name: string)
    requires Inv(k) && AtRest(k) && Named(k) && FleetUp(k, n) && Joint(k.supervisor.groups, k.supervisor.groupOf, name)
    requires var members := k.supervisor.groups[name].members;
      members[0] < n && members[1] < n && k.supervisor.policies == map[members[0] := RestartOnFailure(1)] && k.supervisor.restarts == map[]
    ensures var a, b := k.supervisor.groups[name].members[0], k.supervisor.groups[name].members[1];
      Doubled(TerminateStep(k, a, CRASH, NO_FAULTS).0.history.lineage, n, a, b)
  {
    var a := k.supervisor.groups[name].members[0];
    var k1 := CrashReaches(k, n, name);
    BothAreReplaced(k1, n, a, k1.progress[a].restartIds, |k1.progress[a].restarted|, NO_FAULTS);
    TerminateLineage(k, a, CRASH, NO_FAULTS, k1);
  }

  /** The fleet with its one policy. */
  lemma FleetIsAllowed(groups: map<string, Group>, groupOf: map<Pid, string>, n: nat, a: Pid) returns (k: State)
    ensures k == Run(Boot(groups, groupOf), Fleet(n) + [SetPolicy(a, RestartOnFailure(1))])
    ensures FleetUp(k, n) && k.supervisor == Supervisor(map[a := RestartOnFailure(1)], map[], groupOf, groups)
  {
    var k0, policy := Boot(groups, groupOf), SetPolicy(a, RestartOnFailure(1));
    FleetIsUp(groups, groupOf, n);
    RunLast(k0, Fleet(n), policy);
    PolicyKeepsFleet(Run(k0, Fleet(n)), n, a);
    k := Run(k0, Fleet(n) + [policy]);
  }

  lemma RunIsSound(groups: map<string, Group>, groupOf: map<Pid, string>, calls: seq<Call>)
    ensures var k := Run(Boot(groups, groupOf), calls); Inv(k) && AtRest(k) && Named(k)
  {
    BootInv(groups, groupOf);
    RunKeepsInv(Boot(groups, groupOf), calls);
    RunKeepsNamed(Boot(groups, groupOf), calls);
  }

  /** The run: a fleet, a policy for the first member alone, and its crash. The second member is
      replaced although its own policy allows no restart. */
  lemma SiblingIsReplacedUncounted(groups: map<string, Group>, groupOf: map<Pid, string>, name: string, n: nat)
    requires Joint(groups, groupOf, name) && groups[name].members[0] < n && groups[name].members[1] < n
    ensures var a, b := groups[name].members[0], groups[name].members[1];
      Doubled(Run(Boot(groups, groupOf), Crash(n, a)).history.lineage, n, a, b)
  {
    var a := groups[name].members[0];
    var k := FleetIsAllowed(groups, groupOf, n, a);
    RunIsSound(groups, groupOf, Fleet(n) + [SetPolicy(a, RestartOnFailure(1))]);
    CrashReplacesBoth(k, n, name);
    RunLast(Boot(groups, groupOf), Fleet(n) + [SetPolicy(a, RestartOnFailure(1))], Terminate(a, CRASH, NO_FAULTS));
  }

  lemma PolicyKeepsFleet(k: State, n: nat, a: Pid)
    requires FleetUp(k, n)
    ensures FleetUp(Step(k, SetPolicy(a, RestartOnFailure(1))), n)
  {
    var k' := Step(k, SetPolicy(a, RestartOnFailure(1)));
    forall i | 0 <= i < n ensures UpAt(k', i) { assert UpAt(k, i); }
  }

  // -------------------------------------------------- exactly which configurations

  /** No lineage of the run has more replacements than the policies set for it allow. */
  ghost predicate KeepsLimit(groups: map<string, Group>, groupOf: map<Pid, string>, calls: seq<Call>, p: Pid, max: int) {
    var final := Run(Boot(groups, groupOf), calls).history.lineage;
    ModestRun(final, calls, p, max) ==> Depth(final, p) <= max
  }

  /** Whatever is called. */
  ghost predicate AlwaysKeepsLimit(groups: map<string, Group>, groupOf: map<Pid, string>) {
    forall calls, p, max {:trigger KeepsLimit(groups, groupOf, calls, p, max)} :: KeepsLimit(groups, groupOf, calls, p, max)
  }

  lemma {:induction false} FleetSetsNoPolicy(n: nat, c: Call)
    requires c in Fleet(n)
    ensures c.Spawn?
  {
    if n > 0 && c in Fleet(n - 1) { FleetSetsNoPolicy(n - 1, c); }
  }

  lemma SiblingBreaksLimit(groups: map<string, Group>, groupOf: map<Pid, string>, name: string)
    requires Joint(groups, groupOf, name)
    ensures !AlwaysKeepsLimit(groups, groupOf)
  {
    var a, b := groups[name].members[0], groups[name].members[1];
    var n := a + b + 1;
    SiblingIsReplacedUncounted(groups, groupOf, name, n);
    var calls := Crash(n, a);
    var final := Run(Boot(groups, groupOf), calls).history.lineage;
    assert Depth(final, n + 1) == 1 + Depth(final, b);
    assert Root(final, n + 1) == Root(final, b) == b && Root(final, a) == a;
    forall c | c in calls ensures Modest(c, FamilyOf(final, n + 1), 0) {
      if c in Fleet(n) { FleetSetsNoPolicy(n, c); }
    }
    assert !KeepsLimit(groups, groupOf, calls, n + 1, 0);
  }

  /** Each process was added once, to one group: the members of a group are distinct, and the index
      names the group of each of its members and of nobody else. */
  ghost predicate WellFormed(groups: map<string, Group>, groupOf: map<Pid, string>) {
    && (forall name {:trigger groups[name]} | name in groups :: ProperMembers(groups[name].members))
    && (forall name, q {:trigger q in groups[name].members} | name in groups ::
          q in groups[name].members <==> q in groupOf && groupOf[q] == name)
  }

  predicate ProperMembers(members: seq<Pid>) {
    && (forall i | 0 <= i < |members| :: 0 <= members[i])
    && (forall i, j | 0 <= i < j < |members| :: members[i] != members[j])
  }

  /** The group is one-for-one or has at most one member. */
  predicate Narrow(g: Group) {
    g.strategy.OneForOne? || |g.members| <= 1
  }

  lemma NarrowIsSeparate(groups: map<string, Group>, groupOf: map<Pid, string>)
    requires WellFormed(groups, groupOf) && forall name {:trigger groups[name]} | name in groups :: Narrow(groups[name])
    ensures Separate(groups, groupOf)
  {
    forall q ensures Alone(groups, groupOf, q) {
      if q in groupOf && groupOf[q] in groups {
        assert q in groups[groupOf[q]].members;
      }
    }
  }

  lemma WideIsJoint(groups: map<string, Group>, groupOf: map<Pid, string>, name: string)
    requires WellFormed(groups, groupOf) && name in groups && !Narrow(groups[name])
    ensures Joint(groups, groupOf, name)
  {
    assert groups[name].members[0] in groups[name].members;
  }

  /** A configuration keeps the restart limit along every lineage of every run exactly when each of
      its groups is one-for-one or has at most one member. The runtime creates no group at all. */
  lemma LimitHoldsIffNarrow(groups: map<string, Group>, groupOf: map<Pid, string>)
    requires WellFormed(groups, groupOf)
    ensures AlwaysKeepsLimit(groups, groupOf) <==> forall name {:trigger groups[name]} | name in groups :: Narrow(groups[name])
  {
    if forall name {:trigger groups[name]} | name in groups :: Narrow(groups[name]) {
      NarrowIsSeparate(groups, groupOf);
      forall calls, p, max ensures KeepsLimit(groups, groupOf, calls, p, max) {
        if ModestRun(Run(Boot(groups, groupOf), calls).history.lineage, calls, p, max) {
          LimitSpansLineage(groups, groupOf, calls, p, max);
        }
      }
    } else {
      var name :| name in groups && !Narrow(groups[name]);
      WideIsJoint(groups, groupOf, name);
      SiblingBreaksLimit(groups, groupOf, name);
    }
  }
}
