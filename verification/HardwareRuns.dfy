/** Device safety over every run, and what a command's decision means. */
module HardwareRuns {
  import opened Text
  import opened Hardware

  datatype Op =
    | OpGrant(lease: Lease)
    | OpDisconnect
    | OpFault
    | OpExpiry(now: nat)
    | OpStop
    | OpExecute(command: Command, permit: Option<Permit>, at: nat)

  function Step(d: Device, op: Op): Device {
    match op
    case OpGrant(lease) => GrantLease(d, lease)
    case OpDisconnect => Disconnect(d)
    case OpFault => Fault(d)
    case OpExpiry(now) => EnforceExpiry(d, now)
    case OpStop => SafeStop(d)
    case OpExecute(c, permit, at) => Execute(d, c, permit, at).0
  }

  function Run(d: Device, ops: seq<Op>): Device
    decreases |ops|
  {
    if ops == [] then d else Run(Step(d, ops[0]), ops[1..])
  }

  predicate Safe(d: Device) {
    && d.safety != Stopping
    && (d.position != ORIGIN ==> d.safety == Active)
    && (d.safety == Active ==> d.connected)
  }

  /** Every reachable device: it moves only while Active and connected, never rests in
      Stopping, keeps its identity, and leaves neither a fault nor a disconnection. */
  lemma {:induction false} EveryRunIsSafe(d: Device, ops: seq<Op>)
    requires Safe(d)
    ensures var e := Run(d, ops);
      && Safe(e)
      && e.id == d.id && e.capabilities == d.capabilities
      && (d.safety == Faulted ==> e.safety == Faulted)
      && (!d.connected ==> !e.connected && e.safety != Active && e.position == ORIGIN)
    decreases |ops|
  {
    if ops != [] {
      EveryRunIsSafe(Step(d, ops[0]), ops[1..]);
    }
  }

  lemma RobotStartsSafe(id: string, ops: seq<Op>)
    ensures var e := Run(MobileRobot(id), ops);
      Safe(e) && e.id == id && e.capabilities == {"navigate", "stop"}
  {
    EveryRunIsSafe(MobileRobot(id), ops);
  }

  /** Every lease granted and every command given from now on is past `t`. */
  predicate Late(op: Op, t: nat) {
    match op
    case OpGrant(lease) => lease.expiresAt <= t
    case OpExecute(_, _, at) => t <= at
    case _ => true
  }

  predicate AllLate(ops: seq<Op>, t: nat) {
    forall i | 0 <= i < |ops| :: Late(ops[i], t)
  }

  /** Once the lease has run out and its expiry is enforced, the device stays still whatever is
      commanded, until a lease that is still good is granted. */
  lemma {:induction false} ExpiredLeaseKeepsItStill(d: Device, ops: seq<Op>, t: nat)
    requires Safe(d) && d.safety != Active && AllLate(ops, t)
    requires d.lease.Some? ==> d.lease.value.expiresAt <= t
    ensures Run(d, ops).safety != Active && Run(d, ops).position == ORIGIN
    decreases |ops|
  {
    if ops != [] {
      assert Late(ops[0], t);
      ExpiredLeaseKeepsItStill(Step(d, ops[0]), ops[1..], t);
    }
  }

  lemma ExpiryStops(d: Device, now: nat, ops: seq<Op>)
    requires Safe(d) && d.lease.Some? && now >= d.lease.value.expiresAt && AllLate(ops, now)
    ensures Run(EnforceExpiry(d, now), ops).safety != Active && Run(EnforceExpiry(d, now), ops).position == ORIGIN
  {
    ExpiredLeaseKeepsItStill(EnforceExpiry(d, now), ops, now);
  }

  /** A refused command leaves the device as it was, or safe-stopped for one of three reasons;
      it never consumes its sequence number. */
  lemma RejectionLeavesNoTrace(d: Device, c: Command, permit: Option<Permit>, now: nat)
    requires Execute(d, c, permit, now).1.Rejected?
    ensures var (e, decision) := Execute(d, c, permit, now);
      && e.lastSequence == d.lastSequence && e.lease == d.lease
      && (e == d || (e == SafeStop(d) && FailsSafe(decision.reason)))
      && (FailsSafe(decision.reason) ==> e.safety in {SafeStopped, Faulted})
  {
  }

  /** Who may move the device, as one condition without an order of checks. */
  predicate MayNavigate(d: Device, c: Command, p: Permit, l: Lease, now: nat) {
    && !p.revoked && now < p.expiresAt && now < l.expiresAt && now < c.deadline
    && p.operation == l.operation == c.operation
    && p.principal == l.holder == c.principal
    && p.device == l.device == c.device == d.id
    && c.schema in p.scope * l.scope * d.capabilities
    && (d.lastSequence.Some? ==> d.lastSequence.value < c.sequence)
    && d.safety != Faulted && d.connected
    && c.x.Some? && c.y.Some?
  }

  /** A command other than stop takes effect exactly under permit, lease, deadline, fresh
      sequence and a healthy device, and then the device is where it was told to be. */
  lemma NavigatesIff(d: Device, c: Command, permit: Option<Permit>, now: nat)
    requires !c.IsStop()
    ensures var (e, decision) := Execute(d, c, permit, now);
      && decision != FailSafeApplied
      && (decision == Accepted <==>
            permit.Some? && d.lease.Some? && MayNavigate(d, c, permit.value, d.lease.value, now))
      && (decision == Accepted ==>
            e == d.(position := (c.x.value, c.y.value), safety := Active, lastSequence := Some(c.sequence)))
  {
    assert c.schema != "stop";
  }

  // ------------------------------------------------------------------- stops

  /** The numbers of the commands that took effect in a run. */
  function Applied(d: Device, ops: seq<Op>): set<nat>
    decreases |ops|
  {
    if ops == [] then {}
    else
      var rest := Applied(Step(d, ops[0]), ops[1..]);
      if ops[0].OpExecute? && !Execute(d, ops[0].command, ops[0].permit, ops[0].at).1.Rejected?
      then {ops[0].command.sequence} + rest else rest
  }

  lemma StepKeepsSequence(d: Device, op: Op)
    ensures var e := Step(d, op);
      if op.OpExecute? && !Execute(d, op.command, op.permit, op.at).1.Rejected?
      then e.lastSequence == Some(op.command.sequence) && (d.lastSequence.Some? ==> d.lastSequence.value < op.command.sequence)
      else e.lastSequence == d.lastSequence
  {
  }

  /** The device remembers the highest number that took effect, and numbers only rise. */
  lemma {:induction false} SequenceIsHighest(d: Device, ops: seq<Op>)
    ensures var last := Run(d, ops).lastSequence;
      && (forall s | s in Applied(d, ops) :: last.Some? && s <= last.value && (d.lastSequence.Some? ==> d.lastSequence.value < s))
      && (last == d.lastSequence || (last.Some? && last.value in Applied(d, ops)))
    decreases |ops|
  {
    if ops != [] {
      StepKeepsSequence(d, ops[0]);
      SequenceIsHighest(Step(d, ops[0]), ops[1..]);
    }
  }

  /** Who may stop the device. */
  predicate MayStop(id: string, c: Command, p: Permit, now: nat) {
    && !p.revoked && now < p.expiresAt && now < c.deadline
    && p.operation == c.operation && p.principal == c.principal && p.device == c.device == id
    && "stop" in p.scope
  }

  /** After any run of a robot a stop takes effect exactly under a permit for it and a number above
      every one that took effect before. No lease is needed, and no fault or disconnection is in
      the way. */
  lemma StopsIff(id: string, ops: seq<Op>, c: Command, permit: Option<Permit>, now: nat)
    requires c.IsStop()
    ensures var (e, decision) := Execute(Run(MobileRobot(id), ops), c, permit, now);
      && decision != Accepted
      && (decision == FailSafeApplied <==>
            && permit.Some? && MayStop(id, c, permit.value, now)
            && (forall s | s in Applied(MobileRobot(id), ops) :: s < c.sequence))
      && (decision == FailSafeApplied ==> e.safety != Active && e.position == ORIGIN)
  {
    RobotStartsSafe(id, ops);
    SequenceIsHighest(MobileRobot(id), ops);
  }

  /** No command of the run is accepted. */
  predicate NoneAccepted(d: Device, ops: seq<Op>)
    decreases |ops|
  {
    ops == [] || (
      && (ops[0].OpExecute? ==> Execute(d, ops[0].command, ops[0].permit, ops[0].at).1 != Accepted)
      && NoneAccepted(Step(d, ops[0]), ops[1..]))
  }

  /** A stopped device stays at its origin until a command is accepted, whatever else happens. */
  lemma {:induction false} StopHolds(d: Device, ops: seq<Op>)
    requires Safe(d) && d.safety != Active && NoneAccepted(d, ops)
    ensures Run(d, ops).safety != Active && Run(d, ops).position == ORIGIN
    decreases |ops|
  {
    if ops != [] {
      StopHolds(Step(d, ops[0]), ops[1..]);
    }
  }
}
