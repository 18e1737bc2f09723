/** The simulated device behind the hardware safety boundary
    (crates/hardware/src/simulator.rs). */
module Hardware {
  import opened Text

  datatype Safety = Ready | Active | Stopping | SafeStopped | Faulted

  datatype Reason =
    | MissingPermit | ExpiredPermit | RevokedPermit
    | PermitOperationMismatch | PermitPrincipalMismatch | PermitDeviceMismatch | PermitOutOfScope
    | MissingLease | ExpiredLease | WrongHolder | WrongDevice | LeaseOperationMismatch | LeaseOutOfScope
    | ExpiredDeadline | ReplayOrOutOfOrder | SchemaMismatch | UnsafeState | InvalidPayload

  datatype Decision = Accepted | FailSafeApplied | Rejected(reason: Reason)

  datatype Permit = Permit(
    operation: string, principal: string, device: string, scope: set<string>, expiresAt: nat, revoked: bool)

  datatype Lease = Lease(operation: string, device: string, holder: string, scope: set<string>, expiresAt: nat)

  /** The payload is reduced to its two numeric fields, absent when missing or not a number. */
  datatype Command = Command(
    operation: string, principal: string, sequence: nat, device: string,
    schema: string, x: Option<real>, y: Option<real>, deadline: nat)
  {
    predicate IsStop() { schema == "stop" }
  }

  datatype Device = Device(
    id: string, capabilities: set<string>, position: (real, real), lease: Option<Lease>,
    safety: Safety, lastSequence: Option<nat>, connected: bool)

  datatype Receipt = Receipt(sequence: nat, decision: Decision, before: Safety, after: Safety, observedAt: nat)

  const ORIGIN: (real, real) := (0.0, 0.0)

  function MobileRobot(id: string): Device {
    Device(id, {"navigate", "stop"}, ORIGIN, None, Ready, None, true)
  }

  function SafeStop(d: Device): Device {
    if d.safety == Faulted then d else d.(position := ORIGIN, safety := SafeStopped)
  }

  function GrantLease(d: Device, lease: Lease): Device {
    if lease.device != d.id then d else d.(lease := Some(lease))
  }

  function Disconnect(d: Device): Device {
    SafeStop(d.(connected := false))
  }

  function Fault(d: Device): Device {
    d.(safety := Faulted, position := ORIGIN)
  }

  function EnforceExpiry(d: Device, now: nat): Device {
    if d.lease.Some? && now >= d.lease.value.expiresAt then SafeStop(d) else d
  }

  function PermitRefusal(d: Device, c: Command, permit: Option<Permit>, now: nat): Option<Reason> {
    if permit.None? then Some(MissingPermit)
    else
      var p := permit.value;
      if p.revoked then Some(RevokedPermit)
      else if now >= p.expiresAt then Some(ExpiredPermit)
      else if p.operation != c.operation then Some(PermitOperationMismatch)
      else if p.principal != c.principal then Some(PermitPrincipalMismatch)
      else if p.device != c.device then Some(PermitDeviceMismatch)
      else if c.schema !in p.scope then Some(PermitOutOfScope)
      else if c.device != d.id then Some(WrongDevice)
      else if c.schema !in d.capabilities then Some(SchemaMismatch)
      else if now >= c.deadline then Some(ExpiredDeadline)
      else None
  }

  function LeaseRefusal(d: Device, c: Command, now: nat): Option<Reason> {
    if d.lease.None? then Some(MissingLease)
    else
      var l := d.lease.value;
      if now >= l.expiresAt then Some(ExpiredLease)
      else if l.holder != c.principal then Some(WrongHolder)
      else if l.device != c.device then Some(WrongDevice)
      else if l.operation != c.operation then Some(LeaseOperationMismatch)
      else if c.schema !in l.scope then Some(LeaseOutOfScope)
      else None
  }

  /** The first check a command fails, in the order of the code. */
  function Refusal(d: Device, c: Command, permit: Option<Permit>, now: nat): Option<Reason> {
    var first := PermitRefusal(d, c, permit, now);
    if first.Some? then first
    else if d.lastSequence.Some? && c.sequence <= d.lastSequence.value then Some(ReplayOrOutOfOrder)
    else if c.IsStop() then None
    else if d.safety == Faulted then Some(UnsafeState)
    else
      var second := LeaseRefusal(d, c, now);
      if second.Some? then second
      else if !d.connected || c.x.None? || c.y.None? then Some(InvalidPayload)
      else None
  }

  predicate FailsSafe(reason: Reason) {
    reason in {ExpiredDeadline, ExpiredLease, InvalidPayload}
  }

  function Execute(d: Device, c: Command, permit: Option<Permit>, now: nat): (Device, Decision) {
    match Refusal(d, c, permit, now)
    case Some(reason) => (if FailsSafe(reason) then SafeStop(d) else d, Rejected(reason))
    case None =>
      if c.IsStop() then (SafeStop(d).(lastSequence := Some(c.sequence)), FailSafeApplied)
      else (d.(position := (c.x.value, c.y.value), safety := Active, lastSequence := Some(c.sequence)), Accepted)
  }
}
