/** The device object whose fields the calls update in place. */
module HardwareDevice {
  import opened Text
  import opened Hardware

  class SimulatedDevice {
    const id: string
    const capabilities: set<string>
    var position: (real, real)
    var lease: Option<Lease>
    var safety: Safety
    var lastSequence: Option<nat>
    var connected: bool

    function View(): Device
      reads this
    {
      Device(id, capabilities, position, lease, safety, lastSequence, connected)
    }

    constructor MobileRobot(name: string)
      ensures View() == Hardware.MobileRobot(name)
    {
      id, capabilities := name, {"navigate", "stop"};
      position, lease, safety, lastSequence, connected := ORIGIN, None, Ready, None, true;
    }

    method GrantLease(granted: Lease) returns (r: Result<(), string>)
      modifies this
      ensures View() == Hardware.GrantLease(old(View()), granted)
      ensures r.Ok? <==> granted.device == id
    {
      if granted.device != id {
        return Err("lease device mismatch");
      }
      lease := Some(granted);
      return Ok(());
    }

    method SafeStop()
      modifies this
      ensures View() == Hardware.SafeStop(old(View()))
    {
      if safety != Faulted {
        safety := Stopping;
        position := ORIGIN;
        safety := SafeStopped;
      }
    }

    method Disconnect()
      modifies this
      ensures View() == Hardware.Disconnect(old(View()))
    {
      connected := false;
      SafeStop();
    }

    method Fault()
      modifies this
      ensures View() == Hardware.Fault(old(View()))
    {
      safety := Faulted;
      position := ORIGIN;
    }

    method EnforceExpiry(now: nat)
      modifies this
      ensures View() == Hardware.EnforceExpiry(old(View()), now)
    {
      if lease.Some? && now >= lease.value.expiresAt {
        SafeStop();
      }
    }

    /** The provider's own step: moves the device or reports why it cannot. */
    method Apply(c: Command) returns (r: Result<(), string>)
      modifies this
      ensures r.Ok? <==> old(connected) && c.x.Some? && c.y.Some?
      ensures r.Ok? ==> View() == old(View()).(position := (c.x.value, c.y.value), safety := Active)
      ensures r.Err? ==> View() == if old(connected) then old(View()) else Hardware.SafeStop(old(View()))
    {
      if !connected {
        SafeStop();
        return Err("device disconnected");
      }
      if c.x.None? {
        return Err("navigate x missing");
      }
      if c.y.None? {
        return Err("navigate y missing");
      }
      position := (c.x.value, c.y.value);
      safety := Active;
      return Ok(());
    }

    method Reject(c: Command, now: nat, before: Safety, reason: Reason, failSafe: bool) returns (r: Receipt)
      modifies this
      ensures View() == if failSafe then Hardware.SafeStop(old(View())) else old(View())
      ensures r == Receipt(c.sequence, Rejected(reason), before, safety, now)
    {
      if failSafe {
        SafeStop();
      }
      return Receipt(c.sequence, Rejected(reason), before, safety, now);
    }

    /** Permit, identity, schema and deadline, in the order of the code. */
    method CheckPermit(c: Command, permit: Option<Permit>, now: nat) returns (r: Option<Reason>)
      ensures r == PermitRefusal(View(), c, permit, now)
    {
      if permit.None? {
        return Some(MissingPermit);
      }
      var p := permit.value;
      if p.revoked {
        return Some(RevokedPermit);
      }
      if now >= p.expiresAt {
        return Some(ExpiredPermit);
      }
      if p.operation != c.operation {
        return Some(PermitOperationMismatch);
      }
      if p.principal != c.principal {
        return Some(PermitPrincipalMismatch);
      }
      if p.device != c.device {
        return Some(PermitDeviceMismatch);
      }
      if c.schema !in p.scope {
        return Some(PermitOutOfScope);
      }
      if c.device != id {
        return Some(WrongDevice);
      }
      if c.schema !in capabilities {
        return Some(SchemaMismatch);
      }
      if now >= c.deadline {
        return Some(ExpiredDeadline);
      }
      return None;
    }

    method CheckLease(c: Command, now: nat) returns (r: Option<Reason>)
      ensures r == LeaseRefusal(View(), c, now)
    {
      if lease.None? {
        return Some(MissingLease);
      }
      var l := lease.value;
      if now >= l.expiresAt {
        return Some(ExpiredLease);
      }
      if l.holder != c.principal {
        return Some(WrongHolder);
      }
      if l.device != c.device {
        return Some(WrongDevice);
      }
      if l.operation != c.operation {
        return Some(LeaseOperationMismatch);
      }
      if c.schema !in l.scope {
        return Some(LeaseOutOfScope);
      }
      return None;
    }

    method Execute(c: Command, permit: Option<Permit>, now: nat) returns (r: Receipt)
      modifies this
      ensures View() == Hardware.Execute(old(View()), c, permit, now).0
      ensures r.decision == Hardware.Execute(old(View()), c, permit, now).1
      ensures r == Receipt(c.sequence, r.decision, old(safety), safety, now)
    {
      var before := safety;
      var first := CheckPermit(c, permit, now);
      if first.Some? {
        r := Reject(c, now, before, first.value, first.value == ExpiredDeadline);
        return;
      }
      if lastSequence.Some? && c.sequence <= lastSequence.value {
        r := Reject(c, now, before, ReplayOrOutOfOrder, false);
        return;
      }
      if safety == Faulted && !c.IsStop() {
        r := Reject(c, now, before, UnsafeState, false);
        return;
      }
      var decision;
      if c.IsStop() {
        SafeStop();
        decision := FailSafeApplied;
      } else {
        var second := CheckLease(c, now);
        if second.Some? {
          r := Reject(c, now, before, second.value, second.value == ExpiredLease);
          return;
        }
        var applied := Apply(c);
        if applied.Err? {
          r := Reject(c, now, before, InvalidPayload, true);
          return;
        }
        decision := Accepted;
      }
      lastSequence := Some(c.sequence);
      r := Receipt(c.sequence, decision, before, safety, now);
    }
  }
}
