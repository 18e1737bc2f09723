/** The shared facade: a counter bumped without the lock, and the device behind it. */
module EmbodimentFacade {
  import opened Text
  import opened Hardware
  import opened HardwareDevice
  import opened Embodiment

  class SimulatedEmbodiment {
    const inner: SimulatedDevice
    var sequence: nat

    constructor (id: string)
      ensures fresh(inner) && inner.View() == MobileRobot(id) && sequence == 0
    {
      inner := new SimulatedDevice.MobileRobot(id);
      sequence := 0;
    }

    /** `execute_skill` up to the lock; no two calls get the same number. */
    method TakeNumber(a: Authority, mapped: bool) returns (r: Result<nat, string>)
      modifies this
      ensures r.Ok? <==> a.request.skill == "navigate" && a.request.x.Some? && a.request.y.Some? && mapped
      ensures sequence == if r.Ok? then r.value else old(sequence)
      ensures forall f: Facade | f.counter == old(sequence) :: Take(f, a, mapped).counter == sequence
      ensures forall f: Facade | f.counter == old(sequence) && r.Ok? ::
                r.value in Take(f, a, mapped).pending && Take(f, a, mapped).pending[r.value] == a
    {
      if a.request.skill != "navigate" {
        return Err("unsupported skill");
      }
      if a.request.x.None? {
        return Err("navigate x missing");
      }
      if a.request.y.None? {
        return Err("navigate y missing");
      }
      if !mapped {
        return Err("invalid operation mapping");
      }
      sequence := sequence + 1;
      return Ok(sequence);
    }

    /** `execute_skill` under the lock. */
    method EnterDevice(a: Authority, number: nat, now: nat) returns (outcome: Outcome)
      modifies inner
      ensures (inner.View(), outcome) == Serve(old(inner.View()), a, number, now)
    {
      var granted := inner.GrantLease(a.lease);
      if granted.Err? {
        return LeaseRefused;
      }
      var receipt := inner.Execute(TypedCommand(a, number), Some(a.permit), now);
      return Decided(receipt.decision);
    }

    /** `cancel` and `safe_stop`. */
    method Stop(device: string) returns (r: Result<(), string>)
      modifies inner
      ensures r.Ok? <==> device == inner.id
      ensures inner.View() == if r.Ok? then SafeStop(old(inner.View())) else old(inner.View())
    {
      if inner.id != device {
        return Err("device mismatch");
      }
      inner.SafeStop();
      return Ok(());
    }
  }
}
