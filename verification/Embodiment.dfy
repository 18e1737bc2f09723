/** Concurrent skill calls: a number is taken before the device lock, so calls may enter the
    device in any order (crates/hardware/src/simulator.rs, crates/hardware/src/broker.rs). */
module Embodiment {
  import opened Text
  import opened Hardware
  import opened HardwareRuns

  datatype Request = Request(device: string, skill: string, x: Option<real>, y: Option<real>)

  datatype Authority = Authority(request: Request, permit: Permit, lease: Lease)

  /** `validate_projected_authority`: the broker's own check. */
  function Validate(a: Authority, now: nat): Result<(), string> {
    if a.permit.revoked then Err("permit revoked")
    else if now >= a.permit.expiresAt then Err("permit expired")
    else if now >= a.lease.expiresAt then Err("lease expired")
    else if a.permit.device != a.request.device || a.lease.device != a.request.device then Err("device mismatch")
    else if a.permit.operation != a.lease.operation then Err("operation mismatch")
    else if a.permit.principal != a.lease.holder then Err("principal mismatch")
    else if a.request.skill !in a.permit.scope || a.request.skill !in a.lease.scope then Err("skill outside authority scope")
    else Ok(())
  }

  datatype Routing = Routed | NoProvider | InvalidAuthority(message: string)

  /** `Broker::execute` up to the provider call. */
  function Route(a: Authority, now: nat, registered: set<string>): Routing {
    match Validate(a, now)
    case Err(message) => InvalidAuthority(message)
    case Ok(_) => if a.request.device in registered then Routed else NoProvider
  }

  // ------------------------------------------------------- the skill protocol

  datatype Outcome = LeaseRefused | Decided(decision: Decision)

  datatype Entry = Entry(number: nat, outcome: Outcome)
  {
    predicate Took() { outcome == Decided(Accepted) }
    predicate Replayed() { outcome == Decided(Rejected(ReplayOrOutOfOrder)) }
  }

  /** `pending` holds the calls that have their number and wait for the lock; `log` holds the
      calls that went through it, in order. */
  datatype Facade = Facade(device: Device, counter: nat, pending: map<nat, Authority>, log: seq<Entry>)

  function TypedCommand(a: Authority, number: nat): Command {
    Command(a.permit.operation, a.permit.principal, number, a.request.device,
            a.request.skill, a.request.x, a.request.y, a.permit.expiresAt)
  }

  /** The part of `execute_skill` before the lock. `mapped` says whether the permit's operation
      text parses as an operation id. */
  function Take(f: Facade, a: Authority, mapped: bool): Facade {
    if a.request.skill != "navigate" || a.request.x.None? || a.request.y.None? || !mapped then f
    else f.(counter := f.counter + 1, pending := f.pending[f.counter + 1 := a])
  }

  /** The part of `execute_skill` under the lock. */
  function Serve(d: Device, a: Authority, number: nat, now: nat): (Device, Outcome) {
    if a.lease.device != d.id then (d, LeaseRefused)
    else
      var served := Execute(GrantLease(d, a.lease), TypedCommand(a, number), Some(a.permit), now);
      (served.0, Decided(served.1))
  }

  function Enter(f: Facade, number: nat, now: nat): Facade {
    if number !in f.pending then f
    else
      var served := Serve(f.device, f.pending[number], number, now);
      f.(device := served.0, pending := f.pending - {number}, log := f.log + [Entry(number, served.1)])
  }

  /** Steps of all callers; `Beside` is anything else that happens to the device. */
  datatype Event = TakeNumber(authority: Authority, mapped: bool) | EnterDevice(number: nat, now: nat) | Beside(op: Op)

  function Next(f: Facade, e: Event): Facade {
    match e
    case TakeNumber(a, mapped) => Take(f, a, mapped)
    case EnterDevice(number, now) => Enter(f, number, now)
    case Beside(op) => if op.OpExecute? then f else f.(device := Step(f.device, op))
  }

  function Trace(f: Facade, events: seq<Event>): Facade
    decreases |events|
  {
    if events == [] then f else Trace(Next(f, events[0]), events[1..])
  }

  function Start(id: string): Facade {
    Facade(MobileRobot(id), 0, map[], [])
  }

  // -------------------------------------------------------------- invariant

  /** The number of the last call that took effect. */
  function LastTaken(log: seq<Entry>): Option<nat> {
    if log == [] then None
    else if log[|log| - 1].Took() then Some(log[|log| - 1].number)
    else LastTaken(log[..|log| - 1])
  }

  /** A call with a higher number took effect before position `i`. */
  predicate Overtaken(log: seq<Entry>, i: nat)
    requires i <= |log|
  {
    i < |log| && exists j | 0 <= j < i :: log[j].Took() && log[j].number > log[i].number
  }

  predicate NumberOk(f: Facade, i: nat)
    requires i < |f.log|
  {
    && 1 <= f.log[i].number <= f.counter && f.log[i].number !in f.pending
    && (f.log[i].Replayed() ==> Overtaken(f.log, i))
  }

  predicate Numbers(f: Facade) {
    && (forall n {:trigger n in f.pending} | n in f.pending :: 1 <= n <= f.counter)
    && (forall i {:trigger NumberOk(f, i)} | 0 <= i < |f.log| :: NumberOk(f, i))
  }

  predicate Distinct(log: seq<Entry>) {
    forall i, j {:trigger log[i], log[j]} | 0 <= i < j < |log| :: log[i].number != log[j].number
  }

  /** Calls take effect in the order of their numbers. */
  predicate Ordered(log: seq<Entry>) {
    forall i, j {:trigger log[i], log[j]} | 0 <= i < j < |log| && log[i].Took() && log[j].Took() ::
      log[i].number < log[j].number
  }

  predicate Inv(f: Facade) {
    Numbers(f) && Distinct(f.log) && Ordered(f.log) && f.device.lastSequence == LastTaken(f.log)
  }

  lemma {:induction false} LastTakenIsLast(log: seq<Entry>, i: nat)
    requires Ordered(log) && i < |log| && log[i].Took()
    ensures LastTaken(log).Some? && log[i].number <= LastTaken(log).value
    decreases |log|
  {
    var last := |log| - 1;
    if !log[last].Took() {
      LastTakenIsLast(log[..last], i);
    } else {
      assert i < last ==> log[i].number < log[last].number;
    }
  }

  lemma {:induction false} LastTakenExists(log: seq<Entry>) returns (i: nat)
    requires LastTaken(log).Some?
    ensures i < |log| && log[i].Took() && log[i].number == LastTaken(log).value
    decreases |log|
  {
    i := |log| - 1;
    if !log[i].Took() {
      i := LastTakenExists(log[..i]);
    }
  }

  /** What one call does to the device's sequence record. */
  lemma ServeSequence(d: Device, a: Authority, number: nat, now: nat)
    requires a.request.skill == "navigate"
    ensures var (e, outcome) := Serve(d, a, number, now);
      && (outcome == Decided(Accepted) ==>
            e.lastSequence == Some(number) && (d.lastSequence.Some? ==> d.lastSequence.value < number))
      && (outcome != Decided(Accepted) ==> e.lastSequence == d.lastSequence)
      && (outcome == Decided(Rejected(ReplayOrOutOfOrder)) ==>
            d.lastSequence.Some? && number <= d.lastSequence.value)
  {
  }

  predicate Navigates(f: Facade) {
    forall n {:trigger f.pending[n]} | n in f.pending :: f.pending[n].request.skill == "navigate"
  }

  lemma EnterKeepsInv(f: Facade, number: nat, now: nat)
    requires Inv(f) && Navigates(f) && number in f.pending
    ensures Inv(Enter(f, number, now))
  {
    var served := Serve(f.device, f.pending[number], number, now);
    assert f.pending[number].request.skill == "navigate";
    ServeSequence(f.device, f.pending[number], number, now);
    EntryKeepsInv(f, Enter(f, number, now), Entry(number, served.1));
  }

  /** A waiting call's entry in the log: its number is new, and the device's record moved with it. */
  lemma EntryKeepsInv(f: Facade, g: Facade, e: Entry)
    requires Inv(f) && e.number in f.pending
    requires g.log == f.log + [e] && g.pending == f.pending - {e.number} && g.counter == f.counter
    requires var last := f.device.lastSequence;
      && g.device.lastSequence == (if e.Took() then Some(e.number) else last)
      && (e.Took() ==> last.Some? ==> last.value < e.number)
      && (e.Replayed() ==> last.Some? && e.number <= last.value)
    ensures Inv(g)
  {
    var n := |f.log|;
    assert g.log[..n] == f.log;
    forall i | 0 <= i < n && f.log[i].Took() ensures LastTaken(f.log).Some? && f.log[i].number <= LastTaken(f.log).value {
      LastTakenIsLast(f.log, i);
    }
    forall i | 0 <= i < |g.log| ensures NumberOk(g, i) {
      if i < n {
        EarlierKeepsOk(f, g, i);
      } else if g.log[n].Replayed() {
        var j := LastTakenExists(f.log);
        assert NumberOk(f, j);
        assert g.log[j].Took() && g.log[j].number > g.log[n].number;
      }
    }
    forall i | 0 <= i < n ensures g.log[i].number != e.number {
      assert NumberOk(f, i);
    }
  }

  lemma EarlierKeepsOk(f: Facade, g: Facade, i: nat)
    requires i < |f.log| < |g.log| && g.log[..|f.log|] == f.log && NumberOk(f, i)
    requires g.counter == f.counter && g.pending.Keys <= f.pending.Keys
    ensures NumberOk(g, i)
  {
    assert g.log[i] == f.log[i];
    if f.log[i].Replayed() {
      var j :| 0 <= j < i && f.log[j].Took() && f.log[j].number > f.log[i].number;
      assert g.log[j] == f.log[j];
    }
  }

  lemma NextKeepsInv(f: Facade, e: Event)
    requires Inv(f) && Navigates(f)
    ensures Inv(Next(f, e)) && Navigates(Next(f, e))
  {
    var g := Next(f, e);
    if e.EnterDevice? {
      if e.number in f.pending {
        EnterKeepsInv(f, e.number, e.now);
      }
    } else {
      forall i | 0 <= i < |g.log| ensures NumberOk(g, i) {
        assert NumberOk(f, i);
      }
    }
  }

  /** Every waiting call has both coordinates, and the device can navigate. */
  predicate Servable(f: Facade) {
    && (forall n {:trigger f.pending[n]} | n in f.pending ::
          f.pending[n].request.x.Some? && f.pending[n].request.y.Some?)
    && "navigate" in f.device.capabilities
  }

  lemma NextKeepsDevice(f: Facade, e: Event)
    ensures Next(f, e).device.id == f.device.id && Next(f, e).device.capabilities == f.device.capabilities
  {
  }

  /** What every reachable facade keeps. */
  predicate Sound(f: Facade) { Inv(f) && Navigates(f) && Servable(f) }

  /** Over every interleaving: calls take effect in number order, no number is served twice, and
      a call is refused as a replay only when a higher-numbered call took effect before it. */
  lemma {:induction false} EveryInterleavingIsOrdered(f: Facade, events: seq<Event>)
    requires Sound(f)
    ensures Sound(Trace(f, events)) && Trace(f, events).device.id == f.device.id
    decreases |events|
  {
    if events != [] {
      NextKeepsInv(f, events[0]);
      NextKeepsDevice(f, events[0]);
      EveryInterleavingIsOrdered(Next(f, events[0]), events[1..]);
    }
  }

  lemma FromStart(id: string, events: seq<Event>)
    ensures var f := Trace(Start(id), events);
      && Sound(f) && f.device.id == id
      && Ordered(f.log) && Distinct(f.log)
      && (forall i | 0 <= i < |f.log| && f.log[i].Replayed() :: Overtaken(f.log, i))
  {
    EveryInterleavingIsOrdered(Start(id), events);
    var f := Trace(Start(id), events);
    forall i | 0 <= i < |f.log| && f.log[i].Replayed() ensures Overtaken(f.log, i) {
      assert NumberOk(f, i);
    }
  }

  // -------------------------------------------------------- the two checks

  /** The broker passed the request, and its device serves it before either expiry. */
  predicate Admitted(d: Device, a: Authority, checkedAt: nat, now: nat) {
    && Validate(a, checkedAt).Ok? && now < a.permit.expiresAt && now < a.lease.expiresAt
    && d.id == a.request.device && "navigate" in d.capabilities
    && a.request.skill == "navigate" && a.request.x.Some? && a.request.y.Some?
  }

  /** For an admitted request the device adds no authority reason of its own, and each of its
      four answers has one cause. */
  lemma BrokerAndDeviceAgree(d: Device, a: Authority, number: nat, checkedAt: nat, now: nat)
    requires Admitted(d, a, checkedAt, now)
    ensures var outcome := Serve(d, a, number, now).1;
      && outcome.Decided?
      && outcome.decision ==
           if d.lastSequence.Some? && number <= d.lastSequence.value then Rejected(ReplayOrOutOfOrder)
           else if d.safety == Faulted then Rejected(UnsafeState)
           else if !d.connected then Rejected(InvalidPayload)
           else Accepted
  {
    assert !TypedCommand(a, number).IsStop();
  }

  /** The broker passes exactly what its checks name, whatever the order. */
  lemma RoutedIff(a: Authority, now: nat, registered: set<string>)
    ensures Route(a, now, registered).Routed? <==>
      && !a.permit.revoked && now < a.permit.expiresAt && now < a.lease.expiresAt
      && a.permit.device == a.lease.device == a.request.device
      && a.permit.operation == a.lease.operation && a.permit.principal == a.lease.holder
      && a.request.skill in a.permit.scope * a.lease.scope
      && a.request.device in registered
  {
  }

  /** The device accepts exactly what the broker passes on to it at that moment, if it can do the
      skill, is fit to move and the call's number is above the last that took effect: neither check
      is weaker than the other. */
  lemma AcceptedIffRouted(d: Device, a: Authority, number: nat, now: nat)
    ensures Serve(d, a, number, now).1 == Decided(Accepted) <==>
      && Route(a, now, {d.id}).Routed?
      && a.request.skill != "stop" && a.request.skill in d.capabilities && a.request.x.Some? && a.request.y.Some?
      && d.safety != Faulted && d.connected
      && (d.lastSequence.Some? ==> d.lastSequence.value < number)
  {
    RoutedIff(a, now, {d.id});
    NavigatesIffServed(d, a, number, now);
  }

  lemma NavigatesIffServed(d: Device, a: Authority, number: nat, now: nat)
    ensures Serve(d, a, number, now).1 == Decided(Accepted) <==>
      a.lease.device == d.id && a.request.skill != "stop" && MayNavigate(d, TypedCommand(a, number), a.permit, a.lease, now)
  {
    var c := TypedCommand(a, number);
    if a.lease.device == d.id && a.request.skill != "stop" {
      NavigatesIff(GrantLease(d, a.lease), c, Some(a.permit), now);
    }
  }

  /** The whole path: in every reachable facade, an admitted call is refused as a replay exactly
      when a higher-numbered call already took effect. */
  lemma ReplayedIffOvertaken(f: Facade, number: nat, checkedAt: nat, now: nat)
    requires Sound(f) && number in f.pending
    ensures Admitted(f.device, f.pending[number], checkedAt, now) ==>
      (Serve(f.device, f.pending[number], number, now).1 == Decided(Rejected(ReplayOrOutOfOrder)) <==>
        exists j | 0 <= j < |f.log| :: f.log[j].Took() && f.log[j].number > number)
  {
    if Admitted(f.device, f.pending[number], checkedAt, now) {
      BrokerAndDeviceAgree(f.device, f.pending[number], number, checkedAt, now);
      if f.device.lastSequence.Some? && number <= f.device.lastSequence.value {
        var j := LastTakenExists(f.log);
        assert NumberOk(f, j);
        assert f.log[j].Took() && f.log[j].number > number;
      } else {
        forall j | 0 <= j < |f.log| && f.log[j].Took() ensures f.log[j].number <= number {
          LastTakenIsLast(f.log, j);
        }
      }
    }
  }
}
