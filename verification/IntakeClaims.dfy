/** Claiming: no pending intake is stranded, and claims drain the queue in order. */
module IntakeClaims {
  import opened Intake
  import opened IntakeEffects
  import opened IntakeInvariant
  import Order

  ghost function EligibleSet(t: Tables, now: int): set<string> {
    set id | id in t.intakes && Eligible(t, id, now)
  }

  // ------------------------------------------------- the least eligible row

  lemma BeforeTransitive(t: Tables, a: string, b: string, c: string)
    requires a in t.intakes && b in t.intakes && c in t.intakes && Before(t, a, b) && Before(t, b, c)
    ensures Before(t, a, c)
  {
    if Order.Less(a, b) && Order.Less(b, c) { Order.LessTransitive(a, b, c); }
  }

  lemma BeforeTotal(t: Tables, a: string, b: string)
    requires a in t.intakes && b in t.intakes && a != b
    ensures Before(t, a, b) || Before(t, b, a)
  {
    Order.LessTotal(a, b);
  }

  lemma BeforeAsymmetric(t: Tables, a: string, b: string)
    requires a in t.intakes && b in t.intakes && Before(t, a, b)
    ensures !Before(t, b, a) && a != b
  {
    Order.LessIrreflexive(a);
    if Order.Less(a, b) && Order.Less(b, a) { Order.LessTransitive(a, b, a); }
  }

  lemma {:induction false} LeastExists(t: Tables, s: set<string>) returns (least: string)
    requires s != {} && s <= t.intakes.Keys
    ensures least in s && forall other | other in s && other != least :: Before(t, least, other)
    decreases |s|
  {
    var first :| first in s;
    var rest := s - {first};
    least := first;
    assert forall other | other in s && other != first :: other in rest;
    if rest != {} {
      var m := LeastExists(t, rest);
      BeforeTotal(t, first, m);
      if Before(t, first, m) {
        forall other | other in rest && other != m ensures Before(t, first, other) {
          BeforeTransitive(t, first, m, other);
        }
      } else {
        least := m;
      }
    }
  }

  lemma NextExists(t: Tables, now: int)
    requires EligibleSet(t, now) != {}
    ensures exists id :: IsNext(t, id, now)
  {
    var least := LeastExists(t, EligibleSet(t, now));
    forall other | Eligible(t, other, now) && other != least ensures Before(t, least, other) {
      assert other in EligibleSet(t, now);
    }
    assert IsNext(t, least, now);
  }

  lemma NextUnique(t: Tables, a: string, b: string, now: int)
    requires IsNext(t, a, now) && IsNext(t, b, now)
    ensures a == b
  {
    if a != b {
      BeforeAsymmetric(t, a, b);
    }
  }

  // ------------------------------------------------------- claims never fail

  /** With valid arguments a claim never fails: it answers None exactly when nothing is
      eligible, and otherwise takes the first row by (feedback, observed time, id). */
  lemma ClaimTakesTheNext(t: Tables, owner: string, now: int, leaseMs: int, token: string)
    requires Inv(t) && token !in t.issuedTokens && ValidClaimArgs(owner, now, leaseMs)
    ensures var (t', r) := ClaimStep(t, owner, now, leaseMs, token);
            && r.Ok?
            && (r.value.None? <==> EligibleSet(t, now) == {})
            && (r.value.None? ==> t' == t)
            && (r.value.Some? ==> IsNext(t, r.value.value.lease.intake, now))
  {
    if exists id :: IsNext(t, id, now) {
      var id :| IsNext(t, id, now) && ClaimStep(t, owner, now, leaseMs, token) ==
        ClaimRow(t, t.intakes[id], Latest(t.receipts, id).value, owner, now, leaseMs, token);
      assert id in EligibleSet(t, now);
      ClaimRowSucceeds(t, id, owner, now, leaseMs, token);
    } else if EligibleSet(t, now) != {} {
      NextExists(t, now);
    }
  }

  // -------------------------------------------------------- nobody stranded

  ghost predicate PendingIntake(t: Tables, id: string) {
    id in t.intakes && Latest(t.receipts, id).Some? && Pending(Latest(t.receipts, id).value.state)
  }

  /** The time from which a pending intake can be claimed. */
  ghost function ClaimableFrom(t: Tables, id: string): int {
    var leased := if exists l :: l in t.leases && l.intake == id then
                    var l :| l in t.leases && l.intake == id; l.expiresAtMs else 0;
    var deferred := if id in t.deferrals then t.deferrals[id].retryNotBeforeMs else 0;
    if leased < deferred then deferred else leased
  }

  /** No intake is stranded: a pending intake is eligible exactly from a time that can be
      read off the tables. */
  lemma NoIntakeIsStranded(t: Tables, id: string, now: int)
    requires Inv(t) && PendingIntake(t, id) && now >= 0
    ensures Eligible(t, id, now) <==> now >= ClaimableFrom(t, id)
  {
  }

  // --------------------------------------------------------- claims in a row

  lemma GrantKeepsOthers(t: Tables, lease: Lease, now: int, id: string)
    requires lease.intake != id
    ensures Eligible(GrantLease(t, lease, now), id, now) <==> Eligible(t, id, now)
  {
    var t' := GrantLease(t, lease, now);
    assert forall l: Lease | l.intake == id :: l in t'.leases <==> l in t.leases;
  }

  lemma LatestUnaffected(receipts: ReceiptTable, r: Receipt, id: string)
    requires r.intake != id
    ensures Latest(receipts[(r.intake, r.revision) := r], id) == Latest(receipts, id)
  {
    var receipts' := receipts[(r.intake, r.revision) := r];
    forall n: nat ensures IsLatest(receipts', id, n) <==> IsLatest(receipts, id, n) {
      if IsLatest(receipts', id, n) {
        forall m: nat | m > n ensures (id, m) !in receipts { assert (id, m) !in receipts'; }
      }
    }
    if n: nat :| IsLatest(receipts, id, n) {
      forall m: nat | IsLatest(receipts, id, m) ensures m == n { LatestUnique(receipts, id, m, n); }
    }
  }

  /** The tables after an eligible row is claimed. */
  lemma ClaimRowTables(t: Tables, id: string, owner: string, now: int, leaseMs: int, token: string)
    returns (t1: Tables, lease: Lease)
    requires Inv(t) && Eligible(t, id, now) && token !in t.issuedTokens
    ensures lease.intake == id && lease.expiresAtMs == now + leaseMs
    ensures ClaimRow(t, t.intakes[id], Latest(t.receipts, id).value, owner, now, leaseMs, token).0 == GrantLease(t1, lease, now)
    ensures t1 == t.(receipts := t1.receipts)
    ensures forall other | other != id :: Latest(t1.receipts, other) == Latest(t.receipts, other)
  {
    ClaimRowSucceeds(t, id, owner, now, leaseMs, token);
    var n := CandidateReceipt(t, id, now);
    var current := t.receipts[(id, n)];
    t1 := if current.state.Observed? then AddReceipt(t, Promote(current)) else t;
    lease := Lease(t.intakes[id].material.workspaceKey, id, id, token, owner, Promote(current).revision, now + leaseMs);
    forall other | other != id ensures Latest(t1.receipts, other) == Latest(t.receipts, other) {
      LatestUnaffected(t.receipts, Promote(current), other);
    }
  }

  lemma ClaimRowEligibility(t: Tables, id: string, owner: string, now: int, leaseMs: int, token: string)
    requires Inv(t) && Eligible(t, id, now) && token !in t.issuedTokens && leaseMs > 0
    ensures EligibleSet(ClaimRow(t, t.intakes[id], Latest(t.receipts, id).value, owner, now, leaseMs, token).0, now)
            == EligibleSet(t, now) - {id}
  {
    var t1, lease := ClaimRowTables(t, id, owner, now, leaseMs, token);
    var t' := GrantLease(t1, lease, now);
    forall other | other != id ensures Eligible(t', other, now) <==> Eligible(t, other, now) {
      GrantKeepsOthers(t1, lease, now, other);
    }
    assert lease in t'.leases;
  }

  /** A claim takes exactly its own intake out of the eligible rows. */
  lemma ClaimRemovesOnlyItsIntake(t: Tables, owner: string, now: int, leaseMs: int, token: string)
    requires Inv(t) && token !in t.issuedTokens && ValidClaimArgs(owner, now, leaseMs)
    requires EligibleSet(t, now) != {}
    ensures var (t', r) := ClaimStep(t, owner, now, leaseMs, token);
            && r.Ok? && r.value.Some?
            && r.value.value.lease.intake in EligibleSet(t, now)
            && EligibleSet(t', now) == EligibleSet(t, now) - {r.value.value.lease.intake}
  {
    NextExists(t, now);
    forall id | IsNext(t, id, now)
      ensures var (t', r) := ClaimRow(t, t.intakes[id], Latest(t.receipts, id).value, owner, now, leaseMs, token);
              && r.Ok? && r.value.Some? && r.value.value.lease.intake == id && id in EligibleSet(t, now)
              && EligibleSet(t', now) == EligibleSet(t, now) - {id}
    {
      ClaimRowSucceeds(t, id, owner, now, leaseMs, token);
      ClaimRowEligibility(t, id, owner, now, leaseMs, token);
    }
  }

  ghost predicate ClaimsAt(ops: seq<Op>, now: int) {
    forall op | op in ops :: op.ClaimNext? && op.now == now && ValidClaimArgs(op.owner, now, op.leaseMs)
  }

  /** Any workers that keep claiming at one time take every eligible intake: after as many
      claims as there are eligible rows, none is left. */
  lemma {:induction false} ClaimsDrainTheQueue(t: Tables, limits: Limits, ops: seq<Op>, now: int)
    requires Inv(t) && FreshRun(t, limits, ops) && ClaimsAt(ops, now)
    ensures |EligibleSet(Run(t, limits, ops), now)| ==
            if |ops| < |EligibleSet(t, now)| then |EligibleSet(t, now)| - |ops| else 0
    decreases |ops|
  {
    if ops != [] {
      var op := ops[0];
      var t' := Step(t, limits, op);
      ClaimKeepsInv(t, op.owner, now, op.leaseMs, op.freshToken);
      ClaimTakesTheNext(t, op.owner, now, op.leaseMs, op.freshToken);
      if EligibleSet(t, now) != {} {
        ClaimRemovesOnlyItsIntake(t, op.owner, now, op.leaseMs, op.freshToken);
      }
      ClaimsDrainTheQueue(t', limits, ops[1..], now);
    }
  }

  // ---------------------------------------------------------------- capacity

  lemma {:induction false} TotalRemove(rows: map<string, Observation>, size: Observation -> nat, k: string)
    requires k in rows
    ensures TotalPayload(rows, size) == size(rows[k]) + TotalPayload(rows - {k}, size)
    decreases |rows|
  {
    var c :| c in rows && TotalPayload(rows, size) == size(rows[c]) + TotalPayload(rows - {c}, size);
    if c != k {
      assert (rows - {c}) - {k} == (rows - {k}) - {c};
      TotalRemove(rows - {c}, size, k);
      TotalRemove(rows - {k}, size, c);
    }
  }

  ghost predicate WithinLimits(t: Tables, limits: Limits) {
    |t.intakes| <= limits.maxRows && TotalPayload(t.intakes, limits.payloadSize) <= limits.maxPayloadBytes
  }

  lemma ObserveKeepsLimits(t: Tables, limits: Limits, o: Observation, freshId: string)
    requires WithinLimits(t, limits)
    ensures WithinLimits(ObserveStep(t, limits, o, freshId).0, limits)
  {
    ObserveEffect(t, limits, o, freshId);
    if freshId !in t.intakes && !AtCapacity(t, limits, o) {
      var rows := t.intakes[freshId := o];
      TotalRemove(rows, limits.payloadSize, freshId);
      assert rows - {freshId} == t.intakes;
    }
  }

  lemma ClaimKeepsIntakes(t: Tables, owner: string, now: int, leaseMs: int, token: string)
    ensures ClaimStep(t, owner, now, leaseMs, token).0.intakes == t.intakes
  {
    var id, lease, begun := ClaimEffect(t, owner, now, leaseMs, token);
  }

  lemma OthersKeepIntakes(t: Tables, limits: Limits, op: Op)
    requires !op.Observe?
    ensures Step(t, limits, op).intakes == t.intakes
  {
    match op
    case ClaimNext(owner, now, leaseMs, token) => ClaimKeepsIntakes(t, owner, now, leaseMs, token);
    case Defer(lease, retryAt, reason, now) => DeferEffect(t, lease, retryAt, reason, now);
    case Settle(lease, sid, u, now) => var r := SettleEffect(t, lease, sid, u, now);
    case Transition(p, w, id, u) => var r := TransitionEffect(t, p, w, id, u);
  }

  /** The row and payload limits hold over every run. */
  lemma {:induction false} RunKeepsLimits(t: Tables, limits: Limits, ops: seq<Op>)
    requires WithinLimits(t, limits)
    ensures WithinLimits(Run(t, limits, ops), limits)
    decreases |ops|
  {
    if ops != [] {
      if ops[0].Observe? {
        ObserveKeepsLimits(t, limits, ops[0].observation, ops[0].freshId);
      } else {
        OthersKeepIntakes(t, limits, ops[0]);
      }
      RunKeepsLimits(Step(t, limits, ops[0]), limits, ops[1..]);
    }
  }
}
