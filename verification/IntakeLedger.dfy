/** The ledger object. Each transaction, written step by step as the source writes it,
    commits exactly the step that the run theorems are about. */
module IntakeLedger {
  import opened Text
  import opened Intake
  import opened IntakeInvariant
  import IntakeClaims

  class MemoryIntakeLedger {
    var db: Tables
    const limits: Limits

    ghost predicate Valid()
      reads this
    {
      Inv(db)
    }

    constructor (limits: Limits)
      ensures Valid() && db == EMPTY_TABLES && this.limits == limits
    {
      this.limits := limits;
      db := EMPTY_TABLES;
    }

    /** `ORDER BY revision DESC LIMIT 1`. */
    method LatestReceipt(id: string) returns (r: Option<Receipt>)
      ensures r == Latest(db.receipts, id)
    {
      r := None;
      var best: nat := 0;
      var keys := db.receipts.Keys;
      while keys != {}
        invariant keys <= db.receipts.Keys
        invariant r.None? ==> forall n: nat :: (id, n) in db.receipts ==> (id, n) in keys
        invariant r.Some? ==> (id, best) in db.receipts && r.value == db.receipts[(id, best)]
        invariant r.Some? ==> forall n: nat :: (id, n) in db.receipts ==> (id, n) in keys || n <= best
        decreases keys
      {
        var k :| k in keys;
        keys := keys - {k};
        if k.0 == id && (r.None? || best < k.1) {
          r := Some(db.receipts[k]);
          best := k.1;
        }
      }
      if r.Some? {
        assert IsLatest(db.receipts, id, best);
        LatestIs(db, id, best);
      }
    }

    method FindPrior(m: Material) returns (r: Option<string>)
      ensures r.Some? ==> IsPrior(db, m, r.value)
      ensures r.None? ==> forall id :: !IsPrior(db, m, id)
    {
      var keys := db.intakes.Keys;
      while keys != {}
        invariant keys <= db.intakes.Keys
        invariant forall id :: IsPrior(db, m, id) ==> id in keys
        decreases keys
      {
        var k :| k in keys;
        if SameObservationKey(db.intakes[k].material, m) {
          return Some(k);
        }
        keys := keys - {k};
      }
      return None;
    }

    method StoredPayload() returns (total: nat)
      ensures total == TotalPayload(db.intakes, limits.payloadSize)
    {
      total := 0;
      var rest := db.intakes;
      while rest != map[]
        invariant total + TotalPayload(rest, limits.payloadSize) == TotalPayload(db.intakes, limits.payloadSize)
        decreases |rest|
      {
        var k :| k in rest;
        IntakeClaims.TotalRemove(rest, limits.payloadSize, k);
        total := total + limits.payloadSize(rest[k]);
        rest := rest - {k};
      }
    }

    method Observe(o: Observation, freshId: string) returns (r: Result<ObserveReply, IntakeError>)
      requires Valid()
      modifies this
      ensures Valid()
      ensures (db, r) == ObserveStep(old(db), limits, o, freshId)
    {
      ObserveKeepsInv(db, limits, o, freshId);
      if !ValidObservation(o) {
        return Err(Validation);
      }
      var prior := FindPrior(o.material);
      if prior.Some? {
        forall id | IsPrior(db, o.material, id) ensures id == prior.value {
          assert SameObservationKey(db.intakes[id].material, db.intakes[prior.value].material);
        }
        if db.intakes[prior.value].material != o.material {
          return Err(IdempotencyConflict);
        }
        return Ok(ObserveReply(prior.value, true));
      }
      var stored := StoredPayload();
      if |db.intakes| >= limits.maxRows || stored + limits.payloadSize(o) > limits.maxPayloadBytes {
        return Err(Capacity);
      }
      if freshId in db.intakes || (freshId, 1) in db.receipts {
        return Err(Storage);
      }
      var transaction := db.(intakes := db.intakes[freshId := o]);
      transaction := AddReceipt(transaction, FirstReceipt(freshId));
      db := transaction;
      return Ok(ObserveReply(freshId, false));
    }

    method IsEligible(id: string, now: int) returns (b: bool)
      requires id in db.intakes
      ensures b == Eligible(db, id, now)
    {
      var current := LatestReceipt(id);
      if current.None? || !Pending(current.value.state) {
        return false;
      }
      if id in db.deferrals && db.deferrals[id].retryNotBeforeMs > now {
        return false;
      }
      b := forall l | l in db.leases :: l.intake == id ==> l.expiresAtMs <= now;
    }

    /** The claim query: scan the intakes, keep the first eligible one in query order. */
    method NextCandidate(now: int) returns (r: Option<string>)
      ensures r.Some? ==> IsNext(db, r.value, now)
      ensures r.None? ==> forall id :: !Eligible(db, id, now)
    {
      r := None;
      var keys := db.intakes.Keys;
      while keys != {}
        invariant keys <= db.intakes.Keys
        invariant r.None? ==> forall id | Eligible(db, id, now) :: id in keys
        invariant r.Some? ==> Eligible(db, r.value, now)
        invariant r.Some? ==> forall id | Eligible(db, id, now) && id != r.value && id !in keys :: Before(db, r.value, id)
        decreases keys
      {
        var k :| k in keys;
        keys := keys - {k};
        var eligible := IsEligible(k, now);
        if eligible {
          if r.None? {
            r := Some(k);
          } else if k != r.value {
            IntakeClaims.BeforeTotal(db, k, r.value);
            if Before(db, k, r.value) {
              forall id | Eligible(db, id, now) && id != k && id !in keys ensures Before(db, k, id) {
                if id != r.value { IntakeClaims.BeforeTransitive(db, k, r.value, id); }
              }
              r := Some(k);
            }
          }
        }
      }
    }

    /** `INSERT` of the Evaluating receipt, unless the intake is being evaluated already. */
    method BeginEvaluation(current: Receipt) returns (transaction: Tables, lifecycle: Receipt, ok: bool)
      ensures lifecycle == Promote(current)
      ensures ok <==> !(current.state.Observed? && (current.intake, current.revision + 1) in db.receipts)
      ensures transaction == if ok && current.state.Observed? then AddReceipt(db, lifecycle) else db
    {
      transaction, lifecycle, ok := db, current, true;
      if current.state.Observed? {
        lifecycle := Receipt(current.intake, current.revision + 1, Evaluating, current.recordIds, current.remoteIds,
                             current.scorecard, [], None);
        if (lifecycle.intake, lifecycle.revision) in db.receipts {
          ok := false;
          return;
        }
        transaction := AddReceipt(transaction, lifecycle);
      }
    }

    /** The deletes and the lease insert of a claim; `freshToken` is the UUID it mints. */
    method InsertLease(begun: Tables, lease: Lease, now: int) returns (transaction: Tables, ok: bool)
      ensures ok <==> !exists l | l in DropExpired(begun.leases, lease.intake, now) :: LeaseKeyClash(l, lease)
      ensures ok ==> transaction == GrantLease(begun, lease, now)
    {
      transaction := begun.(leases := set l | l in begun.leases && !(l.intake == lease.intake && l.expiresAtMs <= now));
      transaction := transaction.(deferrals := transaction.deferrals - {lease.intake});
      ok := forall l | l in transaction.leases :: !LeaseKeyClash(l, lease);
      if ok {
        transaction := transaction.(leases := transaction.leases + {lease});
        transaction := transaction.(issuedTokens := transaction.issuedTokens + {lease.token});
      }
    }

    /** The claim once its row is chosen. */
    method ClaimCandidate(id: string, current: Receipt, owner: string, now: int, leaseMs: int, freshToken: string)
      returns (r: Result<Option<Claim>, IntakeError>)
      requires id in db.intakes
      modifies this
      ensures (db, r) == ClaimRow(old(db), old(db).intakes[id], current, owner, now, leaseMs, freshToken)
    {
      var o := db.intakes[id];
      if !ValidObservation(o) {
        return Err(Validation);
      }
      var transaction, lifecycle, ok := BeginEvaluation(current);
      if !ok {
        return Err(Storage);
      }
      var lease := Lease(o.material.workspaceKey, lifecycle.intake, lifecycle.intake, freshToken, owner,
                         lifecycle.revision, now + leaseMs);
      transaction, ok := InsertLease(transaction, lease, now);
      if !ok {
        return Err(Storage);
      }
      db := transaction;
      return Ok(Some(Claim(lease, o, lifecycle)));
    }

    method ClaimNextMaintenance(owner: string, now: int, leaseMs: int, freshToken: string)
      returns (r: Result<Option<Claim>, IntakeError>)
      requires Valid() && freshToken !in db.issuedTokens
      modifies this
      ensures Valid()
      ensures (db, r) == ClaimStep(old(db), owner, now, leaseMs, freshToken)
    {
      ClaimKeepsInv(db, owner, now, leaseMs, freshToken);
      if !ValidClaimArgs(owner, now, leaseMs) {
        return Err(Validation);
      }
      var candidate := NextCandidate(now);
      if candidate.None? {
        return Ok(None);
      }
      forall id | IsNext(db, id, now) ensures id == candidate.value {
        IntakeClaims.NextUnique(db, id, candidate.value, now);
      }
      var found := LatestReceipt(candidate.value);
      r := ClaimCandidate(candidate.value, found.value, owner, now, leaseMs, freshToken);
    }

    method DeferMaintenance(lease: Lease, retryAt: int, reason: string, now: int)
      returns (r: Result<Receipt, IntakeError>)
      requires Valid()
      modifies this
      ensures Valid()
      ensures (db, r) == DeferStep(old(db), lease, retryAt, reason, now)
    {
      DeferKeepsInv(db, lease, retryAt, reason, now);
      if !ValidDeferArgs(lease, retryAt, reason, now) {
        return Err(Validation);
      }
      if !Authoritative(db, lease, now) {
        return Err(LeaseUnavailable);
      }
      r := Ok(db.receipts[(lease.intake, lease.claimedRevision)]);
      var transaction := db.(deferrals := db.deferrals[lease.intake := Deferral(retryAt, reason)]);
      transaction := transaction.(leases := DropToken(transaction.leases, lease.token));
      db := transaction;
    }

    method SettleMaintenance(lease: Lease, settlementId: string, u: Update, now: int)
      returns (r: Result<Receipt, IntakeError>)
      requires Valid()
      modifies this
      ensures Valid()
      ensures (db, r) == SettleStep(old(db), lease, settlementId, u, now)
    {
      SettleKeepsInv(db, lease, settlementId, u, now);
      if !ValidSettleArgs(lease, settlementId, u, now) {
        return Err(Validation);
      }
      if settlementId in db.settlements {
        var prior := db.settlements[settlementId];
        if prior.hashed != (lease.intake, u) {
          return Err(SettlementConflict);
        }
        return Ok(prior.receipt);
      }
      if !Authoritative(db, lease, now) {
        return Err(LeaseUnavailable);
      }
      var current := db.receipts[(lease.intake, lease.claimedRevision)];
      if current.revision != u.expectedRevision {
        return Err(RevisionConflict);
      }
      var next := NextReceipt(lease.intake, current, u);
      if next.Err? {
        return next;
      }
      var receipt := next.value;
      if (lease.intake, receipt.revision) in db.receipts {
        return Err(Storage);
      }
      var transaction := AddReceipt(db, receipt);
      transaction := transaction.(settlements :=
        transaction.settlements[settlementId := Settlement(lease.intake, (lease.intake, u), receipt)]);
      transaction := transaction.(leases := DropToken(transaction.leases, lease.token));
      transaction := transaction.(deferrals := transaction.deferrals - {lease.intake});
      db := transaction;
      return Ok(receipt);
    }

    method TransitionLifecycle(principal: string, workspace: string, id: string, u: Update)
      returns (r: Result<Receipt, IntakeError>)
      requires Valid()
      modifies this
      ensures Valid()
      ensures (db, r) == TransitionStep(old(db), principal, workspace, id, u)
    {
      TransitionKeepsInv(db, principal, workspace, id, u);
      if !ValidUpdate(u) {
        return Err(Validation);
      }
      var current := LatestReceipt(id);
      if !Owns(db, principal, workspace, id) || current.None? {
        return Err(NotFound);
      }
      var next := NextReceipt(id, current.value, u);
      if next.Err? {
        return next;
      }
      if (id, next.value.revision) in db.receipts {
        return Err(Storage);
      }
      db := AddReceipt(db, next.value);
      return Ok(next.value);
    }
  }
}
