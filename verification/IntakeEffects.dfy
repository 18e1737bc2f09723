/** What each transaction of the intake ledger may write, without the reasons why. */
module IntakeEffects {
  import opened Text
  import opened Intake

  /** A new intake with its first receipt. */
  function WithIntake(t: Tables, id: string, o: Observation): Tables {
    AddReceipt(t, FirstReceipt(id)).(intakes := t.intakes[id := o])
  }

  lemma ObserveEffect(t: Tables, limits: Limits, o: Observation, freshId: string)
    ensures var t' := ObserveStep(t, limits, o, freshId).0;
      || t' == t
      || (&& t' == WithIntake(t, freshId, o) && !AtCapacity(t, limits, o)
          && freshId !in t.intakes && (freshId, 1) !in t.receipts)
  {
  }

  /** A granted lease, with the receipt of a new evaluation if there is one. */
  function WithClaim(t: Tables, lease: Lease, begun: Option<Receipt>, now: int): Tables {
    GrantLease(if begun.Some? then AddReceipt(t, begun.value) else t, lease, now)
  }

  predicate Begins(t: Tables, lease: Lease, begun: Option<Receipt>) {
    begun.Some? ==>
      && begun.value.intake == lease.intake && begun.value.revision == lease.claimedRevision && begun.value.state.Evaluating?
      && (begun.value.intake, begun.value.revision) !in t.receipts
  }

  lemma ClaimRowEffect(t: Tables, o: Observation, current: Receipt, owner: string, now: int, leaseMs: int, token: string)
    returns (lease: Lease, begun: Option<Receipt>)
    ensures lease.token == token && lease.intake == current.intake && Begins(t, lease, begun)
    ensures begun.Some? ==> current.state.Observed? && begun.value.revision == current.revision + 1
    ensures var r := ClaimRow(t, o, current, owner, now, leaseMs, token);
      if r.1.Ok? then r.0 == WithClaim(t, lease, begun, now) && r.1.value.Some? && r.1.value.value.lease == lease else r.0 == t
  {
    var lifecycle := Promote(current);
    lease := Lease(o.material.workspaceKey, lifecycle.intake, lifecycle.intake, token, owner, lifecycle.revision, now + leaseMs);
    begun := if current.state.Observed? && (lifecycle.intake, lifecycle.revision) !in t.receipts then Some(lifecycle) else None;
  }

  /** A claim writes nothing, or the claim of the next row. */
  lemma ClaimEffect(t: Tables, owner: string, now: int, leaseMs: int, token: string)
    returns (id: string, lease: Lease, begun: Option<Receipt>)
    ensures var r := ClaimStep(t, owner, now, leaseMs, token);
      || (r.0 == t && !(r.1.Ok? && r.1.value.Some?))
      || (&& IsNext(t, id, now) && lease.token == token && lease.intake == Latest(t.receipts, id).value.intake
          && Begins(t, lease, begun) && r.0 == WithClaim(t, lease, begun, now)
          && (begun.Some? ==>
                && Latest(t.receipts, id).value.state.Observed?
                && begun.value.revision == Latest(t.receipts, id).value.revision + 1)
          && r.1.Ok? && r.1.value.Some? && r.1.value.value.lease == lease)
  {
    id, lease, begun := "", Lease("", "", "", token, owner, 0, 0), None;
    if ValidClaimArgs(owner, now, leaseMs) && exists i :: IsNext(t, i, now) {
      var i :| IsNext(t, i, now) && ClaimStep(t, owner, now, leaseMs, token)
        == ClaimRow(t, t.intakes[i], Latest(t.receipts, i).value, owner, now, leaseMs, token);
      id := i;
      lease, begun := ClaimRowEffect(t, t.intakes[i], Latest(t.receipts, i).value, owner, now, leaseMs, token);
    }
  }

  /** A settlement with its receipt; the lease and the deferral go. */
  function WithSettlement(t: Tables, lease: Lease, sid: string, u: Update, receipt: Receipt): Tables {
    AddReceipt(t, receipt).(
      settlements := t.settlements[sid := Settlement(lease.intake, (lease.intake, u), receipt)],
      leases := DropToken(t.leases, lease.token), deferrals := t.deferrals - {lease.intake})
  }

  lemma SettleEffect(t: Tables, lease: Lease, sid: string, u: Update, now: int) returns (receipt: Receipt)
    ensures var t' := SettleStep(t, lease, sid, u, now).0;
      || t' == t
      || (&& t' == WithSettlement(t, lease, sid, u, receipt) && sid !in t.settlements && Authoritative(t, lease, now)
          && receipt.intake == lease.intake && (receipt.intake, receipt.revision) !in t.receipts)
  {
    var r := SettleStep(t, lease, sid, u, now);
    receipt := if r.1.Ok? then r.1.value else FirstReceipt("");
  }

  lemma DeferEffect(t: Tables, lease: Lease, retryAt: int, reason: string, now: int)
    ensures var t' := DeferStep(t, lease, retryAt, reason, now).0;
      || t' == t
      || t' == t.(deferrals := t.deferrals[lease.intake := Deferral(retryAt, reason)],
                  leases := DropToken(t.leases, lease.token))
  {
  }

  lemma TransitionEffect(t: Tables, principal: string, workspace: string, id: string, u: Update) returns (receipt: Receipt)
    ensures var t' := TransitionStep(t, principal, workspace, id, u).0;
      || t' == t
      || (t' == AddReceipt(t, receipt) && receipt.intake == id && (receipt.intake, receipt.revision) !in t.receipts)
  {
    var r := TransitionStep(t, principal, workspace, id, u);
    receipt := if r.1.Ok? then r.1.value else FirstReceipt("");
  }
}
