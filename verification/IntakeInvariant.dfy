/** What every transaction of the intake ledger keeps. */
module IntakeInvariant {
  import opened Text
  import opened Intake

  // ------------------------------------------------------------- invariant

  predicate Contains(big: seq<string>, small: seq<string>) {
    forall x | x in small :: x in big
  }

  /** One legal step of a receipt history: the next revision, along the transition
      graph, with identifier lists that only grow. */
  predicate Follows(prev: Receipt, next: Receipt) {
    && next.intake == prev.intake && next.revision == prev.revision + 1
    && AllowsTransition(prev.state, next.state)
    && Contains(next.recordIds, prev.recordIds) && Contains(next.remoteIds, prev.remoteIds)
  }

  predicate RowOk(receipts: ReceiptTable, ids: set<string>, k: (string, nat))
    requires k in receipts
  {
    var r := receipts[k];
    && k.0 in ids && r.intake == k.0 && r.revision == k.1 && k.1 >= 1
    && (k.1 == 1 ==> r == FirstReceipt(k.0))
    && (k.1 > 1 ==> (k.0, k.1 - 1) in receipts && Follows(receipts[(k.0, k.1 - 1)], r))
  }

  /** Every intake has receipts 1..n for some n, without gap or fork. */
  ghost predicate Histories(receipts: ReceiptTable, ids: set<string>) {
    && (forall k {:trigger RowOk(receipts, ids, k)} | k in receipts :: RowOk(receipts, ids, k))
    && (forall id {:trigger HasLatest(receipts, id)} | id in ids :: HasLatest(receipts, id))
  }

  ghost predicate HasLatest(receipts: ReceiptTable, id: string) {
    exists n :: IsLatest(receipts, id, n)
  }

  predicate DistinctObservations(intakes: map<string, Observation>) {
    forall a, b {:trigger SameObservationKey(intakes[a].material, intakes[b].material)}
      | a in intakes && b in intakes ::
      SameObservationKey(intakes[a].material, intakes[b].material) ==> a == b
  }

  predicate ValidObservations(intakes: map<string, Observation>) {
    forall id {:trigger ValidObservation(intakes[id])} | id in intakes :: ValidObservation(intakes[id])
  }

  predicate Intakes(intakes: map<string, Observation>, deferred: set<string>) {
    && ValidObservations(intakes)
    && DistinctObservations(intakes)
    && deferred <= intakes.Keys
  }

  predicate LeaseOk(t: Tables, l: Lease) {
    && l.intake in t.intakes && l.watermark == l.intake
    && l.scopeKey == t.intakes[l.intake].material.workspaceKey
    && l.claimedRevision == 2 && (l.intake, 2) in t.receipts && t.receipts[(l.intake, 2)].state.Evaluating?
    && l.token in t.issuedTokens
  }

  /** At most one lease per intake and per token. */
  predicate DistinctLeases(leases: set<Lease>) {
    forall a, b | a in leases && b in leases && a != b :: a.intake != b.intake && a.token != b.token
  }

  predicate Leases(t: Tables) {
    DistinctLeases(t.leases) && forall l {:trigger LeaseOk(t, l)} | l in t.leases :: LeaseOk(t, l)
  }

  predicate SettlementOk(receipts: ReceiptTable, s: Settlement) {
    && s.hashed.0 == s.intake
    && (s.intake, 3) in receipts && receipts[(s.intake, 3)] == s.receipt
    && (s.receipt.state.Rejected? || s.receipt.state.PromotedLocal?)
    && s.receipt.state == s.hashed.1.state
  }

  /** At most one settlement per intake. */
  predicate DistinctSettlements(settlements: map<string, Settlement>) {
    forall a, b | a in settlements && b in settlements && a != b :: settlements[a].intake != settlements[b].intake
  }

  predicate Settlements(settlements: map<string, Settlement>, receipts: ReceiptTable) {
    && DistinctSettlements(settlements)
    && forall s {:trigger SettlementOk(receipts, settlements[s])} | s in settlements :: SettlementOk(receipts, settlements[s])
  }

  ghost predicate Inv(t: Tables) {
    && Histories(t.receipts, t.intakes.Keys)
    && Intakes(t.intakes, t.deferrals.Keys)
    && Leases(t)
    && Settlements(t.settlements, t.receipts)
  }

  ghost predicate HistoriesOf(t: Tables) {
    Histories(t.receipts, t.intakes.Keys)
  }

  // ------------------------------------------------------ reading histories

  lemma LatestUnique(receipts: ReceiptTable, id: string, m: nat, n: nat)
    requires IsLatest(receipts, id, m) && IsLatest(receipts, id, n)
    ensures m == n
  {
  }

  lemma LatestIs(t: Tables, id: string, n: nat)
    requires IsLatest(t.receipts, id, n)
    ensures Latest(t.receipts, id) == Some(t.receipts[(id, n)])
  {
    var m: nat :| IsLatest(t.receipts, id, m) && Latest(t.receipts, id) == Some(t.receipts[(id, m)]);
    LatestUnique(t.receipts, id, m, n);
  }

  /** Observed is only ever the first revision and Evaluating only ever the second. */
  lemma StateFixesRevision(t: Tables, k: (string, nat))
    requires HistoriesOf(t) && k in t.receipts
    ensures t.receipts[k].state.Observed? <==> k.1 == 1
    ensures t.receipts[k].state.Evaluating? ==> k.1 == 2
  {
    assert RowOk(t.receipts, t.intakes.Keys, k);
    if k.1 > 1 {
      assert RowOk(t.receipts, t.intakes.Keys, (k.0, k.1 - 1));
    }
  }

  lemma {:induction false} Contiguous(t: Tables, id: string, n: nat, m: nat)
    requires HistoriesOf(t) && (id, n) in t.receipts && 1 <= m <= n
    ensures (id, m) in t.receipts
    decreases n - m
  {
    if m < n {
      Contiguous(t, id, n, m + 1);
      assert RowOk(t.receipts, t.intakes.Keys, (id, m + 1));
    }
  }

  // -------------------------------------------------------- extending them

  lemma AppendKeepsRow(receipts: ReceiptTable, ids: set<string>, r: Receipt, k: (string, nat))
    requires k in receipts && RowOk(receipts, ids, k) && (r.intake, r.revision) !in receipts
    ensures RowOk(receipts[(r.intake, r.revision) := r], ids, k)
  {
  }

  lemma AppendedRowIsOk(receipts: ReceiptTable, ids: set<string>, n: nat, r: Receipt)
    requires (r.intake, n) in receipts && RowOk(receipts, ids, (r.intake, n)) && Follows(receipts[(r.intake, n)], r)
    ensures r.revision == n + 1 && RowOk(receipts[(r.intake, n + 1) := r], ids, (r.intake, n + 1))
  {
  }

  lemma AppendMovesLatest(receipts: ReceiptTable, n: nat, r: Receipt, id: string)
    requires IsLatest(receipts, r.intake, n) && HasLatest(receipts, id)
    ensures HasLatest(receipts[(r.intake, n + 1) := r], id)
    ensures IsLatest(receipts[(r.intake, n + 1) := r], r.intake, n + 1)
  {
    var m: nat :| IsLatest(receipts, id, m);
    assert IsLatest(receipts[(r.intake, n + 1) := r], id, if id == r.intake then n + 1 else m);
  }

  /** Adding the successor of the latest receipt keeps every history. */
  lemma AppendKeepsHistories(t: Tables, n: nat, r: Receipt)
    requires HistoriesOf(t) && IsLatest(t.receipts, r.intake, n) && Follows(t.receipts[(r.intake, n)], r)
    ensures r.revision == n + 1 && (r.intake, n + 1) !in t.receipts
    ensures HistoriesOf(AddReceipt(t, r)) && IsLatest(AddReceipt(t, r).receipts, r.intake, n + 1)
  {
    var receipts, ids := t.receipts, t.intakes.Keys;
    var receipts' := receipts[(r.intake, n + 1) := r];
    assert RowOk(receipts, ids, (r.intake, n));
    AppendedRowIsOk(receipts, ids, n, r);
    forall k | k in receipts' ensures RowOk(receipts', ids, k) {
      if k in receipts {
        assert RowOk(receipts, ids, k);
        AppendKeepsRow(receipts, ids, r, k);
      }
    }
    forall id | id in ids ensures HasLatest(receipts', id) {
      assert HasLatest(receipts, id);
      AppendMovesLatest(receipts, n, r, id);
    }
    AppendMovesLatest(receipts, n, r, r.intake);
  }

  lemma AppendKeepsRest(t: Tables, r: Receipt)
    requires Leases(t) && Settlements(t.settlements, t.receipts) && (r.intake, r.revision) !in t.receipts
    ensures Leases(AddReceipt(t, r)) && Settlements(t.settlements, AddReceipt(t, r).receipts)
  {
    var t' := AddReceipt(t, r);
    forall s | s in t.settlements ensures SettlementOk(t'.receipts, t.settlements[s]) {
      assert SettlementOk(t.receipts, t.settlements[s]);
    }
    forall l | l in t.leases ensures LeaseOk(t', l) {
      assert LeaseOk(t, l);
    }
  }

  lemma NextReceiptFollows(current: Receipt, u: Update)
    requires NextReceipt(current.intake, current, u).Ok?
    ensures Follows(current, NextReceipt(current.intake, current, u).value)
  {
  }

  // ------------------------------------------------------ each transaction

  lemma FirstReceiptKeepsHistories(receipts: ReceiptTable, ids: set<string>, id: string)
    requires Histories(receipts, ids) && id !in ids
    ensures Histories(receipts[(id, 1) := FirstReceipt(id)], ids + {id})
  {
    var receipts', ids' := receipts[(id, 1) := FirstReceipt(id)], ids + {id};
    forall m: nat ensures (id, m) !in receipts {
      assert (id, m) in receipts ==> RowOk(receipts, ids, (id, m));
    }
    forall k | k in receipts' ensures RowOk(receipts', ids', k) {
      if k in receipts { assert RowOk(receipts, ids, k); }
    }
    forall i | i in ids' ensures HasLatest(receipts', i) {
      if i == id {
        assert IsLatest(receipts', i, 1);
      } else {
        assert HasLatest(receipts, i);
        var n :| IsLatest(receipts, i, n);
        assert IsLatest(receipts', i, n);
      }
    }
  }

  lemma NewObservationDistinct(t: Tables, m: Material, id: string, o: Observation)
    requires DistinctObservations(t.intakes) && id !in t.intakes && o.material == m
    requires forall i :: !IsPrior(t, m, i)
    ensures DistinctObservations(t.intakes[id := o])
  {
    var intakes' := t.intakes[id := o];
    forall a, b | a in intakes' && b in intakes' && SameObservationKey(intakes'[a].material, intakes'[b].material)
      ensures a == b
    {
      assert !IsPrior(t, m, a) && !IsPrior(t, m, b);
    }
  }

  lemma NewObservationValid(intakes: map<string, Observation>, id: string, o: Observation)
    requires ValidObservations(intakes) && ValidObservation(o)
    ensures ValidObservations(intakes[id := o])
  {
  }

  lemma NewIntakeKeepsLeases(t: Tables, t': Tables, id: string, o: Observation)
    requires Leases(t) && id !in t.intakes && t' == t.(intakes := t.intakes[id := o])
    ensures Leases(t')
  {
    forall l | l in t'.leases ensures LeaseOk(t', l) { assert LeaseOk(t, l); }
  }

  lemma NewIntakeKeepsInv(t: Tables, o: Observation, id: string)
    requires Inv(t) && id !in t.intakes && (id, 1) !in t.receipts && ValidObservation(o)
    requires forall i :: !IsPrior(t, o.material, i)
    ensures Inv(AddReceipt(t, FirstReceipt(id)).(intakes := t.intakes[id := o]))
  {
    var t' := AddReceipt(t, FirstReceipt(id)).(intakes := t.intakes[id := o]);
    FirstReceiptKeepsHistories(t.receipts, t.intakes.Keys, id);
    assert t'.intakes.Keys == t.intakes.Keys + {id};
    NewObservationDistinct(t, o.material, id, o);
    NewObservationValid(t.intakes, id, o);
    AppendKeepsRest(t, FirstReceipt(id));
    NewIntakeKeepsLeases(AddReceipt(t, FirstReceipt(id)), t', id, o);
  }

  lemma ObserveKeepsInv(t: Tables, limits: Limits, o: Observation, freshId: string)
    requires Inv(t)
    ensures Inv(ObserveStep(t, limits, o, freshId).0)
  {
    if ObserveStep(t, limits, o, freshId).0 != t {
      NewIntakeKeepsInv(t, o, freshId);
    }
  }

  lemma TransitionKeepsInv(t: Tables, principal: string, workspace: string, id: string, u: Update)
    requires Inv(t)
    ensures Inv(TransitionStep(t, principal, workspace, id, u).0)
  {
    var step := TransitionStep(t, principal, workspace, id, u);
    if step.1.Ok? {
      assert HasLatest(t.receipts, id);
      var n :| IsLatest(t.receipts, id, n);
      LatestIs(t, id, n);
      assert RowOk(t.receipts, t.intakes.Keys, (id, n));
      var r := step.1.value;
      NextReceiptFollows(t.receipts[(id, n)], u);
      AppendKeepsHistories(t, n, r);
      AppendKeepsRest(t, r);
      assert step.0 == AddReceipt(t, r);
    }
  }

  lemma DeferKeepsInv(t: Tables, lease: Lease, retryAt: int, reason: string, now: int)
    requires Inv(t)
    ensures Inv(DeferStep(t, lease, retryAt, reason, now).0)
  {
    var t' := DeferStep(t, lease, retryAt, reason, now).0;
    if t' != t {
      var row :| row in t.leases && Authorizes(row, lease, now);
      assert LeaseOk(t, row);
      SubsetKeepsLeases(t, t');
    }
  }

  /** A live lease row always points at its intake's Evaluating receipt, revision 2. */
  lemma AuthorityPointsAtEvaluation(t: Tables, lease: Lease, now: int)
    requires Inv(t) && Authoritative(t, lease, now)
    ensures lease.claimedRevision == 2 && lease.intake in t.intakes
    ensures var r := t.receipts[(lease.intake, 2)]; r.intake == lease.intake && r.revision == 2 && r.state.Evaluating?
  {
    var row :| row in t.leases && Authorizes(row, lease, now);
    assert LeaseOk(t, row);
    assert RowOk(t.receipts, t.intakes.Keys, (lease.intake, 2));
  }

  lemma SettleKeepsInv(t: Tables, lease: Lease, sid: string, u: Update, now: int)
    requires Inv(t)
    ensures Inv(SettleStep(t, lease, sid, u, now).0)
  {
    var step := SettleStep(t, lease, sid, u, now);
    if step.0 != t {
      AuthorityPointsAtEvaluation(t, lease, now);
      var r := step.1.value;
      NextReceiptFollows(t.receipts[(lease.intake, 2)], u);
      forall m: nat | m > 2 ensures (lease.intake, m) !in t.receipts {
        if (lease.intake, m) in t.receipts { Contiguous(t, lease.intake, m, 3); }
      }
      forall s | s in t.settlements ensures t.settlements[s].intake != lease.intake {
        assert SettlementOk(t.receipts, t.settlements[s]);
      }
      AppendKeepsHistories(t, 2, r);
      AppendKeepsRest(t, r);
      var t1 := AddReceipt(t, r);
      SettlementRowKeepsInv(t1, step.0, lease, sid, u, r);
    }
  }

  lemma SettlementRowKeepsInv(t: Tables, t': Tables, lease: Lease, sid: string, u: Update, r: Receipt)
    requires Inv(t) && sid !in t.settlements
    requires (lease.intake, 3) in t.receipts && t.receipts[(lease.intake, 3)] == r
    requires r.state == u.state && (r.state.Rejected? || r.state.PromotedLocal?)
    requires forall s | s in t.settlements :: t.settlements[s].intake != lease.intake
    requires t' == t.(settlements := t.settlements[sid := Settlement(lease.intake, (lease.intake, u), r)],
                      leases := DropToken(t.leases, lease.token),
                      deferrals := t.deferrals - {lease.intake})
    ensures Inv(t')
  {
    assert DistinctSettlements(t'.settlements);
    forall s | s in t'.settlements ensures SettlementOk(t'.receipts, t'.settlements[s]) {
      if s != sid { assert SettlementOk(t.receipts, t.settlements[s]); }
    }
    SubsetKeepsLeases(t, t');
  }

  lemma SubsetKeepsLeases(t: Tables, t': Tables)
    requires Leases(t) && t'.leases <= t.leases
    requires t'.receipts == t.receipts && t'.intakes == t.intakes && t.issuedTokens <= t'.issuedTokens
    ensures Leases(t')
  {
    forall l | l in t'.leases ensures LeaseOk(t', l) { assert LeaseOk(t, l); }
  }

  /** The candidate row of a claim: its latest receipt is revision 1 or 2. */
  lemma CandidateReceipt(t: Tables, id: string, now: int) returns (n: nat)
    requires Inv(t) && Eligible(t, id, now)
    ensures IsLatest(t.receipts, id, n) && Latest(t.receipts, id) == Some(t.receipts[(id, n)])
    ensures t.receipts[(id, n)].intake == id && t.receipts[(id, n)].revision == n
    ensures if t.receipts[(id, n)].state.Observed? then n == 1 else n == 2 && t.receipts[(id, n)].state.Evaluating?
  {
    assert HasLatest(t.receipts, id);
    n :| IsLatest(t.receipts, id, n);
    LatestIs(t, id, n);
    assert RowOk(t.receipts, t.intakes.Keys, (id, n));
    StateFixesRevision(t, (id, n));
  }

  /** An eligible row is always claimed: no key of the lease insert or of the
      receipt insert collides, and the stored observation is still valid. */
  lemma ClaimRowSucceeds(t: Tables, id: string, owner: string, now: int, leaseMs: int, token: string)
    requires Inv(t) && Eligible(t, id, now) && token !in t.issuedTokens
    ensures var r := ClaimRow(t, t.intakes[id], Latest(t.receipts, id).value, owner, now, leaseMs, token);
            r.1.Ok? && r.1.value.Some? && r.1.value.value.lease.intake == id
  {
    var n := CandidateReceipt(t, id, now);
    forall l | l in DropExpired(t.leases, id, now)
      ensures !LeaseKeyClash(l, Lease(t.intakes[id].material.workspaceKey, id, id, token, owner, 2, now + leaseMs))
    {
      assert LeaseOk(t, l);
    }
  }

  lemma ClaimRowKeepsInv(t: Tables, id: string, owner: string, now: int, leaseMs: int, token: string)
    requires Inv(t) && Eligible(t, id, now) && token !in t.issuedTokens
    ensures Inv(ClaimRow(t, t.intakes[id], Latest(t.receipts, id).value, owner, now, leaseMs, token).0)
  {
    var n := CandidateReceipt(t, id, now);
    var current := t.receipts[(id, n)];
    var t1 := if current.state.Observed? then AddReceipt(t, Promote(current)) else t;
    if current.state.Observed? {
      assert Follows(current, Promote(current));
      AppendKeepsHistories(t, n, Promote(current));
      AppendKeepsRest(t, Promote(current));
    }
    LeaseRowKeepsInv(t1, Lease(t.intakes[id].material.workspaceKey, id, id, token, owner, 2, now + leaseMs), now);
  }

  lemma LeaseRowKeepsInv(t: Tables, lease: Lease, now: int)
    requires Inv(t) && lease.token !in t.issuedTokens
    requires LeaseOk(t.(issuedTokens := t.issuedTokens + {lease.token}), lease)
    requires forall l | l in t.leases && l.intake == lease.intake :: l.expiresAtMs <= now
    ensures Inv(GrantLease(t, lease, now))
  {
    var t' := GrantLease(t, lease, now);
    var t1 := t'.(leases := DropExpired(t.leases, lease.intake, now));
    SubsetKeepsLeases(t, t1);
    forall l | l in t'.leases ensures LeaseOk(t', l) {
      if l != lease { assert LeaseOk(t1, l); }
    }
    forall a | a in t1.leases ensures a.intake != lease.intake && a.token != lease.token {
      assert LeaseOk(t, a);
    }
    AddLeaseDistinct(t1.leases, lease);
  }

  lemma AddLeaseDistinct(leases: set<Lease>, lease: Lease)
    requires DistinctLeases(leases) && forall a | a in leases :: a.intake != lease.intake && a.token != lease.token
    ensures DistinctLeases(leases + {lease})
  {
  }

  lemma ClaimKeepsInv(t: Tables, owner: string, now: int, leaseMs: int, token: string)
    requires Inv(t) && token !in t.issuedTokens
    ensures Inv(ClaimStep(t, owner, now, leaseMs, token).0)
  {
    forall id | IsNext(t, id, now)
      ensures Inv(ClaimRow(t, t.intakes[id], Latest(t.receipts, id).value, owner, now, leaseMs, token).0)
    {
      ClaimRowKeepsInv(t, id, owner, now, leaseMs, token);
    }
  }

  lemma EmptyInv()
    ensures Inv(EMPTY_TABLES)
  {
  }

  lemma StepKeepsInv(t: Tables, limits: Limits, op: Op)
    requires Inv(t) && FreshOp(t, op)
    ensures Inv(Step(t, limits, op))
  {
    match op
    case Observe(o, freshId) => ObserveKeepsInv(t, limits, o, freshId);
    case ClaimNext(owner, now, leaseMs, token) => ClaimKeepsInv(t, owner, now, leaseMs, token);
    case Defer(lease, retryAt, reason, now) => DeferKeepsInv(t, lease, retryAt, reason, now);
    case Settle(lease, sid, u, now) => SettleKeepsInv(t, lease, sid, u, now);
    case Transition(p, w, id, u) => TransitionKeepsInv(t, p, w, id, u);
  }

  /** Over every interleaving of the ledger's calls the invariant holds. */
  lemma {:induction false} RunKeepsInv(t: Tables, limits: Limits, ops: seq<Op>)
    requires Inv(t) && FreshRun(t, limits, ops)
    ensures Inv(Run(t, limits, ops))
    decreases |ops|
  {
    if ops != [] {
      StepKeepsInv(t, limits, ops[0]);
      RunKeepsInv(Step(t, limits, ops[0]), limits, ops[1..]);
    }
  }
}
