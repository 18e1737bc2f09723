/** What holds over whole runs of the intake ledger, whoever interleaves the calls. */
module IntakeRuns {
  import opened Text
  import opened Intake
  import opened IntakeEffects
  import opened IntakeInvariant

  // --------------------------------------------------- receipt histories

  lemma {:induction false} HistoryGrows(t: Tables, id: string, i: nat, j: nat)
    requires HistoriesOf(t) && 1 <= i <= j && (id, j) in t.receipts
    ensures (id, i) in t.receipts
    ensures Contains(t.receipts[(id, j)].recordIds, t.receipts[(id, i)].recordIds)
    ensures Contains(t.receipts[(id, j)].remoteIds, t.receipts[(id, i)].remoteIds)
    decreases j
  {
    if i < j {
      assert RowOk(t.receipts, t.intakes.Keys, (id, j));
      HistoryGrows(t, id, i, j - 1);
    }
  }

  ghost predicate LegalHistory(receipts: ReceiptTable, id: string, n: nat) {
    && n >= 1
    && (forall m: nat :: (id, m) in receipts <==> 1 <= m <= n)
    && receipts[(id, 1)].state == Observed
    && (forall m: nat {:trigger receipts[(id, m)]} | 1 < m <= n :: Follows(receipts[(id, m - 1)], receipts[(id, m)]))
  }

  lemma HistoryIsLegal(t: Tables, id: string, n: nat)
    requires HistoriesOf(t) && IsLatest(t.receipts, id, n)
    ensures LegalHistory(t.receipts, id, n)
  {
    assert RowOk(t.receipts, t.intakes.Keys, (id, n));
    forall m: nat ensures (id, m) in t.receipts <==> 1 <= m <= n {
      if 1 <= m <= n { Contiguous(t, id, n, m); }
      assert (id, m) in t.receipts ==> RowOk(t.receipts, t.intakes.Keys, (id, m));
    }
    forall m: nat | 1 < m <= n ensures Follows(t.receipts[(id, m - 1)], t.receipts[(id, m)]) {
      assert RowOk(t.receipts, t.intakes.Keys, (id, m));
    }
    assert RowOk(t.receipts, t.intakes.Keys, (id, 1));
  }

  /** Over every run from the empty ledger each intake has revisions 1..n without gap
      or fork, starting at Observed and moving only along the transition graph. */
  lemma EveryRunKeepsLegalHistories(limits: Limits, ops: seq<Op>, id: string)
    requires FreshRun(EMPTY_TABLES, limits, ops) && id in Run(EMPTY_TABLES, limits, ops).intakes
    ensures exists n :: LegalHistory(Run(EMPTY_TABLES, limits, ops).receipts, id, n)
  {
    EmptyInv();
    RunKeepsInv(EMPTY_TABLES, limits, ops);
    var t := Run(EMPTY_TABLES, limits, ops);
    assert HasLatest(t.receipts, id);
    var n: nat :| IsLatest(t.receipts, id, n);
    HistoryIsLegal(t, id, n);
  }

  // ----------------------------------------------------------- append-only

  ghost predicate Extends<K, V>(big: map<K, V>, small: map<K, V>) {
    forall k {:trigger small[k]} | k in small :: k in big && big[k] == small[k]
  }

  /** Intakes, receipts, settlements and issued tokens are never dropped or rewritten. */
  ghost predicate Grows(t': Tables, t: Tables) {
    && Extends(t'.intakes, t.intakes) && Extends(t'.receipts, t.receipts)
    && Extends(t'.settlements, t.settlements) && t.issuedTokens <= t'.issuedTokens
  }

  lemma AddReceiptGrows(t: Tables, r: Receipt)
    requires (r.intake, r.revision) !in t.receipts
    ensures Grows(AddReceipt(t, r), t)
  {
  }

  lemma ClaimGrows(t: Tables, owner: string, now: int, leaseMs: int, token: string)
    ensures Grows(ClaimStep(t, owner, now, leaseMs, token).0, t)
  {
    var _, _, begun := ClaimEffect(t, owner, now, leaseMs, token);
    if begun.Some? && (begun.value.intake, begun.value.revision) !in t.receipts { AddReceiptGrows(t, begun.value); }
  }

  lemma ObservedGrows(t: Tables, id: string, o: Observation)
    requires id !in t.intakes && (id, 1) !in t.receipts
    ensures Grows(WithIntake(t, id, o), t)
  {
    AddReceiptGrows(t, FirstReceipt(id));
  }

  lemma ObserveGrows(t: Tables, limits: Limits, o: Observation, freshId: string)
    ensures Grows(ObserveStep(t, limits, o, freshId).0, t)
  {
    ObserveEffect(t, limits, o, freshId);
    if freshId !in t.intakes && (freshId, 1) !in t.receipts { ObservedGrows(t, freshId, o); }
  }

  lemma SettledGrows(t: Tables, lease: Lease, sid: string, u: Update, r: Receipt)
    requires sid !in t.settlements && (r.intake, r.revision) !in t.receipts
    ensures Grows(WithSettlement(t, lease, sid, u, r), t)
  {
    AddReceiptGrows(t, r);
  }

  lemma SettleGrows(t: Tables, lease: Lease, sid: string, u: Update, now: int)
    ensures Grows(SettleStep(t, lease, sid, u, now).0, t)
  {
    var r := SettleEffect(t, lease, sid, u, now);
    if sid !in t.settlements && (r.intake, r.revision) !in t.receipts { SettledGrows(t, lease, sid, u, r); }
  }

  lemma TransitionGrows(t: Tables, principal: string, workspace: string, id: string, u: Update)
    ensures Grows(TransitionStep(t, principal, workspace, id, u).0, t)
  {
    var r := TransitionEffect(t, principal, workspace, id, u);
    if (r.intake, r.revision) !in t.receipts { AddReceiptGrows(t, r); }
  }

  lemma DeferGrows(t: Tables, lease: Lease, retryAt: int, reason: string, now: int)
    ensures Grows(DeferStep(t, lease, retryAt, reason, now).0, t)
  {
    DeferEffect(t, lease, retryAt, reason, now);
  }

  lemma StepGrows(t: Tables, limits: Limits, op: Op)
    ensures Grows(Step(t, limits, op), t)
  {
    match op
    case Observe(o, freshId) => ObserveGrows(t, limits, o, freshId);
    case ClaimNext(owner, now, leaseMs, token) => ClaimGrows(t, owner, now, leaseMs, token);
    case Defer(lease, retryAt, reason, now) => DeferGrows(t, lease, retryAt, reason, now);
    case Settle(lease, sid, u, now) => SettleGrows(t, lease, sid, u, now);
    case Transition(p, w, id, u) => TransitionGrows(t, p, w, id, u);
  }

  lemma {:induction false} RunGrows(t: Tables, limits: Limits, ops: seq<Op>)
    ensures Grows(Run(t, limits, ops), t)
    decreases |ops|
  {
    if ops != [] {
      StepGrows(t, limits, ops[0]);
      RunGrows(Step(t, limits, ops[0]), limits, ops[1..]);
    }
  }

  // ------------------------------------------------- observation idempotence

  lemma ObserveStores(t: Tables, limits: Limits, o: Observation, freshId: string)
    requires Inv(t) && ObserveStep(t, limits, o, freshId).1.Ok?
    ensures var (t', r) := ObserveStep(t, limits, o, freshId);
      r.value.intake in t'.intakes && t'.intakes[r.value.intake].material == o.material
  {
  }

  lemma ObserveFindsPrior(t: Tables, limits: Limits, id: string, again: Observation, otherId: string)
    requires Inv(t) && id in t.intakes && ValidObservation(again)
    requires SameObservationKey(t.intakes[id].material, again.material)
    ensures ObserveStep(t, limits, again, otherId) ==
      (t, if again.material == t.intakes[id].material then Ok(ObserveReply(id, true)) else Err(IdempotencyConflict))
  {
    assert IsPrior(t, again.material, id);
    forall other | IsPrior(t, again.material, other) ensures other == id {
      assert SameObservationKey(t.intakes[other].material, t.intakes[id].material);
    }
  }

  /** Once an observation is accepted, observing again under the same principal,
      workspace and observation id changes nothing at any later time: the same content
      answers with the same intake, other content is refused. */
  lemma ObservationIsIdempotent(t: Tables, limits: Limits, o: Observation, freshId: string,
                                ops: seq<Op>, again: Observation, otherId: string)
    requires Inv(t) && ObserveStep(t, limits, o, freshId).1.Ok?
    requires FreshRun(ObserveStep(t, limits, o, freshId).0, limits, ops)
    requires ValidObservation(again) && SameObservationKey(o.material, again.material)
    ensures var later := Run(ObserveStep(t, limits, o, freshId).0, limits, ops);
            ObserveStep(later, limits, again, otherId) ==
            (later, if again.material == o.material
                    then Ok(ObserveReply(ObserveStep(t, limits, o, freshId).1.value.intake, true))
                    else Err(IdempotencyConflict))
  {
    var t1, id := ObserveStep(t, limits, o, freshId).0, ObserveStep(t, limits, o, freshId).1.value.intake;
    ObserveStores(t, limits, o, freshId);
    ObserveKeepsInv(t, limits, o, freshId);
    RunKeepsInv(t1, limits, ops);
    RunGrows(t1, limits, ops);
    ObserveFindsPrior(Run(t1, limits, ops), limits, id, again, otherId);
  }

  // ------------------------------------------------------------ settlements

  /** When a new settlement goes through: the presented lease is the live row and its
      intake has not been moved past the claimed revision. */
  lemma SettleSucceedsIff(t: Tables, lease: Lease, sid: string, u: Update, now: int)
    requires Inv(t) && ValidSettleArgs(lease, sid, u, now) && sid !in t.settlements
    ensures SettleStep(t, lease, sid, u, now).1.Ok? <==>
              && Authoritative(t, lease, now)
              && u.expectedRevision == lease.claimedRevision
              && IsLatest(t.receipts, lease.intake, lease.claimedRevision)
    ensures SettleStep(t, lease, sid, u, now).1.Err? ==> SettleStep(t, lease, sid, u, now).0 == t
  {
    if Authoritative(t, lease, now) {
      AuthorityPointsAtEvaluation(t, lease, now);
      if (lease.intake, 3) !in t.receipts {
        forall m: nat | m > 2 ensures (lease.intake, m) !in t.receipts {
          if (lease.intake, m) in t.receipts { Contiguous(t, lease.intake, m, 3); }
        }
      }
    }
  }

  /** Somewhere in the run a transition of the intake goes through. */
  ghost predicate MovedIn(t: Tables, limits: Limits, ops: seq<Op>, id: string)
    decreases |ops|
  {
    ops != []
    && (|| (ops[0].Transition? && ops[0].id == id
            && TransitionStep(t, ops[0].principal, ops[0].workspace, id, ops[0].update).1.Ok?)
        || MovedIn(Step(t, limits, ops[0]), limits, ops[1..], id))
  }

  /** A transition of an intake that is being evaluated takes it to revision 3 or beyond. */
  lemma TransitionRaises(t: Tables, principal: string, workspace: string, id: string, u: Update)
    requires Inv(t) && (id, 2) in t.receipts && TransitionStep(t, principal, workspace, id, u).1.Ok?
    ensures (id, 3) in TransitionStep(t, principal, workspace, id, u).0.receipts
  {
    var t' := TransitionStep(t, principal, workspace, id, u).0;
    assert HasLatest(t.receipts, id);
    var n: nat :| IsLatest(t.receipts, id, n);
    LatestIs(t, id, n);
    assert RowOk(t.receipts, t.intakes.Keys, (id, n));
    assert (id, n + 1) in t'.receipts;
    TransitionKeepsInv(t, principal, workspace, id, u);
    Contiguous(t', id, n + 1, 3);
  }

  lemma {:induction false} MovedRaises(t: Tables, limits: Limits, ops: seq<Op>, id: string)
    requires Inv(t) && FreshRun(t, limits, ops) && (id, 2) in t.receipts && MovedIn(t, limits, ops, id)
    ensures (id, 3) in Run(t, limits, ops).receipts
    decreases |ops|
  {
    var t' := Step(t, limits, ops[0]);
    StepKeepsInv(t, limits, ops[0]);
    StepGrows(t, limits, ops[0]);
    if MovedIn(t', limits, ops[1..], id) {
      MovedRaises(t', limits, ops[1..], id);
    } else {
      TransitionRaises(t, ops[0].principal, ops[0].workspace, id, ops[0].update);
      RunGrows(t', limits, ops[1..]);
    }
  }

  /** Once a transition has moved the intake of a lease, at any point of the run since the claim,
      every new settlement under that lease fails and changes nothing. */
  lemma MovedIntakeCannotSettle(t: Tables, limits: Limits, ops: seq<Op>, row: Lease, sid: string, u: Update, now: int)
    requires Inv(t) && row in t.leases && FreshRun(t, limits, ops) && MovedIn(t, limits, ops, row.intake)
    requires sid !in Run(t, limits, ops).settlements
    ensures var later := Run(t, limits, ops);
      SettleStep(later, row, sid, u, now).0 == later && SettleStep(later, row, sid, u, now).1.Err?
  {
    var later := Run(t, limits, ops);
    assert LeaseOk(t, row);
    MovedRaises(t, limits, ops, row.intake);
    RunKeepsInv(t, limits, ops);
    if ValidSettleArgs(row, sid, u, now) {
      SettleSucceedsIff(later, row, sid, u, now);
    }
  }

  /** The lease a claim hands out is such a row. */
  lemma ClaimStoresItsLease(t: Tables, owner: string, now: int, leaseMs: int, token: string)
    requires Inv(t) && token !in t.issuedTokens && ClaimStep(t, owner, now, leaseMs, token).1.Ok?
    requires ClaimStep(t, owner, now, leaseMs, token).1.value.Some?
    ensures var (t', r) := ClaimStep(t, owner, now, leaseMs, token);
      Inv(t') && r.value.value.lease in t'.leases
  {
    ClaimKeepsInv(t, owner, now, leaseMs, token);
  }

  lemma SettlementRecorded(t: Tables, lease: Lease, sid: string, u: Update, now: int)
    requires Inv(t) && SettleStep(t, lease, sid, u, now).1.Ok?
    ensures var (t', r) := SettleStep(t, lease, sid, u, now);
            sid in t'.settlements && t'.settlements[sid] == Settlement(lease.intake, (lease.intake, u), r.value)
  {
    if sid in t.settlements {
      assert SettlementOk(t.receipts, t.settlements[sid]);
    }
  }

  /** Replaying a settlement id with the same content answers with the stored receipt at
      any later time; reusing it with other content is refused. Neither changes a row. */
  lemma SettlementReplays(t: Tables, lease: Lease, sid: string, u: Update, now: int,
                          limits: Limits, ops: seq<Op>, lease': Lease, u': Update, now': int)
    requires Inv(t) && SettleStep(t, lease, sid, u, now).1.Ok?
    requires FreshRun(SettleStep(t, lease, sid, u, now).0, limits, ops)
    requires ValidSettleArgs(lease', sid, u', now')
    ensures var later := Run(SettleStep(t, lease, sid, u, now).0, limits, ops);
            SettleStep(later, lease', sid, u', now') ==
            (later, if lease'.intake == lease.intake && u' == u
                    then SettleStep(t, lease, sid, u, now).1 else Err(SettlementConflict))
  {
    SettlementRecorded(t, lease, sid, u, now);
    RunGrows(SettleStep(t, lease, sid, u, now).0, limits, ops);
  }

  lemma SettlementStands(t: Tables, lease: Lease, sid: string, u: Update, now: int, limits: Limits, ops: seq<Op>)
    requires Inv(t) && SettleStep(t, lease, sid, u, now).1.Ok?
    requires FreshRun(SettleStep(t, lease, sid, u, now).0, limits, ops)
    ensures var later := Run(SettleStep(t, lease, sid, u, now).0, limits, ops);
      Inv(later) && sid in later.settlements && later.settlements[sid].hashed == (lease.intake, u)
  {
    var t1 := SettleStep(t, lease, sid, u, now).0;
    SettlementRecorded(t, lease, sid, u, now);
    SettleKeepsInv(t, lease, sid, u, now);
    RunGrows(t1, limits, ops);
    RunKeepsInv(t1, limits, ops);
  }

  lemma SettlesOnce(t: Tables, sid: string, lease: Lease, sid': string, u: Update, now: int)
    requires Inv(t) && sid in t.settlements && t.settlements[sid].hashed.0 == lease.intake
    requires SettleStep(t, lease, sid', u, now).1.Ok?
    ensures sid' == sid && t.settlements[sid].hashed == (lease.intake, u)
  {
    assert SettlementOk(t.receipts, t.settlements[sid]);
    SettlementRecorded(t, lease, sid', u, now);
    SettleKeepsInv(t, lease, sid', u, now);
    SettleGrows(t, lease, sid', u, now);
    assert DistinctSettlements(SettleStep(t, lease, sid', u, now).0.settlements);
  }

  /** At most one settlement per intake succeeds in any run: a second success is a replay. */
  lemma SettledAtMostOnce(t: Tables, lease: Lease, sid: string, u: Update, now: int,
                          limits: Limits, ops: seq<Op>, lease': Lease, sid': string, u': Update, now': int)
    requires Inv(t) && SettleStep(t, lease, sid, u, now).1.Ok?
    requires FreshRun(SettleStep(t, lease, sid, u, now).0, limits, ops)
    requires lease'.intake == lease.intake
    requires SettleStep(Run(SettleStep(t, lease, sid, u, now).0, limits, ops), lease', sid', u', now').1.Ok?
    ensures sid' == sid && u' == u
  {
    SettlementStands(t, lease, sid, u, now, limits, ops);
    SettlesOnce(Run(SettleStep(t, lease, sid, u, now).0, limits, ops), sid, lease', sid', u', now');
  }

  // ---------------------------------------------------------- lease fencing

  /** At any time at most one worker holds a live lease on an intake. */
  lemma OneHolder(t: Tables, a: Lease, b: Lease, now: int, now': int)
    requires Inv(t) && Authoritative(t, a, now) && Authoritative(t, b, now') && a.intake == b.intake
    ensures a.token == b.token && a.owner == b.owner
  {
  }

  /** The only row a token can name, if any, is `row`. */
  ghost predicate NamesOnly(leases: set<Lease>, token: string, row: Lease) {
    forall l | l in leases && l.token == token :: l == row
  }

  ghost predicate NamesNone(leases: set<Lease>, token: string) {
    forall l | l in leases :: l.token != token
  }

  lemma ClaimNamesNothingOld(t: Tables, owner: string, now: int, leaseMs: int, token: string, used: string, row: Lease)
    requires used in t.issuedTokens && token !in t.issuedTokens
    ensures NamesOnly(t.leases, used, row) ==> NamesOnly(ClaimStep(t, owner, now, leaseMs, token).0.leases, used, row)
    ensures NamesNone(t.leases, used) ==> NamesNone(ClaimStep(t, owner, now, leaseMs, token).0.leases, used)
  {
    var id, lease, begun := ClaimEffect(t, owner, now, leaseMs, token);
  }

  lemma StepNamesNothingOld(t: Tables, limits: Limits, op: Op, used: string, row: Lease)
    requires used in t.issuedTokens && FreshOp(t, op)
    ensures NamesOnly(t.leases, used, row) ==> NamesOnly(Step(t, limits, op).leases, used, row)
    ensures NamesNone(t.leases, used) ==> NamesNone(Step(t, limits, op).leases, used)
  {
    if op.ClaimNext? {
      ClaimNamesNothingOld(t, op.owner, op.now, op.leaseMs, op.freshToken, used, row);
    } else {
      assert Step(t, limits, op).leases <= t.leases;
    }
  }

  /** A token once dropped never comes back, and never comes to name another row. */
  lemma {:induction false} RunNamesNothingOld(t: Tables, limits: Limits, ops: seq<Op>, used: string, row: Lease)
    requires used in t.issuedTokens && FreshRun(t, limits, ops)
    ensures NamesOnly(t.leases, used, row) ==> NamesOnly(Run(t, limits, ops).leases, used, row)
    ensures NamesNone(t.leases, used) ==> NamesNone(Run(t, limits, ops).leases, used)
    decreases |ops|
  {
    if ops != [] {
      StepNamesNothingOld(t, limits, ops[0], used, row);
      StepGrows(t, limits, ops[0]);
      RunNamesNothingOld(Step(t, limits, ops[0]), limits, ops[1..], used, row);
    }
  }

  /** What a worker without authority can do: nothing. */
  ghost predicate Fenced(t: Tables, lease: Lease, now: int) {
    && (forall retryAt, reason ::
          DeferStep(t, lease, retryAt, reason, now).0 == t && DeferStep(t, lease, retryAt, reason, now).1.Err?)
    && (forall sid, u | sid !in t.settlements ::
          SettleStep(t, lease, sid, u, now).0 == t && SettleStep(t, lease, sid, u, now).1.Err?)
  }

  lemma NoAuthorityMeansFenced(t: Tables, lease: Lease, now: int)
    requires !Authoritative(t, lease, now)
    ensures Fenced(t, lease, now)
  {
  }

  /** Once its lease has expired, a worker's calls fail without effect from then on,
      whatever other callers did in between. */
  lemma ExpiredLeaseIsFenced(t: Tables, limits: Limits, row: Lease, ops: seq<Op>, now: int)
    requires Inv(t) && row in t.leases && FreshRun(t, limits, ops) && row.expiresAtMs <= now
    ensures Fenced(Run(t, limits, ops), row, now)
  {
    assert LeaseOk(t, row);
    RunNamesNothingOld(t, limits, ops, row.token, row);
    NoAuthorityMeansFenced(Run(t, limits, ops), row, now);
  }

  lemma ClaimedReplaces(t: Tables, lease: Lease, begun: Option<Receipt>, now: int, row: Lease)
    requires Inv(t) && row in t.leases && row.intake == lease.intake && lease.token != row.token
    requires forall l | l in t.leases && l.intake == lease.intake :: l.expiresAtMs <= now
    ensures NamesNone(WithClaim(t, lease, begun, now).leases, row.token)
  {
  }

  /** A claim leaves no earlier lease on the claimed intake. */
  lemma ClaimReplaces(t: Tables, owner: string, now: int, leaseMs: int, token: string, row: Lease)
    requires Inv(t) && row in t.leases && token !in t.issuedTokens
    requires var r := ClaimStep(t, owner, now, leaseMs, token).1;
             r.Ok? && r.value.Some? && r.value.value.lease.intake == row.intake
    ensures NamesNone(ClaimStep(t, owner, now, leaseMs, token).0.leases, row.token)
  {
    assert LeaseOk(t, row);
    var id, lease, begun := ClaimEffect(t, owner, now, leaseMs, token);
    var n := CandidateReceipt(t, id, now);
    ClaimedReplaces(t, lease, begun, now, row);
  }

  /** Once another claim has taken its intake, a worker is fenced for good, at every time. */
  lemma ReplacedLeaseIsFenced(t: Tables, limits: Limits, row: Lease,
                              owner: string, at: int, leaseMs: int, token: string, ops: seq<Op>, now: int)
    requires Inv(t) && row in t.leases && token !in t.issuedTokens
    requires var r := ClaimStep(t, owner, at, leaseMs, token).1;
             r.Ok? && r.value.Some? && r.value.value.lease.intake == row.intake
    requires FreshRun(ClaimStep(t, owner, at, leaseMs, token).0, limits, ops)
    ensures Fenced(Run(ClaimStep(t, owner, at, leaseMs, token).0, limits, ops), row, now)
  {
    var t1 := ClaimStep(t, owner, at, leaseMs, token).0;
    assert LeaseOk(t, row);
    ClaimReplaces(t, owner, at, leaseMs, token, row);
    ClaimGrows(t, owner, at, leaseMs, token);
    RunNamesNothingOld(t1, limits, ops, row.token, row);
    NoAuthorityMeansFenced(Run(t1, limits, ops), row, now);
  }

  /** A call that could end this lease: its holder's own, or a claim made after expiry. */
  predicate MayEnd(op: Op, row: Lease) {
    match op
    case Observe(_, _) => false
    case ClaimNext(_, now, _, _) => row.expiresAtMs <= now
    case Defer(l, _, _, _) => l.token == row.token
    case Settle(l, _, _, _) => l.token == row.token
    case Transition(_, _, _, _) => false
  }

  lemma StepKeepsLease(t: Tables, limits: Limits, op: Op, row: Lease)
    requires row in t.leases && !MayEnd(op, row)
    ensures row in Step(t, limits, op).leases
  {
    match op
    case Observe(o, freshId) => ObserveEffect(t, limits, o, freshId);
    case ClaimNext(owner, now, leaseMs, token) => var id, lease, begun := ClaimEffect(t, owner, now, leaseMs, token);
    case Defer(lease, retryAt, reason, now) => DeferEffect(t, lease, retryAt, reason, now);
    case Settle(lease, sid, u, now) => var r := SettleEffect(t, lease, sid, u, now);
    case Transition(p, w, id, u) => var r := TransitionEffect(t, p, w, id, u);
  }

  /** While its lease is unexpired nobody else can end it: not another claim, not another
      worker's defer or settle, not a transition. */
  lemma {:induction false} UnexpiredLeaseIsKept(t: Tables, limits: Limits, ops: seq<Op>, row: Lease)
    requires row in t.leases && forall op | op in ops :: !MayEnd(op, row)
    ensures row in Run(t, limits, ops).leases
    decreases |ops|
  {
    if ops != [] {
      StepKeepsLease(t, limits, ops[0], row);
      UnexpiredLeaseIsKept(Step(t, limits, ops[0]), limits, ops[1..], row);
    }
  }

  // ------------------------------------------------- what a claim is good for

  /** What a successful claim leaves behind: the stored Evaluating receipt, one lease on it
      for its owner, live until its expiry, and no deferral. */
  lemma ClaimGrantsAuthority(t: Tables, id: string, owner: string, now: int, leaseMs: int, token: string)
    requires Inv(t) && Eligible(t, id, now) && token !in t.issuedTokens && leaseMs > 0
    ensures var (t', r) := ClaimRow(t, t.intakes[id], Latest(t.receipts, id).value, owner, now, leaseMs, token);
            && r.Ok? && r.value.Some?
            && var Claim(lease, o, lifecycle) := r.value.value;
            && o == t.intakes[id] && lifecycle.state.Evaluating?
            && IsLatest(t'.receipts, id, 2) && t'.receipts[(id, 2)] == lifecycle
            && lease.owner == owner && lease.intake == id && id !in t'.deferrals
            && (forall at :: Authoritative(t', lease, at) <==> at < now + leaseMs)
  {
    ClaimRowSucceeds(t, id, owner, now, leaseMs, token);
    var n := CandidateReceipt(t, id, now);
    var (t', r) := ClaimRow(t, t.intakes[id], Latest(t.receipts, id).value, owner, now, leaseMs, token);
    ClaimRowKeepsInv(t, id, owner, now, leaseMs, token);
    assert r.value.value.lease in t'.leases;
    if n == 1 {
      assert Follows(t.receipts[(id, 1)], Promote(t.receipts[(id, 1)]));
      AppendKeepsHistories(t, 1, Promote(t.receipts[(id, 1)]));
    }
  }

  predicate Moves(op: Op, id: string) {
    op.Transition? && op.id == id
  }

  lemma ClaimKeepsUnsettled(t: Tables, owner: string, now: int, leaseMs: int, token: string, id: string)
    requires Inv(t) && token !in t.issuedTokens && (id, 3) !in t.receipts
    ensures (id, 3) !in ClaimStep(t, owner, now, leaseMs, token).0.receipts
  {
    var i, lease, begun := ClaimEffect(t, owner, now, leaseMs, token);
    if IsNext(t, i, now) { var n := CandidateReceipt(t, i, now); }
  }

  lemma StepKeepsUnsettled(t: Tables, limits: Limits, op: Op, row: Lease)
    requires Inv(t) && FreshOp(t, op) && row in t.leases && (row.intake, 3) !in t.receipts
    requires !MayEnd(op, row) && !Moves(op, row.intake)
    ensures (row.intake, 3) !in Step(t, limits, op).receipts
  {
    match op
    case Observe(o, freshId) => ObserveEffect(t, limits, o, freshId);
    case ClaimNext(owner, now, leaseMs, token) => ClaimKeepsUnsettled(t, owner, now, leaseMs, token, row.intake);
    case Defer(lease, retryAt, reason, now) => DeferEffect(t, lease, retryAt, reason, now);
    case Settle(lease, sid, u, now) =>
      var r := SettleEffect(t, lease, sid, u, now);
      if Authoritative(t, lease, now) { AuthorityPointsAtEvaluation(t, lease, now); }
    case Transition(p, w, id, u) => var r := TransitionEffect(t, p, w, id, u);
  }

  lemma {:induction false} RunKeepsUnsettled(t: Tables, limits: Limits, ops: seq<Op>, row: Lease)
    requires Inv(t) && FreshRun(t, limits, ops) && row in t.leases && (row.intake, 3) !in t.receipts
    requires forall op | op in ops :: !MayEnd(op, row) && !Moves(op, row.intake)
    ensures (row.intake, 3) !in Run(t, limits, ops).receipts
    decreases |ops|
  {
    if ops != [] {
      StepKeepsInv(t, limits, ops[0]);
      StepKeepsLease(t, limits, ops[0], row);
      StepKeepsUnsettled(t, limits, ops[0], row);
      RunKeepsUnsettled(Step(t, limits, ops[0]), limits, ops[1..], row);
    }
  }

  /** The holder of an unexpired lease can settle, whatever the other workers did since,
      unless its intake was moved by a transition. */
  lemma HolderCanSettle(t: Tables, limits: Limits, ops: seq<Op>, row: Lease, sid: string, u: Update, now: int)
    requires Inv(t) && FreshRun(t, limits, ops) && row in t.leases && (row.intake, 3) !in t.receipts
    requires forall op | op in ops :: !MayEnd(op, row) && !Moves(op, row.intake)
    requires ValidSettleArgs(row, sid, u, now) && now < row.expiresAtMs && u.expectedRevision == 2
    requires sid !in Run(t, limits, ops).settlements
    ensures SettleStep(Run(t, limits, ops), row, sid, u, now).1.Ok?
  {
    var later := Run(t, limits, ops);
    RunKeepsInv(t, limits, ops);
    UnexpiredLeaseIsKept(t, limits, ops, row);
    RunKeepsUnsettled(t, limits, ops, row);
    assert LeaseOk(later, row);
    assert Authorizes(row, row, now);
    forall m: nat | m > 2 ensures (row.intake, m) !in later.receipts {
      if (row.intake, m) in later.receipts { Contiguous(later, row.intake, m, 3); }
    }
    SettleSucceedsIff(later, row, sid, u, now);
  }
}
