/** The memory intake ledger: tables, keys and the atomic steps of its transactions
    (crates/mnemosyne/src/intake.rs). Every step returns the tables after the call
    and the caller's reply; an error leaves the tables as they were. A SHA-256
    request hash is modelled by the material it digests. */
module Intake {
  import opened Text
  import Order

  const MAX_MEMORY_ID_BYTES := 256
  const MAX_MEMORY_CONTENT_BYTES := 256 * 1024
  const MAX_MEMORY_SOURCE_REFS := 64
  const MAX_MEMORY_SOURCE_REF_BYTES := 512
  const MAX_LIFECYCLE_LIST := 256
  const MIN_LEASE_MS := 1_000
  const MAX_LEASE_MS := 300_000

  // ---------------------------------------------------------------- values

  datatype LifecycleState =
    | Observed | Evaluating | Rejected | PromotedLocal | ProjectionQueued
    | ProjectedRemote | ProjectionFailed | Superseded | Tombstoned

  datatype ObservationKind =
    | UserMessage | AssistantMessage | ToolOutcome | TaskOutcome | ExplicitNote | Correction | Feedback

  datatype Sensitivity = Public | Internal | Confidential | Restricted

  /** Everything `observation_hash` digests: an observation without its arrival time. */
  datatype Material = Material(
    observationId: string, clientSessionId: string, clientTurnId: Option<string>,
    kind: ObservationKind, content: string, contentFingerprint: string,
    scrubPolicyVersion: nat, scrubRedactions: nat, occurredAt: Option<string>,
    sourceRefs: seq<string>, sensitivity: Sensitivity, explicitUserAction: bool,
    principalId: string, workspaceKey: string, connectionKind: string)

  datatype Observation = Observation(material: Material, observedAtMs: int)

  datatype Receipt = Receipt(
    intake: string, revision: nat, state: LifecycleState,
    recordIds: seq<string>, remoteIds: seq<string>,
    scorecard: Option<string>, reasonCodes: seq<string>, terminalAt: Option<string>)

  datatype Update = Update(
    expectedRevision: nat, state: LifecycleState,
    recordIds: seq<string>, remoteIds: seq<string>,
    scorecard: Option<string>, reasonCodes: seq<string>, terminalAt: Option<string>,
    createdAtMs: int)

  /** The only maintenance phase is intake evaluation, so the phase column is dropped. */
  datatype Lease = Lease(
    scopeKey: string, watermark: string, intake: string, token: string,
    owner: string, claimedRevision: nat, expiresAtMs: int)

  datatype Claim = Claim(lease: Lease, observation: Observation, lifecycle: Receipt)

  datatype ObserveReply = ObserveReply(intake: string, duplicate: bool)

  datatype IntakeError =
    | Validation | IdempotencyConflict | NotFound | RevisionConflict | Capacity
    | LeaseUnavailable | SettlementConflict
    | InvalidTransition(from: LifecycleState, to: LifecycleState) | Storage

  // ---------------------------------------------------------------- tables

  datatype Deferral = Deferral(retryNotBeforeMs: int, reasonCode: string)

  /** `hashed` is what `settlement_hash` digests. */
  datatype Settlement = Settlement(intake: string, hashed: (string, Update), receipt: Receipt)

  /** PRIMARY KEY (intake, revision). */
  type ReceiptTable = map<(string, nat), Receipt>

  /** `issuedTokens` is not a table: it
      records the lease tokens the UUID generator has handed out so far. */
  datatype Tables = Tables(
    intakes: map<string, Observation>,
    receipts: ReceiptTable,
    leases: set<Lease>,
    deferrals: map<string, Deferral>,
    settlements: map<string, Settlement>,
    issuedTokens: set<string>)

  const EMPTY_TABLES := Tables(map[], map[], {}, map[], map[], {})

  /** `payloadSize` stands for the length of the serialized observation. */
  datatype Limits = Limits(maxRows: nat, maxPayloadBytes: nat, payloadSize: Observation -> nat)

  // ------------------------------------------------------------ validation

  /** `WorkspaceMemoryKey::from_verified`. */
  predicate ValidWorkspaceKey(s: string) {
    && ("ws:repo:" <= s || "ws:local:" <= s)
    && 8 < ByteLen(s) <= 528
  }

  /** `validate_authority_key`. */
  predicate ValidKey(s: string) {
    !Blank(s) && ByteLen(s) <= MAX_MEMORY_ID_BYTES
  }

  predicate HexDigits(s: string) {
    forall i | 0 <= i < |s| :: '0' <= s[i] <= '9' || 'a' <= s[i] <= 'f' || 'A' <= s[i] <= 'F'
  }

  /** `GovernedMemoryObservation::validate`; the first conjunct is what the type of the
      workspace key already promises. */
  predicate ValidObservation(o: Observation) {
    var m := o.material;
    && ValidWorkspaceKey(m.workspaceKey)
    && ValidKey(m.observationId) && ValidKey(m.clientSessionId)
    && ValidKey(m.principalId) && ValidKey(m.connectionKind)
    && (m.clientTurnId.Some? ==> ValidKey(m.clientTurnId.value))
    && !Blank(m.content) && ByteLen(m.content) <= MAX_MEMORY_CONTENT_BYTES
    && ByteLen(m.contentFingerprint) == 77 && "keyed-sha256:" <= m.contentFingerprint
    && HexDigits(m.contentFingerprint[13..])
    && m.scrubPolicyVersion != 0 && m.scrubRedactions <= MAX_MEMORY_CONTENT_BYTES
    && |m.sourceRefs| <= MAX_MEMORY_SOURCE_REFS
    && (forall r | r in m.sourceRefs :: !Blank(r) && ByteLen(r) <= MAX_MEMORY_SOURCE_REF_BYTES)
    && o.observedAtMs >= 0
  }

  predicate ValidIdList(ids: seq<string>) {
    |ids| <= MAX_LIFECYCLE_LIST && forall id | id in ids :: ValidKey(id)
  }

  predicate ValidUpdate(u: Update) {
    && u.expectedRevision != 0 && u.createdAtMs >= 0
    && ValidIdList(u.recordIds) && ValidIdList(u.remoteIds) && ValidIdList(u.reasonCodes)
  }

  predicate ValidLease(l: Lease) {
    && ValidWorkspaceKey(l.scopeKey) && ValidKey(l.watermark) && ValidKey(l.intake)
    && ValidKey(l.token) && ValidKey(l.owner)
    && l.claimedRevision != 0 && l.expiresAtMs >= 0
  }

  // ------------------------------------------------------------- lifecycle

  predicate AllowsTransition(from: LifecycleState, to: LifecycleState) {
    match from
    case Observed => to.Evaluating? || to.Rejected? || to.Tombstoned?
    case Evaluating => to.Rejected? || to.PromotedLocal? || to.Tombstoned?
    case Rejected => to.Tombstoned?
    case PromotedLocal => to.ProjectionQueued? || to.Superseded? || to.Tombstoned?
    case ProjectionQueued => to.ProjectedRemote? || to.ProjectionFailed? || to.Tombstoned?
    case ProjectedRemote => to.Superseded? || to.Tombstoned?
    case ProjectionFailed => to.ProjectionQueued? || to.Superseded? || to.Tombstoned?
    case Superseded => to.Tombstoned?
    case Tombstoned => false
  }

  /** `next_lifecycle_receipt`. */
  function NextReceipt(intake: string, current: Receipt, u: Update): Result<Receipt, IntakeError> {
    if current.revision != u.expectedRevision then Err(RevisionConflict)
    else if !AllowsTransition(current.state, u.state) then Err(InvalidTransition(current.state, u.state))
    else Ok(Receipt(
              intake, current.revision + 1, u.state,
              Order.Normalize(current.recordIds + u.recordIds),
              Order.Normalize(current.remoteIds + u.remoteIds),
              if u.scorecard.Some? then u.scorecard else current.scorecard,
              u.reasonCodes, u.terminalAt))
  }

  // --------------------------------------------------------------- queries

  /** `n` is the highest revision stored for the intake. */
  ghost predicate IsLatest(receipts: ReceiptTable, id: string, n: nat) {
    (id, n) in receipts && forall m: nat | m > n :: (id, m) !in receipts
  }

  /** `ORDER BY revision DESC LIMIT 1`. */
  ghost function Latest(receipts: ReceiptTable, id: string): (r: Option<Receipt>)
    ensures r.Some? ==> exists n :: IsLatest(receipts, id, n) && r.value == receipts[(id, n)]
  {
    if exists n :: IsLatest(receipts, id, n) then
      var n :| IsLatest(receipts, id, n);
      Some(receipts[(id, n)])
    else None
  }

  predicate SameObservationKey(a: Material, b: Material) {
    a.principalId == b.principalId && a.workspaceKey == b.workspaceKey && a.observationId == b.observationId
  }

  ghost predicate IsPrior(t: Tables, m: Material, id: string) {
    id in t.intakes && SameObservationKey(t.intakes[id].material, m)
  }

  predicate Pending(s: LifecycleState) {
    s.Observed? || s.Evaluating?
  }

  /** The WHERE clause of the claim query. */
  ghost predicate Eligible(t: Tables, id: string, now: int) {
    && id in t.intakes
    && Latest(t.receipts, id).Some? && Pending(Latest(t.receipts, id).value.state)
    && (forall l | l in t.leases && l.intake == id :: l.expiresAtMs <= now)
    && (id in t.deferrals ==> t.deferrals[id].retryNotBeforeMs <= now)
  }

  function Priority(o: Observation): nat {
    if o.material.kind.Feedback? then 0 else 1
  }

  /** The ORDER BY clause of the claim query: feedback first, then observed time, then id. */
  predicate Before(t: Tables, a: string, b: string)
    requires a in t.intakes && b in t.intakes
  {
    var x, y := t.intakes[a], t.intakes[b];
    || Priority(x) < Priority(y)
    || (Priority(x) == Priority(y) && x.observedAtMs < y.observedAtMs)
    || (Priority(x) == Priority(y) && x.observedAtMs == y.observedAtMs && Order.Less(a, b))
  }

  ghost predicate IsNext(t: Tables, id: string, now: int) {
    && Eligible(t, id, now)
    && forall other | Eligible(t, other, now) && other != id :: Before(t, id, other)
  }

  /** The join of `authoritative_lease_receipt`, without the receipt. */
  predicate Authorizes(row: Lease, presented: Lease, now: int) {
    row == presented.(expiresAtMs := row.expiresAtMs) && row.expiresAtMs > now
  }

  predicate Authoritative(t: Tables, lease: Lease, now: int) {
    && (exists row | row in t.leases :: Authorizes(row, lease, now))
    && (lease.intake, lease.claimedRevision) in t.receipts
  }

  /** PRIMARY KEY (phase, scope_key, watermark), UNIQUE intake, UNIQUE token. */
  predicate LeaseKeyClash(a: Lease, b: Lease) {
    || (a.scopeKey == b.scopeKey && a.watermark == b.watermark)
    || a.intake == b.intake
    || a.token == b.token
  }

  ghost function TotalPayload(rows: map<string, Observation>, size: Observation -> nat): nat
    decreases |rows|
  {
    if rows == map[] then 0
    else
      var k :| k in rows;
      size(rows[k]) + TotalPayload(rows - {k}, size)
  }

  ghost predicate AtCapacity(t: Tables, limits: Limits, o: Observation) {
    || |t.intakes| >= limits.maxRows
    || TotalPayload(t.intakes, limits.payloadSize) + limits.payloadSize(o) > limits.maxPayloadBytes
  }

  // ----------------------------------------------------------------- steps

  function AddReceipt(t: Tables, r: Receipt): Tables {
    t.(receipts := t.receipts[(r.intake, r.revision) := r])
  }

  function FirstReceipt(id: string): Receipt {
    Receipt(id, 1, Observed, [], [], None, [], None)
  }

  /** `observe`; `freshId` is the UUID-based id the call would mint. */
  ghost function ObserveStep(t: Tables, limits: Limits, o: Observation, freshId: string)
    : (Tables, Result<ObserveReply, IntakeError>)
  {
    if !ValidObservation(o) then (t, Err(Validation))
    else if exists id :: IsPrior(t, o.material, id) then
      var id :| IsPrior(t, o.material, id);
      if t.intakes[id].material != o.material then (t, Err(IdempotencyConflict))
      else (t, Ok(ObserveReply(id, true)))
    else if AtCapacity(t, limits, o) then (t, Err(Capacity))
    else if freshId in t.intakes || (freshId, 1) in t.receipts then (t, Err(Storage))
    else (AddReceipt(t, FirstReceipt(freshId)).(intakes := t.intakes[freshId := o]), Ok(ObserveReply(freshId, false)))
  }

  function Promote(current: Receipt): Receipt {
    if current.state.Observed? then
      current.(revision := current.revision + 1, state := Evaluating, reasonCodes := [], terminalAt := None)
    else current
  }

  function DropExpired(leases: set<Lease>, id: string, now: int): set<Lease> {
    set l | l in leases && !(l.intake == id && l.expiresAtMs <= now)
  }

  function GrantLease(t: Tables, lease: Lease, now: int): Tables {
    t.(leases := DropExpired(t.leases, lease.intake, now) + {lease},
       deferrals := t.deferrals - {lease.intake},
       issuedTokens := t.issuedTokens + {lease.token})
  }

  /** The transaction of `claim_next_maintenance` once a candidate row is chosen. */
  function ClaimRow(t: Tables, o: Observation, current: Receipt, owner: string, now: int, leaseMs: int, token: string)
    : (Tables, Result<Option<Claim>, IntakeError>)
  {
    var lifecycle := Promote(current);
    var id := lifecycle.intake;
    var lease := Lease(o.material.workspaceKey, id, id, token, owner, lifecycle.revision, now + leaseMs);
    if !ValidObservation(o) then (t, Err(Validation))
    else if current.state.Observed? && (id, lifecycle.revision) in t.receipts then (t, Err(Storage))
    else if exists l | l in DropExpired(t.leases, id, now) :: LeaseKeyClash(l, lease) then (t, Err(Storage))
    else (GrantLease(if current.state.Observed? then AddReceipt(t, lifecycle) else t, lease, now),
          Ok(Some(Claim(lease, o, lifecycle))))
  }

  predicate ValidClaimArgs(owner: string, now: int, leaseMs: int) {
    ValidKey(owner) && now >= 0 && MIN_LEASE_MS <= leaseMs <= MAX_LEASE_MS
  }

  ghost function ClaimStep(t: Tables, owner: string, now: int, leaseMs: int, token: string)
    : (Tables, Result<Option<Claim>, IntakeError>)
  {
    if !ValidClaimArgs(owner, now, leaseMs) then (t, Err(Validation))
    else if exists id :: IsNext(t, id, now) then
      var id :| IsNext(t, id, now);
      ClaimRow(t, t.intakes[id], Latest(t.receipts, id).value, owner, now, leaseMs, token)
    else (t, Ok(None))
  }

  predicate ValidDeferArgs(lease: Lease, retryAt: int, reason: string, now: int) {
    ValidLease(lease) && ValidKey(reason) && 0 <= now < retryAt
  }

  function DropToken(leases: set<Lease>, token: string): set<Lease> {
    set l | l in leases && l.token != token
  }

  function DeferStep(t: Tables, lease: Lease, retryAt: int, reason: string, now: int)
    : (Tables, Result<Receipt, IntakeError>)
  {
    if !ValidDeferArgs(lease, retryAt, reason, now) then (t, Err(Validation))
    else if !Authoritative(t, lease, now) then (t, Err(LeaseUnavailable))
    else (t.(deferrals := t.deferrals[lease.intake := Deferral(retryAt, reason)],
             leases := DropToken(t.leases, lease.token)),
          Ok(t.receipts[(lease.intake, lease.claimedRevision)]))
  }

  predicate ValidSettleArgs(lease: Lease, settlementId: string, u: Update, now: int) {
    && ValidLease(lease) && ValidKey(settlementId) && ValidUpdate(u) && now >= 0
    && (u.state.Rejected? || u.state.PromotedLocal?)
  }

  function SettleStep(t: Tables, lease: Lease, settlementId: string, u: Update, now: int)
    : (Tables, Result<Receipt, IntakeError>)
  {
    if !ValidSettleArgs(lease, settlementId, u, now) then (t, Err(Validation))
    else if settlementId in t.settlements then
      var prior := t.settlements[settlementId];
      if prior.hashed != (lease.intake, u) then (t, Err(SettlementConflict)) else (t, Ok(prior.receipt))
    else if !Authoritative(t, lease, now) then (t, Err(LeaseUnavailable))
    else
      var current := t.receipts[(lease.intake, lease.claimedRevision)];
      if current.revision != u.expectedRevision then (t, Err(RevisionConflict))
      else match NextReceipt(lease.intake, current, u)
        case Err(e) => (t, Err(e))
        case Ok(receipt) =>
          if (lease.intake, receipt.revision) in t.receipts then (t, Err(Storage))
          else (AddReceipt(t, receipt).(
                   settlements := t.settlements[settlementId := Settlement(lease.intake, (lease.intake, u), receipt)],
                   leases := DropToken(t.leases, lease.token),
                   deferrals := t.deferrals - {lease.intake}),
                Ok(receipt))
  }

  /** The row a principal and workspace may see. */
  predicate Owns(t: Tables, principal: string, workspace: string, id: string) {
    && id in t.intakes
    && t.intakes[id].material.principalId == principal
    && t.intakes[id].material.workspaceKey == workspace
  }

  ghost function TransitionStep(t: Tables, principal: string, workspace: string, id: string, u: Update)
    : (Tables, Result<Receipt, IntakeError>)
  {
    if !ValidUpdate(u) then (t, Err(Validation))
    else if !Owns(t, principal, workspace, id) || Latest(t.receipts, id).None? then (t, Err(NotFound))
    else match NextReceipt(id, Latest(t.receipts, id).value, u)
      case Err(e) => (t, Err(e))
      case Ok(receipt) =>
        if (id, receipt.revision) in t.receipts then (t, Err(Storage))
        else (AddReceipt(t, receipt), Ok(receipt))
  }

  // ------------------------------------------------------------------ runs

  datatype Op =
    | Observe(observation: Observation, freshId: string)
    | ClaimNext(owner: string, now: int, leaseMs: int, freshToken: string)
    | Defer(lease: Lease, retryAt: int, reason: string, now: int)
    | Settle(lease: Lease, settlementId: string, update: Update, now: int)
    | Transition(principal: string, workspace: string, id: string, update: Update)

  ghost function Step(t: Tables, limits: Limits, op: Op): Tables {
    match op
    case Observe(o, freshId) => ObserveStep(t, limits, o, freshId).0
    case ClaimNext(owner, now, leaseMs, token) => ClaimStep(t, owner, now, leaseMs, token).0
    case Defer(lease, retryAt, reason, now) => DeferStep(t, lease, retryAt, reason, now).0
    case Settle(lease, sid, u, now) => SettleStep(t, lease, sid, u, now).0
    case Transition(p, w, id, u) => TransitionStep(t, p, w, id, u).0
  }

  /** What a UUID generator promises: a claim's token was never handed out before. */
  ghost predicate FreshOp(t: Tables, op: Op) {
    op.ClaimNext? ==> op.freshToken !in t.issuedTokens
  }

  ghost function Run(t: Tables, limits: Limits, ops: seq<Op>): Tables
    decreases |ops|
  {
    if ops == [] then t else Run(Step(t, limits, ops[0]), limits, ops[1..])
  }

  ghost predicate FreshRun(t: Tables, limits: Limits, ops: seq<Op>)
    decreases |ops|
  {
    ops == [] || (FreshOp(t, ops[0]) && FreshRun(Step(t, limits, ops[0]), limits, ops[1..]))
  }
}
