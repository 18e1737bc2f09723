/** Child-agent memory and its reviewed promotion (crates/mnemosyne/src/agent_scope.rs,
    crates/mnemosyne/src/promotion.rs). */
module Vault {
  import opened Text
  import Order

  const MAX_CONTENT_BYTES := 256 * 1024
  const MAX_SOURCE_EVENTS := 256
  const MAX_TAGS := 128
  const MAX_SCOPE_BYTES := 512

  datatype Kind =
    | Message | ToolOutcome | GoalOutcome | Reflection | Episodic
    | SemanticFact | Procedure | CoreState | ArchitectureDecision | ExternalFact

  datatype Authority =
    ApprovedCore | VerifiedLocalSemantic | LocalEpisode | AletheonExternal | ExternalReference | RawExperience

  datatype Scope =
    | Global | Principal(id: string) | Workspace(id: string) | Session(id: string)
    | Goal(id: string) | Agent(id: string) | Task(id: string)

  datatype Context = Context(
    process: string, agent: string, task: string, agentScope: Scope, taskScope: Scope, receipt: string)

  datatype Draft = Draft(kind: Kind, content: string, authority: Authority, events: seq<string>, tags: seq<string>)

  datatype Request = Request(
    source: RecordId, child: Context, rootContent: string, broadcast: nat, selected: string,
    selectionReceipt: string, reviewer: string, reviewReceipt: string, target: Scope)

  /** Record ids are opaque texts, made by hashing what they name. */
  type RecordId = string

  datatype Hashes = Hashes(child: (string, string, string, Draft) -> RecordId, promoted: Request -> RecordId)

  /** Different things get different ids; nothing else is known of them. */
  ghost predicate Injective(h: Hashes) {
    && (forall p, a, t, d, p', a', t', d' {:trigger h.child(p, a, t, d), h.child(p', a', t', d')} ::
          h.child(p, a, t, d) == h.child(p', a', t', d') ==> p == p' && a == a' && t == t' && d == d')
    && (forall q, r {:trigger h.promoted(q), h.promoted(r)} :: h.promoted(q) == h.promoted(r) ==> q == r)
    && (forall p, a, t, d, q {:trigger h.child(p, a, t, d), h.promoted(q)} :: h.child(p, a, t, d) != h.promoted(q))
  }

  datatype Provenance =
    Child(process: string, agent: string) | Promotion(request: Request, reviewer: string, commit: RecordId)

  datatype Record = Record(
    id: RecordId, kind: Kind, scope: Scope, content: string, provenance: Provenance,
    observedAt: int, authority: Authority, body: Lists)

  datatype Lists = Lists(events: seq<string>, tags: seq<string>)

  datatype Bound = Bound(agent: string, task: string, receipt: string)

  datatype Stored = Stored(process: string, agent: string, task: string, record: Record)

  /** `log` lists the record ids in the order of their rows; no call reads it. */
  datatype Vault = Vault(
    bindings: map<string, Bound>, records: map<RecordId, Stored>, promotions: map<Request, RecordId>, log: seq<RecordId>)

  function AddRecord(v: Vault, s: Stored): Vault {
    v.(records := v.records[s.record.id := s], log := v.log + [s.record.id])
  }

  datatype Error =
    | InvalidContext | BindingMismatch | CoreForbidden | InvalidRecord
    | MissingReceipt | ForbiddenScope | SourceMismatch | Conflict | Storage

  // ------------------------------------------------------------- validation

  predicate ValidContext(c: Context) {
    c.agentScope == Agent(c.agent) && c.taskScope == Task(c.task) && !Blank(c.receipt)
  }

  predicate ValidScope(s: Scope) {
    s.Global? || (!Blank(s.id) && ByteLen(s.id) <= MAX_SCOPE_BYTES)
  }

  predicate NoneBlank(values: seq<string>) {
    forall i | 0 <= i < |values| :: !Blank(values[i])
  }

  predicate ValidRecord(r: Record) {
    && !Blank(r.content) && ByteLen(r.content) <= MAX_CONTENT_BYTES
    && |r.body.events| <= MAX_SOURCE_EVENTS && |r.body.tags| <= MAX_TAGS
    && NoneBlank(r.body.events) && NoneBlank(r.body.tags)
    && ValidScope(r.scope)
  }

  predicate BindingHolds(v: Vault, c: Context) {
    && ValidContext(c)
    && c.process in v.bindings && v.bindings[c.process] == Bound(c.agent, c.task, c.receipt)
  }

  // ------------------------------------------------------------- operations

  function RegisterStep(v: Vault, c: Context): (Vault, Result<(), Error>) {
    if !ValidContext(c) then (v, Err(InvalidContext))
    else if c.process !in v.bindings then
      (v.(bindings := v.bindings[c.process := Bound(c.agent, c.task, c.receipt)]), Ok(()))
    else if !BindingHolds(v, c) then (v, Err(BindingMismatch))
    else (v, Ok(()))
  }

  function ChildRecord(h: Hashes, c: Context, d: Draft, now: int): Record {
    var tags := d.tags + ["process:" + c.process, "agent:" + c.agent, "task:" + c.task];
    Record(h.child(c.process, c.agent, c.task, d), d.kind, c.taskScope, d.content,
           Child(c.process, c.agent), now, d.authority, Lists(d.events, Order.Normalize(tags)))
  }

  function RecordChildStep(h: Hashes, v: Vault, c: Context, d: Draft, now: int): (Vault, Result<Record, Error>) {
    if !ValidContext(c) then (v, Err(InvalidContext))
    else if !BindingHolds(v, c) then (v, Err(BindingMismatch))
    else if d.authority == ApprovedCore then (v, Err(CoreForbidden))
    else
      var record := ChildRecord(h, c, d, now);
      if !ValidRecord(record) then (v, Err(InvalidRecord))
      else if record.id in v.records then (v, Ok(record))
      else (AddRecord(v, Stored(c.process, c.agent, c.task, record)), Ok(record))
  }

  function Decimal(n: nat): string {
    var digit := [('0' as int + n % 10) as char];
    if n < 10 then digit else Decimal(n / 10) + digit
  }

  function PromotionEvents(q: Request): seq<string> {
    [ "child-process:" + q.child.process, "child-agent:" + q.child.agent, "child-task:" + q.child.task,
      "root-content:" + q.rootContent, "root-broadcast:" + Decimal(q.broadcast),
      "selected-candidate:" + q.selected, "selection-receipt:" + q.selectionReceipt,
      "review-receipt:" + q.reviewReceipt ]
  }

  function Promoted(h: Hashes, q: Request, source: Record): Record {
    source.(
      id := h.promoted(q),
      scope := q.target,
      provenance := Promotion(q, q.reviewer, source.id),
      body := Lists(Order.Normalize(source.body.events + PromotionEvents(q)), source.body.tags))
  }

  predicate Reviewed(q: Request) {
    && ValidContext(q.child) && q.broadcast > 0 && !Blank(q.selectionReceipt)
    && !Blank(q.reviewer) && !Blank(q.reviewReceipt)
    && (q.target.Session? || q.target.Global?) && ValidScope(q.target)
  }

  /** The source row is stored under the request's own process, agent and task. */
  predicate SourceHeld(v: Vault, q: Request) {
    && q.source in v.records
    && v.records[q.source].process == q.child.process
    && v.records[q.source].agent == q.child.agent
    && v.records[q.source].task == q.child.task
  }

  /** `UNIQUE(source_record, target_scope)`. */
  predicate Taken(v: Vault, source: RecordId, target: Scope) {
    exists q :: q in v.promotions && q.source == source && q.target == target
  }

  function ReviewError(q: Request): Error {
    if !ValidContext(q.child) then InvalidContext
    else if q.broadcast == 0 || Blank(q.selectionReceipt) || Blank(q.reviewer) || Blank(q.reviewReceipt) then MissingReceipt
    else ForbiddenScope
  }

  function PromoteStep(h: Hashes, v: Vault, q: Request): (Vault, Result<RecordId, Error>) {
    if !Reviewed(q) then (v, Err(ReviewError(q)))
    else if q in v.promotions then (v, Ok(v.promotions[q]))
    else if !SourceHeld(v, q) then (v, Err(SourceMismatch))
    else
      var source := v.records[q.source].record;
      var promoted := Promoted(h, q, source);
      if source.authority == ApprovedCore then (v, Err(CoreForbidden))
      else if !ValidRecord(promoted) then (v, Err(InvalidRecord))
      else if Taken(v, q.source, q.target) then (v, Err(Conflict))
      else if promoted.id in v.records then (v, Err(Storage))
      else
        var row := Stored(q.child.process, q.child.agent, q.child.task, promoted);
        (AddRecord(v, row).(promotions := v.promotions[q := promoted.id]), Ok(promoted.id))
  }

  /** The rows `recall` selects. */
  predicate Selects(c: Context, s: Stored) {
    s.process == c.process && s.agent == c.agent && s.task == c.task
  }

  // -------------------------------------------------------------------- runs

  datatype Op =
    | OpRegister(context: Context)
    | OpRecord(context: Context, draft: Draft, now: int)
    | OpPromote(request: Request)

  function Step(h: Hashes, v: Vault, op: Op): Vault {
    match op
    case OpRegister(c) => RegisterStep(v, c).0
    case OpRecord(c, d, now) => RecordChildStep(h, v, c, d, now).0
    case OpPromote(q) => PromoteStep(h, v, q).0
  }

  function Run(h: Hashes, v: Vault, ops: seq<Op>): Vault
    decreases |ops|
  {
    if ops == [] then v else Run(h, Step(h, v, ops[0]), ops[1..])
  }

  const EMPTY := Vault(map[], map[], map[], [])
}
