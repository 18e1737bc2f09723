/** Provenance, append-only storage and isolation over every run of the vault. */
module VaultRuns {
  import opened Text
  import opened Vault

  // -------------------------------------------------------------- invariant

  predicate HasBinding(bindings: map<string, Bound>, s: Stored) {
    s.process in bindings && bindings[s.process].agent == s.agent && bindings[s.process].task == s.task
  }

  predicate Subset(a: seq<string>, b: seq<string>) {
    forall x {:trigger x in b} | x in a :: x in b
  }

  /** The tags that name the child a record is from. */
  function Lineage(s: Stored): seq<string> {
    ["process:" + s.process, "agent:" + s.agent, "task:" + s.task]
  }

  /** The row is the child's own record of the draft, in the scope of its task. */
  predicate MadeFrom(h: Hashes, s: Stored, d: Draft) {
    && s.record.id == h.child(s.process, s.agent, s.task, d)
    && s.record.scope == Task(s.task) && s.record.provenance == Child(s.process, s.agent)
    && s.record.content == d.content && s.record.authority == d.authority && s.record.kind == d.kind
    && s.record.body.events == d.events && Subset(d.tags + Lineage(s), s.record.body.tags)
  }

  ghost predicate ChildOk(h: Hashes, s: Stored) {
    exists d :: MadeFrom(h, s, d)
  }

  /** The row is a promoted copy of `source`, for the same process, agent and task. */
  predicate CopyOf(h: Hashes, q: Request, s: Stored, source: Stored) {
    && s.record.id == h.promoted(q) && source.record.id == q.source
    && source.process == s.process && source.agent == s.agent && source.task == s.task
    && (q.target.Session? || q.target.Global?) && s.record.scope == q.target
    && s.record.provenance == Promotion(q, q.reviewer, q.source)
    && s.record.content == source.record.content && s.record.authority == source.record.authority
    && s.record.kind == source.record.kind && s.record.body.tags == source.record.body.tags
    && Subset(source.record.body.events + PromotionEvents(q), s.record.body.events)
  }

  ghost predicate RowOk(h: Hashes, v: Vault, id: RecordId)
    requires id in v.records
  {
    var s := v.records[id];
    && s.record.id == id && s.record.authority != ApprovedCore && HasBinding(v.bindings, s)
    && match s.record.provenance
       case Child(_, _) => ChildOk(h, s)
       case Promotion(q, _, _) => q in v.promotions && q.source in v.records && CopyOf(h, q, s, v.records[q.source])
  }

  predicate PromotionOk(h: Hashes, v: Vault, q: Request)
    requires q in v.promotions
  {
    v.promotions[q] == h.promoted(q) && h.promoted(q) in v.records
  }

  predicate OnePerTarget(promotions: map<Request, RecordId>) {
    forall q, r {:trigger promotions[q], promotions[r]} | q in promotions && r in promotions ::
      q.source == r.source && q.target == r.target ==> q == r
  }

  /** A promoted row stands after its source's row. */
  predicate InOrder(v: Vault, i: nat)
    requires i < |v.log|
  {
    && v.log[i] in v.records
    && (v.records[v.log[i]].record.provenance.Promotion? ==>
          v.records[v.log[i]].record.provenance.request.source in v.log[..i])
  }

  predicate LogOk(v: Vault) {
    && (forall id {:trigger id in v.records} | id in v.records :: id in v.log)
    && (forall i {:trigger InOrder(v, i)} | 0 <= i < |v.log| :: InOrder(v, i))
  }

  ghost predicate Rows(h: Hashes, v: Vault) {
    forall id {:trigger RowOk(h, v, id)} | id in v.records :: RowOk(h, v, id)
  }

  predicate Promotions(h: Hashes, v: Vault) {
    && OnePerTarget(v.promotions)
    && forall q {:trigger PromotionOk(h, v, q)} | q in v.promotions :: PromotionOk(h, v, q)
  }

  ghost predicate Inv(h: Hashes, v: Vault) {
    Rows(h, v) && Promotions(h, v) && LogOk(v)
  }

  // ------------------------------------------------------------ append only

  /** Nothing stored is ever changed or removed, and new rows come last. */
  predicate Extends(v: Vault, w: Vault) {
    && (forall p {:trigger p in w.bindings} | p in v.bindings :: p in w.bindings && w.bindings[p] == v.bindings[p])
    && (forall id {:trigger id in w.records} | id in v.records :: id in w.records && w.records[id] == v.records[id])
    && (forall q {:trigger q in w.promotions} | q in v.promotions :: q in w.promotions && w.promotions[q] == v.promotions[q])
    && v.log <= w.log
  }

  lemma ExtendsTransitive(a: Vault, b: Vault, c: Vault)
    requires Extends(a, b) && Extends(b, c)
    ensures Extends(a, c)
  {
    forall p | p in a.bindings ensures p in c.bindings && c.bindings[p] == a.bindings[p] {
      assert p in b.bindings;
    }
    forall id | id in a.records ensures id in c.records && c.records[id] == a.records[id] {
      assert id in b.records;
    }
    forall q | q in a.promotions ensures q in c.promotions && c.promotions[q] == a.promotions[q] {
      assert q in b.promotions;
    }
  }

  lemma EventsKept(h: Hashes, q: Request, source: Record)
    ensures Subset(source.body.events + PromotionEvents(q), Promoted(h, q, source).body.events)
  {
  }

  lemma TagsKept(h: Hashes, c: Context, d: Draft, now: int)
    ensures var tags := d.tags + ["process:" + c.process, "agent:" + c.agent, "task:" + c.task];
      Subset(tags, ChildRecord(h, c, d, now).body.tags)
  {
  }

  lemma ChildIsMade(h: Hashes, c: Context, d: Draft, now: int)
    requires ValidContext(c)
    ensures ChildOk(h, Stored(c.process, c.agent, c.task, ChildRecord(h, c, d, now)))
  {
    TagsKept(h, c, d, now);
    assert MadeFrom(h, Stored(c.process, c.agent, c.task, ChildRecord(h, c, d, now)), d);
  }

  lemma CopyIsMade(h: Hashes, q: Request, source: Stored)
    requires Reviewed(q) && source.record.id == q.source
    requires source.process == q.child.process && source.agent == q.child.agent && source.task == q.child.task
    ensures CopyOf(h, q, Stored(source.process, source.agent, source.task, Promoted(h, q, source.record)), source)
  {
    EventsKept(h, q, source.record);
  }

  /** What a step does: nothing, a binding, a row of its own child, or a row and its promotion. */
  datatype Change = Nothing | NewBinding(process: string, bound: Bound) | NewRow(row: Stored) | NewPromotion(q: Request, row: Stored)

  function Apply(v: Vault, c: Change): Vault {
    match c
    case Nothing => v
    case NewBinding(process, bound) => v.(bindings := v.bindings[process := bound])
    case NewRow(row) => AddRecord(v, row)
    case NewPromotion(q, row) => AddRecord(v, row).(promotions := v.promotions[q := row.record.id])
  }

  /** When a change may happen. */
  predicate Allowed(h: Hashes, v: Vault, c: Change) {
    match c
    case Nothing => true
    case NewBinding(process, _) => process !in v.bindings
    case NewRow(row) =>
      row.record.id !in v.records && row.record.authority != ApprovedCore && row.record.provenance.Child?
      && HasBinding(v.bindings, row)
    case NewPromotion(q, row) =>
      && row.record.id !in v.records && row.record.authority != ApprovedCore && row.record.id == h.promoted(q)
      && SourceHeld(v, q) && !Taken(v, q.source, q.target) && q !in v.promotions
      && row.record.provenance == Promotion(q, q.reviewer, q.source)
  }

  function ChangeOf(h: Hashes, v: Vault, op: Op): Change {
    match op
    case OpRegister(c) =>
      if ValidContext(c) && c.process !in v.bindings then NewBinding(c.process, Bound(c.agent, c.task, c.receipt)) else Nothing
    case OpRecord(c, d, now) =>
      var record := ChildRecord(h, c, d, now);
      if RecordChildStep(h, v, c, d, now).1.Ok? && record.id !in v.records
      then NewRow(Stored(c.process, c.agent, c.task, record)) else Nothing
    case OpPromote(q) =>
      if PromoteStep(h, v, q).1.Ok? && q !in v.promotions
      then NewPromotion(q, Stored(q.child.process, q.child.agent, q.child.task, Promoted(h, q, v.records[q.source].record)))
      else Nothing
  }

  lemma RecordIsChange(h: Hashes, v: Vault, c: Context, d: Draft, now: int)
    ensures var change := ChangeOf(h, v, OpRecord(c, d, now));
      && RecordChildStep(h, v, c, d, now).0 == Apply(v, change) && Allowed(h, v, change)
      && (change.NewRow? ==> ChildOk(h, change.row))
  {
    if RecordChildStep(h, v, c, d, now).1.Ok? {
      ChildIsMade(h, c, d, now);
    }
  }

  lemma PromoteIsChange(h: Hashes, v: Vault, q: Request)
    requires Rows(h, v)
    ensures var change := ChangeOf(h, v, OpPromote(q));
      && PromoteStep(h, v, q).0 == Apply(v, change) && Allowed(h, v, change)
      && (change.NewPromotion? ==> change.q == q && CopyOf(h, q, change.row, v.records[q.source]))
  {
    if PromoteStep(h, v, q).1.Ok? && q !in v.promotions {
      assert RowOk(h, v, q.source);
      CopyIsMade(h, q, v.records[q.source]);
    }
  }

  /** A step is its change, and a row it adds is well made. */
  lemma StepIsChange(h: Hashes, v: Vault, op: Op)
    requires Rows(h, v)
    ensures var change := ChangeOf(h, v, op);
      && Step(h, v, op) == Apply(v, change) && Allowed(h, v, change)
      && (change.NewRow? ==> ChildOk(h, change.row))
      && (change.NewPromotion? ==> CopyOf(h, change.q, change.row, v.records[change.q.source]))
  {
    match op
    case OpRegister(_) =>
    case OpRecord(c, d, now) => RecordIsChange(h, v, c, d, now);
    case OpPromote(q) => PromoteIsChange(h, v, q);
  }

  lemma ChangeExtends(h: Hashes, v: Vault, c: Change)
    requires Allowed(h, v, c)
    ensures Extends(v, Apply(v, c))
  {
  }

  lemma StepExtends(h: Hashes, v: Vault, op: Op)
    requires Rows(h, v)
    ensures Extends(v, Step(h, v, op))
  {
    StepIsChange(h, v, op);
    ChangeExtends(h, v, ChangeOf(h, v, op));
  }

  // ------------------------------------------------------------ preservation

  lemma RowStaysOk(h: Hashes, v: Vault, w: Vault, id: RecordId)
    requires id in v.records && RowOk(h, v, id) && Extends(v, w)
    ensures id in w.records && RowOk(h, w, id)
  {
    var s := v.records[id];
    assert id in w.records && w.records[id] == s;
    assert s.process in w.bindings;
    if s.record.provenance.Promotion? {
      assert s.record.provenance.request in w.promotions;
      assert s.record.provenance.request.source in w.records;
    }
  }

  lemma ChangeKeepsRows(h: Hashes, v: Vault, c: Change)
    requires Rows(h, v) && Allowed(h, v, c)
    requires c.NewRow? ==> ChildOk(h, c.row)
    requires c.NewPromotion? ==> CopyOf(h, c.q, c.row, v.records[c.q.source])
    ensures Rows(h, Apply(v, c))
  {
    ChangeExtends(h, v, c);
    var w := Apply(v, c);
    forall id | id in w.records ensures RowOk(h, w, id) {
      if id in v.records {
        assert RowOk(h, v, id);
        RowStaysOk(h, v, w, id);
      } else if c.NewPromotion? {
        assert RowOk(h, v, c.q.source);
      }
    }
  }

  lemma ChangeKeepsPromotions(h: Hashes, v: Vault, c: Change)
    requires Promotions(h, v) && Allowed(h, v, c)
    ensures Promotions(h, Apply(v, c))
  {
    var w := Apply(v, c);
    forall q | q in w.promotions ensures PromotionOk(h, w, q) {
      assert q in v.promotions ==> PromotionOk(h, v, q);
    }
  }

  /** A promotion's row is added after its source's. */
  lemma ChangeKeepsLog(h: Hashes, v: Vault, c: Change)
    requires LogOk(v) && Allowed(h, v, c)
    ensures LogOk(Apply(v, c))
  {
    var w := Apply(v, c);
    forall i | 0 <= i < |w.log| ensures InOrder(w, i) {
      if i < |v.log| {
        assert InOrder(v, i);
        assert w.log[..i] == v.log[..i];
      } else {
        assert w.log[..i] == v.log;
      }
    }
  }

  lemma StepKeepsInv(h: Hashes, v: Vault, op: Op)
    requires Inv(h, v)
    ensures Inv(h, Step(h, v, op))
  {
    StepIsChange(h, v, op);
    var change := ChangeOf(h, v, op);
    ChangeKeepsRows(h, v, change);
    ChangeKeepsPromotions(h, v, change);
    ChangeKeepsLog(h, v, change);
  }

  /** Over every run: nothing stored changes, rows are a child's own or copies of rows stored
      before them, and one promotion stands behind each copy. */
  lemma {:induction false} EveryRunKeepsProvenance(h: Hashes, v: Vault, ops: seq<Op>)
    requires Inv(h, v)
    ensures Inv(h, Run(h, v, ops)) && Extends(v, Run(h, v, ops))
    decreases |ops|
  {
    if ops != [] {
      StepKeepsInv(h, v, ops[0]);
      StepExtends(h, v, ops[0]);
      EveryRunKeepsProvenance(h, Step(h, v, ops[0]), ops[1..]);
      ExtendsTransitive(v, Step(h, v, ops[0]), Run(h, v, ops));
    }
  }

  // ------------------------------------------------------------- provenance

  /** One step back along `source_commit`. */
  predicate Link(h: Hashes, v: Vault, from: RecordId, to: RecordId) {
    && from in v.records && to in v.records && v.records[from].record.provenance.Promotion?
    && var q := v.records[from].record.provenance.request;
       q.source == to && q in v.promotions && CopyOf(h, q, v.records[from], v.records[to])
  }

  predicate LinkAt(h: Hashes, v: Vault, ids: seq<RecordId>, i: nat)
    requires i + 1 < |ids|
  {
    Link(h, v, ids[i], ids[i + 1])
  }

  ghost predicate Chain(h: Hashes, v: Vault, ids: seq<RecordId>) {
    && ids != []
    && (forall i {:trigger LinkAt(h, v, ids, i)} | 0 <= i < |ids| - 1 :: LinkAt(h, v, ids, i))
    && var last := ids[|ids| - 1];
       last in v.records && v.records[last].record.provenance.Child? && ChildOk(h, v.records[last])
  }

  /** Following the row order down from row `i`, every record leads by finitely many reviewed
      promotions of the same process, agent and task to a Task-scoped record of that child. */
  lemma {:induction false} ChainFromRow(h: Hashes, v: Vault, i: nat) returns (ids: seq<RecordId>)
    requires Inv(h, v) && i < |v.log|
    ensures Chain(h, v, ids) && ids[0] == v.log[i]
    ensures v.log[i] in v.records && (|ids| == 1 <==> v.records[v.log[i]].record.scope.Task?)
    decreases i
  {
    var id := v.log[i];
    assert InOrder(v, i) && RowOk(h, v, id);
    var p := v.records[id].record.provenance;
    if p.Child? {
      ids := [id];
    } else {
      var j :| 0 <= j < i && v.log[j] == p.request.source;
      var rest := ChainFromRow(h, v, j);
      ids := [id] + rest;
      forall k | 0 <= k < |ids| - 1 ensures LinkAt(h, v, ids, k) {
        assert k > 0 ==> LinkAt(h, v, rest, k - 1);
      }
    }
  }

  lemma EveryRecordHasProvenance(h: Hashes, v: Vault, id: RecordId) returns (ids: seq<RecordId>)
    requires Inv(h, v) && id in v.records
    ensures Chain(h, v, ids) && ids[0] == id
    ensures v.records[id].record.authority != ApprovedCore
    ensures |ids| == 1 <==> v.records[id].record.scope.Task?
  {
    assert RowOk(h, v, id) && id in v.log;
    var i :| 0 <= i < |v.log| && v.log[i] == id;
    ids := ChainFromRow(h, v, i);
  }

  lemma EmptyInv(h: Hashes)
    ensures Inv(h, EMPTY)
  {
  }

  lemma ReachableProvenance(h: Hashes, ops: seq<Op>, id: RecordId) returns (ids: seq<RecordId>)
    requires id in Run(h, EMPTY, ops).records
    ensures Chain(h, Run(h, EMPTY, ops), ids) && ids[0] == id
    ensures Run(h, EMPTY, ops).records[id].record.authority != ApprovedCore
  {
    EmptyInv(h);
    EveryRunKeepsProvenance(h, EMPTY, ops);
    ids := EveryRecordHasProvenance(h, Run(h, EMPTY, ops), id);
  }

  /** A record can only be promoted once its source is there: at the moment of the promotion the
      source row is stored, and it is the row the copy is later found to be of. */
  lemma SourceWasStoredFirst(h: Hashes, v: Vault, q: Request, ops: seq<Op>)
    requires Inv(h, v) && q !in v.promotions && PromoteStep(h, v, q).1.Ok?
    ensures q.source in v.records && h.promoted(q) !in v.records
    ensures var w := Run(h, PromoteStep(h, v, q).0, ops);
      && q.source in w.records && w.records[q.source] == v.records[q.source]
      && Link(h, w, h.promoted(q), q.source)
  {
    PromoteIsChange(h, v, q);
    var u := PromoteStep(h, v, q).0;
    StepKeepsInv(h, v, OpPromote(q));
    EveryRunKeepsProvenance(h, u, ops);
    assert q.source in u.records;
    CopyStaysLinked(h, u, Run(h, u, ops), h.promoted(q), q);
  }

  lemma CopyStaysLinked(h: Hashes, u: Vault, w: Vault, id: RecordId, q: Request)
    requires Inv(h, u) && Inv(h, w) && Extends(u, w) && id in u.records
    requires u.records[id].record.provenance == Promotion(q, q.reviewer, q.source)
    ensures Link(h, w, id, q.source) && q.source in u.records && w.records[q.source] == u.records[q.source]
  {
    assert RowOk(h, u, id);
    assert id in w.records && q.source in w.records;
    assert RowOk(h, w, id);
  }

  /** Each link of a chain stands for exactly one promotion row. */
  lemma OnePromotionPerLink(h: Hashes, v: Vault, q: Request, r: Request)
    requires Inv(h, v) && q in v.promotions && r in v.promotions
    requires q.source == r.source && q.target == r.target
    ensures q == r && v.promotions[q] == h.promoted(q)
  {
    assert PromotionOk(h, v, q);
    assert v.promotions[q] == h.promoted(q) && v.promotions[r] == v.promotions[r];
  }

  // ------------------------------------------------------- replays, conflicts

  /** The record insert of a promotion never collides with a stored id. */
  lemma PromotionNeverCollides(h: Hashes, v: Vault, q: Request)
    requires Injective(h) && Inv(h, v)
    ensures PromoteStep(h, v, q).1 != Err(Storage)
  {
    if h.promoted(q) in v.records {
      assert RowOk(h, v, h.promoted(q));
    }
  }

  lemma PromotedIsStored(h: Hashes, v: Vault, q: Request)
    requires Inv(h, v) && PromoteStep(h, v, q).1.Ok?
    ensures var (w, r) := PromoteStep(h, v, q);
      Reviewed(q) && q in w.promotions && w.promotions[q] == r.value == h.promoted(q) && Inv(h, w)
  {
    StepKeepsInv(h, v, OpPromote(q));
    if q in v.promotions {
      assert PromotionOk(h, v, q);
    }
  }

  /** Once a promotion succeeded, asking again returns the same record and changes nothing. */
  lemma PromotionReplays(h: Hashes, v: Vault, q: Request, ops: seq<Op>)
    requires Inv(h, v) && PromoteStep(h, v, q).1.Ok?
    ensures var w := Run(h, PromoteStep(h, v, q).0, ops);
      PromoteStep(h, w, q) == (w, PromoteStep(h, v, q).1)
  {
    PromotedIsStored(h, v, q);
    EveryRunKeepsProvenance(h, PromoteStep(h, v, q).0, ops);
    assert q in Run(h, PromoteStep(h, v, q).0, ops).promotions;
  }

  /** Any other request for that record and scope is refused from then on, without effect. */
  lemma ConflictingPromotionIsRefused(h: Hashes, v: Vault, q: Request, ops: seq<Op>, other: Request)
    requires Inv(h, v) && PromoteStep(h, v, q).1.Ok?
    requires other != q && other.source == q.source && other.target == q.target
    ensures var w := Run(h, PromoteStep(h, v, q).0, ops);
      PromoteStep(h, w, other).1.Err? && PromoteStep(h, w, other).0 == w
  {
    PromotedIsStored(h, v, q);
    EveryRunKeepsProvenance(h, PromoteStep(h, v, q).0, ops);
    TakenIsRefused(h, Run(h, PromoteStep(h, v, q).0, ops), q, other);
  }

  lemma TakenIsRefused(h: Hashes, w: Vault, q: Request, other: Request)
    requires Inv(h, w) && q in w.promotions
    requires other != q && other.source == q.source && other.target == q.target
    ensures PromoteStep(h, w, other).1.Err? && PromoteStep(h, w, other).0 == w
  {
    assert Taken(w, other.source, other.target);
    assert other !in w.promotions by {
      if other in w.promotions {
        OnePromotionPerLink(h, w, q, other);
      }
    }
  }

  /** Recording the same draft again stores nothing new; the answer repeats the stored record of
      that draft up to the time of the call. */
  lemma RecordingReplays(h: Hashes, v: Vault, c: Context, d: Draft, now: int, ops: seq<Op>, later: int)
    requires Injective(h) && Inv(h, v) && RecordChildStep(h, v, c, d, now).1.Ok?
    ensures var w := Run(h, RecordChildStep(h, v, c, d, now).0, ops);
            var (again, r) := RecordChildStep(h, w, c, d, later);
            var id := h.child(c.process, c.agent, c.task, d);
      && again == w && r == Ok(ChildRecord(h, c, d, later))
      && id in w.records && MadeFrom(h, w.records[id], d)
  {
    var id := h.child(c.process, c.agent, c.task, d);
    var u := RecordChildStep(h, v, c, d, now).0;
    StepKeepsInv(h, v, OpRecord(c, d, now));
    EveryRunKeepsProvenance(h, u, ops);
    var w := Run(h, u, ops);
    assert id in u.records && id in w.records;
    assert c.process in w.bindings;
    StoredDraft(h, w, id, c.process, c.agent, c.task, d);
  }

  /** The row under a child id is the record of the draft the id was made from. */
  lemma StoredDraft(h: Hashes, v: Vault, id: RecordId, process: string, agent: string, task: string, d: Draft)
    requires Injective(h) && Inv(h, v) && id in v.records && id == h.child(process, agent, task, d)
    ensures MadeFrom(h, v.records[id], d)
  {
    assert RowOk(h, v, id);
    var e :| MadeFrom(h, v.records[id], e);
  }

  // --------------------------------------------------------------- isolation

  /** A process's context is fixed by its first registration. */
  lemma ContextIsFixed(h: Hashes, v: Vault, c: Context, ops: seq<Op>, other: Context)
    requires Inv(h, v) && BindingHolds(v, c) && other.process == c.process
    ensures BindingHolds(Run(h, v, ops), other) <==> other == c
  {
    EveryRunKeepsProvenance(h, v, ops);
    assert c.process in Run(h, v, ops).bindings;
  }

  lemma SelectsByProcess(h: Hashes, v: Vault, c: Context, id: RecordId)
    requires Inv(h, v) && BindingHolds(v, c) && id in v.records
    ensures Selects(c, v.records[id]) <==> v.records[id].process == c.process
  {
    assert RowOk(h, v, id);
  }

  lemma {:induction false} ChainKeepsProcess(h: Hashes, v: Vault, ids: seq<RecordId>, i: nat)
    requires Chain(h, v, ids) && i < |ids|
    ensures ids[i] in v.records && ids[0] in v.records && v.records[ids[i]].process == v.records[ids[0]].process
  {
    if i > 0 {
      ChainKeepsProcess(h, v, ids, i - 1);
      assert LinkAt(h, v, ids, i - 1);
    } else if |ids| > 1 {
      assert LinkAt(h, v, ids, 0);
    }
  }

  /** A registered child recalls a record exactly when the record's chain starts at one of its
      own process, however often it was promoted since. */
  lemma RecallIsIsolated(h: Hashes, v: Vault, c: Context, ids: seq<RecordId>)
    requires Inv(h, v) && BindingHolds(v, c) && Chain(h, v, ids)
    ensures ids[0] in v.records
    ensures Selects(c, v.records[ids[0]]) <==> v.records[ids[|ids| - 1]].record.provenance == Child(c.process, c.agent)
  {
    var last := ids[|ids| - 1];
    ChainKeepsProcess(h, v, ids, |ids| - 1);
    SelectsByProcess(h, v, c, ids[0]);
    SelectsByProcess(h, v, c, last);
    var d :| MadeFrom(h, v.records[last], d);
  }
}
