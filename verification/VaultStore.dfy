/** The vault object: three tables behind one connection. */
module VaultStore {
  import opened Text
  import opened Vault
  import opened VaultRuns
  import Order

  /** The records of a child, each once, in the order of their ids. */
  ghost predicate Recalls(v: Vault, c: Context, records: seq<Record>) {
    && (forall i | 0 <= i < |records| ::
          records[i].id in v.records && v.records[records[i].id].record == records[i]
          && v.records[records[i].id].process == c.process)
    && (forall i, j | 0 <= i < j < |records| :: Order.Less(records[i].id, records[j].id))
    && (forall id | id in v.records && v.records[id].process == c.process ::
          exists i :: 0 <= i < |records| && records[i].id == id)
  }

  class AgentMemoryVault {
    const hashes: Hashes
    var db: Vault

    constructor (hashes: Hashes)
      ensures db == EMPTY && this.hashes == hashes && Inv(hashes, db)
    {
      this.hashes := hashes;
      db := EMPTY;
      new;
      EmptyInv(hashes);
    }

    method Register(c: Context) returns (r: Result<(), Error>)
      requires Inv(hashes, db)
      modifies this
      ensures Inv(hashes, db) && (db, r) == RegisterStep(old(db), c)
    {
      StepKeepsInv(hashes, db, OpRegister(c));
      if !ValidContext(c) {
        return Err(InvalidContext);
      }
      if c.process in db.bindings {
        return if BindingHolds(db, c) then Ok(()) else Err(BindingMismatch);
      }
      db := db.(bindings := db.bindings[c.process := Bound(c.agent, c.task, c.receipt)]);
      return Ok(());
    }

    method RecordChild(c: Context, d: Draft, now: int) returns (r: Result<Record, Error>)
      requires Inv(hashes, db)
      modifies this
      ensures Inv(hashes, db) && (db, r) == RecordChildStep(hashes, old(db), c, d, now)
    {
      StepKeepsInv(hashes, db, OpRecord(c, d, now));
      if !ValidContext(c) {
        return Err(InvalidContext);
      }
      if !BindingHolds(db, c) {
        return Err(BindingMismatch);
      }
      if d.authority == ApprovedCore {
        return Err(CoreForbidden);
      }
      var record := ChildRecord(hashes, c, d, now);
      if !ValidRecord(record) {
        return Err(InvalidRecord);
      }
      if record.id !in db.records {
        db := AddRecord(db, Stored(c.process, c.agent, c.task, record));
      }
      return Ok(record);
    }

    method Promote(q: Request) returns (r: Result<RecordId, Error>)
      requires Injective(hashes) && Inv(hashes, db)
      modifies this
      ensures Inv(hashes, db) && (db, r) == PromoteStep(hashes, old(db), q)
      ensures r != Err(Storage)
    {
      StepKeepsInv(hashes, db, OpPromote(q));
      PromotionNeverCollides(hashes, db, q);
      if !Reviewed(q) {
        return Err(ReviewError(q));
      }
      if q in db.promotions {
        return Ok(db.promotions[q]);
      }
      if !SourceHeld(db, q) {
        return Err(SourceMismatch);
      }
      var source := db.records[q.source].record;
      if source.authority == ApprovedCore {
        return Err(CoreForbidden);
      }
      var promoted := Promoted(hashes, q, source);
      if !ValidRecord(promoted) {
        return Err(InvalidRecord);
      }
      if Taken(db, q.source, q.target) {
        return Err(Conflict);
      }
      db := AddRecord(db, Stored(q.child.process, q.child.agent, q.child.task, promoted)).(
        promotions := db.promotions[q := promoted.id]);
      return Ok(promoted.id);
    }

    /** Scans the table and lists the selected rows by id. */
    method SelectIds(c: Context) returns (ids: seq<RecordId>)
      ensures Order.Ascending(ids)
      ensures forall id :: id in ids <==> id in db.records && Selects(c, db.records[id])
    {
      ids := [];
      var todo := db.records.Keys;
      while todo != {}
        invariant todo <= db.records.Keys && Order.Ascending(ids)
        invariant forall id :: id in ids <==> id in db.records && id !in todo && Selects(c, db.records[id])
        decreases |todo|
      {
        var id :| id in todo;
        todo := todo - {id};
        if Selects(c, db.records[id]) {
          ids := Order.Insert(ids, id);
        }
      }
    }

    method Recall(c: Context) returns (r: Result<seq<Record>, Error>)
      requires Inv(hashes, db)
      ensures r.Ok? <==> BindingHolds(db, c)
      ensures r.Ok? ==> Recalls(db, c, r.value)
    {
      if !ValidContext(c) {
        return Err(InvalidContext);
      }
      if !BindingHolds(db, c) {
        return Err(BindingMismatch);
      }
      var ids := SelectIds(c);
      var records: seq<Record> := [];
      while |records| < |ids|
        invariant |records| <= |ids|
        invariant forall i | 0 <= i < |records| :: ids[i] in db.records && records[i] == db.records[ids[i]].record
      {
        assert ids[|records|] in ids;
        records := records + [db.records[ids[|records|]].record];
      }
      RecallsAll(hashes, db, c, ids, records);
      return Ok(records);
    }
  }

  lemma RecallsAll(h: Hashes, v: Vault, c: Context, ids: seq<RecordId>, records: seq<Record>)
    requires Inv(h, v) && BindingHolds(v, c) && Order.Ascending(ids) && |records| == |ids|
    requires forall id :: id in ids <==> id in v.records && Selects(c, v.records[id])
    requires forall i | 0 <= i < |ids| :: ids[i] in v.records && records[i] == v.records[ids[i]].record
    ensures Recalls(v, c, records)
  {
    forall i | 0 <= i < |ids| ensures records[i].id == ids[i] && v.records[ids[i]].process == c.process {
      assert ids[i] in ids;
      assert RowOk(h, v, ids[i]);
    }
    forall id | id in v.records && v.records[id].process == c.process ensures exists i :: 0 <= i < |records| && records[i].id == id {
      SelectsByProcess(h, v, c, id);
      var i :| 0 <= i < |ids| && ids[i] == id;
      assert records[i].id == id;
    }
  }
}
