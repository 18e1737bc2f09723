/** The registry object: one table, one statement or transaction per call. */
module BindingRegistry {
  import opened Text
  import opened Capability
  import opened Binding
  import opened BindingRuns

  class WorkspaceMemoryBindingRegistry {
    var table: Table

    constructor ()
      ensures table == map[] && Positive(table)
    {
      table := map[];
    }

    method LocalOnly(key: Key, now: int) returns (r: Result<Row, Error>)
      requires Positive(table)
      modifies this
      ensures Positive(table) && (table, r) == LocalOnlyStep(old(table), key, now)
    {
      if !ValidId(key.principal) || !ValidId(key.workspace) {
        return Err(Invalid);
      }
      if key !in table {
        table := table[key := Row(EMPTY_PROPOSAL, State.LocalOnly, None, 1, now)];
      }
      return Ok(table[key]);
    }

    static method CollectReasons(p: Proposal, g: Grant) returns (reasons: seq<Mismatch>)
      ensures reasons == Reasons(p, g)
    {
      reasons := [];
      if g.backendId != p.backendId { reasons := reasons + [BackendMismatch]; }
      if !g.canWrite { reasons := reasons + [WriteScopeMissing]; }
      if !g.canRead { reasons := reasons + [ReadScopeMissing]; }
      if g.writeSource != Some(p.expectedWriteSource) { reasons := reasons + [WriteSourceMismatch]; }
      if Elements(p.expectedReadSources) != Elements(g.readSources) { reasons := reasons + [ReadSourcesMismatch]; }
    }

    method PreviewBinding(key: Key, p: Proposal, g: Grant, now: int) returns (r: Result<Preview, Error>)
      ensures r == PreviewOf(table, key, p, g, now)
    {
      if !ValidProposal(key, p, g) {
        return Err(Invalid);
      }
      var reasons := CollectReasons(p, g);
      var prior := if key in table then table[key].revision else 0;
      var preview := MakePreview(key, p, g, reasons, prior + 1, now);
      return Ok(preview);
    }

    static method MakePreview(key: Key, p: Proposal, g: Grant, reasons: seq<Mismatch>, revision: nat, now: int)
      returns (preview: Preview)
      ensures preview == PreviewFor(key, p, Material(g), reasons, revision, now)
    {
      if reasons == [] {
        return Preview(key, Row(p, Active, Some(Material(g)), revision, now), true, reasons);
      }
      return Preview(key, Row(p, State.Incompatible, None, revision, now), false, reasons);
    }

    method Apply(preview: Preview) returns (r: Result<Row, Error>)
      requires Positive(table)
      modifies this
      ensures Positive(table) && (table, r) == ApplyStep(old(table), preview)
    {
      var current := if preview.key in table then table[preview.key].revision else 0;
      if current != Prior(preview.row.revision) {
        return Err(Invalid);
      }
      if preview.row.revision == 0 {
        return Err(Storage);
      }
      table := table[preview.key := preview.row];
      return Ok(preview.row);
    }

    method Revoke(key: Key, now: int) returns (r: Result<Option<Row>, Error>)
      requires Positive(table)
      modifies this
      ensures Positive(table) && (table, r) == RevokeStep(old(table), key, now)
    {
      if !ValidId(key.principal) {
        return Err(Invalid);
      }
      if key !in table {
        return Ok(None);
      }
      table := table[key := Closed(table[key], Revoked, now)];
      return Ok(Some(table[key]));
    }

    method MarkIncompatible(key: Key, expected: nat, now: int) returns (r: Result<Option<Row>, Error>)
      requires Positive(table)
      modifies this
      ensures Positive(table) && (table, r) == IncompatibleStep(old(table), key, expected, now)
    {
      if !ValidId(key.principal) {
        return Err(Invalid);
      }
      if key !in table || table[key].revision != expected {
        return Ok(None);
      }
      table := table[key := Closed(table[key], State.Incompatible, now)];
      return Ok(Some(table[key]));
    }
  }
}
