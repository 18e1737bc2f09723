/** The workspace binding table and its transactions (crates/mnemosyne/src/binding.rs). */
module Binding {
  import opened Text
  import opened Utf8
  import opened Capability

  const MAX_ID_BYTES := 512
  const MAX_READ_SOURCES := 32

  datatype State = Active | LocalOnly | Incompatible | Revoked

  datatype Key = Key(principal: string, workspace: string)

  /** A table row without its key. The digest stands for the bytes that were hashed. */
  datatype Row = Row(
    proposal: Proposal, state: State, digest: Option<seq<Byte>>, revision: nat, updatedAt: int)

  datatype Proposal = Proposal(
    backendId: string, writeHandle: string, readHandles: seq<string>,
    expectedWriteSource: string, expectedReadSources: seq<string>, credential: string)

  /** What a grant lacks for a proposal. */
  datatype Mismatch = BackendMismatch | WriteScopeMissing | ReadScopeMissing | WriteSourceMismatch | ReadSourcesMismatch

  datatype Preview = Preview(key: Key, row: Row, compatible: bool, reasons: seq<Mismatch>)

  datatype Error = Invalid | Storage

  type Table = map<Key, Row>

  // ------------------------------------------------------------- validation

  predicate IsControl(c: char) {
    var n := c as int;
    n < 0x20 || 0x7F <= n < 0xA0
  }

  predicate ValidId(s: string) {
    !Blank(s) && ByteLen(s) <= MAX_ID_BYTES && forall i | 0 <= i < |s| :: !IsControl(s[i])
  }

  predicate ValidIds(values: seq<string>) {
    forall i | 0 <= i < |values| :: ValidId(values[i])
  }

  predicate Distinct(values: seq<string>) {
    forall i, j | 0 <= i < j < |values| :: values[i] != values[j]
  }

  predicate ValidProposal(key: Key, p: Proposal, g: Grant) {
    && ValidId(key.principal) && ValidId(key.workspace)
    && ValidId(p.backendId) && ValidId(p.writeHandle) && ValidId(p.expectedWriteSource) && ValidId(p.credential)
    && ValidId(g.backendId)
    && 0 < |p.readHandles| <= MAX_READ_SOURCES && 0 < |p.expectedReadSources| <= MAX_READ_SOURCES
    && |g.readSources| <= MAX_READ_SOURCES
    && ValidIds(p.readHandles) && ValidIds(p.expectedReadSources) && ValidIds(g.readSources)
    && Distinct(p.expectedReadSources)
  }

  // ------------------------------------------------------------ transactions

  function Get(t: Table, key: Key): Option<Row> {
    if key in t then Some(t[key]) else None
  }

  function Revision(t: Table, key: Key): nat {
    if key in t then t[key].revision else 0
  }

  const EMPTY_PROPOSAL := Proposal("", "", [], "", [], "")

  function LocalOnlyStep(t: Table, key: Key, now: int): (Table, Result<Row, Error>) {
    if !ValidId(key.principal) || !ValidId(key.workspace) then (t, Err(Invalid))
    else if key in t then (t, Ok(t[key]))
    else
      var row := Row(EMPTY_PROPOSAL, LocalOnly, None, 1, now);
      (t[key := row], Ok(row))
  }

  function Elements(values: seq<string>): set<string> {
    set s | s in values
  }

  function Reasons(p: Proposal, g: Grant): seq<Mismatch> {
    var a := AddIf([], g.backendId != p.backendId, BackendMismatch);
    var b := AddIf(a, !g.canWrite, WriteScopeMissing);
    var c := AddIf(b, !g.canRead, ReadScopeMissing);
    var d := AddIf(c, g.writeSource != Some(p.expectedWriteSource), WriteSourceMismatch);
    AddIf(d, Elements(p.expectedReadSources) != Elements(g.readSources), ReadSourcesMismatch)
  }

  function AddIf(reasons: seq<Mismatch>, missing: bool, reason: Mismatch): seq<Mismatch> {
    if missing then reasons + [reason] else reasons
  }

  function PreviewFor(key: Key, p: Proposal, digest: seq<Byte>, reasons: seq<Mismatch>, revision: nat, now: int): Preview {
    if reasons == [] then Preview(key, Row(p, Active, Some(digest), revision, now), true, reasons)
    else Preview(key, Row(p, Incompatible, None, revision, now), false, reasons)
  }

  function PreviewOf(t: Table, key: Key, p: Proposal, g: Grant, now: int): Result<Preview, Error> {
    if !ValidProposal(key, p, g) then Err(Invalid)
    else Ok(PreviewFor(key, p, Material(g), Reasons(p, g), Revision(t, key) + 1, now))
  }

  /** `saturating_sub(1)`. */
  function Prior(revision: nat): nat {
    if revision == 0 then 0 else revision - 1
  }

  /** The table refuses a row whose revision is not positive. */
  function ApplyStep(t: Table, preview: Preview): (Table, Result<Row, Error>) {
    if Revision(t, preview.key) != Prior(preview.row.revision) then (t, Err(Invalid))
    else if preview.row.revision == 0 then (t, Err(Storage))
    else (t[preview.key := preview.row], Ok(preview.row))
  }

  function Closed(row: Row, state: State, now: int): Row {
    row.(state := state, digest := None, revision := row.revision + 1, updatedAt := now)
  }

  function RevokeStep(t: Table, key: Key, now: int): (Table, Result<Option<Row>, Error>) {
    if !ValidId(key.principal) then (t, Err(Invalid))
    else if key !in t then (t, Ok(None))
    else
      var row := Closed(t[key], Revoked, now);
      (t[key := row], Ok(Some(row)))
  }

  function IncompatibleStep(t: Table, key: Key, expected: nat, now: int): (Table, Result<Option<Row>, Error>) {
    if !ValidId(key.principal) then (t, Err(Invalid))
    else if key !in t || t[key].revision != expected then (t, Ok(None))
    else
      var row := Closed(t[key], Incompatible, now);
      (t[key := row], Ok(Some(row)))
  }

  // -------------------------------------------------------------------- runs

  datatype Op =
    | OpLocalOnly(key: Key, now: int)
    | OpApply(preview: Preview)
    | OpRevoke(key: Key, now: int)
    | OpIncompatible(key: Key, expected: nat, now: int)

  function Step(t: Table, op: Op): Table {
    match op
    case OpLocalOnly(key, now) => LocalOnlyStep(t, key, now).0
    case OpApply(preview) => ApplyStep(t, preview).0
    case OpRevoke(key, now) => RevokeStep(t, key, now).0
    case OpIncompatible(key, expected, now) => IncompatibleStep(t, key, expected, now).0
  }

  function Run(t: Table, ops: seq<Op>): Table
    decreases |ops|
  {
    if ops == [] then t else Run(Step(t, ops[0]), ops[1..])
  }
}
