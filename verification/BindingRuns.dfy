/** Optimistic concurrency between previews, applies and revocations, over every run. */
module BindingRuns {
  import opened Text
  import opened Utf8
  import opened Capability
  import opened Binding

  /** `CHECK(revision > 0)`. */
  predicate Positive(t: Table) {
    forall key {:trigger t[key]} | key in t :: t[key].revision > 0
  }

  /** A row changes only together with its revision, by one, and rows never go away. Previews
      need not be genuine. */
  lemma StepMovesByOne(t: Table, op: Op, key: Key)
    requires Positive(t)
    ensures Positive(Step(t, op))
    ensures var u := Step(t, op);
      Get(u, key) == Get(t, key) || (key in u && Revision(u, key) == Revision(t, key) + 1)
  {
  }

  lemma {:induction false} RevisionsOnlyGrow(t: Table, ops: seq<Op>, key: Key)
    requires Positive(t)
    ensures var u := Run(t, ops);
      && Positive(u) && Revision(t, key) <= Revision(u, key)
      && (Revision(t, key) == Revision(u, key) ==> Get(t, key) == Get(u, key))
    decreases |ops|
  {
    if ops != [] {
      StepMovesByOne(t, ops[0], key);
      RevisionsOnlyGrow(Step(t, ops[0]), ops[1..], key);
    }
  }

  /** A preview applies exactly while the row it was taken from is untouched. */
  lemma PreviewAppliesIff(t: Table, key: Key, p: Proposal, g: Grant, now: int, ops: seq<Op>)
    requires Positive(t) && PreviewOf(t, key, p, g, now).Ok?
    ensures var preview := PreviewOf(t, key, p, g, now).value;
            var u := Run(t, ops);
      && (ApplyStep(u, preview).1.Ok? <==> Get(u, key) == Get(t, key))
      && (ApplyStep(u, preview).1.Ok? ==> ApplyStep(u, preview).0 == u[key := preview.row])
      && (!ApplyStep(u, preview).1.Ok? ==> ApplyStep(u, preview) == (u, Err(Invalid)))
  {
    RevisionsOnlyGrow(t, ops, key);
  }

  /** Of all previews for one row and revision at most one is ever applied. */
  lemma AppliedAtMostOnce(t: Table, first: Preview, ops: seq<Op>, second: Preview)
    requires Positive(t) && ApplyStep(t, first).1.Ok?
    requires second.key == first.key && second.row.revision <= first.row.revision
    ensures var u := Run(ApplyStep(t, first).0, ops);
      ApplyStep(u, second) == (u, Err(Invalid))
  {
    StepMovesByOne(t, OpApply(first), first.key);
    RevisionsOnlyGrow(ApplyStep(t, first).0, ops, first.key);
  }

  /** A preview from before a revocation that changed the row can never be applied. */
  lemma RevocationKillsPreviews(
      t: Table, key: Key, p: Proposal, g: Grant, at: int, before: seq<Op>, now: int, after: seq<Op>)
    requires Positive(t) && PreviewOf(t, key, p, g, at).Ok?
    requires key in Run(t, before)
    ensures var preview := PreviewOf(t, key, p, g, at).value;
            var revoked := RevokeStep(Run(t, before), key, now);
            var u := Run(revoked.0, after);
      && revoked.1.Ok? && revoked.1.value.Some? && Get(revoked.0, key) == revoked.1.value
      && revoked.1.value.value.state == Revoked && revoked.1.value.value.digest == None
      && ApplyStep(u, preview) == (u, Err(Invalid))
  {
    RevisionsOnlyGrow(t, before, key);
    var revoked := RevokeStep(Run(t, before), key, now).0;
    StepMovesByOne(Run(t, before), OpRevoke(key, now), key);
    RevisionsOnlyGrow(revoked, after, key);
  }

  // ------------------------------------------------------- what Active means

  /** The handshake the operator declared. */
  predicate Handshake(g: Grant, p: Proposal) {
    && g.backendId == p.backendId && g.writeSource == Some(p.expectedWriteSource)
    && Elements(g.readSources) == Elements(p.expectedReadSources)
    && g.canRead && g.canWrite
  }

  /** The row's digest is that of a grant that matched its proposal. */
  ghost predicate DigestOf(row: Row, g: Grant) {
    && ValidId(row.proposal.expectedWriteSource)
    && Writable(g) && Handshake(g, row.proposal) && row.digest == Some(Material(g))
  }

  ghost predicate Verified(row: Row) {
    && (row.state == Active <==> row.digest.Some?)
    && (row.digest.Some? ==> exists g :: DigestOf(row, g))
  }

  /** The table and every preview handed out so far. */
  datatype World = World(table: Table, issued: set<Preview>)

  datatype Event = Ask(key: Key, proposal: Proposal, grant: Grant, now: int) | Do(op: Op)

  function Next(w: World, e: Event): World {
    match e
    case Ask(key, p, g, now) =>
      (match PreviewOf(w.table, key, p, g, now)
       case Ok(preview) => w.(issued := w.issued + {preview})
       case Err(_) => w)
    case Do(op) => w.(table := Step(w.table, op))
  }

  function Trace(w: World, events: seq<Event>): World
    decreases |events|
  {
    if events == [] then w else Trace(Next(w, events[0]), events[1..])
  }

  /** Every applied preview was handed out by the registry. */
  predicate Genuine(w: World, events: seq<Event>)
    decreases |events|
  {
    events == []
    || ((events[0].Do? && events[0].op.OpApply? ==> events[0].op.preview in w.issued)
        && Genuine(Next(w, events[0]), events[1..]))
  }

  ghost predicate AllVerified(w: World) {
    && (forall key {:trigger w.table[key]} | key in w.table :: Verified(w.table[key]))
    && (forall preview {:trigger preview in w.issued} | preview in w.issued :: Verified(preview.row))
  }

  lemma ShortFits(s: string)
    requires ByteLen(s) <= MAX_ID_BYTES
    ensures Fits(Encode(s))
  {
    assert Power256(2) <= Power256(LENGTH_BYTES);
  }

  lemma HandshakeIsWritable(key: Key, p: Proposal, g: Grant)
    requires ValidProposal(key, p, g) && Handshake(g, p)
    ensures Writable(g)
  {
    var sources := Sources(g);
    forall i | 0 <= i < |sources| ensures Fits(Encode(sources[i])) {
      if i >= 2 {
        var read := sources[i];
        assert read in Order.Normalize(g.readSources);
        assert read in g.readSources;
        var k :| 0 <= k < |g.readSources| && g.readSources[k] == read;
        assert ValidId(g.readSources[k]);
      }
      ShortFits(sources[i]);
    }
  }

  lemma NoReasonsIff(p: Proposal, g: Grant)
    ensures Reasons(p, g) == [] <==> Handshake(g, p)
  {
  }

  /** A preview is compatible exactly for a matching handshake. */
  lemma PreviewIsVerified(t: Table, key: Key, p: Proposal, g: Grant, now: int)
    requires PreviewOf(t, key, p, g, now).Ok?
    ensures var preview := PreviewOf(t, key, p, g, now).value;
      && Verified(preview.row)
      && (preview.compatible <==> Handshake(g, p)) && (preview.compatible <==> preview.row.state == Active)
  {
    NoReasonsIff(p, g);
    if Handshake(g, p) {
      HandshakeIsWritable(key, p, g);
      assert DigestOf(PreviewOf(t, key, p, g, now).value.row, g);
    }
  }

  /** The row a step may write, if it writes one. */
  lemma StepWrites(t: Table, op: Op, key: Key)
    requires key in Step(t, op)
    ensures var row := Step(t, op)[key];
      || (key in t && row == t[key])
      || (op.OpApply? && row == op.preview.row)
      || (row.digest == None && row.state != Active)
  {
  }

  lemma NextKeepsVerified(w: World, e: Event)
    requires AllVerified(w)
    requires e.Do? && e.op.OpApply? ==> e.op.preview in w.issued
    ensures AllVerified(Next(w, e))
  {
    if e.Ask? {
      if PreviewOf(w.table, e.key, e.proposal, e.grant, e.now).Ok? {
        PreviewIsVerified(w.table, e.key, e.proposal, e.grant, e.now);
      }
    } else {
      var t := Step(w.table, e.op);
      forall key | key in t ensures Verified(t[key]) {
        StepWrites(w.table, e.op, key);
      }
    }
  }

  /** In every run whose previews are the registry's own, a stored binding is Active exactly
      when it has a digest, and then some grant matched it. */
  lemma {:induction false} ActiveMeansVerified(w: World, events: seq<Event>)
    requires AllVerified(w) && Genuine(w, events)
    ensures AllVerified(Trace(w, events))
    decreases |events|
  {
    if events != [] {
      NextKeepsVerified(w, events[0]);
      ActiveMeansVerified(Next(w, events[0]), events[1..]);
    }
  }

  lemma SameGrantShakes(g: Grant, h: Grant, p: Proposal)
    requires SameGrant(g, h) && Handshake(g, p) && ValidId(p.expectedWriteSource)
    ensures Handshake(h, p)
  {
    assert p.expectedWriteSource != "";
    assert Elements(h.readSources) == Elements(g.readSources);
  }

  /** A verified digest can only have come from a grant that matches the binding. */
  lemma DigestNamesTheGrant(row: Row, h: Grant)
    requires Verified(row) && Writable(h)
    ensures row.digest == Some(Material(h)) ==> Handshake(h, row.proposal)
  {
    if row.digest == Some(Material(h)) {
      var g :| DigestOf(row, g);
      MaterialIsUnique(g, h);
      SameGrantShakes(g, h, row.proposal);
    }
  }

  /** At the step: what is applied is verified exactly when the preview's row is, so the table
      stays verified exactly for verified previews. */
  lemma ApplyKeepsVerifiedIff(t: Table, preview: Preview)
    requires forall key {:trigger t[key]} | key in t :: Verified(t[key])
    requires ApplyStep(t, preview).1.Ok?
    ensures var u := ApplyStep(t, preview).0;
      (forall key {:trigger u[key]} | key in u :: Verified(u[key])) <==> Verified(preview.row)
  {
    var u := ApplyStep(t, preview).0;
    assert u[preview.key] == preview.row;
    if Verified(preview.row) {
      forall key | key in u ensures Verified(u[key]) {
        assert key != preview.key ==> u[key] == t[key];
      }
    }
  }

  /** Without that condition the claim is false: the preview is a public record, and one made by
      hand puts an Active row without a digest into the table. */
  lemma ForgedPreviewIsStored(key: Key, now: int)
    ensures var forged := Preview(key, Row(EMPTY_PROPOSAL, Active, None, 1, now), true, []);
      && ApplyStep(map[], forged).1.Ok?
      && Get(ApplyStep(map[], forged).0, key) == Some(forged.row)
      && !Verified(forged.row)
  {
  }
}
