/** The projector itself: filtering, sorting, greedy packing of rendered items. */
module Projector {
  import opened Text
  import opened Projection
  import opened ProjectionRuns
  import opened ProjectionContest
  import opened Escaping
  import opened Truncation
  import opened Labels
  import Order
  import Vault

  function Project(env: Env, items: seq<Item>, degraded: seq<string>, l: Limits): Result<Outcome, Error> {
    ProjectWith(Renders(env, l.maxItemBytes), items, degraded, l)
  }

  method ProjectItems(env: Env, items: seq<Item>, degraded: seq<string>, l: Limits) returns (r: Result<Outcome, Error>)
    ensures r == Project(env, items, degraded, l)
  {
    r := ProjectRendered(Renders(env, l.maxItemBytes), items, degraded, l);
  }

  method ProjectRendered(render: Renderer, items: seq<Item>, degraded: seq<string>, l: Limits) returns (r: Result<Outcome, Error>)
    ensures r == ProjectWith(render, items, degraded, l)
  {
    if !ValidLimits(l) {
      return Err(InvalidLimits);
    }
    var selected := SelectEligible(items);
    if selected.Err? {
      return Err(selected.error);
    }
    SortSees(render, selected.value.0);
    var packed := PackItems(render, l, Sort(selected.value.0), selected.value.1);
    r := Publish(packed, degraded);
  }

  method Publish(packed: Result<Packed, Error>, degraded: seq<string>) returns (r: Result<Outcome, Error>)
    ensures r == Finish(packed, degraded)
  {
    match packed
    case Err(e) => return Err(e);
    case Ok(p) => return Ok(Outcome(p.kept, p.omitted, Order.Normalize(degraded)));
  }

  method PackItems(render: Renderer, l: Limits, sorted: seq<Item>, omitted: nat) returns (r: Result<Packed, Error>)
    ensures r == Pack(l, Packed([], 0, omitted), Sees(render, sorted))
  {
    var p, rest := Packed([], 0, omitted), sorted;
    while rest != []
      invariant Pack(l, p, Sees(render, rest)) == Pack(l, Packed([], 0, omitted), Sees(render, sorted))
      decreases |rest|
    {
      var item := rest[0];
      assert Sees(render, rest)[1..] == Sees(render, rest[1..]);
      if |p.kept| == l.maxItems {
        p := p.(omitted := p.omitted + 1);
      } else {
        var rendered := render(item);
        if rendered.Err? {
          return Err(rendered.error);
        }
        var made := rendered.value;
        if p.used + ByteLen(made.text) > l.maxTotalBytes {
          p := p.(omitted := p.omitted + 1);
        } else {
          p := Packed(p.kept + [Projected(item.meta, made.text, made.truncated)], p.used + ByteLen(made.text), p.omitted);
        }
      }
      rest := rest[1..];
    }
    return Ok(p);
  }

  lemma {:induction false} InsertSees(render: Renderer, x: Item, s: seq<Item>)
    ensures Sees(render, Insert(x, s)) == Insert(See(render, x), Sees(render, s))
  {
    var seen := Sees(render, s);
    if s == [] || !Before(s[0], x) {
      assert Sees(render, [x] + s) == [See(render, x)] + seen;
    } else {
      InsertSees(render, x, s[1..]);
      assert seen[1..] == Sees(render, s[1..]);
      assert Sees(render, [s[0]] + Insert(x, s[1..])) == [See(render, s[0])] + Sees(render, Insert(x, s[1..]));
    }
  }

  /** Sorting first and rendering after is rendering first and sorting after. */
  lemma {:induction false} SortSees(render: Renderer, s: seq<Item>)
    ensures Sees(render, Sort(s)) == Sort(Sees(render, s))
  {
    if s != [] {
      SortSees(render, s[1..]);
      InsertSees(render, s[0], Sort(s[1..]));
      assert Sees(render, s)[1..] == Sees(render, s[1..]);
    }
  }

  lemma RendererIsBounded(env: Env, l: Limits)
    ensures Bounded(Renders(env, l.maxItemBytes), l)
  {
    forall i ensures Fits(Renders(env, l.maxItemBytes)(i), l.maxItemBytes) {
      RenderFits(env, i, l.maxItemBytes);
    }
    FittingIsBounded(Renders(env, l.maxItemBytes), l);
  }

  lemma FittingIsBounded(render: Renderer, l: Limits)
    requires forall i :: Fits(render(i), l.maxItemBytes)
    ensures Bounded(render, l)
  {
    forall i | render(i).Ok? ensures ByteLen(render(i).value.text) <= l.maxItemBytes {
      assert Fits(render(i), l.maxItemBytes);
    }
  }

  /** The whole promise for one call: the limits, conservation, and no room left for anything
      omitted that was eligible. */
  lemma ProjectionKeepsItsPromise(env: Env, items: seq<Item>, degraded: seq<string>, l: Limits)
    requires Project(env, items, degraded, l).Ok?
    ensures var o := Project(env, items, degraded, l).value;
      && |o.records| <= l.maxItems && Total(o.records) <= l.maxTotalBytes
      && (forall k | 0 <= k < |o.records| :: ByteLen(o.records[k].labelled) <= l.maxItemBytes)
      && |o.records| + o.omitted == |items|
      && (forall i | i in items && EligibleItem(i) ::
            var seen := See(Renders(env, l.maxItemBytes), i); Kept(o.records, seen) || NoRoom(l, o.records, seen))
  {
    var render := Renders(env, l.maxItemBytes);
    RendererIsBounded(env, l);
    ProjectionIsBounded(render, items, degraded, l);
    forall i | i in items && EligibleItem(i)
      ensures Kept(Project(env, items, degraded, l).value.records, See(render, i))
        || NoRoom(l, Project(env, items, degraded, l).value.records, See(render, i))
    {
      ProjectionIsMaximal(render, items, degraded, l, i);
    }
  }

  /** Every projected record has the metadata of an eligible item and is one element around that
      item's escaped content. */
  lemma EveryRecordIsOneElement(env: Env, items: seq<Item>, degraded: seq<string>, l: Limits, r: Projected)
    returns (i: Item, body: string)
    requires Project(env, items, degraded, l).Ok? && r in Project(env, items, degraded, l).value.records
    ensures i in items && EligibleItem(i) && r.meta == i.meta && NoBrackets(body)
    ensures NoBrackets(OpeningText(env, i)) && Shows(env, i, Labelled(r.labelled, r.truncated), body)
  {
    i := ProjectionIsRendered(Renders(env, l.maxItemBytes), items, degraded, l, r);
    body := RenderedItemIsOneElement(env, i, l.maxItemBytes);
  }

  // ------------------------------------------------------------ recall order

  predicate TooLargeOrOk(made: Result<Labelled, Error>) {
    made.Ok? || made == Err(LabelTooLarge)
  }

  lemma RenderFailsOneWay(env: Env, i: Item, maxBytes: nat)
    ensures TooLargeOrOk(Renders(env, maxBytes)(i))
  {
  }

  lemma OneWayIsOneError(render: Renderer, items: seq<Item>)
    requires forall i :: TooLargeOrOk(render(i))
    ensures OneError(Ranking(render, items))
  {
    forall e | e in Ranking(render, items) ensures TooLargeOrOk(e.body) {
      RankingMembers(render, items, e);
    }
  }

  /** The projector's outcome is the same for every recall order exactly when the order is hidden. */
  lemma OrderShowsIff(env: Env, items: seq<Item>, degraded: seq<string>, l: Limits)
    ensures ProjectionIsFixed(Renders(env, l.maxItemBytes), items, degraded, l)
      <==> OrderIsHidden(Renders(env, l.maxItemBytes), items, l)
  {
    forall i ensures TooLargeOrOk(Renders(env, l.maxItemBytes)(i)) {
      RenderFailsOneWay(env, i, l.maxItemBytes);
    }
    OneWayIsOneError(Renders(env, l.maxItemBytes), items);
    ProjectionIsFixedIff(Renders(env, l.maxItemBytes), items, degraded, l);
  }

  // ------------------------------------------------------------------- twins

  /** With one place, the first of two tied items takes it. */
  lemma FirstTwinIsKept(render: Renderer, x: Item, y: Item, l: Limits)
    requires ValidLimits(l) && l.maxItems == 1 && Tied(x, y)
    requires FaultOf(x).None? && FaultOf(y).None? && EligibleItem(x) && EligibleItem(y)
    requires render(x).Ok? && ByteLen(render(x).value.text) <= l.maxTotalBytes
    ensures var r := ProjectWith(render, [x, y], [], l);
      r.Ok? && r.value.omitted == 1 && AllShown(r.value.records) == [See(render, x)]
  {
    var a := [x, y];
    assert a[1..] == [y] && a[1..][1..] == [];
    assert FirstFault(a[1..]).None?;
    assert Eligible([y]) == [y] && Eligible(a) == [x] + [y];
    var u, v := See(render, x), See(render, y);
    assert Sees(render, [x] + [y]) == [u] + [v];
    UndecidedIffTied(u, v);
    RankedCons(v, []);
    RankedCons(u, [v]);
    SortedStays([u] + [v]);
    OutcomeOf(render, a, a, [], l);
    PackCons(l, Start(a), u, [v]);
    var q := PackOne(l, Start(a), u).value;
    PackCons(l, q, v, []);
    assert [v] + [] == [v];
  }

  lemma TwinIsPlain(x: Item, y: Item)
    requires y.meta == x.meta
    ensures Tied(x, y) && FaultOf(y) == FaultOf(x) && EligibleItem(y) == EligibleItem(x)
  {
  }

  /** With one place, the order of two items that differ in content alone shows exactly when they
      render differently. */
  lemma TwinsShowIff(render: Renderer, x: Item, y: Item, l: Limits)
    requires ValidLimits(l) && l.maxItems == 1 && y.meta == x.meta && FaultOf(x).None? && EligibleItem(x)
    requires render(x).Ok? && Fits(render(x), l.maxTotalBytes) && render(y).Ok? && Fits(render(y), l.maxTotalBytes)
    ensures ProjectWith(render, [x, y], [], l) != ProjectWith(render, [y, x], [], l) <==> render(x) != render(y)
  {
    TwinIsPlain(x, y);
    FirstTwinIsKept(render, x, y, l);
    FirstTwinIsKept(render, y, x, l);
    var one, other := ProjectWith(render, [x, y], [], l).value, ProjectWith(render, [y, x], [], l).value;
    assert AllShown(one.records)[0] == See(render, x) && AllShown(other.records)[0] == See(render, y);
    assert |one.records| == |AllShown(one.records)| == 1 && |other.records| == |AllShown(other.records)| == 1;
    if render(x) == render(y) {
      assert Shown(one.records[0]) == Shown(other.records[0]);
      assert one.records == other.records;
      assert one.degraded == other.degraded;
    }
  }

  lemma {:induction false} WholeFits(s: string, end: nat)
    requires ByteLen(s) <= end
    ensures Fitting(s, end) == s
  {
    if s != [] {
      WholeFits(s[1..], end - CharBytes(s[0]));
      assert s == [s[0]] + s[1..];
    }
  }

  /** A text with room for all of it is assembled whole. */
  lemma AssembledWhole(header: string, escaped: string, closing: string, room: nat)
    requires ByteLen(header) + ByteLen(closing) + ByteLen(escaped) <= room
    ensures Assemble(header, escaped, closing, room) == Ok(Labelled(header + escaped + closing, false))
  {
    var space := room - ByteLen(header) - ByteLen(closing);
    WholeFits(escaped, space);
    AssembledIs(header, escaped, closing, room, space, escaped);
  }

  lemma AssembledIs(header: string, escaped: string, closing: string, room: nat, space: nat, bounded: string)
    requires ByteLen(header) + ByteLen(closing) + space == room && bounded == Fitting(escaped, space)
    ensures Assemble(header, escaped, closing, room)
      == Ok(Labelled(header + bounded + closing, ByteLen(bounded) < ByteLen(escaped)))
  {
  }

  lemma MiddleOf(header: string, middle: string, closing: string)
    ensures (header + middle + closing)[|header|..|header + middle + closing| - |closing|] == middle
  {
  }

  /** Between the same ends, whole texts tell their contents apart. */
  lemma WholeTextsDiffer(header: string, a: string, b: string, closing: string, room: nat)
    requires a != b && ByteLen(header) + ByteLen(closing) + ByteLen(a) <= room
    requires ByteLen(header) + ByteLen(closing) + ByteLen(b) <= room
    ensures var one, other := Assemble(header, a, closing, room), Assemble(header, b, closing, room);
      one.Ok? && other.Ok? && one != other
  {
    AssembledWhole(header, a, closing, room);
    AssembledWhole(header, b, closing, room);
    MiddleOf(header, a, closing);
    MiddleOf(header, b, closing);
  }

  lemma EscapedDiffer(a: string, b: string)
    requires a != b
    ensures Escape(a) != Escape(b)
  {
    UnescapeRestores(a);
    UnescapeRestores(b);
  }

  lemma HeaderIgnoresContent(env: Env, x: Item, y: Item)
    requires y.meta == x.meta
    ensures Header(env, x) == Header(env, y)
  {
    assert Origin(env, x) == Origin(env, y) && Validity(env, x) == Validity(env, y) && Standing(env, x) == Standing(env, y);
  }

  lemma RoomFor(header: string, a: string, b: string, closing: string) returns (room: nat)
    requires a != b
    ensures room > 0
    ensures var one, other := Assemble(header, a, closing, room), Assemble(header, b, closing, room);
      one.Ok? && other.Ok? && one != other
  {
    room := ByteLen(header) + ByteLen(closing) + ByteLen(a) + ByteLen(b) + 1;
    WholeTextsDiffer(header, a, b, closing, room);
  }

  /** Room for both texts. */
  lemma SomeRoom(env: Env, x: Item, y: Item) returns (room: nat)
    requires y.meta == x.meta && env.scrub(x.body) != env.scrub(y.body)
    ensures room > 0 && Renders(env, room)(x).Ok? && Renders(env, room)(y).Ok?
    ensures Renders(env, room)(x) != Renders(env, room)(y)
  {
    var header, a, b := Header(env, x), env.scrub(x.body), env.scrub(y.body);
    HeaderIgnoresContent(env, x, y);
    EscapedDiffer(a, b);
    room := RoomFor(header, Escape(a), Escape(b), CLOSING);
  }

  lemma PlainItem() returns (x: Item)
    ensures FaultOf(x).None? && EligibleItem(x) && x.body == "a"
  {
    var meta := Meta("r", "s", "i", Times(0, None, None), 1.0,
                     Labels(Current, Vault.LocalEpisode, Internal, Vault.Global), Extra(None, None, None, None, None));
    x := Entry(meta, "a");
    assert !IsWhitespace('r') && !IsWhitespace('s') && !IsWhitespace('i');
    assert "r"[0] == 'r' && "s"[0] == 's' && "i"[0] == 'i';
  }

  /** Ties show: if scrubbing tells "a" from "b", then of two items with these contents and the same
      metadata the one recalled first is projected, and the outcomes differ. */
  lemma TiedPairShows(env: Env) returns (x: Item, y: Item, l: Limits)
    requires env.scrub("a") != env.scrub("b")
    ensures x.body == "a" && y == x.(body := "b") && l.maxItems == 1
    ensures Project(env, [x, y], [], l) != Project(env, [y, x], [], l)
  {
    x := PlainItem();
    y := x.(body := "b");
    var room := SomeRoom(env, x, y);
    l := Limits(1, room, room);
    RenderFits(env, x, room);
    RenderFits(env, y, room);
    TwinsShowIff(Renders(env, room), x, y, l);
  }
}
