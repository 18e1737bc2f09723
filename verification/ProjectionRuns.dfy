/** The three limits, conservation, maximality, ranking, and what a rendered item says. */
module ProjectionRuns {
  import opened Text
  import opened Projection
  import Order

  // ----------------------------------------------------------------- methods

  /** Validates and filters in one pass; `eligible` and `omitted` are what it has found so far. */
  function Select(rest: seq<Item>, eligible: seq<Item>, omitted: nat): Result<(seq<Item>, nat), Error> {
    if rest == [] then Ok((eligible, omitted))
    else match FaultOf(rest[0])
      case Some(fault) => Err(InvalidItem(fault))
      case None =>
        if EligibleItem(rest[0]) then Select(rest[1..], eligible + [rest[0]], omitted)
        else Select(rest[1..], eligible, omitted + 1)
  }

  lemma {:induction false} SelectIs(rest: seq<Item>, eligible: seq<Item>, omitted: nat)
    ensures Select(rest, eligible, omitted) == match FirstFault(rest)
      case Some(fault) => Err(InvalidItem(fault))
      case None => Ok((eligible + Eligible(rest), omitted + |rest| - |Eligible(rest)|))
  {
    if rest == [] {
      assert eligible + [] == eligible;
    } else if FaultOf(rest[0]).Some? {
    } else if EligibleItem(rest[0]) {
      SelectIs(rest[1..], eligible + [rest[0]], omitted);
      assert eligible + [rest[0]] + Eligible(rest[1..]) == eligible + ([rest[0]] + Eligible(rest[1..]));
    } else {
      SelectIs(rest[1..], eligible, omitted + 1);
      assert [] + Eligible(rest[1..]) == Eligible(rest[1..]);
    }
  }

  method SelectEligible(items: seq<Item>) returns (r: Result<(seq<Item>, nat), Error>)
    ensures r == match FirstFault(items)
      case Some(fault) => Err(InvalidItem(fault))
      case None => Ok((Eligible(items), |items| - |Eligible(items)|))
  {
    SelectIs(items, [], 0);
    assert [] + Eligible(items) == Eligible(items);
    var rest, eligible, omitted: nat := items, [], 0;
    while rest != []
      invariant Select(rest, eligible, omitted) == Select(items, [], 0)
      decreases |rest|
    {
      var item := rest[0];
      var fault := FaultOf(item);
      if fault.Some? {
        return Err(InvalidItem(fault.value));
      }
      if EligibleItem(item) {
        eligible := eligible + [item];
      } else {
        omitted := omitted + 1;
      }
      rest := rest[1..];
    }
    return Ok((eligible, omitted));
  }

  // ------------------------------------------------------------------ limits

  function Total(records: seq<Projected>): nat {
    if records == [] then 0 else Total(records[..|records| - 1]) + ByteLen(records[|records| - 1].labelled)
  }

  predicate Within(l: Limits, p: Packed) {
    && |p.kept| <= l.maxItems && p.used == Total(p.kept) <= l.maxTotalBytes
    && forall k {:trigger p.kept[k]} | 0 <= k < |p.kept| :: ByteLen(p.kept[k].labelled) <= l.maxItemBytes
  }

  /** A text keeps the limit per item. */
  predicate Short(l: Limits, e: Seen) {
    e.body.Ok? ==> ByteLen(e.body.value.text) <= l.maxItemBytes
  }

  predicate AllShort(l: Limits, s: seq<Seen>) {
    forall e {:trigger e in s} | e in s :: Short(l, e)
  }

  /** Every text the renderer gives keeps the limit per item. */
  ghost predicate Bounded(render: Renderer, l: Limits) {
    forall i {:trigger render(i)} | render(i).Ok? :: ByteLen(render(i).value.text) <= l.maxItemBytes
  }

  lemma PackOneKeepsLimits(l: Limits, p: Packed, e: Seen)
    requires Short(l, e) && Within(l, p) && PackOne(l, p, e).Ok?
    ensures var q := PackOne(l, p, e).value;
      Within(l, q) && p.kept <= q.kept && |q.kept| + q.omitted == |p.kept| + p.omitted + 1
  {
    var q := PackOne(l, p, e).value;
    assert |q.kept| > |p.kept| ==> q.kept[..|q.kept| - 1] == p.kept;
  }

  lemma {:induction false} PackKeepsLimits(l: Limits, p: Packed, rest: seq<Seen>)
    requires AllShort(l, rest) && Within(l, p) && Pack(l, p, rest).Ok?
    ensures var q := Pack(l, p, rest).value;
      Within(l, q) && p.kept <= q.kept && |q.kept| + q.omitted == |p.kept| + p.omitted + |rest|
    decreases |rest|
  {
    if rest != [] {
      assert rest[0] in rest && forall e | e in rest[1..] :: e in rest;
      PackOneKeepsLimits(l, p, rest[0]);
      PackKeepsLimits(l, PackOne(l, p, rest[0]).value, rest[1..]);
    }
  }

  lemma EligibleIsShorter<B>(items: seq<Entry<B>>)
    ensures |Eligible(items)| <= |items|
    ensures forall x :: x in Eligible(items) <==> x in items && EligibleItem(x)
  {
    if items != [] {
      EligibleIsShorter(items[1..]);
      assert items == [items[0]] + items[1..];
    }
  }

  lemma {:induction false} InsertItems<B>(x: Entry<B>, s: seq<Entry<B>>)
    ensures multiset(Insert(x, s)) == multiset{x} + multiset(s)
  {
    if s != [] && Before(s[0], x) {
      InsertItems(x, s[1..]);
      assert s == [s[0]] + s[1..];
    }
  }

  /** Sorting neither loses nor adds an item. */
  lemma {:induction false} SortItems<B>(s: seq<Entry<B>>)
    ensures multiset(Sort(s)) == multiset(s)
  {
    if s != [] {
      SortItems(s[1..]);
      InsertItems(s[0], Sort(s[1..]));
      assert s == [s[0]] + s[1..];
    }
  }

  lemma SortMembers<B>(s: seq<Entry<B>>)
    ensures |Sort(s)| == |s| && forall x :: x in Sort(s) <==> x in s
  {
    SortItems(s);
    assert |multiset(Sort(s))| == |multiset(s)|;
    assert forall x :: x in Sort(s) <==> x in multiset(Sort(s));
    assert forall x :: x in s <==> x in multiset(s);
  }

  /** What is packed are the eligible items, each as it renders. */
  lemma RankingMembers(render: Renderer, items: seq<Item>, e: Seen)
    ensures |Ranking(render, items)| == |Eligible(items)|
    ensures e in Ranking(render, items) <==> exists i :: i in items && EligibleItem(i) && e == See(render, i)
  {
    var seen := Sees(render, Eligible(items));
    SortMembers(seen);
    EligibleIsShorter(items);
    if e in seen {
      var k :| 0 <= k < |seen| && seen[k] == e;
      assert Eligible(items)[k] in Eligible(items);
    }
    if i :| i in items && EligibleItem(i) && e == See(render, i) {
      var k :| 0 <= k < |Eligible(items)| && Eligible(items)[k] == i;
      assert seen[k] == e;
    }
  }

  lemma RankingIsShort(render: Renderer, items: seq<Item>, l: Limits)
    requires Bounded(render, l)
    ensures AllShort(l, Ranking(render, items)) && |Ranking(render, items)| == |Eligible(items)|
  {
    forall e | e in Ranking(render, items) ensures Short(l, e) {
      RankingMembers(render, items, e);
    }
    SortMembers(Sees(render, Eligible(items)));
  }

  /** Item count, total bytes and bytes per item keep their limits; nothing is lost uncounted. */
  lemma ProjectionIsBounded(render: Renderer, items: seq<Item>, degraded: seq<string>, l: Limits)
    requires Bounded(render, l) && ProjectWith(render, items, degraded, l).Ok?
    ensures var o := ProjectWith(render, items, degraded, l).value;
      && |o.records| <= l.maxItems && Total(o.records) <= l.maxTotalBytes
      && (forall k | 0 <= k < |o.records| :: ByteLen(o.records[k].labelled) <= l.maxItemBytes)
      && |o.records| + o.omitted == |items|
  {
    RankingIsShort(render, items, l);
    PackKeepsLimits(l, Start(items), Ranking(render, items));
  }

  // -------------------------------------------------------------- maximality

  lemma TotalGrows(a: seq<Projected>, b: seq<Projected>)
    requires a <= b
    ensures Total(a) <= Total(b)
    decreases |b|
  {
    if |a| < |b| {
      TotalGrows(a, b[..|b| - 1]);
    } else {
      assert a == b;
    }
  }

  /** A record as the entry it was made of. */
  function Shown(r: Projected): Seen {
    Entry(r.meta, Ok(Labelled(r.labelled, r.truncated)))
  }

  function AllShown(records: seq<Projected>): (r: seq<Seen>)
    ensures |r| == |records| && forall k | 0 <= k < |r| :: r[k] == Shown(records[k])
  {
    seq(|records|, k requires 0 <= k < |records| => Shown(records[k]))
  }

  predicate Kept(records: seq<Projected>, e: Seen) {
    e in AllShown(records)
  }

  /** The entry found its place taken: the list is full, or it would exceed the total. */
  predicate NoRoom(l: Limits, records: seq<Projected>, e: Seen) {
    |records| == l.maxItems || (e.body.Ok? && Total(records) + ByteLen(e.body.value.text) > l.maxTotalBytes)
  }

  lemma NoRoomStays(l: Limits, a: seq<Projected>, b: seq<Projected>, e: Seen)
    requires a <= b && |b| <= l.maxItems && NoRoom(l, a, e)
    ensures NoRoom(l, b, e)
  {
    TotalGrows(a, b);
  }

  lemma KeptStays(a: seq<Projected>, b: seq<Projected>, e: Seen)
    requires a <= b && Kept(a, e)
    ensures Kept(b, e)
  {
    var k :| 0 <= k < |AllShown(a)| && AllShown(a)[k] == e;
    assert AllShown(b)[k] == e;
  }

  lemma PackOneDecides(l: Limits, p: Packed, e: Seen)
    requires Within(l, p) && PackOne(l, p, e).Ok?
    ensures var q := PackOne(l, p, e).value;
      Kept(q.kept, e) || (q.kept == p.kept && NoRoom(l, q.kept, e))
  {
    var q := PackOne(l, p, e).value;
    if |q.kept| > |p.kept| {
      assert AllShown(q.kept)[|p.kept|] == e;
    }
  }

  lemma {:induction false} PackIsMaximal(l: Limits, p: Packed, rest: seq<Seen>, e: Seen)
    requires AllShort(l, rest) && Within(l, p) && Pack(l, p, rest).Ok? && e in rest
    ensures var q := Pack(l, p, rest).value; Kept(q.kept, e) || NoRoom(l, q.kept, e)
    decreases |rest|
  {
    var next := PackOne(l, p, rest[0]).value;
    var q := Pack(l, p, rest).value;
    assert rest[0] in rest && forall x | x in rest[1..] :: x in rest;
    PackOneKeepsLimits(l, p, rest[0]);
    PackKeepsLimits(l, next, rest[1..]);
    if e == rest[0] {
      PackOneDecides(l, p, e);
      if Kept(next.kept, e) {
        KeptStays(next.kept, q.kept, e);
      } else {
        NoRoomStays(l, next.kept, q.kept, e);
      }
    } else {
      PackIsMaximal(l, next, rest[1..], e);
    }
  }

  /** No omitted eligible item could still be added within the limits. */
  lemma ProjectionIsMaximal(render: Renderer, items: seq<Item>, degraded: seq<string>, l: Limits, i: Item)
    requires Bounded(render, l) && ProjectWith(render, items, degraded, l).Ok? && i in items && EligibleItem(i)
    ensures var o := ProjectWith(render, items, degraded, l).value;
      Kept(o.records, See(render, i)) || NoRoom(l, o.records, See(render, i))
  {
    RankingMembers(render, items, See(render, i));
    RankingIsShort(render, items, l);
    PackIsMaximal(l, Start(items), Ranking(render, items), See(render, i));
  }

  // ----------------------------------------------------------------- ranking

  /** No later item belongs before an earlier one. */
  predicate Ranked<B(==)>(s: seq<Entry<B>>) {
    forall i, j {:trigger s[i], s[j]} | 0 <= i < j < |s| :: !Before(s[j], s[i])
  }

  /** The four keys of the ranking agree. */
  predicate Tied<B(==)>(a: Entry<B>, b: Entry<B>) {
    && AuthorityRank(a.meta.labels.authority) == AuthorityRank(b.meta.labels.authority)
    && a.meta.confidence == b.meta.confidence && a.meta.when.observed == b.meta.when.observed && a.meta.recordId == b.meta.recordId
  }

  lemma BeforeTransitive<B>(a: Entry<B>, b: Entry<B>, c: Entry<B>)
    requires Before(a, b) && Before(b, c)
    ensures Before(a, c)
  {
    if Order.Less(a.meta.recordId, b.meta.recordId) && Order.Less(b.meta.recordId, c.meta.recordId) {
      Order.LessTransitive(a.meta.recordId, b.meta.recordId, c.meta.recordId);
    }
  }

  lemma BeforeIrreflexive<B>(a: Entry<B>)
    ensures !Before(a, a)
  {
    Order.LessIrreflexive(a.meta.recordId);
  }

  /** The ranking leaves two items undecided exactly when all its keys agree. */
  lemma UndecidedIffTied<B>(a: Entry<B>, b: Entry<B>)
    ensures !Before(a, b) && !Before(b, a) <==> Tied(a, b)
  {
    Order.LessTotal(a.meta.recordId, b.meta.recordId);
    Order.LessIrreflexive(a.meta.recordId);
  }

  lemma NotBeforeTransitive<B>(a: Entry<B>, b: Entry<B>, c: Entry<B>)
    requires !Before(b, a) && !Before(c, b)
    ensures !Before(c, a)
  {
    if Before(c, a) {
      UndecidedIffTied(a, b);
      if Before(a, b) { BeforeTransitive(c, a, b); }
    }
  }

  /** Kept entries stand in the order of the ranking. */
  lemma {:induction false} PackKeepsRank(l: Limits, p: Packed, rest: seq<Seen>)
    requires Pack(l, p, rest).Ok? && Ranked(AllShown(p.kept) + rest)
    ensures Ranked(AllShown(Pack(l, p, rest).value.kept))
    decreases |rest|
  {
    if rest == [] {
      assert AllShown(p.kept) + rest == AllShown(p.kept);
    } else {
      var next := PackOne(l, p, rest[0]).value;
      assert Ranked(AllShown(next.kept) + rest[1..]) by {
        if next.kept == p.kept {
          RankedDrop(AllShown(p.kept), rest);
        } else {
          assert AllShown(next.kept) + rest[1..] == AllShown(p.kept) + rest;
        }
      }
      PackKeepsRank(l, next, rest[1..]);
    }
  }

  lemma RankedDrop<B>(a: seq<Entry<B>>, b: seq<Entry<B>>)
    requires Ranked(a + b) && b != []
    ensures Ranked(a + b[1..])
  {
    var s, r := a + b, a + b[1..];
    forall i, j | 0 <= i < j < |r| ensures !Before(r[j], r[i]) {
      assert r[i] == s[if i < |a| then i else i + 1] && r[j] == s[if j < |a| then j else j + 1];
    }
  }

  /** Records come out by authority, confidence, recency and id. */
  lemma ProjectionIsRanked(render: Renderer, items: seq<Item>, degraded: seq<string>, l: Limits)
    requires ProjectWith(render, items, degraded, l).Ok?
    ensures Ranked(AllShown(ProjectWith(render, items, degraded, l).value.records))
  {
    SortRanks(Sees(render, Eligible(items)));
    assert AllShown([]) + Ranking(render, items) == Ranking(render, items);
    PackKeepsRank(l, Start(items), Ranking(render, items));
  }

  lemma {:induction false} PackKeepsTexts(l: Limits, p: Packed, rest: seq<Seen>, r: Projected)
    requires Pack(l, p, rest).Ok? && r in Pack(l, p, rest).value.kept && r !in p.kept
    ensures Shown(r) in rest
    decreases |rest|
  {
    if rest != [] {
      var next := PackOne(l, p, rest[0]).value;
      if r in next.kept {
        assert Shown(r) == rest[0];
      } else {
        PackKeepsTexts(l, next, rest[1..], r);
      }
    }
  }

  /** Each record carries the metadata of some eligible item with the text and the truncation flag
      of that item. */
  lemma ProjectionIsRendered(render: Renderer, items: seq<Item>, degraded: seq<string>, l: Limits, r: Projected)
    returns (i: Item)
    requires ProjectWith(render, items, degraded, l).Ok? && r in ProjectWith(render, items, degraded, l).value.records
    ensures i in items && EligibleItem(i) && Shown(r) == See(render, i)
  {
    PackKeepsTexts(l, Start(items), Ranking(render, items), r);
    RankingMembers(render, items, Shown(r));
    i :| i in items && EligibleItem(i) && Shown(r) == See(render, i);
  }

  lemma RankedCons<B>(x: Entry<B>, s: seq<Entry<B>>)
    requires Ranked(s) && forall y {:trigger y in s} | y in s :: !Before(y, x)
    ensures Ranked([x] + s)
  {
    var r := [x] + s;
    forall i, j | 0 <= i < j < |r| ensures !Before(r[j], r[i]) {
      assert r[j] == s[j - 1] && r[j] in s;
      assert i > 0 ==> r[i] == s[i - 1];
    }
  }

  lemma HeadIsFirst<B>(s: seq<Entry<B>>, y: Entry<B>)
    requires Ranked(s) && y in s
    ensures !Before(y, s[0])
  {
    BeforeIrreflexive(y);
    var k :| 0 <= k < |s| && s[k] == y;
  }

  lemma TailIsRanked<B>(s: seq<Entry<B>>)
    requires Ranked(s) && s != []
    ensures Ranked(s[1..])
  {
  }

  lemma InsertMembers<B>(x: Entry<B>, s: seq<Entry<B>>, y: Entry<B>)
    ensures y in Insert(x, s) <==> y == x || y in s
  {
    InsertItems(x, s);
    assert y in multiset(Insert(x, s)) <==> y == x || y in multiset(s);
  }

  lemma {:induction false} InsertRanks<B>(x: Entry<B>, s: seq<Entry<B>>)
    requires Ranked(s)
    ensures Ranked(Insert(x, s))
  {
    if s == [] {
    } else if !Before(s[0], x) {
      forall y | y in s ensures !Before(y, x) {
        HeadIsFirst(s, y);
        NotBeforeTransitive(x, s[0], y);
      }
      RankedCons(x, s);
    } else {
      TailIsRanked(s);
      InsertRanks(x, s[1..]);
      forall y | y in Insert(x, s[1..]) ensures !Before(y, s[0]) {
        InsertMembers(x, s[1..], y);
        if y == x {
          if Before(x, s[0]) { BeforeTransitive(x, s[0], x); BeforeIrreflexive(x); }
        } else {
          HeadIsFirst(s, y);
        }
      }
      RankedCons(s[0], Insert(x, s[1..]));
    }
  }

  lemma {:induction false} SortRanks<B>(s: seq<Entry<B>>)
    ensures Ranked(Sort(s))
  {
    if s != [] {
      SortRanks(s[1..]);
      InsertRanks(s[0], Sort(s[1..]));
    }
  }
}
