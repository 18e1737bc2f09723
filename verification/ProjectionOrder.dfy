/** When the order in which memory was recalled can be seen in the projection. */
module ProjectionOrder {
  import opened Text
  import opened Projection
  import opened ProjectionRuns
  import Order

  predicate Permuted<B(==)>(a: seq<Entry<B>>, b: seq<Entry<B>>) {
    multiset(a) == multiset(b)
  }

  // -------------------------------------------------------------------- ties

  /** The ranking tells any two different items apart. */
  predicate NoTies<B(==)>(s: seq<Entry<B>>) {
    forall x, y {:trigger Tied(x, y)} | x in s && y in s && Tied(x, y) :: x == y
  }

  lemma SameItems<B>(a: seq<Entry<B>>, b: seq<Entry<B>>)
    requires Permuted(a, b)
    ensures |a| == |b| && forall y :: y in a <==> y in b
  {
    assert |multiset(a)| == |multiset(b)|;
    assert forall y :: y in a <==> y in multiset(a);
    assert forall y :: y in b <==> y in multiset(b);
  }

  lemma CancelOne<B>(x: Entry<B>, a: seq<Entry<B>>, b: seq<Entry<B>>)
    requires multiset{x} + multiset(a) == multiset{x} + multiset(b)
    ensures Permuted(a, b)
  {
    assert multiset(a) == multiset{x} + multiset(a) - multiset{x};
    assert multiset(b) == multiset{x} + multiset(b) - multiset{x};
  }

  lemma TailsPermuted<B>(a: seq<Entry<B>>, b: seq<Entry<B>>)
    requires Permuted(a, b) && a != [] && b != [] && a[0] == b[0]
    ensures Permuted(a[1..], b[1..])
  {
    assert a == [a[0]] + a[1..] && b == [b[0]] + b[1..];
    CancelOne(a[0], a[1..], b[1..]);
  }

  lemma RankedHeads<B>(a: seq<Entry<B>>, b: seq<Entry<B>>)
    requires Ranked(a) && Ranked(b) && Permuted(a, b) && NoTies(a) && a != []
    ensures b != [] && a[0] == b[0]
  {
    SameItems(a, b);
    assert a[0] in b && b[0] in a;
    HeadIsFirst(a, b[0]);
    HeadIsFirst(b, a[0]);
    UndecidedIffTied(a[0], b[0]);
  }

  lemma {:induction false} RankedUnique<B>(a: seq<Entry<B>>, b: seq<Entry<B>>)
    requires Ranked(a) && Ranked(b) && Permuted(a, b) && NoTies(a)
    ensures a == b
  {
    SameItems(a, b);
    if a != [] {
      RankedHeads(a, b);
      TailsPermuted(a, b);
      TailIsRanked(a);
      TailIsRanked(b);
      assert forall y | y in a[1..] :: y in a;
      RankedUnique(a[1..], b[1..]);
    }
  }

  lemma NoTiesPermuted<B>(a: seq<Entry<B>>, b: seq<Entry<B>>)
    requires Permuted(a, b) && NoTies(a)
    ensures NoTies(b)
  {
    SameItems(a, b);
    forall x, y | x in b && y in b && Tied(x, y) ensures x == y {
      assert x in a && y in a;
    }
  }

  lemma SortIgnoresOrder<B>(a: seq<Entry<B>>, b: seq<Entry<B>>)
    requires Permuted(a, b) && NoTies(a)
    ensures Sort(a) == Sort(b)
  {
    SortRanks(a);
    SortRanks(b);
    SortItems(a);
    SortItems(b);
    NoTiesPermuted(a, Sort(a));
    RankedUnique(Sort(a), Sort(b));
  }

  /** The sort is stable, so of two tied items the one recalled first comes out first. */
  lemma {:induction false} InsertKeepsTies<B>(x: Entry<B>, y: Entry<B>, s: seq<Entry<B>>)
    requires Tied(x, y) && x != y
    ensures Insert(x, Insert(y, s)) != Insert(y, Insert(x, s))
  {
    UndecidedIffTied(x, y);
    if s == [] || !Before(s[0], x) {
      assert s != [] ==> !Before(s[0], y);
      assert Insert(x, [y] + s)[0] == x && Insert(y, [x] + s)[0] == y;
    } else {
      InsertKeepsTies(x, y, s[1..]);
      InsertPast(x, y, s);
      InsertPast(y, x, s);
      SameTail(s[0], Insert(x, Insert(y, s[1..])), Insert(y, Insert(x, s[1..])));
    }
  }

  lemma SameTail<B>(x: Entry<B>, a: seq<Entry<B>>, b: seq<Entry<B>>)
    ensures [x] + a == [x] + b ==> a == b
  {
    assert ([x] + a)[1..] == a && ([x] + b)[1..] == b;
  }

  lemma InsertPast<B>(x: Entry<B>, y: Entry<B>, s: seq<Entry<B>>)
    requires s != [] && Before(s[0], x) && Before(s[0], y)
    ensures Insert(x, Insert(y, s)) == [s[0]] + Insert(x, Insert(y, s[1..]))
  {
    var r := [s[0]] + Insert(y, s[1..]);
    assert r[1..] == Insert(y, s[1..]);
    assert Insert(x, r) == [r[0]] + Insert(x, r[1..]);
  }

  function Remove<B(==)>(x: Entry<B>, s: seq<Entry<B>>): (r: seq<Entry<B>>)
    requires x in s
    ensures multiset(r) + multiset{x} == multiset(s)
  {
    assert s == [s[0]] + s[1..];
    if s[0] == x then s[1..] else [s[0]] + Remove(x, s[1..])
  }

  lemma RemoveKeepsOthers<B>(x: Entry<B>, s: seq<Entry<B>>, y: Entry<B>)
    requires x in s && y in s && x != y
    ensures y in Remove(x, s)
  {
    assert (multiset(Remove(x, s)) + multiset{x})[y] == multiset(s)[y];
  }

  /** Two items brought to the front. */
  function Front<B(==)>(x: Entry<B>, y: Entry<B>, rest: seq<Entry<B>>): seq<Entry<B>> {
    [x] + ([y] + rest)
  }

  lemma FrontItems<B>(x: Entry<B>, y: Entry<B>, rest: seq<Entry<B>>)
    ensures multiset(Front(x, y, rest)) == multiset{x} + (multiset{y} + multiset(rest))
  {
  }

  lemma BringForward<B>(x: Entry<B>, y: Entry<B>, s: seq<Entry<B>>) returns (rest: seq<Entry<B>>)
    requires x in s && y in s && x != y
    ensures Permuted(s, Front(x, y, rest)) && Permuted(s, Front(y, x, rest))
  {
    RemoveKeepsOthers(x, s, y);
    rest := Remove(y, Remove(x, s));
    FrontItems(x, y, rest);
    FrontItems(y, x, rest);
  }

  lemma FrontTail<B>(x: Entry<B>, y: Entry<B>, rest: seq<Entry<B>>)
    ensures var f := Front(x, y, rest); f[0] == x && f[1..][0] == y && f[1..][1..] == rest
  {
  }

  lemma TiesShow<B>(x: Entry<B>, y: Entry<B>, rest: seq<Entry<B>>)
    requires Tied(x, y) && x != y
    ensures Sort(Front(x, y, rest)) != Sort(Front(y, x, rest))
  {
    SortFront(x, y, rest);
    SortFront(y, x, rest);
    InsertKeepsTies(x, y, Sort(rest));
  }

  lemma SortFront<B>(x: Entry<B>, y: Entry<B>, rest: seq<Entry<B>>)
    ensures Sort(Front(x, y, rest)) == Insert(x, Insert(y, Sort(rest)))
  {
    FrontTail(x, y, rest);
    var f := Front(x, y, rest);
    assert Sort(f) == Insert(x, Sort(f[1..]));
  }

  ghost predicate SortIsFixed<B(!new)>(a: seq<Entry<B>>) {
    forall b {:trigger Permuted(a, b)} | Permuted(a, b) :: Sort(a) == Sort(b)
  }

  /** The sorted list is the same for every recall order exactly when nothing ties. */
  lemma SortIsFixedIff<B(!new)>(a: seq<Entry<B>>)
    ensures SortIsFixed(a) <==> NoTies(a)
  {
    if NoTies(a) {
      forall b | Permuted(a, b) ensures Sort(a) == Sort(b) { SortIgnoresOrder(a, b); }
    } else {
      var x, y :| x in a && y in a && Tied(x, y) && x != y;
      var rest := BringForward(x, y, a);
      TiesShow(x, y, rest);
    }
  }

  // ------------------------------------------------------------------ faults

  lemma {:induction false} FirstFaultIsOne<B>(items: seq<Entry<B>>)
    ensures FirstFault(items).None? <==> forall x | x in items :: ValidItem(x)
    ensures FirstFault(items).Some? ==> exists x :: x in items && FaultOf(x) == FirstFault(items)
  {
    if items != [] {
      FirstFaultIsOne(items[1..]);
      assert items == [items[0]] + items[1..];
      assert items[0] in items;
    }
  }

  /** All invalid items fail the same check first. */
  predicate OneFault<B(==)>(items: seq<Entry<B>>) {
    forall x, y {:trigger x in items, y in items} | x in items && y in items ::
      FaultOf(x).Some? && FaultOf(y).Some? ==> FaultOf(x) == FaultOf(y)
  }

  ghost predicate FaultIsFixed<B(!new)>(a: seq<Entry<B>>) {
    forall b {:trigger Permuted(a, b)} | Permuted(a, b) :: FirstFault(a) == FirstFault(b)
  }

  lemma FaultIgnoresOrder<B>(a: seq<Entry<B>>, b: seq<Entry<B>>)
    requires Permuted(a, b) && OneFault(a)
    ensures FirstFault(a) == FirstFault(b)
  {
    SameItems(a, b);
    FirstFaultIsOne(a);
    FirstFaultIsOne(b);
  }

  lemma FaultIsFixedIff<B(!new)>(a: seq<Entry<B>>)
    ensures FaultIsFixed(a) <==> OneFault(a)
  {
    if OneFault(a) {
      forall b | Permuted(a, b) ensures FirstFault(a) == FirstFault(b) { FaultIgnoresOrder(a, b); }
    } else {
      var x, y :| x in a && y in a && FaultOf(x).Some? && FaultOf(y).Some? && FaultOf(x) != FaultOf(y);
      var rest := BringForward(x, y, a);
      assert FirstFault(Front(x, y, rest)) == FaultOf(x) && FirstFault(Front(y, x, rest)) == FaultOf(y);
    }
  }

  // ---------------------------------------------------------- the projection

  function Chosen<B(==)>(x: Entry<B>): multiset<Entry<B>> {
    if EligibleItem(x) then multiset{x} else multiset{}
  }

  lemma EligibleCons<B>(x: Entry<B>, s: seq<Entry<B>>)
    ensures multiset(Eligible([x] + s)) == Chosen(x) + multiset(Eligible(s))
  {
    assert ([x] + s)[1..] == s;
  }

  lemma {:induction false} EligibleWithout<B>(s: seq<Entry<B>>, x: Entry<B>)
    requires x in s
    ensures multiset(Eligible(s)) == Chosen(x) + multiset(Eligible(Remove(x, s)))
  {
    assert s == [s[0]] + s[1..];
    EligibleCons(s[0], s[1..]);
    if s[0] != x {
      EligibleWithout(s[1..], x);
      EligibleCons(s[0], Remove(x, s[1..]));
    }
  }

  lemma {:induction false} EligiblePermuted<B>(a: seq<Entry<B>>, b: seq<Entry<B>>)
    requires Permuted(a, b)
    ensures Permuted(Eligible(a), Eligible(b)) && |a| == |b| && |Eligible(a)| == |Eligible(b)|
  {
    SameItems(a, b);
    if a != [] {
      var x, rest := a[0], a[1..];
      assert a == [x] + rest;
      assert x in a;
      CancelOne(x, rest, Remove(x, b));
      EligiblePermuted(rest, Remove(x, b));
      EligibleWithout(b, x);
      EligibleCons(x, rest);
    }
    SameItems(Eligible(a), Eligible(b));
  }

  lemma SeesWithout(render: Renderer, s: seq<Item>, x: Item)
    requires x in s
    ensures multiset(Sees(render, s)) == multiset{See(render, x)} + multiset(Sees(render, Remove(x, s)))
  {
    assert Sees(render, s) == [See(render, s[0])] + Sees(render, s[1..]);
    if s[0] != x {
      SeesWithout(render, s[1..], x);
      var r := Remove(x, s);
      assert r[0] == s[0] && r[1..] == Remove(x, s[1..]);
      assert Sees(render, r) == [See(render, s[0])] + Sees(render, Remove(x, s[1..]));
    }
  }

  /** The same items are seen alike in any order. */
  lemma {:induction false} SeesPermuted(render: Renderer, a: seq<Item>, b: seq<Item>)
    requires Permuted(a, b)
    ensures Permuted(Sees(render, a), Sees(render, b))
  {
    SameItems(a, b);
    if a != [] {
      var x, rest := a[0], a[1..];
      assert a == [x] + rest;
      assert x in a;
      CancelOne(x, rest, Remove(x, b));
      SeesPermuted(render, rest, Remove(x, b));
      SeesWithout(render, b, x);
      assert Sees(render, a) == [See(render, x)] + Sees(render, rest);
    }
  }

  lemma RankingIgnoresOrder(render: Renderer, a: seq<Item>, b: seq<Item>)
    requires Permuted(a, b) && NoTies(Sees(render, Eligible(a)))
    ensures Ranking(render, a) == Ranking(render, b) && Start(a) == Start(b)
  {
    EligiblePermuted(a, b);
    SeesPermuted(render, Eligible(a), Eligible(b));
    SortIgnoresOrder(Sees(render, Eligible(a)), Sees(render, Eligible(b)));
  }

  /** When eligible items that tie are seen alike, two recalls of the same items and degraded
      sources project alike exactly when their first invalid items, if any, fail the same check. */
  lemma ProjectionIgnoresOrder(
      render: Renderer, a: seq<Item>, b: seq<Item>, da: seq<string>, db: seq<string>, l: Limits)
    requires Permuted(a, b) && NoTies(Sees(render, Eligible(a))) && forall s :: s in da <==> s in db
    ensures ProjectWith(render, a, da, l) == ProjectWith(render, b, db, l)
      <==> !ValidLimits(l) || FirstFault(a) == FirstFault(b)
  {
    RankingIgnoresOrder(render, a, b);
    Order.NormalizeSameSet(da, db);
    SameItems(a, b);
    FirstFaultIsOne(a);
    FirstFaultIsOne(b);
  }
}
