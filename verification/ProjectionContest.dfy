/** Exactly when recall order shows in the outcome of a projection, its limits included. */
module ProjectionContest {
  import opened Text
  import opened Projection
  import opened ProjectionRuns
  import opened ProjectionOrder

  // ------------------------------------------------ what an item does in turn

  /** The item would end the packing or take a place: there is one, and the item does not render
      or fits the bytes left. */
  predicate Decides(l: Limits, p: Packed, x: Seen) {
    |p.kept| != l.maxItems && (x.body.Err? || p.used + ByteLen(x.body.value.text) <= l.maxTotalBytes)
  }

  /** Any other item only adds to the count of omitted ones. */
  function Omit(p: Packed): Packed { p.(omitted := p.omitted + 1) }

  lemma UndecidedIsOmitted(l: Limits, p: Packed, x: Seen)
    requires !Decides(l, p, x)
    ensures PackOne(l, p, x) == Ok(Omit(p))
  {
  }

  lemma UndecidedStays(l: Limits, p: Packed, x: Seen, y: Seen)
    requires !Decides(l, p, x) && PackOne(l, p, y).Ok?
    ensures !Decides(l, PackOne(l, p, y).value, x)
  {
  }

  lemma OmittingCommutes(l: Limits, p: Packed, y: Seen)
    ensures var r := PackOne(l, p, y);
      PackOne(l, Omit(p), y) == if r.Ok? then Ok(Omit(r.value)) else r
  {
  }

  lemma PackCons(l: Limits, p: Packed, x: Seen, s: seq<Seen>)
    ensures var r := PackOne(l, p, x);
      Pack(l, p, [x] + s) == if r.Ok? then Pack(l, r.value, s) else r
  {
    assert ([x] + s)[1..] == s;
  }

  /** An item that decides nothing is omitted wherever it stands. */
  lemma {:induction false} UndecidedAnywhere(l: Limits, p: Packed, x: Seen, s: seq<Seen>)
    requires x in s && !Decides(l, p, x)
    ensures Pack(l, p, s) == Pack(l, Omit(p), Remove(x, s))
    decreases |s|
  {
    UndecidedIsOmitted(l, p, x);
    if s[0] != x {
      var y, rest := s[0], s[1..];
      assert x in rest;
      PackCons(l, Omit(p), y, Remove(x, rest));
      OmittingCommutes(l, p, y);
      if PackOne(l, p, y).Ok? {
        UndecidedStays(l, p, x, y);
        UndecidedAnywhere(l, PackOne(l, p, y).value, x, rest);
      }
    }
  }

  /** Every item in front of the first `x`. */
  predicate OnlyUndecidedBefore(l: Limits, p: Packed, x: Seen, s: seq<Seen>) {
    s != [] && s[0] != x ==> !Decides(l, p, s[0]) && OnlyUndecidedBefore(l, p, x, s[1..])
  }

  lemma {:induction false} OmittedChangesNothing(l: Limits, p: Packed, x: Seen, s: seq<Seen>)
    requires OnlyUndecidedBefore(l, p, x, s)
    ensures OnlyUndecidedBefore(l, Omit(p), x, s)
    decreases |s|
  {
    if s != [] && s[0] != x { OmittedChangesNothing(l, p, x, s[1..]); }
  }

  /** An item may be pulled in front of items that decide nothing. */
  lemma {:induction false} PullForward(l: Limits, p: Packed, x: Seen, s: seq<Seen>)
    requires x in s && OnlyUndecidedBefore(l, p, x, s)
    ensures Pack(l, p, s) == Pack(l, p, [x] + Remove(x, s))
    decreases |s|
  {
    if s[0] == x {
      assert s == [x] + s[1..];
    } else {
      var w, rest := s[0], s[1..];
      assert x in rest;
      UndecidedIsOmitted(l, p, w);
      OmittedChangesNothing(l, p, x, rest);
      PullForward(l, Omit(p), x, rest);
      PackCons(l, Omit(p), x, Remove(x, rest));
      OmittingCommutes(l, p, x);
      PackCons(l, p, x, [w] + Remove(x, rest));
      if PackOne(l, p, x).Ok? {
        var q := PackOne(l, p, x).value;
        UndecidedStays(l, p, w, x);
        UndecidedIsOmitted(l, q, w);
        PackCons(l, q, w, Remove(x, rest));
      }
    }
  }

  // ------------------------------------------------------------- no contest

  /** No other item in `s` ties with `x` and would decide in its stead. */
  predicate Uncontested(l: Limits, p: Packed, x: Seen, s: seq<Seen>) {
    forall y {:trigger y in s} | y in s && Tied(x, y) && Decides(l, p, y) :: y == x
  }

  /** Along the packing of `s` each deciding item is uncontested when its turn comes. */
  predicate NoContest(l: Limits, p: Packed, s: seq<Seen>)
    decreases |s|
  {
    s == [] || (
      && (Decides(l, p, s[0]) ==> Uncontested(l, p, s[0], s))
      && (PackOne(l, p, s[0]).Ok? ==> NoContest(l, PackOne(l, p, s[0]).value, s[1..])))
  }

  /** What stands before `x` in another ranked order of the items ties with `x`. */
  lemma {:induction false} UncontestedComesFirst(
      l: Limits, p: Packed, x: Seen, s: seq<Seen>, t: seq<Seen>)
    requires Ranked(t) && x in t && Uncontested(l, p, x, s)
    requires forall y {:trigger y in t} | y in t :: y in s && !Before(y, x)
    ensures OnlyUndecidedBefore(l, p, x, t)
    decreases |t|
  {
    if t[0] != x {
      assert t[0] in t;
      HeadIsFirst(t, x);
      UndecidedIffTied(x, t[0]);
      assert x in t[1..];
      TailIsRanked(t);
      assert forall y | y in t[1..] :: y in t;
      UncontestedComesFirst(l, p, x, s, t[1..]);
    }
  }

  lemma RemoveRanked(x: Seen, s: seq<Seen>)
    requires Ranked(s) && x in s
    ensures Ranked(Remove(x, s))
  {
    if s[0] == x {
      TailIsRanked(s);
    } else {
      TailIsRanked(s);
      RemoveRanked(x, s[1..]);
      forall y | y in Remove(x, s[1..]) ensures !Before(y, s[0]) {
        RemoveMembers(x, s[1..], y);
        HeadIsFirst(s, y);
      }
      RankedCons(s[0], Remove(x, s[1..]));
    }
  }

  lemma RemoveMembers(x: Seen, s: seq<Seen>, y: Seen)
    requires x in s && y in Remove(x, s)
    ensures y in s
  {
    assert y in multiset(Remove(x, s)) + multiset{x};
  }

  lemma RemovePermuted(s: seq<Seen>, t: seq<Seen>)
    requires Permuted(s, t) && s != []
    ensures s[0] in t && Permuted(s[1..], Remove(s[0], t)) && |Remove(s[0], t)| == |s| - 1
  {
    SameItems(s, t);
    assert s == [s[0]] + s[1..];
    assert s[0] in s;
    CancelOne(s[0], s[1..], Remove(s[0], t));
    SameItems(s[1..], Remove(s[0], t));
  }

  /** Without a contest every ranked order of the items packs alike. */
  lemma {:induction false} NoContestIsFixed(l: Limits, p: Packed, s: seq<Seen>, t: seq<Seen>)
    requires Ranked(s) && Ranked(t) && Permuted(s, t) && NoContest(l, p, s)
    ensures Pack(l, p, s) == Pack(l, p, t)
    decreases |s|
  {
    if s == [] {
      SameItems(s, t);
    } else {
      SameItems(s, t);
      RemovePermuted(s, t);
      var x, rest := s[0], Remove(s[0], t);
      RemoveRanked(x, t);
      TailIsRanked(s);
      if Decides(l, p, x) {
        forall y | y in t ensures y in s && !Before(y, x) { HeadIsFirst(s, y); }
        UncontestedComesFirst(l, p, x, s, t);
        PullForward(l, p, x, t);
        PackCons(l, p, x, rest);
        if PackOne(l, p, x).Ok? {
          NoContestIsFixed(l, PackOne(l, p, x).value, s[1..], rest);
        }
      } else {
        UndecidedIsOmitted(l, p, x);
        UndecidedAnywhere(l, p, x, t);
        NoContestIsFixed(l, Omit(p), s[1..], rest);
      }
    }
  }

  // --------------------------------------------------------------- contests

  lemma {:induction false} PackExtends(l: Limits, p: Packed, s: seq<Seen>)
    requires Pack(l, p, s).Ok?
    ensures p.kept <= Pack(l, p, s).value.kept
    decreases |s|
  {
    if s != [] { PackExtends(l, PackOne(l, p, s[0]).value, s[1..]); }
  }

  /** An item that decides and packs is the next record. */
  lemma DeciderIsNext(l: Limits, p: Packed, x: Seen, s: seq<Seen>)
    requires Decides(l, p, x) && Pack(l, p, [x] + s).Ok?
    ensures var kept := Pack(l, p, [x] + s).value.kept; |kept| > |p.kept| && Shown(kept[|p.kept|]) == x
  {
    PackCons(l, p, x, s);
    var q := PackOne(l, p, x).value;
    PackExtends(l, q, s);
    assert Shown(q.kept[|p.kept|]) == x;
  }

  /** What a caller can see of two packings differs. */
  predicate Differ(a: Result<Packed, Error>, b: Result<Packed, Error>) {
    a.Ok? != b.Ok? || (a.Ok? && a.value.kept != b.value.kept)
  }

  lemma SwapShows(l: Limits, p: Packed, s: seq<Seen>, y: Seen)
    requires s != [] && Pack(l, p, s).Ok? && y in s && y != s[0]
    requires Decides(l, p, s[0]) && Decides(l, p, y)
    ensures Differ(Pack(l, p, s), Pack(l, p, [y] + Remove(y, s)))
  {
    var x, t := s[0], [y] + Remove(y, s);
    assert s == [x] + s[1..];
    DeciderIsNext(l, p, x, s[1..]);
    if Pack(l, p, t).Ok? { DeciderIsNext(l, p, y, Remove(y, s)); }
  }

  lemma SwapIsRanked(s: seq<Seen>, y: Seen)
    requires Ranked(s) && y in s && Tied(s[0], y)
    ensures Ranked([y] + Remove(y, s)) && Permuted(s, [y] + Remove(y, s))
  {
    RemoveRanked(y, s);
    UndecidedIffTied(s[0], y);
    forall z | z in Remove(y, s) ensures !Before(z, y) {
      RemoveMembers(y, s, z);
      HeadIsFirst(s, z);
      NotBeforeTransitive(y, s[0], z);
    }
    RankedCons(y, Remove(y, s));
  }

  lemma TailPermuted(x: Seen, s: seq<Seen>, t: seq<Seen>)
    requires Ranked([x] + s) && Ranked(t) && Permuted(s, t)
    ensures Ranked([x] + t) && Permuted([x] + s, [x] + t)
  {
    SameItems(s, t);
    forall y | y in t ensures !Before(y, x) {
      assert y in [x] + s;
      HeadIsFirst([x] + s, y);
    }
    RankedCons(x, t);
  }

  /** With a contest some other ranked order packs differently. */
  lemma {:induction false} ContestShows(l: Limits, p: Packed, s: seq<Seen>) returns (t: seq<Seen>)
    requires Ranked(s) && !NoContest(l, p, s) && Pack(l, p, s).Ok?
    ensures Ranked(t) && Permuted(s, t) && Differ(Pack(l, p, s), Pack(l, p, t))
    decreases |s|
  {
    if Decides(l, p, s[0]) && !Uncontested(l, p, s[0], s) {
      var y :| y in s && Tied(s[0], y) && Decides(l, p, y) && y != s[0];
      t := [y] + Remove(y, s);
      SwapIsRanked(s, y);
      SwapShows(l, p, s, y);
    } else {
      TailIsRanked(s);
      var rest := ContestShows(l, PackOne(l, p, s[0]).value, s[1..]);
      assert s == [s[0]] + s[1..];
      TailPermuted(s[0], s[1..], rest);
      PackCons(l, p, s[0], rest);
      t := [s[0]] + rest;
    }
  }

  // ------------------------------------------------------- labels too large

  predicate Full(l: Limits, r: Result<Packed, Error>) {
    r.Ok? && |r.value.kept| == l.maxItems
  }

  /** The first entry that does not render. */
  function FirstFailing(s: seq<Seen>): Option<Seen> {
    if s == [] then None else if s[0].body.Err? then Some(s[0]) else FirstFailing(s[1..])
  }

  /** The entry renders and is not ranked after `z`. */
  predicate InPlay(z: Seen, e: Seen) {
    e.body.Ok? && !Before(z, e)
  }

  function Candidates(z: Seen, s: seq<Seen>): seq<Seen> {
    if s == [] then [] else (if InPlay(z, s[0]) then [s[0]] else []) + Candidates(z, s[1..])
  }

  function OutOfPlay(z: Seen, s: seq<Seen>): seq<Seen> {
    if s == [] then [] else (if InPlay(z, s[0]) then [] else [s[0]]) + OutOfPlay(z, s[1..])
  }

  /** Some ranked order of the entries that render and are not ranked after the first failing one
      fills the list. */
  ghost predicate CanFill(l: Limits, p: Packed, s: seq<Seen>) {
    FirstFailing(s).Some? && FillsFrom(l, p, Candidates(FirstFailing(s).value, s))
  }

  ghost predicate FillsFrom(l: Limits, p: Packed, c: seq<Seen>) {
    exists t {:trigger Permuted(c, t)} :: Ranked(t) && Permuted(c, t) && Full(l, Pack(l, p, t))
  }

  // ---- splitting

  lemma CandidatesCons(z: Seen, x: Seen, s: seq<Seen>)
    ensures Candidates(z, [x] + s) == if InPlay(z, x) then [x] + Candidates(z, s) else Candidates(z, s)
    ensures OutOfPlay(z, [x] + s) == if InPlay(z, x) then OutOfPlay(z, s) else [x] + OutOfPlay(z, s)
  {
    assert ([x] + s)[1..] == s;
  }

  /** A list in two parts stays in two parts when one of them and the list get the same item. */
  lemma PartsCons<B>(x: Entry<B>, a: seq<Entry<B>>, b: seq<Entry<B>>, s: seq<Entry<B>>)
    requires multiset(a) + multiset(b) == multiset(s)
    ensures multiset([x] + a) + multiset(b) == multiset([x] + s)
    ensures multiset(a) + multiset([x] + b) == multiset([x] + s)
  {
    ItemsCons(x, a);
    ItemsCons(x, b);
    ItemsCons(x, s);
  }

  lemma ItemsCons<B>(x: Entry<B>, s: seq<Entry<B>>)
    ensures multiset([x] + s) == multiset{x} + multiset(s)
  {
  }

  lemma {:induction false} PlaySplits(z: Seen, s: seq<Seen>)
    ensures multiset(Candidates(z, s)) + multiset(OutOfPlay(z, s)) == multiset(s)
  {
    if s != [] {
      var rest := s[1..];
      PlaySplits(z, rest);
      CandidatesCons(z, s[0], rest);
      PartsCons(s[0], Candidates(z, rest), OutOfPlay(z, rest), rest);
      assert s == [s[0]] + rest;
    }
  }

  lemma {:induction false} CandidatesWithout(z: Seen, s: seq<Seen>, x: Seen)
    requires x in s
    ensures multiset(Candidates(z, s)) ==
      (if InPlay(z, x) then multiset{x} else multiset{}) + multiset(Candidates(z, Remove(x, s)))
  {
    assert s == [s[0]] + s[1..];
    CandidatesCons(z, s[0], s[1..]);
    if s[0] != x {
      CandidatesWithout(z, s[1..], x);
      CandidatesCons(z, s[0], Remove(x, s[1..]));
    }
  }

  lemma {:induction false} CandidatesPermuted(z: Seen, a: seq<Seen>, b: seq<Seen>)
    requires Permuted(a, b)
    ensures Permuted(Candidates(z, a), Candidates(z, b))
  {
    SameItems(a, b);
    if a != [] {
      assert a == [a[0]] + a[1..];
      RemovePermuted(a, b);
      CandidatesPermuted(z, a[1..], Remove(a[0], b));
      CandidatesWithout(z, b, a[0]);
      CandidatesCons(z, a[0], a[1..]);
    }
  }

  lemma {:induction false} PlayMembers(z: Seen, s: seq<Seen>, e: Seen)
    ensures e in Candidates(z, s) <==> e in s && InPlay(z, e)
    ensures e in OutOfPlay(z, s) <==> e in s && !InPlay(z, e)
  {
    if s != [] {
      PlayMembers(z, s[1..], e);
      CandidatesCons(z, s[0], s[1..]);
      assert s == [s[0]] + s[1..];
    }
  }

  lemma {:induction false} PlayIsRanked(z: Seen, s: seq<Seen>)
    requires Ranked(s)
    ensures Ranked(Candidates(z, s)) && Ranked(OutOfPlay(z, s))
  {
    if s != [] {
      TailIsRanked(s);
      PlayIsRanked(z, s[1..]);
      CandidatesCons(z, s[0], s[1..]);
      assert s == [s[0]] + s[1..];
      forall y | y in Candidates(z, s[1..]) || y in OutOfPlay(z, s[1..]) ensures !Before(y, s[0]) {
        PlayMembers(z, s[1..], y);
        HeadIsFirst(s, y);
      }
      if InPlay(z, s[0]) {
        RankedCons(s[0], Candidates(z, s[1..]));
      } else {
        RankedCons(s[0], OutOfPlay(z, s[1..]));
      }
    }
  }

  // ---- packing

  lemma {:induction false} PackJoin(l: Limits, p: Packed, a: seq<Seen>, b: seq<Seen>)
    ensures var r := Pack(l, p, a); Pack(l, p, a + b) == if r.Ok? then Pack(l, r.value, b) else r
    decreases |a|
  {
    if a == [] {
      assert a + b == b;
    } else {
      assert (a + b)[1..] == a[1..] + b;
      if PackOne(l, p, a[0]).Ok? { PackJoin(l, PackOne(l, p, a[0]).value, a[1..], b); }
    }
  }

  lemma {:induction false} FullStaysFull(l: Limits, p: Packed, s: seq<Seen>)
    requires |p.kept| == l.maxItems
    ensures Pack(l, p, s).Ok? && Pack(l, p, s).value.kept == p.kept
    decreases |s|
  {
    if s != [] { FullStaysFull(l, Omit(p), s[1..]); }
  }

  /** An order that packs although `z` fails has filled the list with candidates before it. */
  lemma {:induction false} PackedMeansFilled(l: Limits, p: Packed, u: seq<Seen>, z: Seen)
    requires Ranked(u) && z in u && z.body.Err? && Pack(l, p, u).Ok?
    ensures Full(l, Pack(l, p, Candidates(z, u)))
    decreases |u|
  {
    if |p.kept| == l.maxItems {
      FullStaysFull(l, p, Candidates(z, u));
    } else {
      var w := u[0];
      assert w != z && z in u[1..];
      HeadIsFirst(u, z);
      TailIsRanked(u);
      assert u == [w] + u[1..];
      CandidatesCons(z, w, u[1..]);
      PackedMeansFilled(l, PackOne(l, p, w).value, u[1..], z);
      PackCons(l, p, w, Candidates(z, u[1..]));
    }
  }

  lemma {:induction false} FirstFailingIs(s: seq<Seen>)
    requires Ranked(s)
    ensures FirstFailing(s).None? <==> forall e | e in s :: e.body.Ok?
    ensures FirstFailing(s).Some? ==> var z := FirstFailing(s).value;
      z in s && z.body.Err? && forall e | e in s && e.body.Err? :: !Before(e, z)
  {
    if s != [] {
      TailIsRanked(s);
      FirstFailingIs(s[1..]);
      assert s == [s[0]] + s[1..];
      assert s[0] in s;
      if s[0].body.Err? {
        forall e | e in s ensures !Before(e, s[0]) { HeadIsFirst(s, e); }
      }
    }
  }

  lemma RankedJoin(a: seq<Seen>, b: seq<Seen>)
    requires Ranked(a) && Ranked(b) && forall x, y {:trigger x in a, y in b} | x in a && y in b :: !Before(y, x)
    ensures Ranked(a + b)
  {
    var r := a + b;
    forall i, j | 0 <= i < j < |r| ensures !Before(r[j], r[i]) {
      if i < |a| <= j { assert r[i] in a && r[j] in b; }
    }
  }

  lemma OutOfPlayComesLater(s: seq<Seen>, z: Seen, e: Seen, r: Seen)
    requires Ranked(s) && FirstFailing(s) == Some(z) && e in Candidates(z, s) && r in OutOfPlay(z, s)
    ensures !Before(r, e)
  {
    PlayMembers(z, s, e);
    PlayMembers(z, s, r);
    FirstFailingIs(s);
    if Before(z, r) {
      if Before(r, e) { BeforeTransitive(z, r, e); }
    } else {
      NotBeforeTransitive(e, z, r);
    }
  }

  /** An order of the candidates that fills the list extends to one of all entries that packs. */
  lemma FillingShows(l: Limits, p: Packed, s: seq<Seen>) returns (u: seq<Seen>)
    requires Ranked(s) && CanFill(l, p, s)
    ensures Ranked(u) && Permuted(s, u) && Pack(l, p, u).Ok?
  {
    var z := FirstFailing(s).value;
    var c, rest := Candidates(z, s), OutOfPlay(z, s);
    var t :| Ranked(t) && Permuted(c, t) && Full(l, Pack(l, p, t));
    SameItems(c, t);
    PlayIsRanked(z, s);
    forall e, r | e in t && r in rest ensures !Before(r, e) { OutOfPlayComesLater(s, z, e, r); }
    RankedJoin(t, rest);
    PlaySplits(z, s);
    u := t + rest;
    PackJoin(l, p, t, rest);
    FullStaysFull(l, Pack(l, p, t).value, rest);
  }

  lemma {:induction false} ErrorIsAFailure(l: Limits, p: Packed, s: seq<Seen>) returns (z: Seen)
    requires Pack(l, p, s).Err?
    ensures z in s && z.body.Err? && Pack(l, p, s).error == z.body.error
    decreases |s|
  {
    if PackOne(l, p, s[0]).Err? {
      z := s[0];
    } else {
      z := ErrorIsAFailure(l, PackOne(l, p, s[0]).value, s[1..]);
    }
  }

  /** All failures are alike. */
  predicate OneError(s: seq<Seen>) {
    forall x, y {:trigger x in s, y in s} | x in s && y in s && x.body.Err? && y.body.Err? :: x.body == y.body
  }

  lemma ErrorIsFixed(l: Limits, p: Packed, s: seq<Seen>, t: seq<Seen>)
    requires OneError(s) && Ranked(s) && Ranked(t) && Permuted(s, t)
    requires Pack(l, p, s).Err? && !CanFill(l, p, s)
    ensures Pack(l, p, s) == Pack(l, p, t)
  {
    var x := ErrorIsAFailure(l, p, s);
    SameItems(s, t);
    if Pack(l, p, t).Ok? {
      FirstFailingIs(s);
      var z := FirstFailing(s).value;
      PackedMeansFilled(l, p, t, z);
      PlayIsRanked(z, t);
      CandidatesPermuted(z, s, t);
      assert false;
    } else {
      var y := ErrorIsAFailure(l, p, t);
      assert x.body == y.body;
    }
  }

  lemma {:induction false} PackAdds(l: Limits, p: Packed, s: seq<Seen>)
    requires Pack(l, p, s).Ok?
    ensures |Pack(l, p, s).value.kept| <= |p.kept| + |s|
    decreases |s|
  {
    if s != [] { PackAdds(l, PackOne(l, p, s[0]).value, s[1..]); }
  }

  /** With fewer places taken by all that render and are not ranked after the first failing entry
      than there are, no order gets past it. */
  lemma FewCannotFill(l: Limits, p: Packed, s: seq<Seen>)
    requires FirstFailing(s).Some? ==> |p.kept| + |Candidates(FirstFailing(s).value, s)| < l.maxItems
    ensures !CanFill(l, p, s)
  {
    if CanFill(l, p, s) {
      var c := Candidates(FirstFailing(s).value, s);
      var t :| Ranked(t) && Permuted(c, t) && Full(l, Pack(l, p, t));
      SameItems(c, t);
      PackAdds(l, p, t);
    }
  }

  // ------------------------------------------- from ranked orders to recalls

  lemma {:induction false} SortedStays<B>(s: seq<Entry<B>>)
    requires Ranked(s)
    ensures Sort(s) == s
  {
    if s != [] {
      TailIsRanked(s);
      SortedStays(s[1..]);
      assert |s| > 1 ==> !Before(s[1], s[0]);
      assert s == [s[0]] + s[1..];
    }
  }

  function Ineligible(items: seq<Item>): seq<Item> {
    if items == [] then []
    else (if EligibleItem(items[0]) then [] else [items[0]]) + Ineligible(items[1..])
  }

  lemma {:induction false} EligibleSplits(items: seq<Item>)
    ensures multiset(Eligible(items)) + multiset(Ineligible(items)) == multiset(items)
  {
    if items != [] {
      var x, rest := items[0], items[1..];
      EligibleSplits(rest);
      assert items == [x] + rest;
      SelectionCons(x, rest);
      PartsOf(items, Eligible(items), Ineligible(items), x, rest, Eligible(rest), Ineligible(rest), EligibleItem(x));
    }
  }

  lemma PartsOf(s: seq<Item>, a: seq<Item>, b: seq<Item>, x: Item, rest: seq<Item>, c: seq<Item>, d: seq<Item>, first: bool)
    requires s == [x] + rest && multiset(c) + multiset(d) == multiset(rest)
    requires if first then a == [x] + c && b == d else a == c && b == [x] + d
    ensures multiset(a) + multiset(b) == multiset(s)
  {
    PartsCons(x, c, d, rest);
  }

  lemma SelectionCons(x: Item, rest: seq<Item>)
    ensures Eligible([x] + rest) == if EligibleItem(x) then [x] + Eligible(rest) else Eligible(rest)
    ensures Ineligible([x] + rest) == if EligibleItem(x) then Ineligible(rest) else [x] + Ineligible(rest)
  {
    assert ([x] + rest)[1..] == rest;
  }

  lemma {:induction false} IneligibleHasNone(items: seq<Item>)
    ensures Eligible(Ineligible(items)) == []
  {
    if items != [] {
      var x, n := items[0], Ineligible(items[1..]);
      IneligibleHasNone(items[1..]);
      if EligibleItem(x) {
        assert Ineligible(items) == n;
      } else {
        assert Ineligible(items) == [x] + n;
        assert ([x] + n)[1..] == n;
      }
    }
  }

  predicate AllEligible(t: seq<Item>) {
    forall k | 0 <= k < |t| :: EligibleItem(t[k])
  }

  lemma ConsJoin(x: Item, t: seq<Item>, rest: seq<Item>)
    ensures [x] + t + rest == [x] + (t + rest)
  {
  }

  lemma {:induction false} EligibleFirst(t: seq<Item>, rest: seq<Item>, all: seq<Item>)
    requires AllEligible(t) && Eligible(rest) == [] && all == t + rest
    ensures Eligible(all) == t
    decreases |t|
  {
    if t == [] {
      assert all == rest;
    } else {
      var x, tail, joined := t[0], t[1..], t[1..] + rest;
      EligibleFirst(tail, rest, joined);
      assert t == [x] + tail;
      ConsJoin(x, tail, rest);
      SelectionCons(x, joined);
    }
  }

  /** Any order of what is seen is how some order of the items is seen. */
  lemma {:induction false} LiftOrder(render: Renderer, s: seq<Item>, t: seq<Seen>) returns (u: seq<Item>)
    requires Permuted(Sees(render, s), t)
    ensures Permuted(s, u) && Sees(render, u) == t
    decreases |t|
  {
    if t == [] {
      SameItems(Sees(render, s), t);
      u := s;
    } else {
      var x := OneSeenAs(render, s, t);
      var rest := LiftOrder(render, Remove(x, s), t[1..]);
      u := LiftedCons(render, s, x, rest);
      HeadAndTail(t, See(render, x), Sees(render, rest));
    }
  }

  lemma HeadAndTail(t: seq<Seen>, e: Seen, rest: seq<Seen>)
    requires t != [] && t[0] == e && t[1..] == rest
    ensures [e] + rest == t
  {
  }

  lemma OneSeenAs(render: Renderer, s: seq<Item>, t: seq<Seen>) returns (x: Item)
    requires Permuted(Sees(render, s), t) && t != []
    ensures x in s && See(render, x) == t[0] && Permuted(Sees(render, Remove(x, s)), t[1..])
  {
    SameItems(Sees(render, s), t);
    assert t[0] in t;
    x := ItemSeenAs(render, s, t[0]);
    SeesWithout(render, s, x);
    RestPermuted(t, Sees(render, s), Sees(render, Remove(x, s)));
  }

  lemma ItemSeenAs(render: Renderer, s: seq<Item>, e: Seen) returns (x: Item)
    requires e in Sees(render, s)
    ensures x in s && See(render, x) == e
  {
    var k :| 0 <= k < |Sees(render, s)| && Sees(render, s)[k] == e;
    x := s[k];
  }

  lemma RestPermuted(t: seq<Seen>, s: seq<Seen>, rest: seq<Seen>)
    requires t != [] && Permuted(s, t) && multiset(s) == multiset{t[0]} + multiset(rest)
    ensures Permuted(rest, t[1..])
  {
    assert t == [t[0]] + t[1..];
    CancelOne(t[0], rest, t[1..]);
  }

  lemma LiftedCons(render: Renderer, s: seq<Item>, x: Item, rest: seq<Item>) returns (u: seq<Item>)
    requires x in s && Permuted(Remove(x, s), rest)
    ensures Permuted(s, u) && Sees(render, u) == [See(render, x)] + Sees(render, rest)
  {
    u := [x] + rest;
    ItemsCons(x, rest);
    assert u[1..] == rest;
  }

  /** Every ranked order of what is seen of the eligible items is what some recall sorts them into. */
  lemma SomeRecallSortsSo(render: Renderer, a: seq<Item>, t: seq<Seen>) returns (b: seq<Item>)
    requires Ranked(t) && Permuted(Sees(render, Eligible(a)), t)
    ensures Permuted(a, b) && Ranking(render, b) == t
  {
    var u := LiftOrder(render, Eligible(a), t);
    EligibleSplits(a);
    IneligibleHasNone(a);
    EligibleIsShorter(a);
    SameItems(Eligible(a), u);
    forall k | 0 <= k < |u| ensures EligibleItem(u[k]) { assert u[k] in u; }
    EligibleFirst(u, Ineligible(a), u + Ineligible(a));
    SortedStays(t);
    b := u + Ineligible(a);
  }

  // ---------------------------------------------------------- the projection

  ghost predicate ProjectionIsFixed(render: Renderer, a: seq<Item>, degraded: seq<string>, l: Limits) {
    forall b {:trigger Permuted(a, b)} | Permuted(a, b) ::
      ProjectWith(render, a, degraded, l) == ProjectWith(render, b, degraded, l)
  }

  lemma FaultsShowInProjection(render: Renderer, a: seq<Item>, degraded: seq<string>, l: Limits)
    requires ValidLimits(l) && FirstFault(a).Some?
    ensures ProjectionIsFixed(render, a, degraded, l) <==> OneFault(a)
  {
    FaultIsFixedIff(a);
    forall b | Permuted(a, b) ensures FirstFault(b).Some? {
      SameItems(a, b);
      FirstFaultIsOne(a);
      FirstFaultIsOne(b);
    }
    assert forall b {:trigger Permuted(a, b)} | Permuted(a, b) ::
        ProjectWith(render, b, degraded, l) == Err(InvalidItem(FirstFault(b).value));
  }

  /** For recalls of valid items the outcome is what packing the ranked eligible items gives. */
  lemma OutcomeOf(render: Renderer, a: seq<Item>, b: seq<Item>, degraded: seq<string>, l: Limits)
    requires ValidLimits(l) && FirstFault(a).None? && Permuted(a, b)
    ensures ProjectWith(render, b, degraded, l) == Finish(Pack(l, Start(a), Ranking(render, b)), degraded)
  {
    EligiblePermuted(a, b);
    ValidIgnoresOrder(a, b);
    ValidOutcome(render, b, degraded, l);
    SameStart(a, b);
  }

  lemma ValidOutcome(render: Renderer, b: seq<Item>, degraded: seq<string>, l: Limits)
    requires ValidLimits(l) && FirstFault(b).None?
    ensures ProjectWith(render, b, degraded, l) == Finish(Pack(l, Start(b), Ranking(render, b)), degraded)
  {
  }

  lemma SameStart(a: seq<Item>, b: seq<Item>)
    requires |a| == |b| && |Eligible(a)| == |Eligible(b)|
    ensures Start(a) == Start(b)
  {
  }

  lemma ValidIgnoresOrder(a: seq<Item>, b: seq<Item>)
    requires Permuted(a, b) && FirstFault(a).None?
    ensures FirstFault(b).None?
  {
    SameItems(a, b);
    FirstFaultIsOne(a);
    FirstFaultIsOne(b);
  }

  lemma RankingPermuted(render: Renderer, a: seq<Item>, b: seq<Item>)
    requires Permuted(a, b)
    ensures Ranked(Ranking(render, b)) && Permuted(Ranking(render, a), Ranking(render, b))
    ensures Permuted(Sees(render, Eligible(a)), Ranking(render, b))
  {
    EligiblePermuted(a, b);
    SeesPermuted(render, Eligible(a), Eligible(b));
    SortItems(Sees(render, Eligible(a)));
    SortItems(Sees(render, Eligible(b)));
    SortRanks(Sees(render, Eligible(b)));
  }

  /** Every ranked order of the entries packs like `s`. */
  ghost predicate PacksAlike(l: Limits, p: Packed, s: seq<Seen>) {
    forall t {:trigger Permuted(s, t)} | Ranked(t) && Permuted(s, t) :: Pack(l, p, s) == Pack(l, p, t)
  }

  lemma AlikeIsFixed(render: Renderer, a: seq<Item>, degraded: seq<string>, l: Limits)
    requires ValidLimits(l) && FirstFault(a).None? && PacksAlike(l, Start(a), Ranking(render, a))
    ensures ProjectionIsFixed(render, a, degraded, l)
  {
    forall b | Permuted(a, b) ensures ProjectWith(render, a, degraded, l) == ProjectWith(render, b, degraded, l) {
      RankingPermuted(render, a, b);
      OutcomeOf(render, a, a, degraded, l);
      OutcomeOf(render, a, b, degraded, l);
    }
  }

  lemma DifferenceShows(render: Renderer, a: seq<Item>, degraded: seq<string>, l: Limits, t: seq<Seen>)
    requires ValidLimits(l) && FirstFault(a).None? && Ranked(t) && Permuted(Ranking(render, a), t)
    requires Differ(Pack(l, Start(a), Ranking(render, a)), Pack(l, Start(a), t))
    ensures !ProjectionIsFixed(render, a, degraded, l)
  {
    SortItems(Sees(render, Eligible(a)));
    var b := SomeRecallSortsSo(render, a, t);
    OutcomeOf(render, a, a, degraded, l);
    OutcomeOf(render, a, b, degraded, l);
  }

  /** Recall order cannot be seen: the call is refused for its limits; or some item is invalid and
      all invalid ones fail the same check; or the ranked eligible items pack without a contest; or
      they meet a label that is too large, and no order fills the list before that. */
  ghost predicate OrderIsHidden(render: Renderer, a: seq<Item>, l: Limits) {
    ValidLimits(l) ==>
      if FirstFault(a).Some? then OneFault(a)
      else if Pack(l, Start(a), Ranking(render, a)).Ok? then NoContest(l, Start(a), Ranking(render, a))
      else !CanFill(l, Start(a), Ranking(render, a))
  }

  lemma PackedIsFixedIff(render: Renderer, a: seq<Item>, degraded: seq<string>, l: Limits)
    requires ValidLimits(l) && FirstFault(a).None? && Pack(l, Start(a), Ranking(render, a)).Ok?
    ensures ProjectionIsFixed(render, a, degraded, l) <==> NoContest(l, Start(a), Ranking(render, a))
  {
    var p, s := Start(a), Ranking(render, a);
    RankingPermuted(render, a, a);
    if NoContest(l, p, s) {
      forall t | Ranked(t) && Permuted(s, t) ensures Pack(l, p, s) == Pack(l, p, t) {
        NoContestIsFixed(l, p, s, t);
      }
      AlikeIsFixed(render, a, degraded, l);
    } else {
      var t := ContestShows(l, p, s);
      DifferenceShows(render, a, degraded, l, t);
    }
  }

  lemma RefusedIsFixedIff(render: Renderer, a: seq<Item>, degraded: seq<string>, l: Limits)
    requires OneError(Ranking(render, a)) && ValidLimits(l) && FirstFault(a).None?
    requires Pack(l, Start(a), Ranking(render, a)).Err?
    ensures ProjectionIsFixed(render, a, degraded, l) <==> !CanFill(l, Start(a), Ranking(render, a))
  {
    var p, s := Start(a), Ranking(render, a);
    RankingPermuted(render, a, a);
    if CanFill(l, p, s) {
      var t := FillingShows(l, p, s);
      DifferenceShows(render, a, degraded, l, t);
    } else {
      forall t | Ranked(t) && Permuted(s, t) ensures Pack(l, p, s) == Pack(l, p, t) {
        ErrorIsFixed(l, p, s, t);
      }
      AlikeIsFixed(render, a, degraded, l);
    }
  }

  /** No reordering of the recalled items changes the outcome exactly when their order is hidden,
      for every list of items and all limits. */
  lemma ProjectionIsFixedIff(render: Renderer, a: seq<Item>, degraded: seq<string>, l: Limits)
    requires OneError(Ranking(render, a))
    ensures ProjectionIsFixed(render, a, degraded, l) <==> OrderIsHidden(render, a, l)
  {
    if !ValidLimits(l) {
    } else if FirstFault(a).Some? {
      FaultsShowInProjection(render, a, degraded, l);
    } else if Pack(l, Start(a), Ranking(render, a)).Ok? {
      PackedIsFixedIff(render, a, degraded, l);
    } else {
      RefusedIsFixedIff(render, a, degraded, l);
    }
  }

  // ------------------------------------------------------ room for everything

  function Sizes(items: seq<Seen>): nat {
    if items == [] then 0
    else (if items[0].body.Ok? then ByteLen(items[0].body.value.text) else 0) + Sizes(items[1..])
  }

  /** The limits leave room for every one of these items. */
  ghost predicate AllFit(l: Limits, p: Packed, items: seq<Seen>) {
    && (forall x {:trigger x in items} | x in items :: x.body.Ok?)
    && |p.kept| + |items| <= l.maxItems && p.used + Sizes(items) <= l.maxTotalBytes
  }

  lemma {:induction false} OneOfThem(s: seq<Seen>, x: Seen)
    requires x in s && x.body.Ok?
    ensures ByteLen(x.body.value.text) <= Sizes(s)
  {
    if s[0] != x { OneOfThem(s[1..], x); }
  }

  lemma FittingDecides(l: Limits, p: Packed, s: seq<Seen>, x: Seen)
    requires AllFit(l, p, s) && x in s
    ensures Decides(l, p, x)
  {
    OneOfThem(s, x);
  }

  lemma FittingTail(l: Limits, p: Packed, s: seq<Seen>)
    requires AllFit(l, p, s) && s != []
    ensures PackOne(l, p, s[0]).Ok? && AllFit(l, PackOne(l, p, s[0]).value, s[1..])
  {
    assert s[0] in s && forall x | x in s[1..] :: x in s;
    FittingDecides(l, p, s, s[0]);
  }

  lemma {:induction false} FittingPacks(l: Limits, p: Packed, s: seq<Seen>)
    requires AllFit(l, p, s)
    ensures Pack(l, p, s).Ok?
    decreases |s|
  {
    if s != [] {
      FittingTail(l, p, s);
      FittingPacks(l, PackOne(l, p, s[0]).value, s[1..]);
    }
  }

  lemma NoTiesIff(s: seq<Seen>)
    requires s != []
    ensures NoTies(s) <==> (forall y {:trigger y in s} | y in s && Tied(s[0], y) :: y == s[0]) && NoTies(s[1..])
  {
    assert s[0] in s && forall x :: x in s <==> x == s[0] || x in s[1..];
  }

  /** With room for everything a contest is a tie. */
  lemma {:induction false} NoContestIffNoTies(l: Limits, p: Packed, s: seq<Seen>)
    requires AllFit(l, p, s)
    ensures NoContest(l, p, s) <==> NoTies(s)
    decreases |s|
  {
    if s != [] {
      FittingTail(l, p, s);
      NoContestIffNoTies(l, PackOne(l, p, s[0]).value, s[1..]);
      NoTiesIff(s);
      forall y | y in s ensures Decides(l, p, y) { FittingDecides(l, p, s, y); }
      assert s[0] in s;
    }
  }

  /** When every item is valid and there is room for all that are eligible, order shows exactly
      when two of those tie. */
  lemma RoomyIsFixedIff(render: Renderer, a: seq<Item>, degraded: seq<string>, l: Limits)
    requires ValidLimits(l) && FirstFault(a).None? && AllFit(l, Start(a), Ranking(render, a))
    ensures ProjectionIsFixed(render, a, degraded, l) <==> NoTies(Sees(render, Eligible(a)))
  {
    FittingPacks(l, Start(a), Ranking(render, a));
    PackedIsFixedIff(render, a, degraded, l);
    NoContestIffNoTies(l, Start(a), Ranking(render, a));
    SortItems(Sees(render, Eligible(a)));
    SameTies(Sees(render, Eligible(a)), Ranking(render, a));
  }

  lemma SameTies(a: seq<Seen>, b: seq<Seen>)
    requires Permuted(a, b)
    ensures NoTies(a) <==> NoTies(b)
  {
    if NoTies(a) { NoTiesPermuted(a, b); }
    if NoTies(b) { NoTiesPermuted(b, a); }
  }
}
