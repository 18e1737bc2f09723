/** Where each hunk of a patch lands, against where its header says, and when applying panics. */
module PatchPlacement {
  import opened Text
  import opened Patch
  import opened PatchSearch
  import opened PatchUndo

  function Expected(h: Hunk): seq<string> {
    OldTexts(ParseHunk(h.content))
  }

  function Delta(h: Hunk): int {
    Adds(ParseHunk(h.content)) - Removes(ParseHunk(h.content))
  }

  // --------------------------------------------------------------- one round

  /** A match within reach of the target that no other match within reach outranks. */
  ghost predicate Best(lines: seq<string>, expected: seq<string>, target: nat, q: nat) {
    && Matches(lines, expected, q) && InReach(target, q)
    && forall s: nat {:trigger Rank(target, s)} | InReach(target, s) && Matches(lines, expected, s) ::
         Rank(target, q) <= Rank(target, s)
  }

  lemma FindIff(lines: seq<string>, expected: seq<string>, target: nat, q: nat)
    ensures Find(lines, expected, target) == Some(q) <==> Best(lines, expected, target, q)
  {
    FindIsBest(lines, expected, target);
    if Best(lines, expected, target, q) {
      RankDecides(target, q, Find(lines, expected, target).value);
    }
  }

  /** The places the search prefers to `q` when it starts from `target`. */
  predicate Rival(target: nat, q: nat, s: nat) {
    if q <= target <= q + FUZZ then q < s <= 2 * target - q
    else if target < q <= target + FUZZ then 2 * target - q < s < q
    else s < q || target - FUZZ <= s <= target + FUZZ
  }

  /** The hunk matches at `q`, the search gets that far, and it matches at no rival place. */
  ghost predicate Clear(lines: seq<string>, expected: seq<string>, target: nat, q: nat) {
    && Matches(lines, expected, q) && InReach(target, q)
    && forall s: nat {:trigger Rival(target, q, s)} | Rival(target, q, s) :: !Matches(lines, expected, s)
  }

  lemma RivalIff(target: nat, q: nat, s: nat)
    requires InReach(target, q)
    ensures Rival(target, q, s) <==> InReach(target, s) && Rank(target, s) < Rank(target, q)
  {
  }

  lemma BestIffClear(lines: seq<string>, expected: seq<string>, target: nat, q: nat)
    ensures Best(lines, expected, target, q) <==> Clear(lines, expected, target, q)
  {
    if InReach(target, q) {
      forall s: nat ensures Rival(target, q, s) <==> InReach(target, s) && Rank(target, s) < Rank(target, q) {
        RivalIff(target, q, s);
      }
    }
  }

  /** The hunk is edited in at `q`. */
  predicate LandsAt(lines: seq<string>, h: Hunk, offset: int, q: nat) {
    Find(lines, Expected(h), Target(h, offset)) == Some(q) && q + |Expected(h)| <= |lines|
  }

  /** The hunk matches at its place and at no rival of it. */
  ghost predicate ClearAt(lines: seq<string>, h: Hunk, offset: int, q: nat) {
    Clear(lines, Expected(h), Target(h, offset), q) && q + |Expected(h)| <= |lines|
  }

  /** A hunk lands at `q` exactly when it matches there and at no rival place. */
  lemma LandsIff(lines: seq<string>, h: Hunk, offset: int, q: nat)
    ensures LandsAt(lines, h, offset, q) == ClearAt(lines, h, offset, q)
  {
    FindIff(lines, Expected(h), Target(h, offset), q);
    BestIffClear(lines, Expected(h), Target(h, offset), q);
  }

  /** The file with the hunk edited in at `q`. */
  function EditIn(lines: seq<string>, h: Hunk, q: nat): seq<string> {
    if q + |Expected(h)| <= |lines| then ApplyAt(lines, ParseHunk(h.content), q) else lines
  }

  lemma LandingApplies(lines: seq<string>, h: Hunk, offset: int, q: nat)
    requires LandsAt(lines, h, offset, q)
    ensures ApplyHunk(lines, h, offset) == Applied(EditIn(lines, h, q), q + Delta(h))
  {
    NewTextsLength(ParseHunk(h.content), lines[q..q + |Expected(h)|]);
  }

  // ------------------------------------------------------------ whole patches

  /** How a hunk changes the file at a place, and by how many lines. */
  datatype Way = Way(edit: (seq<string>, Hunk, nat) -> seq<string>, grow: Hunk -> int)

  function HeaderWay(): Way { Way(EditIn, Delta) }

  /** Applying by headers: each hunk at the line its header names, moved by the growth of the
      hunks before it. */
  function ByHeaders(w: Way, lines: seq<string>, hunks: seq<Hunk>, i: nat, growth: int): seq<string>
    requires i <= |hunks|
    decreases |hunks| - i
  {
    if i == |hunks| then lines
    else ByHeaders(w, w.edit(lines, hunks[i], Target(hunks[i], growth)), hunks, i + 1, growth + w.grow(hunks[i]))
  }

  /** Applying by headers, every hunk is fit for its place, given the offset the code carries
      from the place before. */
  ghost predicate EachRound(w: Way, fit: (seq<string>, Hunk, int, nat) -> bool,
                            lines: seq<string>, hunks: seq<Hunk>, i: nat, offset: int, growth: int)
    requires i <= |hunks|
    decreases |hunks| - i
  {
    i == |hunks|
    || (var h := hunks[i];
        var q := Target(h, growth);
        fit(lines, h, offset, q) && EachRound(w, fit, w.edit(lines, h, q), hunks, i + 1, q + w.grow(h), growth + w.grow(h)))
  }

  lemma {:induction false} SameRounds(
      w: Way, a: (seq<string>, Hunk, int, nat) -> bool, b: (seq<string>, Hunk, int, nat) -> bool,
      lines: seq<string>, hunks: seq<Hunk>, i: nat, offset: int, growth: int)
    requires i <= |hunks| && forall l, h, o, q: nat :: a(l, h, o, q) == b(l, h, o, q)
    ensures EachRound(w, a, lines, hunks, i, offset, growth) == EachRound(w, b, lines, hunks, i, offset, growth)
    decreases |hunks| - i
  {
    if i < |hunks| {
      var h := hunks[i];
      var q := Target(h, growth);
      SameRounds(w, a, b, w.edit(lines, h, q), hunks, i + 1, q + w.grow(h), growth + w.grow(h));
    }
  }

  /** The lines and the offset before hunk `j`, if the patch gets that far, over any way to apply
      one hunk. */
  function StateBefore(step: (seq<string>, Hunk, int) -> HunkOutcome, lines: seq<string>, hunks: seq<Hunk>, j: nat)
    : HunkOutcome
    requires j <= |hunks|
  {
    if j == 0 then Applied(lines, 0)
    else
      var earlier := StateBefore(step, lines, hunks, j - 1);
      if earlier.Applied? then step(earlier.lines, hunks[j - 1], earlier.offset) else earlier
  }

  function Before(lines: seq<string>, hunks: seq<Hunk>, j: nat): HunkOutcome
    requires j <= |hunks|
  {
    StateBefore(ApplyHunk, lines, hunks, j)
  }

  /** How much the hunks before `j` change the number of lines. */
  function Growth(w: Way, hunks: seq<Hunk>, j: nat): int
    requires j <= |hunks|
  {
    if j == 0 then 0 else Growth(w, hunks, j - 1) + w.grow(hunks[j - 1])
  }

  /** Before hunk `j` the state is one in which that hunk is fit for its header's place. */
  predicate FitsBefore(w: Way, fit: (seq<string>, Hunk, int, nat) -> bool, b: HunkOutcome, hunks: seq<Hunk>, j: nat)
    requires j < |hunks|
  {
    b.Applied? && fit(b.lines, hunks[j], b.offset, Target(hunks[j], Growth(w, hunks, j)))
  }

  predicate FitsAt(
      w: Way, fit: (seq<string>, Hunk, int, nat) -> bool, step: (seq<string>, Hunk, int) -> HunkOutcome,
      lines: seq<string>, hunks: seq<Hunk>, j: nat)
    requires j < |hunks|
  {
    FitsBefore(w, fit, StateBefore(step, lines, hunks, j), hunks, j)
  }

  lemma {:induction false} FitsFrom(
      w: Way, fit: (seq<string>, Hunk, int, nat) -> bool, step: (seq<string>, Hunk, int) -> HunkOutcome,
      lines: seq<string>, hunks: seq<Hunk>, i: nat, now: seq<string>, offset: int)
    requires i <= |hunks| && StateBefore(step, lines, hunks, i) == Applied(now, offset)
    requires forall l, h, o, q: nat | fit(l, h, o, q) :: step(l, h, o) == Applied(w.edit(l, h, q), q + w.grow(h))
    ensures (forall j | i <= j < |hunks| :: FitsAt(w, fit, step, lines, hunks, j))
      <==> EachRound(w, fit, now, hunks, i, offset, Growth(w, hunks, i))
    decreases |hunks| - i
  {
    if i < |hunks| {
      var h, q := hunks[i], Target(hunks[i], Growth(w, hunks, i));
      assert FitsAt(w, fit, step, lines, hunks, i) == fit(now, h, offset, q);
      if fit(now, h, offset, q) {
        FitsFrom(w, fit, step, lines, hunks, i + 1, w.edit(now, h, q), q + w.grow(h));
      }
    }
  }

  /** The code gets to hunk `j` and edits it in where its header says. */
  predicate Follows(lines: seq<string>, hunks: seq<Hunk>, j: nat)
    requires j < |hunks|
  {
    FitsBefore(HeaderWay(), LandsAt, Before(lines, hunks, j), hunks, j)
  }

  lemma FollowsIsLanding(lines: seq<string>, hunks: seq<Hunk>)
    ensures (forall j | 0 <= j < |hunks| :: Follows(lines, hunks, j))
      <==> EachRound(HeaderWay(), LandsAt, lines, hunks, 0, 0, 0)
  {
    forall l, h, o, q: nat | LandsAt(l, h, o, q) ensures ApplyHunk(l, h, o) == Applied(EditIn(l, h, q), q + Delta(h)) {
      LandingApplies(l, h, o, q);
    }
    FitsFrom(HeaderWay(), LandsAt, ApplyHunk, lines, hunks, 0, lines, 0);
    forall j | 0 <= j < |hunks|
      ensures Follows(lines, hunks, j) == FitsAt(HeaderWay(), LandsAt, ApplyHunk, lines, hunks, j)
    {
    }
    assert (forall j | 0 <= j < |hunks| :: Follows(lines, hunks, j)) <==>
           (forall j | 0 <= j < |hunks| :: FitsAt(HeaderWay(), LandsAt, ApplyHunk, lines, hunks, j));
  }

  /** In every round of its own run the code finds the header's place exactly when, applying by
      headers, each hunk matches there and at none of the places the search would prefer. */
  lemma FollowsHeadersIff(lines: seq<string>, hunks: seq<Hunk>)
    ensures (forall j | 0 <= j < |hunks| :: Follows(lines, hunks, j))
      <==> EachRound(HeaderWay(), ClearAt, lines, hunks, 0, 0, 0)
  {
    FollowsIsLanding(lines, hunks);
    LandsRoundsAreClear(lines, hunks);
  }

  lemma LandsRoundsAreClear(lines: seq<string>, hunks: seq<Hunk>)
    ensures EachRound(HeaderWay(), LandsAt, lines, hunks, 0, 0, 0) <==> EachRound(HeaderWay(), ClearAt, lines, hunks, 0, 0, 0)
  {
    forall l, h, o, q: nat ensures LandsAt(l, h, o, q) == ClearAt(l, h, o, q) {
      LandsIff(l, h, o, q);
    }
    SameRounds(HeaderWay(), LandsAt, ClearAt, lines, hunks, 0, 0, 0);
  }

  /** If being fit for a place means being edited in there, then fit rounds apply by headers. */
  lemma {:induction false} FitIsByHeaders(
      w: Way, fit: (seq<string>, Hunk, int, nat) -> bool, step: (seq<string>, Hunk, int) -> HunkOutcome,
      lines: seq<string>, hunks: seq<Hunk>, i: nat, offset: int, growth: int)
    requires i <= |hunks| && EachRound(w, fit, lines, hunks, i, offset, growth)
    requires forall l, h, o, q: nat | fit(l, h, o, q) :: step(l, h, o) == Applied(w.edit(l, h, q), q + w.grow(h))
    ensures Rounds(step, lines, hunks, i, offset) == Patched(ByHeaders(w, lines, hunks, i, growth))
    decreases |hunks| - i
  {
    if i < |hunks| {
      var h := hunks[i];
      var q := Target(h, growth);
      FitIsByHeaders(w, fit, step, w.edit(lines, h, q), hunks, i + 1, q + w.grow(h), growth + w.grow(h));
    }
  }

  lemma LandingIsByHeaders(lines: seq<string>, hunks: seq<Hunk>)
    requires EachRound(HeaderWay(), LandsAt, lines, hunks, 0, 0, 0)
    ensures Apply(lines, hunks) == Patched(ByHeaders(HeaderWay(), lines, hunks, 0, 0))
  {
    forall l, h, o, q: nat | LandsAt(l, h, o, q) ensures ApplyHunk(l, h, o) == Applied(EditIn(l, h, q), q + Delta(h)) {
      LandingApplies(l, h, o, q);
    }
    FitIsByHeaders(HeaderWay(), LandsAt, ApplyHunk, lines, hunks, 0, 0, 0);
    ApplyFromIsRounds(lines, hunks, 0, 0);
  }

  /** Then the patch applies, and its result is that of applying by headers. */
  lemma ClearPatchIsByHeaders(lines: seq<string>, hunks: seq<Hunk>)
    requires EachRound(HeaderWay(), ClearAt, lines, hunks, 0, 0, 0)
    ensures Apply(lines, hunks) == Patched(ByHeaders(HeaderWay(), lines, hunks, 0, 0))
  {
    LandsRoundsAreClear(lines, hunks);
    LandingIsByHeaders(lines, hunks);
  }

  /** The second of two hunks lands where its header says exactly when, in the file the first one
      leaves, that place is clear of rivals of a target further down by the first one's place. */
  lemma SecondHunkLandsIff(lines: seq<string>, first: Hunk, second: Hunk, p: nat)
    requires LandsAt(lines, first, 0, p)
    ensures var middle := EditIn(lines, first, p);
            var q := Target(second, Delta(first));
            var step := ApplyHunk(lines, first, 0);
      && step == Applied(middle, p + Delta(first))
      && (LandsAt(step.lines, second, step.offset, q) <==> ClearAt(middle, second, p + Delta(first), q))
  {
    LandingApplies(lines, first, 0, p);
    LandsIff(EditIn(lines, first, p), second, p + Delta(first), Target(second, Delta(first)));
  }

  /** Four equal lines and two one-line hunks: the second hunk changes line four, not the line
      three its header names. */
  lemma SecondHunkIsMisplaced()
    ensures var hunks := [Hunk(2, 1, 2, 1, ["-x", "+y"]), Hunk(3, 1, 3, 1, ["-x", "+z"])];
      Apply(["x", "x", "x", "x"], hunks) == Patched(["x", "y", "x", "z"])
  {
    MisplacedFirst();
    MisplacedSecond();
    TwoHunks(["x", "x", "x", "x"], Hunk(2, 1, 2, 1, ["-x", "+y"]), Hunk(3, 1, 3, 1, ["-x", "+z"]));
  }

  lemma MisplacedFirst()
    ensures ApplyHunk(["x", "x", "x", "x"], Hunk(2, 1, 2, 1, ["-x", "+y"]), 0) == Applied(["x", "y", "x", "x"], 1)
  {
    var lines := ["x", "x", "x", "x"];
    assert ['-'] + "x" == "-x" && ['+'] + "y" == "+y";
    ReplaceLine(lines, Hunk(2, 1, 2, 1, ["-x", "+y"]), 0, "x", "y", 1);
    assert lines[1 := "y"] == ["x", "y", "x", "x"];
  }

  lemma MisplacedSecond()
    ensures ApplyHunk(["x", "y", "x", "x"], Hunk(3, 1, 3, 1, ["-x", "+z"]), 1) == Applied(["x", "y", "x", "z"], 3)
  {
    var lines := ["x", "y", "x", "x"];
    assert ['-'] + "x" == "-x" && ['+'] + "z" == "+z";
    ReplaceLine(lines, Hunk(3, 1, 3, 1, ["-x", "+z"]), 1, "x", "z", 3);
    assert lines[3 := "z"] == ["x", "y", "x", "z"];
  }

  lemma TwoHunks(lines: seq<string>, first: Hunk, second: Hunk)
    requires ApplyHunk(lines, first, 0).Applied?
    requires var step := ApplyHunk(lines, first, 0); ApplyHunk(step.lines, second, step.offset).Applied?
    ensures var step := ApplyHunk(lines, first, 0);
      Apply(lines, [first, second]) == Patched(ApplyHunk(step.lines, second, step.offset).lines)
  {
    var step := ApplyHunk(lines, first, 0);
    var last := ApplyHunk(step.lines, second, step.offset);
    var hunks := [first, second];
    assert ApplyFrom(last.lines, hunks, 2, last.offset) == Patched(last.lines);
    assert ApplyFrom(step.lines, hunks, 1, step.offset) == Patched(last.lines);
  }

  lemma ParseReplacement(from: string, to: string)
    ensures ParseHunk([['-'] + from, ['+'] + to]) == [Remove(from), Add(to)]
    ensures OldTexts([Remove(from), Add(to)]) == [from]
  {
    var minus, plus := ['-'] + from, ['+'] + to;
    var raw := [minus, plus];
    assert raw[1..] == [plus] && raw[1..][1..] == [];
    assert minus[1..] == from && plus[1..] == to;
    assert ParseLine(minus) == Some(Remove(from)) && ParseLine(plus) == Some(Add(to));
    assert ParseHunk([plus]) == [Add(to)] + ParseHunk([]);
    assert ParseHunk([minus, plus]) == [Remove(from)] + ParseHunk([plus]);
    var parsed := [Remove(from), Add(to)];
    assert parsed[1..] == [Add(to)] && parsed[1..][1..] == [];
    assert OldTexts(parsed[1..]) == OldTexts([]);
  }

  lemma ReplacesOne(lines: seq<string>, from: string, to: string, p: nat)
    requires p < |lines|
    ensures var parsed := [Remove(from), Add(to)];
      && |OldTexts(parsed)| == 1
      && NewTexts(parsed, lines[p..p + 1]) == [to] && ApplyAt(lines, parsed, p) == lines[p := to]
  {
    ParseReplacement(from, to);
    var parsed, region := [Remove(from), Add(to)], lines[p..p + 1];
    assert parsed[1..] == [Add(to)] && region[1..] == [];
    assert NewTexts(parsed[1..], region[1..]) == [to] + NewTexts([], []);
    assert lines[..p] + [to] + lines[p + 1..] == lines[p := to];
  }

  /** A one-line replacement whose target line matches the expected text. */
  lemma ReplaceLine(lines: seq<string>, h: Hunk, offset: int, from: string, to: string, p: nat)
    requires h.content == [['-'] + from, ['+'] + to] && Target(h, offset) == p
    requires p < |lines| && LinesMatch(lines[p], from)
    ensures ApplyHunk(lines, h, offset) == Applied(lines[p := to], p)
  {
    ParseReplacement(from, to);
    MatchesOne(lines, from, p);
    ReplacesOne(lines, from, to, p);
  }

  // ------------------------------------------------------------------ panics

  lemma {:induction false} ResultNamesLater(lines: seq<string>, hunks: seq<Hunk>, i: nat, offset: int)
    requires i <= |hunks|
    ensures var r := ApplyFrom(lines, hunks, i, offset); r.Patched? || i <= r.hunk < |hunks|
    decreases |hunks| - i
  {
    if i < |hunks| {
      var step := ApplyHunk(lines, hunks[i], offset);
      if step.Applied? {
        ResultNamesLater(step.lines, hunks, i + 1, step.offset);
      }
    }
  }

  lemma {:induction false} ContinuesFrom(lines: seq<string>, hunks: seq<Hunk>, j: nat)
    requires j <= |hunks|
    ensures var b := Before(lines, hunks, j);
            var r := Apply(lines, hunks);
      && (b.Applied? ==> r == ApplyFrom(b.lines, hunks, j, b.offset))
      && (!b.Applied? ==> !r.Patched? && r.hunk < j)
  {
    if j > 0 {
      ContinuesFrom(lines, hunks, j - 1);
    }
  }

  /** A patch panics at hunk `j` exactly when it gets there, the hunk only adds, and its target
      lies past the end of the file as it is then. */
  lemma PatchPanicsIff(lines: seq<string>, hunks: seq<Hunk>, j: nat)
    requires j < |hunks|
    ensures var b := Before(lines, hunks, j);
      Apply(lines, hunks) == SplicePanic(j) <==>
        b.Applied? && Expected(hunks[j]) == [] && Target(hunks[j], b.offset) > |b.lines|
  {
    ContinuesFrom(lines, hunks, j);
    var b := Before(lines, hunks, j);
    if b.Applied? {
      PanicsIff(b.lines, hunks[j], b.offset);
      var step := ApplyHunk(b.lines, hunks[j], b.offset);
      if step.Applied? {
        ResultNamesLater(step.lines, hunks, j + 1, step.offset);
      }
    }
  }

  /** The first hunk panics exactly when it only adds and its header names a line more than one
      past the end of the file. */
  lemma FirstHunkPanicsIff(lines: seq<string>, hunks: seq<Hunk>)
    requires hunks != []
    ensures Apply(lines, hunks) == SplicePanic(0) <==> Expected(hunks[0]) == [] && hunks[0].oldStart - 1 > |lines|
  {
    PatchPanicsIff(lines, hunks, 0);
  }

  /** A patch whose hunks all expect a line of the file never panics. */
  lemma ExpectingPatchNeverPanics(lines: seq<string>, hunks: seq<Hunk>)
    requires forall j | 0 <= j < |hunks| :: Expected(hunks[j]) != []
    ensures !Apply(lines, hunks).SplicePanic?
  {
    ResultNamesLater(lines, hunks, 0, 0);
    var r := Apply(lines, hunks);
    if r.SplicePanic? {
      PatchPanicsIff(lines, hunks, r.hunk);
    }
  }

  /** One added line addressed to line two of an empty file. */
  lemma AddingPastTheEndPanics()
    ensures Apply([], [Hunk(2, 0, 2, 1, ["+a"])]) == SplicePanic(0)
  {
    var h := Hunk(2, 0, 2, 1, ["+a"]);
    assert h.content[1..] == [];
    assert ParseLine("+a") == Some(Add("a")) by { assert "+a"[1..] == "a"; }
    assert ParseHunk(h.content) == [Add("a")] + ParseHunk([]);
    assert ParseHunk(h.content)[1..] == [];
    FirstHunkPanicsIff([], [h]);
  }

  lemma BlankMatches()
    ensures LinesMatch("a ", "a")
  {
    var s := "a ";
    assert s[1..] == " " && s[1..][1..] == "";
    assert NormalizeChars(" ") == " " + NormalizeChars("");
    assert NormalizeChars(s) == "a" + NormalizeChars(" ") == s;
    assert s[..1] == "a";
    assert TrimEnd(s) == TrimEnd("a") == "a";
    assert NormalizeChars("a") == "a" + NormalizeChars("a"[1..]);
  }

  /** Undoing a one-line replacement puts the hunk's own text back. */
  lemma UndoReplacement(lines: seq<string>, h: Hunk, from: string, to: string, p: nat)
    requires h.content == [['-'] + from, ['+'] + to] && p < |lines| && LinesMatch(lines[p], from)
    ensures UndoOne(lines[p := to], h, p) == Some(lines[p := from])
  {
    var parsed := ParseHunk(h.content);
    ParseReplacement(from, to);
    MatchesOne(lines, from, p);
    ReplacesOne(lines, from, to, p);
    InverseApplies(lines, h, p);
    UndoOneIs(lines[p := to], h, p);
    var back := Reverse(parsed);
    assert parsed[1..] == [Add(to)] && parsed[1..][1..] == [];
    assert Reverse(parsed[1..]) == [Remove(to)] + Reverse([]);
    assert back == [Add(from), Remove(to)] && back[1..] == [Remove(to)] && back[1..][1..] == [];
    assert NewTexts(back[1..], [to]) == NewTexts([], [to][1..]);
    assert NewTexts(back, [to]) == [from];
    assert lines[..p] + [from] + lines[p + 1..] == lines[p := from];
  }

  /** Undoing need not restore: the hunk removes "a" where the file has a blank after it, and
      undoing puts back "a" alone. */
  lemma UndoLosesTrailingBlank()
    ensures var h := Hunk(1, 1, 1, 1, ["-a", "+b"]);
      ApplyHunk(["a "], h, 0) == Applied(["b"], 0) && UndoOne(["b"], h, 0) == Some(["a"])
  {
    var h := Hunk(1, 1, 1, 1, ["-a", "+b"]);
    assert ['-'] + "a" == "-a" && ['+'] + "b" == "+b";
    BlankMatches();
    var lines := ["a "];
    ReplaceLine(lines, h, 0, "a", "b", 0);
    UndoReplacement(lines, h, "a", "b", 0);
    assert lines[0 := "b"] == ["b"] && lines[0 := "a"] == ["a"];
  }
}
