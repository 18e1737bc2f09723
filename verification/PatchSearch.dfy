/** Where a hunk is placed: the search returns the best-ranked match within its reach. */
module PatchSearch {
  import opened Text
  import opened Patch

  /** The places the search looks at: the window, and three lines around the target. */
  predicate InReach(target: nat, s: nat) {
    s <= SEARCH_WINDOW || (s <= target + FUZZ && target <= s + FUZZ)
  }

  /** The search's order of preference: near places by distance, later line first; then the
      earliest place. */
  function Rank(target: nat, s: nat): nat {
    if target == s then 0
    else if target < s <= target + FUZZ then 2 * (s - target) - 1
    else if s < target <= s + FUZZ then 2 * (target - s)
    else 2 * FUZZ + 1 + s
  }

  lemma MatchFits(lines: seq<string>, expected: seq<string>, s: nat)
    requires Matches(lines, expected, s) && expected != []
    ensures s + |expected| <= |lines|
  {
    assert LineAt(lines, expected, s, |expected| - 1);
  }

  lemma {:induction false} FirstMatchIsFirst(lines: seq<string>, expected: seq<string>, start: nat, last: int)
    ensures var r := FirstMatch(lines, expected, start, last);
      && (r.None? ==> forall s: nat | start <= s <= last :: !Matches(lines, expected, s))
      && (r.Some? ==> start <= r.value <= last && Matches(lines, expected, r.value))
      && (r.Some? ==> forall s: nat | start <= s < r.value :: !Matches(lines, expected, s))
    decreases last - start + 1
  {
    if start <= last && !Matches(lines, expected, start) {
      FirstMatchIsFirst(lines, expected, start + 1, last);
    }
  }

  lemma SeekFindsFirst(lines: seq<string>, expected: seq<string>)
    requires expected != []
    ensures var r := Seek(lines, expected, SEARCH_WINDOW);
      && (r.None? ==> forall s: nat | s <= SEARCH_WINDOW :: !Matches(lines, expected, s))
      && (r.Some? ==> r.value <= SEARCH_WINDOW && Matches(lines, expected, r.value))
      && (r.Some? ==> forall s: nat | s < r.value :: !Matches(lines, expected, s))
  {
    forall s: nat | Matches(lines, expected, s) ensures s + |expected| <= |lines| {
      MatchFits(lines, expected, s);
    }
    var last := |lines| - |expected|;
    FirstMatchIsFirst(lines, expected, 0, if last < SEARCH_WINDOW then last else SEARCH_WINDOW);
  }

  lemma NearbyIsBest(lines: seq<string>, expected: seq<string>, target: nat, delta: nat, s: nat)
    requires 1 <= delta <= FUZZ + 1 && expected != []
    requires Matches(lines, expected, s) && (s <= target - delta || target + delta <= s)
    ensures var r := SearchNearby(lines, expected, target, delta);
      && (r.None? ==> s > target + FUZZ || target > s + FUZZ)
      && (r.Some? ==> InReach(target, r.value) && Rank(target, r.value) <= Rank(target, s))
    decreases FUZZ + 1 - delta
  {
    MatchFits(lines, expected, s);
    if delta <= FUZZ && Nearby(lines, expected, target, delta).None? {
      assert s != target + delta && s != target - delta;
      NearbyIsBest(lines, expected, target, delta + 1, s);
    } else if delta <= FUZZ {
      NearbyRank(lines, expected, target, delta, s);
    }
  }

  lemma NearbyRank(lines: seq<string>, expected: seq<string>, target: nat, delta: nat, s: nat)
    requires 1 <= delta <= FUZZ && Nearby(lines, expected, target, delta).Some?
    requires Matches(lines, expected, s) && s < |lines| && (s <= target - delta || target + delta <= s)
    ensures var p := Nearby(lines, expected, target, delta).value;
      InReach(target, p) && Rank(target, p) <= Rank(target, s)
  {
  }

  /** The search returns a match within reach whose rank no other match within reach beats, and
      nothing exactly when no place within reach matches. */
  lemma FindIsBest(lines: seq<string>, expected: seq<string>, target: nat)
    ensures var r := Find(lines, expected, target);
      && (r.None? ==> forall s: nat | InReach(target, s) :: !Matches(lines, expected, s))
      && (r.Some? ==> Matches(lines, expected, r.value) && InReach(target, r.value))
      && (r.Some? ==> forall s: nat | InReach(target, s) && Matches(lines, expected, s) ::
                        Rank(target, r.value) <= Rank(target, s))
  {
    FindMatches(lines, expected, target);
    if !Matches(lines, expected, target) {
      var near := SearchNearby(lines, expected, target, 1);
      assert expected != [];
      forall s: nat | Matches(lines, expected, s)
        ensures near.None? ==> s > target + FUZZ || target > s + FUZZ
        ensures near.Some? ==> InReach(target, near.value) && Rank(target, near.value) <= Rank(target, s)
      {
        NearbyIsBest(lines, expected, target, 1, s);
      }
      SeekFindsFirst(lines, expected);
    }
  }

  lemma RankDecides(target: nat, p: nat, q: nat)
    requires Rank(target, p) == Rank(target, q)
    ensures p == q
  {
  }

  /** The hunk's expected lines match at `q` and nowhere else. */
  ghost predicate OnlyMatch(lines: seq<string>, expected: seq<string>, q: nat) {
    && Matches(lines, expected, q)
    && (forall s: nat | Matches(lines, expected, s) :: s == q)
  }

  /** Stale line numbers cannot move a hunk that has one match in the window. */
  lemma UniqueMatchIsFound(lines: seq<string>, h: Hunk, offset: int, q: nat)
    requires OnlyMatch(lines, OldTexts(ParseHunk(h.content)), q) && q <= SEARCH_WINDOW
    ensures Find(lines, OldTexts(ParseHunk(h.content)), Target(h, offset)) == Some(q)
  {
    FindIsBest(lines, OldTexts(ParseHunk(h.content)), Target(h, offset));
  }

  lemma OnlyMatchExpects(lines: seq<string>, expected: seq<string>, q: nat)
    requires OnlyMatch(lines, expected, q)
    ensures expected != [] && q + |expected| <= |lines|
  {
    assert expected == [] ==> Matches(lines, expected, q + 1);
    MatchFits(lines, expected, q);
  }

  /** The content has one match in `before`, in the window, and `after` is its edit there. */
  ghost predicate OnlyEdit(before: seq<string>, content: seq<string>, q: nat, after: seq<string>) {
    var parsed := ParseHunk(content);
    && OnlyMatch(before, OldTexts(parsed), q) && q <= SEARCH_WINDOW
    && q + |OldTexts(parsed)| <= |before|
    && after == ApplyAt(before, parsed, q)
  }

  ghost predicate OnlyEditAt(states: seq<seq<string>>, contents: seq<seq<string>>, places: seq<nat>, i: nat)
    requires i < |contents| == |places| && |states| == |contents| + 1
  {
    OnlyEdit(states[i], contents[i], places[i], states[i + 1])
  }

  /** A patch each of whose hunks has one match in the window when its turn comes. */
  ghost predicate Unambiguous(states: seq<seq<string>>, contents: seq<seq<string>>, places: seq<nat>) {
    && |states| == |contents| + 1 && |places| == |contents|
    && forall i {:trigger OnlyEditAt(states, contents, places, i)} | 0 <= i < |contents| ::
         OnlyEditAt(states, contents, places, i)
  }

  lemma OnlyMatchApplies(lines: seq<string>, h: Hunk, offset: int, q: nat)
    requires OnlyMatch(lines, OldTexts(ParseHunk(h.content)), q) && q <= SEARCH_WINDOW
    ensures var parsed := ParseHunk(h.content);
            var count := |OldTexts(parsed)|;
      && q + count <= |lines|
      && ApplyHunk(lines, h, offset)
           == Applied(ApplyAt(lines, parsed, q), q + |NewTexts(parsed, lines[q..q + count])| - count)
  {
    OnlyMatchExpects(lines, OldTexts(ParseHunk(h.content)), q);
    UniqueMatchIsFound(lines, h, offset, q);
  }

  /** The outer loop over any way to apply one hunk. */
  function Rounds(step: (seq<string>, Hunk, int) -> HunkOutcome, lines: seq<string>, hunks: seq<Hunk>, i: nat, offset: int)
    : ApplyResult
    requires i <= |hunks|
    decreases |hunks| - i
  {
    if i == |hunks| then Patched(lines)
    else match step(lines, hunks[i], offset)
      case Unplaced => NoMatch(i)
      case Panics => SplicePanic(i)
      case Applied(after, next) => Rounds(step, after, hunks, i + 1, next)
  }

  lemma {:induction false} ApplyFromIsRounds(lines: seq<string>, hunks: seq<Hunk>, i: nat, offset: int)
    requires i <= |hunks|
    ensures ApplyFrom(lines, hunks, i, offset) == Rounds(ApplyHunk, lines, hunks, i, offset)
    decreases |hunks| - i
  {
    if i < |hunks| {
      var outcome := ApplyHunk(lines, hunks[i], offset);
      if outcome.Applied? {
        ApplyFromIsRounds(outcome.lines, hunks, i + 1, outcome.offset);
      }
    }
  }

  /** If every round leads from one state to the next, whatever the offset, so does the loop. */
  lemma {:induction false} RoundsThrough(
      step: (seq<string>, Hunk, int) -> HunkOutcome, states: seq<seq<string>>, hunks: seq<Hunk>, i: nat, offset: int)
    requires |states| == |hunks| + 1 && i <= |hunks|
    requires forall j, o {:trigger step(states[j], hunks[j], o)} | 0 <= j < |hunks| ::
      step(states[j], hunks[j], o).Applied? && step(states[j], hunks[j], o).lines == states[j + 1]
    ensures Rounds(step, states[i], hunks, i, offset) == Patched(states[|hunks|])
    decreases |hunks| - i
  {
    if i < |hunks| { RoundsThrough(step, states, hunks, i + 1, step(states[i], hunks[i], offset).offset); }
  }

  lemma OnlyEditApplies(
      states: seq<seq<string>>, contents: seq<seq<string>>, places: seq<nat>, h: Hunk, i: nat, offset: int)
    requires i < |contents| == |places| && |states| == |contents| + 1 && OnlyEditAt(states, contents, places, i)
    requires h.content == contents[i]
    ensures ApplyHunk(states[i], h, offset).Applied? && ApplyHunk(states[i], h, offset).lines == states[i + 1]
  {
    OnlyMatchApplies(states[i], h, offset, places[i]);
  }

  /** An unambiguous patch applies, and its result depends on no header and no offset. */
  lemma HeadersDoNotMatter(
      states: seq<seq<string>>, contents: seq<seq<string>>, places: seq<nat>, hunks: seq<Hunk>, i: nat, offset: int)
    requires Unambiguous(states, contents, places) && i <= |contents|
    requires |hunks| == |contents| && forall j | 0 <= j < |hunks| :: hunks[j].content == contents[j]
    ensures ApplyFrom(states[i], hunks, i, offset) == Patched(states[|contents|])
  {
    forall j, o | 0 <= j < |hunks|
      ensures ApplyHunk(states[j], hunks[j], o).Applied? && ApplyHunk(states[j], hunks[j], o).lines == states[j + 1]
    {
      assert OnlyEditAt(states, contents, places, j);
      OnlyEditApplies(states, contents, places, hunks[j], j, o);
    }
    RoundsThrough(ApplyHunk, states, hunks, i, offset);
    ApplyFromIsRounds(states[i], hunks, i, offset);
  }
}
