/** Locating and applying patch hunks on a list of lines
    (crates/platform/src/structured_patch.rs). */
module Patch {
  import opened Text

  const SEARCH_WINDOW := 10_000
  const FUZZ := 3

  // ----------------------------------------------------------- hunk content

  datatype HunkLine = Context(text: string) | Remove(text: string) | Add(text: string)

  /** `content` is the hunk text split into its raw lines. */
  datatype Hunk = Hunk(oldStart: nat, oldCount: nat, newStart: nat, newCount: nat, content: seq<string>)

  function ParseLine(line: string): Option<HunkLine> {
    if line == [] then Some(Context([]))
    else match line[0]
      case ' ' => Some(Context(line[1..]))
      case '-' => Some(Remove(line[1..]))
      case '+' => Some(Add(line[1..]))
      case _ => None
  }

  /** `parse_hunk_lines`: lines with no prefix are dropped. */
  function ParseHunk(content: seq<string>): seq<HunkLine> {
    if content == [] then []
    else match ParseLine(content[0])
      case None => ParseHunk(content[1..])
      case Some(line) => [line] + ParseHunk(content[1..])
  }

  // --------------------------------------------------------- fuzzy equality

  function NormalizeChar(c: char): char {
    var n := c as int;
    if n == 0x2013 || n == 0x2014 || n == 0x2015 then '-'
    else if n == 0x2018 || n == 0x2019 then '\''
    else if n == 0x201C || n == 0x201D then '"'
    else c
  }

  function NormalizeChars(s: string): string {
    if s == [] then [] else [NormalizeChar(s[0])] + NormalizeChars(s[1..])
  }

  function TrimEnd(s: string): string {
    if s == [] || !IsWhitespace(s[|s| - 1]) then s else TrimEnd(s[..|s| - 1])
  }

  function NormalizeLine(s: string): string {
    TrimEnd(NormalizeChars(s))
  }

  predicate LinesMatch(actual: string, expected: string) {
    NormalizeLine(actual) == NormalizeLine(expected)
  }

  // -------------------------------------------------------------- searching

  /** The context and remove lines: what the hunk expects of the file. */
  function OldTexts(parsed: seq<HunkLine>): seq<string> {
    if parsed == [] then []
    else if parsed[0].Add? then OldTexts(parsed[1..])
    else [parsed[0].text] + OldTexts(parsed[1..])
  }

  predicate LineAt(lines: seq<string>, expected: seq<string>, start: nat, i: nat)
    requires i < |expected|
  {
    start + i < |lines| && LinesMatch(lines[start + i], expected[i])
  }

  /** The hunk's expected lines match the file from `start` on. */
  predicate Matches(lines: seq<string>, expected: seq<string>, start: nat) {
    forall i {:trigger LineAt(lines, expected, start, i)} | 0 <= i < |expected| :: LineAt(lines, expected, start, i)
  }

  function Target(h: Hunk, offset: int): nat {
    var t := h.oldStart - 1 + offset;
    if t < 0 then 0 else t
  }

  /** The candidates at distance `delta`, in the order they are tried. */
  function Nearby(lines: seq<string>, expected: seq<string>, target: nat, delta: nat): Option<nat> {
    if target + delta < |lines| && Matches(lines, expected, target + delta) then Some(target + delta)
    else if delta <= target && Matches(lines, expected, target - delta) then Some(target - delta)
    else None
  }

  function SearchNearby(lines: seq<string>, expected: seq<string>, target: nat, delta: nat): Option<nat>
    requires delta <= FUZZ + 1
    decreases FUZZ + 1 - delta, target
  {
    if delta == FUZZ + 1 then None
    else
      var near := Nearby(lines, expected, target, delta);
      if near.Some? then near else SearchNearby(lines, expected, target, delta + 1)
  }

  function FirstMatch(lines: seq<string>, expected: seq<string>, start: nat, last: int): Option<nat>
    decreases last - start + 1
  {
    if start > last then None
    else if Matches(lines, expected, start) then Some(start)
    else FirstMatch(lines, expected, start + 1, last)
  }

  /** `seek_sequence`. */
  function Seek(lines: seq<string>, expected: seq<string>, window: nat): Option<nat> {
    if |expected| == 0 || |expected| > |lines| then None
    else
      var last := |lines| - |expected|;
      FirstMatch(lines, expected, 0, if last < window then last else window)
  }

  /** `find_hunk_position`: the exact place, then up to three lines away, then the first place
      in the search window. */
  function Find(lines: seq<string>, expected: seq<string>, target: nat): Option<nat> {
    if Matches(lines, expected, target) then Some(target)
    else
      var near := SearchNearby(lines, expected, target, 1);
      if near.Some? then near else Seek(lines, expected, SEARCH_WINDOW)
  }

  // --------------------------------------------------------------- applying

  /** What the hunk puts in place of `region`: file text for context, hunk text for additions. */
  function NewTexts(parsed: seq<HunkLine>, region: seq<string>): seq<string>
    requires |region| == |OldTexts(parsed)|
  {
    if parsed == [] then []
    else match parsed[0]
      case Context(_) => [region[0]] + NewTexts(parsed[1..], region[1..])
      case Remove(_) => NewTexts(parsed[1..], region[1..])
      case Add(text) => [text] + NewTexts(parsed[1..], region)
  }

  function Splice(lines: seq<string>, start: nat, count: nat, block: seq<string>): seq<string>
    requires start + count <= |lines|
  {
    lines[..start] + block + lines[start + count..]
  }

  /** One hunk applied at a place it matches. */
  function ApplyAt(lines: seq<string>, parsed: seq<HunkLine>, p: nat): seq<string>
    requires p + |OldTexts(parsed)| <= |lines|
  {
    var count := |OldTexts(parsed)|;
    Splice(lines, p, count, NewTexts(parsed, lines[p..p + count]))
  }

  /** One round of the outer loop. `Panics` is the out-of-range splice of a hunk that expects
      nothing of the file. */
  datatype HunkOutcome = Applied(lines: seq<string>, offset: int) | Unplaced | Panics

  function ApplyHunk(lines: seq<string>, h: Hunk, offset: int): HunkOutcome {
    var parsed := ParseHunk(h.content);
    var count := |OldTexts(parsed)|;
    match Find(lines, OldTexts(parsed), Target(h, offset))
    case None => Unplaced
    case Some(p) =>
      if p + count > |lines| then Panics
      else Applied(ApplyAt(lines, parsed, p), p + |NewTexts(parsed, lines[p..p + count])| - count)
  }

  datatype ApplyResult = Patched(lines: seq<string>) | NoMatch(hunk: nat) | SplicePanic(hunk: nat)

  /** `apply_patch_hunks` from its `i`-th hunk on. */
  function ApplyFrom(lines: seq<string>, hunks: seq<Hunk>, i: nat, offset: int): ApplyResult
    requires i <= |hunks|
    decreases |hunks| - i
  {
    if i == |hunks| then Patched(lines)
    else match ApplyHunk(lines, hunks[i], offset)
      case Unplaced => NoMatch(i)
      case Panics => SplicePanic(i)
      case Applied(after, next) => ApplyFrom(after, hunks, i + 1, next)
  }

  function Apply(lines: seq<string>, hunks: seq<Hunk>): ApplyResult {
    ApplyFrom(lines, hunks, 0, 0)
  }

  // ---------------------------------------------------------------- methods

  lemma MatchesPrefix(lines: seq<string>, a: seq<string>, b: seq<string>, start: nat)
    ensures Matches(lines, a + b, start) <==> Matches(lines, a, start) && Matches(lines, b, start + |a|)
  {
    if Matches(lines, a + b, start) {
      forall i | 0 <= i < |a| ensures LineAt(lines, a, start, i) {
        assert LineAt(lines, a + b, start, i);
      }
      var mid := start + |a|;
      forall i | 0 <= i < |b| ensures LineAt(lines, b, mid, i) {
        assert LineAt(lines, a + b, start, |a| + i);
      }
    }
    if Matches(lines, a, start) && Matches(lines, b, start + |a|) {
      forall i | 0 <= i < |a + b| ensures LineAt(lines, a + b, start, i) {
        assert i < |a| ==> LineAt(lines, a, start, i);
        assert i >= |a| ==> LineAt(lines, b, start + |a|, i - |a|);
      }
    }
  }

  lemma MatchesOne(lines: seq<string>, text: string, pos: nat)
    ensures Matches(lines, [text], pos) <==> pos < |lines| && LinesMatch(lines[pos], text)
  {
    assert Matches(lines, [text], pos) ==> LineAt(lines, [text], pos, 0);
  }

  lemma OldTextsConcat(a: seq<HunkLine>, b: seq<HunkLine>)
    ensures OldTexts(a + b) == OldTexts(a) + OldTexts(b)
  {
    if a == [] {
      assert a + b == b;
    } else {
      assert (a + b)[1..] == a[1..] + b;
      OldTextsConcat(a[1..], b);
    }
  }

  /** Reading one more line of the hunk: an addition expects nothing, any other line one more. */
  lemma OneMoreLine(parsed: seq<HunkLine>, k: nat)
    requires k < |parsed|
    ensures OldTexts(parsed[..k + 1]) == OldTexts(parsed[..k]) + if parsed[k].Add? then [] else [parsed[k].text]
  {
    assert parsed[..k + 1] == parsed[..k] + [parsed[k]];
    OldTextsConcat(parsed[..k], [parsed[k]]);
    OldTextsOne(parsed[k]);
  }

  lemma OldTextsOne(line: HunkLine)
    ensures OldTexts([line]) == if line.Add? then [] else [line.text]
  {
    assert [line][1..] == [];
  }

  lemma PrefixMatches(lines: seq<string>, parsed: seq<HunkLine>, k: nat, start: nat)
    requires k <= |parsed| && Matches(lines, OldTexts(parsed), start)
    ensures Matches(lines, OldTexts(parsed[..k]), start)
  {
    assert parsed == parsed[..k] + parsed[k..];
    OldTextsConcat(parsed[..k], parsed[k..]);
    MatchesPrefix(lines, OldTexts(parsed[..k]), OldTexts(parsed[k..]), start);
  }

  /** The hunk matches up to and including line `k`. */
  lemma MatchesMore(lines: seq<string>, parsed: seq<HunkLine>, k: nat, start: nat)
    requires k < |parsed| && Matches(lines, OldTexts(parsed[..k]), start)
    ensures var pos := start + |OldTexts(parsed[..k])|;
      Matches(lines, OldTexts(parsed[..k + 1]), start) <==>
        parsed[k].Add? || (pos < |lines| && LinesMatch(lines[pos], parsed[k].text))
  {
    OneMoreLine(parsed, k);
    var before, text := OldTexts(parsed[..k]), parsed[k].text;
    if parsed[k].Add? {
      assert before + [] == before;
    } else {
      MatchesPrefix(lines, before, [text], start);
      MatchesOne(lines, text, start + |before|);
    }
  }

  /** `matches_hunk_at`. */
  method MatchesHunkAt(lines: seq<string>, parsed: seq<HunkLine>, start: nat) returns (b: bool)
    ensures b == Matches(lines, OldTexts(parsed), start)
  {
    var pos := start;
    var k := 0;
    while k < |parsed|
      invariant 0 <= k <= |parsed|
      invariant pos == start + |OldTexts(parsed[..k])|
      invariant Matches(lines, OldTexts(parsed[..k]), start)
    {
      MatchesMore(lines, parsed, k, start);
      OneMoreLine(parsed, k);
      if !parsed[k].Add? {
        if pos >= |lines| || !LinesMatch(lines[pos], parsed[k].text) {
          if Matches(lines, OldTexts(parsed), start) {
            PrefixMatches(lines, parsed, k + 1, start);
          }
          return false;
        }
        pos := pos + 1;
      }
      k := k + 1;
    }
    assert parsed[..k] == parsed;
    return true;
  }

  method SeekSequence(lines: seq<string>, parsed: seq<HunkLine>, window: nat) returns (r: Option<nat>)
    ensures r == Seek(lines, OldTexts(parsed), window)
  {
    var expected := OldTexts(parsed);
    if |expected| == 0 || |expected| > |lines| {
      return None;
    }
    var last := |lines| - |expected|;
    if last > window { last := window; }
    var start := 0;
    while start <= last
      invariant 0 <= start <= last + 1
      invariant FirstMatch(lines, expected, start, last) == FirstMatch(lines, expected, 0, last)
    {
      var hit := MatchesHunkAt(lines, parsed, start);
      if hit {
        return Some(start);
      }
      start := start + 1;
    }
    return None;
  }

  /** Both candidates at one distance, the later line first. */
  method TryNearby(lines: seq<string>, parsed: seq<HunkLine>, target: nat, delta: nat) returns (r: Option<nat>)
    ensures r == Nearby(lines, OldTexts(parsed), target, delta)
  {
    if target + delta < |lines| {
      var later := MatchesHunkAt(lines, parsed, target + delta);
      if later {
        return Some(target + delta);
      }
    }
    if target >= delta {
      var earlier := MatchesHunkAt(lines, parsed, target - delta);
      if earlier {
        return Some(target - delta);
      }
    }
    return None;
  }

  method FindHunkPosition(lines: seq<string>, h: Hunk, offset: int) returns (r: Option<nat>)
    ensures r == Find(lines, OldTexts(ParseHunk(h.content)), Target(h, offset))
  {
    var target := Target(h, offset);
    var parsed := ParseHunk(h.content);
    ghost var expected := OldTexts(parsed);
    var hit := MatchesHunkAt(lines, parsed, target);
    if hit {
      return Some(target);
    }
    var delta := 1;
    while delta <= FUZZ
      invariant 1 <= delta <= FUZZ + 1
      invariant SearchNearby(lines, expected, target, delta) == SearchNearby(lines, expected, target, 1)
    {
      r := TryNearby(lines, parsed, target, delta);
      if r.Some? {
        return;
      }
      delta := delta + 1;
    }
    r := SeekSequence(lines, parsed, SEARCH_WINDOW);
  }

  /** Each line the rest of the hunk expects is there from `pos` on. */
  predicate Consumable(lines: seq<string>, rest: seq<HunkLine>, pos: nat) {
    rest == []
    || if rest[0].Add? then Consumable(lines, rest[1..], pos)
       else pos < |lines| && LinesMatch(lines[pos], rest[0].text) && Consumable(lines, rest[1..], pos + 1)
  }

  lemma {:induction false} MatchesConsumable(lines: seq<string>, parsed: seq<HunkLine>, start: nat)
    requires Matches(lines, OldTexts(parsed), start)
    ensures Consumable(lines, parsed, start)
  {
    if parsed != [] {
      if parsed[0].Add? {
        MatchesConsumable(lines, parsed[1..], start);
      } else {
        MatchesPrefix(lines, [parsed[0].text], OldTexts(parsed[1..]), start);
        MatchesOne(lines, parsed[0].text, start);
        MatchesConsumable(lines, parsed[1..], start + 1);
      }
    }
  }

  /** What one line of the hunk puts into the block. */
  function NewLine(lines: seq<string>, hl: HunkLine, pos: nat): seq<string>
    requires hl.Add? || pos < |lines|
  {
    match hl
    case Context(_) => [lines[pos]]
    case Remove(_) => []
    case Add(text) => [text]
  }

  /** The block and the position after the rest of the hunk. */
  function Build(lines: seq<string>, rest: seq<HunkLine>, pos: nat, block: seq<string>): (seq<string>, nat)
    requires Consumable(lines, rest, pos)
    decreases |rest|
  {
    if rest == [] then (block, pos)
    else Build(lines, rest[1..], if rest[0].Add? then pos else pos + 1, block + NewLine(lines, rest[0], pos))
  }

  lemma {:induction false} BuildIsNewTexts(
      lines: seq<string>, rest: seq<HunkLine>, pos: nat, block: seq<string>, region: seq<string>)
    requires Consumable(lines, rest, pos) && |region| == |OldTexts(rest)| && IsSlice(lines, pos, region)
    ensures Build(lines, rest, pos, block) == (block + NewTexts(rest, region), pos + |region|)
    decreases |rest|
  {
    if rest == [] {
      assert block + [] == block;
    } else {
      var line := NewLine(lines, rest[0], pos);
      if rest[0].Add? {
        BuildIsNewTexts(lines, rest[1..], pos, block + line, region);
        Associative(block, line, NewTexts(rest[1..], region));
      } else {
        SliceTail(lines, pos, region);
        BuildIsNewTexts(lines, rest[1..], pos + 1, block + line, region[1..]);
        assert NewTexts(rest, region) == line + NewTexts(rest[1..], region[1..]);
        Associative(block, line, NewTexts(rest[1..], region[1..]));
      }
    }
  }

  predicate IsSlice(lines: seq<string>, pos: nat, region: seq<string>) {
    pos + |region| <= |lines| && forall i {:trigger region[i]} | 0 <= i < |region| :: region[i] == lines[pos + i]
  }

  lemma SliceTail(lines: seq<string>, pos: nat, region: seq<string>)
    requires IsSlice(lines, pos, region) && region != []
    ensures region[0] == lines[pos] && IsSlice(lines, pos + 1, region[1..])
  {
  }

  lemma Associative(a: seq<string>, b: seq<string>, c: seq<string>)
    ensures (a + b) + c == a + (b + c)
  {
  }

  /** The inner loop of `apply_patch_hunks`: its two mismatch errors cannot happen once the
      place was found. */
  method BuildBlock(lines: seq<string>, parsed: seq<HunkLine>, start: nat) returns (block: seq<string>, pos: nat)
    requires Matches(lines, OldTexts(parsed), start) && start + |OldTexts(parsed)| <= |lines|
    ensures pos == start + |OldTexts(parsed)|
    ensures block == NewTexts(parsed, lines[start..pos])
  {
    block, pos := [], start;
    MatchesConsumable(lines, parsed, start);
    ghost var whole := Build(lines, parsed, start, []);
    var rest := parsed;
    while rest != []
      invariant Consumable(lines, rest, pos)
      invariant Build(lines, rest, pos, block) == whole
      decreases |rest|
    {
      block, pos := BuildLine(lines, rest[0], pos, block);
      rest := rest[1..];
    }
    BuildIsNewTexts(lines, parsed, start, [], lines[start..start + |OldTexts(parsed)|]);
  }

  /** One round of that loop. */
  method BuildLine(lines: seq<string>, hl: HunkLine, at: nat, built: seq<string>) returns (block: seq<string>, pos: nat)
    requires !hl.Add? ==> at < |lines| && LinesMatch(lines[at], hl.text)
    ensures pos == if hl.Add? then at else at + 1
    ensures block == built + NewLine(lines, hl, at)
  {
    block, pos := built, at;
    match hl
    case Context(expected) =>
      if at >= |lines| || !LinesMatch(lines[at], expected) {
        assert false;
      }
      block := block + [lines[at]];
      pos := pos + 1;
    case Remove(expected) =>
      if at >= |lines| || !LinesMatch(lines[at], expected) {
        assert false;
      }
      pos := pos + 1;
    case Add(line) =>
      block := block + [line];
  }

  method ApplyOneHunk(lines: seq<string>, h: Hunk, offset: int) returns (r: HunkOutcome)
    ensures r == ApplyHunk(lines, h, offset)
  {
    var found := FindHunkPosition(lines, h, offset);
    if found.None? {
      return Unplaced;
    }
    var parsed := ParseHunk(h.content);
    var start := found.value;
    var oldCount := |OldTexts(parsed)|;
    if start + oldCount > |lines| {
      return Panics;
    }
    FindMatches(lines, OldTexts(parsed), Target(h, offset));
    var block, pos := BuildBlock(lines, parsed, start);
    return Applied(Splice(lines, start, pos - start, block), start + |block| - oldCount);
  }

  method ApplyPatchHunks(original: seq<string>, hunks: seq<Hunk>) returns (r: ApplyResult)
    ensures r == Apply(original, hunks)
  {
    var lines, offset: int, i := original, 0, 0;
    while i < |hunks|
      invariant 0 <= i <= |hunks|
      invariant ApplyFrom(lines, hunks, i, offset) == Apply(original, hunks)
    {
      var step := ApplyOneHunk(lines, hunks[i], offset);
      match step
      case Unplaced => return NoMatch(i);
      case Panics => return SplicePanic(i);
      case Applied(after, next) =>
        lines, offset := after, next;
        i := i + 1;
    }
    return Patched(lines);
  }

  lemma FirstMatchMatches(lines: seq<string>, expected: seq<string>, start: nat, last: int)
    ensures var r := FirstMatch(lines, expected, start, last);
      r.Some? ==> start <= r.value <= last && Matches(lines, expected, r.value)
    decreases last - start + 1
  {
  }

  /** Whatever place the search returns, the hunk's expected lines match there. */
  lemma FindMatches(lines: seq<string>, expected: seq<string>, target: nat)
    ensures var r := Find(lines, expected, target); r.Some? ==> Matches(lines, expected, r.value)
  {
    var last := |lines| - |expected|;
    FirstMatchMatches(lines, expected, 0, if last < SEARCH_WINDOW then last else SEARCH_WINDOW);
    NearbyMatches(lines, expected, target, 1);
  }

  lemma NearbyMatches(lines: seq<string>, expected: seq<string>, target: nat, delta: nat)
    requires delta <= FUZZ + 1
    ensures var r := SearchNearby(lines, expected, target, delta); r.Some? ==> Matches(lines, expected, r.value)
    decreases FUZZ + 1 - delta
  {
    if delta <= FUZZ {
      NearbyMatches(lines, expected, target, delta + 1);
    }
  }
}
