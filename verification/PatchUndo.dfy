/** What an applied patch did to the file, and how to undo it. */
module PatchUndo {
  import opened Text
  import opened Patch
  import opened PatchSearch

  /** The meaning of a hunk as a relation: context lines match and keep the file's text, remove
      lines match and go, added lines are the hunk's own. */
  ghost predicate Edits(parsed: seq<HunkLine>, before: seq<string>, after: seq<string>) {
    if parsed == [] then before == [] && after == []
    else match parsed[0]
      case Context(text) =>
        && before != [] && after != [] && before[0] == after[0] && LinesMatch(before[0], text)
        && Edits(parsed[1..], before[1..], after[1..])
      case Remove(text) =>
        before != [] && LinesMatch(before[0], text) && Edits(parsed[1..], before[1..], after)
      case Add(text) =>
        after != [] && after[0] == text && Edits(parsed[1..], before, after[1..])
  }

  function Adds(parsed: seq<HunkLine>): nat {
    if parsed == [] then 0 else (if parsed[0].Add? then 1 else 0) + Adds(parsed[1..])
  }

  function Removes(parsed: seq<HunkLine>): nat {
    if parsed == [] then 0 else (if parsed[0].Remove? then 1 else 0) + Removes(parsed[1..])
  }

  lemma MatchesCons(lines: seq<string>, expected: seq<string>, s: nat)
    requires expected != []
    ensures Matches(lines, expected, s)
       <==> s < |lines| && LinesMatch(lines[s], expected[0]) && Matches(lines, expected[1..], s + 1)
  {
    assert expected == [expected[0]] + expected[1..];
    MatchesPrefix(lines, [expected[0]], expected[1..], s);
    MatchesOne(lines, expected[0], s);
  }

  lemma MatchesShift(lines: seq<string>, expected: seq<string>, s: nat, d: nat)
    requires d <= |lines|
    ensures Matches(lines[d..], expected, s) <==> Matches(lines, expected, d + s)
  {
    var t := d + s;
    if Matches(lines[d..], expected, s) {
      forall i | 0 <= i < |expected| ensures LineAt(lines, expected, t, i) {
        assert LineAt(lines[d..], expected, s, i);
      }
    }
    if Matches(lines, expected, t) {
      forall i | 0 <= i < |expected| ensures LineAt(lines[d..], expected, s, i) {
        assert LineAt(lines, expected, t, i);
      }
    }
  }

  lemma MatchesExtend(line: string, text: string, lines: seq<string>, expected: seq<string>)
    requires LinesMatch(line, text) && Matches(lines, expected, 0)
    ensures Matches([line] + lines, [text] + expected, 0)
  {
    assert ([line] + lines)[1..] == lines && ([text] + expected)[1..] == expected;
    MatchesShift([line] + lines, expected, 0, 1);
    MatchesCons([line] + lines, [text] + expected, 0);
  }

  /** The edit relation holds exactly between a matching region and what the code puts there. */
  lemma {:induction false} EditsIff(parsed: seq<HunkLine>, before: seq<string>, after: seq<string>)
    ensures Edits(parsed, before, after)
       <==> |before| == |OldTexts(parsed)| && Matches(before, OldTexts(parsed), 0) && after == NewTexts(parsed, before)
  {
    if parsed != [] {
      var rest := parsed[1..];
      if parsed[0].Add? {
        if after != [] {
          EditsIff(rest, before, after[1..]);
          assert after == [after[0]] + after[1..];
        }
      } else if before != [] {
        MatchesCons(before, OldTexts(parsed), 0);
        MatchesShift(before, OldTexts(rest), 0, 1);
        if parsed[0].Remove? {
          EditsIff(rest, before[1..], after);
        } else if after != [] {
          EditsIff(rest, before[1..], after[1..]);
          assert after == [after[0]] + after[1..];
        }
      }
    }
  }

  lemma {:induction false} NewTextsLength(parsed: seq<HunkLine>, region: seq<string>)
    requires |region| == |OldTexts(parsed)|
    ensures |NewTexts(parsed, region)| == |region| + Adds(parsed) - Removes(parsed)
  {
    if parsed != [] {
      NewTextsLength(parsed[1..], if parsed[0].Add? then region else region[1..]);
    }
  }

  // -------------------------------------------------------------- soundness

  /** `after` is `before` with the hunk's edit made at `p` and nothing else touched. */
  ghost predicate EditedAt(before: seq<string>, parsed: seq<HunkLine>, p: nat, after: seq<string>) {
    var removed := |OldTexts(parsed)|;
    var added := removed + Adds(parsed) - Removes(parsed);
    && p + removed <= |before| && 0 <= added && p + added <= |after|
    && before[..p] == after[..p]
    && before[p + removed..] == after[p + added..]
    && Edits(parsed, before[p..p + removed], after[p..p + added])
  }

  lemma SpliceParts(lines: seq<string>, p: nat, count: nat, block: seq<string>)
    requires p + count <= |lines|
    ensures var after := Splice(lines, p, count, block);
      && |after| == |lines| - count + |block|
      && after[..p] == lines[..p] && after[p..p + |block|] == block && after[p + |block|..] == lines[p + count..]
  {
  }

  lemma RegionEdits(lines: seq<string>, parsed: seq<HunkLine>, p: nat)
    requires Matches(lines, OldTexts(parsed), p) && p + |OldTexts(parsed)| <= |lines|
    ensures var region := lines[p..p + |OldTexts(parsed)|];
      Edits(parsed, region, NewTexts(parsed, region))
  {
    var region := lines[p..p + |OldTexts(parsed)|];
    RegionMatches(lines, OldTexts(parsed), p);
    NewTextsEdit(parsed, region);
  }

  lemma NewTextsEdit(parsed: seq<HunkLine>, region: seq<string>)
    requires |region| == |OldTexts(parsed)| && Matches(region, OldTexts(parsed), 0)
    ensures Edits(parsed, region, NewTexts(parsed, region))
  {
    EditsIff(parsed, region, NewTexts(parsed, region));
  }

  lemma ApplyAtEdits(lines: seq<string>, parsed: seq<HunkLine>, p: nat)
    requires Matches(lines, OldTexts(parsed), p) && p + |OldTexts(parsed)| <= |lines|
    ensures EditedAt(lines, parsed, p, ApplyAt(lines, parsed, p))
  {
    var count := |OldTexts(parsed)|;
    var region := lines[p..p + count];
    NewTextsLength(parsed, region);
    SpliceParts(lines, p, count, NewTexts(parsed, region));
    RegionEdits(lines, parsed, p);
  }

  lemma RegionMatches(lines: seq<string>, expected: seq<string>, p: nat)
    requires p + |expected| <= |lines|
    ensures Matches(lines, expected, p) <==> Matches(lines[p..p + |expected|], expected, 0)
  {
    var region := lines[p..p + |expected|];
    if Matches(lines, expected, p) {
      forall i | 0 <= i < |expected| ensures LineAt(region, expected, 0, i) {
        assert LineAt(lines, expected, p, i);
      }
    }
    if Matches(region, expected, 0) {
      forall i | 0 <= i < |expected| ensures LineAt(lines, expected, p, i) {
        assert LineAt(region, expected, 0, i);
      }
    }
  }

  /** One place has one outcome: the edit relation leaves no freedom. */
  lemma EditedAtUnique(before: seq<string>, parsed: seq<HunkLine>, p: nat, after: seq<string>)
    requires EditedAt(before, parsed, p, after)
    ensures Matches(before, OldTexts(parsed), p) && after == ApplyAt(before, parsed, p)
  {
    var removed := |OldTexts(parsed)|;
    var added := removed + Adds(parsed) - Removes(parsed);
    SplicedFrom(before, after, p, removed, added);
    EditIsApplied(before, parsed, p, before[p..p + removed], after[p..p + added]);
  }

  lemma EditIsApplied(lines: seq<string>, parsed: seq<HunkLine>, p: nat, region: seq<string>, block: seq<string>)
    requires p + |OldTexts(parsed)| <= |lines| && region == lines[p..p + |OldTexts(parsed)|] && Edits(parsed, region, block)
    ensures Matches(lines, OldTexts(parsed), p) && ApplyAt(lines, parsed, p) == Splice(lines, p, |OldTexts(parsed)|, block)
  {
    EditsIff(parsed, region, block);
    MatchIsApplied(lines, parsed, OldTexts(parsed), p, region);
  }

  lemma MatchIsApplied(lines: seq<string>, parsed: seq<HunkLine>, expected: seq<string>, p: nat, region: seq<string>)
    requires expected == OldTexts(parsed) && p + |expected| <= |lines| && region == lines[p..p + |expected|] && Matches(region, expected, 0)
    ensures Matches(lines, expected, p) && ApplyAt(lines, parsed, p) == Splice(lines, p, |expected|, NewTexts(parsed, region))
  {
    RegionMatches(lines, expected, p);
  }

  lemma InThree(s: seq<string>, i: nat, j: nat)
    requires i <= j <= |s|
    ensures s == s[..i] + s[i..j] + s[j..]
  {
  }

  /** A file that agrees outside a region is the other one with that region spliced in. */
  lemma SplicedFrom(before: seq<string>, after: seq<string>, p: nat, removed: nat, added: nat)
    requires p + removed <= |before| && p + added <= |after|
    requires before[..p] == after[..p] && before[p + removed..] == after[p + added..]
    ensures after == Splice(before, p, removed, after[p..p + added])
  {
    InThree(after, p, p + added);
  }

  function Growth(hunks: seq<Hunk>): int {
    if hunks == [] then 0
    else var parsed := ParseHunk(hunks[0].content);
         Adds(parsed) - Removes(parsed) + Growth(hunks[1..])
  }

  ghost predicate StepAt(states: seq<seq<string>>, hunks: seq<Hunk>, places: seq<nat>, i: nat)
    requires i < |hunks| == |places| && |states| == |hunks| + 1
  {
    EditedAt(states[i], ParseHunk(hunks[i].content), places[i], states[i + 1])
  }

  /** The file before each hunk and after the last, and the place of each hunk. */
  ghost predicate Trace(states: seq<seq<string>>, hunks: seq<Hunk>, places: seq<nat>) {
    && |states| == |hunks| + 1 && |places| == |hunks|
    && forall i {:trigger StepAt(states, hunks, places, i)} | 0 <= i < |hunks| :: StepAt(states, hunks, places, i)
  }

  lemma ApplyHunkEdits(lines: seq<string>, h: Hunk, offset: int) returns (p: nat)
    requires ApplyHunk(lines, h, offset).Applied?
    ensures var after := ApplyHunk(lines, h, offset).lines;
            var parsed := ParseHunk(h.content);
      EditedAt(lines, parsed, p, after) && |after| == |lines| + Adds(parsed) - Removes(parsed)
  {
    var parsed := ParseHunk(h.content);
    p := Find(lines, OldTexts(parsed), Target(h, offset)).value;
    FindMatches(lines, OldTexts(parsed), Target(h, offset));
    ApplyAtEdits(lines, parsed, p);
    NewTextsLength(parsed, lines[p..p + |OldTexts(parsed)|]);
  }

  lemma TraceCons(lines: seq<string>, h: Hunk, p: nat, states: seq<seq<string>>, hunks: seq<Hunk>, places: seq<nat>)
    requires Trace(states, hunks, places) && EditedAt(lines, ParseHunk(h.content), p, states[0])
    ensures Trace([lines] + states, [h] + hunks, [p] + places)
  {
    forall i | 0 <= i < |[h] + hunks| ensures StepAt([lines] + states, [h] + hunks, [p] + places, i) {
      assert i > 0 ==> StepAt(states, hunks, places, i - 1);
    }
  }

  lemma TraceGrows(lines: seq<string>, hunks: seq<Hunk>, i: nat, offset: int, states: seq<seq<string>>, places: seq<nat>)
    returns (p: nat)
    requires i < |hunks| && ApplyHunk(lines, hunks[i], offset).Applied?
    requires Trace(states, hunks[i + 1..], places) && states[0] == ApplyHunk(lines, hunks[i], offset).lines
    ensures Trace([lines] + states, hunks[i..], [p] + places)
  {
    p := ApplyHunkEdits(lines, hunks[i], offset);
    TraceCons(lines, hunks[i], p, states, hunks[i + 1..], places);
    assert hunks[i..] == [hunks[i]] + hunks[i + 1..];
  }

  /** Whatever a patch did was one legal edit per hunk, in order, at a matching place. */
  lemma {:induction false} PatchIsSound(lines: seq<string>, hunks: seq<Hunk>, i: nat, offset: int)
    returns (states: seq<seq<string>>, places: seq<nat>)
    requires i <= |hunks| && ApplyFrom(lines, hunks, i, offset).Patched?
    ensures Trace(states, hunks[i..], places)
    ensures states[0] == lines && states[|states| - 1] == ApplyFrom(lines, hunks, i, offset).lines
    decreases |hunks| - i
  {
    if i == |hunks| {
      states, places := [lines], [];
    } else {
      var step := ApplyHunk(lines, hunks[i], offset);
      var laterStates, laterPlaces := PatchIsSound(step.lines, hunks, i + 1, step.offset);
      var p := TraceGrows(lines, hunks, i, offset, laterStates, laterPlaces);
      states, places := [lines] + laterStates, [p] + laterPlaces;
    }
  }

  /** The number of lines changes by exactly the additions less the removals. */
  lemma {:induction false} PatchGrows(lines: seq<string>, hunks: seq<Hunk>, i: nat, offset: int)
    requires i <= |hunks| && ApplyFrom(lines, hunks, i, offset).Patched?
    ensures |ApplyFrom(lines, hunks, i, offset).lines| == |lines| + Growth(hunks[i..])
    decreases |hunks| - i
  {
    if i < |hunks| {
      var step := ApplyHunk(lines, hunks[i], offset);
      var p := ApplyHunkEdits(lines, hunks[i], offset);
      PatchGrows(step.lines, hunks, i + 1, step.offset);
      assert hunks[i..][1..] == hunks[i + 1..];
    }
  }

  /** The splice panics exactly for a hunk that only adds and whose target lies past the end. */
  lemma PanicsIff(lines: seq<string>, h: Hunk, offset: int)
    ensures ApplyHunk(lines, h, offset).Panics? <==> OldTexts(ParseHunk(h.content)) == [] && Target(h, offset) > |lines|
  {
    var expected := OldTexts(ParseHunk(h.content));
    var target := Target(h, offset);
    if expected == [] {
      assert Matches(lines, expected, target);
    } else {
      FindMatches(lines, expected, target);
      if Find(lines, expected, target).Some? {
        MatchFits(lines, expected, Find(lines, expected, target).value);
      }
    }
  }

  // ------------------------------------------------------------------- undo

  function ReverseLine(line: HunkLine): HunkLine {
    match line
    case Context(text) => Context(text)
    case Remove(text) => Add(text)
    case Add(text) => Remove(text)
  }

  function Reverse(parsed: seq<HunkLine>): seq<HunkLine> {
    if parsed == [] then [] else [ReverseLine(parsed[0])] + Reverse(parsed[1..])
  }

  function ReverseRaw(line: string): string {
    if line == [] then line
    else if line[0] == '-' then ['+'] + line[1..]
    else if line[0] == '+' then ['-'] + line[1..]
    else line
  }

  function ReverseContent(content: seq<string>): seq<string> {
    if content == [] then [] else [ReverseRaw(content[0])] + ReverseContent(content[1..])
  }

  lemma {:induction false} ParseReversed(content: seq<string>)
    ensures ParseHunk(ReverseContent(content)) == Reverse(ParseHunk(content))
  {
    if content != [] {
      ParseReversed(content[1..]);
      var line := content[0];
      assert ReverseContent(content)[1..] == ReverseContent(content[1..]);
      assert line != [] && line[0] in "-+" ==> ReverseRaw(line)[1..] == line[1..];
    }
  }

  /** The hunk with additions and removals swapped, addressed to the place it was applied. */
  function Inverse(h: Hunk, p: nat): Hunk {
    Hunk(p + 1, h.newCount, p + 1, h.oldCount, ReverseContent(h.content))
  }

  /** A fresh call that applies the inverse hunk alone. */
  function UndoOne(lines: seq<string>, h: Hunk, p: nat): Option<seq<string>> {
    match Apply(lines, [Inverse(h, p)])
    case Patched(restored) => Some(restored)
    case _ => None
  }

  /** Every remove line is the file's line to the letter, not only up to normalisation. */
  ghost predicate ExactRemoves(parsed: seq<HunkLine>, region: seq<string>)
    requires |region| == |OldTexts(parsed)|
  {
    parsed == []
    || if parsed[0].Add? then ExactRemoves(parsed[1..], region)
       else (parsed[0].Remove? ==> region[0] == parsed[0].text) && ExactRemoves(parsed[1..], region[1..])
  }

  lemma {:induction false} ReverseEdit(parsed: seq<HunkLine>, region: seq<string>)
    requires |region| == |OldTexts(parsed)| && Matches(region, OldTexts(parsed), 0)
    ensures var block := NewTexts(parsed, region);
      && |OldTexts(Reverse(parsed))| == |block| && Matches(block, OldTexts(Reverse(parsed)), 0)
      && |NewTexts(Reverse(parsed), block)| == |region|
      && (NewTexts(Reverse(parsed), block) == region <==> ExactRemoves(parsed, region))
  {
    if parsed != [] {
      var rest, back := parsed[1..], Reverse(parsed);
      var block := NewTexts(parsed, region);
      assert back[1..] == Reverse(rest);
      if parsed[0].Add? {
        ReverseEdit(rest, region);
        assert block[1..] == NewTexts(rest, region);
        MatchesExtend(block[0], parsed[0].text, block[1..], OldTexts(back[1..]));
      } else {
        MatchesCons(region, OldTexts(parsed), 0);
        MatchesShift(region, OldTexts(rest), 0, 1);
        ReverseEdit(rest, region[1..]);
        assert region == [region[0]] + region[1..];
        if parsed[0].Context? {
          assert block[1..] == NewTexts(rest, region[1..]);
          MatchesExtend(block[0], parsed[0].text, block[1..], OldTexts(back[1..]));
        }
      }
    }
  }

  /** In the file after the hunk, its inverse is found where the hunk was. */
  lemma InverseIsFound(lines: seq<string>, h: Hunk, p: nat)
    requires var expected := OldTexts(ParseHunk(h.content));
      Matches(lines, expected, p) && p + |expected| <= |lines|
    ensures var parsed := ParseHunk(h.content);
            var block := NewTexts(parsed, lines[p..p + |OldTexts(parsed)|]);
            var out := ApplyAt(lines, parsed, p);
      && ParseHunk(Inverse(h, p).content) == Reverse(parsed)
      && |OldTexts(Reverse(parsed))| == |block| && p + |block| <= |out| && out[p..p + |block|] == block
      && Find(out, OldTexts(Reverse(parsed)), Target(Inverse(h, p), 0)) == Some(p)
  {
    ParseReversed(h.content);
    ReversedMatches(lines, ParseHunk(h.content), p);
  }

  lemma ReversedMatches(lines: seq<string>, parsed: seq<HunkLine>, p: nat)
    requires Matches(lines, OldTexts(parsed), p) && p + |OldTexts(parsed)| <= |lines|
    ensures var block := NewTexts(parsed, lines[p..p + |OldTexts(parsed)|]);
            var out := ApplyAt(lines, parsed, p);
      && |OldTexts(Reverse(parsed))| == |block| && p + |block| <= |out| && out[p..p + |block|] == block
      && Matches(out, OldTexts(Reverse(parsed)), p)
  {
    var region := lines[p..p + |OldTexts(parsed)|];
    RegionMatches(lines, OldTexts(parsed), p);
    ReverseEdit(parsed, region);
    SpliceParts(lines, p, |region|, NewTexts(parsed, region));
    RegionMatches(ApplyAt(lines, parsed, p), OldTexts(Reverse(parsed)), p);
  }

  lemma SpliceTwice(lines: seq<string>, p: nat, count: nat, a: seq<string>, b: seq<string>)
    requires p + count <= |lines|
    ensures p + |a| <= |Splice(lines, p, count, a)|
    ensures Splice(Splice(lines, p, count, a), p, |a|, b) == Splice(lines, p, count, b)
  {
    SpliceParts(lines, p, count, a);
  }

  /** The inverse hunk is placed where the hunk was, and puts its own old lines back. */
  lemma InverseApplies(lines: seq<string>, h: Hunk, p: nat)
    requires var expected := OldTexts(ParseHunk(h.content));
      Matches(lines, expected, p) && p + |expected| <= |lines|
    ensures var parsed := ParseHunk(h.content);
            var count := |OldTexts(parsed)|;
            var block := NewTexts(parsed, lines[p..p + count]);
            var undone := ApplyHunk(ApplyAt(lines, parsed, p), Inverse(h, p), 0);
      && |OldTexts(Reverse(parsed))| == |block|
      && undone.Applied? && undone.lines == Splice(lines, p, count, NewTexts(Reverse(parsed), block))
  {
    var parsed := ParseHunk(h.content);
    var count := |OldTexts(parsed)|;
    InverseIsFound(lines, h, p);
    var block := NewTexts(parsed, lines[p..p + count]);
    SpliceTwice(lines, p, count, block, NewTexts(Reverse(parsed), block));
  }

  lemma UndoOneIs(lines: seq<string>, h: Hunk, p: nat)
    requires ApplyHunk(lines, Inverse(h, p), 0).Applied?
    ensures UndoOne(lines, h, p) == Some(ApplyHunk(lines, Inverse(h, p), 0).lines)
  {
    var step := ApplyHunk(lines, Inverse(h, p), 0);
    assert ApplyFrom(step.lines, [Inverse(h, p)], 1, step.offset) == Patched(step.lines);
  }

  lemma SpliceSameIff(lines: seq<string>, p: nat, count: nat, block: seq<string>)
    requires p + count <= |lines| && |block| == count
    ensures Splice(lines, p, count, block) == lines <==> block == lines[p..p + count]
  {
    SpliceParts(lines, p, count, block);
    assert lines == lines[..p] + lines[p..p + count] + lines[p + count..];
  }

  lemma PutBackIff(lines: seq<string>, parsed: seq<HunkLine>, p: nat)
    requires Matches(lines, OldTexts(parsed), p) && p + |OldTexts(parsed)| <= |lines|
    ensures var count := |OldTexts(parsed)|;
            var region := lines[p..p + count];
            var block := NewTexts(parsed, region);
      && |OldTexts(Reverse(parsed))| == |block|
      && (Splice(lines, p, count, NewTexts(Reverse(parsed), block)) == lines <==> ExactRemoves(parsed, region))
  {
    var region := lines[p..p + |OldTexts(parsed)|];
    RegionMatches(lines, OldTexts(parsed), p);
    ReverseEdit(parsed, region);
    SpliceSameIff(lines, p, |region|, NewTexts(Reverse(parsed), NewTexts(parsed, region)));
  }

  /** Undoing one hunk: the inverse always applies, and it restores the file exactly when the
      remove lines were exact. */
  lemma UndoRestoresIff(lines: seq<string>, h: Hunk, p: nat)
    requires var expected := OldTexts(ParseHunk(h.content));
      Matches(lines, expected, p) && p + |expected| <= |lines|
    ensures var parsed := ParseHunk(h.content);
            var undone := UndoOne(ApplyAt(lines, parsed, p), h, p);
      && undone.Some?
      && (undone.value == lines <==> ExactRemoves(parsed, lines[p..p + |OldTexts(parsed)|]))
  {
    var parsed := ParseHunk(h.content);
    InverseApplies(lines, h, p);
    UndoOneIs(ApplyAt(lines, parsed, p), h, p);
    PutBackIff(lines, parsed, p);
  }

  /** Undoes the first `k` hunks of a patch, one call each, the last one first. */
  function UndoAll(lines: seq<string>, hunks: seq<Hunk>, places: seq<nat>, k: nat): Option<seq<string>>
    requires k <= |hunks| == |places|
    decreases k
  {
    if k == 0 then Some(lines)
    else match UndoOne(lines, hunks[k - 1], places[k - 1])
      case None => None
      case Some(previous) => UndoAll(previous, hunks, places, k - 1)
  }

  /** Step `i` of the trace is an edit whose remove lines were exact. */
  ghost predicate ExactStepAt(states: seq<seq<string>>, hunks: seq<Hunk>, places: seq<nat>, i: nat)
    requires i < |hunks| == |places| && |states| == |hunks| + 1
  {
    var parsed := ParseHunk(hunks[i].content);
    && StepAt(states, hunks, places, i)
    && ExactRemoves(parsed, states[i][places[i]..places[i] + |OldTexts(parsed)|])
  }

  ghost predicate ExactTrace(states: seq<seq<string>>, hunks: seq<Hunk>, places: seq<nat>) {
    && |states| == |hunks| + 1 && |places| == |hunks|
    && forall i {:trigger ExactStepAt(states, hunks, places, i)} | 0 <= i < |hunks| :: ExactStepAt(states, hunks, places, i)
  }

  lemma UndoStep(states: seq<seq<string>>, hunks: seq<Hunk>, places: seq<nat>, i: nat)
    requires ExactTrace(states, hunks, places) && i < |hunks|
    ensures UndoOne(states[i + 1], hunks[i], places[i]) == Some(states[i])
  {
    assert ExactStepAt(states, hunks, places, i);
    EditedAtUnique(states[i], ParseHunk(hunks[i].content), places[i], states[i + 1]);
    UndoRestoresIff(states[i], hunks[i], places[i]);
  }

  /** Undoing a whole patch by inverse hunks in reverse order gives back the original file. */
  lemma {:induction false} UndoAllRestores(states: seq<seq<string>>, hunks: seq<Hunk>, places: seq<nat>, k: nat)
    requires ExactTrace(states, hunks, places) && k <= |hunks|
    ensures UndoAll(states[k], hunks, places, k) == Some(states[0])
  {
    if k > 0 {
      UndoStep(states, hunks, places, k - 1);
      UndoAllRestores(states, hunks, places, k - 1);
    }
  }
}
