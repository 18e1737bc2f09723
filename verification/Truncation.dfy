/** Cutting a string at a byte limit without splitting a character
    (crates/mnemosyne/src/projection.rs). */
module Truncation {
  import opened Text
  import opened Utf8

  /** `str::is_char_boundary`, for positions within the string. */
  predicate IsBoundary(bytes: seq<Byte>, end: nat)
    requires end <= |bytes|
  {
    end == 0 || end == |bytes| || !IsContinuation(bytes[end])
  }

  lemma EncodeConcat(a: string, b: string)
    ensures Encode(a + b) == Encode(a) + Encode(b)
  {
    if a == [] {
      assert a + b == b;
    } else {
      assert (a + b)[1..] == a[1..] + b;
      EncodeConcat(a[1..], b);
    }
  }

  /** The characters that fit into `end` bytes. */
  function Fitting(s: string, end: nat): string {
    if s == [] || CharBytes(s[0]) > end then [] else [s[0]] + Fitting(s[1..], end - CharBytes(s[0]))
  }

  /** A prefix within the limit that no further character fits after. */
  predicate Longest(s: string, end: nat, r: string) {
    r <= s && ByteLen(r) <= end && (|r| < |s| ==> ByteLen(r) + CharBytes(s[|r|]) > end)
  }

  lemma ByteLenCons(c: char, s: string)
    ensures ByteLen([c] + s) == CharBytes(c) + ByteLen(s)
  {
    assert ([c] + s)[1..] == s;
  }

  lemma LongestCons(s: string, end: nat, r: string)
    requires s != [] && CharBytes(s[0]) <= end && Longest(s[1..], end - CharBytes(s[0]), r)
    ensures Longest(s, end, [s[0]] + r)
  {
    ByteLenCons(s[0], r);
    assert |r| < |s[1..]| ==> s[1..][|r|] == s[|r| + 1];
  }

  lemma {:induction false} FittingIsLongest(s: string, end: nat)
    ensures Longest(s, end, Fitting(s, end))
  {
    if s != [] && CharBytes(s[0]) <= end {
      FittingIsLongest(s[1..], end - CharBytes(s[0]));
      LongestCons(s, end, Fitting(s[1..], end - CharBytes(s[0])));
    }
  }

  lemma LongestTail(s: string, end: nat, r: string)
    requires Longest(s, end, r) && r != []
    ensures s != [] && r[0] == s[0] && CharBytes(s[0]) <= end && Longest(s[1..], end - CharBytes(s[0]), r[1..])
  {
    assert r[1..] <= s[1..];
  }

  /** The fitting prefix is the only one that is within the limit and cannot be extended. */
  lemma {:induction false} FittingUnique(s: string, end: nat, r: string)
    requires Longest(s, end, r)
    ensures r == Fitting(s, end)
  {
    if r != [] {
      LongestTail(s, end, r);
      FittingUnique(s[1..], end - CharBytes(s[0]), r[1..]);
      assert r == [r[0]] + r[1..];
    }
  }

  lemma PrefixBytes(r: string, s: string)
    requires r <= s
    ensures ByteLen(r) <= ByteLen(s) && Encode(r) == Encode(s)[..ByteLen(r)]
  {
    assert s == r + s[|r|..];
    EncodeConcat(r, s[|r|..]);
    ByteLenConcat(r, s[|r|..]);
  }

  lemma FirstByte(s: string)
    ensures s != [] ==> !IsContinuation(Encode(s)[0])
  {
  }

  lemma EncodeCons(c: char, rest: string)
    ensures Encode([c] + rest) == EncodeChar(c) + Encode(rest)
  {
    assert ([c] + rest)[1..] == rest;
  }

  lemma BoundaryInTail(head: seq<Byte>, tail: seq<Byte>, bytes: seq<Byte>, end: nat)
    requires bytes == head + tail && 0 < |head| <= end <= |bytes| && (tail != [] ==> !IsContinuation(tail[0]))
    ensures IsBoundary(bytes, end) <==> IsBoundary(tail, end - |head|)
  {
    assert end < |bytes| ==> bytes[end] == tail[end - |head|];
  }

  /** Within the first character only its start is a boundary. */
  lemma BoundaryInHead(c: char, rest: string, end: nat)
    requires end < CharBytes(c)
    ensures IsBoundary(Encode([c] + rest), end) <==> end == 0
  {
    EncodeCons(c, rest);
    assert Encode([c] + rest)[end] == EncodeChar(c)[end];
  }

  /** Beyond the first character the boundaries are those of the rest. */
  lemma BoundaryInRest(c: char, rest: string, end: nat)
    requires CharBytes(c) <= end <= CharBytes(c) + ByteLen(rest)
    ensures |Encode([c] + rest)| == CharBytes(c) + ByteLen(rest)
    ensures IsBoundary(Encode([c] + rest), end) <==> IsBoundary(Encode(rest), end - CharBytes(c))
  {
    EncodeCons(c, rest);
    FirstByte(rest);
    BoundaryInTail(EncodeChar(c), Encode(rest), Encode([c] + rest), end);
  }

  lemma FittingCons(c: char, rest: string, end: nat)
    ensures Fitting([c] + rest, end) == if CharBytes(c) > end then [] else [c] + Fitting(rest, end - CharBytes(c))
  {
    assert ([c] + rest)[1..] == rest;
  }

  /** A byte position is a boundary exactly when it ends a whole number of characters. */
  lemma {:induction false} BoundaryIff(s: string, end: nat)
    requires end <= ByteLen(s)
    ensures IsBoundary(Encode(s), end) <==> ByteLen(Fitting(s, end)) == end
  {
    if s != [] {
      var c, rest := s[0], s[1..];
      assert s == [c] + rest;
      FittingCons(c, rest, end);
      if end < CharBytes(c) {
        BoundaryInHead(c, rest, end);
      } else {
        BoundaryInRest(c, rest, end);
        BoundaryIff(rest, end - CharBytes(c));
        ByteLenCons(c, Fitting(rest, end - CharBytes(c)));
      }
    }
  }

  /** Any limit between the fitting prefix and the given one leads to the same prefix. */
  lemma FittingBetween(s: string, end: nat, limit: nat)
    requires ByteLen(Fitting(s, limit)) <= end <= limit
    ensures Fitting(s, end) == Fitting(s, limit)
  {
    FittingIsLongest(s, limit);
    FittingUnique(s, end, Fitting(s, limit));
  }

  lemma FittingBytes(s: string, end: nat)
    ensures var r := Fitting(s, end);
      ByteLen(r) <= end && ByteLen(r) <= ByteLen(s) && Encode(r) == Encode(s)[..ByteLen(r)]
  {
    FittingIsLongest(s, end);
    PrefixBytes(Fitting(s, end), s);
  }

  /** `truncate_utf8`: the longest run of whole leading characters within the limit, cut from
      the bytes themselves. */
  method TruncateUtf8(value: string, maxBytes: nat) returns (r: string)
    ensures r == Fitting(value, maxBytes)
    ensures ByteLen(r) <= ByteLen(value) && Encode(r) == Encode(value)[..ByteLen(r)]
  {
    var bytes := Encode(value);
    var end := if |bytes| < maxBytes then |bytes| else maxBytes;
    ghost var best := Fitting(value, maxBytes);
    FittingBytes(value, maxBytes);
    BoundaryIff(value, ByteLen(best));
    FittingBetween(value, ByteLen(best), maxBytes);
    while end > 0 && !IsBoundary(bytes, end)
      invariant ByteLen(best) <= end <= |bytes| && end <= maxBytes
    {
      assert end != ByteLen(best);
      end := end - 1;
    }
    FittingBetween(value, end, maxBytes);
    BoundaryIff(value, end);
    r := Fitting(value, end);
    assert ByteLen(r) == end;
  }
}
