/** Markup escaping by four replacements in a row (crates/mnemosyne/src/projection.rs). */
module Escaping {
  /** `str::replace` of one character. */
  function Replace(s: string, c: char, text: string): string {
    if s == [] then [] else (if s[0] == c then text else [s[0]]) + Replace(s[1..], c, text)
  }

  function Escape(s: string): string {
    Replace(Replace(Replace(Replace(s, '&', "&amp;"), '<', "&lt;"), '>', "&gt;"), '"', "&quot;")
  }

  /** What escaping means for one character. */
  function Entity(c: char): string {
    match c
    case '&' => "&amp;"
    case '<' => "&lt;"
    case '>' => "&gt;"
    case '"' => "&quot;"
    case _ => [c]
  }

  function Entities(s: string): string {
    if s == [] then [] else Entity(s[0]) + Entities(s[1..])
  }

  predicate Special(c: char) { c in {'<', '>', '"'} }

  predicate Plain(s: string) {
    forall i {:trigger s[i]} | 0 <= i < |s| :: !Special(s[i])
  }

  lemma ReplaceConcat(a: string, b: string, c: char, text: string)
    ensures Replace(a + b, c, text) == Replace(a, c, text) + Replace(b, c, text)
  {
    if a == [] {
      assert a + b == b;
    } else {
      assert (a + b)[1..] == a[1..] + b;
      ReplaceConcat(a[1..], b, c, text);
    }
  }

  lemma ReplaceAbsent(s: string, c: char, text: string)
    requires c !in s
    ensures Replace(s, c, text) == s
  {
    if s != [] {
      ReplaceAbsent(s[1..], c, text);
    }
  }

  lemma EscapeConcat(a: string, b: string)
    ensures Escape(a + b) == Escape(a) + Escape(b)
  {
    ReplaceConcat(a, b, '&', "&amp;");
    var a1, b1 := Replace(a, '&', "&amp;"), Replace(b, '&', "&amp;");
    ReplaceConcat(a1, b1, '<', "&lt;");
    var a2, b2 := Replace(a1, '<', "&lt;"), Replace(b1, '<', "&lt;");
    ReplaceConcat(a2, b2, '>', "&gt;");
    ReplaceConcat(Replace(a2, '>', "&gt;"), Replace(b2, '>', "&gt;"), '"', "&quot;");
  }

  lemma ReplaceOne(c: char, d: char, text: string)
    ensures Replace([c], d, text) == if c == d then text else [c]
  {
    assert Replace([c][1..], d, text) == [];
  }

  /** A replacement text free of the characters replaced later stays as it is. */
  lemma ReplaceChain(c: char, amp: string, lt: string, gt: string, quot: string)
    requires '<' !in amp && '>' !in amp && '"' !in amp && '>' !in lt && '"' !in lt && '"' !in gt
    ensures Replace(Replace(Replace(Replace([c], '&', amp), '<', lt), '>', gt), '"', quot)
         == if c == '&' then amp else if c == '<' then lt else if c == '>' then gt else if c == '"' then quot else [c]
  {
    ReplaceOne(c, '&', amp);
    ReplaceOne(c, '<', lt);
    ReplaceOne(c, '>', gt);
    ReplaceOne(c, '"', quot);
    ReplaceAbsent(amp, '<', lt);
    ReplaceAbsent(amp, '>', gt);
    ReplaceAbsent(amp, '"', quot);
    ReplaceAbsent(lt, '>', gt);
    ReplaceAbsent(lt, '"', quot);
    ReplaceAbsent(gt, '"', quot);
  }

  lemma EscapeOne(c: char)
    ensures Escape([c]) == Entity(c)
  {
    ReplaceChain(c, "&amp;", "&lt;", "&gt;", "&quot;");
  }

  /** The four replacements amount to one pass: none of them touches what an earlier one wrote. */
  lemma {:induction false} EscapeIsOnePass(s: string)
    ensures Escape(s) == Entities(s)
  {
    if s != [] {
      assert s == [s[0]] + s[1..];
      EscapeConcat([s[0]], s[1..]);
      EscapeOne(s[0]);
      EscapeIsOnePass(s[1..]);
    }
  }

  lemma EntityIsPlain(c: char)
    ensures Plain(Entity(c)) && Entity(c) != []
  {
  }

  lemma PlainConcat(a: string, b: string)
    ensures Plain(a + b) <==> Plain(a) && Plain(b)
  {
    if Plain(a + b) {
      forall i | 0 <= i < |a| ensures !Special(a[i]) {
        assert a[i] == (a + b)[i];
      }
      forall i | 0 <= i < |b| ensures !Special(b[i]) {
        assert b[i] == (a + b)[|a| + i];
      }
    }
  }

  lemma {:induction false} EntitiesArePlain(s: string)
    ensures Plain(Entities(s))
  {
    if s != [] {
      EntityIsPlain(s[0]);
      EntitiesArePlain(s[1..]);
      PlainConcat(Entity(s[0]), Entities(s[1..]));
    }
  }

  /** Escaped text holds no bracket and no quote. */
  lemma EscapedIsPlain(s: string)
    ensures Plain(Escape(s))
  {
    EscapeIsOnePass(s);
    EntitiesArePlain(s);
  }

  /** Reads entities back. */
  function Unescape(s: string): string
    decreases |s|
  {
    if s == [] then []
    else if "&amp;" <= s then ['&'] + Unescape(s[5..])
    else if "&lt;" <= s then ['<'] + Unescape(s[4..])
    else if "&gt;" <= s then ['>'] + Unescape(s[4..])
    else if "&quot;" <= s then ['"'] + Unescape(s[6..])
    else [s[0]] + Unescape(s[1..])
  }

  lemma UnescapeEntity(c: char, rest: string)
    ensures Unescape(Entity(c) + rest) == [c] + Unescape(rest)
  {
    var e := Entity(c);
    var s := e + rest;
    assert s[|e|..] == rest;
    assert s[0] == e[0];
    if c in {'&', '<', '>', '"'} {
      assert e <= s;
      assert s[1] == e[1] && s[2] == e[2];
    } else {
      assert s[0] != '&';
    }
  }

  /** Escaping loses nothing: distinct texts stay distinct. */
  lemma {:induction false} UnescapeRestores(s: string)
    ensures Unescape(Escape(s)) == s
  {
    EscapeIsOnePass(s);
    if s != [] {
      UnescapeEntity(s[0], Entities(s[1..]));
      EscapeIsOnePass(s[1..]);
      UnescapeRestores(s[1..]);
    }
  }
}
