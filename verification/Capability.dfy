/** The bytes hashed for a capability grant (crates/mnemosyne/src/binding.rs). */
module Capability {
  import opened Text
  import opened Utf8
  import Order

  datatype Grant = Grant(
    backendId: string, writeSource: Option<string>, readSources: seq<string>, canRead: bool, canWrite: bool)

  const LENGTH_BYTES := 8

  function Power256(k: nat): (r: nat)
    ensures r >= 1
  {
    if k == 0 then 1 else 256 * Power256(k - 1)
  }

  /** `to_le_bytes` of a `k`-byte integer. */
  function LittleEndian(n: nat, k: nat): (r: seq<Byte>)
    ensures |r| == k
    decreases k
  {
    if k == 0 then [] else [n % 256] + LittleEndian(n / 256, k - 1)
  }

  function FromLittleEndian(b: seq<Byte>): nat {
    if b == [] then 0 else b[0] + 256 * FromLittleEndian(b[1..])
  }

  lemma {:induction false} LittleEndianRoundTrip(n: nat, k: nat)
    requires n < Power256(k)
    ensures FromLittleEndian(LittleEndian(n, k)) == n
    decreases k
  {
    if k > 0 {
      assert n / 256 < Power256(k - 1);
      LittleEndianRoundTrip(n / 256, k - 1);
      assert LittleEndian(n, k)[1..] == LittleEndian(n / 256, k - 1);
    }
  }

  /** Lengths fit the eight bytes they are written in. */
  predicate Fits(bytes: seq<Byte>) { |bytes| < Power256(LENGTH_BYTES) }

  function Field(bytes: seq<Byte>): seq<Byte> {
    LittleEndian(|bytes|, LENGTH_BYTES) + bytes
  }

  function Fields(values: seq<seq<Byte>>): seq<Byte> {
    if values == [] then [] else Field(values[0]) + Fields(values[1..])
  }

  function EncodeAll(values: seq<string>): (r: seq<seq<Byte>>)
    ensures |r| == |values| && forall i | 0 <= i < |r| :: r[i] == Encode(values[i])
  {
    if values == [] then [] else [Encode(values[0])] + EncodeAll(values[1..])
  }

  const LABEL := "aletheon.supplemental-capability.v1\0"

  function LabelBytes(): seq<Byte> {
    AsciiBytes(LABEL)
  }

  lemma LabelIsEncoded()
    ensures LabelBytes() == Encode(LABEL)
  {
    AsciiEncodes(LABEL);
  }

  function WriteSource(g: Grant): string {
    if g.writeSource.Some? then g.writeSource.value else ""
  }

  function Flag(b: bool): Byte { if b then 1 else 0 }

  function Flags(g: Grant): seq<Byte> { [Flag(g.canRead), Flag(g.canWrite)] }

  /** Backend, write source, then the distinct read sources in order. */
  function Sources(g: Grant): seq<string> {
    [g.backendId, WriteSource(g)] + Order.Normalize(g.readSources)
  }

  /** Everything `capability_digest` feeds to the hash. */
  function Material(g: Grant): seq<Byte> {
    LabelBytes() + Body(g)
  }

  predicate Writable(g: Grant) {
    forall i {:trigger Sources(g)[i]} | 0 <= i < |Sources(g)| :: Fits(Encode(Sources(g)[i]))
  }

  // ---------------------------------------------------------------- decoding

  /** Reads fields until the two flag bytes are left. */
  function Parse(b: seq<Byte>): Option<(seq<seq<Byte>>, seq<Byte>)>
    decreases |b|
  {
    if |b| == 2 then Some(([], b))
    else if |b| < LENGTH_BYTES then None
    else
      var length := FromLittleEndian(b[..LENGTH_BYTES]);
      if LENGTH_BYTES + length > |b| then None
      else match Parse(b[LENGTH_BYTES + length..])
        case None => None
        case Some((values, flags)) => Some(([b[LENGTH_BYTES..LENGTH_BYTES + length]] + values, flags))
  }

  predicate ParsesAs(b: seq<Byte>, values: seq<seq<Byte>>, flags: seq<Byte>) {
    Parse(b) == Some((values, flags))
  }

  lemma ParseField(head: seq<Byte>, rest: seq<Byte>, values: seq<seq<Byte>>, flags: seq<Byte>)
    requires Fits(head) && 2 <= |rest| && ParsesAs(rest, values, flags)
    ensures ParsesAs(Field(head) + rest, [head] + values, flags)
  {
    var b := Field(head) + rest;
    LittleEndianRoundTrip(|head|, LENGTH_BYTES);
    assert b[..LENGTH_BYTES] == LittleEndian(|head|, LENGTH_BYTES);
    assert b[LENGTH_BYTES..LENGTH_BYTES + |head|] == head;
    assert b[LENGTH_BYTES + |head|..] == rest;
  }

  lemma FieldsCons(head: seq<Byte>, tail: seq<seq<Byte>>, flags: seq<Byte>)
    ensures Fields([head] + tail) + flags == Field(head) + (Fields(tail) + flags)
  {
    assert ([head] + tail)[1..] == tail;
  }

  lemma {:induction false} ParseFields(values: seq<seq<Byte>>, flags: seq<Byte>)
    requires |flags| == 2 && forall i | 0 <= i < |values| :: Fits(values[i])
    ensures ParsesAs(Fields(values) + flags, values, flags)
  {
    if values == [] {
      assert Fields(values) + flags == flags;
    } else {
      var head, tail := values[0], values[1..];
      ParseFields(tail, flags);
      ParseField(head, Fields(tail) + flags, tail, flags);
      FieldsCons(head, tail, flags);
      assert values == [head] + tail;
    }
  }

  lemma {:induction false} EncodeAllInjective(a: seq<string>, b: seq<string>)
    requires EncodeAll(a) == EncodeAll(b)
    ensures a == b
  {
    forall i | 0 <= i < |a| ensures a[i] == b[i] {
      assert EncodeAll(a)[i] == EncodeAll(b)[i];
      EncodeInjective(a[i], b[i]);
    }
  }

  function Body(g: Grant): seq<Byte> {
    Fields(EncodeAll(Sources(g))) + Flags(g)
  }

  lemma BodyParses(g: Grant)
    requires Writable(g)
    ensures Parse(Body(g)) == Some((EncodeAll(Sources(g)), Flags(g)))
  {
    var values := EncodeAll(Sources(g));
    forall i | 0 <= i < |values| ensures Fits(values[i]) {
      assert values[i] == Encode(Sources(g)[i]);
    }
    ParseFields(values, Flags(g));
  }

  /** Two grants that a handshake cannot tell apart. */
  ghost predicate SameGrant(g: Grant, h: Grant) {
    && g.backendId == h.backendId && WriteSource(g) == WriteSource(h)
    && (forall s :: s in g.readSources <==> s in h.readSources)
    && g.canRead == h.canRead && g.canWrite == h.canWrite
  }

  lemma BodyNamesGrant(g: Grant, h: Grant)
    requires Writable(g) && Writable(h) && Body(g) == Body(h)
    ensures SameGrant(g, h)
  {
    BodyParses(g);
    BodyParses(h);
    EncodeAllInjective(Sources(g), Sources(h));
    SourcesNameGrant(g, h);
  }

  lemma DropPrefix(p: seq<Byte>, a: seq<Byte>, b: seq<Byte>)
    requires p + a == p + b
    ensures a == b
  {
    assert a == (p + a)[|p|..] && b == (p + b)[|p|..];
  }

  /** The hashed bytes are the same exactly for grants with the same backend, write source, set
      of read sources and flags; the order and repetition of read sources do not matter. */
  lemma MaterialIsUnique(g: Grant, h: Grant)
    requires Writable(g) && Writable(h)
    ensures Material(g) == Material(h) <==> SameGrant(g, h)
  {
    if SameGrant(g, h) {
      Order.NormalizeSameSet(g.readSources, h.readSources);
    }
    if Material(g) == Material(h) {
      DropPrefix(LabelBytes(), Body(g), Body(h));
      BodyNamesGrant(g, h);
    }
  }

  lemma SourcesNameGrant(g: Grant, h: Grant)
    requires Sources(g) == Sources(h) && Flags(g) == Flags(h)
    ensures SameGrant(g, h)
  {
    assert Sources(g)[0] == g.backendId && Sources(h)[0] == h.backendId;
    assert Sources(g)[1] == WriteSource(g) && Sources(h)[1] == WriteSource(h);
    assert Sources(g)[2..] == Order.Normalize(g.readSources) && Sources(h)[2..] == Order.Normalize(h.readSources);
    assert Flags(g)[0] == Flags(h)[0] && Flags(g)[1] == Flags(h)[1];
    forall s ensures s in g.readSources <==> s in h.readSources {
      assert s in Order.Normalize(g.readSources) <==> s in Order.Normalize(h.readSources);
    }
  }
}
