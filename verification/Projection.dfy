/** The bounded projection of recalled memory into the workspace
    (crates/mnemosyne/src/projection.rs). */
module Projection {
  import opened Text
  import Order
  import Vault

  datatype Limits = Limits(maxItems: nat, maxTotalBytes: nat, maxItemBytes: nat)

  datatype Temporal = Current | Superseded | Expired | Unknown

  datatype Sensitivity = Public | Internal | Confidential | Restricted

  /** What is recalled of a record besides its content. */
  datatype Meta = Meta(
    recordId: string, source: string, sourceId: string, when: Times, confidence: real, labels: Labels, extra: Extra)

  /** Metadata that the projection only passes on. */
  datatype Extra = Extra(
    principal: Option<string>, commit: Option<string>, sourceTime: Option<int>,
    supersedes: Option<string>, supersededBy: Option<string>)

  datatype Times = Times(observed: int, validFrom: Option<int>, validUntil: Option<int>)

  datatype Labels = Labels(
    state: Temporal, authority: Vault.Authority, sensitivity: Sensitivity, scope: Vault.Scope)

  /** Metadata with a body: the content as recalled, or what rendering it gives. */
  datatype Entry<B> = Entry(meta: Meta, body: B)

  type Item = Entry<string>

  /** The text of an item and whether its content was cut. */
  datatype Labelled = Labelled(text: string, truncated: bool)

  type Seen = Entry<Result<Labelled, Error>>

  /** A record of the outcome: no content, only the text made of it. */
  datatype Projected = Projected(meta: Meta, labelled: string, truncated: bool)

  datatype Outcome = Outcome(records: seq<Projected>, omitted: nat, degraded: seq<string>)

  /** The check of an item that fails first. */
  datatype Fault =
    NoRecordId | NoSource | NoSourceId | BadConfidence | BadValidity | NoScopeId | LongScopeId

  datatype Error = InvalidLimits | InvalidItem(fault: Fault) | LabelTooLarge

  // ------------------------------------------------------ validity, filtering

  predicate ValidLimits(l: Limits) {
    l.maxItems > 0 && 0 < l.maxItemBytes <= l.maxTotalBytes
  }

  predicate ValidItem<B>(i: Entry<B>) {
    && !Blank(i.meta.recordId) && !Blank(i.meta.source) && !Blank(i.meta.sourceId)
    && 0.0 <= i.meta.confidence <= 1.0
    && (i.meta.when.validFrom.Some? && i.meta.when.validUntil.Some? ==> i.meta.when.validFrom.value < i.meta.when.validUntil.value)
    && Vault.ValidScope(i.meta.labels.scope)
  }

  function FaultOf<B>(i: Entry<B>): (r: Option<Fault>)
    ensures r.None? <==> ValidItem(i)
  {
    if Blank(i.meta.recordId) then Some(NoRecordId)
    else if Blank(i.meta.source) then Some(NoSource)
    else if Blank(i.meta.sourceId) then Some(NoSourceId)
    else if !(0.0 <= i.meta.confidence <= 1.0) then Some(BadConfidence)
    else if i.meta.when.validFrom.Some? && i.meta.when.validUntil.Some? && i.meta.when.validFrom.value >= i.meta.when.validUntil.value
    then Some(BadValidity)
    else if i.meta.labels.scope.Global? then None
    else if Blank(i.meta.labels.scope.id) then Some(NoScopeId)
    else if ByteLen(i.meta.labels.scope.id) > Vault.MAX_SCOPE_BYTES then Some(LongScopeId)
    else None
  }

  /** The fault of the first invalid item. */
  function FirstFault<B>(items: seq<Entry<B>>): Option<Fault> {
    if items == [] then None
    else if FaultOf(items[0]).Some? then FaultOf(items[0])
    else FirstFault(items[1..])
  }

  predicate EligibleItem<B>(i: Entry<B>) {
    && i.meta.labels.authority != Vault.ApprovedCore
    && i.meta.labels.state in {Current, Unknown}
    && i.meta.labels.sensitivity in {Public, Internal}
  }

  function Eligible<B>(items: seq<Entry<B>>): (r: seq<Entry<B>>)
    ensures |r| <= |items|
  {
    if items == [] then []
    else (if EligibleItem(items[0]) then [items[0]] else []) + Eligible(items[1..])
  }

  // ----------------------------------------------------------------- ranking

  function AuthorityRank(a: Vault.Authority): nat {
    match a
    case ApprovedCore => 0
    case VerifiedLocalSemantic => 1
    case LocalEpisode => 2
    case AletheonExternal => 3
    case ExternalReference => 4
    case RawExperience => 5
  }

  /** Authority first, then confidence and observation time descending, then the id. */
  predicate Before<B>(a: Entry<B>, b: Entry<B>) {
    var x, y := AuthorityRank(a.meta.labels.authority), AuthorityRank(b.meta.labels.authority);
    x < y || (x == y &&
      (a.meta.confidence > b.meta.confidence || (a.meta.confidence == b.meta.confidence &&
        (a.meta.when.observed > b.meta.when.observed || (a.meta.when.observed == b.meta.when.observed &&
          Order.Less(a.meta.recordId, b.meta.recordId))))))
  }

  /** `sort_by`: a stable sort. */
  function Insert<B>(x: Entry<B>, s: seq<Entry<B>>): seq<Entry<B>> {
    if s == [] || !Before(s[0], x) then [x] + s else [s[0]] + Insert(x, s[1..])
  }

  function Sort<B>(s: seq<Entry<B>>): seq<Entry<B>> {
    if s == [] then [] else Insert(s[0], Sort(s[1..]))
  }

  // ----------------------------------------------------------------- packing

  type Renderer = Item -> Result<Labelled, Error>

  /** An item as far as the outcome can show it. */
  function See(render: Renderer, i: Item): Seen {
    Entry(i.meta, render(i))
  }

  function Sees(render: Renderer, items: seq<Item>): (r: seq<Seen>)
    ensures |r| == |items| && forall k | 0 <= k < |r| :: r[k] == See(render, items[k])
  {
    if items == [] then [] else [See(render, items[0])] + Sees(render, items[1..])
  }

  datatype Packed = Packed(kept: seq<Projected>, used: nat, omitted: nat)

  function PackOne(l: Limits, p: Packed, e: Seen): Result<Packed, Error> {
    if |p.kept| == l.maxItems then Ok(p.(omitted := p.omitted + 1))
    else match e.body
      case Err(error) => Err(error)
      case Ok(made) =>
        if p.used + ByteLen(made.text) > l.maxTotalBytes then Ok(p.(omitted := p.omitted + 1))
        else Ok(Packed(p.kept + [Projected(e.meta, made.text, made.truncated)], p.used + ByteLen(made.text), p.omitted))
  }

  function Pack(l: Limits, p: Packed, rest: seq<Seen>): Result<Packed, Error>
    decreases |rest|
  {
    if rest == [] then Ok(p)
    else match PackOne(l, p, rest[0])
      case Err(e) => Err(e)
      case Ok(next) => Pack(l, next, rest[1..])
  }

  /** The packing before its first item. */
  function Start(items: seq<Item>): Packed {
    Packed([], 0, |items| - |Eligible(items)|)
  }

  /** What is packed: the eligible items in the order of the ranking. */
  function Ranking(render: Renderer, items: seq<Item>): seq<Seen> {
    Sort(Sees(render, Eligible(items)))
  }

  function Finish(packed: Result<Packed, Error>, degraded: seq<string>): Result<Outcome, Error> {
    match packed
    case Err(e) => Err(e)
    case Ok(p) => Ok(Outcome(p.kept, p.omitted, Order.Normalize(degraded)))
  }

  /** `project`, over any way of rendering an item. */
  function ProjectWith(render: Renderer, items: seq<Item>, degraded: seq<string>, l: Limits): Result<Outcome, Error> {
    if !ValidLimits(l) then Err(InvalidLimits)
    else match FirstFault(items)
      case Some(fault) => Err(InvalidItem(fault))
      case None => Finish(Pack(l, Start(items), Ranking(render, items)), degraded)
  }
}
