/** The two-thumb price-range control (src/components/PriceRangeFilter.tsx). Bounds
    are exact reals in dollars; JavaScript's floating point is not modelled. */
module PriceRange {
  import opened Wrappers

  /** A `[min, max]` pair, both in dollars. */
  datatype Range = Range(lo: real, hi: real)

  /** The least distance the control keeps between the two bounds it moves. */
  const Gap: real := 0.5

  predicate Separated(r: Range)
  {
    r.lo <= r.hi - Gap
  }

  /** The effect of one handler: the new local pair and the pair sent to the parent. */
  datatype Change = Change(local: Range, sent: Range)

  /** `handleMinChange(value)`: the new minimum is `min(value, localMax - 0.5)`; the
      maximum is left alone. There is no clamping to `[0, maxPrice]`. */
  function HandleMinChange(local: Range, value: real): (c: Change)
    ensures c.local.hi == local.hi
    ensures c.local.lo <= value && c.local.lo <= local.hi - Gap
    ensures c.local.lo == value || c.local.lo == local.hi - Gap
    ensures c.sent == c.local
  {
    var lo := if value <= local.hi - Gap then value else local.hi - Gap;
    Change(Range(lo, local.hi), Range(lo, local.hi))
  }

  /** `handleMaxChange(value)`: the new maximum is `max(value, localMin + 0.5)`; the
      minimum is left alone. There is no clamping to `[0, maxPrice]`. */
  function HandleMaxChange(local: Range, value: real): (c: Change)
    ensures c.local.lo == local.lo
    ensures c.local.hi >= value && c.local.hi >= local.lo + Gap
    ensures c.local.hi == value || c.local.hi == local.lo + Gap
    ensures c.sent == c.local
  {
    var hi := if value >= local.lo + Gap then value else local.lo + Gap;
    Change(Range(local.lo, hi), Range(local.lo, hi))
  }

  /** Whatever the value, both handlers leave the pair at least half a unit apart,
      and a value already within the allowed bound passes through unchanged. */
  lemma HandlersKeepGap(local: Range, value: real)
    ensures Separated(HandleMinChange(local, value).local)
    ensures Separated(HandleMaxChange(local, value).local)
    ensures value <= local.hi - Gap ==> HandleMinChange(local, value).local.lo == value
    ensures value >= local.lo + Gap ==> HandleMaxChange(local, value).local.hi == value
  {
  }

  /** Repeating a handler with the same value changes nothing more. */
  lemma HandlersIdempotent(local: Range, value: real)
    ensures var once := HandleMinChange(local, value).local;
            HandleMinChange(once, value).local == once
    ensures var once := HandleMaxChange(local, value).local;
            HandleMaxChange(once, value).local == once
  {
  }

  /** The bounds are not clamped to the slider's `[0, maxPrice]`: a typed minimum
      below zero and a typed maximum above the catalogue's bound are both kept. */
  lemma NoClampToSliderBounds()
    ensures HandleMinChange(Range(0.0, 5.0), -3.0).local == Range(-3.0, 5.0)
    ensures HandleMaxChange(Range(0.0, 5.0), 12.0).local == Range(0.0, 12.0)
  {
  }

  /** The minimum field's parsed value, with 0 as the fallback: text that does not parse
      (`None`, NaN in the source) becomes 0. */
  function MinFieldValue(parsed: Option<real>): (r: real)
    ensures parsed.None? ==> r == 0.0
    ensures parsed.Some? ==> r == parsed.value
  {
    match parsed
    case None => 0.0
    case Some(v) => v
  }

  /** The maximum field's parsed value, with the bound as the fallback: text that does not parse,
      and also text that parses to 0, becomes `maxPrice`. */
  function MaxFieldValue(parsed: Option<real>, maxPrice: real): (r: real)
    ensures parsed.None? || parsed.value == 0.0 ==> r == maxPrice
    ensures parsed.Some? && parsed.value != 0.0 ==> r == parsed.value
  {
    match parsed
    case None => maxPrice
    case Some(v) => if v == 0.0 then maxPrice else v
  }

  /** What can happen to the control: a slider moved (a slider always yields a
      number), a number field edited, or a new `priceRange` arriving from the parent. */
  datatype Event =
    | SlideMin(value: real)
    | SlideMax(value: real)
    | TypeMin(parsed: Option<real>)
    | TypeMax(parsed: Option<real>)
    | Incoming(range: Range)

  /** The local pair after one event. An incoming range replaces the local pair (the
      `useEffect` on `priceRange`). */
  function Step(local: Range, maxPrice: real, e: Event): (r: Range)
    ensures e.Incoming? ==> r == e.range
    ensures !e.Incoming? ==> Separated(r)
    ensures e.SlideMin? || e.TypeMin? ==> r.hi == local.hi
    ensures e.SlideMax? || e.TypeMax? ==> r.lo == local.lo
    ensures e.SlideMin? ==> r == HandleMinChange(local, e.value).local
    ensures e.SlideMax? ==> r == HandleMaxChange(local, e.value).local
    ensures e.TypeMin? ==> r == HandleMinChange(local, MinFieldValue(e.parsed)).local
    ensures e.TypeMax? ==> r == HandleMaxChange(local, MaxFieldValue(e.parsed, maxPrice)).local
  {
    match e
    case SlideMin(v) => HandleMinChange(local, v).local
    case SlideMax(v) => HandleMaxChange(local, v).local
    case TypeMin(p) => HandleMinChange(local, MinFieldValue(p)).local
    case TypeMax(p) => HandleMaxChange(local, MaxFieldValue(p, maxPrice)).local
    case Incoming(r) => r
  }

  function Replay(local: Range, maxPrice: real, events: seq<Event>): Range
    decreases |events|
  {
    if |events| == 0 then local else Replay(Step(local, maxPrice, events[0]), maxPrice, events[1..])
  }

  /** Every range the parent sends back is separated (it only ever sends what a
      handler produced, or the initial `[0, maxPrice]`). */
  predicate IncomingSeparated(events: seq<Event>)
  {
    forall i :: 0 <= i < |events| && events[i].Incoming? ==> Separated(events[i].range)
  }

  /** The control never lets the minimum exceed the maximum minus half a unit,
      whatever sequence of edits happens, as long as the ranges it receives are
      themselves separated. */
  lemma {:induction false} ReplayKeepsGap(local: Range, maxPrice: real, events: seq<Event>)
    requires Separated(local)
    requires IncomingSeparated(events)
    ensures Separated(Replay(local, maxPrice, events))
    decreases |events|
  {
    if |events| > 0 {
      var next := Step(local, maxPrice, events[0]);
      assert Separated(next) by {
        match events[0]
        case SlideMin(v) => HandlersKeepGap(local, v);
        case SlideMax(v) => HandlersKeepGap(local, v);
        case TypeMin(p) => HandlersKeepGap(local, MinFieldValue(p));
        case TypeMax(p) => HandlersKeepGap(local, MaxFieldValue(p, maxPrice));
        case Incoming(r) =>
      }
      assert IncomingSeparated(events[1..]) by {
        forall i | 0 <= i < |events[1..]| && events[1..][i].Incoming?
          ensures Separated(events[1..][i].range)
        {
          assert events[1..][i] == events[i + 1];
        }
      }
      ReplayKeepsGap(next, maxPrice, events[1..]);
    }
  }

  /** After a handler, the parent's new `priceRange` is the sent pair, and resyncing
      the local pair to it changes nothing: the two stay in step. */
  lemma ResyncAfterHandlerIsStable(local: Range, maxPrice: real, value: real)
    ensures var c := HandleMinChange(local, value);
            Step(c.local, maxPrice, Incoming(c.sent)) == c.local
    ensures var c := HandleMaxChange(local, value);
            Step(c.local, maxPrice, Incoming(c.sent)) == c.local
  {
  }
}
