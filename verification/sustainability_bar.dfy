/**
 * The sustainability scorer: the five pillar segments, the per-pillar
 * colour band, and the headline average with its band.
 *
 * The average is `Math.round(sum / 5)` over integer pillars. For an
 * integer sum the quotient never ends in exactly .5, so the model computes
 * it exactly with integer arithmetic and proves that against the meaning
 * of `Math.round` (nearest integer, halves rounded up).
 */
module SustainabilityBar {
  import opened MockProducts

  datatype Pillar = Co2 | Recyclability | AnimalWelfare | LocalSourcing | Packaging

  datatype Segment = Segment(key: Pillar, title: string, icon: string)

  /** The segments, in display order. */
  const Segments: seq<Segment> := [
    Segment(Co2, "CO₂", "🌍"),
    Segment(Recyclability, "Recyclability", "♻️"),
    Segment(AnimalWelfare, "Animal Welfare", "🐄"),
    Segment(LocalSourcing, "Local Sourcing", "📍"),
    Segment(Packaging, "Packaging", "📦")
  ]

  /** The value of pillar `k` (`data[seg.key]`). */
  function Value(s: Pillars, k: Pillar): int {
    match k
    case Co2 => s.co2
    case Recyclability => s.recyclability
    case AnimalWelfare => s.animalWelfare
    case LocalSourcing => s.localSourcing
    case Packaging => s.packaging
  }

  /** `s` with pillar `k` replaced by `v`. */
  function WithPillar(s: Pillars, k: Pillar, v: int): (r: Pillars)
    ensures Value(r, k) == v
    ensures forall k' :: k' != k ==> Value(r, k') == Value(s, k')
  {
    match k
    case Co2 => s.(co2 := v)
    case Recyclability => s.(recyclability := v)
    case AnimalWelfare => s.(animalWelfare := v)
    case LocalSourcing => s.(localSourcing := v)
    case Packaging => s.(packaging := v)
  }

  /** `Object.values(data)`: the fields in declaration order. */
  function ObjectValues(s: Pillars): seq<int> {
    [s.co2, s.recyclability, s.animalWelfare, s.localSourcing, s.packaging]
  }

  /** `xs.reduce((a, b) => a + b, acc)`: a left fold with `+`. */
  function Reduce(acc: int, xs: seq<int>): int
    decreases |xs|
  {
    if xs == [] then acc else Reduce(acc + xs[0], xs[1..])
  }

  /** The plain sum of the five pillars, the reference for the fold. */
  function PillarSum(s: Pillars): int {
    s.co2 + s.recyclability + s.animalWelfare + s.localSourcing + s.packaging
  }

  /**
   * `n` is `Math.round(sum / 5)`: the integer nearest to `sum / 5`, with a
   * half rounded up, i.e. `n - 1/2 <= sum/5 < n + 1/2`, scaled by ten.
   */
  ghost predicate IsRoundedFifth(sum: int, n: int) {
    10 * n - 5 <= 2 * sum < 10 * n + 5
  }

  /** `Math.round(sum / 5)` in integer arithmetic. */
  function RoundFifth(sum: int): (n: int)
    ensures IsRoundedFifth(sum, n)
    ensures forall m :: IsRoundedFifth(sum, m) ==> m == n
  {
    (sum + 2) / 5
  }

  /** The headline score: `Math.round(Object.values(data).reduce(+, 0) / 5)`. */
  function Average(s: Pillars): (avg: int)
    ensures IsRoundedFifth(PillarSum(s), avg)
  {
    ReduceValues(s);
    RoundFifth(Reduce(0, ObjectValues(s)))
  }

  /** The page's fold over `Object.values` adds up exactly the five pillars. */
  lemma ReduceValues(s: Pillars)
    ensures Reduce(0, ObjectValues(s)) == PillarSum(s)
  {
    var xs := ObjectValues(s);
    calc {
      Reduce(0, xs);
      Reduce(s.co2, xs[1..]);
      Reduce(s.co2 + s.recyclability, xs[2..]);
      { assert xs[2..][1..] == xs[3..]; }
      Reduce(s.co2 + s.recyclability + s.animalWelfare, xs[3..]);
      { assert xs[3..][1..] == xs[4..]; }
      Reduce(s.co2 + s.recyclability + s.animalWelfare + s.localSourcing, xs[4..]);
      { assert xs[4..][1..] == []; }
      Reduce(PillarSum(s), []);
    }
  }

  /** The three colour bands, `bg-fresh`, `bg-expiring` and `bg-expired`. */
  datatype Band = High | Medium | Low

  function ColorClass(b: Band): string {
    match b
    case High => "bg-fresh"
    case Medium => "bg-expiring"
    case Low => "bg-expired"
  }

  /** The per-pillar colour: lower bounds inclusive, so 80 is high and 60 medium. */
  function GetColor(v: int): (b: Band)
    ensures b == High <==> v >= 80
    ensures b == Medium <==> 60 <= v < 80
    ensures b == Low <==> v < 60
  {
    if v >= 80 then High
    else if v >= 60 then Medium
    else Low
  }

  /** The headline badge's band, written as the page's nested conditional. */
  function HeadlineBand(avg: int): Band {
    if avg >= 80 then High else if avg >= 60 then Medium else Low
  }

  /** The headline badge's classes, one per arm of the nested conditional. */
  function HeadlineClass(b: Band): string {
    match b
    case High => "bg-fresh/10 text-fresh"
    case Medium => "bg-expiring/10 text-expiring"
    case Low => "bg-expired/10 text-expired"
  }

  /**
   * The headline badge is tinted with the colour class `getColor` gives a
   * segment of the same value, and distinct bands have distinct classes.
   */
  lemma HeadlineTintMatchesSegment(v: int)
    ensures ColorClass(GetColor(v)) + "/10" <= HeadlineClass(HeadlineBand(v))
    ensures forall a: Band, b: Band :: ColorClass(a) == ColorClass(b) ==> a == b
  {
    HeadlineMatchesGetColor(v);
    forall a: Band, b: Band | ColorClass(a) == ColorClass(b) ensures a == b {
      assert |ColorClass(a)| == |ColorClass(b)|;
    }
  }

  datatype SegmentRow = SegmentRow(key: Pillar, title: string, icon: string, colour: Band, percent: int)

  datatype BarView = BarView(average: int, headline: Band, rows: seq<SegmentRow>)

  /** What the bar displays for `s`. */
  function Render(s: Pillars): BarView {
    var avg := Average(s);
    BarView(avg, HeadlineBand(avg),
      seq(|Segments|, i requires 0 <= i < |Segments| =>
        var seg := Segments[i];
        SegmentRow(seg.key, seg.title, seg.icon, GetColor(Value(s, seg.key)), Value(s, seg.key))))
  }

  /** Five segments, each pillar exactly once, in the fixed order. */
  lemma SegmentsArePillars()
    ensures |Segments| == 5
    ensures Segments[0].key == Co2 && Segments[1].key == Recyclability && Segments[2].key == AnimalWelfare
    ensures Segments[3].key == LocalSourcing && Segments[4].key == Packaging
    ensures forall i, j :: 0 <= i < j < |Segments| ==> Segments[i].key != Segments[j].key
    ensures forall k: Pillar :: k in SegmentKeys()
  {
    var keys := SegmentKeys();
    assert keys == [Co2, Recyclability, AnimalWelfare, LocalSourcing, Packaging];
    forall k: Pillar ensures k in keys {
      match k
      case Co2 => assert keys[0] == k;
      case Recyclability => assert keys[1] == k;
      case AnimalWelfare => assert keys[2] == k;
      case LocalSourcing => assert keys[3] == k;
      case Packaging => assert keys[4] == k;
    }
  }

  /** The segment keys, in order (`segments.map(s => s.key)`). */
  function SegmentKeys(): seq<Pillar> {
    seq(|Segments|, i requires 0 <= i < |Segments| => Segments[i].key)
  }

  /** The headline badge applies exactly the thresholds of `GetColor`. */
  lemma HeadlineMatchesGetColor(v: int)
    ensures HeadlineBand(v) == GetColor(v)
  {}

  /** Pillars in [0, 100] give an average in [0, 100]. */
  lemma AverageInRange(s: Pillars)
    requires PillarsInRange(s)
    ensures 0 <= Average(s) <= 100
  {}

  /** Raising one pillar never lowers the average. */
  lemma AverageMonotone(s: Pillars, k: Pillar, v: int)
    requires v >= Value(s, k)
    ensures Average(WithPillar(s, k, v)) >= Average(s)
  {
    var t := WithPillar(s, k, v);
    assert PillarSum(t) >= PillarSum(s) by {
      match k
      case Co2 =>
      case Recyclability =>
      case AnimalWelfare =>
      case LocalSourcing =>
      case Packaging =>
    }
  }

  /** The bar is self-consistent: the headline and every segment use one banding. */
  lemma RenderConsistent(s: Pillars)
    ensures Render(s).average == Average(s)
    ensures Render(s).headline == GetColor(Render(s).average)
    ensures |Render(s).rows| == 5
    ensures forall i :: 0 <= i < |Render(s).rows| ==>
      && Render(s).rows[i].key == Segments[i].key
      && Render(s).rows[i].percent == Value(s, Segments[i].key)
      && Render(s).rows[i].colour == GetColor(Render(s).rows[i].percent)
  {
    HeadlineMatchesGetColor(Average(s));
  }

  /** The catalog scores 90, 77 and 91: high, medium and high. */
  lemma CatalogScores()
    ensures Average(Catalog[0].sustainability) == 90 && GetColor(90) == High
    ensures Average(Catalog[1].sustainability) == 77 && GetColor(77) == Medium
    ensures Average(Catalog[2].sustainability) == 91 && GetColor(91) == High
  {}
}
