/** From a detector's evidence to a confidence percentage, over exact reals. */
module Confidence {
  import opened Numbers

  const MIN_CONFIDENCE := 5

  datatype Factor = Factor(name: string, observed: Num, strength: Num)

  datatype Detail = Detail(observed: real, strength: real)

  /** `Math.round`: halves go up. */
  function Round(x: real): int { (x + 0.5).Floor }

  function Round2(x: Num): real { if x.NotFinite? then 0.0 else Round(x.value * 100.0) as real / 100.0 }

  /** Not a number, or infinite, counts as the weakest reading. */
  function Clamp01(x: Num): (r: real)
    ensures 0.0 <= r <= 1.0
  {
    if x.NotFinite? || x.value < 0.0 then 0.0 else if x.value > 1.0 then 1.0 else x.value
  }

  function Clamp(x: int, low: int, high: int): int { if x < low then low else if x > high then high else x }

  /** A threshold as the caller passes it: a number, or one of the three values that are not finite. */
  datatype Threshold = At(value: real) | NotANumber | PlusInfinity | MinusInfinity

  /** `value >= t`, which no value satisfies against NaN. */
  predicate Reaches(value: real, t: Threshold) {
    match t
    case At(x) => value >= x
    case MinusInfinity => true
    case _ => false
  }

  function RatioStrength(value: Num, atFloor: Threshold, atFull: Threshold): real {
    if value.NotFinite? then 0.0
    else if !atFloor.At? || !atFull.At? || atFull.value <= atFloor.value then
      if Reaches(value.value, atFull) then 1.0 else 0.0
    else if value.value <= atFloor.value then 0.0
    else if value.value >= atFull.value then 1.0
    else (value.value - atFloor.value) / (atFull.value - atFloor.value)
  }

  function Ceiling(ceiling: Num): (c: int)
    ensures MIN_CONFIDENCE <= c <= 100
  {
    if ceiling.NotFinite? then MIN_CONFIDENCE else Clamp(Round(ceiling.value), MIN_CONFIDENCE, 100)
  }

  function Total(factors: seq<Factor>): real {
    if factors == [] then 0.0 else Total(factors[..|factors| - 1]) + Clamp01(factors[|factors| - 1].strength)
  }

  function Mean(factors: seq<Factor>): (m: real)
    ensures 0.0 <= m <= 1.0
  {
    if factors == [] then 1.0
    else
      TotalBounds(factors);
      Share(Total(factors), |factors| as real);
      Total(factors) / |factors| as real
  }

  lemma {:induction false} TotalBounds(factors: seq<Factor>)
    ensures 0.0 <= Total(factors) <= |factors| as real
  {
    hide Clamp01;
    if factors != [] { TotalBounds(factors[..|factors| - 1]); }
  }

  lemma Share(t: real, n: real)
    requires 0.0 <= t <= n && n > 0.0
    ensures 0.0 <= t / n <= 1.0
  {
  }

  function Agreement(factors: seq<Factor>): real { 0.4 + 0.6 * Mean(factors) }

  function Quality(dataQuality: Num): real { 0.5 + 0.5 * Clamp01(dataQuality) }

  function Weighted(c: int, agreement: real, quality: real): real { c as real * agreement * quality }

  function Product(c: int, agreement: real, quality: real): int {
    Clamp(Round(Weighted(c, agreement, quality)), MIN_CONFIDENCE, c)
  }

  function Score(ceiling: Num, factors: seq<Factor>, dataQuality: Num): int {
    Product(Ceiling(ceiling), Agreement(factors), Quality(dataQuality))
  }

  /** The detail recorded under each name; a repeated name keeps the last. */
  function Details(factors: seq<Factor>): map<string, Detail> {
    if factors == [] then map[]
    else
      var f := factors[|factors| - 1];
      Details(factors[..|factors| - 1])[f.name := Detail(Round2(f.observed), Round2(Finite(Clamp01(f.strength))))]
  }

  method ComputeConfidence(ceiling: Num, factors: seq<Factor>, dataQuality: Num)
    returns (confidence: int, detail: map<string, Detail>)
    ensures confidence == Score(ceiling, factors, dataQuality)
    ensures detail == Details(factors)
  {
    hide Clamp01, Round, Round2, Product, Ceiling, Quality;
    var total := 0.0;
    for k := 0 to |factors|
      invariant total == Total(factors[..k])
    {
      assert factors[..k + 1][..k] == factors[..k];
      total := total + Clamp01(factors[k].strength);
    }
    assert factors[..|factors|] == factors;
    var c := Ceiling(ceiling);
    var mean := if |factors| == 0 then 1.0 else total / |factors| as real;
    assert mean == Mean(factors);
    confidence := Product(c, 0.4 + 0.6 * mean, Quality(dataQuality));
    detail := map[];
    for k := 0 to |factors|
      invariant detail == Details(factors[..k])
    {
      assert factors[..k + 1][..k] == factors[..k];
      var f := factors[k];
      detail := detail[f.name := Detail(Round2(f.observed), Round2(Finite(Clamp01(f.strength))))];
    }
  }

  // ---- bounds ----

  lemma ScoreWithinBounds(ceiling: Num, factors: seq<Factor>, dataQuality: Num)
    ensures MIN_CONFIDENCE <= Score(ceiling, factors, dataQuality) <= Ceiling(ceiling)
  {
  }

  lemma {:induction false} FullTotal(factors: seq<Factor>)
    requires forall f :: f in factors ==> Clamp01(f.strength) == 1.0
    ensures Total(factors) == |factors| as real
  {
    if factors != [] { FullTotal(factors[..|factors| - 1]); }
  }

  /** Full agreement on a complete read gives the ceiling itself. */
  lemma FullEvidenceGivesCeiling(ceiling: Num, factors: seq<Factor>, dataQuality: Num)
    requires Clamp01(dataQuality) == 1.0 && forall f :: f in factors ==> Clamp01(f.strength) == 1.0
    ensures Score(ceiling, factors, dataQuality) == Ceiling(ceiling)
  {
    FullTotal(factors);
    assert Mean(factors) == 1.0;
    assert Agreement(factors) == 1.0 && Quality(dataQuality) == 1.0;
  }

  // ---- monotonicity ----

  predicate NoWeaker(weak: seq<Factor>, strong: seq<Factor>) {
    |weak| == |strong| && forall i :: 0 <= i < |weak| ==> Clamp01(weak[i].strength) <= Clamp01(strong[i].strength)
  }

  lemma {:induction false} TotalMonotone(weak: seq<Factor>, strong: seq<Factor>)
    requires NoWeaker(weak, strong)
    ensures Total(weak) <= Total(strong)
  {
    if weak != [] { TotalMonotone(weak[..|weak| - 1], strong[..|strong| - 1]); }
  }

  lemma ShareMonotone(a: real, b: real, n: real)
    requires a <= b && n > 0.0
    ensures a / n <= b / n
  {
  }

  lemma WeightedMonotone(c: int, a: real, b: real, p: real, q: real)
    requires 0 <= c && 0.0 <= a <= b && 0.0 <= p <= q
    ensures Weighted(c, a, p) <= Weighted(c, b, q)
  {
    var d := c as real;
    assert a * p <= b * p <= b * q;
    assert d * (a * p) <= d * (b * q);
    assert Weighted(c, a, p) == d * (a * p) && Weighted(c, b, q) == d * (b * q);
  }

  lemma RoundedMonotone(x: real, y: real, c: int)
    requires x <= y && MIN_CONFIDENCE <= c
    ensures Clamp(Round(x), MIN_CONFIDENCE, c) <= Clamp(Round(y), MIN_CONFIDENCE, c)
  {
  }

  lemma ProductMonotone(c: int, a: real, b: real, p: real, q: real)
    requires MIN_CONFIDENCE <= c && 0.0 <= a <= b && 0.0 <= p <= q
    ensures Product(c, a, p) <= Product(c, b, q)
  {
    hide Round, Clamp, Weighted;
    WeightedMonotone(c, a, b, p, q);
    RoundedMonotone(Weighted(c, a, p), Weighted(c, b, q), c);
  }

  /** Stronger factors or better data never lower the confidence. */
  lemma ScoreMonotone(ceiling: Num, weak: seq<Factor>, strong: seq<Factor>, poor: Num, good: Num)
    requires NoWeaker(weak, strong) && Clamp01(poor) <= Clamp01(good)
    ensures Score(ceiling, weak, poor) <= Score(ceiling, strong, good)
  {
    hide Clamp01, Ceiling, Product, Total;
    TotalMonotone(weak, strong);
    if weak != [] { ShareMonotone(Total(weak), Total(strong), |weak| as real); }
    ProductMonotone(Ceiling(ceiling), Agreement(weak), Agreement(strong), Quality(poor), Quality(good));
  }

  /** A larger measurement never reads as weaker evidence, and a strength is always within 0 and 1. */
  lemma RatioStrengthMonotone(x: real, y: real, atFloor: Threshold, atFull: Threshold)
    requires x <= y
    ensures 0.0 <= RatioStrength(Finite(x), atFloor, atFull) <= RatioStrength(Finite(y), atFloor, atFull) <= 1.0
  {
    if atFloor.At? && atFull.At? {
      var a, b := atFloor.value, atFull.value;
      if a < x < b { Share(x - a, b - a); }
      if a < y < b {
        Share(y - a, b - a);
        ShareMonotone(x - a, y - a, b - a);
      }
    }
  }

  // ---- order ----

  lemma {:induction false} TotalWithout(factors: seq<Factor>, i: nat)
    requires i < |factors|
    ensures Total(factors) == Total(factors[..i] + factors[i + 1..]) + Clamp01(factors[i].strength)
  {
    hide Clamp01;
    var last := |factors| - 1;
    if i < last {
      TotalWithout(factors[..last], i);
      var rest := factors[..i] + factors[i + 1..];
      assert rest[..|rest| - 1] == factors[..last][..i] + factors[..last][i + 1..];
    } else {
      assert factors[..i] + factors[i + 1..] == factors[..i];
    }
  }

  lemma PickOut<T>(s: seq<T>, i: nat)
    requires i < |s|
    ensures multiset(s) == multiset(s[..i] + s[i + 1..]) + multiset{s[i]}
  {
    assert s == s[..i] + ([s[i]] + s[i + 1..]);
  }

  lemma Cancel<T>(x: multiset<T>, y: multiset<T>, e: T)
    requires x + multiset{e} == y + multiset{e}
    ensures x == y
  {
    assert x + multiset{e} - multiset{e} == x;
    assert y + multiset{e} - multiset{e} == y;
  }

  lemma DropSame<T>(a: seq<T>, b: seq<T>, i: nat)
    requires multiset(a) == multiset(b) && a != [] && i < |b| && b[i] == a[|a| - 1]
    ensures multiset(a[..|a| - 1]) == multiset(b[..i] + b[i + 1..])
  {
    PickOut(b, i);
    PickOut(a, |a| - 1);
    assert a[..|a| - 1] + a[|a|..] == a[..|a| - 1];
    Cancel(multiset(a[..|a| - 1]), multiset(b[..i] + b[i + 1..]), b[i]);
  }

  lemma {:induction false} TotalIgnoresOrder(a: seq<Factor>, b: seq<Factor>)
    requires multiset(a) == multiset(b)
    ensures Total(a) == Total(b) && |a| == |b|
    decreases |a|
  {
    hide Clamp01;
    assert |multiset(a)| == |a| && |multiset(b)| == |b|;
    if a != [] {
      var n := |a| - 1;
      assert a[n] in multiset(b);
      var i :| 0 <= i < |b| && b[i] == a[n];
      DropSame(a, b, i);
      TotalIgnoresOrder(a[..n], b[..i] + b[i + 1..]);
      TotalWithout(b, i);
    }
  }

  /** The order of the factors is irrelevant. */
  lemma ScoreIgnoresOrder(ceiling: Num, a: seq<Factor>, b: seq<Factor>, dataQuality: Num)
    requires multiset(a) == multiset(b)
    ensures Score(ceiling, a, dataQuality) == Score(ceiling, b, dataQuality)
  {
    TotalIgnoresOrder(a, b);
  }
}
