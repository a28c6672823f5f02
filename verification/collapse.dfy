/** The weighted "collapse" digit selector (`quantumCollapse`).

    Every digit starts at resistance 100. Its resonance, a weighted sum of the
    frequency tables and of the confirmed hits at the requested rank, is divided
    by (1 + entropy) and subtracted. The digits are stably sorted by ascending
    resistance, and two random draws pick the first or the second of them. */
module Collapse {
  import opened Digits
  import opened Types

  const GlobalWeight: real := 0.4
  const ColumnWeight: real := 2.5
  const HeadWeight: real := 8.0
  const HitWeight: real := 25.0
  const BaseResistance: real := 100.0

  /** `table[d] || 0`: a missing entry reads as zero. */
  function Lookup(t: Table, d: int): (n: nat)
    ensures IsTable(t) && IsDigit(d) ==> n == t[d]
    ensures !(0 <= d < |t|) ==> n == 0
  {
    if 0 <= d < |t| then t[d] else 0
  }

  /** `colDigitFreq[pos]?.[d] || 0`: a missing column table reads as zero. */
  function ColumnLookup(cols: seq<Table>, pos: int, d: int): (n: nat)
    ensures 0 <= pos < |cols| && IsTable(cols[pos]) && IsDigit(d) ==> n == cols[pos][d]
    ensures !(0 <= pos < |cols|) ==> n == 0
  {
    if 0 <= pos < |cols| then Lookup(cols[pos], d) else 0
  }

  /** A hit that reinforces digit `d` at `rank`: a full confirmation recorded at
      that rank whose value contains the digit's character. */
  predicate Reinforces(h: HitRecord, rank: int, d: int)
    requires IsDigit(d)
  {
    h.position == rank && h.status == Acerto && DigitChar(d) in h.value
  }

  /** The number of hits that reinforce `d` at `rank`. */
  function HitInfluence(hits: seq<HitRecord>, rank: int, d: int): (n: nat)
    requires IsDigit(d)
    ensures n <= |hits|
    ensures n == 0 <== forall i | 0 <= i < |hits| :: !Reinforces(hits[i], rank, d)
    ensures n > 0 <== exists i | 0 <= i < |hits| :: Reinforces(hits[i], rank, d)
  {
    if hits == [] then 0
    else
      assert forall i | 0 <= i < |hits[1..]| :: hits[1..][i] == hits[i + 1];
      (if Reinforces(hits[0], rank, d) then 1 else 0) + HitInfluence(hits[1..], rank, d)
  }

  /** The resonance of digit `d` for column `pos` at `rank`. */
  function Resonance(a: CombinedAnalysis, hits: seq<HitRecord>, pos: int, rank: int, d: int): (x: real)
    requires IsDigit(d)
    ensures x >= 0.0
  {
    var ia := a.inputAnalysis;
    GlobalWeight * Lookup(ia.globalDigitFreq, d) as real
    + ColumnWeight * ColumnLookup(ia.colDigitFreq, pos, d) as real
    + (if rank == 1 then HeadWeight * Lookup(ia.firstPrizeFreq, d) as real else 0.0)
    + HitWeight * HitInfluence(hits, rank, d) as real
  }

  /** The four sources of resonance: 0.4 per occurrence overall, 2.5 per occurrence
      in the digit's column, 8 per occurrence in a head row when scoring rank 1, and
      25 per recorded full hit at the rank that contains the digit. */
  lemma ResonanceTerms(a: CombinedAnalysis, hits: seq<HitRecord>, pos: int, rank: int, d: int)
    requires IsDigit(d)
    ensures var x := Resonance(a, hits, pos, rank, d);
            var ia := a.inputAnalysis;
            var g := GlobalWeight * Lookup(ia.globalDigitFreq, d) as real;
            var c := ColumnWeight * ColumnLookup(ia.colDigitFreq, pos, d) as real;
            var h := HitWeight * HitInfluence(hits, rank, d) as real;
            && (rank == 1 ==> x == g + c + HeadWeight * Lookup(ia.firstPrizeFreq, d) as real + h)
            && (rank != 1 ==> x == g + c + h)
  {
  }

  /** The resistance of digit `d`: 100 less its damped resonance. */
  function Resistance(a: CombinedAnalysis, hits: seq<HitRecord>, entropy: real, pos: int, rank: int, d: int): (x: real)
    requires ValidEntropy(entropy) && IsDigit(d)
    ensures x <= BaseResistance
  {
    DivNonNegative(Resonance(a, hits, pos, rank, d), 1.0 + entropy);
    BaseResistance - Resonance(a, hits, pos, rank, d) / (1.0 + entropy)
  }

  /** What a resistance is worth: it falls below 100 by the digit's resonance damped
      by the entropy, which divides it by a factor between 1 (entropy 0, no damping)
      and 2 (entropy 1); it stays at 100 exactly when the digit has no resonance. */
  lemma ResistanceValue(a: CombinedAnalysis, hits: seq<HitRecord>, entropy: real, pos: int, rank: int, d: int)
    requires ValidEntropy(entropy) && IsDigit(d)
    ensures var x := Resistance(a, hits, entropy, pos, rank, d);
            var r := Resonance(a, hits, pos, rank, d);
            && r / 2.0 <= BaseResistance - x <= r
            && (entropy == 0.0 ==> x == BaseResistance - r)
            && (x == BaseResistance <==> r == 0.0)
  {
    Damping(Resonance(a, hits, pos, rank, d), entropy);
  }

  lemma Damping(r: real, entropy: real)
    requires r >= 0.0 && ValidEntropy(entropy)
    ensures r / 2.0 <= r / (1.0 + entropy) <= r
    ensures entropy == 0.0 ==> r / (1.0 + entropy) == r
    ensures r / (1.0 + entropy) == 0.0 <==> r == 0.0
  {
    var q := r / (1.0 + entropy);
    assert q * (1.0 + entropy) == r;
    DivNonNegative(r, 1.0 + entropy);
    assert q * entropy <= q * 1.0;
    assert r <= 2.0 * q;
  }

  lemma DivNonNegative(x: real, k: real)
    requires x >= 0.0 && k > 0.0
    ensures x / k >= 0.0
  {
  }

  /** `resistanceMap`: the resistance of every digit, indexed by digit. */
  function ResistanceMap(a: CombinedAnalysis, hits: seq<HitRecord>, entropy: real, pos: int, rank: int): (res: seq<real>)
    requires ValidEntropy(entropy)
    ensures |res| == 10
    ensures forall d | 0 <= d < 10 :: res[d] == Resistance(a, hits, entropy, pos, rank, d)
  {
    seq(10, d requires 0 <= d < 10 => Resistance(a, hits, entropy, pos, rank, d))
  }

  // ---------------------------------------------------------------------------
  // The stable sort by ascending resistance.
  // ---------------------------------------------------------------------------

  /** Digit `x` comes before digit `y`: lower resistance, or equal resistance and a
      smaller digit (a stable sort keeps the original digit order among ties). */
  predicate Before(res: seq<real>, x: int, y: int)
    requires 0 <= x < |res| && 0 <= y < |res|
  {
    res[x] < res[y] || (res[x] == res[y] && x < y)
  }

  predicate InRange(res: seq<real>, s: seq<int>) {
    forall i | 0 <= i < |s| :: 0 <= s[i] < |res|
  }

  predicate Ranked(res: seq<real>, s: seq<int>)
    requires InRange(res, s)
  {
    forall i, j | 0 <= i < j < |s| :: Before(res, s[i], s[j])
  }

  /** Inserts digit `d`, larger than every digit already placed, after every
      entry whose resistance does not exceed its own. */
  function Insert(res: seq<real>, s: seq<int>, d: int): (r: seq<int>)
    requires InRange(res, s) && Ranked(res, s) && 0 <= d < |res|
    requires forall i | 0 <= i < |s| :: s[i] < d
    ensures |r| == |s| + 1
    ensures InRange(res, r) && Ranked(res, r)
    ensures forall x :: x in r <==> x in s || x == d
  {
    if s == [] then [d]
    else if res[d] < res[s[0]] then [d] + s
    else
      var rest := Insert(res, s[1..], d);
      assert forall x :: x in s <==> x == s[0] || x in s[1..];
      assert forall j | 0 <= j < |rest| :: Before(res, s[0], rest[j]) by {
        forall j | 0 <= j < |rest|
          ensures Before(res, s[0], rest[j])
        {
          if rest[j] != d {
            assert rest[j] in s[1..];
            var k :| 0 <= k < |s[1..]| && s[1..][k] == rest[j];
            assert s[k + 1] == rest[j];
          }
        }
      }
      [s[0]] + rest
  }

  /** Digits `0 .. n-1` stably sorted by ascending resistance. */
  function SortPrefix(res: seq<real>, n: nat): (r: seq<int>)
    requires n <= |res|
    ensures |r| == n
    ensures InRange(res, r) && Ranked(res, r)
    ensures forall x :: x in r <==> 0 <= x < n
  {
    if n == 0 then []
    else
      var s := SortPrefix(res, n - 1);
      assert forall i | 0 <= i < |s| :: s[i] < n - 1 by {
        forall i | 0 <= i < |s| ensures s[i] < n - 1 {
          assert s[i] in s;
        }
      }
      Insert(res, s, n - 1)
  }

  /** `resistanceMap.map(...).sort((a, b) => a.res - b.res)`, as the list of digits. */
  function Ranking(res: seq<real>): (r: seq<int>)
    ensures |r| == |res|
    ensures InRange(res, r) && Ranked(res, r)
    ensures forall x :: x in r <==> 0 <= x < |res|
  {
    SortPrefix(res, |res|)
  }

  /** The ranking the collapse draws from. */
  function Order(a: CombinedAnalysis, hits: seq<HitRecord>, entropy: real, pos: int, rank: int): (r: seq<int>)
    requires ValidEntropy(entropy)
    ensures |r| == 10
    ensures forall i | 0 <= i < 10 :: IsDigit(r[i])
    ensures forall d | 0 <= d < 10 :: d in r
  {
    Ranking(ResistanceMap(a, hits, entropy, pos, rank))
  }

  /** Digit `d` has the lowest resistance, and is the smallest such digit. */
  predicate Strongest(res: seq<real>, d: int) {
    && 0 <= d < |res|
    && forall e | 0 <= e < |res| :: e == d || Before(res, d, e)
  }

  // ---------------------------------------------------------------------------
  // The draw and the collapse.
  // ---------------------------------------------------------------------------

  /** `Math.random() > entropy ? 0 : Math.floor(Math.random() * 2)`. */
  function Pick(entropy: real, draw: Draw): (k: nat)
    requires ValidDraw(draw)
    ensures k <= 1
    ensures draw.r1 > entropy ==> k == 0
    ensures draw.r1 <= entropy ==> (k == 0 <==> draw.r2 < 0.5)
  {
    if draw.r1 > entropy then 0 else (2.0 * draw.r2).Floor
  }

  /** `quantumCollapse`: one digit for column `pos` at `rank`. */
  function QuantumCollapse(a: CombinedAnalysis, hits: seq<HitRecord>, entropy: real, pos: int, rank: int, draw: Draw): (d: int)
    requires ValidEntropy(entropy) && ValidDraw(draw)
    ensures IsDigit(d)
    ensures d == Order(a, hits, entropy, pos, rank)[0] || d == Order(a, hits, entropy, pos, rank)[1]
    ensures draw.r1 > entropy ==> Strongest(ResistanceMap(a, hits, entropy, pos, rank), d)
    ensures draw.r1 > entropy ==> d == Order(a, hits, entropy, pos, rank)[0]
    ensures draw.r1 <= entropy && draw.r2 < 0.5 ==> d == Order(a, hits, entropy, pos, rank)[0]
    ensures draw.r1 <= entropy && draw.r2 >= 0.5 ==> d == Order(a, hits, entropy, pos, rank)[1]
  {
    var res := ResistanceMap(a, hits, entropy, pos, rank);
    var sorted := Ranking(res);
    FirstIsStrongest(res, sorted);
    sorted[Pick(entropy, draw)]
  }

  /** No digit has less resistance than the strongest one. */
  lemma StrongestIsLowest(res: seq<real>, d: int, e: int)
    requires Strongest(res, d) && 0 <= e < |res|
    ensures res[d] <= res[e]
  {
    assert e == d || Before(res, d, e);
  }

  lemma FirstIsStrongest(res: seq<real>, s: seq<int>)
    requires |s| == |res| > 0
    requires InRange(res, s) && Ranked(res, s)
    requires forall x :: x in s <==> 0 <= x < |res|
    ensures Strongest(res, s[0])
  {
    forall e | 0 <= e < |res| && e != s[0]
      ensures Before(res, s[0], e)
    {
      assert e in s;
      var j :| 0 <= j < |s| && s[j] == e;
    }
  }

  // ---------------------------------------------------------------------------
  // Properties of the ranking and of the collapse.
  // ---------------------------------------------------------------------------

  lemma DivStrictMono(x: real, y: real, k: real)
    requires k > 0.0
    ensures x / k < y / k <==> x < y
    ensures x / k == y / k <==> x == y
  {
    var qx, qy := x / k, y / k;
    assert qx * k == x && qy * k == y;
    if x < y {
      assert (qy - qx) * k == y - x;
    }
    if qx < qy {
      assert (qy - qx) * k > 0.0;
    }
  }

  /** Resistance decreases as resonance increases, with the same divisor for every digit. */
  lemma ResistanceOrder(a: CombinedAnalysis, hits: seq<HitRecord>, entropy: real, pos: int, rank: int, x: int, y: int)
    requires ValidEntropy(entropy) && IsDigit(x) && IsDigit(y)
    ensures Resistance(a, hits, entropy, pos, rank, x) < Resistance(a, hits, entropy, pos, rank, y)
            <==> Resonance(a, hits, pos, rank, x) > Resonance(a, hits, pos, rank, y)
    ensures Resistance(a, hits, entropy, pos, rank, x) == Resistance(a, hits, entropy, pos, rank, y)
            <==> Resonance(a, hits, pos, rank, x) == Resonance(a, hits, pos, rank, y)
  {
    DivStrictMono(Resonance(a, hits, pos, rank, y), Resonance(a, hits, pos, rank, x), 1.0 + entropy);
  }

  /** Two resistance lists that compare the same way pairwise. */
  predicate SameOrder(r1: seq<real>, r2: seq<real>) {
    && |r1| == |r2|
    && forall i, j | 0 <= i < |r1| && 0 <= j < |r1| :: r1[i] < r1[j] <==> r2[i] < r2[j]
  }

  lemma {:induction false} InsertSameOrder(r1: seq<real>, r2: seq<real>, s: seq<int>, d: int)
    requires SameOrder(r1, r2)
    requires InRange(r1, s) && Ranked(r1, s) && Ranked(r2, s) && 0 <= d < |r1|
    requires forall i | 0 <= i < |s| :: s[i] < d
    ensures Insert(r1, s, d) == Insert(r2, s, d)
    decreases |s|
  {
    if s != [] && !(r1[d] < r1[s[0]]) {
      InsertSameOrder(r1, r2, s[1..], d);
    }
  }

  lemma {:induction false} SortSameOrder(r1: seq<real>, r2: seq<real>, n: nat)
    requires SameOrder(r1, r2) && n <= |r1|
    ensures SortPrefix(r1, n) == SortPrefix(r2, n)
  {
    if n > 0 {
      SortSameOrder(r1, r2, n - 1);
      var s := SortPrefix(r1, n - 1);
      assert forall i | 0 <= i < |s| :: s[i] < n - 1 by {
        forall i | 0 <= i < |s| ensures s[i] < n - 1 {
          assert s[i] in s;
        }
      }
      assert s == SortPrefix(r2, n - 1);
      InsertSameOrder(r1, r2, s, n - 1);
      assert SortPrefix(r1, n) == Insert(r1, s, n - 1);
      assert SortPrefix(r2, n) == Insert(r2, s, n - 1);
    }
  }

  /** The ranking depends on the resistances only through their pairwise comparisons. */
  lemma RankingSameOrder(r1: seq<real>, r2: seq<real>)
    requires SameOrder(r1, r2)
    ensures Ranking(r1) == Ranking(r2)
  {
    SortSameOrder(r1, r2, |r1|);
  }

  /** Entropy divides every resonance by the same positive number, so it never
      changes the ranking: it only matters to the draw. */
  lemma OrderIndependentOfEntropy(a: CombinedAnalysis, hits: seq<HitRecord>, e1: real, e2: real, pos: int, rank: int)
    requires ValidEntropy(e1) && ValidEntropy(e2)
    ensures Order(a, hits, e1, pos, rank) == Order(a, hits, e2, pos, rank)
  {
    var r1 := ResistanceMap(a, hits, e1, pos, rank);
    var r2 := ResistanceMap(a, hits, e2, pos, rank);
    forall i, j | 0 <= i < 10 && 0 <= j < 10
      ensures r1[i] < r1[j] <==> r2[i] < r2[j]
    {
      ResistanceOrder(a, hits, e1, pos, rank, i, j);
      ResistanceOrder(a, hits, e2, pos, rank, i, j);
    }
    RankingSameOrder(r1, r2);
  }

  /** Two collapses that differ only in entropy and draws agree whenever their draws
      pick the same index. */
  lemma CollapseDependsOnEntropyOnlyThroughPick(
    a: CombinedAnalysis, hits: seq<HitRecord>, e1: real, e2: real, pos: int, rank: int, d1: Draw, d2: Draw)
    requires ValidEntropy(e1) && ValidEntropy(e2) && ValidDraw(d1) && ValidDraw(d2)
    requires Pick(e1, d1) == Pick(e2, d2)
    ensures QuantumCollapse(a, hits, e1, pos, rank, d1) == QuantumCollapse(a, hits, e2, pos, rank, d2)
  {
    OrderIndependentOfEntropy(a, hits, e1, e2, pos, rank);
  }

  /** Two draws that both skip the random branch give the same digit, whatever the
      two entropies are. */
  lemma SettledCollapsesAgree(
    a: CombinedAnalysis, hits: seq<HitRecord>, e1: real, e2: real, pos: int, rank: int, d1: Draw, d2: Draw)
    requires ValidEntropy(e1) && ValidEntropy(e2) && ValidDraw(d1) && ValidDraw(d2)
    requires d1.r1 > e1 && d2.r1 > e2
    ensures QuantumCollapse(a, hits, e1, pos, rank, d1) == QuantumCollapse(a, hits, e2, pos, rank, d2)
  {
    CollapseDependsOnEntropyOnlyThroughPick(a, hits, e1, e2, pos, rank, d1, d2);
  }

  /** A collapse lands on one of the two lowest-resistance digits, ranked under any
      entropy. */
  lemma CollapseInTopTwo(a: CombinedAnalysis, hits: seq<HitRecord>, e1: real, e2: real, pos: int, rank: int, draw: Draw)
    requires ValidEntropy(e1) && ValidEntropy(e2) && ValidDraw(draw)
    ensures QuantumCollapse(a, hits, e1, pos, rank, draw) in Order(a, hits, e2, pos, rank)[..2]
  {
    OrderIndependentOfEntropy(a, hits, e1, e2, pos, rank);
    var o := Order(a, hits, e2, pos, rank);
    assert o[..2] == [o[0], o[1]];
  }

  /** The ranking lists the digits by descending resonance, smaller digit first on ties. */
  lemma OrderFollowsResonance(a: CombinedAnalysis, hits: seq<HitRecord>, entropy: real, pos: int, rank: int)
    requires ValidEntropy(entropy)
    ensures forall i, j | 0 <= i < j < 10 ::
              var o := Order(a, hits, entropy, pos, rank);
              || Resonance(a, hits, pos, rank, o[i]) > Resonance(a, hits, pos, rank, o[j])
              || (Resonance(a, hits, pos, rank, o[i]) == Resonance(a, hits, pos, rank, o[j]) && o[i] < o[j])
  {
    var o := Order(a, hits, entropy, pos, rank);
    var res := ResistanceMap(a, hits, entropy, pos, rank);
    forall i, j | 0 <= i < j < 10
      ensures || Resonance(a, hits, pos, rank, o[i]) > Resonance(a, hits, pos, rank, o[j])
              || (Resonance(a, hits, pos, rank, o[i]) == Resonance(a, hits, pos, rank, o[j]) && o[i] < o[j])
    {
      assert Before(res, o[i], o[j]);
      ResistanceOrder(a, hits, entropy, pos, rank, o[i], o[j]);
    }
  }

  /** A prepended hit adds its weight to the resonance of each digit it reinforces. */
  lemma PrependedHitResonance(a: CombinedAnalysis, h: HitRecord, hits: seq<HitRecord>, pos: int, rank: int, d: int)
    requires IsDigit(d)
    ensures Resonance(a, [h] + hits, pos, rank, d)
            == Resonance(a, hits, pos, rank, d) + (if Reinforces(h, rank, d) then HitWeight else 0.0)
  {
    assert ([h] + hits)[1..] == hits;
    var n := HitInfluence(hits, rank, d);
    assert HitInfluence([h] + hits, rank, d) == (if Reinforces(h, rank, d) then 1 else 0) + n;
  }

  lemma DivAdd(x: real, w: real, k: real)
    requires k > 0.0
    ensures (x + w) / k == x / k + w / k
  {
  }

  /** A prepended hit lowers the resistance of each digit it reinforces by exactly
      25 / (1 + entropy) and leaves every other digit's resistance unchanged. */
  lemma PrependedHit(a: CombinedAnalysis, h: HitRecord, hits: seq<HitRecord>, entropy: real, pos: int, rank: int, d: int)
    requires ValidEntropy(entropy) && IsDigit(d)
    ensures Resistance(a, [h] + hits, entropy, pos, rank, d)
            == Resistance(a, hits, entropy, pos, rank, d) - (if Reinforces(h, rank, d) then HitWeight / (1.0 + entropy) else 0.0)
  {
    PrependedHitResonance(a, h, hits, pos, rank, d);
    var k := 1.0 + entropy;
    var x := Resonance(a, hits, pos, rank, d);
    if Reinforces(h, rank, d) {
      DivAdd(x, HitWeight, k);
    }
  }

  /** A partial confirmation, or a hit at another rank, changes no resistance and
      therefore no collapse. */
  lemma InertHit(a: CombinedAnalysis, h: HitRecord, hits: seq<HitRecord>, entropy: real, pos: int, rank: int, draw: Draw)
    requires ValidEntropy(entropy) && ValidDraw(draw)
    requires h.status == QuaseAcerto || h.position != rank
    ensures ResistanceMap(a, [h] + hits, entropy, pos, rank) == ResistanceMap(a, hits, entropy, pos, rank)
    ensures QuantumCollapse(a, [h] + hits, entropy, pos, rank, draw) == QuantumCollapse(a, hits, entropy, pos, rank, draw)
  {
    forall d | 0 <= d < 10
      ensures Resistance(a, [h] + hits, entropy, pos, rank, d) == Resistance(a, hits, entropy, pos, rank, d)
    {
      PrependedHit(a, h, hits, entropy, pos, rank, d);
    }
  }

  /** Digit `d`'s counts in `a2` are at least its counts in `a1` for column `pos`. */
  predicate CountsAtLeast(a1: CombinedAnalysis, a2: CombinedAnalysis, pos: int, d: int) {
    var t1, t2 := a1.inputAnalysis, a2.inputAnalysis;
    && Lookup(t2.globalDigitFreq, d) >= Lookup(t1.globalDigitFreq, d)
    && ColumnLookup(t2.colDigitFreq, pos, d) >= ColumnLookup(t1.colDigitFreq, pos, d)
    && Lookup(t2.firstPrizeFreq, d) >= Lookup(t1.firstPrizeFreq, d)
  }

  /** Digit `d`'s counts agree in `a1` and `a2` for column `pos`. */
  predicate CountsEqual(a1: CombinedAnalysis, a2: CombinedAnalysis, pos: int, d: int) {
    var t1, t2 := a1.inputAnalysis, a2.inputAnalysis;
    && Lookup(t2.globalDigitFreq, d) == Lookup(t1.globalDigitFreq, d)
    && ColumnLookup(t2.colDigitFreq, pos, d) == ColumnLookup(t1.colDigitFreq, pos, d)
    && Lookup(t2.firstPrizeFreq, d) == Lookup(t1.firstPrizeFreq, d)
  }

  /** Raising any frequency count of a digit never raises its resistance. */
  lemma FrequencyLowersResistance(
    a1: CombinedAnalysis, a2: CombinedAnalysis, hits: seq<HitRecord>, entropy: real, pos: int, rank: int, d: int)
    requires ValidEntropy(entropy) && IsDigit(d)
    requires CountsAtLeast(a1, a2, pos, d)
    ensures Resistance(a2, hits, entropy, pos, rank, d) <= Resistance(a1, hits, entropy, pos, rank, d)
  {
    var x1 := Resonance(a1, hits, pos, rank, d);
    var x2 := Resonance(a2, hits, pos, rank, d);
    assert x1 <= x2;
    DivStrictMono(x2, x1, 1.0 + entropy);
  }

  /** The digits ranked ahead of `d`. */
  function Ahead(res: seq<real>, d: int): set<int>
    requires 0 <= d < |res|
  {
    set e | 0 <= e < |res| && Before(res, e, d)
  }

  lemma {:induction false} DistinctPrefixCard(s: seq<int>, i: nat)
    requires i <= |s|
    requires forall p, q | 0 <= p < q < |s| :: s[p] != s[q]
    ensures |set k | 0 <= k < i :: s[k]| == i
  {
    if i > 0 {
      DistinctPrefixCard(s, i - 1);
      var prev := set k | 0 <= k < i - 1 :: s[k];
      assert (set k | 0 <= k < i :: s[k]) == prev + {s[i - 1]};
      assert s[i - 1] !in prev;
    }
  }

  /** A digit's place in the ranking is the number of digits ranked ahead of it. */
  lemma PlaceIsAheadCount(res: seq<real>, i: nat)
    requires i < |res|
    ensures |Ahead(res, Ranking(res)[i])| == i
  {
    var s := Ranking(res);
    var d := s[i];
    forall p, q | 0 <= p < q < |s| ensures s[p] != s[q] {
      assert Before(res, s[p], s[q]);
    }
    assert Ahead(res, d) == set k | 0 <= k < i :: s[k] by {
      forall e | e in Ahead(res, d) ensures e in set k | 0 <= k < i :: s[k] {
        assert e in s;
        var j :| 0 <= j < |s| && s[j] == e;
        assert j < i;
      }
    }
    DistinctPrefixCard(s, i);
  }

  /** Lowering one digit's resistance, leaving the others', never moves it down the ranking. */
  lemma LowerResistanceNeverDemotes(r1: seq<real>, r2: seq<real>, d: int, i1: nat, i2: nat)
    requires |r1| == |r2| && 0 <= d < |r1|
    requires r2[d] <= r1[d]
    requires forall e | 0 <= e < |r1| && e != d :: r2[e] == r1[e]
    requires i1 < |r1| && Ranking(r1)[i1] == d
    requires i2 < |r2| && Ranking(r2)[i2] == d
    ensures i2 <= i1
  {
    PlaceIsAheadCount(r1, i1);
    PlaceIsAheadCount(r2, i2);
    assert Ahead(r2, d) <= Ahead(r1, d);
    assert |Ahead(r2, d)| <= |Ahead(r1, d)| by {
      SubsetCard(Ahead(r2, d), Ahead(r1, d));
    }
  }

  lemma SubsetCard(a: set<int>, b: set<int>)
    requires a <= b
    ensures |a| <= |b|
  {
    assert b == a + (b - a);
  }

  lemma EqualCountsEqualResistance(
    a1: CombinedAnalysis, a2: CombinedAnalysis, hits: seq<HitRecord>, entropy: real, pos: int, rank: int, e: int)
    requires ValidEntropy(entropy) && IsDigit(e)
    requires CountsEqual(a1, a2, pos, e)
    ensures Resistance(a2, hits, entropy, pos, rank, e) == Resistance(a1, hits, entropy, pos, rank, e)
  {
    assert Resonance(a2, hits, pos, rank, e) == Resonance(a1, hits, pos, rank, e);
  }

  /** Raising a digit's counts, all else fixed, never moves it down the ranking. */
  lemma FrequencyNeverDemotes(
    a1: CombinedAnalysis, a2: CombinedAnalysis, hits: seq<HitRecord>, entropy: real, pos: int, rank: int,
    d: int, i1: nat, i2: nat)
    requires ValidEntropy(entropy) && IsDigit(d)
    requires CountsAtLeast(a1, a2, pos, d)
    requires forall e | 0 <= e < 10 && e != d :: CountsEqual(a1, a2, pos, e)
    requires i1 < 10 && Order(a1, hits, entropy, pos, rank)[i1] == d
    requires i2 < 10 && Order(a2, hits, entropy, pos, rank)[i2] == d
    ensures i2 <= i1
  {
    var r1 := ResistanceMap(a1, hits, entropy, pos, rank);
    var r2 := ResistanceMap(a2, hits, entropy, pos, rank);
    FrequencyLowersResistance(a1, a2, hits, entropy, pos, rank, d);
    forall e | 0 <= e < 10 && e != d
      ensures r2[e] == r1[e]
    {
      EqualCountsEqualResistance(a1, a2, hits, entropy, pos, rank, e);
    }
    LowerResistanceNeverDemotes(r1, r2, d, i1, i2);
  }

  /** With no signal at all every digit keeps resistance 100, the ranking is 0, 1, ..., 9
      by digit order, and the collapse yields 0 or 1 (0 whenever the first draw exceeds the entropy). */
  lemma NoSignalPicksZeroOrOne(a: CombinedAnalysis, hits: seq<HitRecord>, entropy: real, pos: int, rank: int, draw: Draw)
    requires ValidEntropy(entropy) && ValidDraw(draw)
    requires forall d | 0 <= d < 10 :: Resonance(a, hits, pos, rank, d) == 0.0
    ensures forall d | 0 <= d < 10 :: ResistanceMap(a, hits, entropy, pos, rank)[d] == BaseResistance
    ensures Order(a, hits, entropy, pos, rank)[0] == 0 && Order(a, hits, entropy, pos, rank)[1] == 1
    ensures QuantumCollapse(a, hits, entropy, pos, rank, draw) == (if draw.r1 > entropy then 0 else Pick(entropy, draw))
  {
    var res := ResistanceMap(a, hits, entropy, pos, rank);
    var o := Order(a, hits, entropy, pos, rank);
    forall x, y | 0 <= x < 10 && 0 <= y < 10 ensures Before(res, x, y) <==> x < y {
    }
    FirstIsStrongest(res, o);
    var zeroAfterFirst := Before(res, o[0], 0);
    assert o[0] == 0;
    assert 1 in o;
    var j :| 0 <= j < 10 && o[j] == 1;
    assert Before(res, o[0], o[1]);
    assert j == 1;
  }
}
