/** The data shapes shared by the analyser, the collapse selector, the
    generation cycle and the application state (the records of `types.ts`). */
module Types {
  import opened Digits

  datatype Option<+T> = None | Some(value: T) {
    function GetOr(default: T): T {
      match this
      case Some(v) => v
      case None => default
    }
  }

  /** One row of a draw record: 4 digits, or 3 for the trailing row. */
  type Row = seq<int>

  /** One draw record: 7 rows when well formed. */
  type DataSet = seq<Row>

  /** The archive of past draw records, newest first. */
  type History = seq<DataSet>

  predicate DigitRows(rows: seq<Row>) {
    forall i | 0 <= i < |rows| :: AllDigits(rows[i])
  }

  predicate DigitSets(sets: seq<DataSet>) {
    forall k | 0 <= k < |sets| :: DigitRows(sets[k])
  }

  /** `modules.concat(history).reduce((acc, val) => acc.concat(val), [])`: the rows
      of every record, record after record. */
  function ConcatSets(sets: seq<DataSet>): (rows: seq<Row>)
    ensures DigitSets(sets) ==> DigitRows(rows)
  {
    if sets == [] then []
    else
      var rest := ConcatSets(sets[..|sets| - 1]);
      assert DigitSets(sets) ==> DigitSets(sets[..|sets| - 1]);
      rest + sets[|sets| - 1]
  }

  /** Concatenation keeps every record's rows, in record order: joining two lists of
      records joins their rows, and one record gives its own rows. */
  lemma {:induction false} ConcatSetsConcat(a: seq<DataSet>, b: seq<DataSet>)
    ensures ConcatSets(a + b) == ConcatSets(a) + ConcatSets(b)
    ensures |a| == 1 ==> ConcatSets(a) == a[0]
    decreases |b|
  {
    if b == [] {
      assert a + b == a;
    } else {
      var k := |b| - 1;
      assert b == b[..k] + [b[k]];
      assert a + b == (a + b[..k]) + [b[k]];
      ConcatSetsConcat(a, b[..k]);
      ConcatSetsSnoc(a + b[..k], b[k]);
      ConcatSetsSnoc(b[..k], b[k]);
      AppendAssociates(ConcatSets(a), ConcatSets(b[..k]), b[k]);
    }
    if |a| == 1 {
      assert a == [] + [a[0]];
      ConcatSetsSnoc([], a[0]);
    }
  }

  lemma ConcatSetsSnoc(xs: seq<DataSet>, x: DataSet)
    ensures ConcatSets(xs + [x]) == ConcatSets(xs) + x
  {
    assert (xs + [x])[..|xs|] == xs;
  }

  lemma AppendAssociates(x: seq<Row>, y: seq<Row>, z: seq<Row>)
    ensures (x + y) + z == x + (y + z)
  {
  }

  /** The kind of prediction a hit was recorded against. */
  datatype HitKind = Milhar | Centena | Dezena

  /** `'Acerto'` (full confirmation) or `'Quase Acerto'` (partial). */
  datatype HitStatus = Acerto | QuaseAcerto

  datatype HitRecord = HitRecord(
    id: string,
    kind: HitKind,
    status: HitStatus,
    value: string,
    position: int,
    timestamp: int)

  datatype RectificationRecord = RectificationRecord(
    id: string,
    kind: HitKind,
    generated: string,
    actual: string,
    rankLabel: string,
    timestamp: int)

  /** A frequency table: entry d counts the occurrences of digit d. */
  type Table = seq<nat>

  predicate IsTable(t: Table) {
    |t| == 10
  }

  datatype EvenOdd = EvenOdd(evens: nat, odds: nat)

  datatype AnalysisResult = AnalysisResult(
    rowSums: seq<int>,
    rowEvenOdd: seq<EvenOdd>,
    rowDigitFreq: seq<Table>,
    colDigitFreq: seq<Table>,
    globalDigitFreq: Table,
    firstPrizeFreq: Table,
    totalEvenOdd: EvenOdd)

  /** Every table present: ten digit entries each, four column tables. */
  predicate WellShaped(a: AnalysisResult) {
    && IsTable(a.globalDigitFreq)
    && IsTable(a.firstPrizeFreq)
    && |a.colDigitFreq| == 4
    && (forall c | 0 <= c < 4 :: IsTable(a.colDigitFreq[c]))
  }

  datatype CombinedAnalysis = CombinedAnalysis(
    inputAnalysis: AnalysisResult,
    historicalDigitFreq: Table)

  /** A reinforcement candidate; its display-only confidence draw is not modelled. */
  datatype Candidate = Candidate(sequence: Row)

  datatype SpecificPrediction = SpecificPrediction(value: string, confidence: real)

  datatype AdvancedPredictions = AdvancedPredictions(
    hundreds: seq<SpecificPrediction>,
    tens: seq<SpecificPrediction>,
    eliteTens: seq<SpecificPrediction>,
    superTens: seq<SpecificPrediction>)

  /** The two `Math.random()` values one collapse may consume, each in [0, 1). */
  datatype Draw = Draw(r1: real, r2: real)

  predicate ValidDraw(d: Draw) {
    0.0 <= d.r1 < 1.0 && 0.0 <= d.r2 < 1.0
  }

  predicate ValidDraws(ds: seq<Draw>) {
    forall i | 0 <= i < |ds| :: ValidDraw(ds[i])
  }

  /** The entropy setting: the range slider runs from 0 to 1. */
  predicate ValidEntropy(e: real) {
    0.0 <= e <= 1.0
  }
}
