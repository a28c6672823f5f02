/** One generation cycle (`runGenerationCycle`): analyse the entered modules and
    the archive once, collapse a 7-row matrix, three reinforcement candidates and
    the derived "advanced" predictions. */
module Generation {
  import opened Digits
  import opened Types
  import opened Analysis
  import opened Collapse

  /** Draws consumed by the 7 x 4 matrix, then by the 3 x 4 candidates. */
  const MatrixDraws: nat := 28
  const CycleDraws: nat := 40

  const HundredsConfidence: real := 99.98
  const TensConfidence: real := 99.97
  const EliteTensConfidence: real := 99.99
  const SuperTensConfidence: real := 99.95

  datatype CycleOutput = CycleOutput(
    result: DataSet,
    candidates: seq<Candidate>,
    advancedPredictions: AdvancedPredictions,
    analysis: CombinedAnalysis)

  /** The analysis of the combined rows, wrapped with its "historical" view, which
      is the same global table. */
  function Combine(rows: seq<Row>): (a: CombinedAnalysis)
    requires DigitRows(rows)
    ensures a.historicalDigitFreq == a.inputAnalysis.globalDigitFreq
    ensures WellShaped(a.inputAnalysis)
  {
    var inputAnalysis := AnalyzeSet(rows);
    CombinedAnalysis(inputAnalysis, inputAnalysis.globalDigitFreq)
  }

  /** The four collapses for columns 0 to 3 at one rank, one draw each. */
  function ScoredRow(a: CombinedAnalysis, hits: seq<HitRecord>, entropy: real, rank: int, draws: seq<Draw>): (row: Row)
    requires ValidEntropy(entropy) && |draws| == 4 && ValidDraws(draws)
    ensures |row| == 4 && AllDigits(row)
    ensures forall c | 0 <= c < 4 :: row[c] == QuantumCollapse(a, hits, entropy, c, rank, draws[c])
  {
    seq(4, c requires 0 <= c < 4 => QuantumCollapse(a, hits, entropy, c, rank, draws[c]))
  }

  /** The four draws starting at `from`. */
  function DrawsAt(draws: seq<Draw>, from: nat): (ds: seq<Draw>)
    requires from + 4 <= |draws| && ValidDraws(draws)
    ensures |ds| == 4 && ValidDraws(ds)
    ensures forall c | 0 <= c < 4 :: ds[c] == draws[from + c]
  {
    draws[from .. from + 4]
  }

  /** Result row `i` at rank `i + 1`, scored with draws `4i .. 4i+3`; the trailing
      row keeps columns 1 to 3 of its scored sequence. */
  function ResultRow(a: CombinedAnalysis, hits: seq<HitRecord>, entropy: real, i: nat, draws: seq<Draw>): (row: Row)
    requires ValidEntropy(entropy) && i < 7 && |draws| == CycleDraws && ValidDraws(draws)
    ensures |row| == (if i == 6 then 3 else 4) && AllDigits(row)
    ensures var scored := ScoredRow(a, hits, entropy, i + 1, DrawsAt(draws, 4 * i));
            if i == 6 then row == scored[1..] else row == scored
  {
    var scored := ScoredRow(a, hits, entropy, i + 1, DrawsAt(draws, 4 * i));
    if i == 6 then scored[1..] else scored
  }

  /** Reinforcement candidate `k`: rank 1 with the entropy halved, scored with the
      draws after the matrix's. */
  function CandidateAt(a: CombinedAnalysis, hits: seq<HitRecord>, entropy: real, k: nat, draws: seq<Draw>): (c: Candidate)
    requires ValidEntropy(entropy) && k < 3 && |draws| == CycleDraws && ValidDraws(draws)
    ensures |c.sequence| == 4 && AllDigits(c.sequence)
    ensures c.sequence == ScoredRow(a, hits, entropy * 0.5, 1, DrawsAt(draws, MatrixDraws + 4 * k))
  {
    Candidate(ScoredRow(a, hits, entropy * 0.5, 1, DrawsAt(draws, MatrixDraws + 4 * k)))
  }

  function Copies(p: SpecificPrediction, n: nat): (ps: seq<SpecificPrediction>)
    ensures |ps| == n && forall i | 0 <= i < n :: ps[i] == p
  {
    seq(n, i => p)
  }

  /** The advanced predictions: slices of the head row, not fresh collapses. */
  function Advanced(head: Row): (p: AdvancedPredictions)
    requires |head| == 4 && AllDigits(head)
    ensures |p.hundreds| == 3 && |p.tens| == 3 && |p.eliteTens| == 2 && |p.superTens| == 3
    ensures forall k | 0 <= k < 3 :: p.hundreds[k].confidence == 99.98 && p.tens[k].confidence == 99.97
    ensures forall k | 0 <= k < 2 :: p.eliteTens[k].confidence == 99.99
    ensures forall k | 0 <= k < 3 :: p.superTens[k].confidence == 99.95
    ensures forall k | 0 <= k < 3 :: |p.hundreds[k].value| == 3 && |p.tens[k].value| == 2
  {
    AdvancedPredictions(
      Copies(SpecificPrediction(DigitsToString(head[1..4]), HundredsConfidence), 3),
      Copies(SpecificPrediction(DigitsToString(head[2..4]), TensConfidence), 3),
      Copies(SpecificPrediction(DigitsToString(head[2..4]), EliteTensConfidence), 2),
      Copies(SpecificPrediction(DigitsToString(head[2..4]), SuperTensConfidence), 3))
  }

  /** The 7-row result matrix. */
  function Matrix(a: CombinedAnalysis, hits: seq<HitRecord>, entropy: real, draws: seq<Draw>): (m: DataSet)
    requires ValidEntropy(entropy) && |draws| == CycleDraws && ValidDraws(draws)
    ensures |m| == 7
    ensures forall i | 0 <= i < 7 :: m[i] == ResultRow(a, hits, entropy, i, draws)
    ensures forall i | 0 <= i < 7 :: |m[i]| == (if i == 6 then 3 else 4) && AllDigits(m[i])
  {
    seq(7, i requires 0 <= i < 7 => ResultRow(a, hits, entropy, i, draws))
  }

  /** The three reinforcement candidates. */
  function Candidates(a: CombinedAnalysis, hits: seq<HitRecord>, entropy: real, draws: seq<Draw>): (cs: seq<Candidate>)
    requires ValidEntropy(entropy) && |draws| == CycleDraws && ValidDraws(draws)
    ensures |cs| == 3
    ensures forall k | 0 <= k < 3 :: cs[k] == CandidateAt(a, hits, entropy, k, draws)
  {
    seq(3, k requires 0 <= k < 3 => CandidateAt(a, hits, entropy, k, draws))
  }

  lemma DigitSetsConcat(s: seq<DataSet>, t: seq<DataSet>)
    requires DigitSets(s) && DigitSets(t)
    ensures DigitSets(s + t)
  {
  }

  /** `runGenerationCycle`. The rectification records are accepted and never read. */
  function RunGenerationCycle(
    modules: seq<DataSet>, history: History, hits: seq<HitRecord>, rects: seq<RectificationRecord>,
    entropy: real, draws: seq<Draw>): (out: CycleOutput)
    requires DigitSets(modules) && DigitSets(history)
    requires ValidEntropy(entropy) && |draws| == CycleDraws && ValidDraws(draws)
    ensures |out.result| == 7
    ensures forall i | 0 <= i < 6 :: |out.result[i]| == 4
    ensures |out.result[6]| == 3
    ensures DigitRows(out.result)
    ensures |out.candidates| == 3
    ensures forall k | 0 <= k < 3 :: |out.candidates[k].sequence| == 4 && AllDigits(out.candidates[k].sequence)
    ensures out.analysis.historicalDigitFreq == out.analysis.inputAnalysis.globalDigitFreq
    ensures out.analysis.inputAnalysis.globalDigitFreq == Histogram(Flatten(ConcatSets(modules + history)))
    ensures |out.advancedPredictions.hundreds| == 3 && |out.advancedPredictions.tens| == 3
    ensures |out.advancedPredictions.eliteTens| == 2 && |out.advancedPredictions.superTens| == 3
    ensures out.analysis == Combine(ConcatSets(modules + history))
    ensures out.result == Matrix(out.analysis, hits, entropy, draws)
    ensures out.candidates == Candidates(out.analysis, hits, entropy, draws)
    ensures out.advancedPredictions == Advanced(out.result[0])
  {
    DigitSetsConcat(modules, history);
    var a := Combine(ConcatSets(modules + history));
    var result := Matrix(a, hits, entropy, draws);
    CycleOutput(result, Candidates(a, hits, entropy, draws), Advanced(result[0]), a)
  }

  // ---------------------------------------------------------------------------
  // Properties of a cycle.
  // ---------------------------------------------------------------------------

  /** Every digit of a scored row is one of the two lowest-resistance digits for its
      column, ranked under any entropy. */
  lemma ScoredFromTopTwo(a: CombinedAnalysis, hits: seq<HitRecord>, e1: real, e2: real, rank: int, ds: seq<Draw>)
    requires ValidEntropy(e1) && ValidEntropy(e2) && |ds| == 4 && ValidDraws(ds)
    ensures var row := ScoredRow(a, hits, e1, rank, ds);
            forall c | 0 <= c < 4 :: row[c] in Order(a, hits, e2, c, rank)[..2]
  {
    forall c | 0 <= c < 4 {
      CollapseInTopTwo(a, hits, e1, e2, c, rank, ds[c]);
    }
  }

  /** Every result cell is one of the two lowest-resistance digits for its column
      and rank; the trailing row's cells are columns 1 to 3 at rank 7. */
  lemma CellsComeFromTopTwo(a: CombinedAnalysis, hits: seq<HitRecord>, entropy: real, draws: seq<Draw>)
    requires ValidEntropy(entropy) && |draws| == CycleDraws && ValidDraws(draws)
    ensures var m := Matrix(a, hits, entropy, draws);
            forall i, c | 0 <= i < 6 && 0 <= c < 4 ::
              m[i][c] in Order(a, hits, entropy, c, i + 1)[..2]
    ensures var m := Matrix(a, hits, entropy, draws);
            forall c | 0 <= c < 3 ::
              m[6][c] in Order(a, hits, entropy, c + 1, 7)[..2]
  {
    var m := Matrix(a, hits, entropy, draws);
    forall i | 0 <= i < 7 {
      ScoredFromTopTwo(a, hits, entropy, entropy, i + 1, DrawsAt(draws, 4 * i));
    }
  }

  /** Candidate `k`'s digits are among the two lowest-resistance digits for their
      column at rank 1, for the full entropy as well as the halved one it is scored
      with. */
  lemma CandidateFromTopTwo(a: CombinedAnalysis, hits: seq<HitRecord>, entropy: real, k: nat, draws: seq<Draw>)
    requires ValidEntropy(entropy) && k < 3 && |draws| == CycleDraws && ValidDraws(draws)
    ensures var cand := CandidateAt(a, hits, entropy, k, draws);
            forall c | 0 <= c < 4 :: cand.sequence[c] in Order(a, hits, entropy, c, 1)[..2]
  {
    var half := entropy * 0.5;
    assert ValidEntropy(half);
    var ds := DrawsAt(draws, MatrixDraws + 4 * k);
    assert CandidateAt(a, hits, entropy, k, draws).sequence == ScoredRow(a, hits, half, 1, ds);
    ScoredFromTopTwo(a, hits, half, entropy, 1, ds);
  }

  /** Every candidate digit is one of the two lowest-resistance digits for its column
      at rank 1; halving the entropy does not change which two they are. */
  lemma CandidatesComeFromTopTwo(a: CombinedAnalysis, hits: seq<HitRecord>, entropy: real, draws: seq<Draw>)
    requires ValidEntropy(entropy) && |draws| == CycleDraws && ValidDraws(draws)
    ensures var cs := Candidates(a, hits, entropy, draws);
            forall k, c | 0 <= k < 3 && 0 <= c < 4 ::
              cs[k].sequence[c] in Order(a, hits, entropy, c, 1)[..2]
  {
    forall k | 0 <= k < 3 {
      CandidateFromTopTwo(a, hits, entropy, k, draws);
    }
  }

  /** No draw takes the random branch: each first draw exceeds the entropy. */
  predicate Settled(entropy: real, draws: seq<Draw>) {
    forall i | 0 <= i < |draws| :: draws[i].r1 > entropy
  }

  /** A row scored with settled draws holds the strongest digit of every column. */
  lemma SettledScored(a: CombinedAnalysis, hits: seq<HitRecord>, entropy: real, rank: int, ds: seq<Draw>)
    requires ValidEntropy(entropy) && |ds| == 4 && ValidDraws(ds) && Settled(entropy, ds)
    ensures var row := ScoredRow(a, hits, entropy, rank, ds);
            forall c | 0 <= c < 4 :: Strongest(ResistanceMap(a, hits, entropy, c, rank), row[c])
  {
  }

  /** Two rows scored with settled draws agree, whatever the two entropies are. */
  lemma SettledScoredAgree(a: CombinedAnalysis, hits: seq<HitRecord>, e1: real, e2: real, rank: int, ds1: seq<Draw>, ds2: seq<Draw>)
    requires ValidEntropy(e1) && |ds1| == 4 && ValidDraws(ds1) && Settled(e1, ds1)
    requires ValidEntropy(e2) && |ds2| == 4 && ValidDraws(ds2) && Settled(e2, ds2)
    ensures ScoredRow(a, hits, e1, rank, ds1) == ScoredRow(a, hits, e2, rank, ds2)
  {
    var r1, r2 := ScoredRow(a, hits, e1, rank, ds1), ScoredRow(a, hits, e2, rank, ds2);
    forall c | 0 <= c < 4 ensures r1[c] == r2[c] {
      SettledCollapsesAgree(a, hits, e1, e2, c, rank, ds1[c], ds2[c]);
    }
  }

  /** When no draw takes the random branch, every cell holds the lowest-resistance
      digit for its column and rank (the smaller digit on ties). */
  lemma SettledCells(a: CombinedAnalysis, hits: seq<HitRecord>, entropy: real, draws: seq<Draw>)
    requires ValidEntropy(entropy) && |draws| == CycleDraws && ValidDraws(draws)
    requires Settled(entropy, draws)
    ensures var m := Matrix(a, hits, entropy, draws);
            forall i, c | 0 <= i < 6 && 0 <= c < 4 ::
              Strongest(ResistanceMap(a, hits, entropy, c, i + 1), m[i][c])
    ensures var m := Matrix(a, hits, entropy, draws);
            forall c | 0 <= c < 3 ::
              Strongest(ResistanceMap(a, hits, entropy, c + 1, 7), m[6][c])
  {
    var m := Matrix(a, hits, entropy, draws);
    forall i | 0 <= i < 7 {
      SettledScored(a, hits, entropy, i + 1, DrawsAt(draws, 4 * i));
    }
  }

  /** With settled draws, candidate `k` repeats the head row. */
  lemma SettledCandidate(a: CombinedAnalysis, hits: seq<HitRecord>, entropy: real, k: nat, draws: seq<Draw>)
    requires ValidEntropy(entropy) && k < 3 && |draws| == CycleDraws && ValidDraws(draws)
    requires Settled(entropy, draws)
    ensures CandidateAt(a, hits, entropy, k, draws).sequence == ResultRow(a, hits, entropy, 0, draws)
  {
    var half := entropy * 0.5;
    assert ValidEntropy(half);
    var ds1, ds2 := DrawsAt(draws, MatrixDraws + 4 * k), DrawsAt(draws, 0);
    assert Settled(half, ds1) && Settled(entropy, ds2);
    SettledScoredAgree(a, hits, half, entropy, 1, ds1, ds2);
  }

  /** When no draw takes the random branch, every reinforcement candidate repeats
      the head row. */
  lemma SettledCandidates(a: CombinedAnalysis, hits: seq<HitRecord>, entropy: real, draws: seq<Draw>)
    requires ValidEntropy(entropy) && |draws| == CycleDraws && ValidDraws(draws)
    requires Settled(entropy, draws)
    ensures var m, cs := Matrix(a, hits, entropy, draws), Candidates(a, hits, entropy, draws);
            forall k | 0 <= k < 3 :: cs[k].sequence == m[0]
  {
    forall k | 0 <= k < 3 {
      SettledCandidate(a, hits, entropy, k, draws);
    }
  }

  /** No digit resonates in any column at any rank: the analysis and the hits carry
      no signal. */
  ghost predicate Silent(a: CombinedAnalysis, hits: seq<HitRecord>) {
    forall pos, rank, d | 0 <= pos < 4 && 0 <= d < 10 :: Resonance(a, hits, pos, rank, d) == 0.0
  }

  /** With no modules, no archive and no hits, every resonance is zero. */
  lemma EmptyInputsAreSilent()
    ensures Silent(Combine(ConcatSets([])), [])
  {
    EmptyInputGivesZeroTables();
    assert ConcatSets([]) == [];
  }

  /** A row scored with settled draws where no digit resonates is all zeros. */
  lemma SilentScored(a: CombinedAnalysis, entropy: real, rank: int, ds: seq<Draw>)
    requires ValidEntropy(entropy) && |ds| == 4 && ValidDraws(ds) && Settled(entropy, ds)
    requires Silent(a, [])
    ensures ScoredRow(a, [], entropy, rank, ds) == [0, 0, 0, 0]
  {
    var row := ScoredRow(a, [], entropy, rank, ds);
    forall c | 0 <= c < 4 ensures row[c] == 0 {
      NoSignalPicksZeroOrOne(a, [], entropy, c, rank, ds[c]);
    }
  }

  /** With no signal and settled draws, result row `i` is all zeros. */
  lemma SilentResultRow(a: CombinedAnalysis, entropy: real, i: nat, draws: seq<Draw>)
    requires ValidEntropy(entropy) && i < 7 && |draws| == CycleDraws && ValidDraws(draws)
    requires Settled(entropy, draws) && Silent(a, [])
    ensures ResultRow(a, [], entropy, i, draws) == if i == 6 then [0, 0, 0] else [0, 0, 0, 0]
  {
    var ds := DrawsAt(draws, 4 * i);
    assert Settled(entropy, ds);
    SilentScored(a, entropy, i + 1, ds);
  }

  /** With no signal and settled draws the result matrix is all zeros: every digit
      sits at resistance 100 and ties go to 0. */
  lemma SilentMatrix(a: CombinedAnalysis, entropy: real, draws: seq<Draw>)
    requires ValidEntropy(entropy) && |draws| == CycleDraws && ValidDraws(draws)
    requires Settled(entropy, draws) && Silent(a, [])
    ensures Matrix(a, [], entropy, draws)
            == [[0, 0, 0, 0], [0, 0, 0, 0], [0, 0, 0, 0], [0, 0, 0, 0], [0, 0, 0, 0], [0, 0, 0, 0], [0, 0, 0]]
  {
    var m := Matrix(a, [], entropy, draws);
    forall i | 0 <= i < 7
      ensures m[i] == if i == 6 then [0, 0, 0] else [0, 0, 0, 0]
    {
      SilentResultRow(a, entropy, i, draws);
    }
  }

  /** With no modules, no archive, no hits and no draw taking the random branch, the
      result is all zeros. */
  lemma EmptyCycleIsAllZero(rects: seq<RectificationRecord>, entropy: real, draws: seq<Draw>)
    requires ValidEntropy(entropy) && |draws| == CycleDraws && ValidDraws(draws)
    requires Settled(entropy, draws)
    ensures RunGenerationCycle([], [], [], rects, entropy, draws).result
            == [[0, 0, 0, 0], [0, 0, 0, 0], [0, 0, 0, 0], [0, 0, 0, 0], [0, 0, 0, 0], [0, 0, 0, 0], [0, 0, 0]]
  {
    var none: seq<DataSet> := [];
    assert none + none == [];
    EmptyInputsAreSilent();
    SilentMatrix(Combine(ConcatSets([])), entropy, draws);
  }

  /** Digit `x` out-resonates every other digit in every column at rank 1, with no
      hits recorded. */
  ghost predicate Dominant(a: CombinedAnalysis, x: int)
    requires IsDigit(x)
  {
    forall pos, d | 0 <= pos < 4 && 0 <= d < 10 && d != x ::
      Resonance(a, [], pos, 1, x) > Resonance(a, [], pos, 1, d)
  }

  /** A settled rank-1 collapse picks the dominant digit. */
  lemma DominantCell(a: CombinedAnalysis, x: int, entropy: real, pos: int, draw: Draw)
    requires IsDigit(x) && Dominant(a, x) && 0 <= pos < 4
    requires ValidEntropy(entropy) && ValidDraw(draw) && draw.r1 > entropy
    ensures QuantumCollapse(a, [], entropy, pos, 1, draw) == x
  {
    var d := QuantumCollapse(a, [], entropy, pos, 1, draw);
    var res := ResistanceMap(a, [], entropy, pos, 1);
    StrongestIsLowest(res, d, x);
    if d != x {
      assert Resonance(a, [], pos, 1, x) > Resonance(a, [], pos, 1, d);
      ResistanceOrder(a, [], entropy, pos, 1, x, d);
      assert false;
    }
  }

  /** A rank-1 row scored with settled draws repeats the dominant digit. */
  lemma DominantScored(a: CombinedAnalysis, x: int, entropy: real, ds: seq<Draw>)
    requires IsDigit(x) && Dominant(a, x)
    requires ValidEntropy(entropy) && |ds| == 4 && ValidDraws(ds) && Settled(entropy, ds)
    ensures ScoredRow(a, [], entropy, 1, ds) == [x, x, x, x]
  {
    var row := ScoredRow(a, [], entropy, 1, ds);
    forall c | 0 <= c < 4 ensures row[c] == x {
      DominantCell(a, x, entropy, c, ds[c]);
    }
  }

  /** One record of at most seven rows of at most four digits headed by `xxxx` makes
      `x` dominant: the head table alone gives it a resonance of 32, while any other
      digit reaches at most 0.4 * 28 + 2.5 * 7 = 28.7. */
  lemma RepeatedHeadDominates(rows: seq<Row>, x: int)
    requires DigitRows(rows) && 1 <= |rows| <= 7 && IsDigit(x)
    requires forall i | 0 <= i < |rows| :: |rows[i]| <= 4
    requires rows[0] == [x, x, x, x]
    ensures Dominant(Combine(rows), x)
  {
    var a := Combine(rows);
    RepeatedHeadTables(rows, x);
    forall pos, d | 0 <= pos < 4 && 0 <= d < 10 && d != x
      ensures Resonance(a, [], pos, 1, x) > Resonance(a, [], pos, 1, d)
    {
      var ia := a.inputAnalysis;
      assert Lookup(ia.firstPrizeFreq, x) == 4;
      assert Lookup(ia.firstPrizeFreq, d) == 0;
      assert Lookup(ia.globalDigitFreq, d) <= 28;
      assert ColumnLookup(ia.colDigitFreq, pos, d) <= 7;
      assert HitInfluence([], 1, x) == 0 && HitInfluence([], 1, d) == 0;
    }
  }

  /** A cycle over a single record of at most seven rows headed by `xxxx`, entered
      or archived, with no hits and no draw taking the random branch, opens its
      result with `xxxx`. */
  lemma RepeatedHeadLeadsResult(
    modules: seq<DataSet>, history: History, rows: seq<Row>, x: int, rects: seq<RectificationRecord>,
    entropy: real, draws: seq<Draw>)
    requires DigitSets(modules) && DigitSets(history) && modules + history == [rows]
    requires DigitRows(rows) && 1 <= |rows| <= 7 && IsDigit(x)
    requires forall i | 0 <= i < |rows| :: |rows[i]| <= 4
    requires rows[0] == [x, x, x, x]
    requires ValidEntropy(entropy) && |draws| == CycleDraws && ValidDraws(draws)
    requires Settled(entropy, draws)
    ensures RunGenerationCycle(modules, history, [], rects, entropy, draws).result[0] == [x, x, x, x]
  {
    ConcatSetsConcat([rows], []);
    var a := Combine(rows);
    RepeatedHeadDominates(rows, x);
    var ds := DrawsAt(draws, 0);
    assert Settled(entropy, ds);
    DominantScored(a, x, entropy, ds);
    assert ResultRow(a, [], entropy, 0, draws) == [x, x, x, x];
  }

  /** The same cycle's three candidates are `xxxx` as well. */
  lemma RepeatedHeadLeadsCandidates(
    modules: seq<DataSet>, history: History, rows: seq<Row>, x: int, rects: seq<RectificationRecord>,
    entropy: real, draws: seq<Draw>, k: nat)
    requires DigitSets(modules) && DigitSets(history) && modules + history == [rows]
    requires DigitRows(rows) && 1 <= |rows| <= 7 && IsDigit(x)
    requires forall i | 0 <= i < |rows| :: |rows[i]| <= 4
    requires rows[0] == [x, x, x, x]
    requires ValidEntropy(entropy) && |draws| == CycleDraws && ValidDraws(draws)
    requires Settled(entropy, draws) && k < 3
    ensures RunGenerationCycle(modules, history, [], rects, entropy, draws).candidates[k].sequence == [x, x, x, x]
  {
    ConcatSetsConcat([rows], []);
    RepeatedHeadDominates(rows, x);
    DominantCandidate(Combine(rows), x, entropy, draws, k);
  }

  /** A candidate scored with settled draws repeats the dominant digit. */
  lemma DominantCandidate(a: CombinedAnalysis, x: int, entropy: real, draws: seq<Draw>, k: nat)
    requires IsDigit(x) && Dominant(a, x)
    requires ValidEntropy(entropy) && |draws| == CycleDraws && ValidDraws(draws)
    requires Settled(entropy, draws) && k < 3
    ensures CandidateAt(a, [], entropy, k, draws).sequence == [x, x, x, x]
  {
    var ds := DrawsAt(draws, MatrixDraws + 4 * k);
    assert Settled(entropy * 0.5, ds);
    DominantScored(a, x, entropy * 0.5, ds);
  }

  /** The advanced predictions are read off the head row: the hundreds are its last
      three digits, and every tens variant is its last two, the hundreds without their first digit. */
  lemma AdvancedSliceHeadRow(head: Row)
    requires |head| == 4 && AllDigits(head)
    ensures var p := Advanced(head);
            && |p.hundreds| == 3 && |p.tens| == 3 && |p.eliteTens| == 2 && |p.superTens| == 3
            && (forall k | 0 <= k < 3 :: LineToDigits(p.hundreds[k].value) == head[1..4])
            && (forall k | 0 <= k < 3 :: p.tens[k].value == p.hundreds[k].value[1..])
            && (forall k | 0 <= k < 2 :: p.eliteTens[k].value == p.hundreds[k].value[1..])
            && (forall k | 0 <= k < 3 :: p.superTens[k].value == p.hundreds[k].value[1..])
            && (forall k | 0 <= k < 3 :: p.hundreds[k].confidence == 99.98 && p.tens[k].confidence == 99.97)
            && (forall k | 0 <= k < 2 :: p.eliteTens[k].confidence == 99.99)
            && (forall k | 0 <= k < 3 :: p.superTens[k].confidence == 99.95)
  {
    DigitsStringRoundTrip(head[1..4], []);
    var s3, s2 := DigitsToString(head[1..4]), DigitsToString(head[2..4]);
    assert |s3| == 3 && |s2| == 2;
    forall j | 0 <= j < 2 ensures s3[1..][j] == s2[j] {
      DigitCharRoundTrip(head[j + 2], s3[j + 1]);
      DigitCharRoundTrip(head[j + 2], s2[j]);
    }
  }

  /** The rectification records never influence a cycle. */
  lemma RectificationsAreIgnored(
    modules: seq<DataSet>, history: History, hits: seq<HitRecord>, rects1: seq<RectificationRecord>,
    rects2: seq<RectificationRecord>, entropy: real, draws: seq<Draw>)
    requires DigitSets(modules) && DigitSets(history)
    requires ValidEntropy(entropy) && |draws| == CycleDraws && ValidDraws(draws)
    ensures RunGenerationCycle(modules, history, hits, rects1, entropy, draws)
            == RunGenerationCycle(modules, history, hits, rects2, entropy, draws)
  {
  }
}
