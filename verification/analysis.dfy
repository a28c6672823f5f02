/** The digit-frequency analyser (`analyzeSet`): one pass over a flat list of
    rows that fills zero-initialised frequency tables. */
module Analysis {
  import opened Digits
  import opened Types

  /** `isEven`: the source tests `n % 2 === 0`; digits are never negative. */
  predicate IsEven(n: int) {
    n % 2 == 0
  }

  /** JavaScript's `%` truncates toward zero, so its remainder of a negative number
      is never positive; Dafny's is never negative. The two agree on whether the
      remainder by two is zero, so `IsEven` matches `n % 2 === 0` for every integer. */
  lemma IsEvenAgreesWithTruncation(n: int)
    ensures var truncated := if n >= 0 then n % 2 else -((-n) % 2);
            IsEven(n) <==> truncated == 0
    ensures IsEven(n) <==> !IsEven(n + 1)
  {
  }

  /** `sum`: a left fold of `+` starting at 0. */
  function Sum(row: seq<int>): (s: int)
    ensures AllDigits(row) ==> 0 <= s <= 9 * |row|
  {
    if row == [] then 0
    else
      assert AllDigits(row) ==> AllDigits(row[..|row| - 1]);
      Sum(row[..|row| - 1]) + row[|row| - 1]
  }

  /** Summing a row in two parts and adding gives the sum of the whole row. */
  lemma {:induction false} SumConcat(a: seq<int>, b: seq<int>)
    ensures Sum(a + b) == Sum(a) + Sum(b)
    ensures |b| == 1 ==> Sum(b) == b[0]
    decreases |b|
  {
    if b == [] {
      assert a + b == a;
    } else {
      var k := |b| - 1;
      SumConcat(a, b[..k]);
      assert (a + b)[..|a + b| - 1] == a + b[..k];
    }
  }

  // ---------------------------------------------------------------------------
  // Reference definitions: what each table is meant to count.
  // ---------------------------------------------------------------------------

  /** Every digit of every row, row after row. */
  function Flatten(rows: seq<Row>): (s: seq<int>)
    ensures DigitRows(rows) ==> AllDigits(s)
  {
    if rows == [] then []
    else
      assert DigitRows(rows) ==> DigitRows(rows[..|rows| - 1]);
      Flatten(rows[..|rows| - 1]) + rows[|rows| - 1]
  }

  /** The digits found at column `c`, one for each row long enough to have one. */
  function Column(rows: seq<Row>, c: nat): (s: seq<int>)
    ensures DigitRows(rows) ==> AllDigits(s)
  {
    if rows == [] then []
    else
      var last := rows[|rows| - 1];
      assert DigitRows(rows) ==> DigitRows(rows[..|rows| - 1]);
      Column(rows[..|rows| - 1], c) + (if c < |last| then [last[c]] else [])
  }

  /** The head rows: those whose index in the flat list is a multiple of 7. */
  function HeadRows(rows: seq<Row>): (heads: seq<Row>)
    ensures DigitRows(rows) ==> DigitRows(heads)
  {
    if rows == [] then []
    else
      var k := |rows| - 1;
      assert DigitRows(rows) ==> DigitRows(rows[..k]);
      HeadRows(rows[..k]) + (if k % 7 == 0 then [rows[k]] else [])
  }

  /** The sum of every non-empty row, in row order. */
  function RowSums(rows: seq<Row>): seq<int> {
    if rows == [] then []
    else
      var last := rows[|rows| - 1];
      RowSums(rows[..|rows| - 1]) + (if last == [] then [] else [Sum(last)])
  }

  function CountEven(s: seq<int>): nat {
    |set i | 0 <= i < |s| && IsEven(s[i])|
  }

  function CountOdd(s: seq<int>): nat {
    |set i | 0 <= i < |s| && !IsEven(s[i])|
  }

  /** The table whose entry d is the number of occurrences of d in `s`. */
  function Histogram(s: seq<int>): (t: Table)
    ensures IsTable(t)
    ensures forall d | 0 <= d < 10 :: t[d] == multiset(s)[d]
  {
    seq(10, d => multiset(s)[d])
  }

  function Zeros(): (t: Table)
    ensures IsTable(t)
    ensures forall d | 0 <= d < 10 :: t[d] == 0
  {
    seq(10, d => 0)
  }

  /** The sum of the entries of a table. */
  function TableSum(t: Table): nat {
    if t == [] then 0 else TableSum(t[..|t| - 1]) + t[|t| - 1]
  }

  // ---------------------------------------------------------------------------
  // The accumulation, as `analyzeSet` performs it.
  // ---------------------------------------------------------------------------

  function Inc(t: Table, d: int): Table
    requires 0 <= d < |t|
  {
    t[d := t[d] + 1]
  }

  /** The initial result: every table present with all ten digits at zero. */
  function EmptyAnalysis(): (a: AnalysisResult)
    ensures WellShaped(a)
    ensures a.rowSums == [] && a.rowEvenOdd == [] && a.rowDigitFreq == []
    ensures forall d | 0 <= d < 10 :: a.globalDigitFreq[d] == 0 && a.firstPrizeFreq[d] == 0
    ensures forall c, d | 0 <= c < 4 && 0 <= d < 10 :: a.colDigitFreq[c][d] == 0
    ensures a.totalEvenOdd.evens == 0 && a.totalEvenOdd.odds == 0
  {
    AnalysisResult([], [], [], seq(4, c => Zeros()), Zeros(), Zeros(), EvenOdd(0, 0))
  }

  /** The body of the inner `forEach`: digit `d` at column `col` of a row. Column
      tables exist for columns 0 to 3 only; the head table counts every column. */
  function Tally(acc: AnalysisResult, d: int, col: nat, isHead: bool): (r: AnalysisResult)
    requires WellShaped(acc) && IsDigit(d)
    ensures WellShaped(r)
    ensures forall e | 0 <= e < 10 :: r.globalDigitFreq[e] == acc.globalDigitFreq[e] + (if e == d then 1 else 0)
    ensures forall c, e | 0 <= c < 4 && 0 <= e < 10 ::
              r.colDigitFreq[c][e] == acc.colDigitFreq[c][e] + (if c == col && e == d then 1 else 0)
    ensures forall e | 0 <= e < 10 ::
              r.firstPrizeFreq[e] == acc.firstPrizeFreq[e] + (if isHead && e == d then 1 else 0)
    ensures r.totalEvenOdd.evens + r.totalEvenOdd.odds == acc.totalEvenOdd.evens + acc.totalEvenOdd.odds + 1
    ensures r.totalEvenOdd.evens == acc.totalEvenOdd.evens + (if d % 2 == 0 then 1 else 0)
    ensures r.rowSums == acc.rowSums && r.rowEvenOdd == acc.rowEvenOdd && r.rowDigitFreq == acc.rowDigitFreq
  {
    acc.(
      globalDigitFreq := Inc(acc.globalDigitFreq, d),
      colDigitFreq :=
        if col < |acc.colDigitFreq| then acc.colDigitFreq[col := Inc(acc.colDigitFreq[col], d)]
        else acc.colDigitFreq,
      firstPrizeFreq := if isHead then Inc(acc.firstPrizeFreq, d) else acc.firstPrizeFreq,
      totalEvenOdd :=
        if IsEven(d) then acc.totalEvenOdd.(evens := acc.totalEvenOdd.evens + 1)
        else acc.totalEvenOdd.(odds := acc.totalEvenOdd.odds + 1))
  }

  lemma CountEvenOddSnoc(s: seq<int>, x: int)
    ensures CountEven(s + [x]) == CountEven(s) + (if IsEven(x) then 1 else 0)
    ensures CountOdd(s + [x]) == CountOdd(s) + (if IsEven(x) then 0 else 1)
  {
    var t := s + [x];
    var e := set i | 0 <= i < |s| && IsEven(s[i]);
    var o := set i | 0 <= i < |s| && !IsEven(s[i]);
    assert (set i | 0 <= i < |t| && IsEven(t[i])) == e + (if IsEven(x) then {|s|} else {});
    assert (set i | 0 <= i < |t| && !IsEven(t[i])) == o + (if IsEven(x) then {} else {|s|});
  }

  /** The first `k` digits of one row, tallied. */
  function TallyRow(acc: AnalysisResult, row: Row, isHead: bool, k: nat): (r: AnalysisResult)
    requires WellShaped(acc) && AllDigits(row) && k <= |row|
    ensures WellShaped(r)
    ensures r.rowSums == acc.rowSums && r.rowEvenOdd == acc.rowEvenOdd && r.rowDigitFreq == acc.rowDigitFreq
    ensures forall d | 0 <= d < 10 :: r.globalDigitFreq[d] == acc.globalDigitFreq[d] + multiset(row[..k])[d]
    ensures forall c, d | 0 <= c < 4 && 0 <= d < 10 ::
              r.colDigitFreq[c][d] == acc.colDigitFreq[c][d] + (if c < k && row[c] == d then 1 else 0)
    ensures forall d | 0 <= d < 10 ::
              r.firstPrizeFreq[d] == acc.firstPrizeFreq[d] + (if isHead then multiset(row[..k])[d] else 0)
    ensures r.totalEvenOdd.evens == acc.totalEvenOdd.evens + CountEven(row[..k])
    ensures r.totalEvenOdd.odds == acc.totalEvenOdd.odds + CountOdd(row[..k])
  {
    if k == 0 then acc
    else
      var prev := TallyRow(acc, row, isHead, k - 1);
      assert row[..k] == row[..k - 1] + [row[k - 1]];
      CountEvenOddSnoc(row[..k - 1], row[k - 1]);
      Tally(prev, row[k - 1], k - 1, isHead)
  }

  /** The body of the outer `forEach`: an empty row is skipped (its index still
      counts towards head alignment); otherwise its sum is recorded and its digits tallied. */
  function AddRow(acc: AnalysisResult, row: Row, rowIndex: nat): (r: AnalysisResult)
    requires WellShaped(acc) && AllDigits(row)
    ensures WellShaped(r)
    ensures r.rowSums == acc.rowSums + (if row == [] then [] else [Sum(row)])
    ensures r.rowEvenOdd == acc.rowEvenOdd && r.rowDigitFreq == acc.rowDigitFreq
    ensures forall d | 0 <= d < 10 :: r.globalDigitFreq[d] == acc.globalDigitFreq[d] + multiset(row)[d]
    ensures forall c, d | 0 <= c < 4 && 0 <= d < 10 ::
              r.colDigitFreq[c][d] == acc.colDigitFreq[c][d] + multiset(if c < |row| then [row[c]] else [])[d]
    ensures forall d | 0 <= d < 10 ::
              r.firstPrizeFreq[d] == acc.firstPrizeFreq[d] + multiset(if rowIndex % 7 == 0 then row else [])[d]
    ensures r.totalEvenOdd.evens == acc.totalEvenOdd.evens + CountEven(row)
    ensures r.totalEvenOdd.odds == acc.totalEvenOdd.odds + CountOdd(row)
  {
    assert row[..|row|] == row;
    if |row| == 0 then
      assert CountEven(row) == 0 && CountOdd(row) == 0;
      acc
    else TallyRow(acc.(rowSums := acc.rowSums + [Sum(row)]), row, rowIndex % 7 == 0, |row|)
  }

  /** A table that grew by the occurrences in `extra` is the histogram of the longer sequence. */
  lemma HistogramGrows(t0: Table, t1: Table, s: seq<int>, extra: seq<int>)
    requires t0 == Histogram(s) && IsTable(t1)
    requires forall d | 0 <= d < 10 :: t1[d] == t0[d] + multiset(extra)[d]
    ensures t1 == Histogram(s + extra)
  {
    assert multiset(s + extra) == multiset(s) + multiset(extra);
  }

  lemma PrefixSnoc(rows: seq<Row>, n: nat, c: nat)
    requires 0 < n <= |rows|
    ensures Flatten(rows[..n]) == Flatten(rows[..n - 1]) + rows[n - 1]
    ensures Column(rows[..n], c) == Column(rows[..n - 1], c) + (if c < |rows[n - 1]| then [rows[n - 1][c]] else [])
    ensures HeadRows(rows[..n]) == HeadRows(rows[..n - 1]) + (if (n - 1) % 7 == 0 then [rows[n - 1]] else [])
    ensures RowSums(rows[..n]) == RowSums(rows[..n - 1]) + (if rows[n - 1] == [] then [] else [Sum(rows[n - 1])])
  {
    assert rows[..n][..n - 1] == rows[..n - 1];
  }

  lemma FlattenSnoc(rows: seq<Row>, extra: seq<Row>)
    requires |extra| <= 1
    ensures Flatten(rows + extra) == Flatten(rows) + (if extra == [] then [] else extra[0])
  {
    if extra == [] {
      assert rows + extra == rows;
    } else {
      assert (rows + extra)[..|rows|] == rows;
    }
  }

  /** The result after the first `n` rows of `rows`. */
  function AnalyzePrefix(rows: seq<Row>, n: nat): (r: AnalysisResult)
    requires DigitRows(rows) && n <= |rows|
    ensures WellShaped(r)
    ensures Accounts(rows, n, r)
  {
    if n == 0 then
      assert rows[..0] == [];
      assert CountEven([]) == 0 && CountOdd([]) == 0;
      EmptyAnalysis()
    else
      var prev := AnalyzePrefix(rows, n - 1);
      var r := AddRow(prev, rows[n - 1], n - 1);
      AccountsStep(rows, n, prev, r);
      r
  }

  /** `r` holds exactly the counts of the first `n` rows. */
  predicate Accounts(rows: seq<Row>, n: nat, r: AnalysisResult)
    requires n <= |rows| && WellShaped(r)
  {
    && r.rowSums == RowSums(rows[..n])
    && r.rowEvenOdd == [] && r.rowDigitFreq == []
    && r.globalDigitFreq == Histogram(Flatten(rows[..n]))
    && (forall c | 0 <= c < 4 :: r.colDigitFreq[c] == Histogram(Column(rows[..n], c)))
    && r.firstPrizeFreq == Histogram(Flatten(HeadRows(rows[..n])))
    && r.totalEvenOdd == EvenOdd(CountEven(Flatten(rows[..n])), CountOdd(Flatten(rows[..n])))
  }

  lemma AccountsStep(rows: seq<Row>, n: nat, prev: AnalysisResult, r: AnalysisResult)
    requires DigitRows(rows) && 0 < n <= |rows|
    requires WellShaped(prev) && Accounts(rows, n - 1, prev)
    requires r == AddRow(prev, rows[n - 1], n - 1)
    ensures Accounts(rows, n, r)
  {
    PrefixSnoc(rows, n, 0);
    StepGlobal(rows, n, prev.globalDigitFreq, r.globalDigitFreq);
    StepColumns(rows, n, prev, r);
    StepHeads(rows, n, prev.firstPrizeFreq, r.firstPrizeFreq);
    StepParity(rows, n, prev.totalEvenOdd, r.totalEvenOdd);
  }

  lemma StepColumns(rows: seq<Row>, n: nat, prev: AnalysisResult, r: AnalysisResult)
    requires DigitRows(rows) && 0 < n <= |rows|
    requires WellShaped(prev) && Accounts(rows, n - 1, prev)
    requires r == AddRow(prev, rows[n - 1], n - 1)
    ensures forall c | 0 <= c < 4 :: r.colDigitFreq[c] == Histogram(Column(rows[..n], c))
  {
    forall c | 0 <= c < 4
      ensures r.colDigitFreq[c] == Histogram(Column(rows[..n], c))
    {
      StepColumn(rows, n, c, prev.colDigitFreq[c], r.colDigitFreq[c]);
    }
  }

  lemma StepParity(rows: seq<Row>, n: nat, p0: EvenOdd, p1: EvenOdd)
    requires 0 < n <= |rows|
    requires p0 == EvenOdd(CountEven(Flatten(rows[..n - 1])), CountOdd(Flatten(rows[..n - 1])))
    requires p1.evens == p0.evens + CountEven(rows[n - 1]) && p1.odds == p0.odds + CountOdd(rows[n - 1])
    ensures p1 == EvenOdd(CountEven(Flatten(rows[..n])), CountOdd(Flatten(rows[..n])))
  {
    PrefixSnoc(rows, n, 0);
    CountEvenOddSplit(Flatten(rows[..n - 1]), rows[n - 1]);
  }

  lemma StepGlobal(rows: seq<Row>, n: nat, t0: Table, t1: Table)
    requires 0 < n <= |rows| && IsTable(t1)
    requires t0 == Histogram(Flatten(rows[..n - 1]))
    requires forall d | 0 <= d < 10 :: t1[d] == t0[d] + multiset(rows[n - 1])[d]
    ensures t1 == Histogram(Flatten(rows[..n]))
  {
    PrefixSnoc(rows, n, 0);
    HistogramGrows(t0, t1, Flatten(rows[..n - 1]), rows[n - 1]);
  }

  lemma StepColumn(rows: seq<Row>, n: nat, c: nat, t0: Table, t1: Table)
    requires 0 < n <= |rows| && IsTable(t1)
    requires t0 == Histogram(Column(rows[..n - 1], c))
    requires forall d | 0 <= d < 10 ::
               t1[d] == t0[d] + multiset(if c < |rows[n - 1]| then [rows[n - 1][c]] else [])[d]
    ensures t1 == Histogram(Column(rows[..n], c))
  {
    PrefixSnoc(rows, n, c);
    HistogramGrows(t0, t1, Column(rows[..n - 1], c),
      if c < |rows[n - 1]| then [rows[n - 1][c]] else []);
  }

  lemma StepHeads(rows: seq<Row>, n: nat, t0: Table, t1: Table)
    requires 0 < n <= |rows| && IsTable(t1)
    requires t0 == Histogram(Flatten(HeadRows(rows[..n - 1])))
    requires forall d | 0 <= d < 10 ::
               t1[d] == t0[d] + multiset(if (n - 1) % 7 == 0 then rows[n - 1] else [])[d]
    ensures t1 == Histogram(Flatten(HeadRows(rows[..n])))
  {
    var row := rows[n - 1];
    PrefixSnoc(rows, n, 0);
    var headExtra := if (n - 1) % 7 == 0 then [row] else [];
    FlattenSnoc(HeadRows(rows[..n - 1]), headExtra);
    HistogramGrows(t0, t1, Flatten(HeadRows(rows[..n - 1])), if (n - 1) % 7 == 0 then row else []);
  }

  lemma CountEvenOddSplit(s: seq<int>, t: seq<int>)
    ensures CountEven(s + t) == CountEven(s) + CountEven(t)
    ensures CountOdd(s + t) == CountOdd(s) + CountOdd(t)
    decreases |t|
  {
    if t == [] {
      assert s + t == s;
    } else {
      var t' := t[..|t| - 1];
      assert s + t == (s + t') + [t[|t| - 1]];
      assert t == t' + [t[|t| - 1]];
      CountEvenOddSplit(s, t');
      CountEvenOddSnoc(s + t', t[|t| - 1]);
      CountEvenOddSnoc(t', t[|t| - 1]);
    }
  }

  /** `analyzeSet`: the frequency tables of a flat list of digit rows. */
  function AnalyzeSet(rows: seq<Row>): (r: AnalysisResult)
    requires DigitRows(rows)
    ensures WellShaped(r)
    ensures r.globalDigitFreq == Histogram(Flatten(rows))
    ensures forall c | 0 <= c < 4 :: r.colDigitFreq[c] == Histogram(Column(rows, c))
    ensures r.firstPrizeFreq == Histogram(Flatten(HeadRows(rows)))
    ensures r.totalEvenOdd == EvenOdd(CountEven(Flatten(rows)), CountOdd(Flatten(rows)))
    ensures r.rowSums == RowSums(rows)
    ensures r.rowEvenOdd == [] && r.rowDigitFreq == []
  {
    assert rows[..|rows|] == rows;
    var r := AnalyzePrefix(rows, |rows|);
    assert Accounts(rows, |rows|, r);
    r
  }

  // ---------------------------------------------------------------------------
  // Properties of the tables.
  // ---------------------------------------------------------------------------

  lemma {:induction false} TableSumInc(t: Table, d: int)
    requires 0 <= d < |t|
    ensures TableSum(Inc(t, d)) == TableSum(t) + 1
    decreases |t|
  {
    var k := |t| - 1;
    var u := Inc(t, d);
    assert u[..k] == if d < k then Inc(t[..k], d) else t[..k];
    if d < k {
      TableSumInc(t[..k], d);
    }
  }

  lemma {:induction false} TableSumZeros(t: Table)
    requires forall d | 0 <= d < |t| :: t[d] == 0
    ensures TableSum(t) == 0
    decreases |t|
  {
    if t != [] {
      TableSumZeros(t[..|t| - 1]);
    }
  }

  /** The entries of the histogram of a digit sequence add up to its length. */
  lemma {:induction false} HistogramSum(s: seq<int>)
    requires AllDigits(s)
    ensures TableSum(Histogram(s)) == |s|
    decreases |s|
  {
    if s == [] {
      TableSumZeros(Histogram(s));
    } else {
      var s' := s[..|s| - 1];
      var x := s[|s| - 1];
      assert s == s' + [x];
      HistogramSum(s');
      assert Histogram(s) == Inc(Histogram(s'), x);
      TableSumInc(Histogram(s'), x);
    }
  }

  lemma {:induction false} EvenOddCover(s: seq<int>)
    ensures CountEven(s) + CountOdd(s) == |s|
    decreases |s|
  {
    if s == [] {
      assert CountEven(s) == 0 && CountOdd(s) == 0;
    } else {
      var s' := s[..|s| - 1];
      assert s == s' + [s[|s| - 1]];
      EvenOddCover(s');
      CountEvenOddSnoc(s', s[|s| - 1]);
    }
  }

  /** The global table and the parity totals both add up to the number of digits analysed. */
  lemma DigitTotals(rows: seq<Row>)
    requires DigitRows(rows)
    ensures TableSum(AnalyzeSet(rows).globalDigitFreq) == |Flatten(rows)|
    ensures AnalyzeSet(rows).totalEvenOdd.evens + AnalyzeSet(rows).totalEvenOdd.odds == |Flatten(rows)|
  {
    HistogramSum(Flatten(rows));
    EvenOddCover(Flatten(rows));
  }

  /** The indices of the rows that reach column `c`. */
  function RowsReaching(rows: seq<Row>, c: nat): set<nat> {
    set i: nat | i < |rows| && c < |rows[i]|
  }

  lemma {:induction false} ColumnLength(rows: seq<Row>, c: nat)
    ensures |Column(rows, c)| == |RowsReaching(rows, c)|
    decreases |rows|
  {
    if rows != [] {
      var k := |rows| - 1;
      ColumnLength(rows[..k], c);
      assert RowsReaching(rows, c) == RowsReaching(rows[..k], c) + (if c < |rows[k]| then {k} else {});
    }
  }

  /** Column table `c` adds up to the number of rows long enough to have a column `c`;
      in particular column 0 counts every non-empty row, as the row sums do. */
  lemma ColumnTotals(rows: seq<Row>, c: nat)
    requires DigitRows(rows) && c < 4
    ensures TableSum(AnalyzeSet(rows).colDigitFreq[c]) == |RowsReaching(rows, c)|
    ensures |AnalyzeSet(rows).rowSums| == |RowsReaching(rows, 0)|
  {
    ColumnLength(rows, c);
    HistogramSum(Column(rows, c));
    ColumnLength(rows, 0);
    RowSumsLength(rows);
  }

  lemma {:induction false} RowSumsLength(rows: seq<Row>)
    ensures |RowSums(rows)| == |Column(rows, 0)|
    decreases |rows|
  {
    if rows != [] {
      RowSumsLength(rows[..|rows| - 1]);
    }
  }

  /** Rounding `k / 7` up, one more row at a time. */
  lemma HeadCountStep(k: nat)
    ensures k % 7 == 0 ==> (k + 7) / 7 == (k + 6) / 7 + 1 && 7 * ((k + 6) / 7) == k
    ensures k % 7 != 0 ==> (k + 7) / 7 == (k + 6) / 7
  {
    var q, r := k / 7, k % 7;
    assert k == 7 * q + r;
    assert (k + 6) / 7 == q + (r + 6) / 7;
    assert (k + 7) / 7 == q + 1;
  }

  /** The head rows are rows 0, 7, 14, ... of the flat list, whether or not
      any row before them was empty. */
  lemma {:induction false} HeadRowsAreEverySeventh(rows: seq<Row>)
    ensures |HeadRows(rows)| == (|rows| + 6) / 7
    ensures forall k | 0 <= k < |HeadRows(rows)| :: HeadRows(rows)[k] == rows[7 * k]
    decreases |rows|
  {
    if rows != [] {
      var n := |rows|;
      var p := rows[..n - 1];
      HeadRowsAreEverySeventh(p);
      HeadCountStep(n - 1);
      var hp, h := HeadRows(p), HeadRows(rows);
      assert h == hp + (if (n - 1) % 7 == 0 then [rows[n - 1]] else []);
      forall k | 0 <= k < |h| ensures h[k] == rows[7 * k] {
        if k < |hp| {
          assert hp[k] == p[7 * k];
        }
      }
    }
  }

  /** A row cut to its first four columns. */
  function FirstColumns(row: Row): Row {
    if |row| <= 4 then row else row[..4]
  }

  lemma {:induction false} ColumnsAgree(s: seq<Row>, t: seq<Row>, c: nat)
    requires |s| == |t| && c < 4
    requires forall i | 0 <= i < |s| :: FirstColumns(s[i]) == FirstColumns(t[i])
    ensures Column(s, c) == Column(t, c)
    decreases |s|
  {
    if s != [] {
      var k := |s| - 1;
      ColumnsAgree(s[..k], t[..k], c);
      assert FirstColumns(s[k]) == FirstColumns(t[k]);
      assert c < |s[k]| <==> c < |FirstColumns(s[k])|;
      assert c < |t[k]| <==> c < |FirstColumns(t[k])|;
      if c < |s[k]| {
        assert s[k][c] == FirstColumns(s[k])[c];
        assert t[k][c] == FirstColumns(t[k])[c];
      }
    }
  }

  /** Digits beyond column 3 never reach a column table: two lists whose rows agree
      on their first four columns have the same column tables. */
  lemma ColumnTablesIgnoreLaterColumns(s: seq<Row>, t: seq<Row>)
    requires DigitRows(s) && DigitRows(t) && |s| == |t|
    requires forall i | 0 <= i < |s| :: FirstColumns(s[i]) == FirstColumns(t[i])
    ensures AnalyzeSet(s).colDigitFreq == AnalyzeSet(t).colDigitFreq
  {
    var a, b := AnalyzeSet(s).colDigitFreq, AnalyzeSet(t).colDigitFreq;
    forall c | 0 <= c < 4
      ensures a[c] == b[c]
    {
      ColumnTableAgrees(s, t, c);
    }
  }

  lemma ColumnTableAgrees(s: seq<Row>, t: seq<Row>, c: nat)
    requires DigitRows(s) && DigitRows(t) && |s| == |t| && c < 4
    requires forall i | 0 <= i < |s| :: FirstColumns(s[i]) == FirstColumns(t[i])
    ensures AnalyzeSet(s).colDigitFreq[c] == AnalyzeSet(t).colDigitFreq[c]
  {
    ColumnsAgree(s, t, c);
  }

  /** With nothing to analyse every table is present and all zero. */
  lemma EmptyInputGivesZeroTables()
    ensures AnalyzeSet([]).globalDigitFreq == Zeros()
    ensures AnalyzeSet([]).firstPrizeFreq == Zeros()
    ensures AnalyzeSet([]).colDigitFreq == [Zeros(), Zeros(), Zeros(), Zeros()]
    ensures AnalyzeSet([]).totalEvenOdd == EvenOdd(0, 0)
    ensures AnalyzeSet([]).rowSums == []
  {
    var r := AnalyzeSet([]);
    assert Flatten([]) == [];
    assert forall c | 0 <= c < 4 :: Column([], c) == [];
    assert HeadRows([]) == [];
    assert CountEven([]) == 0 && CountOdd([]) == 0;
  }

  /** A digit occurs in a list at most as often as the list is long. */
  lemma {:induction false} MultiplicityBound(s: seq<int>, d: int)
    ensures multiset(s)[d] <= |s|
    decreases |s|
  {
    if s != [] {
      var k := |s| - 1;
      MultiplicityBound(s[..k], d);
      assert s == s[..k] + [s[k]];
    }
  }

  /** Rows of at most four digits flatten to at most four digits per row. */
  lemma {:induction false} FlattenLengthBound(rows: seq<Row>)
    requires forall i | 0 <= i < |rows| :: |rows[i]| <= 4
    ensures |Flatten(rows)| <= 4 * |rows|
    decreases |rows|
  {
    if rows != [] {
      FlattenLengthBound(rows[..|rows| - 1]);
    }
  }

  /** A column holds at most one digit per row. */
  lemma {:induction false} ColumnLengthBound(rows: seq<Row>, c: nat)
    ensures |Column(rows, c)| <= |rows|
    decreases |rows|
  {
    if rows != [] {
      ColumnLengthBound(rows[..|rows| - 1], c);
    }
  }

  /** Up to seven rows hold a single head row, the first. */
  lemma OneRecordHead(rows: seq<Row>)
    requires 1 <= |rows| <= 7
    ensures HeadRows(rows) == [rows[0]]
    ensures Flatten(HeadRows(rows)) == rows[0]
  {
    HeadRowsAreEverySeventh(rows);
    assert [rows[0]][..0] == [];
  }

  /** One record of at most seven rows of at most four digits, headed by four copies
      of digit `x`: the head table counts `x` four times and nothing else, no other
      digit occurs more than 28 times overall, and no column table counts a digit more
      than 7 times. */
  lemma RepeatedHeadTables(rows: seq<Row>, x: int)
    requires DigitRows(rows) && 1 <= |rows| <= 7 && IsDigit(x)
    requires forall i | 0 <= i < |rows| :: |rows[i]| <= 4
    requires rows[0] == [x, x, x, x]
    ensures var r := AnalyzeSet(rows);
            && r.firstPrizeFreq[x] == 4
            && (forall d | 0 <= d < 10 && d != x :: r.firstPrizeFreq[d] == 0)
            && (forall d | 0 <= d < 10 :: r.globalDigitFreq[d] <= 28)
            && (forall c, d | 0 <= c < 4 && 0 <= d < 10 :: r.colDigitFreq[c][d] <= 7)
  {
    var r := AnalyzeSet(rows);
    OneRecordHead(rows);
    assert multiset(rows[0])[x] == 4;
    FlattenLengthBound(rows);
    forall d | 0 <= d < 10 ensures r.globalDigitFreq[d] <= 28 {
      MultiplicityBound(Flatten(rows), d);
    }
    forall c, d | 0 <= c < 4 && 0 <= d < 10 ensures r.colDigitFreq[c][d] <= 7 {
      ColumnLengthBound(rows, c);
      MultiplicityBound(Column(rows, c), d);
    }
  }
}
