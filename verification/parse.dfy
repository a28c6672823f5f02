/** Turning the raw string modules into digit records (`parseModules`). */
module Parse {
  import opened Digits
  import opened Types

  /** The advisory message `Vetor <n> instável.`, carrying the 1-based module number. */
  datatype ParseError = UnstableVector(moduleNumber: nat)

  datatype Parsed = Parsed(modules: seq<DataSet>, errors: seq<ParseError>)

  /** The validation callback for line `idx`: non-empty, and exactly four digits on
      rows 0 to 5 and three digits on row 6; later lines only need to be non-empty. */
  predicate LineOk(line: string, idx: nat) {
    if |line| == 0 then false
    else if idx < 6 then |line| == 4 && AllDigitChars(line)
    else if idx == 6 then |line| == 3 && AllDigitChars(line)
    else true
  }

  /** `modStr.every(...)` over the lines from `from` on. */
  function EveryLineOk(lines: seq<string>, from: nat): (ok: bool)
    requires from <= |lines|
    ensures ok <==> forall j | from <= j < |lines| :: LineOk(lines[j], j)
    decreases |lines| - from
  {
    if from == |lines| then true
    else LineOk(lines[from], from) && EveryLineOk(lines, from + 1)
  }

  /** The shape the validation accepts, stated line by line. A module with fewer
      than seven lines is not rejected for the missing ones. */
  predicate Stable(lines: seq<string>) {
    && (forall j | 0 <= j < |lines| :: |lines[j]| > 0)
    && (forall j | 0 <= j < |lines| && j < 6 :: |lines[j]| == 4 && AllDigitChars(lines[j]))
    && (|lines| > 6 ==> |lines[6]| == 3 && AllDigitChars(lines[6]))
  }

  /** The per-line rule checked over a whole module is exactly the stable shape: the
      first six lines four digits, the seventh three, any further line non-empty. */
  lemma LineRuleIsStable(lines: seq<string>)
    ensures EveryLineOk(lines, 0) <==> Stable(lines)
    ensures EveryLineOk(lines, 0) ==> forall j | 7 <= j < |lines| :: |lines[j]| > 0
  {
  }

  /** The validation errors of `parseModules`: one per unstable module, in module order. */
  function Validate(mods: seq<seq<string>>): (errors: seq<ParseError>)
    ensures forall n: nat :: UnstableVector(n) in errors <==> 1 <= n <= |mods| && !Stable(mods[n - 1])
    ensures forall i, j | 0 <= i < j < |errors| :: errors[i].moduleNumber < errors[j].moduleNumber
    ensures forall i | 0 <= i < |errors| :: errors[i].moduleNumber <= |mods|
  {
    if mods == [] then []
    else
      var k := |mods| - 1;
      var prev := Validate(mods[..k]);
      assert forall j | 0 <= j < k :: mods[..k][j] == mods[j];
      if EveryLineOk(mods[k], 0) then prev else prev + [UnstableVector(k + 1)]
  }

  predicate DigitLines(lines: seq<string>) {
    forall j | 0 <= j < |lines| :: AllDigitChars(lines[j])
  }

  predicate DigitModules(mods: seq<seq<string>>) {
    forall i | 0 <= i < |mods| :: DigitLines(mods[i])
  }

  /** `modStr.map((line) => line.split('').map(Number))` for a module of digit lines. */
  function ModuleToDigits(lines: seq<string>): (set': DataSet)
    requires DigitLines(lines)
    ensures |set'| == |lines|
    ensures DigitRows(set')
    ensures forall j | 0 <= j < |lines| :: DigitsToString(set'[j]) == lines[j]
  {
    var rows := seq(|lines|, j requires 0 <= j < |lines| => LineToDigits(lines[j]));
    assert forall j | 0 <= j < |lines| :: DigitsToString(rows[j]) == lines[j] by {
      forall j | 0 <= j < |lines| ensures DigitsToString(rows[j]) == lines[j] {
        DigitsStringRoundTrip([], lines[j]);
      }
    }
    rows
  }

  /** `parseModules`: converts every module, valid or not, and collects the errors. */
  function ParseModules(mods: seq<seq<string>>): (r: Parsed)
    requires DigitModules(mods)
    ensures |r.modules| == |mods|
    ensures DigitSets(r.modules)
    ensures forall i | 0 <= i < |mods| :: |r.modules[i]| == |mods[i]|
    ensures forall i, j | 0 <= i < |mods| && 0 <= j < |mods[i]| :: DigitsToString(r.modules[i][j]) == mods[i][j]
    ensures forall n: nat :: UnstableVector(n) in r.errors <==> 1 <= n <= |mods| && !Stable(mods[n - 1])
  {
    Parsed(seq(|mods|, i requires 0 <= i < |mods| => ModuleToDigits(mods[i])), Validate(mods))
  }

  /** A module with fewer than seven lines is not flagged for the missing lines,
      while a full module with a short trailing row is. */
  lemma ShortModulesPassValidation()
    ensures ParseModules([["1234", "5678"]]).errors == []
    ensures ParseModules([["1234", "1234", "1234", "1234", "1234", "1234", "12"]]).errors == [UnstableVector(1)]
  {
    assert Stable(["1234", "5678"]);
    assert !Stable(["1234", "1234", "1234", "1234", "1234", "1234", "12"]);
  }
}
