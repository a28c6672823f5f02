/** Decimal digits and their single-character spellings.

    The application moves digits between two representations: the strings typed
    or pasted into the input modules, and the numeric rows the analyser counts.
    This module holds the conversions between the two, defined once. */
module Digits {

  /** A value the analyser can count: one decimal digit. */
  predicate IsDigit(n: int) {
    0 <= n < 10
  }

  /** A character matched by the regular-expression class `\d` (ASCII digits only). */
  predicate IsDigitChar(c: char) {
    '0' <= c <= '9'
  }

  predicate AllDigitChars(s: string) {
    forall i | 0 <= i < |s| :: IsDigitChar(s[i])
  }

  predicate AllDigits(row: seq<int>) {
    forall i | 0 <= i < |row| :: IsDigit(row[i])
  }

  /** `Number(c)` for a digit character. */
  function DigitValue(c: char): (n: int)
    requires IsDigitChar(c)
    ensures IsDigit(n)
  {
    c as int - '0' as int
  }

  /** `d.toString()` for a single digit. */
  function DigitChar(d: int): (c: char)
    requires IsDigit(d)
    ensures IsDigitChar(c)
  {
    ('0' as int + d) as char
  }

  lemma DigitCharRoundTrip(d: int, c: char)
    requires IsDigit(d) && IsDigitChar(c)
    ensures DigitValue(DigitChar(d)) == d
    ensures DigitChar(DigitValue(c)) == c
    ensures DigitChar(d) == c <==> DigitValue(c) == d
  {
  }

  /** `line.split('').map(Number)` for a line of digit characters: one number per character. */
  function LineToDigits(line: string): (row: seq<int>)
    requires AllDigitChars(line)
    ensures |row| == |line|
    ensures AllDigits(row)
    ensures forall i | 0 <= i < |line| :: DigitChar(row[i]) == line[i]
  {
    seq(|line|, i requires 0 <= i < |line| => DigitValue(line[i]))
  }

  /** `row.join('')` for a row of digits: one character per digit. */
  function DigitsToString(row: seq<int>): (s: string)
    requires AllDigits(row)
    ensures |s| == |row|
    ensures AllDigitChars(s)
    ensures forall i | 0 <= i < |row| :: DigitValue(s[i]) == row[i]
  {
    seq(|row|, i requires 0 <= i < |row| => DigitChar(row[i]))
  }

  /** Reading back a joined row gives the row; joining a read line gives the line. */
  lemma DigitsStringRoundTrip(row: seq<int>, line: string)
    requires AllDigits(row) && AllDigitChars(line)
    ensures LineToDigits(DigitsToString(row)) == row
    ensures DigitsToString(LineToDigits(line)) == line
  {
    var r := LineToDigits(DigitsToString(row));
    forall i | 0 <= i < |row|
      ensures r[i] == row[i]
    {
      DigitCharRoundTrip(row[i], DigitChar(row[i]));
    }
    var l := DigitsToString(LineToDigits(line));
    forall i | 0 <= i < |line|
      ensures l[i] == line[i]
    {
      DigitCharRoundTrip(DigitValue(line[i]), line[i]);
    }
  }
}
