/** The pure parts of the module input panel: typing into one slot and pasting a
    block of text into all seven. The clipboard text is a parameter. */
module ModuleInput {
  import opened Digits
  import opened Types

  /** Slots in one module: six rows of four digits and a trailing row of three. */
  const SlotCount: nat := 7

  /** How many characters slot `index` keeps. */
  function Limit(index: int): (n: nat)
    ensures n == 3 || n == 4
    ensures n == 3 <==> index == 6
  {
    if index == 6 then 3 else 4
  }

  /** `s.substring(0, n)`. */
  function Prefix(s: string, n: nat): (p: string)
    ensures |p| <= n && |p| <= |s|
    ensures p == s[..|p|]
    ensures |s| <= n ==> p == s
    ensures n <= |s| ==> |p| == n
  {
    if |s| <= n then s else s[..n]
  }

  // ---------------------------------------------------------------------------
  // Typing: `val.replace(/\D/g, '')`.
  // ---------------------------------------------------------------------------

  /** The digits of `s` in order: every character outside '0'..'9' is removed. */
  function FilterDigits(s: string): (t: string)
    ensures AllDigitChars(t)
    ensures |t| <= |s|
  {
    if |s| == 0 then ""
    else
      var rest := FilterDigits(s[1..]);
      if IsDigitChar(s[0]) then [s[0]] + rest else rest
  }

  /** The filter keeps every digit of `s`, as often as it occurs, and nothing else. */
  lemma {:induction false} FilterDigitsKeepsDigits(s: string)
    ensures forall c :: multiset(FilterDigits(s))[c] == if IsDigitChar(c) then multiset(s)[c] else 0
    decreases |s|
  {
    if |s| > 0 {
      FilterDigitsKeepsDigits(s[1..]);
      assert s == [s[0]] + s[1..];
    }
  }

  /** Filtering distributes over concatenation: typing can be read piece by piece. */
  lemma {:induction false} FilterDigitsConcat(a: string, b: string)
    ensures FilterDigits(a + b) == FilterDigits(a) + FilterDigits(b)
    decreases |a|
  {
    if |a| == 0 {
      assert a + b == b;
    } else {
      assert (a + b)[1..] == a[1..] + b;
      assert (a + b)[0] == a[0];
      FilterDigitsConcat(a[1..], b);
    }
  }

  /** A string survives the filter unchanged exactly when it is all digits. */
  lemma {:induction false} FilterDigitsFixed(s: string)
    ensures FilterDigits(s) == s <==> AllDigitChars(s)
    decreases |s|
  {
    if |s| > 0 {
      FilterDigitsFixed(s[1..]);
      if !IsDigitChar(s[0]) {
        assert |FilterDigits(s)| <= |s[1..]| < |s|;
      }
    }
  }

  /** Filtering twice is filtering once. */
  lemma FilterDigitsIdempotent(s: string)
    ensures FilterDigits(FilterDigits(s)) == FilterDigits(s)
  {
    FilterDigitsFixed(FilterDigits(s));
  }

  /** `handleInputChange(index, val)`: read-only panels ignore typing; otherwise the
      slot gets the digits of `val`, cut to the slot's limit, and no other slot changes. */
  function HandleInputChange(values: seq<string>, index: nat, val: string, readOnly: bool): (r: seq<string>)
    requires index < |values|
    ensures |r| == |values|
    ensures readOnly ==> r == values
    ensures forall j | 0 <= j < |values| && j != index :: r[j] == values[j]
    ensures !readOnly ==> r[index] == Prefix(FilterDigits(val), Limit(index))
    ensures !readOnly ==> AllDigitChars(r[index]) && |r[index]| <= Limit(index)
  {
    if readOnly then values
    else values[index := Prefix(FilterDigits(val), Limit(index))]
  }

  /** Typing back what a slot already shows leaves the panel as it is. */
  lemma RetypeIsNoChange(values: seq<string>, index: nat, val: string)
    requires index < |values|
    ensures var r := HandleInputChange(values, index, val, false);
            HandleInputChange(r, index, r[index], false) == r
  {
    var r := HandleInputChange(values, index, val, false);
    FilterDigitsFixed(r[index]);
  }

  /** A slot that already holds an admissible value is kept by retyping it. */
  lemma TypingAdmissibleValue(values: seq<string>, index: nat, val: string)
    requires index < |values|
    requires AllDigitChars(val) && |val| <= Limit(index)
    ensures HandleInputChange(values, index, val, false)[index] == val
  {
    FilterDigitsFixed(val);
  }

  // ---------------------------------------------------------------------------
  // Pasting: `text.split(/\r?\n/).map(l => l.trim().replace(/\s/g, ''))`,
  // keeping the non-empty lines.
  // ---------------------------------------------------------------------------

  /** The characters `\s` matches in a JavaScript regular expression (and `trim`
      removes): white space and line terminators. */
  predicate IsSpace(c: char) {
    || c == '\t' || c == '\n' || c == '\U{000B}' || c == '\U{000C}' || c == '\r' || c == ' '
    || c == '\U{00A0}' || c == '\U{1680}' || ('\U{2000}' <= c <= '\U{200A}')
    || c == '\U{2028}' || c == '\U{2029}' || c == '\U{202F}' || c == '\U{205F}'
    || c == '\U{3000}' || c == '\U{FEFF}'
  }

  predicate NoSpace(s: string) {
    forall i | 0 <= i < |s| :: !IsSpace(s[i])
  }

  /** `s.replace(/\s/g, '')`. */
  function StripSpace(s: string): (t: string)
    ensures NoSpace(t)
    ensures |t| <= |s|
  {
    if |s| == 0 then ""
    else
      var rest := StripSpace(s[1..]);
      if IsSpace(s[0]) then rest else [s[0]] + rest
  }

  /** Stripping keeps every other character of `s`, as often as it occurs. */
  lemma {:induction false} StripSpaceKeepsRest(s: string)
    ensures forall c :: multiset(StripSpace(s))[c] == if IsSpace(c) then 0 else multiset(s)[c]
    decreases |s|
  {
    if |s| > 0 {
      StripSpaceKeepsRest(s[1..]);
      assert s == [s[0]] + s[1..];
    }
  }

  lemma {:induction false} StripSpaceConcat(a: string, b: string)
    ensures StripSpace(a + b) == StripSpace(a) + StripSpace(b)
    decreases |a|
  {
    if |a| == 0 {
      assert a + b == b;
    } else {
      assert (a + b)[1..] == a[1..] + b;
      assert (a + b)[0] == a[0];
      StripSpaceConcat(a[1..], b);
    }
  }

  /** `s.trimStart()`. */
  function TrimStart(s: string): (t: string)
    ensures |t| <= |s| && t == s[|s| - |t|..]
    ensures |t| > 0 ==> !IsSpace(t[0])
    ensures forall i | 0 <= i < |s| - |t| :: IsSpace(s[i])
  {
    if |s| > 0 && IsSpace(s[0]) then TrimStart(s[1..]) else s
  }

  /** `s.trimEnd()`. */
  function TrimEnd(s: string): (t: string)
    ensures |t| <= |s| && t == s[..|t|]
    ensures |t| > 0 ==> !IsSpace(t[|t| - 1])
    ensures forall i | |t| <= i < |s| :: IsSpace(s[i])
  {
    if |s| > 0 && IsSpace(s[|s| - 1]) then TrimEnd(s[..|s| - 1]) else s
  }

  /** `s.trim()`. */
  function Trim(s: string): (t: string)
    ensures |t| <= |s|
    ensures |t| > 0 ==> !IsSpace(t[0]) && !IsSpace(t[|t| - 1])
  {
    TrimEnd(TrimStart(s))
  }

  lemma {:induction false} TrimStartBeforeStrip(s: string)
    ensures StripSpace(TrimStart(s)) == StripSpace(s)
    decreases |s|
  {
    if |s| > 0 && IsSpace(s[0]) {
      TrimStartBeforeStrip(s[1..]);
    }
  }

  lemma {:induction false} TrimEndBeforeStrip(s: string)
    ensures StripSpace(TrimEnd(s)) == StripSpace(s)
    decreases |s|
  {
    if |s| > 0 && IsSpace(s[|s| - 1]) {
      var init, last := s[..|s| - 1], s[|s| - 1];
      TrimEndBeforeStrip(init);
      assert s == init + [last];
      StripSpaceConcat(init, [last]);
      assert StripSpace([last]) == "" by {
        assert [last][1..] == "";
      }
    }
  }

  /** Removing the white space around a string and then inside it is the same as
      removing it everywhere: the source's `trim()` before `replace(/\s/g, '')`
      changes nothing. */
  lemma TrimBeforeStripIsRedundant(s: string)
    ensures StripSpace(Trim(s)) == StripSpace(s)
  {
    TrimStartBeforeStrip(s);
    TrimEndBeforeStrip(TrimStart(s));
  }

  /** A line without white space is its own cleaning. */
  lemma {:induction false} StripSpaceFixed(s: string)
    requires NoSpace(s)
    ensures StripSpace(s) == s
    decreases |s|
  {
    if |s| > 0 {
      StripSpaceFixed(s[1..]);
    }
  }

  function Join(pieces: seq<string>, sep: char): (s: string)
  {
    if |pieces| == 0 then ""
    else if |pieces| == 1 then pieces[0]
    else pieces[0] + [sep] + Join(pieces[1..], sep)
  }

  /** The pieces of `s` between line feeds, in order (`s.split('\n')`). */
  function SplitLf(s: string): (pieces: seq<string>)
    ensures |pieces| >= 1
    ensures forall k | 0 <= k < |pieces| :: '\n' !in pieces[k]
  {
    if |s| == 0 then [""]
    else
      var rest := SplitLf(s[1..]);
      if s[0] == '\n' then [""] + rest
      else [[s[0]] + rest[0]] + rest[1..]
  }

  /** Joining the pieces with line feeds gives the text back. */
  lemma {:induction false} SplitLfJoin(s: string)
    ensures Join(SplitLf(s), '\n') == s
    decreases |s|
  {
    if |s| > 0 {
      SplitLfJoin(s[1..]);
      var rest := SplitLf(s[1..]);
      if s[0] != '\n' && |rest| > 1 {
        assert ([[s[0]] + rest[0]] + rest[1..])[1..] == rest[1..];
      }
    }
  }

  /** Splitting text joined with line feeds gives the pieces back. */
  lemma {:induction false} JoinSplitLf(pieces: seq<string>)
    requires |pieces| >= 1
    requires forall k | 0 <= k < |pieces| :: '\n' !in pieces[k]
    ensures SplitLf(Join(pieces, '\n')) == pieces
    decreases |pieces|, |pieces[0]|
  {
    var p := pieces[0];
    if |p| == 0 {
      if |pieces| > 1 {
        var tail := Join(pieces[1..], '\n');
        assert Join(pieces, '\n') == "\n" + tail;
        assert ("\n" + tail)[1..] == tail;
        JoinSplitLf(pieces[1..]);
        assert pieces == [""] + pieces[1..];
      }
    } else {
      var shorter := [p[1..]] + pieces[1..];
      assert shorter[1..] == pieces[1..];
      assert forall k | 1 <= k < |shorter| :: shorter[k] == pieces[k];
      assert p[0] != '\n' by { assert p[0] in p; }
      assert forall c | c in p[1..] :: c in p;
      JoinSplitLf(shorter);
      var s := Join(pieces, '\n');
      if |pieces| == 1 {
        assert s == [p[0]] + p[1..];
      } else {
        assert s == [p[0]] + (p[1..] + ['\n'] + Join(pieces[1..], '\n'));
      }
      assert s[1..] == Join(shorter, '\n');
      assert [p[0]] + p[1..] == p;
      assert pieces == [p] + shorter[1..];
    }
  }

  /** Drops one carriage return ending a piece. */
  function DropCr(p: string): (q: string)
    ensures |p| > 0 && p[|p| - 1] == '\r' ==> p == q + "\r"
    ensures !(|p| > 0 && p[|p| - 1] == '\r') ==> q == p
  {
    if |p| > 0 && p[|p| - 1] == '\r' then p[..|p| - 1] else p
  }

  /** `text.split(/\r?\n/)`: the line-feed pieces, where a piece that a line feed
      ends loses one carriage return before it. */
  function SplitLines(text: string): (lines: seq<string>)
    ensures var raw := SplitLf(text);
            && |lines| == |raw|
            && (forall k | 0 <= k < |raw| - 1 :: lines[k] == DropCr(raw[k]))
            && lines[|raw| - 1] == raw[|raw| - 1]
  {
    var raw := SplitLf(text);
    seq(|raw|, k requires 0 <= k < |raw| => if k < |raw| - 1 then DropCr(raw[k]) else raw[k])
  }

  /** One pasted line, cleaned. */
  function Clean(line: string): (t: string)
    ensures NoSpace(t)
  {
    StripSpace(Trim(line))
  }

  /** The cleaned lines that are not empty, in order. */
  function NonEmptyCleaned(lines: seq<string>): (out: seq<string>)
    ensures |out| <= |lines|
    ensures forall k | 0 <= k < |out| :: |out[k]| > 0 && NoSpace(out[k])
  {
    if |lines| == 0 then []
    else
      var c := Clean(lines[0]);
      if |c| > 0 then [c] + NonEmptyCleaned(lines[1..]) else NonEmptyCleaned(lines[1..])
  }

  /** The lines a paste uses. */
  function PastedLines(text: string): (lines: seq<string>)
    ensures forall k | 0 <= k < |lines| :: |lines[k]| > 0 && NoSpace(lines[k])
  {
    NonEmptyCleaned(SplitLines(text))
  }

  /** Carriage returns are white space, so cleaning ignores the dropped one. */
  lemma CleanDropCr(p: string)
    ensures Clean(DropCr(p)) == Clean(p)
  {
    TrimBeforeStripIsRedundant(p);
    TrimBeforeStripIsRedundant(DropCr(p));
    if DropCr(p) != p {
      StripSpaceConcat(DropCr(p), "\r");
      assert StripSpace("\r") == "";
    }
  }

  lemma {:induction false} CleanedLinesAgree(xs: seq<string>, ys: seq<string>)
    requires |xs| == |ys| && forall k | 0 <= k < |xs| :: Clean(xs[k]) == Clean(ys[k])
    ensures NonEmptyCleaned(xs) == NonEmptyCleaned(ys)
    decreases |xs|
  {
    if |xs| > 0 {
      CleanedLinesAgree(xs[1..], ys[1..]);
    }
  }

  /** Cleaning works line by line: a line contributes its cleaned form when that is
      not empty and nothing otherwise, and the order of the lines is kept. */
  lemma {:induction false} NonEmptyCleanedConcat(a: seq<string>, b: seq<string>)
    ensures NonEmptyCleaned(a + b) == NonEmptyCleaned(a) + NonEmptyCleaned(b)
    ensures |a| == 1 ==> NonEmptyCleaned(a) == (if Clean(a[0]) == "" then [] else [Clean(a[0])])
    decreases |a|
  {
    if |a| == 0 {
      assert a + b == b;
    } else {
      assert (a + b)[1..] == a[1..] + b;
      NonEmptyCleanedConcat(a[1..], b);
    }
  }

  /** Windows and Unix line endings paste the same lines. */
  lemma CrlfPastesLikeLf(text: string)
    ensures PastedLines(text) == NonEmptyCleaned(SplitLf(text))
  {
    var raw := SplitLf(text);
    var lines := SplitLines(text);
    forall k | 0 <= k < |raw| ensures Clean(lines[k]) == Clean(raw[k]) {
      if k < |raw| - 1 {
        CleanDropCr(raw[k]);
      }
    }
    CleanedLinesAgree(lines, raw);
  }

  /** Pasting lines joined with line feeds uses exactly their non-empty cleaned forms. */
  lemma PastedJoinedLines(pieces: seq<string>)
    requires |pieces| >= 1
    requires forall k | 0 <= k < |pieces| :: '\n' !in pieces[k]
    ensures PastedLines(Join(pieces, '\n')) == NonEmptyCleaned(pieces)
  {
    CrlfPastesLikeLf(Join(pieces, '\n'));
    JoinSplitLf(pieces);
  }

  /** `handlePaste` with the clipboard text given: `None` on a read-only panel (nothing
      is written); otherwise exactly seven slots, the first pasted lines cut to the
      slot limits, and every slot past the pasted lines keeps its value or becomes
      empty when the panel had no such slot. */
  function HandlePaste(values: seq<string>, text: string, readOnly: bool): (r: Option<seq<string>>)
    ensures readOnly <==> r.None?
    ensures r.Some? ==> |r.value| == SlotCount
    ensures r.Some? ==> var lines := PastedLines(text);
            forall i | 0 <= i < SlotCount ::
              && (i < |lines| ==> r.value[i] == Prefix(lines[i], Limit(i)))
              && (|lines| <= i < |values| ==> r.value[i] == values[i])
              && (|lines| <= i && |values| <= i ==> r.value[i] == "")
  {
    if readOnly then None
    else
      var lines := PastedLines(text);
      Some(seq(SlotCount, i requires 0 <= i < SlotCount =>
        if i < |lines| then Prefix(lines[i], Limit(i))
        else if i < |values| then values[i]
        else ""))
  }

  /** A pasted slot is a non-empty, space-free prefix of its line, within the limit. */
  lemma PastedSlotsAreShortAndSolid(values: seq<string>, text: string, i: nat)
    requires i < SlotCount && i < |PastedLines(text)|
    ensures var s := HandlePaste(values, text, false).value[i];
            0 < |s| <= Limit(i) && NoSpace(s) && s <= PastedLines(text)[i]
  {
    var line := PastedLines(text)[i];
    var s := HandlePaste(values, text, false).value[i];
    assert s == Prefix(line, Limit(i));
    assert forall j | 0 <= j < |s| :: s[j] == line[j];
  }

  /** Text without line feeds or white space pastes as that one line. */
  lemma SingleLinePaste(text: string)
    requires |text| > 0 && NoSpace(text)
    ensures PastedLines(text) == [text]
  {
    JoinSplitLf([text]);
    assert SplitLines(text) == [text];
    TrimBeforeStripIsRedundant(text);
    StripSpaceFixed(text);
  }

  /** Pasting, unlike typing, does not drop letters: "ab12" pastes as "ab12"
      but types as "12". */
  lemma PasteKeepsLetters()
    ensures HandlePaste(["", "", "", "", "", "", ""], "ab12", false).value[0] == "ab12"
    ensures HandleInputChange(["", "", "", "", "", "", ""], 0, "ab12", false)[0] == "12"
  {
    var text := "ab12";
    assert NoSpace(text);
    SingleLinePaste(text);
    TypedDigits();
  }

  lemma TypedDigits()
    ensures FilterDigits("ab12") == "12"
  {
    assert "ab12" == "a" + "b" + "12";
    FilterDigitsConcat("a" + "b", "12");
    FilterDigitsConcat("a", "b");
    FilterDigitsFixed("12");
    assert FilterDigits("a") == "" by { assert "a"[1..] == ""; }
    assert FilterDigits("b") == "" by { assert "b"[1..] == ""; }
  }
}
