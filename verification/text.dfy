/** The text handling the bridge wrapper relies on: Python 2's `str.split()`
    (whitespace tokens), `str.splitlines()` (restricted to `'\n'`),
    `line.split("\t")[0]`, and `str(n)` for integers, each paired with an
    independent inverse so that the parsers can be checked against it. */
module Text {
  import opened Wrappers

  // ---------------------------------------------------------------------
  // Whitespace tokens: str.split() with no separator
  // ---------------------------------------------------------------------

  /** The characters `str.isspace()` accepts in a Python 2 byte string. */
  predicate IsSpace(c: char) {
    c == ' ' || c == '\t' || c == '\n' || c == '\r' || c == '\U{000B}' || c == '\U{000C}'
  }

  predicate NoSpace(w: string) {
    forall i :: 0 <= i < |w| ==> !IsSpace(w[i])
  }

  /** A token `str.split()` can produce: non-empty and free of whitespace. */
  predicate IsWord(w: string) {
    |w| > 0 && NoSpace(w)
  }

  /** Length of the run of non-whitespace characters at the start of `s`. */
  function WordEnd(s: string): (n: nat)
    ensures n <= |s|
    ensures NoSpace(s[..n])
    ensures n < |s| ==> IsSpace(s[n])
  {
    if |s| == 0 || IsSpace(s[0]) then 0 else 1 + WordEnd(s[1..])
  }

  /** `s.split()`: the maximal runs of non-whitespace characters, in order. */
  function Words(s: string): (ws: seq<string>)
    ensures forall i :: 0 <= i < |ws| ==> IsWord(ws[i])
    decreases |s|
  {
    if |s| == 0 then []
    else if IsSpace(s[0]) then Words(s[1..])
    else
      var n := WordEnd(s);
      [s[..n]] + Words(s[n..])
  }

  /** The characters of `s` that are not whitespace, in order. */
  function NonSpace(s: string): string {
    if |s| == 0 then ""
    else if IsSpace(s[0]) then NonSpace(s[1..])
    else [s[0]] + NonSpace(s[1..])
  }

  function Concat(ws: seq<string>): string {
    if |ws| == 0 then "" else ws[0] + Concat(ws[1..])
  }

  predicate AllSpace(s: string) {
    forall i :: 0 <= i < |s| ==> IsSpace(s[i])
  }

  /** Tokens laid out with arbitrary whitespace: the whitespace `lead`, then
      every token followed by its own separator `seps[i]`; the last
      separator is the trailing whitespace. */
  function Spaced(lead: string, ws: seq<string>, seps: seq<string>): string
    requires |seps| == |ws|
    decreases |ws|
  {
    if |ws| == 0 then lead else lead + ws[0] + Spaced(seps[0], ws[1..], seps[1..])
  }

  /** A layout `Spaced` can be read back from: tokens are words, the gaps
      are whitespace, and every gap between two tokens is non-empty. */
  predicate Separated(lead: string, ws: seq<string>, seps: seq<string>) {
    && AllSpace(lead)
    && |seps| == |ws|
    && (forall i :: 0 <= i < |ws| ==> IsWord(ws[i]))
    && (forall i :: 0 <= i < |seps| ==> AllSpace(seps[i]))
    && (forall i :: 0 <= i < |seps| - 1 ==> |seps[i]| > 0)
  }

  lemma {:induction false} NonSpaceSplit(s: string, n: nat)
    requires n <= |s|
    requires NoSpace(s[..n])
    ensures NonSpace(s) == s[..n] + NonSpace(s[n..])
    decreases n
  {
    if n > 0 {
      var t := s[1..];
      var head, word := t[..n - 1], s[..n];
      assert forall i :: 0 <= i < |head| ==> head[i] == word[i + 1];
      NonSpaceSplit(t, n - 1);
      assert t[n - 1..] == s[n..];
      assert !IsSpace(s[0]) by { assert s[..n][0] == s[0]; }
      assert s[..n] == [s[0]] + t[..n - 1];
    }
  }

  /** Tokenising loses only whitespace: the tokens, concatenated, are the
      non-whitespace characters of the input in their original order. */
  lemma {:induction false} WordsKeepText(s: string)
    ensures Concat(Words(s)) == NonSpace(s)
    decreases |s|
  {
    if |s| == 0 {
    } else if IsSpace(s[0]) {
      WordsKeepText(s[1..]);
    } else {
      var n := WordEnd(s);
      WordsKeepText(s[n..]);
      NonSpaceSplit(s, n);
      var ws := Words(s);
      assert ws == [s[..n]] + Words(s[n..]);
      assert ws[1..] == Words(s[n..]);
    }
  }

  lemma WordEndOfWord(w: string, t: string)
    requires NoSpace(w)
    requires |t| == 0 || IsSpace(t[0])
    ensures WordEnd(w + t) == |w|
  {
    var s := w + t;
    var n := WordEnd(s);
    assert forall i :: 0 <= i < |w| ==> s[i] == w[i];
    assert |t| > 0 ==> s[|w|] == t[0];
    assert forall i :: 0 <= i < n ==> s[..n][i] == s[i];
  }

  /** Leading whitespace yields no token. */
  lemma {:induction false} WordsAfterSpace(sp: string, t: string)
    requires AllSpace(sp)
    ensures Words(sp + t) == Words(t)
    decreases |sp|
  {
    if |sp| > 0 {
      var s := sp + t;
      assert s[0] == sp[0];
      assert s[1..] == sp[1..] + t;
      WordsAfterSpace(sp[1..], t);
    } else {
      assert sp + t == t;
    }
  }

  /** A word ended by whitespace or by the end of the text is one token. */
  lemma WordsOfWordThen(w: string, t: string)
    requires IsWord(w)
    requires |t| == 0 || IsSpace(t[0])
    ensures Words(w + t) == [w] + Words(t)
  {
    var s := w + t;
    WordEndOfWord(w, t);
    assert s[0] == w[0];
    assert s[..|w|] == w;
    assert s[|w|..] == t;
  }

  /** `str.split()` recovers the tokens of any layout with whitespace runs
      of any length and kind between them, before them and after them. */
  lemma {:induction false} WordsOfSpaced(lead: string, ws: seq<string>, seps: seq<string>)
    requires Separated(lead, ws, seps)
    ensures Words(Spaced(lead, ws, seps)) == ws
    decreases |ws|
  {
    if |ws| == 0 {
      WordsAfterSpace(lead, "");
      assert lead + "" == lead;
    } else {
      var rest := Spaced(seps[0], ws[1..], seps[1..]);
      assert Separated(seps[0], ws[1..], seps[1..]) by {
        assert forall i :: 0 <= i < |seps| - 1 ==> seps[1..][i] == seps[i + 1];
        assert forall i :: 0 <= i < |ws| - 1 ==> ws[1..][i] == ws[i + 1];
      }
      WordsOfSpaced(seps[0], ws[1..], seps[1..]);
      if |seps[0]| > 0 {
        if |ws| > 1 {
          assert rest == seps[0] + (ws[1] + Spaced(seps[1], ws[2..], seps[2..]));
        }
        assert rest[0] == seps[0][0];
      } else {
        assert |ws| == 1;
      }
      WordsOfWordThen(ws[0], rest);
      assert Spaced(lead, ws, seps) == lead + (ws[0] + rest);
      WordsAfterSpace(lead, ws[0] + rest);
    }
  }

  // ---------------------------------------------------------------------
  // Lines: str.splitlines() on '\n'
  // ---------------------------------------------------------------------

  /** Position of the first `'\n'` in `s`, or `|s|` when there is none. */
  function LineEnd(s: string): (n: nat)
    ensures n <= |s|
    ensures '\n' !in s[..n]
    ensures n < |s| ==> s[n] == '\n'
  {
    if |s| == 0 || s[0] == '\n' then 0
    else
      var m := LineEnd(s[1..]);
      assert s[..m + 1] == [s[0]] + s[1..][..m];
      m + 1
  }

  /** `s.splitlines()`: the lines of `s` without their terminators; a final
      terminator does not start an extra empty line. */
  function Lines(s: string): (ls: seq<string>)
    ensures forall i :: 0 <= i < |ls| ==> '\n' !in ls[i]
    decreases |s|
  {
    if |s| == 0 then []
    else
      var n := LineEnd(s);
      if n == |s| then [s] else [s[..n]] + Lines(s[n + 1..])
  }

  /** Every line followed by its terminator. */
  function Unlines(ls: seq<string>): string {
    if |ls| == 0 then "" else ls[0] + "\n" + Unlines(ls[1..])
  }

  /** `s` with a line terminator added at the end unless it already has one
      (or is empty). */
  function Terminated(s: string): string {
    if |s| == 0 || s[|s| - 1] == '\n' then s else s + "\n"
  }

  lemma TerminatedAfterLine(a: string, t: string)
    ensures Terminated(a + "\n" + t) == a + "\n" + Terminated(t)
  {
    var s := a + "\n" + t;
    if |t| > 0 {
      assert s[|s| - 1] == t[|t| - 1];
      if t[|t| - 1] != '\n' {
        assert s + "\n" == a + "\n" + (t + "\n");
      }
    }
  }

  /** Splitting into lines and terminating each one gives back the text,
      with a terminator added when the text lacked a final one. */
  lemma {:induction false} UnlinesOfLines(s: string)
    ensures Unlines(Lines(s)) == Terminated(s)
    decreases |s|
  {
    if |s| > 0 {
      var n := LineEnd(s);
      if n == |s| {
        LastLine(s);
      } else {
        var t := s[n + 1..];
        UnlinesOfLines(t);
        UnlinesCons(s[..n], Lines(t));
        TerminatedAfterLine(s[..n], t);
        assert s == s[..n] + "\n" + t;
      }
    }
  }

  /** Text without a line terminator is one unterminated line. */
  lemma LastLine(s: string)
    requires |s| > 0 && LineEnd(s) == |s|
    ensures Unlines(Lines(s)) == Terminated(s)
  {
    assert s[..|s|] == s;
    assert s[|s| - 1] != '\n';
    assert Lines(s) == [s];
    UnlinesCons(s, []);
  }

  lemma UnlinesCons(l: string, ls: seq<string>)
    ensures Unlines([l] + ls) == l + "\n" + Unlines(ls)
  {
    assert ([l] + ls)[1..] == ls;
  }

  /** `splitlines` undoes `Unlines` on any list of lines without terminators. */
  lemma {:induction false} LinesOfUnlines(ls: seq<string>)
    requires forall i :: 0 <= i < |ls| ==> '\n' !in ls[i]
    ensures Lines(Unlines(ls)) == ls
    decreases |ls|
  {
    if |ls| > 0 {
      var l, u := ls[0], Unlines(ls[1..]);
      var s := l + "\n" + u;
      var n := LineEnd(s);
      assert forall i :: 0 <= i < |l| ==> s[i] == l[i] && l[i] != '\n';
      assert s[|l|] == '\n';
      assert forall i :: 0 <= i < n ==> s[..n][i] == s[i];
      assert n == |l|;
      assert s[..|l|] == l;
      assert s[|l| + 1..] == u;
      LinesOfUnlines(ls[1..]);
    }
  }

  // ---------------------------------------------------------------------
  // First tab-separated field: line.split("\t")[0]
  // ---------------------------------------------------------------------

  /** `line.split("\t")[0]`: the longest prefix of `line` without a tab, so a
      line that starts with a tab yields `""`. */
  function FirstField(line: string): (f: string)
    ensures f <= line
    ensures '\t' !in f
    ensures |f| < |line| ==> line[|f|] == '\t'
  {
    if |line| == 0 || line[0] == '\t' then ""
    else [line[0]] + FirstField(line[1..])
  }

  /** The first field of `f + "\t" + rest`, or of `f` alone, is `f` itself
      whenever `f` holds no tab: the field split inverts a tab join. */
  lemma FirstFieldOfJoin(f: string, rest: string)
    requires '\t' !in f
    ensures FirstField(f + "\t" + rest) == f
    ensures FirstField(f) == f
  {
    var line := f + "\t" + rest;
    assert forall i :: 0 <= i < |f| ==> line[i] == f[i] && f[i] != '\t';
    assert line[|f|] == '\t';
    var g := FirstField(line);
    assert forall i :: 0 <= i < |g| ==> g[i] == line[i] && g[i] != '\t';
    assert |g| == |f|;
    assert line[..|f|] == f;
    var h := FirstField(f);
    assert forall i :: 0 <= i < |h| ==> h[i] == f[i];
  }

  // ---------------------------------------------------------------------
  // Decimal numbers: str(n) for an int
  // ---------------------------------------------------------------------

  predicate IsDigit(c: char) {
    '0' <= c <= '9'
  }

  predicate AllDigits(s: string) {
    forall i :: 0 <= i < |s| ==> IsDigit(s[i])
  }

  function DigitChar(d: nat): (c: char)
    requires d < 10
    ensures IsDigit(c)
  {
    (48 + d) as char
  }

  function DigitValue(c: char): (d: nat)
    requires IsDigit(c)
    ensures d < 10
  {
    c as int - 48
  }

  /** Decimal digits of `n`, most significant first, without leading zeros. */
  function NatToString(n: nat): (s: string)
    ensures |s| > 0 && AllDigits(s)
    ensures s[0] == '0' <==> n == 0
    decreases n
  {
    if n < 10 then [DigitChar(n)] else NatToString(n / 10) + [DigitChar(n % 10)]
  }

  /** Python's `str(i)` for an integer: a minus sign before the digits of a
      negative number. */
  function IntToString(i: int): (s: string)
    ensures |s| > 0
    ensures s[0] == '-' <==> i < 0
  {
    if i < 0 then "-" + NatToString(-i) else NatToString(i)
  }

  /** The number a string of decimal digits denotes. */
  function DigitsValue(s: string): nat
    requires AllDigits(s)
  {
    if |s| == 0 then 0 else DigitsValue(s[..|s| - 1]) * 10 + DigitValue(s[|s| - 1])
  }

  /** `int(s)` restricted to an optional minus sign followed by digits. */
  function ParseInt(s: string): Option<int> {
    if |s| > 0 && AllDigits(s) then Some(DigitsValue(s) as int)
    else if |s| > 1 && s[0] == '-' && AllDigits(s[1..]) then Some(-(DigitsValue(s[1..]) as int))
    else None
  }

  lemma {:induction false} DigitsValueOfNatToString(n: nat)
    ensures DigitsValue(NatToString(n)) == n
    decreases n
  {
    if n >= 10 {
      var s := NatToString(n);
      DigitsValueOfNatToString(n / 10);
      assert s[..|s| - 1] == NatToString(n / 10);
    }
  }

  /** Reading back the rendering of any integer gives that integer. */
  lemma ParseIntOfIntToString(i: int)
    ensures ParseInt(IntToString(i)) == Some(i)
  {
    var s := IntToString(i);
    if i < 0 {
      DigitsValueOfNatToString(-i);
      assert s[1..] == NatToString(-i);
      assert !IsDigit(s[0]);
    } else {
      DigitsValueOfNatToString(i);
    }
  }
}
