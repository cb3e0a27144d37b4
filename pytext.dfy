/**
 * The parts of Python's `str` and `int` behaviour that the bot relies on:
 * `str.splitlines`, `str.split()` with no separator, `str.join`,
 * `str.capitalize`, `str(n)` for an integer and `int(s)` for a string.
 */
module PyText {
  import opened Common

  // ---------------------------------------------------------------------
  // Line breaks and str.splitlines()

  /** The characters `str.splitlines` treats as line boundaries. */
  predicate IsLineBreak(c: char) {
    c == '\n' || c == '\r' || c as int == 0x0b || c as int == 0x0c ||
    c as int == 0x1c || c as int == 0x1d || c as int == 0x1e ||
    c as int == 0x85 || c as int == 0x2028 || c as int == 0x2029
  }

  predicate NoLineBreak(s: string) {
    forall i :: 0 <= i < |s| ==> !IsLineBreak(s[i])
  }

  /** Length of the first line of `s`: the index of its first line boundary, or |s|. */
  function LineLength(s: string): (n: nat)
    ensures n <= |s|
    ensures forall i :: 0 <= i < n ==> !IsLineBreak(s[i])
    ensures n < |s| ==> IsLineBreak(s[n])
  {
    if s == [] || IsLineBreak(s[0]) then 0 else 1 + LineLength(s[1..])
  }

  /** What follows the first line and its boundary; "\r\n" is one boundary. */
  function AfterFirstLine(s: string): (rest: string)
    ensures |rest| < |s| || (s == [] && rest == [])
  {
    var n := LineLength(s);
    if n == |s| then []
    else if s[n] == '\r' && n + 1 < |s| && s[n + 1] == '\n' then s[n + 2..]
    else s[n + 1..]
  }

  /** `s.splitlines()`: the lines of `s` without their boundaries; a final
      boundary does not start an extra empty line. */
  function SplitLines(s: string): seq<string>
    decreases |s|
  {
    if s == [] then [] else [s[..LineLength(s)]] + SplitLines(AfterFirstLine(s))
  }

  /** `sep.join(xs)`. */
  function Join(xs: seq<string>, sep: string): (r: string)
    decreases |xs|
  {
    if |xs| == 0 then ""
    else if |xs| == 1 then xs[0]
    else xs[0] + sep + Join(xs[1..], sep)
  }

  /** Joining one more element adds a separator and that element at the end. */
  lemma {:induction false} JoinAppend(xs: seq<string>, y: string, sep: string)
    requires |xs| > 0
    ensures Join(xs + [y], sep) == Join(xs, sep) + sep + y
    decreases |xs|
  {
    if |xs| >= 2 {
      assert (xs + [y])[1..] == xs[1..] + [y];
      JoinAppend(xs[1..], y, sep);
    }
  }

  lemma {:induction false} FirstLineOf(l: string, rest: string)
    requires NoLineBreak(l)
    ensures LineLength(l + "\n" + rest) == |l|
    ensures AfterFirstLine(l + "\n" + rest) == rest
  {
    var s := l + "\n" + rest;
    if l != [] {
      assert s[1..] == l[1..] + "\n" + rest;
      FirstLineOf(l[1..], rest);
    }
  }

  lemma LineWithoutBreak(l: string)
    requires NoLineBreak(l) && l != []
    ensures SplitLines(l) == [l]
  {
    assert LineLength(l) == |l|;
    assert l[..|l|] == l;
  }

  /** Joining lines that hold no boundary with "\n" and splitting the result
      gives the lines back, provided the last one is not empty. */
  lemma {:induction false} SplitLinesOfJoin(lines: seq<string>)
    requires |lines| > 0
    requires forall i :: 0 <= i < |lines| ==> NoLineBreak(lines[i])
    requires lines[|lines| - 1] != []
    ensures SplitLines(Join(lines, "\n")) == lines
  {
    if |lines| == 1 {
      LineWithoutBreak(lines[0]);
    } else {
      var rest := Join(lines[1..], "\n");
      var s := lines[0] + "\n" + rest;
      FirstLineOf(lines[0], rest);
      assert s[..LineLength(s)] == lines[0];
      SplitLinesOfJoin(lines[1..]);
      assert lines == [lines[0]] + lines[1..];
    }
  }

  // ---------------------------------------------------------------------
  // Whitespace and str.split()

  /** The characters for which `str.isspace()` holds. */
  predicate IsSpace(c: char) {
    var n := c as int;
    (0x09 <= n <= 0x0d) || (0x1c <= n <= 0x20) || n == 0x85 || n == 0xa0 ||
    n == 0x1680 || (0x2000 <= n <= 0x200a) || n == 0x2028 || n == 0x2029 ||
    n == 0x202f || n == 0x205f || n == 0x3000
  }

  predicate NoSpace(s: string) {
    forall i :: 0 <= i < |s| ==> !IsSpace(s[i])
  }

  /** Length of the leading run of non-space characters of `s`. */
  function WordLength(s: string): (n: nat)
    ensures n <= |s|
    ensures forall i :: 0 <= i < n ==> !IsSpace(s[i])
    ensures n < |s| ==> IsSpace(s[n])
  {
    if s == [] || IsSpace(s[0]) then 0 else 1 + WordLength(s[1..])
  }

  /** `s.split()`: the maximal runs of non-space characters, in order. */
  function SplitWords(s: string): (words: seq<string>)
    decreases |s|
  {
    if s == [] then []
    else if IsSpace(s[0]) then SplitWords(s[1..])
    else
      var n := WordLength(s);
      [s[..n]] + SplitWords(s[n..])
  }

  /** Every word `str.split()` returns is non-empty and holds no space. */
  lemma {:induction false} SplitWordsAreWords(s: string)
    ensures forall i :: 0 <= i < |SplitWords(s)| ==>
              SplitWords(s)[i] != [] && NoSpace(SplitWords(s)[i])
    decreases |s|
  {
    if s == [] {
    } else if IsSpace(s[0]) {
      SplitWordsAreWords(s[1..]);
    } else {
      SplitWordsAreWords(s[WordLength(s)..]);
    }
  }

  lemma {:induction false} FirstWordOf(w: string, rest: string)
    requires NoSpace(w)
    ensures WordLength(w + " " + rest) == |w|
  {
    if w != [] {
      assert (w + " " + rest)[1..] == w[1..] + " " + rest;
      FirstWordOf(w[1..], rest);
    }
  }

  /** Splitting words (non-empty, without spaces) joined by single spaces gives them back. */
  lemma {:induction false} SplitWordsOfJoin(words: seq<string>)
    requires forall i :: 0 <= i < |words| ==> words[i] != [] && NoSpace(words[i])
    ensures SplitWords(Join(words, " ")) == words
    decreases |words|
  {
    if |words| == 0 {
    } else if |words| == 1 {
      var w := words[0];
      assert WordLength(w) == |w|;
      assert w[..|w|] == w && w[|w|..] == [];
    } else {
      var w := words[0];
      var rest := Join(words[1..], " ");
      var s := w + " " + rest;
      FirstWordOf(w, rest);
      assert s[..|w|] == w;
      assert s[|w|..] == " " + rest;
      assert SplitWords(" " + rest) == SplitWords(rest) by {
        assert (" " + rest)[1..] == rest;
      }
      SplitWordsOfJoin(words[1..]);
      assert words == [w] + words[1..];
    }
  }

  /** Words joined by single spaces start and end with a character of a word. */
  lemma {:induction false} JoinedWordsTrimmed(words: seq<string>)
    requires forall i :: 0 <= i < |words| ==> words[i] != [] && NoSpace(words[i])
    ensures |words| > 0 ==> Join(words, " ") != []
    ensures var s := Join(words, " ");
            s == [] || (!IsSpace(s[0]) && !IsSpace(s[|s| - 1]))
    decreases |words|
  {
    if |words| == 1 {
      assert !IsSpace(words[0][0]) && !IsSpace(words[0][|words[0]| - 1]);
    } else if |words| >= 2 {
      JoinedWordsTrimmed(words[1..]);
      var rest := Join(words[1..], " ");
      var s := words[0] + " " + rest;
      assert s[0] == words[0][0] && s[|s| - 1] == rest[|rest| - 1];
    }
  }

  // ---------------------------------------------------------------------
  // Case mapping and str.capitalize()

  /** Upper case, for the Latin and Russian Cyrillic letters. */
  function Upper(c: char): (u: char)
    ensures IsSpace(u) <==> IsSpace(c)
  {
    var n := c as int;
    if 'a' <= c <= 'z' then (n - 32) as char
    else if 0x430 <= n <= 0x44f then (n - 32) as char
    else if 0x450 <= n <= 0x45f then (n - 80) as char
    else c
  }

  /** Lower case, for the Latin and Russian Cyrillic letters. */
  function Lower(c: char): (l: char)
    ensures IsSpace(l) <==> IsSpace(c)
  {
    var n := c as int;
    if 'A' <= c <= 'Z' then (n + 32) as char
    else if 0x410 <= n <= 0x42f then (n + 32) as char
    else if 0x400 <= n <= 0x40f then (n + 80) as char
    else c
  }

  function LowerAll(s: string): (r: string)
    ensures |r| == |s|
    ensures forall i :: 0 <= i < |s| ==> r[i] == Lower(s[i])
  {
    if s == [] then [] else [Lower(s[0])] + LowerAll(s[1..])
  }

  /** `w.capitalize()`: the first character upper case, the rest lower case. */
  function Capitalize(w: string): (r: string)
    ensures |r| == |w|
    ensures |w| > 0 ==> r[0] == Upper(w[0])
    ensures forall i :: 0 < i < |w| ==> r[i] == Lower(w[i])
  {
    if w == [] then [] else [Upper(w[0])] + LowerAll(w[1..])
  }

  lemma CaseIdempotent(c: char)
    ensures Upper(Upper(c)) == Upper(c) && Lower(Lower(c)) == Lower(c)
    ensures Lower(Upper(c)) == Lower(c) || Upper(c) == c
  {
  }

  /** Capitalising keeps a word a word and does nothing the second time. */
  lemma CapitalizeFacts(w: string)
    ensures Capitalize(Capitalize(w)) == Capitalize(w)
    ensures NoSpace(w) ==> NoSpace(Capitalize(w))
  {
    var c := Capitalize(w);
    var cc := Capitalize(c);
    forall i | 0 <= i < |w| ensures cc[i] == c[i] {
      CaseIdempotent(w[i]);
    }
  }

  /** Each word capitalised on its own, in order. */
  function CapitalizeWords(words: seq<string>): (r: seq<string>)
    ensures |r| == |words|
    ensures forall i :: 0 <= i < |words| ==> r[i] == Capitalize(words[i])
  {
    if words == [] then [] else [Capitalize(words[0])] + CapitalizeWords(words[1..])
  }

  // ---------------------------------------------------------------------
  // Decimal numerals: str(n) and int(s)

  predicate IsDigit(c: char) { '0' <= c <= '9' }

  function DigitChar(d: nat): (c: char)
    requires d < 10
    ensures IsDigit(c) && c as int - '0' as int == d
  {
    ('0' as int + d) as char
  }

  /** `str(n)` for n >= 0: decimal, no leading zero. */
  function NatToString(n: nat): (s: string)
    ensures |s| > 0 && (forall i :: 0 <= i < |s| ==> IsDigit(s[i]))
    ensures s[0] == '0' ==> n == 0 && s == "0"
  {
    if n < 10 then [DigitChar(n)] else NatToString(n / 10) + [DigitChar(n % 10)]
  }

  /** `str(i)`: a minus sign before the digits of a negative number. */
  function IntToString(i: int): (s: string)
    ensures |s| > 0
    ensures forall k :: 0 <= k < |s| ==> IsDigit(s[k]) || s[k] == '-'
  {
    if i < 0 then "-" + NatToString(-i) else NatToString(i)
  }

  lemma IntToStringIsOneLine(i: int)
    ensures NoLineBreak(IntToString(i)) && NoSpace(IntToString(i))
  {
    var t := IntToString(i);
    forall k | 0 <= k < |t| ensures !IsLineBreak(t[k]) && !IsSpace(t[k]) {
      assert IsDigit(t[k]) || t[k] == '-';
    }
  }

  /** The value of a run of decimal digits, ignoring '_' separators. */
  function DigitsValue(s: string): nat
    requires forall i :: 0 <= i < |s| ==> IsDigit(s[i]) || s[i] == '_'
  {
    if s == [] then 0
    else if s[|s| - 1] == '_' then DigitsValue(s[..|s| - 1])
    else
      assert IsDigit(s[|s| - 1]);
      DigitsValue(s[..|s| - 1]) * 10 + (s[|s| - 1] as int - '0' as int)
  }

  lemma {:induction false} DigitsValueOfNat(n: nat)
    ensures DigitsValue(NatToString(n)) == n
  {
    if n >= 10 {
      var s := NatToString(n);
      assert s[..|s| - 1] == NatToString(n / 10);
      DigitsValueOfNat(n / 10);
    }
  }

  /** The digit body `int()` accepts: digits, with single '_' only between two digits. */
  predicate IsDigitBody(s: string) {
    && |s| > 0
    && (forall i :: 0 <= i < |s| ==> IsDigit(s[i]) || s[i] == '_')
    && IsDigit(s[0]) && IsDigit(s[|s| - 1])
    && (forall i :: 0 <= i < |s| - 1 && s[i] == '_' ==> s[i + 1] != '_')
  }

  /** Number of leading characters of `s` for which `str.isspace()` holds. */
  function LeadingSpaces(s: string): (n: nat)
    ensures n <= |s|
    ensures forall i :: 0 <= i < n ==> IsSpace(s[i])
    ensures n < |s| ==> !IsSpace(s[n])
  {
    if s == [] || !IsSpace(s[0]) then 0 else 1 + LeadingSpaces(s[1..])
  }

  /** Number of trailing characters of `s` for which `str.isspace()` holds. */
  function TrailingSpaces(s: string): (n: nat)
    ensures n <= |s|
    ensures forall i :: |s| - n <= i < |s| ==> IsSpace(s[i])
    ensures n < |s| ==> !IsSpace(s[|s| - 1 - n])
  {
    if s == [] || !IsSpace(s[|s| - 1]) then 0 else 1 + TrailingSpaces(s[..|s| - 1])
  }

  /** `s.strip()`: `s` with its leading and trailing whitespace removed and
      nothing else. */
  function Strip(s: string): (r: string)
    ensures r == [] || (!IsSpace(r[0]) && !IsSpace(r[|r| - 1]))
    ensures exists a, b :: 0 <= a <= b <= |s| && r == s[a..b]
                           && (forall i :: 0 <= i < a ==> IsSpace(s[i]))
                           && (forall i :: b <= i < |s| ==> IsSpace(s[i]))
  {
    var a := LeadingSpaces(s);
    var t := s[a..];
    var b := a + |t| - TrailingSpaces(t);
    assert t[..|t| - TrailingSpaces(t)] == s[a..b];
    assert forall i :: b <= i < |s| ==> s[i] == t[i - a];
    t[..|t| - TrailingSpaces(t)]
  }

  /** Leading whitespace does not change `split()`. */
  lemma {:induction false} SplitWordsDropLeading(s: string, k: nat)
    requires k <= |s|
    requires forall i :: 0 <= i < k ==> IsSpace(s[i])
    ensures SplitWords(s) == SplitWords(s[k..])
    decreases k
  {
    if k > 0 {
      assert s[1..][k - 1..] == s[k..];
      SplitWordsDropLeading(s[1..], k - 1);
    }
  }

  /** Trailing whitespace does not change `split()`. */
  lemma {:induction false} SplitWordsDropTrailing(s: string, k: nat)
    requires k <= |s|
    requires forall i :: k <= i < |s| ==> IsSpace(s[i])
    ensures SplitWords(s) == SplitWords(s[..k])
    decreases |s|
  {
    if k == 0 {
      SplitWordsDropLeading(s, |s|);
      assert s[|s|..] == [];
    } else if IsSpace(s[0]) {
      assert s[..k][1..] == s[1..][..k - 1];
      SplitWordsDropTrailing(s[1..], k - 1);
    } else {
      var n := WordLength(s);
      var p := s[..k];
      var m := WordLength(p);
      assert k < |s| ==> IsSpace(s[k]);
      assert n <= k;
      assert m < k ==> IsSpace(p[m]) && p[m] == s[m];
      assert m == n;
      assert p[..m] == s[..n];
      assert p[m..] == s[n..][..k - n];
      SplitWordsDropTrailing(s[n..], k - n);
    }
  }

  /** `s.strip().split()` and `s.split()` give the same words. */
  lemma SplitWordsOfStrip(s: string)
    ensures SplitWords(Strip(s)) == SplitWords(s)
  {
    var a, b :| 0 <= a <= b <= |s| && Strip(s) == s[a..b]
                && (forall i :: 0 <= i < a ==> IsSpace(s[i]))
                && (forall i :: b <= i < |s| ==> IsSpace(s[i]));
    SplitWordsDropLeading(s, a);
    var t := s[a..];
    assert forall i :: b - a <= i < |t| ==> t[i] == s[i + a];
    SplitWordsDropTrailing(t, b - a);
    assert t[..b - a] == s[a..b];
  }

  /** Stripping leaves a string that starts and ends with a non-space as it is. */
  lemma StripTrimmed(s: string)
    requires s == [] || (!IsSpace(s[0]) && !IsSpace(s[|s| - 1]))
    ensures Strip(s) == s
  {
    if s != [] {
      assert LeadingSpaces(s) == 0;
      assert TrailingSpaces(s) == 0;
    }
  }

  lemma StripNoSpace(s: string)
    requires NoSpace(s)
    ensures Strip(s) == s
  {
    assert LeadingSpaces(s) == 0;
    if s != [] { assert TrailingSpaces(s) == 0; }
  }

  /** `int(s)` for base 10: surrounding whitespace, an optional sign, then a
      digit body; anything else raises ValueError. */
  function ParseInt(s: string): (r: Result<int>)
    ensures r.Err? ==> r.error == ValueError
  {
    var t := Strip(s);
    if |t| > 0 && (t[0] == '-' || t[0] == '+') then
      if IsDigitBody(t[1..]) then
        var v: int := DigitsValue(t[1..]);
        Ok(if t[0] == '-' then -v else v)
      else Err(ValueError)
    else if IsDigitBody(t) then Ok(DigitsValue(t))
    else Err(ValueError)
  }

  /** `int(str(i)) == i`. */
  lemma ParseIntOfString(i: int)
    ensures ParseInt(IntToString(i)) == Ok(i)
  {
    var s := IntToString(i);
    StripNoSpace(s);
    if i < 0 {
      assert s[1..] == NatToString(-i);
      DigitsValueOfNat(-i);
    } else {
      DigitsValueOfNat(i);
    }
  }
}
