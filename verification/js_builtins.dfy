/**
 * The few pieces of the JavaScript runtime the dashboard relies on, written
 * out so that the rest of the model can reason about them: the whitespace
 * set skipped by `String.prototype.trim` and `parseInt`, `trim` itself,
 * `split` on a one-character separator (and `join`, its inverse),
 * `startsWith`, and `parseInt(text, 10)` with its NaN result.
 */
module JsBuiltins {

  /** The ECMAScript WhiteSpace and LineTerminator code points. */
  predicate IsWhitespace(c: char) {
    || c == ' ' || c == '\t' || c == '\n' || c == '\r'
    || c == '\U{000B}' || c == '\U{000C}' || c == '\U{00A0}' || c == '\U{1680}'
    || ('\U{2000}' <= c <= '\U{200A}')
    || c == '\U{2028}' || c == '\U{2029}' || c == '\U{202F}' || c == '\U{205F}'
    || c == '\U{3000}' || c == '\U{FEFF}'
  }

  predicate AllWhitespace(s: string) {
    forall i :: 0 <= i < |s| ==> IsWhitespace(s[i])
  }

  /** Neither begins nor ends with whitespace: what `trim` leaves behind. */
  predicate Trimmed(s: string) {
    s == [] || (!IsWhitespace(s[0]) && !IsWhitespace(s[|s| - 1]))
  }

  /** Drops the leading whitespace: the result is the suffix that starts at the first non-blank. */
  function TrimStart(s: string): (r: string)
    ensures |r| <= |s| && r == s[|s| - |r|..]
    ensures forall i :: 0 <= i < |s| - |r| ==> IsWhitespace(s[i])
    ensures r == [] || !IsWhitespace(r[0])
  {
    if s != [] && IsWhitespace(s[0]) then TrimStart(s[1..]) else s
  }

  /** Drops the trailing whitespace: the result is the prefix that ends at the last non-blank. */
  function TrimEnd(s: string): (r: string)
    ensures |r| <= |s| && r == s[..|r|]
    ensures forall i :: |r| <= i < |s| ==> IsWhitespace(s[i])
    ensures r == [] || !IsWhitespace(r[|r| - 1])
  {
    if s != [] && IsWhitespace(s[|s| - 1]) then TrimEnd(s[..|s| - 1]) else s
  }

  /** `String.prototype.trim`. */
  function Trim(s: string): (r: string)
    ensures Trimmed(r)
    ensures r == [] <==> AllWhitespace(s)
    ensures |r| <= |s|
    ensures forall c :: c in r ==> c in s
    ensures exists i, j :: 0 <= i <= j <= |s| && r == s[i..j] && AllWhitespace(s[..i]) && AllWhitespace(s[j..])
  {
    var t := TrimStart(s);
    var r := TrimEnd(t);
    assert r != [] ==> r[0] == t[0];
    assert forall c :: c in r ==> c in t;
    BlankAround(s, t, r);
    r
  }

  /** A prefix of a suffix, with only whitespace cut off at either end, is an infix between blank runs. */
  lemma BlankAround(s: string, t: string, r: string)
    requires |t| <= |s| && t == s[|s| - |t|..] && forall i :: 0 <= i < |s| - |t| ==> IsWhitespace(s[i])
    requires |r| <= |t| && r == t[..|r|] && forall i :: |r| <= i < |t| ==> IsWhitespace(t[i])
    ensures exists i, j :: 0 <= i <= j <= |s| && r == s[i..j] && AllWhitespace(s[..i]) && AllWhitespace(s[j..])
  {
    var i, j := |s| - |t|, |s| - |t| + |r|;
    assert r == s[i..j];
    var tail := s[j..];
    assert forall k :: 0 <= k < |tail| ==> tail[k] == t[|r| + k];
    assert AllWhitespace(s[..i]) && AllWhitespace(tail);
  }

  lemma {:induction false} TrimOfTrimmed(s: string)
    requires Trimmed(s)
    ensures Trim(s) == s
  {
    assert TrimStart(s) == s;
    assert TrimEnd(s) == s;
  }

  /** Number of occurrences of `c` in `s`. */
  function CountChar(s: string, c: char): nat {
    multiset(s)[c]
  }

  /**
   * `s.split(sep)`: the maximal runs of non-separator characters, one more
   * than there are separators (so `"".split(",")` is `[""]`).
   */
  function Split(s: string, sep: char): (r: seq<string>)
    ensures |r| == CountChar(s, sep) + 1
    ensures forall i :: 0 <= i < |r| ==> sep !in r[i]
  {
    if s == [] then [[]]
    else
      var rest := Split(s[1..], sep);
      assert s == [s[0]] + s[1..];
      if s[0] == sep then [[]] + rest
      else [[s[0]] + rest[0]] + rest[1..]
  }

  /** `parts.join(sep)`. */
  function Join(parts: seq<string>, sep: char): string {
    if parts == [] then []
    else if |parts| == 1 then parts[0]
    else parts[0] + [sep] + Join(parts[1..], sep)
  }

  lemma {:induction false} SplitPrefix(a: string, t: string, sep: char)
    requires sep !in a
    ensures Split(a + t, sep) == [a + Split(t, sep)[0]] + Split(t, sep)[1..]
  {
    var st := Split(t, sep);
    if a != [] {
      var at := a + t;
      assert at[0] == a[0] && at[1..] == a[1..] + t;
      SplitCons(at, sep);
      SplitPrefix(a[1..], t, sep);
      PrefixStep(a, st);
    } else {
      assert a + t == t && a + st[0] == st[0];
      assert st == [st[0]] + st[1..];
    }
  }

  lemma PrefixStep(a: string, st: seq<string>)
    requires a != [] && st != []
    ensures var rest := [a[1..] + st[0]] + st[1..];
      [[a[0]] + rest[0]] + rest[1..] == [a + st[0]] + st[1..]
  {
    assert [a[0]] + (a[1..] + st[0]) == a + st[0];
  }

  /** Splitting undoes joining, as long as no part contains the separator. */
  lemma {:induction false} SplitJoin(parts: seq<string>, sep: char)
    requires parts != []
    requires forall i :: 0 <= i < |parts| ==> sep !in parts[i]
    ensures Split(Join(parts, sep), sep) == parts
  {
    if |parts| == 1 {
      SplitPrefix(parts[0], [], sep);
      assert Split([], sep) == [[]];
      assert parts[0] + [] == parts[0];
    } else {
      var rest := Join(parts[1..], sep);
      SplitJoin(parts[1..], sep);
      assert Join(parts, sep) == parts[0] + ([sep] + rest);
      SplitPrefix(parts[0], [sep] + rest, sep);
      assert ([sep] + rest)[0] == sep && ([sep] + rest)[1..] == rest;
      var st := Split([sep] + rest, sep);
      assert st == [[]] + parts[1..];
      assert st[0] == [] && st[1..] == parts[1..];
      assert parts[0] + [] == parts[0];
      assert parts == [parts[0]] + parts[1..];
    }
  }

  /** Joining undoes splitting. */
  lemma {:induction false} JoinSplit(s: string, sep: char)
    ensures Join(Split(s, sep), sep) == s
  {
    if s != [] {
      JoinSplit(s[1..], sep);
      JoinSplitStep(s, sep);
    }
  }

  lemma JoinSplitStep(s: string, sep: char)
    requires s != [] && Join(Split(s[1..], sep), sep) == s[1..]
    ensures Join(Split(s, sep), sep) == s
  {
    SplitCons(s, sep);
    if s[0] == sep {
      JoinSplitSep(s, Split(s[1..], sep), sep);
    } else {
      JoinSplitOther(s, Split(s[1..], sep), sep);
    }
  }

  lemma JoinSplitSep(s: string, rest: seq<string>, sep: char)
    requires s != [] && s[0] == sep && rest != [] && Join(rest, sep) == s[1..]
    ensures Join([[]] + rest, sep) == s
  {
    JoinCons([], rest, sep);
    assert s == [s[0]] + s[1..];
  }

  lemma JoinSplitOther(s: string, rest: seq<string>, sep: char)
    requires s != [] && rest != [] && Join(rest, sep) == s[1..]
    ensures Join([[s[0]] + rest[0]] + rest[1..], sep) == s
  {
    JoinSplitPiece(s[0], rest, sep);
    assert s == [s[0]] + s[1..];
  }

  lemma JoinSplitPiece(c: char, rest: seq<string>, sep: char)
    requires rest != []
    ensures Join([[c] + rest[0]] + rest[1..], sep) == [c] + Join(rest, sep)
  {
    if |rest| == 1 {
      assert [[c] + rest[0]] + rest[1..] == [[c] + rest[0]];
    } else {
      JoinCons([c] + rest[0], rest[1..], sep);
      JoinCons(rest[0], rest[1..], sep);
      assert rest == [rest[0]] + rest[1..];
    }
  }

  /** One step of `Split`: a leading separator closes an empty piece, any other character opens the first piece. */
  lemma SplitCons(s: string, sep: char)
    requires s != []
    ensures s[0] == sep ==> Split(s, sep) == [[]] + Split(s[1..], sep)
    ensures s[0] != sep ==> Split(s, sep) == [[s[0]] + Split(s[1..], sep)[0]] + Split(s[1..], sep)[1..]
  {
  }

  /** Every piece of a split takes its characters from the split text. */
  lemma {:induction false} SplitChars(s: string, sep: char)
    ensures forall i, c :: 0 <= i < |Split(s, sep)| && c in Split(s, sep)[i] ==> c in s
  {
    if s != [] {
      SplitChars(s[1..], sep);
      SplitCons(s, sep);
      assert forall c :: c in s[1..] ==> c in s;
    }
  }

  lemma JoinCons(p: string, rest: seq<string>, sep: char)
    requires rest != []
    ensures Join([p] + rest, sep) == p + [sep] + Join(rest, sep)
  {
    assert ([p] + rest)[0] == p && ([p] + rest)[1..] == rest;
  }

  /** `s.startsWith(prefix)`. */
  predicate StartsWith(s: string, prefix: string) {
    |prefix| <= |s| && s[..|prefix|] == prefix
  }

  /** A JavaScript number as far as the model needs one: an integer or NaN. */
  datatype Num = Int(value: int) | NaN

  predicate IsDigit(c: char) {
    '0' <= c <= '9'
  }

  predicate AllDigits(s: string) {
    forall i :: 0 <= i < |s| ==> IsDigit(s[i])
  }

  /** Length of the run of decimal digits at the front of `s`. */
  function DigitRunLength(s: string): (n: nat)
    ensures n <= |s|
    ensures AllDigits(s[..n])
    ensures n < |s| ==> !IsDigit(s[n])
  {
    if s != [] && IsDigit(s[0]) then
      var n := 1 + DigitRunLength(s[1..]);
      assert forall i :: 1 <= i < n ==> s[..n][i] == s[1..][..n - 1][i - 1];
      n
    else 0
  }

  /** The value of a string of decimal digits. */
  function DecimalValue(d: string): nat
    requires AllDigits(d)
  {
    if d == [] then 0
    else 10 * DecimalValue(d[..|d| - 1]) + (d[|d| - 1] as int - '0' as int)
  }

  /**
   * `parseInt(s, 10)`: skip leading whitespace, take an optional sign, then
   * the longest run of decimal digits; NaN when that run is empty.
   */
  function ParseInt(s: string): (r: Num)
    ensures r == NaN <==> var body := Unsigned(TrimStart(s)); body == [] || !IsDigit(body[0])
    ensures r.Int? && r.value < 0 ==> TrimStart(s)[0] == '-'
    ensures r.Int? && TrimStart(s)[0] != '-' ==> r.value >= 0
  {
    var t := TrimStart(s);
    var negative := t != [] && t[0] == '-';
    var body := Unsigned(t);
    var n := DigitRunLength(body);
    if n == 0 then NaN
    else
      var v: int := DecimalValue(body[..n]);
      Int(if negative then -v else v)
  }

  /** The text after one leading sign character, if there is one. */
  function Unsigned(t: string): (body: string)
    ensures t != [] && t[0] in "+-" ==> body == t[1..]
    ensures (t == [] || t[0] !in "+-") ==> body == t
  {
    if t != [] && (t[0] == '-' || t[0] == '+') then t[1..] else t
  }

  /** The decimal text of a natural number, as `String(n)` writes it. */
  function NatText(n: nat): (d: string)
    ensures d != [] && AllDigits(d)
    ensures DecimalValue(d) == n
  {
    var last := ['0' + ((n % 10) as char)];
    if n < 10 then
      assert DecimalValue(last[..0]) == 0;
      last
    else
      var d := NatText(n / 10) + last;
      assert d[..|d| - 1] == NatText(n / 10);
      d
  }

  /** The decimal text of an integer, as `String(n)` writes it. */
  function IntText(n: int): string {
    if n < 0 then "-" + NatText(-n) else NatText(n)
  }

  /** `parseInt` reads back what `String` writes. */
  lemma ParseIntOfIntText(n: int)
    ensures ParseInt(IntText(n)) == Int(n)
  {
    if n < 0 {
      ParseIntOfDigits(NatText(-n), true);
    } else {
      ParseIntOfDigits(NatText(n), false);
    }
  }

  /** A run of digits, with or without a minus sign in front, reads as its value. */
  lemma ParseIntOfDigits(d: string, negative: bool)
    requires d != [] && AllDigits(d)
    ensures var v: int := DecimalValue(d);
      ParseInt(if negative then "-" + d else d) == Int(if negative then -v else v)
  {
    DigitRunOfDigits(d);
    assert d[..|d|] == d;
    if negative {
      var s := "-" + d;
      assert s[0] == '-' && s[1..] == d;
      TrimStartOfNonBlank(s);
    } else {
      assert '0' <= d[0] <= '9';
      TrimStartOfNonBlank(d);
    }
  }

  lemma TrimStartOfNonBlank(s: string)
    requires s != [] && !IsWhitespace(s[0])
    ensures TrimStart(s) == s
  {
  }

  lemma {:induction false} DigitRunOfDigits(d: string)
    requires AllDigits(d)
    ensures DigitRunLength(d) == |d|
  {
    if d != [] {
      DigitRunOfDigits(d[1..]);
    }
  }

  /** The text "0" reads as zero. */
  lemma ParseIntOfZeroText()
    ensures ParseInt("0") == Int(0)
  {
    var z := "0";
    assert !IsWhitespace(z[0]) && TrimStart(z) == z;
    assert IsDigit(z[0]) && z[1..] == [];
    assert DigitRunLength(z) == 1;
    assert z[..1] == z && z[..0] == [];
    assert DecimalValue(z) == 0;
  }

  /** A string whose first non-blank character is neither a sign nor a digit reads as NaN. */
  lemma ParseIntOfNonNumeric(s: string)
    requires TrimStart(s) == [] || (TrimStart(s)[0] !in "+-" && !IsDigit(TrimStart(s)[0]))
    ensures ParseInt(s) == NaN
  {
  }

  /**
   * Leading white space, a run of digits and any text that does not go on
   * with a digit (`" 4"`, `"4점"`, `"12abc"`) read as the value of the run.
   */
  lemma ParseIntOfPrefix(ws: string, d: string, rest: string)
    requires AllWhitespace(ws)
    requires d != [] && AllDigits(d)
    requires rest == [] || !IsDigit(rest[0])
    ensures ParseInt(ws + (d + rest)) == Int(DecimalValue(d))
  {
    assert IsDigit((d + rest)[0]);
    ParseIntOfDigitsThen(d, rest);
    ParseIntAfterBlanks(ws + (d + rest), ws, d + rest);
  }

  /** The same with a minus sign before the digits: `" -4점"` reads as -4. */
  lemma ParseIntOfMinusPrefix(ws: string, d: string, rest: string)
    requires AllWhitespace(ws)
    requires d != [] && AllDigits(d)
    requires rest == [] || !IsDigit(rest[0])
    ensures ParseInt(ws + ("-" + (d + rest))) == Int(-(DecimalValue(d) as int))
  {
    var t := "-" + (d + rest);
    assert t[1..] == d + rest;
    ParseIntOfMinusRun(t, d + rest, d, rest);
    ParseIntAfterBlanks(ws + t, ws, t);
  }

  /** Leading white space does not change what `parseInt` reads. */
  lemma ParseIntAfterBlanks(s: string, ws: string, t: string)
    requires s == ws + t && AllWhitespace(ws)
    requires t != [] && !IsWhitespace(t[0])
    ensures ParseInt(s) == ParseInt(t)
  {
    TrimStartSkips(ws, t);
    TrimStartOfNonBlank(t);
  }

  /** A run of digits followed by text that does not go on with a digit. */
  lemma ParseIntOfDigitsThen(d: string, rest: string)
    requires d != [] && AllDigits(d)
    requires rest == [] || !IsDigit(rest[0])
    ensures ParseInt(d + rest) == Int(DecimalValue(d))
  {
    var b := d + rest;
    DigitRunOfPrefix(d, rest);
    assert b[..|d|] == d && IsDigit(b[0]);
    TrimStartOfNonBlank(b);
    assert Unsigned(b) == b;
  }

  /** The same behind a minus sign. */
  lemma ParseIntOfMinusRun(t: string, b: string, d: string, rest: string)
    requires d != [] && AllDigits(d)
    requires rest == [] || !IsDigit(rest[0])
    requires b == d + rest && t != [] && t[0] == '-' && t[1..] == b
    ensures ParseInt(t) == Int(-(DecimalValue(d) as int))
  {
    DigitRunOfPrefix(d, rest);
    assert b[..|d|] == d;
    TrimStartOfNonBlank(t);
    assert Unsigned(t) == b;
  }

  lemma {:induction false} TrimStartSkips(ws: string, t: string)
    requires AllWhitespace(ws)
    requires t == [] || !IsWhitespace(t[0])
    ensures TrimStart(ws + t) == t
  {
    if ws != [] {
      assert (ws + t)[1..] == ws[1..] + t;
      TrimStartSkips(ws[1..], t);
    } else {
      assert ws + t == t;
    }
  }

  lemma {:induction false} DigitRunOfPrefix(d: string, rest: string)
    requires AllDigits(d)
    requires rest == [] || !IsDigit(rest[0])
    ensures DigitRunLength(d + rest) == |d|
  {
    if d != [] {
      assert (d + rest)[1..] == d[1..] + rest;
      DigitRunOfPrefix(d[1..], rest);
    } else {
      assert d + rest == rest;
    }
  }
}
