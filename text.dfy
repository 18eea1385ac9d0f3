/** Python string behaviour the program relies on: `str.isspace`, `str.split()`,
    `str.strip()`, `" ".join`, `str(int)`, `int(str)`, ASCII `lower()`, and the
    byte-wise text ordering SQLite uses for `ORDER BY created`. */
module Text {
  import opened Wrappers

  /** Python's `str.isspace` for one character. */
  predicate IsSpace(c: char) {
    var n := c as int;
    n == 0x20 || 0x09 <= n <= 0x0D || 0x1C <= n <= 0x1F || n == 0x85 || n == 0xA0
    || n == 0x1680 || 0x2000 <= n <= 0x200A || n == 0x2028 || n == 0x2029
    || n == 0x202F || n == 0x205F || n == 0x3000
  }

  predicate NoSpace(s: string) {
    forall k :: 0 <= k < |s| ==> !IsSpace(s[k])
  }

  predicate AllSpace(s: string) {
    forall k :: 0 <= k < |s| ==> IsSpace(s[k])
  }

  /** Length of the run of non-whitespace characters at the front of `s`. */
  function WordLen(s: string): (n: nat)
    ensures n <= |s|
    ensures NoSpace(s[..n])
    ensures n < |s| ==> IsSpace(s[n])
  {
    if s == [] || IsSpace(s[0]) then 0 else 1 + WordLen(s[1..])
  }

  /** Python's `s.split()` with no separator: the maximal runs of non-whitespace. */
  function Words(s: string): (ws: seq<string>)
    ensures forall k :: 0 <= k < |ws| ==> ws[k] != [] && NoSpace(ws[k])
    decreases |s|
  {
    if s == [] then []
    else if IsSpace(s[0]) then Words(s[1..])
    else
      var n := WordLen(s);
      [s[..n]] + Words(s[n..])
  }

  /** Python's `sep.join(ws)`. */
  function Join(ws: seq<string>, sep: string): string {
    if ws == [] then ""
    else if |ws| == 1 then ws[0]
    else ws[0] + sep + Join(ws[1..], sep)
  }

  function LStrip(s: string): (r: string)
    ensures r == [] || !IsSpace(r[0])
  {
    if s != [] && IsSpace(s[0]) then LStrip(s[1..]) else s
  }

  function RStrip(s: string): (r: string)
    ensures r == [] || !IsSpace(r[|r| - 1])
  {
    if s != [] && IsSpace(s[|s| - 1]) then RStrip(s[..|s| - 1]) else s
  }

  /** Python's `s.strip()`. */
  function Strip(s: string): string {
    RStrip(LStrip(s))
  }

  lemma {:induction false} WordLenOfWord(w: string, t: string)
    requires NoSpace(w)
    requires t == [] || IsSpace(t[0])
    ensures WordLen(w + t) == |w|
  {
    if w != [] {
      assert (w + t)[1..] == w[1..] + t;
      WordLenOfWord(w[1..], t);
    }
  }

  /** A word followed by whitespace (or nothing) is split off as the first word. */
  lemma {:induction false} WordsOfWordThen(w: string, t: string)
    requires w != [] && NoSpace(w)
    requires t == [] || IsSpace(t[0])
    ensures Words(w + t) == [w] + Words(t)
  {
    WordLenOfWord(w, t);
    var s := w + t;
    assert s[..|w|] == w && s[|w|..] == t;
  }

  lemma {:induction false} WordsOfSpaces(s: string)
    requires AllSpace(s)
    ensures Words(s) == []
  {
    if s != [] {
      WordsOfSpaces(s[1..]);
    }
  }

  /** Trailing whitespace never produces a word. */
  lemma {:induction false} WordsIgnoreTrailingSpace(t: string, sp: string)
    requires AllSpace(sp)
    ensures Words(t + sp) == Words(t)
    decreases |t|
  {
    var s := t + sp;
    if t == [] {
      assert s == sp;
      WordsOfSpaces(sp);
    } else if IsSpace(t[0]) {
      assert s[1..] == t[1..] + sp;
      WordsIgnoreTrailingSpace(t[1..], sp);
    } else {
      var n := WordLen(t);
      var w, rest := t[..n], t[n..];
      assert t == w + rest && s == w + (rest + sp);
      assert rest + sp == [] || IsSpace((rest + sp)[0]);
      WordsOfWordThen(w, rest);
      WordsOfWordThen(w, rest + sp);
      WordsIgnoreTrailingSpace(rest, sp);
    }
  }

  lemma {:induction false} WordsOfLStrip(s: string)
    ensures Words(LStrip(s)) == Words(s)
  {
    if s != [] && IsSpace(s[0]) {
      WordsOfLStrip(s[1..]);
    }
  }

  lemma {:induction false} WordsOfRStrip(s: string)
    ensures Words(RStrip(s)) == Words(s)
  {
    if s != [] && IsSpace(s[|s| - 1]) {
      var init := s[..|s| - 1];
      WordsOfRStrip(init);
      assert s == init + [s[|s| - 1]];
      WordsIgnoreTrailingSpace(init, [s[|s| - 1]]);
    }
  }

  /** `s.strip().split() == s.split()`: stripping first changes nothing. */
  lemma WordsOfStrip(s: string)
    ensures Words(Strip(s)) == Words(s)
  {
    WordsOfLStrip(s);
    WordsOfRStrip(LStrip(s));
  }

  /** Round trip: splitting words joined by single spaces gives the words back. */
  lemma {:induction false} WordsOfJoin(ws: seq<string>)
    requires forall k :: 0 <= k < |ws| ==> ws[k] != [] && NoSpace(ws[k])
    ensures Words(Join(ws, " ")) == ws
  {
    if |ws| == 1 {
      WordsOfWordThen(ws[0], []);
      assert ws[0] + [] == ws[0];
    } else if |ws| > 1 {
      var rest := Join(ws[1..], " ");
      assert ws[0] + " " + rest == ws[0] + (" " + rest);
      WordsOfWordThen(ws[0], " " + rest);
      assert (" " + rest)[1..] == rest;
      WordsOfJoin(ws[1..]);
      assert ws == [ws[0]] + ws[1..];
    }
  }

  // ---------------------------------------------------------------- integers

  predicate IsDigit(c: char) {
    '0' <= c <= '9'
  }

  predicate AllDigits(s: string) {
    forall k :: 0 <= k < |s| ==> IsDigit(s[k])
  }

  function DigitChar(d: nat): (c: char)
    requires d < 10
    ensures IsDigit(c) && (c as int) - ('0' as int) == d
  {
    (('0' as int) + d) as char
  }

  /** Decimal digits of `n`, most significant first, without leading zeros. */
  function NatToStr(n: nat): (s: string)
    ensures s != []
  {
    if n < 10 then [DigitChar(n)] else NatToStr(n / 10) + [DigitChar(n % 10)]
  }

  /** `str(n)` of a natural number is all digits. */
  lemma {:induction false} NatToStrDigits(n: nat)
    ensures AllDigits(NatToStr(n))
  {
    if n >= 10 {
      NatToStrDigits(n / 10);
    }
  }

  /** Python's `str(n)` for an integer. */
  function IntToStr(n: int): (s: string)
    ensures s != []
  {
    if n < 0 then "-" + NatToStr(-n) else NatToStr(n)
  }

  function DigitsValue(s: string): nat
    requires AllDigits(s)
  {
    if s == [] then 0 else DigitsValue(s[..|s| - 1]) * 10 + ((s[|s| - 1] as int) - ('0' as int))
  }

  /** A decimal integer literal: optional sign, then one or more ASCII digits
      (leading zeros allowed). */
  function ParseDecimal(s: string): (r: Option<int>)
    ensures r.Some? ==> s != []
  {
    if s != [] && (s[0] == '-' || s[0] == '+') then
      if |s| > 1 && AllDigits(s[1..]) then
        Some(if s[0] == '-' then -(DigitsValue(s[1..]) as int) else DigitsValue(s[1..]))
      else None
    else if s != [] && AllDigits(s) then Some(DigitsValue(s))
    else None
  }

  /** Python's `int(s)`: surrounding whitespace is ignored, `None` is a ValueError. */
  function PyInt(s: string): Option<int> {
    ParseDecimal(Strip(s))
  }

  lemma {:induction false} DigitsOfNat(n: nat)
    ensures AllDigits(NatToStr(n)) && DigitsValue(NatToStr(n)) == n
  {
    NatToStrDigits(n);
    if n >= 10 {
      DigitsOfNat(n / 10);
      var s := NatToStr(n);
      assert s[..|s| - 1] == NatToStr(n / 10);
    }
  }

  /** Round trip: the integer literal `str(n)` reads back as `n`. */
  lemma ParseIntToStr(n: int)
    ensures ParseDecimal(IntToStr(n)) == Some(n)
  {
    if n < 0 {
      DigitsOfNat(-n);
      assert IntToStr(n)[1..] == NatToStr(-n);
    } else {
      DigitsOfNat(n);
      assert IsDigit(NatToStr(n)[0]);
    }
  }

  // ---------------------------------------------------------------- SQLite numeric text

  /** The characters SQLite skips around a number written as text. */
  predicate IsSqlSpace(c: char) {
    c == ' ' || '\t' <= c <= '\r'
  }

  function SqlTrimStart(s: string): string {
    if s != [] && IsSqlSpace(s[0]) then SqlTrimStart(s[1..]) else s
  }

  function SqlTrimEnd(s: string): string {
    if s != [] && IsSqlSpace(s[|s| - 1]) then SqlTrimEnd(s[..|s| - 1]) else s
  }

  /** Length of the run of ASCII digits at the front of `s`. */
  function DigitRun(s: string): (n: nat)
    ensures n <= |s| && AllDigits(s[..n])
    ensures n < |s| ==> !IsDigit(s[n])
  {
    if s == [] || !IsDigit(s[0]) then 0 else 1 + DigitRun(s[1..])
  }

  function Pow10(k: nat): (p: nat)
    ensures p >= 1
  {
    if k == 0 then 1 else 10 * Pow10(k - 1)
  }

  /** The exponent part of a numeric literal: nothing (exponent 0), or `e`/`E`, an optional
      sign and at least one digit. */
  function SqlExponent(s: string): Option<int> {
    if s == [] then Some(0)
    else if s[0] != 'e' && s[0] != 'E' then None
    else
      var e := s[1..];
      var digits := if e != [] && (e[0] == '-' || e[0] == '+') then e[1..] else e;
      if digits != [] && AllDigits(digits) then
        Some(if e[0] == '-' then -(DigitsValue(digits) as int) else DigitsValue(digits))
      else None
  }

  /** An unsigned numeric literal (digits, an optional `.` and fraction digits, at least one
      digit in all, an optional exponent) whose value is a whole number: that number. */
  function SqlUnsigned(u: string): Option<int> {
    var n := DigitRun(u);
    var afterWhole := u[n..];
    var afterPoint := if afterWhole != [] && afterWhole[0] == '.' then afterWhole[1..] else afterWhole;
    var m := DigitRun(afterPoint);
    if n + m == 0 then None
    else
      match SqlExponent(afterPoint[m..])
      case None => None
      case Some(e) =>
        var mantissa := DigitsValue(u[..n] + afterPoint[..m]);
        var scale := e - m;
        if scale >= 0 then Some(mantissa * Pow10(scale))
        else if mantissa % Pow10(-scale) == 0 then Some(mantissa / Pow10(-scale))
        else None
  }

  /** The integer SQLite reads a text value as when comparing it with an INTEGER column:
      surrounding spaces are skipped, and an integer literal or a real literal whose value is
      a whole number reads as that number. Any other text stays text and equals no integer. */
  function SqlInteger(s: string): (r: Option<int>)
    ensures r.Some? ==> s != []
  {
    var t := SqlTrimEnd(SqlTrimStart(s));
    if t != [] && (t[0] == '-' || t[0] == '+') then
      match SqlUnsigned(t[1..])
      case None => None
      case Some(v) => Some(if t[0] == '-' then -v else v)
    else SqlUnsigned(t)
  }

  lemma {:induction false} DigitRunOfDigits(s: string)
    requires AllDigits(s)
    ensures DigitRun(s) == |s|
  {
    if s != [] {
      DigitRunOfDigits(s[1..]);
    }
  }

  /** A run of digits reads as its decimal value. */
  lemma SqlUnsignedOfDigits(u: string)
    requires u != [] && AllDigits(u)
    ensures SqlUnsigned(u) == Some(DigitsValue(u))
  {
    DigitRunOfDigits(u);
    assert u[|u|..] == [] && u[..|u|] == u;
    var afterPoint := u[|u|..];
    assert afterPoint[..0] == [] && afterPoint[0..] == [];
    assert u[..|u|] + afterPoint[..0] == u;
  }

  /** Every decimal integer literal reads in SQLite as the number Python's `int()` gives. */
  lemma DecimalIsSqlInteger(s: string)
    requires ParseDecimal(s).Some?
    ensures SqlInteger(s) == ParseDecimal(s)
  {
    assert !IsSqlSpace(s[0]) && !IsSqlSpace(s[|s| - 1]);
    assert SqlTrimStart(s) == s;
    assert SqlTrimEnd(s) == s;
    if s[0] == '-' || s[0] == '+' {
      SqlUnsignedOfDigits(s[1..]);
    } else {
      SqlUnsignedOfDigits(s);
    }
  }

  /** Round trip: the text `str(n)` reads back in SQLite as `n`. */
  lemma SqlIntegerOfIntToStr(n: int)
    ensures SqlInteger(IntToStr(n)) == Some(n)
  {
    ParseIntToStr(n);
    DecimalIsSqlInteger(IntToStr(n));
  }

  /** "04" differs from "4" as text but reads as 4. */
  lemma SqlIntegerZeroPadded()
    ensures SqlInteger("04") == Some(4)
  {
    assert SqlTrimEnd(SqlTrimStart("04")) == "04";
    SqlUnsignedOfDigits("04");
    assert DigitsValue("04") == DigitsValue("0") * 10 + 4;
  }

  /** Real literals with a whole value read as that integer. */
  lemma SqlIntegerWholeReal()
    ensures SqlInteger("4.0") == Some(4)
    ensures SqlInteger("40e-1") == Some(4)
  {
    assert SqlTrimEnd(SqlTrimStart("4.0")) == "4.0";
    assert SqlUnsigned("4.0") == Some(4) by {
      assert DigitRun("4.0") == 1 by { assert DigitRun("4.0"[1..]) == 0; }
      assert "4.0"[1..][1..] == "0";
      assert DigitRun("0") == 1;
      assert "4.0"[..1] + "0"[..1] == "40";
      assert DigitsValue("40") == DigitsValue("4") * 10;
    }
    assert SqlTrimEnd(SqlTrimStart("40e-1")) == "40e-1";
    assert SqlUnsigned("40e-1") == Some(4) by {
      assert DigitRun("40e-1") == 2 by { assert DigitRun("40e-1"[1..]) == 1; assert DigitRun("40e-1"[2..]) == 0; }
      assert "40e-1"[2..] == "e-1";
      assert DigitRun("e-1") == 0;
      assert "e-1"[1..] == "-1" && "-1"[1..] == "1";
      assert SqlExponent("e-1") == Some(-1) by {
        assert "1"[..0] == [];
        assert DigitsValue("1") == 1;
      }
      assert "40e-1"[..2] + "e-1"[..0] == "40";
      assert DigitsValue("40") == DigitsValue("4") * 10;
    }
  }

  /** A fraction, a hexadecimal literal and the wildcard read as no integer. */
  lemma SqlIntegerRejects()
    ensures SqlInteger("4.5") == None
    ensures SqlInteger("0x4") == None
    ensures SqlInteger("*") == None
  {
    assert SqlTrimEnd(SqlTrimStart("4.5")) == "4.5";
    assert SqlUnsigned("4.5") == None by {
      assert DigitRun("4.5") == 1 by { assert DigitRun("4.5"[1..]) == 0; }
      assert "4.5"[1..][1..] == "5";
      assert DigitRun("5") == 1;
      assert "4.5"[..1] + "5"[..1] == "45";
      assert DigitsValue("45") == DigitsValue("4") * 10 + 5;
    }
    assert SqlTrimEnd(SqlTrimStart("0x4")) == "0x4";
    assert SqlUnsigned("0x4") == None by {
      assert DigitRun("0x4") == 1 by { assert DigitRun("0x4"[1..]) == 0; }
      assert "0x4"[1..] == "x4";
      assert DigitRun("x4") == 0;
    }
    assert SqlTrimEnd(SqlTrimStart("*")) == "*";
  }

  // ---------------------------------------------------------------- case and order

  function LowerChar(c: char): char {
    if 'A' <= c <= 'Z' then ((c as int) + 32) as char else c
  }

  /** `s.lower()` on ASCII letters. */
  function Lower(s: string): (r: string)
    ensures |r| == |s|
  {
    seq(|s|, k requires 0 <= k < |s| => LowerChar(s[k]))
  }

  /** Strict lexicographic order by code point: SQLite's BINARY collation on UTF-8 text. */
  predicate Before(a: string, b: string) {
    if a == [] then b != []
    else if b == [] then false
    else a[0] < b[0] || (a[0] == b[0] && Before(a[1..], b[1..]))
  }

  predicate AtOrBefore(a: string, b: string) {
    a == b || Before(a, b)
  }

  lemma {:induction false} BeforeIrreflexive(a: string)
    ensures !Before(a, a)
  {
    if a != [] {
      BeforeIrreflexive(a[1..]);
    }
  }

  lemma {:induction false} BeforeTransitive(a: string, b: string, c: string)
    requires Before(a, b) && Before(b, c)
    ensures Before(a, c)
  {
    if a != [] && a[0] == b[0] && b[0] == c[0] {
      BeforeTransitive(a[1..], b[1..], c[1..]);
    }
  }

  lemma AtOrBeforeThenBefore(a: string, b: string, c: string)
    requires AtOrBefore(a, b) && Before(b, c)
    ensures Before(a, c)
  {
    if a != b {
      BeforeTransitive(a, b, c);
    }
  }
}
