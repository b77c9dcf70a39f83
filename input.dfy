/**
 * How the application turns a console line into a value: blank lines are
 * absent, other lines are trimmed, and numbers are read with the rules of
 * `Integer.valueOf` and `new BigDecimal(...).setScale(2)`. The console is the
 * sequence of lines still to be read.
 */
module Input {
  import opened Entities

  // ---------------------------------------------------------------------------
  // isBlank and trim

  /** `Character.isWhitespace`: Unicode space separators other than the no-break ones, and the ASCII controls it names. */
  predicate IsWhitespace(c: char) {
    || c == ' ' || c == '\U{1680}' || ('\U{2000}' <= c <= '\U{2006}') || ('\U{2008}' <= c <= '\U{200A}')
    || c == '\U{205F}' || c == '\U{3000}' || c == '\U{2028}' || c == '\U{2029}'
    || ('\t' <= c <= '\r') || ('\U{001C}' <= c <= '\U{001F}')
  }

  /** `String.isBlank`: empty, or white space only. */
  predicate IsBlank(s: string) {
    forall i :: 0 <= i < |s| ==> IsWhitespace(s[i])
  }

  /** What `String.trim` removes: a character at or below the space character. */
  predicate Trimmable(c: char) {
    c <= ' '
  }

  function TrimStart(s: string): (r: string)
    ensures |r| <= |s| && r == s[|s| - |r|..]
    ensures forall i :: 0 <= i < |s| - |r| ==> Trimmable(s[i])
    ensures r != [] ==> !Trimmable(r[0])
  {
    if s != [] && Trimmable(s[0]) then
      var r := TrimStart(s[1..]);
      assert s[1..][|s[1..]| - |r|..] == s[|s| - |r|..];
      r
    else s
  }

  function TrimEnd(s: string): (r: string)
    ensures |r| <= |s| && r == s[..|r|]
    ensures forall i :: |r| <= i < |s| ==> Trimmable(s[i])
    ensures r != [] ==> !Trimmable(r[|r| - 1])
  {
    if s != [] && Trimmable(s[|s| - 1]) then TrimEnd(s[..|s| - 1]) else s
  }

  /** `String.trim`. */
  function Trim(s: string): string {
    TrimEnd(TrimStart(s))
  }

  /**
   * The trimmed line is the line with its leading and trailing characters at
   * or below the space character removed, and no more.
   */
  lemma TrimSpec(s: string) returns (i: nat, j: nat)
    ensures var t := Trim(s);
      && i <= j <= |s| && t == s[i..j]
      && (forall k :: 0 <= k < i ==> Trimmable(s[k]))
      && (forall k :: j <= k < |s| ==> Trimmable(s[k]))
      && (t != [] ==> !Trimmable(t[0]) && !Trimmable(t[|t| - 1]))
  {
    var a := TrimStart(s);
    var t := TrimEnd(a);
    assert Trim(s) == t;
    i := |s| - |a|;
    j := i + |t|;
    Window(s, a, t);
    assert t == s[i..j];
    assert forall k :: 0 <= k < i ==> Trimmable(s[k]);
    assert forall k :: j <= k < |s| ==> Trimmable(s[k]);
    assert t != [] ==> !Trimmable(a[0]) && !Trimmable(t[|t| - 1]);
  }

  /** A prefix `t` of a suffix `a` of `s`, followed in `a` by trimmable characters only. */
  lemma Window(s: string, a: string, t: string)
    requires |a| <= |s| && a == s[|s| - |a|..]
    requires |t| <= |a| && t == a[..|t|]
    requires forall k :: |t| <= k < |a| ==> Trimmable(a[k])
    ensures var i := |s| - |a|;
      && t == s[i..i + |t|]
      && (forall k :: i + |t| <= k < |s| ==> Trimmable(s[k]))
      && (t != [] ==> t[0] == a[0])
  {
    var i := |s| - |a|;
    forall k | i + |t| <= k < |s| ensures Trimmable(s[k]) {
      assert s[k] == a[k - i];
    }
  }

  /** `input.isBlank() ? null : input.trim()`. */
  function Normalise(line: string): (r: Option<string>)
    ensures r.None? <==> IsBlank(line)
    ensures r.Some? ==> r.value == Trim(line)
  {
    if IsBlank(line) then None else Some(Trim(line))
  }

  /**
   * The two Java tests disagree on the characters at or below the space that
   * are not white space, such as NUL: such a line is not blank, yet trims to
   * the empty string.
   */
  lemma NulLineIsPresentButEmpty()
    ensures Normalise("\0") == Some("")
    ensures Normalise(" \t ") == None
  {
    assert "\0"[0] == '\0' && !IsWhitespace('\0');
    assert IsBlank(" \t ") by {
      forall i | 0 <= i < 3 ensures IsWhitespace(" \t "[i]) {
      }
    }
  }

  /** A line without any character at or below the space is kept as it is. */
  lemma NormaliseKeepsPlainText(line: string)
    requires !IsBlank(line) && forall i :: 0 <= i < |line| ==> !Trimmable(line[i])
    ensures Normalise(line) == Some(line)
  {
    var i, j := TrimSpec(line);
  }

  // ---------------------------------------------------------------------------
  // Integer.valueOf

  const MinInt32: int := -0x8000_0000
  const MaxInt32: int := 0x7FFF_FFFF

  predicate IsDigit(c: char) {
    '0' <= c <= '9'
  }

  predicate AllDigits(s: string) {
    forall i :: 0 <= i < |s| ==> IsDigit(s[i])
  }

  function DigitValue(c: char): nat
    requires IsDigit(c)
  {
    (c as int) - ('0' as int)
  }

  /** The number a run of decimal digits denotes. */
  function DigitsValue(s: string): nat
    requires AllDigits(s)
  {
    if s == [] then 0 else DigitsValue(s[..|s| - 1]) * 10 + DigitValue(s[|s| - 1])
  }

  /** An optional `+` or `-` in front: whether it negates, and what follows. */
  function SplitSign(s: string): (r: (bool, string))
    ensures |r.1| <= |s|
  {
    if s != [] && s[0] == '-' then (true, s[1..])
    else if s != [] && s[0] == '+' then (false, s[1..])
    else (false, s)
  }

  /** The value of digits behind a sign. */
  function Signed(negative: bool, digits: string): int
    requires AllDigits(digits)
  {
    if negative then -(DigitsValue(digits) as int) else DigitsValue(digits)
  }

  /** `Integer.valueOf`: an optional sign and at least one digit, within the range of `int`. */
  function ParseInt(s: string): (r: Option<int>)
    ensures r.Some? <==> var (negative, digits) := SplitSign(s);
      digits != [] && AllDigits(digits) && MinInt32 <= Signed(negative, digits) <= MaxInt32
    ensures r.Some? ==> var (negative, digits) := SplitSign(s);
      AllDigits(digits) && r.value == Signed(negative, digits)
    ensures r.Some? ==> s != [] && MinInt32 <= r.value <= MaxInt32
  {
    var (negative, digits) := SplitSign(s);
    if digits == [] || !AllDigits(digits) then None
    else
      var v := Signed(negative, digits);
      if MinInt32 <= v <= MaxInt32 then Some(v) else None
  }

  function DigitChar(d: nat): (c: char)
    requires d < 10
    ensures IsDigit(c) && DigitValue(c) == d
  {
    ('0' as int + d) as char
  }

  function ShowNat(n: nat): (r: string)
    ensures r != [] && AllDigits(r)
  {
    if n < 10 then [DigitChar(n)] else ShowNat(n / 10) + [DigitChar(n % 10)]
  }

  /** `Integer.toString`: the text a number is printed as. */
  function Show(n: int): string {
    if n < 0 then "-" + ShowNat(-n) else ShowNat(n)
  }

  lemma {:induction false} ShowNatValue(n: nat)
    ensures DigitsValue(ShowNat(n)) == n
  {
    if n >= 10 {
      ShowNatValue(n / 10);
      var s := ShowNat(n);
      assert s[..|s| - 1] == ShowNat(n / 10);
    }
  }

  /** Every `int` read back from its printed form is itself. */
  lemma ParseShow(n: int)
    requires MinInt32 <= n <= MaxInt32
    ensures ParseInt(Show(n)) == Some(n)
  {
    var m := if n < 0 then -n else n;
    ShowNatValue(m);
    assert IsDigit(ShowNat(m)[0]);
    if n < 0 {
      assert Show(n)[1..] == ShowNat(m);
    }
    assert SplitSign(Show(n)) == (n < 0, ShowNat(m));
    assert Signed(n < 0, ShowNat(m)) == n;
  }

  // ---------------------------------------------------------------------------
  // new BigDecimal(text).setScale(2)

  /** The first position of `e` or `E` in `s`, or `|s|`. */
  function ExponentAt(s: string): (k: nat)
    ensures k <= |s| && (k < |s| ==> s[k] in "eE")
    ensures forall i :: 0 <= i < k ==> s[i] !in "eE"
  {
    if s == [] then 0 else if s[0] in "eE" then 0 else 1 + ExponentAt(s[1..])
  }

  /** The first position of `.` in `s`, or `|s|`. */
  function PointAt(s: string): (k: nat)
    ensures k <= |s| && (k < |s| ==> s[k] == '.')
    ensures forall i :: 0 <= i < k ==> s[i] != '.'
  {
    if s == [] then 0 else if s[0] == '.' then 0 else 1 + PointAt(s[1..])
  }

  /**
   * `new BigDecimal(text)`: an optional sign, digits with at most one point and
   * at least one digit, then optionally `e` or `E` and a signed exponent. The
   * value is `unscaled * 10^-scale`, `scale` being the number of fraction
   * digits less the exponent.
   */
  function ParseDecimal(s: string): (r: Option<(int, int)>)
    ensures r.Some? ==> s != []
  {
    var (negative, body) := SplitSign(s);
    var e := ExponentAt(body);
    var mantissa := body[..e];
    var p := PointAt(mantissa);
    var whole := mantissa[..p];
    var fraction := if p < |mantissa| then mantissa[p + 1..] else [];
    var exponent := if e < |body| then ParseSigned(body[e + 1..]) else Some(0);
    if whole + fraction == [] || !AllDigits(whole + fraction) || exponent.None? then None
    else
      var digits := DigitsValue(whole + fraction);
      Some((if negative then -(digits as int) else digits, |fraction| - exponent.value))
  }

  /** The exponent of a decimal: an optional sign and at least one digit. */
  function ParseSigned(s: string): Option<int> {
    var (negative, digits) := SplitSign(s);
    if digits == [] || !AllDigits(digits) then None
    else Some(if negative then -(DigitsValue(digits) as int) else DigitsValue(digits))
  }

  function Pow10(n: nat): (r: nat)
    ensures r >= 1
  {
    if n == 0 then 1 else 10 * Pow10(n - 1)
  }

  /**
   * `setScale(2)` without a rounding mode: the value in hundredths, or
   * `ArithmeticException` when that would drop a nonzero digit.
   */
  function ToHundredths(unscaled: int, scale: int): (r: Result<Hours>)
    ensures r.Ok? ==> r.value * Pow10(if scale <= 2 then 0 else scale - 2) == unscaled * Pow10(if scale <= 2 then 2 - scale else 0)
    ensures r.Ok? <==> scale <= 2 || unscaled % Pow10(scale - 2) == 0
    ensures r.Err? ==> r.error == ArithmeticException
  {
    if scale <= 2 then Ok(unscaled * Pow10(2 - scale))
    else if unscaled % Pow10(scale - 2) == 0 then Ok(unscaled / Pow10(scale - 2))
    else Err(ArithmeticException)
  }

  // ---------------------------------------------------------------------------
  // One console line as the application reads it

  /** `getIntInput` on one line. */
  function IntOfLine(line: string): (r: Result<Option<int>>)
    ensures r.Ok? <==> IsBlank(line) || ParseInt(Trim(line)).Some?
    ensures r.Ok? ==> r.value == if IsBlank(line) then None else ParseInt(Trim(line))
    ensures r.Err? ==> r.error == DbException(NotAValidNumber(Trim(line)))
  {
    match Normalise(line)
    case None => Ok(None)
    case Some(text) =>
      match ParseInt(text)
      case Some(n) => Ok(Some(n))
      case None => Err(DbException(NotAValidNumber(text)))
  }

  /** `getDecimalInput` on one line; the `ArithmeticException` of `setScale` is not caught there. */
  function DecimalOfLine(line: string): (r: Result<Option<Hours>>)
    ensures IsBlank(line) ==> r == Ok(None)
    ensures !IsBlank(line) && ParseDecimal(Trim(line)).None? ==> r == Err(DbException(NotAValidDecimal(Trim(line))))
    ensures !IsBlank(line) && ParseDecimal(Trim(line)).Some? ==>
      var (u, sc) := ParseDecimal(Trim(line)).value;
      (r.Ok? <==> ToHundredths(u, sc).Ok?)
      && (r.Ok? ==> r.value.Some? && Ok(r.value.value) == ToHundredths(u, sc))
      && (r.Err? ==> r.error == ArithmeticException)
  {
    match Normalise(line)
    case None => Ok(None)
    case Some(text) =>
      match ParseDecimal(text)
      case None => Err(DbException(NotAValidDecimal(text)))
      case Some((unscaled, scale)) =>
        match ToHundredths(unscaled, scale)
        case Ok(h) => Ok(Some(h))
        case Err(e) => Err(e)
  }

  /** Digits and the point are kept by `trim` and are not white space. */
  lemma NumberTextIsPlain(s: string)
    requires s != [] && forall i :: 0 <= i < |s| ==> IsDigit(s[i]) || s[i] == '.'
    ensures Normalise(s) == Some(s)
  {
    assert !IsWhitespace(s[0]);
    NormaliseKeepsPlainText(s);
  }

  lemma NoExponent(s: string)
    requires forall i :: 0 <= i < |s| ==> IsDigit(s[i]) || s[i] == '.'
    ensures ExponentAt(s) == |s|
  {
  }

  /** Digits alone denote their value at scale 0. */
  lemma WholeDecimal(w: string)
    requires w != [] && AllDigits(w)
    ensures ParseDecimal(w) == Some((DigitsValue(w), 0))
  {
    assert IsDigit(w[0]);
    NoExponent(w);
    assert w[..|w|] == w && w + [] == w;
  }

  /** The text `<w>.<f>`: digits and one point, which sits at `|w|`. */
  lemma PointText(w: string, f: string)
    requires w != [] && AllDigits(w) && AllDigits(f)
    ensures var s := w + "." + f;
      && (forall i :: 0 <= i < |s| ==> IsDigit(s[i]) || s[i] == '.')
      && IsDigit(s[0]) && PointAt(s) == |w| && s[..|w|] == w && s[|w| + 1..] == f
  {
    var s := w + "." + f;
    forall i | 0 <= i < |s| ensures IsDigit(s[i]) || s[i] == '.' {
      if i < |w| {
        assert s[i] == w[i];
      } else if i > |w| {
        assert s[i] == f[i - |w| - 1];
      }
    }
    assert forall i :: 0 <= i < |w| ==> s[i] != '.' by {
      forall i | 0 <= i < |w| ensures s[i] != '.' {
        assert s[i] == w[i];
      }
    }
    assert s[|w|] == '.';
    assert s[..|w|] == w && s[|w| + 1..] == f;
  }

  /** Digits, a point and more digits denote all their digits scaled by the fraction's length. */
  lemma PlainDecimal(w: string, f: string)
    requires w != [] && AllDigits(w) && AllDigits(f)
    ensures ParseDecimal(w + "." + f) == Some((DigitsValue(w + f), |f|))
  {
    var s := w + "." + f;
    PointText(w, f);
    assert SplitSign(s) == (false, s);
    NoExponent(s);
    assert s[..|s|] == s;
  }

  /** A line kept as typed, which `BigDecimal` reads exactly at scale 2, gives that many hundredths. */
  lemma DecimalOfPlainText(s: string, unscaled: int, scale: int, h: Hours)
    requires Normalise(s) == Some(s) && ParseDecimal(s) == Some((unscaled, scale))
    requires ToHundredths(unscaled, scale) == Ok(h)
    ensures DecimalOfLine(s) == Ok(Some(h))
  {
  }

  /** A line of digits read as hours is that many whole hours. */
  lemma DecimalOfDigits(s: string)
    requires s != [] && AllDigits(s)
    ensures DecimalOfLine(s) == Ok(Some(100 * DigitsValue(s)))
  {
    NumberTextIsPlain(s);
    WholeDecimal(s);
    var v := DigitsValue(s);
    WholeToHundredths(v);
    DecimalOfPlainText(s, v, 0, 100 * v);
  }

  /** A value of scale 0 takes two zero decimals. */
  lemma WholeToHundredths(v: int)
    ensures ToHundredths(v, 0) == Ok(100 * v)
  {
    assert Pow10(2) == 100;
  }

  /** A line `<digits>.<two digits>` read as hours is the value of all its digits in hundredths. */
  lemma DecimalOfTwoPlaces(w: string, f: string)
    requires w != [] && AllDigits(w) && |f| == 2 && AllDigits(f)
    ensures DecimalOfLine(w + "." + f) == Ok(Some(DigitsValue(w + f)))
  {
    var s := w + "." + f;
    PointText(w, f);
    NumberTextIsPlain(s);
    PlainDecimal(w, f);
    assert Pow10(0) == 1;
    DecimalOfPlainText(s, DigitsValue(w + f), 2, DigitsValue(w + f));
  }

  /** A whole number typed as hours is that many hours. */
  lemma DecimalOfWholeNumber(n: nat)
    ensures DecimalOfLine(ShowNat(n)) == Ok(Some(100 * n))
  {
    ShowNatValue(n);
    DecimalOfDigits(ShowNat(n));
  }

  /** The text `<whole>.<two digits>` of an amount of hundredths. */
  function ShowHours(h: nat): string {
    ShowNat(h / 100) + "." + [DigitChar(h % 100 / 10), DigitChar(h % 100 % 10)]
  }

  /** Hours typed with two decimals, as the application prints them, read back as the same amount. */
  lemma DecimalOfShownHours(h: nat)
    ensures DecimalOfLine(ShowHours(h)) == Ok(Some(h))
  {
    var w := ShowNat(h / 100);
    var f := [DigitChar(h % 100 / 10), DigitChar(h % 100 % 10)];
    assert ShowHours(h) == w + "." + f;
    ShowNatValue(h / 100);
    DigitsOfAppend(w, f);
    HundredthsDigits(h);
    assert DigitsValue(w + f) == h;
    DecimalOfTwoPlaces(w, f);
  }

  lemma HundredthsDigits(h: nat)
    ensures h == h / 100 * 100 + h % 100 / 10 * 10 + h % 100 % 10
  {
  }

  lemma DigitsOfAppend(w: string, f: string)
    requires AllDigits(w) && |f| == 2 && AllDigits(f)
    ensures AllDigits(w + f)
    ensures DigitsValue(w + f) == DigitsValue(w) * 100 + DigitValue(f[0]) * 10 + DigitValue(f[1])
  {
    var s := w + f;
    assert s[..|s| - 1] == w + [f[0]];
    assert (w + [f[0]])[..|w|] == w;
  }

  // ---------------------------------------------------------------------------
  // The console

  /** A value read from the console, and the lines left after reading it. */
  datatype Read<T> = Read(result: Result<T>, rest: seq<string>)

  /** `Scanner.nextLine` on an exhausted console throws. */
  const NoLine: Error := NoSuchElementException(NoLineFound)

  /** `getStringInput`: one line consumed and normalised; an exhausted console throws. */
  function StringInput(lines: seq<string>): (r: Read<Option<string>>)
    ensures r.result.Err? <==> lines == []
    ensures r.result.Err? ==> r.result.error == NoLine && r.rest == []
    ensures lines != [] ==> r.rest == lines[1..]
    ensures r.result.Ok? ==> (r.result.value.None? <==> IsBlank(lines[0]))
    ensures r.result.Ok? && r.result.value.Some? ==> r.result.value.value == Trim(lines[0])
  {
    if lines == [] then Read(Err(NoLine), []) else Read(Ok(Normalise(lines[0])), lines[1..])
  }

  /** `getIntInput`: one line consumed; blank is null, a number its value, anything else throws. */
  function IntInput(lines: seq<string>): (r: Read<Option<int>>)
    ensures lines == [] ==> r.result == Err(NoLine) && r.rest == []
    ensures lines != [] ==> r.rest == lines[1..]
    ensures r.result.Ok? <==> lines != [] && (IsBlank(lines[0]) || ParseInt(Trim(lines[0])).Some?)
    ensures r.result.Ok? ==> (r.result.value.None? <==> IsBlank(lines[0]))
    ensures r.result.Ok? && r.result.value.Some? ==> r.result.value == ParseInt(Trim(lines[0]))
    ensures lines != [] && r.result.Err? ==> r.result.error == DbException(NotAValidNumber(Trim(lines[0])))
  {
    if lines == [] then Read(Err(NoLine), []) else Read(IntOfLine(lines[0]), lines[1..])
  }

  /**
   * `getDecimalInput`: one line consumed; blank is null, a decimal its value in
   * hundredths, text that is no decimal throws, and so does rounding.
   */
  function DecimalInput(lines: seq<string>): (r: Read<Option<Hours>>)
    ensures lines == [] ==> r.result == Err(NoLine) && r.rest == []
    ensures lines != [] ==> r.rest == lines[1..]
    ensures lines != [] && IsBlank(lines[0]) ==> r.result == Ok(None)
    ensures lines != [] && !IsBlank(lines[0]) && ParseDecimal(Trim(lines[0])).None? ==>
      r.result == Err(DbException(NotAValidDecimal(Trim(lines[0]))))
    ensures lines != [] && !IsBlank(lines[0]) && ParseDecimal(Trim(lines[0])).Some? ==>
      var (u, sc) := ParseDecimal(Trim(lines[0])).value;
      (r.result.Ok? <==> ToHundredths(u, sc).Ok?)
      && (r.result.Ok? ==> r.result.value == Some(ToHundredths(u, sc).value))
      && (r.result.Err? ==> r.result.error == ArithmeticException)
  {
    if lines == [] then Read(Err(NoLine), []) else Read(DecimalOfLine(lines[0]), lines[1..])
  }
}
