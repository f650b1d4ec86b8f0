/**
 * The small parts of Go's `strings` and `fmt` packages that the plugin relies on:
 * lower-casing a level name, rendering the variadic arguments of a log call, and
 * printing a non-negative integer with `%d`.
 */
module GoText {

  /**
   * The runes that `unicode.ToLower` maps into ASCII: the capitals A–Z, the
   * capital I with a dot above (U+0130) and the Kelvin sign (U+212A).
   */
  predicate Folds(c: char) {
    'A' <= c <= 'Z' || c == '\U{130}' || c == '\U{212A}'
  }

  /** `unicode.ToLower` on the runes that it maps into ASCII; every other rune is kept. */
  function LowerRune(c: char): (d: char)
    ensures 'A' <= c <= 'Z' ==> d as int == c as int + 32
    ensures c == '\U{130}' ==> d == 'i'
    ensures c == '\U{212A}' ==> d == 'k'
    ensures !Folds(c) ==> d == c
  {
    if 'A' <= c <= 'Z' then (c as int + 32) as char
    else if c == '\U{130}' then 'i'   // LATIN CAPITAL LETTER I WITH DOT ABOVE
    else if c == '\U{212A}' then 'k'  // KELVIN SIGN
    else c
  }

  /** `strings.ToLower`, rune by rune. */
  function ToLower(s: string): (r: string)
    ensures |r| == |s|
    ensures forall i :: 0 <= i < |s| && 'A' <= s[i] <= 'Z' ==> r[i] as int == s[i] as int + 32
    ensures forall i :: 0 <= i < |s| && s[i] == '\U{130}' ==> r[i] == 'i'
    ensures forall i :: 0 <= i < |s| && s[i] == '\U{212A}' ==> r[i] == 'k'
    ensures forall i :: 0 <= i < |s| && !Folds(s[i]) ==> r[i] == s[i]
  {
    seq(|s|, i requires 0 <= i < |s| => LowerRune(s[i]))
  }

  /** Lower-casing twice is lower-casing once. */
  lemma ToLowerIdempotent(s: string)
    ensures ToLower(ToLower(s)) == ToLower(s)
  {
    var r := ToLower(s);
    forall i | 0 <= i < |r| ensures !Folds(r[i]) {
      if !Folds(s[i]) {
        assert r[i] == s[i];
      }
    }
  }

  /** A string is already lower-case exactly when it holds no rune that lower-casing changes. */
  lemma ToLowerFixpoint(s: string)
    ensures ToLower(s) == s <==> forall i :: 0 <= i < |s| ==> !Folds(s[i])
  {
    var r := ToLower(s);
    if r == s {
      forall i | 0 <= i < |s| ensures !Folds(s[i]) {
        assert r[i] == s[i];
      }
    }
  }

  predicate IsDigits(s: string) {
    forall i :: 0 <= i < |s| ==> '0' <= s[i] <= '9'
  }

  function DigitChar(d: nat): (c: char)
    requires d < 10
    ensures '0' <= c <= '9' && c as int - '0' as int == d
  {
    ('0' as int + d) as char
  }

  /** `%d` of a non-negative integer. */
  function Decimal(n: nat): (s: string)
    ensures |s| > 0 && IsDigits(s)
    ensures s[0] == '0' ==> n == 0 && s == "0"
    decreases n
  {
    if n < 10 then [DigitChar(n)] else Decimal(n / 10) + [DigitChar(n % 10)]
  }

  /** The value a string of decimal digits denotes; the inverse of Decimal. */
  function DecimalValue(s: string): nat
    requires IsDigits(s)
    decreases |s|
  {
    if s == [] then 0 else DecimalValue(s[..|s| - 1]) * 10 + (s[|s| - 1] as int - '0' as int)
  }

  lemma {:induction false} DecimalRoundTrip(n: nat)
    ensures DecimalValue(Decimal(n)) == n
    decreases n
  {
    if n >= 10 {
      DecimalRoundTrip(n / 10);
      var s := Decimal(n);
      assert s[..|s| - 1] == Decimal(n / 10);
    }
  }

  /**
   * One operand of a variadic log call: the text that fmt's `%v` gives it, and
   * whether its dynamic type is a string (which decides spacing in Sprint).
   */
  datatype Value = Value(text: string, isString: bool)

  /** `fmt.Sprint`: operands are concatenated, with a space only between two non-strings. */
  function Sprint(v: seq<Value>): string
    decreases |v|
  {
    if v == [] then ""
    else
      var sep := if |v| >= 2 && !v[|v| - 2].isString && !v[|v| - 1].isString then " " else "";
      Sprint(v[..|v| - 1]) + sep + v[|v| - 1].text
  }

  /**
   * `fmt.Sprintf` for one-letter verbs without flags or widths: `%%` is a
   * percent sign, any other verb takes the next operand's text, a verb with no
   * operand left prints `%!<verb>(MISSING)` and a trailing `%` prints `%!(NOVERB)`.
   */
  function Sprintf(format: string, v: seq<Value>): string
    decreases |format|
  {
    if format == [] then ""
    else if format[0] != '%' then [format[0]] + Sprintf(format[1..], v)
    else if |format| == 1 then "%!(NOVERB)"
    else if format[1] == '%' then "%" + Sprintf(format[2..], v)
    else if v == [] then "%!" + [format[1]] + "(MISSING)" + Sprintf(format[2..], v)
    else v[0].text + Sprintf(format[2..], v[1..])
  }
}
