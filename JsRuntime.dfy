/**
 * The pieces of JavaScript's built-in behaviour that the tokenizer and the
 * parser lean on: which characters `Number(c)` accepts, `Number(text)` on
 * the texts a NUMBER token can hold, `String(n)` for the cursor value that
 * is appended to a STRING token, and `slice` on strings.
 */
module JsRuntime {

  /** An ASCII decimal digit (ECMA-262 DecimalDigit). */
  predicate IsDigit(c: char) {
    '0' <= c <= '9'
  }

  /**
   * ECMA-262 StrWhiteSpaceChar: WhiteSpace (TAB, VT, FF, ZWNBSP and the
   * Unicode category Zs) or LineTerminator (LF, CR, LS, PS).
   */
  predicate IsJsWhitespace(c: char) {
    // WhiteSpace
    || c == '\t' || c == '\U{B}' || c == '\U{C}' || c == '\U{FEFF}'
    // Zs
    || c == ' ' || c == '\U{A0}' || c == '\U{1680}' || ('\U{2000}' <= c <= '\U{200A}')
    || c == '\U{202F}' || c == '\U{205F}' || c == '\U{3000}'
    // LineTerminator
    || c == '\n' || c == '\r' || c == '\U{2028}' || c == '\U{2029}'
  }

  /**
   * A character whose one-character string `Number` does not turn into NaN:
   * a digit, or whitespace (which converts to 0). See NumCharIffNotNaN.
   */
  predicate IsNumChar(c: char): (b: bool)
    ensures b ==> c != '"'
    ensures c == ' ' || c == '\n' || c == '\t' ==> b
  {
    IsDigit(c) || IsJsWhitespace(c)
  }

  predicate AllDigits(d: string) {
    forall i :: 0 <= i < |d| ==> IsDigit(d[i])
  }

  predicate AllWhitespace(w: string) {
    forall i :: 0 <= i < |w| ==> IsJsWhitespace(w[i])
  }

  predicate AllNumChars(v: string) {
    forall i :: 0 <= i < |v| ==> IsNumChar(v[i])
  }

  function DigitValue(c: char): (k: nat)
    requires IsDigit(c)
    ensures k < 10
  {
    c as int - '0' as int
  }

  function DigitChar(k: nat): (c: char)
    requires k < 10
    ensures IsDigit(c) && DigitValue(c) == k
  {
    ('0' as int + k) as char
  }

  /** The value of a digit string, most significant digit first; "" is 0. */
  function DecimalValue(d: string): nat
    requires AllDigits(d)
  {
    if d == [] then 0 else 10 * DecimalValue(d[..|d| - 1]) + DigitValue(d[|d| - 1])
  }

  /** A digit string as `String(n)` writes it: non-empty, no leading zero. */
  predicate Canonical(d: string) {
    |d| >= 1 && AllDigits(d) && (d[0] == '0' ==> |d| == 1)
  }

  /** `String(n)` on a non-negative integer (the text `s += this._cursor` appends). */
  function NatToDecimal(n: nat): (d: string)
    ensures Canonical(d)
    ensures DecimalValue(d) == n
    ensures |d| == 1 <==> n < 10
  {
    if n < 10 then [DigitChar(n)]
    else
      var p := NatToDecimal(n / 10);
      var d := p + [DigitChar(n % 10)];
      assert d[..|d| - 1] == p;
      d
  }

  lemma DecimalValuePositive(d: string)
    requires AllDigits(d) && |d| >= 1 && d[0] != '0'
    ensures DecimalValue(d) >= 1
  {
    if |d| > 1 {
      DecimalValuePositive(d[..|d| - 1]);
    }
  }

  /** Reading a canonical digit string and writing it back gives the same text. */
  lemma {:induction false} DecimalRoundTrip(d: string)
    requires Canonical(d)
    ensures NatToDecimal(DecimalValue(d)) == d
  {
    if |d| > 1 {
      var p := d[..|d| - 1];
      DecimalValuePositive(p);
      DecimalRoundTrip(p);
      assert d == p + [d[|d| - 1]];
    }
  }

  /** Strips leading StrWhiteSpaceChar characters. */
  function TrimStart(w: string): (r: string)
    ensures |r| <= |w| && r == w[|w| - |r|..]
    ensures r == [] || !IsJsWhitespace(r[0])
    ensures AllWhitespace(w[..|w| - |r|])
  {
    if w != [] && IsJsWhitespace(w[0]) then TrimStart(w[1..]) else w
  }

  /** Strips trailing StrWhiteSpaceChar characters. */
  function TrimEnd(w: string): (r: string)
    ensures |r| <= |w| && r == w[..|r|]
    ensures r == [] || !IsJsWhitespace(r[|r| - 1])
    ensures AllWhitespace(w[|r|..])
  {
    if w != [] && IsJsWhitespace(w[|w| - 1]) then TrimEnd(w[..|w| - 1]) else w
  }

  /** A JavaScript number as far as this model needs one. */
  datatype JsNumber = Finite(n: nat) | NaN

  /**
   * `Number(text)` (ECMA-262 section 7.1.4.1.1, StringToNumber): the text
   * stripped of surrounding whitespace is either empty (0) or a
   * StrDecimalLiteral. Exact on texts of digits and whitespace, the only
   * texts a NUMBER token holds; every other text is taken as NaN.
   */
  function ToNumber(text: string): (r: JsNumber)
    ensures r != NaN ==> AllNumChars(text)
  {
    var core := TrimEnd(TrimStart(text));
    TrimmedDigitsAreNumChars(text);
    if core == [] then Finite(0)
    else if AllDigits(core) then Finite(DecimalValue(core))
    else NaN
  }

  /** A text whose trimmed core is digits (or empty) is digits and whitespace throughout. */
  lemma TrimmedDigitsAreNumChars(text: string)
    ensures AllDigits(TrimEnd(TrimStart(text))) ==> AllNumChars(text)
  {
    var t := TrimStart(text);
    var core := TrimEnd(t);
    var lead := |text| - |t|;
    if AllDigits(core) {
      forall i | 0 <= i < |text|
        ensures IsNumChar(text[i])
      {
        if i < lead {
          assert text[..lead][i] == text[i];
        } else if i - lead < |core| {
          assert core[i - lead] == text[i];
        } else {
          assert t[|core|..][i - lead - |core|] == text[i];
        }
      }
    }
  }

  lemma {:induction false} TrimStartOfWhitespace(w: string, x: string)
    requires AllWhitespace(w)
    requires x == [] || !IsJsWhitespace(x[0])
    ensures TrimStart(w + x) == x
  {
    if w != [] {
      assert (w + x)[1..] == w[1..] + x;
      TrimStartOfWhitespace(w[1..], x);
    }
  }

  lemma {:induction false} TrimEndOfWhitespace(x: string, w: string)
    requires AllWhitespace(w)
    requires x == [] || !IsJsWhitespace(x[|x| - 1])
    ensures TrimEnd(x + w) == x
  {
    if w != [] {
      assert (x + w)[..|x + w| - 1] == x + w[..|w| - 1];
      TrimEndOfWhitespace(x, w[..|w| - 1]);
    }
  }

  /** `Number(c)` is a number exactly for digits and whitespace. */
  lemma NumCharIffNotNaN(c: char)
    ensures IsNumChar(c) <==> ToNumber([c]) != NaN
  {
    if IsJsWhitespace(c) {
      TrimStartOfWhitespace([c], []);
    }
  }

  /** Whitespace on both sides of a digit run is ignored by `Number`. */
  lemma PaddedDigits(w1: string, d: string, w2: string)
    requires AllWhitespace(w1) && AllWhitespace(w2)
    requires AllDigits(d) && d != []
    ensures ToNumber(w1 + d + w2) == Finite(DecimalValue(d))
  {
    assert w1 + d + w2 == w1 + (d + w2);
    TrimStartOfWhitespace(w1, d + w2);
    TrimEndOfWhitespace(d, w2);
  }

  /** A bare digit run converts to its decimal value. */
  lemma DigitsToNumber(d: string)
    requires AllDigits(d) && d != []
    ensures ToNumber(d) == Finite(DecimalValue(d))
  {
    DigitIsNotWhitespace(d[0]);
    DigitIsNotWhitespace(d[|d| - 1]);
    assert TrimStart(d) == d;
    assert TrimEnd(d) == d;
  }

  /** Text of whitespace only converts to 0. */
  lemma BlankIsZero(w: string)
    requires AllWhitespace(w)
    ensures ToNumber(w) == Finite(0)
  {
    assert w + [] == w;
    TrimStartOfWhitespace(w, []);
  }

  lemma DigitIsNotWhitespace(c: char)
    ensures IsDigit(c) ==> !IsJsWhitespace(c)
  {
  }

  /** Whitespace between two digit runs makes `Number` give NaN. */
  lemma InnerWhitespaceIsNaN(d1: string, w: string, d2: string)
    requires AllDigits(d1) && AllDigits(d2) && d1 != [] && d2 != []
    requires AllWhitespace(w) && w != []
    ensures ToNumber(d1 + w + d2) == NaN
  {
    var v := d1 + w + d2;
    DigitIsNotWhitespace(d1[0]);
    DigitIsNotWhitespace(d2[|d2| - 1]);
    assert v[0] == d1[0];
    assert v[|v| - 1] == d2[|d2| - 1];
    assert TrimStart(v) == v;
    assert TrimEnd(v) == v;
    assert v[|d1|] == w[0];
    DigitIsNotWhitespace(w[0]);
  }

  /** `v.slice(1, -1)`: drops the first and the last character. */
  function SliceInner(v: string): (r: string)
    ensures |v| >= 2 ==> [v[0]] + r + [v[|v| - 1]] == v
    ensures |v| < 2 ==> r == []
  {
    if |v| < 2 then [] else v[1..|v| - 1]
  }

  /** `s.slice(c)` for a non-negative start: the suffix from c, or "" past the end. */
  function SliceFrom(s: string, c: nat): (r: string)
    ensures |r| == if c < |s| then |s| - c else 0
    ensures forall i :: 0 <= i < |r| ==> r[i] == s[c + i]
  {
    if c < |s| then s[c..] else []
  }
}
