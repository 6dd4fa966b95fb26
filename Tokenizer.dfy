/**
 * The pull-style lexer of src/Tokenizer.js: a string, a cursor into it,
 * and `getNextToken`, which recognises a NUMBER (a run of characters that
 * `Number` accepts one at a time: digits and whitespace) or a STRING
 * (starting at a double quote) and otherwise answers null.
 *
 * The lexer takes the suffix `str = s.slice(cursor)` but indexes it with the
 * absolute cursor, so both scans below are written over (s, str, absolute
 * index), exactly as the code reads.
 */
module Tokenizing {
  import opened Wrappers
  import opened JsRuntime

  const NUMBER: string := "NUMBER"
  const STRING: string := "STRING"

  /** `{type, value}`; the type is a string, as in the source. */
  datatype Token = Token(tokenType: string, value: string)

  /** What one `getNextToken` call yields (None for null) and where it leaves the cursor. */
  datatype Scan = Scan(token: Option<Token>, cursor: nat)

  /**
   * Where the numeric `while` loop stops when it starts at index i of str:
   * the end of the longest run of numeric characters from i.
   */
  function NumRunEnd(str: string, i: nat): (e: nat)
    ensures i <= e
    ensures e == i || e <= |str|
    ensures forall k :: i <= k < e ==> IsNumChar(str[k])
    ensures e < |str| ==> !IsNumChar(str[e])
    decreases |str| - i
  {
    if i < |str| && IsNumChar(str[i]) then NumRunEnd(str, i + 1) else i
  }

  /**
   * Where the string `do ... while` loop stops once it has reached index j:
   * the first index from j at which str holds a quote, or the end of s.
   */
  function QuoteScanEnd(s: string, str: string, j: nat): (e: nat)
    requires j <= |s|
    ensures j <= e <= |s|
    ensures e == |s| || (e < |str| && str[e] == '"')
    ensures forall k :: j <= k < e ==> k >= |str| || str[k] != '"'
    decreases |s| - j
  {
    if j == |s| || (j < |str| && str[j] == '"') then j else QuoteScanEnd(s, str, j + 1)
  }

  /**
   * One `getNextToken` call on string s with cursor c. The cursor never moves
   * back, ends at most one past the end of s, and moves only when a token is
   * produced; every token is a NUMBER of numeric characters or a STRING.
   */
  function NextToken(s: string, c: nat): (r: Scan)
    ensures c <= r.cursor
    ensures r.cursor <= |s| + 1 || r.cursor == c
    ensures r.token.None? ==> r.cursor == c
    ensures r.token.Some? ==> r.token.value.tokenType == NUMBER || r.token.value.tokenType == STRING
    ensures r.token.Some? && r.token.value.tokenType == NUMBER ==> AllNumChars(r.token.value.value)
    ensures r.token.Some? && r.token.value.tokenType == STRING ==> c < |s| && s[c] == '"'
  {
    if c >= |s| then Scan(None, c)
    else
      var str := SliceFrom(s, c);
      if IsNumChar(str[0]) then
        var e := NumRunEnd(str, c);
        Scan(Some(Token(NUMBER, if c < |str| then str[c..e] else [])), e)
      else if str[0] == '"' then
        var e := QuoteScanEnd(s, str, c + 1);
        Scan(Some(Token(STRING, s[c..e] + NatToDecimal(e))), e + 1)
      else
        Scan(None, c)
  }

  class Tokenizer {
    /** `_string` */
    var s: string
    /** `_cursor` */
    var cursor: nat

    /** The implicit empty constructor: both fields stay unset until `Init`. */
    constructor()
    {
    }

    method Init(input: string)
      modifies this
      ensures s == input && cursor == 0
    {
      s := input;
      cursor := 0;
    }

    /** Some character is left after the cursor. */
    function HasMoreTokens(): (b: bool)
      reads this
      ensures b <==> SliceFrom(s, cursor) != []
    {
      cursor < |s|
    }

    /** The cursor sits exactly at the end; it then has no more tokens. */
    function IsEOF(): (b: bool)
      reads this
      ensures b ==> !HasMoreTokens()
      ensures b <==> cursor == |s|
    {
      cursor == |s|
    }

    method GetNextToken() returns (token: Option<Token>)
      modifies this
      ensures s == old(s)
      ensures Scan(token, cursor) == NextToken(old(s), old(cursor))
    {
      if !HasMoreTokens() {
        return None;
      }
      var str := SliceFrom(s, cursor);
      if IsNumChar(str[0]) {
        var t := NumberToken(str);
        return Some(t);
      }
      if str[0] == '"' {
        var t := StringToken(str);
        return Some(t);
      }
      return None;
    }

    /** The NUMBER branch of `getNextToken` (its `while` loop). */
    method NumberToken(str: string) returns (token: Token)
      requires cursor < |s| && str == SliceFrom(s, cursor) && IsNumChar(str[0])
      modifies this
      ensures s == old(s)
      ensures Scan(Some(token), cursor) == NextToken(s, old(cursor))
    {
      ghost var c0 := cursor;
      var number := "";
      while cursor < |str| && IsNumChar(str[cursor])
        invariant s == old(s) && c0 <= cursor
        invariant c0 < |str| ==> cursor <= |str| && number == str[c0..cursor]
        invariant c0 >= |str| ==> cursor == c0 && number == []
        invariant NumRunEnd(str, cursor) == NumRunEnd(str, c0)
        decreases |str| - cursor
      {
        number := number + [str[cursor]];
        cursor := cursor + 1;
      }
      NextTokenNumber(s, c0);
      return Token(NUMBER, number);
    }

    /** The STRING branch of `getNextToken` (its `do ... while` loop). */
    method StringToken(str: string) returns (token: Token)
      requires cursor < |s| && str == SliceFrom(s, cursor) && !IsNumChar(str[0]) && str[0] == '"'
      modifies this
      ensures s == old(s)
      ensures Scan(Some(token), cursor) == NextToken(s, old(cursor))
    {
      ghost var c0 := cursor;
      var acc := "";
      // the body of the do ... while, once before the first test
      acc := acc + [s[cursor]];
      cursor := cursor + 1;
      while (cursor >= |str| || str[cursor] != '"') && !IsEOF()
        invariant s == old(s) && c0 < cursor <= |s|
        invariant acc == s[c0..cursor]
        invariant QuoteScanEnd(s, str, cursor) == QuoteScanEnd(s, str, c0 + 1)
        decreases |s| - cursor
      {
        acc := acc + [s[cursor]];
        cursor := cursor + 1;
      }
      NextTokenString(s, c0);
      acc := acc + NatToDecimal(cursor);
      cursor := cursor + 1;
      return Token(STRING, acc);
    }
  }

  lemma NextTokenNumber(s: string, c: nat)
    requires c < |s| && IsNumChar(s[c])
    ensures var str := SliceFrom(s, c); var e := NumRunEnd(str, c);
      NextToken(s, c) == Scan(Some(Token(NUMBER, if c < |str| then str[c..e] else [])), e)
  {
  }

  lemma NextTokenString(s: string, c: nat)
    requires c < |s| && !IsNumChar(s[c]) && s[c] == '"'
    ensures var e := QuoteScanEnd(s, SliceFrom(s, c), c + 1);
      NextToken(s, c) == Scan(Some(Token(STRING, s[c..e] + NatToDecimal(e))), e + 1)
  {
  }

  /** Past the end of the input neither query holds: they are not complements. */
  lemma QueriesPastEnd(t: Tokenizer)
    requires t.cursor > |t.s|
    ensures !t.HasMoreTokens() && !t.IsEOF()
  {
  }

  /** With the cursor at or past the end, the result is null and the cursor stays. */
  lemma NextTokenAtEnd(s: string, c: nat)
    requires c >= |s|
    ensures NextToken(s, c) == Scan(None, c)
  {
  }

  /** A character that is neither numeric nor a quote yields null; no lexical error. */
  lemma NextTokenUnrecognised(s: string, c: nat)
    requires c < |s| && !IsNumChar(s[c]) && s[c] != '"'
    ensures NextToken(s, c) == Scan(None, c)
  {
  }

  /**
   * From cursor 0, a NUMBER is the longest prefix of numeric characters and
   * the cursor moves by exactly its length.
   */
  lemma NumberAtStart(s: string, k: nat)
    requires 0 < k <= |s|
    requires forall i :: 0 <= i < k ==> IsNumChar(s[i])
    requires k == |s| || !IsNumChar(s[k])
    ensures NextToken(s, 0) == Scan(Some(Token(NUMBER, s[..k])), k)
  {
    assert SliceFrom(s, 0) == s;
    var e := NumRunEnd(s, 0);
    assert e == k;
  }

  /**
   * From cursor 0, `"body"` with no quote in body gives the STRING text
   * `"` + body + the decimal cursor 1 + |body| (the closing quote is not
   * kept), and the cursor steps past the closing quote.
   */
  lemma {:induction false} StringAtStart(body: string, rest: string)
    requires '"' !in body
    ensures var s := "\"" + body + "\"" + rest;
      NextToken(s, 0) == Scan(Some(Token(STRING, "\"" + body + NatToDecimal(1 + |body|))), 2 + |body|)
  {
    var s := "\"" + body + "\"" + rest;
    assert SliceFrom(s, 0) == s;
    var q := 1 + |body|;
    assert s[q] == '"';
    var e := QuoteScanEnd(s, s, 1);
    assert e == q;
    assert s[0..e] == "\"" + body;
  }

  /**
   * From cursor 0, an unterminated `"body` still gives a STRING token, with
   * the same text as the terminated one, and leaves the cursor one
   * past the end of the input.
   */
  lemma UnterminatedAtStart(body: string)
    requires '"' !in body
    ensures var s := "\"" + body;
      NextToken(s, 0) == Scan(Some(Token(STRING, s + NatToDecimal(|s|))), |s| + 1)
  {
    var s := "\"" + body;
    assert SliceFrom(s, 0) == s;
    var e := QuoteScanEnd(s, s, 1);
    assert e == |s|;
    assert s[0..e] == s;
  }

  /**
   * Off cursor 0 the absolute index can run past the suffix: once the cursor
   * reaches half the input, a numeric character yields an empty NUMBER and
   * the cursor does not move.
   */
  lemma StalledNumber(s: string, c: nat)
    requires 0 < c < |s| <= 2 * c && IsNumChar(s[c])
    ensures NextToken(s, c) == Scan(Some(Token(NUMBER, [])), c)
  {
    assert SliceFrom(s, c)[0] == s[c];
  }

  /**
   * Off cursor 0 the string loop tests the suffix but appends from the whole
   * input, so it can run past a quote: from cursor 3, `"a""b"` gives the
   * STRING text `"b"6`, closing quote included, and the cursor ends at 7.
   */
  lemma StringPastSuffix()
    ensures NextToken("\"a\"\"b\"", 3) == Scan(Some(Token(STRING, "\"b\"" + NatToDecimal(6))), 7)
  {
    var s := "\"a\"\"b\"";
    NextTokenString(s, 3);
    var str := SliceFrom(s, 3);
    assert QuoteScanEnd(s, str, 5) == 6;
    assert QuoteScanEnd(s, str, 4) == 6;
    assert s[3..6] == "\"b\"";
  }
}
