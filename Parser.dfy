/**
 * The recursive-descent parser of src/Parser.js. Its grammar is the single
 * rule Program -> Literal, with Literal -> NumericLiteral | StringLiteral.
 * The parser holds a tokenizer and a one-token lookahead, and `_eat` is the
 * only way a token is consumed.
 *
 * Thrown errors become an `Err` carrying the kind of the JavaScript error.
 * Every method is specified by a function on the parse state (the input,
 * the tokenizer's cursor and the lookahead): the function gives the result
 * and the state the method leaves.
 */
module Parsing {
  import opened Wrappers
  import opened JsRuntime
  import opened Tokenizing

  /** `SyntaxError` is thrown by `_eat` and `Literal`; `TypeError` comes from reading `.type` of null. */
  datatype ErrorKind = SyntaxError | TypeError

  datatype Result<T> = Ok(value: T) | Err(error: ErrorKind)

  /** `{type: 'NumericLiteral', value}` and `{type: 'StringLiteral', value}` */
  datatype LiteralNode = NumericLiteralNode(num: JsNumber) | StringLiteralNode(text: string)

  /** `{type: 'Program', body}`: one literal, not a list. */
  datatype ProgramNode = ProgramNode(body: LiteralNode)

  /** The tokenizer's string and cursor, and the parser's lookahead. */
  datatype State = State(s: string, cursor: nat, lookahead: Option<Token>)

  /** What a production returns, and the state it leaves. */
  datatype Step<T> = Step(result: Result<T>, state: State)

  /** One `getNextToken` call stored into the lookahead. */
  function Advance(st: State): (r: State)
    ensures r.s == st.s
    ensures Scan(r.lookahead, r.cursor) == NextToken(st.s, st.cursor)
  {
    var sc := NextToken(st.s, st.cursor);
    State(st.s, sc.cursor, sc.token)
  }

  /**
   * `_eat(tokenType)`: a SyntaxError, with nothing changed, when the lookahead
   * is null or of another type; otherwise the old lookahead, after exactly
   * one `getNextToken` call has replaced it.
   */
  function EatStep(st: State, tokenType: string): (r: Step<Token>)
    ensures r.result.Ok? <==> st.lookahead.Some? && st.lookahead.value.tokenType == tokenType
    ensures r.result.Ok? ==> r.result.value == st.lookahead.value && r.state == Advance(st)
    ensures r.result.Err? ==> r.result.error == SyntaxError && r.state == st
  {
    match st.lookahead
    case None => Step(Err(SyntaxError), st)
    case Some(token) =>
      if token.tokenType != tokenType then Step(Err(SyntaxError), st)
      else Step(Ok(token), Advance(st))
  }

  /**
   * `NumericLiteral`: eat a NUMBER and convert its text with `Number`; any
   * other lookahead is `_eat`'s SyntaxError with nothing consumed.
   */
  function NumericLiteralStep(st: State): (r: Step<LiteralNode>)
    ensures r.result.Ok? <==> st.lookahead.Some? && st.lookahead.value.tokenType == NUMBER
    ensures r.result.Ok? ==>
      r.result.value == NumericLiteralNode(ToNumber(st.lookahead.value.value)) && r.state == Advance(st)
    ensures r.result.Err? ==> r == Step(Err(SyntaxError), st)
  {
    var eaten := EatStep(st, NUMBER);
    match eaten.result
    case Ok(token) => Step(Ok(NumericLiteralNode(ToNumber(token.value))), eaten.state)
    case Err(e) => Step(Err(e), eaten.state)
  }

  /**
   * `StringLiteral`: eat a STRING and drop the first and the last character
   * of its text; any other lookahead is `_eat`'s SyntaxError with nothing consumed.
   */
  function StringLiteralStep(st: State): (r: Step<LiteralNode>)
    ensures r.result.Ok? <==> st.lookahead.Some? && st.lookahead.value.tokenType == STRING
    ensures r.result.Ok? ==>
      r.result.value == StringLiteralNode(SliceInner(st.lookahead.value.value)) && r.state == Advance(st)
    ensures r.result.Err? ==> r == Step(Err(SyntaxError), st)
  {
    var eaten := EatStep(st, STRING);
    match eaten.result
    case Ok(token) => Step(Ok(StringLiteralNode(SliceInner(token.value))), eaten.state)
    case Err(e) => Step(Err(e), eaten.state)
  }

  /**
   * `Literal`: dispatch on the lookahead's type. A null lookahead is a
   * TypeError and any type but NUMBER or STRING a SyntaxError, both with
   * nothing consumed; otherwise exactly one token is consumed.
   */
  function LiteralStep(st: State): (r: Step<LiteralNode>)
    ensures st.lookahead.None? ==> r == Step(Err(TypeError), st)
    ensures st.lookahead.Some? ==>
      (r.result.Ok? <==> st.lookahead.value.tokenType == NUMBER || st.lookahead.value.tokenType == STRING)
    ensures st.lookahead.Some? && r.result.Err? ==> r == Step(Err(SyntaxError), st)
    ensures r.result.Ok? ==> r.state == Advance(st)
    ensures r.result.Ok? && st.lookahead.value.tokenType == NUMBER ==> r.result.value.NumericLiteralNode?
    ensures r.result.Ok? && st.lookahead.value.tokenType == STRING ==> r.result.value.StringLiteralNode?
  {
    match st.lookahead
    case None => Step(Err(TypeError), st)
    case Some(token) =>
      if token.tokenType == NUMBER then NumericLiteralStep(st)
      else if token.tokenType == STRING then StringLiteralStep(st)
      else Step(Err(SyntaxError), st)
  }

  /** `Program`: wrap the one literal; it reads no further token. */
  function ProgramStep(st: State): (r: Step<ProgramNode>)
    ensures r.state == LiteralStep(st).state
    ensures r.result.Ok? <==> LiteralStep(st).result.Ok?
    ensures r.result.Ok? ==> r.result.value.body == LiteralStep(st).result.value
    ensures r.result.Err? ==> r.result.error == LiteralStep(st).result.error
  {
    var lit := LiteralStep(st);
    match lit.result
    case Ok(node) => Step(Ok(ProgramNode(node)), lit.state)
    case Err(e) => Step(Err(e), lit.state)
  }

  /**
   * `parse(input)`: reset the tokenizer, prime the lookahead once, run `Program`.
   * A failed parse has made only the priming `getNextToken` call; a
   * successful one has made exactly one more, the one inside `_eat`.
   */
  function ParseStep(input: string): (r: Step<ProgramNode>)
    ensures r.state.s == input
    ensures r.result.Err? ==> r.state == Advance(State(input, 0, None))
    ensures r.result.Ok? ==> r.state == Advance(Advance(State(input, 0, None)))
  {
    ProgramStep(Advance(State(input, 0, None)))
  }

  class Parser {
    /** `_string` */
    var source: string
    /** `_tokenizer` */
    const tokenizer: Tokenizer
    /** `_lookahead` */
    var lookahead: Option<Token>

    constructor()
      ensures source == [] && lookahead == None && fresh(tokenizer)
    {
      source := [];
      tokenizer := new Tokenizer();
      lookahead := None;
    }

    /** The parse state this object and its tokenizer hold. */
    function Snapshot(): State
      reads this, tokenizer
    {
      State(tokenizer.s, tokenizer.cursor, lookahead)
    }

    method Parse(input: string) returns (r: Result<ProgramNode>)
      modifies this, tokenizer
      ensures source == input
      ensures Step(r, Snapshot()) == ParseStep(input)
    {
      source := input;
      tokenizer.Init(source);
      lookahead := tokenizer.GetNextToken();
      r := Program();
    }

    method Program() returns (r: Result<ProgramNode>)
      modifies this, tokenizer
      ensures source == old(source)
      ensures Step(r, Snapshot()) == ProgramStep(old(Snapshot()))
    {
      var body := Literal();
      match body
      case Ok(node) => r := Ok(ProgramNode(node));
      case Err(e) => r := Err(e);
    }

    method Literal() returns (r: Result<LiteralNode>)
      modifies this, tokenizer
      ensures source == old(source)
      ensures Step(r, Snapshot()) == LiteralStep(old(Snapshot()))
    {
      if lookahead.None? {
        return Err(TypeError);
      }
      if lookahead.value.tokenType == NUMBER {
        r := NumericLiteral();
      } else if lookahead.value.tokenType == STRING {
        r := StringLiteral();
      } else {
        r := Err(SyntaxError);
      }
    }

    method NumericLiteral() returns (r: Result<LiteralNode>)
      modifies this, tokenizer
      ensures source == old(source)
      ensures Step(r, Snapshot()) == NumericLiteralStep(old(Snapshot()))
    {
      var token := Eat(NUMBER);
      match token
      case Ok(t) => r := Ok(NumericLiteralNode(ToNumber(t.value)));
      case Err(e) => r := Err(e);
    }

    method StringLiteral() returns (r: Result<LiteralNode>)
      modifies this, tokenizer
      ensures source == old(source)
      ensures Step(r, Snapshot()) == StringLiteralStep(old(Snapshot()))
    {
      var token := Eat(STRING);
      match token
      case Ok(t) => r := Ok(StringLiteralNode(SliceInner(t.value)));
      case Err(e) => r := Err(e);
    }

    /** `_eat(tokenType)` */
    method Eat(tokenType: string) returns (r: Result<Token>)
      modifies this, tokenizer
      ensures source == old(source)
      ensures Step(r, Snapshot()) == EatStep(old(Snapshot()), tokenType)
    {
      var token := lookahead;
      if token.None? {
        return Err(SyntaxError);
      }
      if token.value.tokenType != tokenType {
        return Err(SyntaxError);
      }
      lookahead := tokenizer.GetNextToken();
      return Ok(token.value);
    }
  }

  /**
   * The result of `parse` is decided by the first token alone: null gives a
   * TypeError, NUMBER and STRING give their literal, and the lookahead that
   * `_eat` fetches afterwards is never looked at.
   */
  lemma ParseByFirstToken(input: string)
    ensures var first := NextToken(input, 0).token;
      ParseStep(input).result ==
        if first.None? then Err(TypeError)
        else if first.value.tokenType == NUMBER then Ok(ProgramNode(NumericLiteralNode(ToNumber(first.value.value))))
        else Ok(ProgramNode(StringLiteralNode(SliceInner(first.value.value))))
  {
  }

  /** The first token is always a NUMBER, a STRING or null, so `parse` never raises SyntaxError. */
  lemma ParseNeverSyntaxError(input: string)
    ensures ParseStep(input).result != Err(SyntaxError)
  {
  }

  /**
   * `parse` fails, with a TypeError from reading `.type` of a null lookahead,
   * exactly when the input is empty or starts with a character that is
   * neither numeric nor a quote; otherwise it succeeds.
   */
  lemma ParseFailsIff(input: string)
    ensures ParseStep(input).result.Err? <==> input == [] || (!IsNumChar(input[0]) && input[0] != '"')
    ensures ParseStep(input).result.Err? ==> ParseStep(input).result.error == TypeError
  {
  }

  /**
   * An input opening with k numeric characters parses to one NumericLiteral
   * whose value is `Number` of those k characters; what follows is ignored.
   */
  lemma ParseNumber(input: string, k: nat)
    requires 0 < k <= |input|
    requires forall i :: 0 <= i < k ==> IsNumChar(input[i])
    requires k == |input| || !IsNumChar(input[k])
    ensures ParseStep(input).result == Ok(ProgramNode(NumericLiteralNode(ToNumber(input[..k]))))
  {
    NumberAtStart(input, k);
    ParseByFirstToken(input);
  }

  /** Digits followed by anything but a numeric character: their decimal value; the rest is not checked. */
  lemma ParseDigitsThenRest(d: string, rest: string)
    requires AllDigits(d) && d != []
    requires rest == [] || !IsNumChar(rest[0])
    ensures ParseStep(d + rest).result == Ok(ProgramNode(NumericLiteralNode(Finite(DecimalValue(d)))))
  {
    var input := d + rest;
    DigitsThenRestPrefix(d, rest);
    ParseNumber(input, |d|);
    DigitsToNumber(d);
  }

  lemma DigitsThenRestPrefix(d: string, rest: string)
    requires AllDigits(d) && d != []
    requires rest == [] || !IsNumChar(rest[0])
    ensures forall i :: 0 <= i < |d| ==> IsNumChar((d + rest)[i])
    ensures |d| == |d + rest| || !IsNumChar((d + rest)[|d|])
    ensures (d + rest)[..|d|] == d
  {
    assert |d| == |d + rest| || (d + rest)[|d|] == rest[0];
  }

  /**
   * `"body"` (no quote in body) followed by anything parses to one
   * StringLiteral whose value is body followed by the decimal text of
   * 1 + |body| without its last digit.
   */
  lemma ParseQuoted(body: string, rest: string)
    requires '"' !in body
    ensures var d := NatToDecimal(1 + |body|);
      ParseStep("\"" + body + "\"" + rest).result == Ok(ProgramNode(StringLiteralNode(body + d[..|d| - 1])))
  {
    var d := NatToDecimal(1 + |body|);
    StringAtStart(body, rest);
    ParseByFirstToken("\"" + body + "\"" + rest);
    SliceInnerOfQuoted(body, d);
  }

  lemma SliceInnerOfQuoted(body: string, d: string)
    requires |d| >= 1
    ensures SliceInner("\"" + body + d) == body + d[..|d| - 1]
  {
    var text := "\"" + body + d;
    assert text[1..] == body + d;
    assert text[1..|text| - 1] == (body + d)[..|body| + |d| - 1];
    assert (body + d)[..|body| + |d| - 1] == body + d[..|d| - 1];
  }

  /** A quoted body of at most 8 characters keeps exactly its body (the cursor is one digit). */
  lemma ParseShortQuoted(body: string, rest: string)
    requires '"' !in body && |body| <= 8
    ensures ParseStep("\"" + body + "\"" + rest).result == Ok(ProgramNode(StringLiteralNode(body)))
  {
    ParseQuoted(body, rest);
    assert body + NatToDecimal(1 + |body|)[..0] == body;
  }

  /** An unterminated string parses just as the terminated one does, and the cursor ends past EOF. */
  lemma ParseUnterminated(body: string)
    requires '"' !in body
    ensures ParseStep("\"" + body).result == ParseStep("\"" + body + "\"").result
    ensures ParseStep("\"" + body).state.cursor == |body| + 2
  {
    UnterminatedAtStart(body);
    StringAtStart(body, []);
    assert "\"" + body + "\"" + [] == "\"" + body + "\"";
  }

  lemma ParseEmpty()
    ensures ParseStep("").result == Err(TypeError)
  {
  }

  lemma ParseHello()
    ensures ParseStep("\"hello\"").result == Ok(ProgramNode(StringLiteralNode("hello")))
  {
    ParseShortQuoted("hello", []);
    assert "\"" + "hello" + "\"" + [] == "\"hello\"";
  }

  lemma Parse42abc()
    ensures ParseStep("42abc").result == Ok(ProgramNode(NumericLiteralNode(Finite(42))))
  {
    ParseNumber("42abc", 2);
    assert "42abc"[..2] == "42";
    DigitsToNumber("42");
    FortyTwo();
  }

  lemma FortyTwo()
    ensures DecimalValue("42") == 42
  {
    assert "42"[..1] == "4";
    assert "4"[..0] == [];
  }

  /**
   * From 9 to 98 characters between the quotes the cursor has two digits,
   * and the first of them survives at the end of the value.
   */
  lemma ParseTwoDigitCursor(body: string, rest: string)
    requires '"' !in body && 9 <= |body| <= 98
    ensures ParseStep("\"" + body + "\"" + rest).result
      == Ok(ProgramNode(StringLiteralNode(body + [NatToDecimal(1 + |body|)[0]])))
  {
    ParseQuoted(body, rest);
    var n := 1 + |body|;
    assert NatToDecimal(n) == NatToDecimal(n / 10) + [DigitChar(n % 10)];
    assert NatToDecimal(n)[..1] == [NatToDecimal(n)[0]];
  }

  /** `1 2` is one NUMBER token, and `Number("1 2")` is NaN. */
  lemma ParseSpacedDigits()
    ensures ParseStep("1 2").result == Ok(ProgramNode(NumericLiteralNode(NaN)))
  {
    ParseNumber("1 2", 3);
    assert "1 2"[..3] == "1 2";
    SpacedDigitsNaN();
  }

  lemma SpacedDigitsNaN()
    ensures ToNumber("1 2") == NaN
  {
    var v := "1 2";
    assert v == [v[0]] + [v[1]] + [v[2]];
    InnerWhitespaceIsNaN([v[0]], [v[1]], [v[2]]);
  }

  /**
   * After `"a"7` the lookahead that `_eat` fetched is an empty NUMBER: the
   * second scan reads the suffix `7` at absolute index 3.
   */
  lemma ParseLeavesEmptyNumber()
    ensures ParseStep("\"a\"7").state == State("\"a\"7", 3, Some(Token(NUMBER, [])))
  {
    StringAtStart("a", "7");
    assert "\"" + "a" + "\"" + "7" == "\"a\"7";
    StalledNumber("\"a\"7", 3);
  }
}
