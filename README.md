# Tokenizer and parser front end, modelled in Dafny

This project models the front end of a small JavaScript compiler:
`src/Tokenizer.js`, a pull-style lexer over a string with a cursor, and
`src/Parser.js`, a one-token-lookahead recursive-descent parser. It follows
the code as written, and the grammar in that code is only
`Program -> Literal` with `Literal -> NumericLiteral | StringLiteral`. There
are no statement lists, blocks, operators, comments or skip rules, and no
lexical error: an unrecognised character makes `getNextToken` return null.
The test modules that `__tests__/run.js` requires (statement lists, empty
statements, blocks, math) exercise a grammar this code does not have.

Files and modules:

- `Wrappers.dfy` (`Wrappers`): `Option`, standing for a value that may be `null`.
- `JsRuntime.dfy` (`JsRuntime`): the JavaScript built-ins the code relies on.
  - `IsNumChar(c)`: `Number(c)` is not NaN, which holds for ASCII digits and for the ECMA-262 WhiteSpace and LineTerminator characters.
  - `ToNumber`: `Number(text)` (ECMA-262 section 7.1.4.1.1).
  - `NatToDecimal`: `String(n)`.
  - `SliceInner`: `slice(1, -1)`.
  - `SliceFrom`: `slice(c)`.
- `Tokenizer.dfy` (`Tokenizing`): the class `Tokenizer` with fields `s`
  (`_string`) and `cursor` (`_cursor`). `GetNextToken` is proved equal to the
  pure function `NextToken(s, cursor)`, and the lexer's properties are proved
  about that function.
- `Parser.dfy` (`Parsing`): the class `Parser` with fields `source`, `tokenizer` and
  `lookahead`. Each production is a method whose result and new state are
  proved equal to a function on `State` (input, cursor, lookahead). The
  properties of `parse` are proved about `ParseStep`.

The code has quirks, and the model keeps them.

- The suffix `str = s.slice(cursor)` is indexed with the absolute cursor.
  From cursor 0 this is harmless. Later calls can read past the suffix and
  return an empty NUMBER without moving (`StalledNumber`,
  `ParseLeavesEmptyNumber`).
- Whitespace counts as numeric, because `Number(' ')` is 0. So `1 2` is one
  NUMBER token, and its value is NaN (`ParseSpacedDigits`).
- A STRING token read from cursor 0 (so the first token of `parse`) never
  contains its closing quote. Instead it ends with the decimal text of the
  cursor (src/Tokenizer.js:56). `slice(1, -1)` therefore
  gives back the body only when the body has at most 8 characters. With 9 to
  98 characters, one digit of the cursor is left in the value
  (`ParseTwoDigitCursor`). An unterminated string still yields a STRING token,
  and the cursor ends one past the end. Off cursor 0 the loop tests the
  suffix but appends from the whole input, so it can run past a quote: from
  cursor 3, `"a""b"` gives the STRING text `"b"6` (`StringPastSuffix`).
- Exceptions become `Err(SyntaxError)` (from `_eat` and `Literal`) or
  `Err(TypeError)` (from reading `.type` of a null lookahead at
  src/Parser.js:59). Since the first token is always a NUMBER, a STRING or
  null, `parse` never raises a SyntaxError.
- `getNextToken`'s two branches are written as the helper methods
  `NumberToken` (the `while` loop) and `StringToken` (the `do ... while`, with
  its body run once before the loop). The loops update the `cursor` field
  step by step, as in the source.

## Model

| member | source | states |
|---|---|---|
| `JsRuntime.IsNumChar` | src/Tokenizer.js:39-41 | the test `!Number.isNaN(Number(ch))`: a quote is never numeric, so the STRING branch is reachable, while space, tab and newline are numeric |
| `JsRuntime.ToNumber` | src/Parser.js:77 | `ToNumber(text)` is NaN for every text holding a character other than a digit or whitespace (exact for NUMBER token texts, which hold only those; see Left out) |
| `JsRuntime.NumCharIffNotNaN` | src/Tokenizer.js:39 | `IsNumChar(c)` holds exactly when `Number(c)` is not NaN: digits and whitespace |
| `JsRuntime.NatToDecimal` | src/Tokenizer.js:56 | the text appended for the cursor is canonical (non-empty digits, no leading zero) and reads back as the cursor's value; it is one character exactly when the value is below 10 |
| `JsRuntime.DecimalRoundTrip` | src/Tokenizer.js:56 | writing the value of a canonical digit string gives back that string, the other direction of the round trip |
| `JsRuntime.DigitsToNumber` | src/Parser.js:77 | `Number` of a non-empty digit run is its decimal value |
| `JsRuntime.PaddedDigits` | src/Parser.js:77 | whitespace around a digit run does not change its `Number` value |
| `JsRuntime.BlankIsZero` | src/Parser.js:77 | `Number` of a whitespace-only text is 0 |
| `JsRuntime.InnerWhitespaceIsNaN` | src/Parser.js:77 | whitespace between two digit runs makes `Number` NaN |
| `JsRuntime.SliceInner` | src/Parser.js:92 | `slice(1, -1)` yields the text between the first and last character, and "" for texts shorter than 2 |
| `JsRuntime.SliceFrom` | src/Tokenizer.js:38 | `slice(c)` is the suffix from c, as long as the input minus c, and empty past the end |
| `Tokenizing.NumRunEnd` | src/Tokenizer.js:41-43 | the numeric loop stops at the end of the longest numeric run from its start index: every index before the stop is numeric, and the stop is past the suffix or not numeric |
| `Tokenizing.QuoteScanEnd` | src/Tokenizer.js:52-54 | the string loop stops at the first index where the suffix holds a quote, or at the end of the input, and it never passes the input's end |
| `Tokenizing.NextToken` | src/Tokenizer.js:33-65 | the cursor never decreases, never exceeds the input length plus one, and moves only when a token is produced; every token is a NUMBER made only of numeric characters, or a STRING starting at a quote |
| `Tokenizing.Tokenizer.constructor` | src/Tokenizer.js:7-14 | the implicit empty constructor: it sets no field, so `_string` and `_cursor` are unconstrained until `init` |
| `Tokenizing.Tokenizer.Init` | src/Tokenizer.js:11-14 | stores the input and sets the cursor to 0 |
| `Tokenizing.Tokenizer.HasMoreTokens` | src/Tokenizer.js:19-21 | holds exactly when the unread suffix is non-empty |
| `Tokenizing.Tokenizer.IsEOF` | src/Tokenizer.js:26-28 | holds exactly when the cursor equals the length; then there are no more tokens |
| `Tokenizing.QueriesPastEnd` | src/Tokenizer.js:19-28 | with the cursor past the end, neither query holds, so they are not complements |
| `Tokenizing.Tokenizer.GetNextToken` | src/Tokenizer.js:33-65 | returns the token of `NextToken(old s, old cursor)` and leaves its cursor; the string is unchanged |
| `Tokenizing.Tokenizer.NumberToken` | src/Tokenizer.js:39-48 | the `while` loop builds exactly the NUMBER text and final cursor of `NextToken` |
| `Tokenizing.Tokenizer.StringToken` | src/Tokenizer.js:50-61 | the `do ... while` loop and the appended cursor build exactly the STRING text and final cursor of `NextToken` |
| `Tokenizing.NextTokenAtEnd` | src/Tokenizer.js:34-36 | at or past the end: null, cursor unchanged |
| `Tokenizing.NextTokenUnrecognised` | src/Tokenizer.js:39-64 | a first character that is neither numeric nor a quote gives null with the cursor unchanged; no lexical error |
| `Tokenizing.NumberAtStart` | src/Tokenizer.js:39-47 | from cursor 0 the NUMBER text is the longest numeric prefix, and the cursor moves by exactly its length |
| `Tokenizing.StringAtStart` | src/Tokenizer.js:50-60 | from cursor 0, `"body"` gives STRING text made of the quote, the body and the decimal length of body plus one; the cursor ends at the body length plus two |
| `Tokenizing.UnterminatedAtStart` | src/Tokenizer.js:52-56 | an unterminated `"body` still gives a STRING token, and the cursor ends one past the end of the input |
| `Tokenizing.StalledNumber` | src/Tokenizer.js:38-43 | away from cursor 0, once the cursor reaches half the input, a numeric character gives an empty NUMBER and the cursor stays put |
| `Parsing.Advance` | src/Parser.js:115 | the lookahead and cursor become those of one `getNextToken` call; the string is unchanged |
| `Tokenizing.StringPastSuffix` | src/Tokenizer.js:50-57 | from cursor 3 the input `"a""b"` gives the STRING text `"b"6`, closing quote included, with the cursor at 7: the loop tests the suffix but appends from the whole string |
| `Parsing.EatStep` | src/Parser.js:97-118 | succeeds exactly when the lookahead is non-null and of the asked type; then it returns the old lookahead after exactly one advance; otherwise SyntaxError with the state unchanged |
| `Parsing.NumericLiteralStep` | src/Parser.js:73-79 | succeeds exactly on a NUMBER lookahead, with value `Number(text)` and one advance; otherwise SyntaxError, nothing consumed |
| `Parsing.StringLiteralStep` | src/Parser.js:88-94 | succeeds exactly on a STRING lookahead, with value `text.slice(1, -1)` and one advance; otherwise SyntaxError, nothing consumed |
| `Parsing.LiteralStep` | src/Parser.js:58-66 | null lookahead gives TypeError; another type than NUMBER or STRING gives SyntaxError; both leave the state unchanged; NUMBER and STRING give a literal of that kind after one advance |
| `Parsing.ProgramStep` | src/Parser.js:44-49 | wraps the one literal (a single node, not a list) and reads no further token |
| `Parsing.Parser.constructor` | src/Parser.js:13-16 | an empty `_string` and a fresh tokenizer |
| `Parsing.Parser.Parse` | src/Parser.js:22-35 | stores the input, and its result and final state are those of `ParseStep`: re-init the tokenizer, prime the lookahead with one `getNextToken`, then `Program` |
| `Parsing.ParseStep` | src/Parser.js:22-35 | keeps the input; a failed parse leaves the state after the one priming `getNextToken`, a successful one the state after exactly one more |
| `Parsing.Parser.Program` | src/Parser.js:44-49 | result and new state are those of `ProgramStep` on the old state |
| `Parsing.Parser.Literal` | src/Parser.js:58-66 | result and new state are those of `LiteralStep` on the old state |
| `Parsing.Parser.NumericLiteral` | src/Parser.js:73-79 | result and new state are those of `NumericLiteralStep` on the old state |
| `Parsing.Parser.StringLiteral` | src/Parser.js:88-94 | result and new state are those of `StringLiteralStep` on the old state |
| `Parsing.Parser.Eat` | src/Parser.js:97-118 | result and new state are those of `EatStep`: token type checked, exactly one `getNextToken` on success, nothing changed on failure |
| `Parsing.ParseByFirstToken` | src/Parser.js:22-49 | the result of `parse` depends only on the first token: null gives TypeError, otherwise the literal converted from it; the lookahead fetched by `_eat` is never checked |
| `Parsing.ParseNeverSyntaxError` | src/Parser.js:58-66 | `parse` never raises SyntaxError |
| `Parsing.ParseFailsIff` | src/Parser.js:58-59 | `parse` fails exactly on an empty input or one whose first character is neither numeric nor a quote, and then with TypeError |
| `Parsing.ParseNumber` | src/Parser.js:73-78 | an input opening with a numeric run of exactly k characters gives one NumericLiteral of `Number` of those k characters |
| `Parsing.ParseDigitsThenRest` | src/Parser.js:44-49 | digits followed by a non-numeric character or the end give their decimal value; the rest of the input is ignored |
| `Parsing.ParseQuoted` | src/Parser.js:88-93 | `"body"` followed by anything gives the body followed by the decimal text of its length plus one, minus that text's last digit |
| `Parsing.ParseShortQuoted` | src/Parser.js:88-93 | for a body of at most 8 characters the value is exactly the body |
| `Parsing.ParseTwoDigitCursor` | src/Parser.js:92 | for a body of 9 to 98 characters the first digit of the cursor is left at the end of the value |
| `Parsing.ParseUnterminated` | src/Tokenizer.js:52-56 | an unterminated string parses like the terminated one, and the cursor ends one past the end of the input |
| `Parsing.ParseEmpty` | src/Parser.js:59 | the empty input fails with TypeError |
| `Parsing.ParseHello` | src/Parser.js:88-93 | `"hello"` gives `StringLiteral hello` |
| `Parsing.Parse42abc` | src/Parser.js:44-49 | `42abc` gives `Program{NumericLiteral 42}` |
| `Parsing.ParseSpacedDigits` | src/Parser.js:77 | `1 2` is one NUMBER token whose value is NaN |
| `Parsing.ParseLeavesEmptyNumber` | src/Parser.js:115 | after `"a"7` the lookahead fetched by `_eat` is an empty NUMBER at cursor 3 |

## Left out

- `__tests__/run.js`, the driver. It prints the AST and runs test modules, and it is not modelled.
- The double-precision side of `Number`. Values are exact natural numbers, so digit strings beyond 2^53 are not rounded.
- `ToNumber` maps every text outside digits and whitespace to NaN. This is wrong in JavaScript for texts such as `1.5`, `-3`, `0x1F` or `Infinity`. Such texts never reach it, because `NextToken` proves that a NUMBER token holds only digits and whitespace.
- The whitespace set is taken from ECMA-262 with the Unicode category Zs as it stands today. Older Unicode versions that put U+180E in Zs are not modelled.
- Strings here are sequences of Unicode scalar values. JavaScript counts UTF-16 code units, so for input with characters outside the Basic Multilingual Plane the cursor values, and the digits appended to a STRING token, are not modelled.
- Exact error message text. Only the error kind (SyntaxError or TypeError) is kept.
- Fields before their first assignment. In JavaScript they are `undefined`. The tokenizer's fields are left unconstrained until `Init`. The parser's lookahead starts as `None` in the constructor.
- `require` and `module.exports` plumbing.
