# A verified model of a small scripting-language interpreter

`compiler.cpp` implements a small dynamically typed scripting language: `let`,
assignment, `print`, blocks, `if`/`else`, `while`, `for`, user functions with
`return`, arrays, string-keyed maps and a set of builtin functions. The file
also has an LLVM back end, which is not modelled. This project models its
three front-to-back stages in Dafny 4.11 and proves properties about them.

- **Values** (`values.dfy`, module `Values`).
  - The closed tagged union: number, string, array, map and function. A
    function value is the declaration itself.
  - `is_truthy` and `to_string`.
  - Maps as association lists in insertion order (`Find`, `Put`).
- **Lexer** (`lexer.dfy`, module `Lexing`).
  - The reference definition is a set of pure functions over a `Cursor` (position,
    line, column): `Stepped`, `SkippedSpace`, `SkippedComment`,
    `NumberRun`, `IdentifierRun`, `StringToken` and `Lex`.
  - `class Lexer` mutates the `position`/`line`/`column` fields with the
    source's loops. Each method is proved equal to its reference
    function.
  - `lexer_props.dfy` proves the classification, maximal-munch,
    end-of-input and escape-decoding properties.
- **Parser** (`parser.dfy`, module `Parsing`).
  - The reference definition is a recursive-descent parser over the token
    sequence the lexer produces (`Tokens`), indexed by position.
  - `class Parser` holds one token of lookahead, pulls tokens from a
    `Lexer` on every `advance`, and runs the source's while-loop folds.
    Every method ensures that its outcome and the number of tokens it
    consumed agree with the reference production.
  - `parser_props.dfy` proves that every binary level is a left fold over
    the level below it, and facts about map literals, statements and
    whole programs.
- **Interpreter** (`semantics.dfy`, module `Semantics`; `interpreter.dfy`,
  module `Interpreting`).
  - The reference definition is a fuel-bounded evaluator `Eval`/`Exec` over a
    `State`:
    - the globals;
    - the stack of local scopes;
    - `in_function`;
    - the pending return value;
    - the printed lines.
  - A step ends in one of three ways:
    - `Normal(v)`;
    - `Thrown(e)`: the C++ exception, with the state at the throw kept;
    - `OutOfFuel`: a step that does not end.
  - `class Interpreter` has the same fields and the source's loops.
    Every method ensures that its result and its new state are exactly
    what the reference function gives from the old state.
  - `semantics_props.dfy` proves the scoping, call, return and operator
    properties.
  - `findings.dfy` holds concrete programs that exhibit the discrepancies
    described under "## Findings".

Some of the source's numeric operations go through a `Host` record of
function values, so the model assumes nothing about them:
`std::to_string(double)`, `std::stod`, `/`, `**`, `sqrt`, `log` and `exp`.
Numbers are modelled as `int`. `+`, `-`, `*`, the comparisons, `abs`, `max`,
`min` and `sum` are exact on them. Strings are modelled as sequences of
characters, while the source's `std::string` holds bytes: `len` and the
lexer agree with the source exactly on single-byte (ASCII) text.

A `Fallback` mode selects how the call expression treats a failure:
- `CatchAll` is the code as written.
- `CatchLookup` is the reading the source's own comment in that `catch`
  block states; see "## Findings".

## Model

| member | source | states |
|---|---|---|
| Values.ArrayRenderingAppend | compiler.cpp:130-138 | rendering an array with one more element replaces the closing `]` with `, `, the new element's rendering and `]`; a one-element array renders as `[x]` |
| Values.JoinElementsAppend | compiler.cpp:132-135 | the element loop puts `, ` between consecutive elements and none after the last |
| Values.FindAfterPut | compiler.cpp:1019-1021 | after `map[k] = v`, `k` maps to `v` and every other key maps to what it mapped to before |
| Values.PutSize | compiler.cpp:1019-1021 | `map[k] = v` keeps keys distinct, grows the map by one exactly when `k` was absent, and adds no entry other than the one for `k` |
| Values.IsTruthy | compiler.cpp:115-124 | no contract of its own: zero, the empty string, the empty array and the empty map are false, everything else true; related to `len` by `SemanticsProperties.TruthyMeansNonEmpty` |
| Values.ToString | compiler.cpp:126-152 | no contract of its own; its array case is characterised by `Values.ArrayRenderingAppend` and its use in `+` by `SemanticsProperties.PlusWithStringConcatenates` |
| Values.JoinElements | compiler.cpp:130-137 | no contract of its own; characterised by `Values.JoinElementsAppend` |
| Values.JoinEntries | compiler.cpp:139-149 | no contract of its own; characterised by `Values.JoinEntriesAppend` |
| Values.JoinEntriesAppend | compiler.cpp:139-149 | the entry loop writes each entry as `"k": v` and puts `, ` before every entry but the first |
| Values.Find | compiler.cpp:1004-1013 | no contract of its own; characterised with `Put` by `Values.FindAfterPut` |
| Values.Put | compiler.cpp:1019-1021 | no contract of its own; characterised by `Values.FindAfterPut` and `Values.PutSize` |
| Lexing.Stepped | compiler.cpp:484-494 | `advance` moves the position by one when it is before the end and leaves it otherwise |
| Lexing.KeywordKind | compiler.cpp:463-472 | no contract of its own; characterised by `LexerProperties.KeywordTable` and `LexerProperties.IdentifierOrKeyword` |
| Lexing.TwoCharKind | compiler.cpp:584-604 | no contract of its own; characterised by `LexerProperties.TwoCharacterOperator` |
| Lexing.SingleCharKind | compiler.cpp:606-628 | no contract of its own; its fall-through case is characterised by `LexerProperties.InvalidCharacter` |
| Lexing.CharAt | compiler.cpp:474-482 | no contract of its own: `current_char`/`peek_char` answer NUL past the end; used in every lexer lemma |
| Lexing.IsSpace | compiler.cpp:497 | no contract of its own: the characters `std::isspace` accepts in the C locale (space, `\t`, `\n`, `\r`, `\v`, `\f`); characterised by `LexerProperties.WhitespaceRun` |
| Lexing.IsDigit | compiler.cpp:573 | no contract of its own: `0` to `9`, as `std::isdigit`; the test that starts a number, used by `LexerProperties.NumberToken` |
| Lexing.IsAlpha | compiler.cpp:578 | no contract of its own: the ASCII letters, as `std::isalpha` in the C locale; the test that starts an identifier, used by `LexerProperties.IdentifierOrKeyword` |
| Lexing.IsAlnum | compiler.cpp:522 | no contract of its own: a letter or a digit, as `std::isalnum` |
| Lexing.IsNumberChar | compiler.cpp:513 | no contract of its own: a digit or `.`, the loop test of `read_number`; characterised by `LexerProperties.NumberRunIsMaximal` |
| Lexing.IsIdentChar | compiler.cpp:522 | no contract of its own: a letter, digit or `_`, the loop test of `read_identifier`; characterised by `LexerProperties.IdentifierRunIsMaximal` |
| Lexing.Unescape | compiler.cpp:533-541 | no contract of its own; characterised by `LexerProperties.EscapedStep`, `LexerProperties.EscapeCharShape` and `LexerProperties.DecodedEscape` |
| Lexing.SkippedSpace | compiler.cpp:496-500 | `skip_whitespace` never moves backwards and never past the end of the source |
| Lexing.SkippedComment | compiler.cpp:502-509 | `skip_comment` never moves backwards and never past the end |
| Lexing.ToLineEnd | compiler.cpp:505-507 | the comment loop never moves backwards and never past the end |
| Lexing.NumberRun | compiler.cpp:511-518 | `read_number` never moves backwards and never past the end |
| Lexing.IdentifierRun | compiler.cpp:520-527 | `read_identifier` never moves backwards and never past the end |
| Lexing.StringBody | compiler.cpp:532-546 | the decoding loop of `read_string` never moves backwards and never past the end |
| Lexing.StringToken | compiler.cpp:529-551 | `read_string` stays within the source and always consumes the opening quote |
| Lexing.TokenStart | compiler.cpp:557-559 | skipping space, one comment and space again stays within the source |
| Lexing.Lex | compiler.cpp:556-629 | `next_token` stays within the source; every token but EOF consumes at least one character; EOF is returned exactly when nothing but skipped text remains, and then the cursor is where skipping stopped |
| Lexing.Tokens | compiler.cpp:556-629 | the stream of successive `next_token` results ends with an EOF token |
| Lexing.Lexer.constructor | compiler.cpp:554 | a new lexer is at position 0, line 1, column 1 of its source |
| Lexing.Lexer.CurrentChar | compiler.cpp:474-477 | no contract of its own: `CharAt` of the current position |
| Lexing.Lexer.PeekChar | compiler.cpp:479-482 | no contract of its own: `CharAt` of the next position |
| Lexing.Lexer.Advance | compiler.cpp:484-494 | the cursor becomes `Stepped` of the old one; the position never passes the length; passing `\n` increments the line and resets the column to 1; any other character increments the column; at the end nothing changes |
| Lexing.Lexer.SkipWhitespace | compiler.cpp:496-500 | the loop leaves the cursor at `SkippedSpace` of the old cursor |
| Lexing.Lexer.SkipComment | compiler.cpp:502-509 | the loop leaves the cursor at `SkippedComment` of the old cursor |
| Lexing.Lexer.ReadNumber | compiler.cpp:511-518 | the accumulated text and the cursor are those of `NumberRun` |
| Lexing.Lexer.ReadIdentifier | compiler.cpp:520-527 | the accumulated text and the cursor are those of `IdentifierRun` |
| Lexing.Lexer.ReadString | compiler.cpp:529-551 | the decoded text and the cursor are those of `StringToken` |
| Lexing.Lexer.NextToken | compiler.cpp:556-629 | the token returned and the cursor left are those of `Lex` |
| LexerProperties.EofIsStable | compiler.cpp:561-563 | at the end of input `next_token` returns EOF with empty text and leaves position, line and column unchanged |
| LexerProperties.AfterEofOnlyEof | compiler.cpp:561-563 | once an EOF token has been returned, the next call reports EOF again from the same cursor |
| LexerProperties.SingleEof | compiler.cpp:561-563 | EOF occurs in the token stream exactly once, as its last token |
| LexerProperties.WhitespaceRun | compiler.cpp:496-500 | `skip_whitespace` consumes only white space and stops at the first character that is not white space |
| LexerProperties.NumberRunIsMaximal | compiler.cpp:511-518 | the number text is exactly the source slice consumed, made only of digits and dots, and the run is maximal; the column advances by its length |
| LexerProperties.IdentifierRunIsMaximal | compiler.cpp:520-527 | the identifier text is exactly the slice consumed, made only of alphanumerics and `_`, and the run is maximal; the column advances by its length |
| LexerProperties.KeywordTable | compiler.cpp:463-472 | the keyword lookup succeeds exactly for the eight entries of the table |
| LexerProperties.IdentifierOrKeyword | compiler.cpp:577-582 | a token starting with a letter or `_` is the maximal identifier run; it is IDENTIFIER exactly when its text is not a keyword, and otherwise the keyword's kind |
| LexerProperties.NumberToken | compiler.cpp:572-575 | a token starting with a digit is a NUMBER holding the maximal digit-or-dot run |
| LexerProperties.TwoCharacterOperator | compiler.cpp:584-604 | `== != <= >= **` are recognised as one two-character token before any single-character token |
| LexerProperties.InvalidCharacter | compiler.cpp:606-628 | any character that no rule covers gives exactly one INVALID token holding that character |
| LexerProperties.SecondCommentIsNotSkipped | compiler.cpp:557-559 | after one skipped comment, a second `//` comment on the next line is lexed as a `/` token |
| LexerProperties.EscapeCharShape | compiler.cpp:533-541 | every character has an escaped form that the decoder maps back to it |
| LexerProperties.PlainStep | compiler.cpp:542-545 | an ordinary character is copied and the loop continues after it |
| LexerProperties.EscapedStep | compiler.cpp:533-541 | a backslash and the character after it decode to one character: `n`, `t`, `"` and `\` map to newline, tab, quote and backslash; any other escaped character passes through unchanged |
| LexerProperties.StringBodyDecodes | compiler.cpp:532-546 | decoding the escaped form of any text followed by a quote yields that text and stops at the quote |
| LexerProperties.StringLiteralRoundTrip | compiler.cpp:529-551 | a quoted, escaped literal decodes to the original text, and the closing quote is consumed |
| LexerProperties.UnterminatedString | compiler.cpp:532-549 | a string body with no `"` (escaped or not) and no NUL after its start is read to the end of the input, and its text is `Decoded` of everything after its start, escapes included |
| LexerProperties.UnterminatedStringToken | compiler.cpp:529-551 | a string literal with no `"` (escaped or not) and no NUL after the opening quote runs to the end of the input; its text is `Decoded` of everything after the opening quote |
| LexerProperties.DecodedEscape | compiler.cpp:533-545 | decoding the escaped form of any text gives back that text |
| LexerProperties.DecodedPlain | compiler.cpp:542-545 | text without a backslash decodes to itself |
| LexerProperties.CommentRun | compiler.cpp:505-507 | the comment loop passes only characters that are neither a newline nor NUL, stops at the first newline, NUL or the end, and stays on its line with the column advanced by the characters passed |
| Parsing.Expected | compiler.cpp:650-655 | `expect` succeeds exactly when the current token has the kind, then consumes it, and otherwise fails naming the token's text |
| Parsing.Message | compiler.cpp:652-967 | no contract of its own: the `what()` texts of the parser's exceptions, "Expected token type, got: " (652), "Expected string key in map literal" (731), "Unexpected token: " (750), "Expected identifier after 'let'" (847) and "Unexpected statement: " (967), each followed by the token's text where the source adds it; a number literal `std::stod` rejects answers "stod", the `what()` of its `std::invalid_argument` |
| Parsing.PrimaryExpr | compiler.cpp:657-751 | `parse_primary` consumes at least one token when it succeeds |
| Parsing.IdentifierTail | compiler.cpp:670-708 | what follows an identifier never moves the position back |
| Parsing.CallRest | compiler.cpp:675-687 | a call's argument list consumes at least its closing `)` |
| Parsing.AccessRest | compiler.cpp:690-706 | an access consumes at least its closing `]` |
| Parsing.ArrayRest | compiler.cpp:712-722 | an array literal consumes at least its closing `]` |
| Parsing.MapRest | compiler.cpp:725-742 | a map literal consumes at least its closing `}` |
| Parsing.GroupRest | compiler.cpp:744-748 | a parenthesised expression consumes at least one token |
| Parsing.ExprList | compiler.cpp:679-684 | an argument or element list never moves the position back |
| Parsing.ExprItems | compiler.cpp:715-718 | a non-empty expression list consumes at least one token |
| Parsing.ExprListTail | compiler.cpp:716-718 | the comma loop never moves the position back |
| Parsing.MapBody | compiler.cpp:727-739 | the pairs of a map literal never move the position back |
| Parsing.MapPairs | compiler.cpp:729-738 | the do-while loop of pairs consumes at least one token |
| Parsing.PairsTail | compiler.cpp:738 | the pairs after the first never move the position back |
| Parsing.PairAt | compiler.cpp:730-737 | one key-value pair consumes at least one token |
| Parsing.PowerExpr | compiler.cpp:753-764 | `parse_power` consumes at least one token when it succeeds |
| Parsing.PowerLoop | compiler.cpp:756-761 | the `**` fold never moves the position back |
| Parsing.TermExpr | compiler.cpp:766-778 | `parse_term` consumes at least one token when it succeeds |
| Parsing.TermLoop | compiler.cpp:769-775 | the `* /` fold never moves the position back |
| Parsing.ArithExpr | compiler.cpp:780-792 | `parse_arithmetic` consumes at least one token when it succeeds |
| Parsing.ArithLoop | compiler.cpp:783-789 | the `+ -` fold never moves the position back |
| Parsing.Expression | compiler.cpp:794-810 | `parse_expression` consumes at least one token when it succeeds |
| Parsing.ComparisonLoop | compiler.cpp:797-807 | the comparison fold never moves the position back |
| Parsing.BlockStmts | compiler.cpp:812-822 | `parse_block` consumes at least its braces |
| Parsing.BlockLoop | compiler.cpp:816-818 | the statement loop of a block never moves the position back |
| Parsing.Statement | compiler.cpp:844-968 | `parse_statement` consumes at least one token when it succeeds |
| Parsing.LetStatement | compiler.cpp:845-857 | a `let` statement after its keyword never moves the position back |
| Parsing.PrintStatement | compiler.cpp:859-866 | a `print` statement after its keyword never moves the position back |
| Parsing.Parenthesised | compiler.cpp:860-862 | `( expression )` consumes at least one token |
| Parsing.AssignedValue | compiler.cpp:852-853 | `= expression` consumes at least one token |
| Parsing.IfStatement | compiler.cpp:868-881 | an `if` after its keyword never moves the position back |
| Parsing.ElsePart | compiler.cpp:876-878 | the optional `else` never moves the position back |
| Parsing.WhileStatement | compiler.cpp:883-891 | a `while` after its keyword never moves the position back |
| Parsing.ForStatement | compiler.cpp:893-921 | a `for` after its keyword never moves the position back |
| Parsing.ForHeader | compiler.cpp:894-915 | the header of a `for` consumes at least its parentheses |
| Parsing.ForInitClause | compiler.cpp:896-897 | the init clause consumes at least its `;` |
| Parsing.ForInit | compiler.cpp:824-842 | `parse_for_init` never moves the position back |
| Parsing.OptionalClause | compiler.cpp:899-903 | the optional condition consumes at least its `;` |
| Parsing.OptionalExpr | compiler.cpp:899-902 | an optional expression never moves the position back |
| Parsing.ForUpdateClause | compiler.cpp:905-915 | the update clause consumes at least its `)` |
| Parsing.ForUpdate | compiler.cpp:905-914 | the optional update never moves the position back |
| Parsing.ParamList | compiler.cpp:926-938 | the parameter list consumes at least its parentheses |
| Parsing.Params | compiler.cpp:930-937 | the parameter names never move the position back |
| Parsing.ParamNames | compiler.cpp:931-936 | a non-empty parameter list consumes at least one token |
| Parsing.ParamsTail | compiler.cpp:933-936 | the comma loop over parameters never moves the position back |
| Parsing.ParamName | compiler.cpp:931-932 | one parameter name consumes its identifier token |
| Parsing.FunctionStatement | compiler.cpp:923-945 | a function declaration after its keyword never moves the position back |
| Parsing.ReturnStatement | compiler.cpp:947-954 | a `return` after its keyword never moves the position back |
| Parsing.AssignmentStatement | compiler.cpp:957-965 | an assignment after its name never moves the position back |
| Parsing.ProgramFrom | compiler.cpp:975-983 | no contract of its own; characterised by `ParserProperties.ProgramIsStatements` and `ParserProperties.ParsedProgramIsStatements` |
| Parsing.ParseSource | compiler.cpp:971-983 | no contract of its own; `Parsing.ParseText` is proved to compute it |
| Parsing.TokensFollow | compiler.cpp:638-640 | each token of the stream is what `next_token` returns from the cursor left by the token before it |
| Parsing.Parser.constructor | compiler.cpp:971-973 | the parser reads the first token; its stream is the lexer's token sequence from the lexer's current cursor |
| Parsing.Parser.Advance | compiler.cpp:638-640 | `advance` moves to the next token of the stream |
| Parsing.Parser.Match | compiler.cpp:642-648 | `match` answers whether the current token has the kind, and consumes it exactly then |
| Parsing.Parser.Expect | compiler.cpp:650-655 | `expect` agrees with `Expected` on the outcome and the tokens consumed |
| Parsing.Parser.ParsePrimary | compiler.cpp:657-751 | the outcome and the tokens consumed agree with `PrimaryExpr` |
| Parsing.Parser.ParseArrayLiteral | compiler.cpp:712-722 | agrees with `ArrayRest` after the `[` |
| Parsing.Parser.ParseMapLiteral | compiler.cpp:725-742 | agrees with `MapRest` after the `{` |
| Parsing.Parser.ParseGroup | compiler.cpp:744-748 | agrees with `GroupRest` after the `(` |
| Parsing.Parser.ParseIdentifier | compiler.cpp:670-708 | agrees with `IdentifierTail` after the identifier |
| Parsing.Parser.ParseCall | compiler.cpp:675-687 | agrees with `CallRest` after the `(` |
| Parsing.Parser.ParseAccess | compiler.cpp:690-706 | agrees with `AccessRest` after the `[` |
| Parsing.Parser.ParseExpressionList | compiler.cpp:679-684 | agrees with `ExprList` |
| Parsing.Parser.ParseExprItems | compiler.cpp:715-718 | the comma loop agrees with `ExprItems` |
| Parsing.Parser.ParseMapPairs | compiler.cpp:729-738 | the do-while loop agrees with `MapPairs` |
| Parsing.Parser.ParsePair | compiler.cpp:730-737 | agrees with `PairAt` |
| Parsing.Parser.ParsePower | compiler.cpp:753-764 | the fold loop agrees with `PowerExpr` |
| Parsing.Parser.ParseTerm | compiler.cpp:766-778 | the fold loop agrees with `TermExpr` |
| Parsing.Parser.ParseArithmetic | compiler.cpp:780-792 | the fold loop agrees with `ArithExpr` |
| Parsing.Parser.ParseExpression | compiler.cpp:794-810 | the fold loop agrees with `Expression` |
| Parsing.Parser.ParseBlock | compiler.cpp:812-822 | agrees with `BlockStmts` |
| Parsing.Parser.ParseBlockBody | compiler.cpp:816-818 | the statement loop agrees with `BlockLoop` |
| Parsing.Parser.ParseStatement | compiler.cpp:844-968 | agrees with `Statement` |
| Parsing.Parser.ParseLet | compiler.cpp:845-857 | agrees with `LetStatement` after `let` |
| Parsing.Parser.ParsePrint | compiler.cpp:859-866 | agrees with `PrintStatement` after `print` |
| Parsing.Parser.ParseIf | compiler.cpp:868-881 | agrees with `IfStatement` after `if` |
| Parsing.Parser.ParseElse | compiler.cpp:876-878 | agrees with `ElsePart` |
| Parsing.Parser.ParseWhile | compiler.cpp:883-891 | agrees with `WhileStatement` after `while` |
| Parsing.Parser.ParseFor | compiler.cpp:893-921 | agrees with `ForStatement` after `for` |
| Parsing.Parser.ParseForHeader | compiler.cpp:894-915 | agrees with `ForHeader` |
| Parsing.Parser.ParseForInitClause | compiler.cpp:896-897 | agrees with `ForInitClause` |
| Parsing.Parser.ParseForInit | compiler.cpp:824-842 | agrees with `ForInit` |
| Parsing.Parser.ParseOptionalClause | compiler.cpp:899-903 | agrees with `OptionalClause` |
| Parsing.Parser.ParseForUpdateClause | compiler.cpp:905-915 | agrees with `ForUpdateClause` |
| Parsing.Parser.ParseFunction | compiler.cpp:923-945 | agrees with `FunctionStatement` after `function` |
| Parsing.Parser.ParseParamList | compiler.cpp:926-938 | agrees with `ParamList` |
| Parsing.Parser.ParseParams | compiler.cpp:930-937 | agrees with `Params` |
| Parsing.Parser.ParseParamNames | compiler.cpp:931-936 | the comma loop agrees with `ParamNames` |
| Parsing.Parser.ParseParamName | compiler.cpp:931-932 | agrees with `ParamName` |
| Parsing.Parser.ParseReturn | compiler.cpp:947-954 | agrees with `ReturnStatement` after `return` |
| Parsing.Parser.ParseAssignment | compiler.cpp:957-965 | agrees with `AssignmentStatement` after the name |
| Parsing.Parser.ParseParenthesised | compiler.cpp:860-862 | agrees with `Parenthesised` |
| Parsing.Parser.ParseAssignedValue | compiler.cpp:852-853 | agrees with `AssignedValue` |
| Parsing.Parser.Parse | compiler.cpp:975-983 | the statement loop up to EOF gives exactly `ProgramFrom` of the stream |
| Parsing.ParseText | compiler.cpp:971-983 | lexing the text from its start and parsing it gives exactly `ParseSource` |
| ParserProperties.AdditionAssociatesLeft | compiler.cpp:780-792 | for any three terms, `a - b - c` (any mix of `+`/`-`) parses as `(a - b) - c` |
| ParserProperties.PowerAssociatesLeft | compiler.cpp:753-764 | for any three primaries, `a ** b ** c` parses as `(a ** b) ** c` |
| ParserProperties.LevelUnfold | compiler.cpp:753-810 | every binary level parses one operand of the level below and runs its loop from there |
| ParserProperties.LevelStep | compiler.cpp:756-807 | one iteration of a level's loop parses the next operand after the operator and continues with the combined node, or stops with the operand's error |
| ParserProperties.LevelStop | compiler.cpp:756-807 | a level's loop stops at any token that is not one of its operators |
| ParserProperties.ChainLoop | compiler.cpp:756-807 | a level's loop folds every further operand of a chain onto the accumulated left operand |
| ParserProperties.LevelIsLeftFold | compiler.cpp:753-810 | at each of the four levels, any operands parsed by the level below and separated by the level's operators parse as their left fold, ending after the last operand |
| ParserProperties.OperandAlone | compiler.cpp:753-810 | an operand that no operator of the level follows is the level's whole result |
| ParserProperties.OperandPair | compiler.cpp:753-810 | `a op b` for any two operands of the level below is one node |
| ParserProperties.AssociatesLeft | compiler.cpp:753-810 | at every level, `a op b op c` for any three operands parses as `(a op b) op c` |
| ParserProperties.TermAssociatesLeft | compiler.cpp:766-778 | for any three power expressions, `a / b * c` parses as `(a / b) * c` |
| ParserProperties.ComparisonAssociatesLeft | compiler.cpp:794-810 | for any three arithmetic expressions, `a < b == c` parses as `(a < b) == c` |
| ParserProperties.PrimaryAs | compiler.cpp:753-810 | a primary that no operator of the level or a tighter one follows is a whole expression of that level |
| ParserProperties.LevelsNest | compiler.cpp:753-810 | no operator of a level is an operator of a tighter level or the end of input, and a token that no level goes on with is no level's operator |
| ParserProperties.PastOperator | compiler.cpp:753-810 | an operator of any level is never the last token, so a token follows it |
| ParserProperties.FallingStep | compiler.cpp:753-810 | at every level above `**`, an expression of the level below, an operator of the level and a primary that nothing of the level or tighter follows make one node with the expression on the left |
| ParserProperties.RisingStep | compiler.cpp:753-810 | at every level above `**`, a primary, an operator of the level and an expression of the level below that no operator of the level follows make one node with the expression on the right |
| ParserProperties.RisingPower | compiler.cpp:753-764 | `d ** e` for any two primaries, with nothing of any level after, is one node |
| ParserProperties.RisingTerm | compiler.cpp:766-778 | a primary, `*` or `/`, and any power expression with nothing of any level after it make one node with the power expression on the right |
| ParserProperties.RisingArith | compiler.cpp:780-792 | a primary, `+` or `-`, and any term with nothing of any level after it make one node with the term on the right |
| ParserProperties.RisingComparison | compiler.cpp:794-810 | a primary, a comparison and any arithmetic expression with nothing of any level after it make one node with the arithmetic expression on the right |
| ParserProperties.FallingTerm | compiler.cpp:766-778 | any power expression, `*` or `/`, and a primary that nothing of the term level or tighter follows make one node with the power expression on the left |
| ParserProperties.FallingArith | compiler.cpp:780-792 | any term, `+` or `-`, and a primary that nothing of the arithmetic level or tighter follows make one node with the term on the left |
| ParserProperties.FallingComparison | compiler.cpp:794-810 | any arithmetic expression, a comparison, and a primary that nothing of any level follows make one node with the arithmetic expression on the left |
| ParserProperties.RisingTermChain | compiler.cpp:753-778 | a primary, `*` or `/`, a primary, `**` and a primary with nothing of any level after them nest as `c * (d ** e)` |
| ParserProperties.RisingArithChain | compiler.cpp:753-792 | `b + c * d ** e` over any four primaries and operators of those levels, with nothing of any level after, nests as `b + (c * (d ** e))` |
| ParserProperties.FallingTermChain | compiler.cpp:753-778 | `a ** b * c` over any three primaries, followed by `+` or `-`, is the term `(a ** b) * c` |
| ParserProperties.FallingArithChain | compiler.cpp:753-792 | `a ** b * c + d` over any four primaries, followed by a comparison, is the arithmetic expression `((a ** b) * c) + d` |
| ParserProperties.PowerOfLiterals | compiler.cpp:753-764 | `2 ** 3 ** 2` parses as `(2 ** 3) ** 2` |
| ParserProperties.PrecedenceRising | compiler.cpp:753-810 | for any five primaries and any operators of the four levels, `a == b + c * d ** e` nests as `a == (b + (c * (d ** e)))` |
| ParserProperties.PrecedenceFalling | compiler.cpp:753-810 | for any five primaries and any operators of the four levels, `a ** b * c + d == e` parses as `(((a ** b) * c) + d) == e` |
| ParserProperties.MapKeyMustBeString | compiler.cpp:727-732 | a map literal whose first key is not a string literal fails with "Expected string key in map literal" |
| ParserProperties.LaterMapKeyMustBeString | compiler.cpp:729-738 | so does any later key after a comma |
| ParserProperties.PairsKeepOrder | compiler.cpp:729-738 | the pairs read so far stay a prefix of the result, in source order |
| ParserProperties.PairChainTail | compiler.cpp:729-738 | the comma loop after the first pair appends the rest of the pairs, in order |
| ParserProperties.TailIsChain | compiler.cpp:729-738 | the comma loop only ever appends pairs read one after another |
| ParserProperties.MapStart | compiler.cpp:725-726 | at `{` a primary is the rest of a map literal, read from the next token |
| ParserProperties.BodyOfPairs | compiler.cpp:727-738 | a map body whose first token starts a pair is that pair followed by the comma loop |
| ParserProperties.RestOfBody | compiler.cpp:727-741 | the rest of a map literal succeeds exactly when its body parses and `}` follows it, and is then the literal of the body's pairs, ending after the `}` |
| ParserProperties.RestOfChain | compiler.cpp:727-741 | pairs read one after another and closed by `}` are the rest of the map literal of exactly those pairs |
| ParserProperties.MapPairsInSourceOrder | compiler.cpp:725-742 | for any pairs read one after another and separated by commas, `{ p0, p1, ... }` is the map literal of exactly those pairs, in source order |
| ParserProperties.MapPairsIsChain | compiler.cpp:729-738 | the pairs the do-while loop of a map literal reads are a chain of pairs, each after the comma that ends the one before |
| ParserProperties.BodyIsChain | compiler.cpp:727-739 | a parsed map body is empty exactly when it starts at `}`, and otherwise is pairs read one after another |
| ParserProperties.RestIsChain | compiler.cpp:727-741 | a parsed rest of a map literal ends at `}` and holds exactly the pairs of its body |
| ParserProperties.MapLiteralPairs | compiler.cpp:725-742 | conversely, a parsed `{ ... }` is a map literal whose pairs are empty exactly when `}` follows `{` at once, and otherwise are the pairs read one after another up to the `}` |
| ParserProperties.StringIndexIsMapAccess | compiler.cpp:694-699 | `id["k"]` parses to a map access of `id` with key `k` |
| ParserProperties.AccessKind | compiler.cpp:690-706 | `id[` followed by a string literal is a map access, and followed by anything else an array access whose index is the parsed expression |
| ParserProperties.LetDeclaration | compiler.cpp:845-857 | `let x = e ;` is `VariableDeclaration(x, e)` exactly when an identifier and `=` follow `let`, the expression parses and `;` follows it; without the identifier it fails with "Expected identifier after 'let'" |
| ParserProperties.ForInitShape | compiler.cpp:824-842 | the init clause consumes nothing and yields none exactly when the token is neither `let` nor an identifier; otherwise it is a declaration of the name after `let` or an assignment to the identifier |
| ParserProperties.UpdateMustBeAssignment | compiler.cpp:905-915 | an update clause starting with neither `)` nor an identifier fails with "Expected token type" on that token |
| ParserProperties.ForHeaderRejectsUpdate | compiler.cpp:894-915 | so the whole `for` header fails with that error, whatever its init and condition |
| ParserProperties.StatementStart | compiler.cpp:844-967 | no statement starts at `}` or at EOF |
| ParserProperties.ChainHead | compiler.cpp:816-818 | a nonempty run of statements does not start at `}` or EOF, and its first statement parses and is followed by the rest of the run |
| ParserProperties.BlockLoopChain | compiler.cpp:816-818 | the statement loop of a block reads statements one after another up to `}` or EOF |
| ParserProperties.BlockChainStep | compiler.cpp:816-818 | one turn of the block's statement loop reads the first statement of a run, and the loop goes on after it with the rest |
| ParserProperties.BlockOfStatements | compiler.cpp:812-822 | `{ s0 s1 ... }` is the block of exactly those statements, in order |
| ParserProperties.ProgramIsStatements | compiler.cpp:975-983 | `parse` succeeds on any statements that parse one after another up to EOF, and yields them in order |
| ParserProperties.ProgramChainStep | compiler.cpp:978-980 | one turn of the program loop reads the first statement of a run, and the loop goes on after it with the rest |
| ParserProperties.ParsedProgramIsStatements | compiler.cpp:975-983 | conversely, when `parse` succeeds its statements are ones that parse one after another up to an EOF token |
| Semantics.Eval | compiler.cpp:1183-1305 | evaluation only appends output, never shrinks the scope stack, restores `in_function` and leaves the pending return unchanged; under the corrected fallback a normal result leaves the scope stack at its prior depth |
| Semantics.Decimal | compiler.cpp:1138-1140 | no contract of its own: the decimal digits `std::to_string` writes for a `size_t`; characterised by `SemanticsProperties.DecimalRoundTrip` |
| Semantics.Message | compiler.cpp:1013-1391 | no contract of its own: the `what()` texts of the interpreter's exceptions, "Undefined variable: " (1013), "<name>() requires numeric array" (1062-1114), "Cannot convert string to number: " (1129), "Unknown function: " (1133), the arity message (1138-1140), the array and map access errors (1217-1237), "Invalid operation: <op> on <left> and <right>" (1300-1301) and "Return statement outside of function" (1391) |
| Semantics.EvalList | compiler.cpp:1197-1200 | the same invariants, and a normal result has one value per expression |
| Semantics.EvalArray | compiler.cpp:1196-1202 | the same invariants for an array literal |
| Semantics.EvalMap | compiler.cpp:1204-1210 | the same invariants for a map literal |
| Semantics.EvalIndex | compiler.cpp:1212-1226 | the same invariants for an array access |
| Semantics.EvalKey | compiler.cpp:1228-1241 | the same invariants for a map access |
| Semantics.EvalBinary | compiler.cpp:1264-1302 | the same invariants for a binary operation |
| Semantics.EvalCall | compiler.cpp:1243-1262 | the same invariants for a call |
| Semantics.CallUser | compiler.cpp:1136-1180 | the same invariants for a user-function call: depth never shrinks, and the caller's `in_function` and pending return are restored whether the body succeeds or fails |
| Semantics.Exec | compiler.cpp:1307-1399 | a statement only appends output, never shrinks the scope stack and restores `in_function`; under the corrected fallback a statement that completes leaves the scope stack at its prior depth |
| Semantics.ExecDeclare | compiler.cpp:1312-1315 | the same invariants, and the pending return is unchanged |
| Semantics.ExecAssign | compiler.cpp:1316-1320 | the same invariants, and the pending return is unchanged |
| Semantics.ExecPrint | compiler.cpp:1321-1324 | the same invariants, and the pending return is unchanged |
| Semantics.ExecBlock | compiler.cpp:1325-1336 | the same invariants for a block, which pushes and pops its own scope |
| Semantics.ExecSeq | compiler.cpp:1329-1332 | the same invariants for the statement loop of a block |
| Semantics.ExecIf | compiler.cpp:1337-1344 | the same invariants for `if` |
| Semantics.ExecWhile | compiler.cpp:1345-1354 | the same invariants for `while` |
| Semantics.ExecFor | compiler.cpp:1355-1384 | the same invariants for `for`, which pushes and pops its loop scope |
| Semantics.ForLoop | compiler.cpp:1365-1380 | the same invariants for the loop of a `for` |
| Semantics.ExecReturn | compiler.cpp:1389-1398 | the same invariants for `return` |
| Semantics.ExecProgram | compiler.cpp:1401-1405 | the same invariants for the top-level statement loop |
| Semantics.LookupIn | compiler.cpp:1004-1008 | no contract of its own; characterised by `SemanticsProperties.LookupInInnermost` |
| Semantics.Lookup | compiler.cpp:1002-1014 | no contract of its own; characterised by `SemanticsProperties.GlobalsWhenNoLocal`, `LocalShadowsGlobal` and `LookupAfterBind` |
| Semantics.Bind | compiler.cpp:1016-1023 | no contract of its own; characterised by `SemanticsProperties.LookupAfterBind` and `BindTouchesInnermostOnly` |
| Semantics.ParamScope | compiler.cpp:1143-1149 | no contract of its own; characterised by `SemanticsProperties.ParamScopeFind` |
| Semantics.Pop | compiler.cpp:1160-1177 | no contract of its own: the innermost scope is removed; used by `CallUser`, `ExecBlock` and `ExecFor`, whose invariants it keeps |
| Semantics.NumericOp | compiler.cpp:1274-1291 | no contract of its own; characterised by `SemanticsProperties.ComparisonYieldsFlag` |
| Semantics.ApplyOp | compiler.cpp:1264-1302 | no contract of its own; characterised by `SemanticsProperties.PlusWithStringConcatenates`, `StringsOnlyCompareForEquality` and `OperandTypesChecked` |
| Semantics.Total | compiler.cpp:1110-1118 | no contract of its own; characterised by `SemanticsProperties.TotalAppend` and computed by `Interpreting.Interpreter.SumNumbers` |
| Semantics.Deviations | compiler.cpp:1079-1082 | no contract of its own; computed by `Interpreting.Interpreter.SquaredDeviations` |
| Semantics.Largest | compiler.cpp:1088-1097 | no contract of its own; characterised by `SemanticsProperties.LargestIsMaximum` |
| Semantics.Smallest | compiler.cpp:1099-1108 | no contract of its own; characterised by `SemanticsProperties.SmallestIsMinimum` |
| Semantics.Length | compiler.cpp:1044-1054 | no contract of its own; characterised by `SemanticsProperties.LengthOfValues` |
| Semantics.Statistic | compiler.cpp:1057-1118 | no contract of its own; characterised by `SemanticsProperties.StatisticNeedsNumbers` and computed by `Interpreting.Interpreter.Statistics` |
| Semantics.Builtin | compiler.cpp:1025-1134 | no contract of its own; characterised by `SemanticsProperties.UnknownBuiltin` and `LengthOfValues`, and computed by `Interpreting.Interpreter.CallBuiltinFunction` |
| Semantics.Element | compiler.cpp:1212-1226 | no contract of its own; characterised by `SemanticsProperties.ElementChecks` |
| Semantics.KeyValue | compiler.cpp:1228-1241 | no contract of its own; characterised by `SemanticsProperties.KeyValueChecks` |
| Semantics.RunProgram | compiler.cpp:1401-1405 | no contract of its own: `ExecProgram` from the initial state; characterised by `SemanticsProperties.ProgramSplits` and `FirstAbruptStatement` |
| Interpreting.Interpreter.constructor | compiler.cpp:995-1000 | a new interpreter has no globals, no local scopes, is not in a function, has no pending return and has printed nothing |
| Interpreting.Interpreter.GetVariable | compiler.cpp:1002-1014 | the lookup succeeds exactly when `Lookup` finds the name (innermost scope first, then globals), returns that value, and otherwise fails with "Undefined variable" |
| Interpreting.Interpreter.SetVariable | compiler.cpp:1016-1023 | the new state is `Bind` of the old one: a write into the innermost scope, or into the globals when there is none |
| Interpreting.Interpreter.SumNumbers | compiler.cpp:1110-1118 | the summing loop succeeds exactly when every element is a number, gives `Total`, and otherwise fails with "requires numeric array" |
| Interpreting.Interpreter.SquaredDeviations | compiler.cpp:1079-1082 | the variance loop gives `Deviations` |
| Interpreting.Interpreter.Extreme | compiler.cpp:1088-1108 | the max/min loop succeeds exactly when every element is a number and then gives `Largest`/`Smallest` |
| Interpreting.Interpreter.Statistics | compiler.cpp:1057-1118 | `mean`, `std`, `max`, `min` and `sum` on an array give `Statistic` |
| Interpreting.Interpreter.CallBuiltinFunction | compiler.cpp:1025-1134 | the builtin dispatch gives exactly `Builtin` |
| Interpreting.Interpreter.EvaluateExpression | compiler.cpp:1183-1305 | the result and the new state are `Eval` of the old state |
| Interpreting.Interpreter.EvaluateList | compiler.cpp:1197-1200 | the loop gives `EvalList` |
| Interpreting.Interpreter.EvaluateMap | compiler.cpp:1204-1210 | the loop gives `EvalMap` |
| Interpreting.Interpreter.EvaluateIndex | compiler.cpp:1212-1226 | gives `EvalIndex` |
| Interpreting.Interpreter.EvaluateKey | compiler.cpp:1228-1241 | gives `EvalKey` |
| Interpreting.Interpreter.EvaluateBinary | compiler.cpp:1264-1302 | gives `EvalBinary` |
| Interpreting.Interpreter.EvaluateCall | compiler.cpp:1243-1262 | gives `EvalCall`, including the fallback to the builtins |
| Interpreting.Interpreter.CallUserFunction | compiler.cpp:1136-1180 | the save, run and restore of a call gives `CallUser` |
| Interpreting.Interpreter.PushParameters | compiler.cpp:1143-1149 | the argument loop pushes exactly the scope `ParamScope` and changes nothing else |
| Interpreting.Interpreter.ExecuteStatement | compiler.cpp:1307-1399 | the result and the new state are `Exec` of the old state |
| Interpreting.Interpreter.ExecuteAssignment | compiler.cpp:1316-1320 | gives `ExecAssign` |
| Interpreting.Interpreter.ExecuteBlock | compiler.cpp:1325-1336 | the loop with its early break gives `ExecBlock` |
| Interpreting.Interpreter.ExecuteIf | compiler.cpp:1337-1344 | gives `ExecIf` |
| Interpreting.Interpreter.ExecuteWhile | compiler.cpp:1345-1354 | the `while (true)` loop gives `ExecWhile` |
| Interpreting.Interpreter.ExecuteFor | compiler.cpp:1355-1384 | gives `ExecFor` |
| Interpreting.Interpreter.ExecuteForLoop | compiler.cpp:1365-1380 | the loop gives `ForLoop` |
| Interpreting.Interpreter.ExecuteReturn | compiler.cpp:1389-1398 | gives `ExecReturn` |
| Interpreting.Interpreter.Execute | compiler.cpp:1401-1405 | the program loop gives `ExecProgram` |
| SemanticsProperties.LookupInInnermost | compiler.cpp:1004-1008 | the scope scan fails exactly when no scope binds the name, and otherwise answers from the innermost scope that binds it |
| SemanticsProperties.GlobalsWhenNoLocal | compiler.cpp:1009-1013 | a name no local scope binds is looked up in the globals |
| SemanticsProperties.LocalShadowsGlobal | compiler.cpp:1004-1008 | a local binding hides every outer and global binding of the name |
| SemanticsProperties.LookupAfterBind | compiler.cpp:1016-1023 | after a write the name reads back the written value and every other name reads as before |
| SemanticsProperties.BindTouchesInnermostOnly | compiler.cpp:1016-1023 | a write with an open local scope changes neither the globals nor any outer scope, nor the depth, the flags or the output |
| SemanticsProperties.DeclarationIsGlobal | compiler.cpp:1385-1388 | a function declaration always goes into the globals, even inside a block, and is visible unless a local binding hides it |
| SemanticsProperties.CalleeSeesCallerLocals | compiler.cpp:1143-1149 | in a call's body a name that is not a parameter resolves as it would in the caller |
| SemanticsProperties.ParamScopeFind | compiler.cpp:1147-1149 | the call's scope binds exactly the parameter names |
| SemanticsProperties.SkippedAfterReturn | compiler.cpp:1308-1310 | once a function has returned every statement is a no-op |
| SemanticsProperties.ReturnOutsideFunctionFails | compiler.cpp:1390-1392 | `return` outside a function fails with "Return statement outside of function" and changes nothing |
| SemanticsProperties.AssignmentNeedsBinding | compiler.cpp:1316-1318 | an assignment to a name bound nowhere fails with "Undefined variable" before its value is evaluated |
| SemanticsProperties.ArityChecked | compiler.cpp:1137-1141 | a call with the wrong number of arguments fails with the arity message and changes nothing |
| SemanticsProperties.CallArityMismatch | compiler.cpp:1243-1262 | at the call expression a wrong argument count reaches the caller as the arity error under the corrected fallback, and as written is swallowed so that the builtins answer for the callee's name |
| SemanticsProperties.CallRestoresCallerState | compiler.cpp:1151-1174 | a call restores the caller's `in_function` and pending return whether its body succeeds or fails |
| SemanticsProperties.ExecKeepsReturn | compiler.cpp:1307-1399 | a statement containing no `return` leaves the pending return unchanged |
| SemanticsProperties.SeqKeepsReturn | compiler.cpp:1329-1332 | so does a sequence of such statements |
| SemanticsProperties.WhileKeepsReturn | compiler.cpp:1345-1354 | so does a `while` whose body has no `return` |
| SemanticsProperties.ForKeepsReturn | compiler.cpp:1365-1380 | so does the loop of a `for` whose body and update have no `return` |
| SemanticsProperties.CallWithoutReturnYieldsZero | compiler.cpp:1169-1170 | a call whose body has no `return` yields 0 when it completes |
| SemanticsProperties.ComparisonYieldsFlag | compiler.cpp:1285-1291 | a comparison of two numbers yields 1 when it holds and 0 when it does not |
| SemanticsProperties.PlusWithStringConcatenates | compiler.cpp:1268-1271 | `+` with a string on either side concatenates the two renderings |
| SemanticsProperties.StringsOnlyCompareForEquality | compiler.cpp:1294-1298 | two strings support exactly `==` and `!=` (besides `+`); `==` compares the texts |
| SemanticsProperties.OperandTypesChecked | compiler.cpp:1300-1301 | every other operand combination fails with "Invalid operation" |
| SemanticsProperties.ElementChecks | compiler.cpp:1212-1226 | an array access succeeds exactly on an array with a number index in range and yields that element; an out-of-range index fails with "Array index out of bounds" |
| SemanticsProperties.KeyValueChecks | compiler.cpp:1228-1241 | a map access succeeds exactly on a map holding the key, and a non-map fails with "Invalid map access" |
| SemanticsProperties.LargestIsMaximum | compiler.cpp:1088-1097 | the `max` result bounds every element and is one of them |
| SemanticsProperties.SmallestIsMinimum | compiler.cpp:1099-1108 | the `min` result is below every element and is one of them |
| SemanticsProperties.TotalAppend | compiler.cpp:1110-1118 | the sum of two arrays joined is the sum of their sums |
| SemanticsProperties.StatisticNeedsNumbers | compiler.cpp:1057-1118 | the statistics reject an array with a non-number, except `std` of at most one element, which yields 0 without looking |
| SemanticsProperties.UnknownBuiltin | compiler.cpp:1133 | a name no builtin case accepts fails with "Unknown function" |
| SemanticsProperties.LengthOfValues | compiler.cpp:1044-1054 | `len` succeeds exactly on strings, arrays and maps and gives the length of the character sequence, the number of elements or the number of entries |
| SemanticsProperties.TruthyMeansNonEmpty | compiler.cpp:115-124 | a string, array or map is truthy exactly when its `len` is not 0, a number when it is not 0, and a function always |
| SemanticsProperties.DecimalRoundTrip | compiler.cpp:1138-1140 | the counts in the arity message are decimal digits that read back as the counts |
| SemanticsProperties.ProgramSplits | compiler.cpp:1401-1405 | running a program is running a prefix of its statements and, when that ends normally, the rest from the state it left |
| SemanticsProperties.FirstAbruptStatement | compiler.cpp:1401-1405 | a program's run ends with its first statement that does not end normally, with that statement's outcome and state, and the output of the statements before it kept |
| Findings.BodyThrows | compiler.cpp:1159-1167 | a body that reads an unbound name throws, and the cleanup pops the block's scope, not the call's |
| Findings.NotBound | compiler.cpp:1002-1013 | inside the body, `t` is bound in no scope and not among the globals, so `get_variable` finds nothing |
| Findings.Arguments | compiler.cpp:1245-1248 | the argument `"ab"` evaluates to one string without changing the state |
| Findings.FallbackLeaksScope | compiler.cpp:1251-1261 | as written, the call expression `len("ab")` with a user `len` whose body throws succeeds with 2 from the builtin and leaves one extra scope on the stack |
| Findings.LeakedScopeCapturesLet | compiler.cpp:1016-1023 | a later top-level `let` then writes into the leaked scope, not the globals |
| Findings.PrintLeaksScope | compiler.cpp:1321-1324 | as written, `print len("ab");` prints the builtin's 2 and leaves the parameter scope on the stack |
| Findings.LetInLeakedScope | compiler.cpp:1016-1023 | at top level with that scope on the stack, `let z = 1;` binds `z` in it |
| Findings.LeakProgramRun | compiler.cpp:1401-1405 | as written, `function len(s) { return t; } print len("ab"); let z = 1;` ends normally, prints 2, and binds `z` only in the leaked scope, not among the globals |
| Findings.CorrectedLeakProgram | compiler.cpp:1251-1261 | under the corrected fallback the same program stops at the `print` with "Undefined variable: t" |
| Findings.CorrectedCallPropagates | compiler.cpp:1251-1261 | under the corrected fallback the same call fails with the body's "Undefined variable" error |
| Findings.TwoArguments | compiler.cpp:1245-1248 | the arguments `1, 2` evaluate to two numbers without changing the state |
| Findings.ArityErrorSwallowed | compiler.cpp:1251-1261 | as written, after `function f(a) {}` the call expression `f(1, 2)` fails with "Unknown function: f" instead of the arity error |
| Findings.CorrectedArityReported | compiler.cpp:1137-1141 | under the corrected fallback the same call fails with the arity error for `f`, 1 expected and 2 given |
| Findings.ArityProgramRun | compiler.cpp:1401-1405 | as written, `function f(a) {} print f(1, 2);` stops at the `print` with "Unknown function: f" |
| Findings.CorrectedArityProgram | compiler.cpp:1137-1141 | under the corrected fallback the same program stops with the arity error for `f`, 1 expected and 2 given |

## Left out

- The LLVM JIT back end, every `codegen` method and the demo code around it: these are foreign library calls.
- The AST `print` methods and `main`: console I/O only. A `print` statement appends its line to the `out` field of the state instead of writing to standard output.
- Floating-point arithmetic. Numbers are `int`.
  - Division, `**`, `sqrt`, `log`, `exp` and `std::to_string(double)` are `Host` parameters.
  - So is `std::stod` in the number token and in `num`; its exception is `stod` answering None.
  - The `double`-to-index conversion of an array access is the identity on integers.
- Map iteration order. `std::unordered_map` does not specify it. Maps are association lists in insertion order, so no lemma states a map's rendering.
- Non-termination and host stack exhaustion. `Eval`/`Exec` take fuel, and `OutOfFuel` stands for a step that does not end. The call fallback does not catch it.
- Parsing.PrimaryExpr: the production functions' own `ensures` clauses state only progress through the token stream. This applies to every function in `Parsing` from `PrimaryExpr` to `AssignmentStatement`. What they build is stated by the `Parser` methods' `ensures` and by the `ParserProperties` lemmas.
- Semantics.Eval: the `ensures` clauses of the evaluator functions state the state invariants only (`Keeps`). The values they compute are stated by the `SemanticsProperties` lemmas.
- Scope balance under the as-written fallback. "A block, a `for` loop or a call leaves the scope stack at its prior depth" is proved only for the corrected fallback, because the as-written code does not keep it (see "## Findings").
- The "Unknown expression type" error. Every expression form is handled, so it cannot be thrown.
- The token's line and column for string, number and identifier tokens. C++ leaves the evaluation order of the constructor's arguments unspecified. The model uses the counters as they are after the token is read.

- Bytes. The source's strings hold bytes and the model's hold characters; the two agree exactly on single-byte (ASCII) text.
- SemanticsProperties.LengthOfValues: counts the characters of a string, where `std::string::length` counts bytes; a character of more than one byte in UTF-8 counts once here and several times in the source.
- LexerProperties.InvalidCharacter: one INVALID token per character, where the source emits one per byte, so a multi-byte character gives one token here and several in the source.

## Findings

The comment in the call expression's `catch` block (compiler.cpp:1257, "Not a variable, try built-in function") says the builtins are tried when the callee is not a variable. The `catch (...)` also swallows the exceptions of `call_user_function`: a wrong argument count and any error raised in the function's body. The model follows the code (`CatchAll`) and offers the commented intent as `CatchLookup`.

| source | as written | input that shows it | evidently intended | confidence | as-written member | corrected member |
|---|---|---|---|---|---|---|
| compiler.cpp:1251-1261 | `catch (...)` around the lookup and the user call also swallows an exception thrown inside the called function's body and falls back to the builtins; the body's block scope was never popped and the call's cleanup pops only one scope, so the parameter scope stays on the stack and later top-level `let`s land in it | `function len(s) { return t; } print len("ab"); let z = 1;` — the call yields 2 from the builtin `len` instead of failing with "Undefined variable: t", and `z` is not a global | as the comment at compiler.cpp:1257 says, only a callee that is not a variable falls back to the builtins; an error from the body propagates, and a call that completes leaves the scope stack at its prior depth | not executed | Findings.LeakProgramRun | Findings.CorrectedLeakProgram |
| compiler.cpp:1251-1261 | the same `catch (...)` swallows the arity error of `call_user_function`; the builtins, which know no function of that name, then fail | `function f(a) {} print f(1, 2);` ends with "Unknown function: f" instead of "Function f expects 1 arguments, got 2" | as the comment at compiler.cpp:1257 says, only a callee that is not a variable falls back to the builtins, so the arity error reaches the caller | not executed | Findings.ArityProgramRun | Findings.CorrectedArityProgram |
