/** The recursive-descent parser (compiler.cpp, class `Parser`): the grammar
    as functions on the token stream, and the class that pulls tokens from a
    `Lexer` one at a time and is proved to follow those functions. */
module Parsing {
  import opened Wrappers
  import opened Ast
  import opened Lexing

  /** `std::stod` on a NUMBER token's text; `None` when it throws. */
  type Stod = string -> Option<Number>

  /** The exceptions the parser throws; `Message` gives the text of each. */
  datatype ParseError =
    | ExpectedToken(got: string)
    | InvalidNumber(text: string)
    | UnexpectedToken(got: string)
    | ExpectedStringKey
    | ExpectedLetName
    | UnexpectedStatement(got: string)

  /** The `what()` text of each exception: the parser's own messages, and the
      one `std::stod` raises for a literal it cannot convert. */
  function Message(e: ParseError): string {
    match e
    case ExpectedToken(got) => "Expected token type, got: " + got
    case InvalidNumber(_) => "stod"
    case UnexpectedToken(got) => "Unexpected token: " + got
    case ExpectedStringKey => "Expected string key in map literal"
    case ExpectedLetName => "Expected identifier after 'let'"
    case UnexpectedStatement(got) => "Unexpected statement: " + got
  }

  /** What a parser method answers: the tree, or the exception it throws. */
  type Outcome<T> = Result<T, ParseError>

  /** The outcome of a production that starts at some position of a token
      stream: the tree built and the position after it, or the message of the
      `std::runtime_error` it throws. */
  datatype Parsed<T> = POk(value: T, next: nat) | PErr(error: ParseError)
  {
    predicate IsFailure() { PErr? }

    function PropagateFailure<U>(): Parsed<U>
      requires PErr?
    {
      PErr(error)
    }

    function Extract(): (T, nat)
      requires POk?
    {
      (value, next)
    }
  }

  /** A token stream as the lexer delivers it: it ends with an EOF token, the
      token `next_token` keeps answering once the input is exhausted. */
  predicate WellFormed(ts: seq<Token>) {
    |ts| > 0 && ts[|ts| - 1].kind == EofTok
  }

  /** A position of a well-formed stream. Past a token that is not EOF there
      is always a next token. */
  predicate Within(ts: seq<Token>, i: nat) {
    WellFormed(ts) && i < |ts|
  }

  /** A production that succeeded consumed at least one token. */
  predicate Consumes<T>(r: Parsed<T>, ts: seq<Token>, i: nat) {
    r.POk? ==> i < r.next < |ts|
  }

  /** A production that succeeded consumed zero or more tokens. */
  predicate Keeps<T>(r: Parsed<T>, ts: seq<Token>, i: nat) {
    r.POk? ==> i <= r.next < |ts|
  }

  /** `expect`: the current token must have kind `k`; it is consumed, and
      otherwise the parse fails naming the token's text. */
  function Expected(ts: seq<Token>, i: nat, k: TokenKind): (r: Parsed<()>)
    requires Within(ts, i) && k != EofTok
    ensures r.POk? <==> ts[i].kind == k
    ensures r.POk? ==> r.next == i + 1 && r.next < |ts|
    ensures r.PErr? ==> r.error == ExpectedToken(ts[i].text)
  {
    if ts[i].kind != k then PErr(ExpectedToken(ts[i].text))
    else POk((), i + 1)
  }

  /** The operators folded by `parse_term`. */
  predicate IsMultiplicative(k: TokenKind) {
    k == Multiply || k == Divide
  }

  /** The operators folded by `parse_arithmetic`. */
  predicate IsAdditive(k: TokenKind) {
    k == Plus || k == Minus
  }

  /** The comparison operators folded by `parse_expression`. */
  predicate IsComparison(k: TokenKind) {
    k == Equal || k == NotEqual || k == LessThan || k == GreaterThan || k == LessEqual || k == GreaterEqual
  }

  // ---------------------------------------------------------------------
  // Expressions. Mutual recursion descends on the tokens left and, for
  // calls at the same position, on the precedence level.
  // ---------------------------------------------------------------------

  /** `parse_primary`. */
  function PrimaryExpr(sd: Stod, ts: seq<Token>, i: nat): (r: Parsed<Expr>)
    requires Within(ts, i)
    ensures Consumes(r, ts, i)
    decreases |ts| - i, 0
  {
    var t := ts[i];
    if t.kind == NumberTok then
      var n := sd(t.text);
      if n.None? then PErr(InvalidNumber(t.text)) else POk(NumberLiteral(n.value), i + 1)
    else if t.kind == StringTok then POk(StringLiteral(t.text), i + 1)
    else if t.kind == IdentTok then IdentifierTail(sd, ts, t.text, i + 1)
    else if t.kind == LBracket then ArrayRest(sd, ts, i + 1)
    else if t.kind == LBrace then MapRest(sd, ts, i + 1)
    else if t.kind == LParen then GroupRest(sd, ts, i + 1)
    else PErr(UnexpectedToken(t.text))
  }

  /** An array literal after its `[`. */
  function ArrayRest(sd: Stod, ts: seq<Token>, i: nat): (r: Parsed<Expr>)
    requires Within(ts, i)
    ensures Consumes(r, ts, i)
    decreases |ts| - i, 7
  {
    var elems :- ExprList(sd, ts, i, RBracket);
    var close :- Expected(ts, elems.1, RBracket);
    POk(ArrayLiteral(elems.0), close.1)
  }

  /** A map literal after its `{`. */
  function MapRest(sd: Stod, ts: seq<Token>, i: nat): (r: Parsed<Expr>)
    requires Within(ts, i)
    ensures Consumes(r, ts, i)
    decreases |ts| - i, 3
  {
    var pairs :- MapBody(sd, ts, i);
    var close :- Expected(ts, pairs.1, RBrace);
    POk(MapLiteral(pairs.0), close.1)
  }

  /** A parenthesised expression after its `(`. */
  function GroupRest(sd: Stod, ts: seq<Token>, i: nat): (r: Parsed<Expr>)
    requires Within(ts, i)
    ensures Consumes(r, ts, i)
    decreases |ts| - i, 5
  {
    var inner :- Expression(sd, ts, i);
    var close :- Expected(ts, inner.1, RParen);
    POk(inner.0, close.1)
  }

  /** What follows an identifier in `parse_primary`: a call's argument list,
      a bracketed access, or nothing (a plain variable reference). */
  function IdentifierTail(sd: Stod, ts: seq<Token>, name: string, i: nat): (r: Parsed<Expr>)
    requires Within(ts, i)
    ensures Keeps(r, ts, i)
    decreases |ts| - i, 0
  {
    if ts[i].kind == LParen then CallRest(sd, ts, name, i + 1)
    else if ts[i].kind == LBracket then AccessRest(sd, ts, name, i + 1)
    else POk(Identifier(name), i)
  }

  /** A call's arguments after its `(`. */
  function CallRest(sd: Stod, ts: seq<Token>, name: string, i: nat): (r: Parsed<Expr>)
    requires Within(ts, i)
    ensures Consumes(r, ts, i)
    decreases |ts| - i, 7
  {
    var args :- ExprList(sd, ts, i, RParen);
    var close :- Expected(ts, args.1, RParen);
    POk(FunctionCall(name, args.0), close.1)
  }

  /** An access after `name[`: a map access when the bracket holds a string
      literal token, an array access with an index expression otherwise. */
  function AccessRest(sd: Stod, ts: seq<Token>, name: string, i: nat): (r: Parsed<Expr>)
    requires Within(ts, i)
    ensures Consumes(r, ts, i)
    decreases |ts| - i, 5
  {
    if ts[i].kind == StringTok then
      var close :- Expected(ts, i + 1, RBracket);
      POk(MapAccess(Identifier(name), ts[i].text), close.1)
    else
      var index :- Expression(sd, ts, i);
      var close :- Expected(ts, index.1, RBracket);
      POk(ArrayAccess(Identifier(name), index.0), close.1)
  }

  /** The comma-separated expressions of a call or an array literal: none
      when the stream is already at the closing token. */
  function ExprList(sd: Stod, ts: seq<Token>, i: nat, close: TokenKind): (r: Parsed<seq<Expr>>)
    requires Within(ts, i)
    ensures Keeps(r, ts, i)
    decreases |ts| - i, 6
  {
    if ts[i].kind == close then POk([], i) else ExprItems(sd, ts, i)
  }

  /** One or more comma-separated expressions. */
  function ExprItems(sd: Stod, ts: seq<Token>, i: nat): (r: Parsed<seq<Expr>>)
    requires Within(ts, i)
    ensures Consumes(r, ts, i)
    decreases |ts| - i, 5
  {
    var first :- Expression(sd, ts, i);
    ExprListTail(sd, ts, first.1, [first.0])
  }

  /** The loop `while (match(COMMA)) add(parse_expression())`. */
  function ExprListTail(sd: Stod, ts: seq<Token>, i: nat, acc: seq<Expr>): (r: Parsed<seq<Expr>>)
    requires Within(ts, i)
    ensures Keeps(r, ts, i)
    decreases |ts| - i, 0
  {
    if ts[i].kind == Comma then
      var next :- Expression(sd, ts, i + 1);
      ExprListTail(sd, ts, next.1, acc + [next.0])
    else POk(acc, i)
  }

  /** The pairs of a map literal, after its `{`: none when the stream is at `}`. */
  function MapBody(sd: Stod, ts: seq<Token>, i: nat): (r: Parsed<seq<Pair>>)
    requires Within(ts, i)
    ensures Keeps(r, ts, i)
    decreases |ts| - i, 2
  {
    if ts[i].kind == RBrace then POk([], i) else MapPairs(sd, ts, i)
  }

  /** The do-while loop of a map literal: one pair, then more pairs for as
      long as a comma follows. */
  function MapPairs(sd: Stod, ts: seq<Token>, i: nat): (r: Parsed<seq<Pair>>)
    requires Within(ts, i)
    ensures Consumes(r, ts, i)
    decreases |ts| - i, 1
  {
    var first :- PairAt(sd, ts, i);
    PairsTail(sd, ts, first.1, [first.0])
  }

  /** The pairs after the first one, each introduced by a comma. */
  function PairsTail(sd: Stod, ts: seq<Token>, i: nat, acc: seq<Pair>): (r: Parsed<seq<Pair>>)
    requires Within(ts, i)
    ensures Keeps(r, ts, i)
    decreases |ts| - i, 0
  {
    if ts[i].kind == Comma then
      var pair :- PairAt(sd, ts, i + 1);
      PairsTail(sd, ts, pair.1, acc + [pair.0])
    else POk(acc, i)
  }

  /** One `"key" : expression` pair; the key must be a string literal token. */
  function PairAt(sd: Stod, ts: seq<Token>, i: nat): (r: Parsed<Pair>)
    requires Within(ts, i)
    ensures Consumes(r, ts, i)
    decreases |ts| - i, 0
  {
    if ts[i].kind != StringTok then PErr(ExpectedStringKey)
    else
      var colon :- Expected(ts, i + 1, Colon);
      var value :- Expression(sd, ts, colon.1);
      POk(Pair(ts[i].text, value.0), value.1)
  }

  /** `parse_power`. */
  function PowerExpr(sd: Stod, ts: seq<Token>, i: nat): (r: Parsed<Expr>)
    requires Within(ts, i)
    ensures Consumes(r, ts, i)
    decreases |ts| - i, 1
  {
    var left :- PrimaryExpr(sd, ts, i);
    PowerLoop(sd, ts, left.1, left.0)
  }

  /** The left fold of `parse_power` over `**`. */
  function PowerLoop(sd: Stod, ts: seq<Token>, i: nat, left: Expr): (r: Parsed<Expr>)
    requires Within(ts, i)
    ensures Keeps(r, ts, i)
    decreases |ts| - i, 0
  {
    if ts[i].kind == Power then
      var right :- PrimaryExpr(sd, ts, i + 1);
      PowerLoop(sd, ts, right.1, BinaryOperation(left, ts[i].text, right.0))
    else POk(left, i)
  }

  /** `parse_term`. */
  function TermExpr(sd: Stod, ts: seq<Token>, i: nat): (r: Parsed<Expr>)
    requires Within(ts, i)
    ensures Consumes(r, ts, i)
    decreases |ts| - i, 2
  {
    var left :- PowerExpr(sd, ts, i);
    TermLoop(sd, ts, left.1, left.0)
  }

  /** The left fold of `parse_term` over `*` and `/`. */
  function TermLoop(sd: Stod, ts: seq<Token>, i: nat, left: Expr): (r: Parsed<Expr>)
    requires Within(ts, i)
    ensures Keeps(r, ts, i)
    decreases |ts| - i, 0
  {
    if IsMultiplicative(ts[i].kind) then
      var right :- PowerExpr(sd, ts, i + 1);
      TermLoop(sd, ts, right.1, BinaryOperation(left, ts[i].text, right.0))
    else POk(left, i)
  }

  /** `parse_arithmetic`. */
  function ArithExpr(sd: Stod, ts: seq<Token>, i: nat): (r: Parsed<Expr>)
    requires Within(ts, i)
    ensures Consumes(r, ts, i)
    decreases |ts| - i, 3
  {
    var left :- TermExpr(sd, ts, i);
    ArithLoop(sd, ts, left.1, left.0)
  }

  /** The left fold of `parse_arithmetic` over `+` and `-`. */
  function ArithLoop(sd: Stod, ts: seq<Token>, i: nat, left: Expr): (r: Parsed<Expr>)
    requires Within(ts, i)
    ensures Keeps(r, ts, i)
    decreases |ts| - i, 0
  {
    if IsAdditive(ts[i].kind) then
      var right :- TermExpr(sd, ts, i + 1);
      ArithLoop(sd, ts, right.1, BinaryOperation(left, ts[i].text, right.0))
    else POk(left, i)
  }

  /** `parse_expression`. */
  function Expression(sd: Stod, ts: seq<Token>, i: nat): (r: Parsed<Expr>)
    requires Within(ts, i)
    ensures Consumes(r, ts, i)
    decreases |ts| - i, 4
  {
    var left :- ArithExpr(sd, ts, i);
    ComparisonLoop(sd, ts, left.1, left.0)
  }

  /** The left fold of `parse_expression` over the six comparisons. */
  function ComparisonLoop(sd: Stod, ts: seq<Token>, i: nat, left: Expr): (r: Parsed<Expr>)
    requires Within(ts, i)
    ensures Keeps(r, ts, i)
    decreases |ts| - i, 0
  {
    if IsComparison(ts[i].kind) then
      var right :- ArithExpr(sd, ts, i + 1);
      ComparisonLoop(sd, ts, right.1, BinaryOperation(left, ts[i].text, right.0))
    else POk(left, i)
  }

  /** One iteration of each operator loop, unfolded: the right operand is
      parsed after the operator, and either its error ends the loop or the
      loop continues with the combined left operand. */
  lemma PowerStep(sd: Stod, ts: seq<Token>, i: nat, left: Expr)
    requires Within(ts, i) && ts[i].kind == Power
    ensures Within(ts, i + 1)
    ensures var right := PrimaryExpr(sd, ts, i + 1);
      PowerLoop(sd, ts, i, left)
      == if right.PErr? then PErr(right.error)
         else PowerLoop(sd, ts, right.next, BinaryOperation(left, ts[i].text, right.value))
  {
  }

  lemma TermStep(sd: Stod, ts: seq<Token>, i: nat, left: Expr)
    requires Within(ts, i) && IsMultiplicative(ts[i].kind)
    ensures Within(ts, i + 1)
    ensures var right := PowerExpr(sd, ts, i + 1);
      TermLoop(sd, ts, i, left)
      == if right.PErr? then PErr(right.error)
         else TermLoop(sd, ts, right.next, BinaryOperation(left, ts[i].text, right.value))
  {
  }

  lemma ArithStep(sd: Stod, ts: seq<Token>, i: nat, left: Expr)
    requires Within(ts, i) && IsAdditive(ts[i].kind)
    ensures Within(ts, i + 1)
    ensures var right := TermExpr(sd, ts, i + 1);
      ArithLoop(sd, ts, i, left)
      == if right.PErr? then PErr(right.error)
         else ArithLoop(sd, ts, right.next, BinaryOperation(left, ts[i].text, right.value))
  {
  }

  lemma ComparisonStep(sd: Stod, ts: seq<Token>, i: nat, left: Expr)
    requires Within(ts, i) && IsComparison(ts[i].kind)
    ensures Within(ts, i + 1)
    ensures var right := ArithExpr(sd, ts, i + 1);
      ComparisonLoop(sd, ts, i, left)
      == if right.PErr? then PErr(right.error)
         else ComparisonLoop(sd, ts, right.next, BinaryOperation(left, ts[i].text, right.value))
  {
  }

  lemma ExprListStep(sd: Stod, ts: seq<Token>, i: nat, acc: seq<Expr>)
    requires Within(ts, i) && ts[i].kind == Comma
    ensures Within(ts, i + 1)
    ensures var next := Expression(sd, ts, i + 1);
      ExprListTail(sd, ts, i, acc)
      == if next.PErr? then PErr(next.error)
         else ExprListTail(sd, ts, next.next, acc + [next.value])
  {
  }

  lemma PairsStep(sd: Stod, ts: seq<Token>, i: nat, acc: seq<Pair>)
    requires Within(ts, i) && ts[i].kind == Comma
    ensures Within(ts, i + 1)
    ensures var pair := PairAt(sd, ts, i + 1);
      PairsTail(sd, ts, i, acc)
      == if pair.PErr? then PErr(pair.error)
         else PairsTail(sd, ts, pair.next, acc + [pair.value])
  {
  }

  // ---------------------------------------------------------------------
  // Statements.
  // ---------------------------------------------------------------------

  /** `parse_block`: `{`, statements up to `}` or the end of input, `}`. */
  function BlockStmts(sd: Stod, ts: seq<Token>, i: nat): (r: Parsed<seq<Stmt>>)
    requires Within(ts, i)
    ensures Consumes(r, ts, i)
    decreases |ts| - i, 0
  {
    var open :- Expected(ts, i, LBrace);
    var body :- BlockLoop(sd, ts, open.1, []);
    var close :- Expected(ts, body.1, RBrace);
    POk(body.0, close.1)
  }

  /** The statement loop of `parse_block`. */
  function BlockLoop(sd: Stod, ts: seq<Token>, i: nat, acc: seq<Stmt>): (r: Parsed<seq<Stmt>>)
    requires Within(ts, i)
    ensures Keeps(r, ts, i)
    decreases |ts| - i, 2
  {
    if ts[i].kind != RBrace && ts[i].kind != EofTok then
      var s :- Statement(sd, ts, i);
      BlockLoop(sd, ts, s.1, acc + [s.0])
    else POk(acc, i)
  }

  /** `parse_statement`: dispatch on the first token. */
  function Statement(sd: Stod, ts: seq<Token>, i: nat): (r: Parsed<Stmt>)
    requires Within(ts, i)
    ensures Consumes(r, ts, i)
    decreases |ts| - i, 1
  {
    var t := ts[i];
    if t.kind == LetKw then LetStatement(sd, ts, i + 1)
    else if t.kind == PrintKw then PrintStatement(sd, ts, i + 1)
    else if t.kind == IfKw then IfStatement(sd, ts, i + 1)
    else if t.kind == WhileKw then WhileStatement(sd, ts, i + 1)
    else if t.kind == ForKw then ForStatement(sd, ts, i + 1)
    else if t.kind == FunctionKw then FunctionStatement(sd, ts, i + 1)
    else if t.kind == ReturnKw then ReturnStatement(sd, ts, i + 1)
    else if t.kind == IdentTok then AssignmentStatement(sd, ts, t.text, i + 1)
    else PErr(UnexpectedStatement(t.text))
  }

  /** `let name = expression ;`, after `let`. */
  function LetStatement(sd: Stod, ts: seq<Token>, i: nat): (r: Parsed<Stmt>)
    requires Within(ts, i)
    ensures Keeps(r, ts, i)
  {
    if ts[i].kind != IdentTok then PErr(ExpectedLetName)
    else
      var init :- AssignedValue(sd, ts, i + 1);
      var semi :- Expected(ts, init.1, Semicolon);
      POk(VariableDeclaration(ts[i].text, init.0), semi.1)
  }

  /** `print ( expression ) ;`, after `print`. */
  function PrintStatement(sd: Stod, ts: seq<Token>, i: nat): (r: Parsed<Stmt>)
    requires Within(ts, i)
    ensures Keeps(r, ts, i)
  {
    var e :- Parenthesised(sd, ts, i);
    var semi :- Expected(ts, e.1, Semicolon);
    POk(Print(e.0), semi.1)
  }

  /** `( expression )`: the argument of `print` and the condition of an `if`
      or a `while`. */
  function Parenthesised(sd: Stod, ts: seq<Token>, i: nat): (r: Parsed<Expr>)
    requires Within(ts, i)
    ensures Consumes(r, ts, i)
  {
    var open :- Expected(ts, i, LParen);
    GroupRest(sd, ts, open.1)
  }

  /** `= expression`: the value of a declaration or an assignment. */
  function AssignedValue(sd: Stod, ts: seq<Token>, i: nat): (r: Parsed<Expr>)
    requires Within(ts, i)
    ensures Consumes(r, ts, i)
  {
    var assign :- Expected(ts, i, Assign);
    Expression(sd, ts, assign.1)
  }

  /** `if ( condition ) block [else block]`, after `if`. */
  function IfStatement(sd: Stod, ts: seq<Token>, i: nat): (r: Parsed<Stmt>)
    requires Within(ts, i)
    ensures Keeps(r, ts, i)
    decreases |ts| - i, 0
  {
    var cond :- Parenthesised(sd, ts, i);
    var thenPart :- BlockStmts(sd, ts, cond.1);
    var elsePart :- ElsePart(sd, ts, thenPart.1);
    POk(If(cond.0, Block(thenPart.0), elsePart.0), elsePart.1)
  }

  /** The optional `else block` of an `if`. */
  function ElsePart(sd: Stod, ts: seq<Token>, i: nat): (r: Parsed<Option<Stmt>>)
    requires Within(ts, i)
    ensures Keeps(r, ts, i)
    decreases |ts| - i, 0
  {
    if ts[i].kind == ElseKw then
      var body :- BlockStmts(sd, ts, i + 1);
      POk(Some(Block(body.0)), body.1)
    else POk(None, i)
  }

  /** `while ( condition ) block`, after `while`. */
  function WhileStatement(sd: Stod, ts: seq<Token>, i: nat): (r: Parsed<Stmt>)
    requires Within(ts, i)
    ensures Keeps(r, ts, i)
    decreases |ts| - i, 0
  {
    var cond :- Parenthesised(sd, ts, i);
    var body :- BlockStmts(sd, ts, cond.1);
    POk(While(cond.0, Block(body.0)), body.1)
  }

  /** The three optional clauses of a `for` header. */
  datatype ForClauses = ForClauses(init: Option<Stmt>, cond: Option<Expr>, update: Option<Stmt>)

  /** `for ( init ; condition ; update ) block`, after `for`. */
  function ForStatement(sd: Stod, ts: seq<Token>, i: nat): (r: Parsed<Stmt>)
    requires Within(ts, i)
    ensures Keeps(r, ts, i)
    decreases |ts| - i, 0
  {
    var header :- ForHeader(sd, ts, i);
    var body :- BlockStmts(sd, ts, header.1);
    POk(For(header.0.init, header.0.cond, header.0.update, Block(body.0)), body.1)
  }

  /** `( init ; condition ; update )`. */
  function ForHeader(sd: Stod, ts: seq<Token>, i: nat): (r: Parsed<ForClauses>)
    requires Within(ts, i)
    ensures Consumes(r, ts, i)
  {
    var open :- Expected(ts, i, LParen);
    var init :- ForInitClause(sd, ts, open.1);
    var cond :- OptionalClause(sd, ts, init.1);
    var update :- ForUpdateClause(sd, ts, cond.1);
    POk(ForClauses(init.0, cond.0, update.0), update.1)
  }

  /** The init clause of a `for` header and the `;` after it. */
  function ForInitClause(sd: Stod, ts: seq<Token>, i: nat): (r: Parsed<Option<Stmt>>)
    requires Within(ts, i)
    ensures Consumes(r, ts, i)
  {
    var init :- ForInit(sd, ts, i);
    var semi :- Expected(ts, init.1, Semicolon);
    POk(init.0, semi.1)
  }

  /** `parse_for_init`: a `let` declaration, an assignment, or nothing. */
  function ForInit(sd: Stod, ts: seq<Token>, i: nat): (r: Parsed<Option<Stmt>>)
    requires Within(ts, i)
    ensures Keeps(r, ts, i)
  {
    if ts[i].kind == LetKw then
      var id :- Expected(ts, i + 1, IdentTok);
      var init :- AssignedValue(sd, ts, id.1);
      POk(Some(VariableDeclaration(ts[i + 1].text, init.0)), init.1)
    else if ts[i].kind == IdentTok then
      var value :- AssignedValue(sd, ts, i + 1);
      POk(Some(Assignment(ts[i].text, value.0)), value.1)
    else POk(None, i)
  }

  /** An optional expression, absent when the stream is at `;`, and the `;`
      after it: the condition clause of a `for` header and the rest of a
      `return`. */
  function OptionalClause(sd: Stod, ts: seq<Token>, i: nat): (r: Parsed<Option<Expr>>)
    requires Within(ts, i)
    ensures Consumes(r, ts, i)
  {
    var value :- OptionalExpr(sd, ts, i);
    var semi :- Expected(ts, value.1, Semicolon);
    POk(value.0, semi.1)
  }

  /** An optional expression, absent when the stream is at `;`. */
  function OptionalExpr(sd: Stod, ts: seq<Token>, i: nat): (r: Parsed<Option<Expr>>)
    requires Within(ts, i)
    ensures Keeps(r, ts, i)
  {
    if ts[i].kind != Semicolon then
      var e :- Expression(sd, ts, i);
      POk(Some(e.0), e.1)
    else POk(None, i)
  }

  /** The update clause of a `for` header and the `)` after it: only an
      assignment is read; any other token leaves the update absent (and the
      `)` expected next fails). */
  function ForUpdateClause(sd: Stod, ts: seq<Token>, i: nat): (r: Parsed<Option<Stmt>>)
    requires Within(ts, i)
    ensures Consumes(r, ts, i)
  {
    var update :- ForUpdate(sd, ts, i);
    var close :- Expected(ts, update.1, RParen);
    POk(update.0, close.1)
  }

  /** The update of a `for` header. */
  function ForUpdate(sd: Stod, ts: seq<Token>, i: nat): (r: Parsed<Option<Stmt>>)
    requires Within(ts, i)
    ensures Keeps(r, ts, i)
  {
    if ts[i].kind != RParen && ts[i].kind == IdentTok then
      var value :- AssignedValue(sd, ts, i + 1);
      POk(Some(Assignment(ts[i].text, value.0)), value.1)
    else POk(None, i)
  }

  /** `( params )` of a function declaration. */
  function ParamList(ts: seq<Token>, i: nat): (r: Parsed<seq<string>>)
    requires Within(ts, i)
    ensures Consumes(r, ts, i)
  {
    var open :- Expected(ts, i, LParen);
    var params :- Params(ts, open.1);
    var close :- Expected(ts, params.1, RParen);
    POk(params.0, close.1)
  }

  /** The parameter names of a function declaration: none when the stream is
      at `)`, otherwise names separated by commas. */
  function Params(ts: seq<Token>, i: nat): (r: Parsed<seq<string>>)
    requires Within(ts, i)
    ensures Keeps(r, ts, i)
  {
    if ts[i].kind != RParen then ParamNames(ts, i) else POk([], i)
  }

  /** One or more comma-separated names. */
  function ParamNames(ts: seq<Token>, i: nat): (r: Parsed<seq<string>>)
    requires Within(ts, i)
    ensures Consumes(r, ts, i)
  {
    var first :- ParamName(ts, i);
    ParamsTail(ts, first.1, [first.0])
  }

  /** The loop that reads `, name` while the stream is at a comma. */
  function ParamsTail(ts: seq<Token>, i: nat, acc: seq<string>): (r: Parsed<seq<string>>)
    requires Within(ts, i)
    ensures Keeps(r, ts, i)
    decreases |ts| - i
  {
    if ts[i].kind == Comma then
      var name :- ParamName(ts, i + 1);
      ParamsTail(ts, name.1, acc + [name.0])
    else POk(acc, i)
  }

  /** One parameter name: the text of an identifier token. */
  function ParamName(ts: seq<Token>, i: nat): (r: Parsed<string>)
    requires Within(ts, i)
    ensures Consumes(r, ts, i)
  {
    var id :- Expected(ts, i, IdentTok);
    POk(ts[i].text, id.1)
  }

  /** `function name ( params ) block`, after `function`. */
  function FunctionStatement(sd: Stod, ts: seq<Token>, i: nat): (r: Parsed<Stmt>)
    requires Within(ts, i)
    ensures Keeps(r, ts, i)
    decreases |ts| - i, 0
  {
    var id :- Expected(ts, i, IdentTok);
    var params :- ParamList(ts, id.1);
    var body :- BlockStmts(sd, ts, params.1);
    POk(FunctionDeclaration(FunctionDecl(ts[i].text, params.0, body.0)), body.1)
  }

  /** `return [expression] ;`, after `return`. */
  function ReturnStatement(sd: Stod, ts: seq<Token>, i: nat): (r: Parsed<Stmt>)
    requires Within(ts, i)
    ensures Keeps(r, ts, i)
  {
    var value :- OptionalClause(sd, ts, i);
    POk(Return(value.0), value.1)
  }

  /** `name = expression ;`, after the identifier. */
  function AssignmentStatement(sd: Stod, ts: seq<Token>, name: string, i: nat): (r: Parsed<Stmt>)
    requires Within(ts, i)
    ensures Keeps(r, ts, i)
  {
    var value :- AssignedValue(sd, ts, i);
    var semi :- Expected(ts, value.1, Semicolon);
    POk(Assignment(name, value.0), semi.1)
  }

  /** `parse`: statements up to the EOF token. */
  function ProgramFrom(sd: Stod, ts: seq<Token>, i: nat, acc: seq<Stmt>): (r: Outcome<Program>)
    requires Within(ts, i)
    decreases |ts| - i
  {
    if ts[i].kind == EofTok then Ok(Program(acc))
    else
      match Statement(sd, ts, i)
      case PErr(e) => Err(e)
      case POk(s, next) => ProgramFrom(sd, ts, next, acc + [s])
  }

  /** The whole front end: lex the source from its first character and parse
      the token stream. */
  function ParseSource(sd: Stod, src: string): Outcome<Program> {
    ProgramFrom(sd, Tokens(src, Cursor(0, 1, 1)), 0, [])
  }

  lemma BlockStep(sd: Stod, ts: seq<Token>, i: nat, acc: seq<Stmt>)
    requires Within(ts, i) && ts[i].kind != RBrace && ts[i].kind != EofTok
    ensures var s := Statement(sd, ts, i);
      BlockLoop(sd, ts, i, acc)
      == if s.PErr? then PErr(s.error) else BlockLoop(sd, ts, s.next, acc + [s.value])
  {
  }

  lemma ParamsStep(ts: seq<Token>, i: nat, acc: seq<string>)
    requires Within(ts, i) && ts[i].kind == Comma
    ensures Within(ts, i + 1)
    ensures var name := ParamName(ts, i + 1);
      ParamsTail(ts, i, acc)
      == if name.PErr? then PErr(name.error) else ParamsTail(ts, name.next, acc + [name.value])
  {
  }

  lemma ProgramStep(sd: Stod, ts: seq<Token>, i: nat, acc: seq<Stmt>)
    requires Within(ts, i) && ts[i].kind != EofTok
    ensures var s := Statement(sd, ts, i);
      ProgramFrom(sd, ts, i, acc)
      == if s.PErr? then Err(s.error) else ProgramFrom(sd, ts, s.next, acc + [s.value])
  {
  }

  // ---------------------------------------------------------------------
  // The parser object.
  // ---------------------------------------------------------------------

  /** A method's outcome agrees with a production: the same tree with the
      parser left at the position the production ends at, or the same error. */
  ghost predicate Agrees<T>(r: Outcome<T>, now: nat, p: Parsed<T>) {
    p == if r.Ok? then POk(r.value, now) else PErr(r.error)
  }

  /** The cursor after each token of `Tokens(src, c)`. */
  ghost function Cursors(src: string, c: Cursor): (cs: seq<Cursor>)
    requires c.pos <= |src|
    ensures |cs| == |Tokens(src, c)| && cs[0] == Lex(src, c).1
    decreases |src| - c.pos
  {
    var (t, c') := Lex(src, c);
    if t.kind == EofTok then [c'] else [c'] + Cursors(src, c')
  }

  /** `next_token`, from cursor `c`, answers token `t` and leaves cursor `c'`. */
  ghost predicate Step(src: string, c: Cursor, t: Token, c': Cursor) {
    c.pos <= |src| && Lex(src, c) == (t, c')
  }

  /** Each token of `ts` after the first is what `next_token` answers from the
      cursor left by the one before it. */
  ghost predicate Follows(src: string, ts: seq<Token>, cs: seq<Cursor>)
    requires |ts| == |cs|
  {
    forall i {:trigger Step(src, cs[i], ts[i + 1], cs[i + 1])} :: 0 <= i < |ts| - 1 ==> Step(src, cs[i], ts[i + 1], cs[i + 1])
  }

  /** Putting a token in front of a stream that follows on from it. */
  lemma FollowsCons(src: string, t: Token, c: Cursor, ts: seq<Token>, cs: seq<Cursor>)
    requires |ts| == |cs| > 0 && Follows(src, ts, cs) && Step(src, c, ts[0], cs[0])
    ensures Follows(src, [t] + ts, [c] + cs)
  {
    var ts1, cs1 := [t] + ts, [c] + cs;
    forall i | 0 <= i < |ts1| - 1
      ensures Step(src, cs1[i], ts1[i + 1], cs1[i + 1])
    {
      if i > 0 {
        var j := i - 1;
        assert Step(src, cs[j], ts[j + 1], cs[j + 1]);
      }
    }
  }

  /** The lexer's token stream from any cursor follows on from its cursors. */
  lemma {:induction false} TokensFollow(src: string, c: Cursor)
    requires c.pos <= |src|
    ensures Follows(src, Tokens(src, c), Cursors(src, c))
    decreases |src| - c.pos
  {
    var (t, c') := Lex(src, c);
    if t.kind != EofTok {
      var ts', cs' := Tokens(src, c'), Cursors(src, c');
      assert Tokens(src, c) == [t] + ts' && Cursors(src, c) == [c'] + cs';
      assert ts'[0] == Lex(src, c').0;
      TokensFollow(src, c');
      FollowsCons(src, t, c', ts', cs');
    }
  }

  /** The parser: one token of lookahead in `current`, the rest still in the
      lexer. The ghost constants record the whole token stream the lexer
      delivers and the cursor after each token, and `index` is the position
      of `current` in that stream. Every method is proved to do what the
      production of the same name does from that position. */
  class Parser {
    const lexer: Lexer
    const stod: Stod
    var current: Token
    ghost const tokens: seq<Token>
    ghost const cursors: seq<Cursor>
    ghost var index: nat

    ghost predicate Valid()
      reads this, lexer
    {
      lexer.Valid() && |tokens| == |cursors| && Within(tokens, index)
      && current == tokens[index] && lexer.At() == cursors[index]
      && Streamed()
    }

    ghost predicate Streamed() {
      |tokens| == |cursors| && Follows(lexer.source, tokens, cursors)
    }

    /** The constructor reads the first token. */
    constructor (l: Lexer, sd: Stod)
      requires l.Valid()
      modifies l
      ensures Valid() && lexer == l && stod == sd
      ensures tokens == Tokens(l.source, old(l.At())) && index == 0
    {
      ghost var start := l.At();
      var t := l.NextToken();
      TokensFollow(l.source, start);
      lexer, stod, current := l, sd, t;
      tokens, cursors, index := Tokens(l.source, start), Cursors(l.source, start), 0;
    }

    /** `advance`: the current token is replaced by the lexer's next one. */
    method Advance()
      requires Valid() && current.kind != EofTok
      modifies this, lexer
      ensures Valid() && index == old(index) + 1
    {
      assert Step(lexer.source, cursors[index], tokens[index + 1], cursors[index + 1]);
      current := lexer.NextToken();
      index := index + 1;
    }

    /** `match`: consume the current token when it has kind `k`. */
    method Match(k: TokenKind) returns (b: bool)
      requires Valid() && k != EofTok
      modifies this, lexer
      ensures Valid() && b == (tokens[old(index)].kind == k)
      ensures index == if b then old(index) + 1 else old(index)
    {
      if current.kind == k {
        Advance();
        return true;
      }
      return false;
    }

    /** `expect`. */
    method Expect(k: TokenKind) returns (r: Outcome<()>)
      requires Valid() && k != EofTok
      modifies this, lexer
      ensures Valid() && Agrees(r, index, Expected(tokens, old(index), k))
    {
      if current.kind != k {
        return Err(ExpectedToken(current.text));
      }
      Advance();
      return Ok(());
    }

    /** `parse_primary`: a literal, or one of the branch methods below
        chosen by the current token. */
    method ParsePrimary() returns (r: Outcome<Expr>)
      requires Valid()
      modifies this, lexer
      ensures Valid() && Agrees(r, index, PrimaryExpr(stod, tokens, old(index)))
      decreases |tokens| - index, 1
    {
      if current.kind == NumberTok {
        var n := stod(current.text);
        if n.None? {
          return Err(InvalidNumber(current.text));
        }
        Advance();
        r := Ok(NumberLiteral(n.value));
      } else if current.kind == StringTok {
        var value := current.text;
        Advance();
        r := Ok(StringLiteral(value));
      } else if current.kind == IdentTok {
        r := ParseIdentifier();
      } else if current.kind == LBracket {
        r := ParseArrayLiteral();
      } else if current.kind == LBrace {
        r := ParseMapLiteral();
      } else if current.kind == LParen {
        r := ParseGroup();
      } else {
        r := Err(UnexpectedToken(current.text));
      }
    }

    /** The array literal branch of `parse_primary`, from its `[`. */
    method ParseArrayLiteral() returns (r: Outcome<Expr>)
      requires Valid() && current.kind == LBracket
      modifies this, lexer
      ensures old(index) + 1 < |tokens|
      ensures Valid() && Agrees(r, index, ArrayRest(stod, tokens, old(index) + 1))
      decreases |tokens| - index, 0
    {
      Advance();
      var elems :- ParseExpressionList(RBracket);
      var _ :- Expect(RBracket);
      return Ok(ArrayLiteral(elems));
    }

    /** The map literal branch of `parse_primary`, from its `{`. */
    method ParseMapLiteral() returns (r: Outcome<Expr>)
      requires Valid() && current.kind == LBrace
      modifies this, lexer
      ensures old(index) + 1 < |tokens|
      ensures Valid() && Agrees(r, index, MapRest(stod, tokens, old(index) + 1))
      decreases |tokens| - index, 0
    {
      Advance();
      var pairs := [];
      if current.kind != RBrace {
        pairs :- ParseMapPairs();
      }
      var _ :- Expect(RBrace);
      return Ok(MapLiteral(pairs));
    }

    /** The parenthesised branch of `parse_primary`, from its `(`. */
    method ParseGroup() returns (r: Outcome<Expr>)
      requires Valid() && current.kind == LParen
      modifies this, lexer
      ensures old(index) + 1 < |tokens|
      ensures Valid() && Agrees(r, index, GroupRest(stod, tokens, old(index) + 1))
      decreases |tokens| - index, 0
    {
      Advance();
      var inner :- ParseExpression();
      var _ :- Expect(RParen);
      return Ok(inner);
    }

    /** The identifier branch of `parse_primary`: a call, an access or a
        plain variable reference. */
    method ParseIdentifier() returns (r: Outcome<Expr>)
      requires Valid() && current.kind == IdentTok
      modifies this, lexer
      ensures old(index) + 1 < |tokens|
      ensures Valid() && Agrees(r, index, IdentifierTail(stod, tokens, tokens[old(index)].text, old(index) + 1))
      decreases |tokens| - index, 0
    {
      var name := current.text;
      Advance();
      if current.kind == LParen {
        r := ParseCall(name);
      } else if current.kind == LBracket {
        r := ParseAccess(name);
      } else {
        r := Ok(Identifier(name));
      }
    }

    /** A call `name(arguments)`, from its `(`. */
    method ParseCall(name: string) returns (r: Outcome<Expr>)
      requires Valid() && current.kind == LParen
      modifies this, lexer
      ensures old(index) + 1 < |tokens|
      ensures Valid() && Agrees(r, index, CallRest(stod, tokens, name, old(index) + 1))
      decreases |tokens| - index, 0
    {
      Advance();
      var args :- ParseExpressionList(RParen);
      var _ :- Expect(RParen);
      return Ok(FunctionCall(name, args));
    }

    /** An access `name[key]` or `name[index]`, from its `[`. */
    method ParseAccess(name: string) returns (r: Outcome<Expr>)
      requires Valid() && current.kind == LBracket
      modifies this, lexer
      ensures old(index) + 1 < |tokens|
      ensures Valid() && Agrees(r, index, AccessRest(stod, tokens, name, old(index) + 1))
      decreases |tokens| - index, 0
    {
      Advance();
      if current.kind == StringTok {
        var key := current.text;
        Advance();
        var _ :- Expect(RBracket);
        return Ok(MapAccess(Identifier(name), key));
      }
      var position :- ParseExpression();
      var _ :- Expect(RBracket);
      return Ok(ArrayAccess(Identifier(name), position));
    }

    /** Comma-separated expressions up to (not including) `close`. */
    method ParseExpressionList(close: TokenKind) returns (r: Outcome<seq<Expr>>)
      requires Valid()
      modifies this, lexer
      ensures Valid() && Agrees(r, index, ExprList(stod, tokens, old(index), close))
      decreases |tokens| - index, 7
    {
      if current.kind == close {
        return Ok([]);
      }
      r := ParseExprItems();
    }

    /** One or more comma-separated expressions. */
    method ParseExprItems() returns (r: Outcome<seq<Expr>>)
      requires Valid()
      modifies this, lexer
      ensures Valid() && Agrees(r, index, ExprItems(stod, tokens, old(index)))
      decreases |tokens| - index, 6
    {
      var first :- ParseExpression();
      var items := [first];
      ghost var goal := ExprItems(stod, tokens, old(index));
      while current.kind == Comma
        invariant Valid() && old(index) < index
        invariant ExprListTail(stod, tokens, index, items) == goal
        decreases |tokens| - index
      {
        ExprListStep(stod, tokens, index, items);
        Advance();
        var next :- ParseExpression();
        items := items + [next];
      }
      return Ok(items);
    }

    /** The do-while loop of a map literal. */
    method ParseMapPairs() returns (r: Outcome<seq<Pair>>)
      requires Valid()
      modifies this, lexer
      ensures Valid() && Agrees(r, index, MapPairs(stod, tokens, old(index)))
      decreases |tokens| - index, 1
    {
      var first :- ParsePair();
      var pairs := [first];
      ghost var goal := MapPairs(stod, tokens, old(index));
      while current.kind == Comma
        invariant Valid() && old(index) < index
        invariant PairsTail(stod, tokens, index, pairs) == goal
        decreases |tokens| - index
      {
        PairsStep(stod, tokens, index, pairs);
        Advance();
        var pair :- ParsePair();
        pairs := pairs + [pair];
      }
      return Ok(pairs);
    }

    /** One key-value pair of a map literal. */
    method ParsePair() returns (r: Outcome<Pair>)
      requires Valid()
      modifies this, lexer
      ensures Valid() && Agrees(r, index, PairAt(stod, tokens, old(index)))
      decreases |tokens| - index, 0
    {
      if current.kind != StringTok {
        return Err(ExpectedStringKey);
      }
      var key := current.text;
      Advance();
      var _ :- Expect(Colon);
      var value :- ParseExpression();
      return Ok(Pair(key, value));
    }

    /** `parse_power`. */
    method ParsePower() returns (r: Outcome<Expr>)
      requires Valid()
      modifies this, lexer
      ensures Valid() && Agrees(r, index, PowerExpr(stod, tokens, old(index)))
      decreases |tokens| - index, 2
    {
      var left :- ParsePrimary();
      ghost var goal := PowerExpr(stod, tokens, old(index));
      while current.kind == Power
        invariant Valid() && old(index) < index
        invariant PowerLoop(stod, tokens, index, left) == goal
        decreases |tokens| - index
      {
        PowerStep(stod, tokens, index, left);
        var op := current.text;
        Advance();
        var right :- ParsePrimary();
        left := BinaryOperation(left, op, right);
      }
      return Ok(left);
    }

    /** `parse_term`. */
    method ParseTerm() returns (r: Outcome<Expr>)
      requires Valid()
      modifies this, lexer
      ensures Valid() && Agrees(r, index, TermExpr(stod, tokens, old(index)))
      decreases |tokens| - index, 3
    {
      var left :- ParsePower();
      ghost var goal := TermExpr(stod, tokens, old(index));
      while IsMultiplicative(current.kind)
        invariant Valid() && old(index) < index
        invariant TermLoop(stod, tokens, index, left) == goal
        decreases |tokens| - index
      {
        TermStep(stod, tokens, index, left);
        var op := current.text;
        Advance();
        var right :- ParsePower();
        left := BinaryOperation(left, op, right);
      }
      return Ok(left);
    }

    /** `parse_arithmetic`. */
    method ParseArithmetic() returns (r: Outcome<Expr>)
      requires Valid()
      modifies this, lexer
      ensures Valid() && Agrees(r, index, ArithExpr(stod, tokens, old(index)))
      decreases |tokens| - index, 4
    {
      var left :- ParseTerm();
      ghost var goal := ArithExpr(stod, tokens, old(index));
      while IsAdditive(current.kind)
        invariant Valid() && old(index) < index
        invariant ArithLoop(stod, tokens, index, left) == goal
        decreases |tokens| - index
      {
        ArithStep(stod, tokens, index, left);
        var op := current.text;
        Advance();
        var right :- ParseTerm();
        left := BinaryOperation(left, op, right);
      }
      return Ok(left);
    }

    /** `parse_expression`. */
    method ParseExpression() returns (r: Outcome<Expr>)
      requires Valid()
      modifies this, lexer
      ensures Valid() && Agrees(r, index, Expression(stod, tokens, old(index)))
      decreases |tokens| - index, 5
    {
      var left :- ParseArithmetic();
      ghost var goal := Expression(stod, tokens, old(index));
      while IsComparison(current.kind)
        invariant Valid() && old(index) < index
        invariant ComparisonLoop(stod, tokens, index, left) == goal
        decreases |tokens| - index
      {
        ComparisonStep(stod, tokens, index, left);
        var op := current.text;
        Advance();
        var right :- ParseArithmetic();
        left := BinaryOperation(left, op, right);
      }
      return Ok(left);
    }

    /** `parse_block`. */
    method ParseBlock() returns (r: Outcome<seq<Stmt>>)
      requires Valid()
      modifies this, lexer
      ensures Valid() && Agrees(r, index, BlockStmts(stod, tokens, old(index)))
      decreases |tokens| - index, 0
    {
      var _ :- Expect(LBrace);
      var body :- ParseBlockBody();
      var _ :- Expect(RBrace);
      return Ok(body);
    }

    /** The statements of a block, up to `}` or the end of input. */
    method ParseBlockBody() returns (r: Outcome<seq<Stmt>>)
      requires Valid()
      modifies this, lexer
      ensures Valid() && Agrees(r, index, BlockLoop(stod, tokens, old(index), []))
      decreases |tokens| - index, 2
    {
      var stmts := [];
      ghost var goal := BlockLoop(stod, tokens, old(index), []);
      while current.kind != RBrace && current.kind != EofTok
        invariant Valid() && old(index) <= index
        invariant BlockLoop(stod, tokens, index, stmts) == goal
        decreases |tokens| - index
      {
        BlockStep(stod, tokens, index, stmts);
        var s :- ParseStatement();
        stmts := stmts + [s];
      }
      return Ok(stmts);
    }

    /** `parse_statement`: one of the statement methods below, chosen by the
        current token. */
    method ParseStatement() returns (r: Outcome<Stmt>)
      requires Valid()
      modifies this, lexer
      ensures Valid() && Agrees(r, index, Statement(stod, tokens, old(index)))
      decreases |tokens| - index, 1
    {
      if current.kind == LetKw {
        r := ParseLet();
      } else if current.kind == PrintKw {
        r := ParsePrint();
      } else if current.kind == IfKw {
        r := ParseIf();
      } else if current.kind == WhileKw {
        r := ParseWhile();
      } else if current.kind == ForKw {
        r := ParseFor();
      } else if current.kind == FunctionKw {
        r := ParseFunction();
      } else if current.kind == ReturnKw {
        r := ParseReturn();
      } else if current.kind == IdentTok {
        r := ParseAssignment();
      } else {
        r := Err(UnexpectedStatement(current.text));
      }
    }

    /** A `let` declaration, from its keyword. */
    method ParseLet() returns (r: Outcome<Stmt>)
      requires Valid() && current.kind == LetKw
      modifies this, lexer
      ensures old(index) + 1 < |tokens|
      ensures Valid() && Agrees(r, index, LetStatement(stod, tokens, old(index) + 1))
    {
      Advance();
      if current.kind != IdentTok {
        return Err(ExpectedLetName);
      }
      var name := current.text;
      Advance();
      var init :- ParseAssignedValue();
      var _ :- Expect(Semicolon);
      return Ok(VariableDeclaration(name, init));
    }

    /** A `print` statement, from its keyword. */
    method ParsePrint() returns (r: Outcome<Stmt>)
      requires Valid() && current.kind == PrintKw
      modifies this, lexer
      ensures old(index) + 1 < |tokens|
      ensures Valid() && Agrees(r, index, PrintStatement(stod, tokens, old(index) + 1))
    {
      Advance();
      var e :- ParseParenthesised();
      var _ :- Expect(Semicolon);
      return Ok(Print(e));
    }

    /** An `if` statement, from its keyword. */
    method ParseIf() returns (r: Outcome<Stmt>)
      requires Valid() && current.kind == IfKw
      modifies this, lexer
      ensures old(index) + 1 < |tokens|
      ensures Valid() && Agrees(r, index, IfStatement(stod, tokens, old(index) + 1))
      decreases |tokens| - index, 0
    {
      Advance();
      var cond :- ParseParenthesised();
      var thenPart :- ParseBlock();
      var elsePart :- ParseElse();
      return Ok(If(cond, Block(thenPart), elsePart));
    }

    /** The optional `else` branch of an `if`. */
    method ParseElse() returns (r: Outcome<Option<Stmt>>)
      requires Valid()
      modifies this, lexer
      ensures Valid() && Agrees(r, index, ElsePart(stod, tokens, old(index)))
      decreases |tokens| - index, 0
    {
      var hasElse := Match(ElseKw);
      if !hasElse {
        return Ok(None);
      }
      var body :- ParseBlock();
      return Ok(Some(Block(body)));
    }

    /** A `while` statement, from its keyword. */
    method ParseWhile() returns (r: Outcome<Stmt>)
      requires Valid() && current.kind == WhileKw
      modifies this, lexer
      ensures old(index) + 1 < |tokens|
      ensures Valid() && Agrees(r, index, WhileStatement(stod, tokens, old(index) + 1))
      decreases |tokens| - index, 0
    {
      Advance();
      var cond :- ParseParenthesised();
      var body :- ParseBlock();
      return Ok(While(cond, Block(body)));
    }

    /** A `for` statement, from its keyword. */
    method ParseFor() returns (r: Outcome<Stmt>)
      requires Valid() && current.kind == ForKw
      modifies this, lexer
      ensures old(index) + 1 < |tokens|
      ensures Valid() && Agrees(r, index, ForStatement(stod, tokens, old(index) + 1))
      decreases |tokens| - index, 0
    {
      Advance();
      var header :- ParseForHeader();
      var body :- ParseBlock();
      return Ok(For(header.init, header.cond, header.update, Block(body)));
    }

    /** The parenthesised header of a `for`. */
    method ParseForHeader() returns (r: Outcome<ForClauses>)
      requires Valid()
      modifies this, lexer
      ensures Valid() && Agrees(r, index, ForHeader(stod, tokens, old(index)))
    {
      var _ :- Expect(LParen);
      var init :- ParseForInitClause();
      var cond :- ParseOptionalClause();
      var update :- ParseForUpdateClause();
      return Ok(ForClauses(init, cond, update));
    }

    /** The init clause of a `for` header and its `;`. */
    method ParseForInitClause() returns (r: Outcome<Option<Stmt>>)
      requires Valid()
      modifies this, lexer
      ensures Valid() && Agrees(r, index, ForInitClause(stod, tokens, old(index)))
    {
      var init :- ParseForInit();
      var _ :- Expect(Semicolon);
      return Ok(init);
    }

    /** `parse_for_init`. */
    method ParseForInit() returns (r: Outcome<Option<Stmt>>)
      requires Valid()
      modifies this, lexer
      ensures Valid() && Agrees(r, index, ForInit(stod, tokens, old(index)))
    {
      var isLet := Match(LetKw);
      if isLet {
        var name := current.text;
        var _ :- Expect(IdentTok);
        var init :- ParseAssignedValue();
        return Ok(Some(VariableDeclaration(name, init)));
      }
      if current.kind == IdentTok {
        var name := current.text;
        Advance();
        var value :- ParseAssignedValue();
        return Ok(Some(Assignment(name, value)));
      }
      return Ok(None);
    }

    /** An optional expression and the `;` after it. */
    method ParseOptionalClause() returns (r: Outcome<Option<Expr>>)
      requires Valid()
      modifies this, lexer
      ensures Valid() && Agrees(r, index, OptionalClause(stod, tokens, old(index)))
    {
      var value := None;
      if current.kind != Semicolon {
        var e :- ParseExpression();
        value := Some(e);
      }
      var _ :- Expect(Semicolon);
      return Ok(value);
    }

    /** The update clause of a `for` header and its `)`. */
    method ParseForUpdateClause() returns (r: Outcome<Option<Stmt>>)
      requires Valid()
      modifies this, lexer
      ensures Valid() && Agrees(r, index, ForUpdateClause(stod, tokens, old(index)))
    {
      var update := None;
      if current.kind != RParen {
        if current.kind == IdentTok {
          var name := current.text;
          Advance();
          var value :- ParseAssignedValue();
          update := Some(Assignment(name, value));
        }
      }
      var _ :- Expect(RParen);
      return Ok(update);
    }

    /** A function declaration, from its keyword. */
    method ParseFunction() returns (r: Outcome<Stmt>)
      requires Valid() && current.kind == FunctionKw
      modifies this, lexer
      ensures old(index) + 1 < |tokens|
      ensures Valid() && Agrees(r, index, FunctionStatement(stod, tokens, old(index) + 1))
      decreases |tokens| - index, 0
    {
      Advance();
      var name := current.text;
      var _ :- Expect(IdentTok);
      var params :- ParseParamList();
      var body :- ParseBlock();
      return Ok(FunctionDeclaration(FunctionDecl(name, params, body)));
    }

    /** `( params )` of a function declaration. */
    method ParseParamList() returns (r: Outcome<seq<string>>)
      requires Valid()
      modifies this, lexer
      ensures Valid() && Agrees(r, index, ParamList(tokens, old(index)))
    {
      var _ :- Expect(LParen);
      var params :- ParseParams();
      var _ :- Expect(RParen);
      return Ok(params);
    }

    /** The parameter names, up to (not including) `)`. */
    method ParseParams() returns (r: Outcome<seq<string>>)
      requires Valid()
      modifies this, lexer
      ensures Valid() && Agrees(r, index, Params(tokens, old(index)))
    {
      if current.kind == RParen {
        return Ok([]);
      }
      r := ParseParamNames();
    }

    /** One or more comma-separated names. */
    method ParseParamNames() returns (r: Outcome<seq<string>>)
      requires Valid()
      modifies this, lexer
      ensures Valid() && Agrees(r, index, ParamNames(tokens, old(index)))
    {
      var first :- ParseParamName();
      var names := [first];
      ghost var goal := ParamNames(tokens, old(index));
      while current.kind == Comma
        invariant Valid() && old(index) < index
        invariant ParamsTail(tokens, index, names) == goal
        decreases |tokens| - index
      {
        ParamsStep(tokens, index, names);
        Advance();
        var name :- ParseParamName();
        names := names + [name];
      }
      return Ok(names);
    }

    /** One parameter name. */
    method ParseParamName() returns (r: Outcome<string>)
      requires Valid()
      modifies this, lexer
      ensures Valid() && Agrees(r, index, ParamName(tokens, old(index)))
    {
      var name := current.text;
      var _ :- Expect(IdentTok);
      return Ok(name);
    }

    /** A `return` statement, from its keyword. */
    method ParseReturn() returns (r: Outcome<Stmt>)
      requires Valid() && current.kind == ReturnKw
      modifies this, lexer
      ensures old(index) + 1 < |tokens|
      ensures Valid() && Agrees(r, index, ReturnStatement(stod, tokens, old(index) + 1))
    {
      Advance();
      var value :- ParseOptionalClause();
      return Ok(Return(value));
    }

    /** An assignment to an existing variable, from its name. */
    method ParseAssignment() returns (r: Outcome<Stmt>)
      requires Valid() && current.kind == IdentTok
      modifies this, lexer
      ensures old(index) + 1 < |tokens|
      ensures Valid() && Agrees(r, index, AssignmentStatement(stod, tokens, tokens[old(index)].text, old(index) + 1))
    {
      var name := current.text;
      Advance();
      var value :- ParseAssignedValue();
      var _ :- Expect(Semicolon);
      return Ok(Assignment(name, value));
    }

    /** `( expression )`. */
    method ParseParenthesised() returns (r: Outcome<Expr>)
      requires Valid()
      modifies this, lexer
      ensures Valid() && Agrees(r, index, Parenthesised(stod, tokens, old(index)))
    {
      if current.kind != LParen {
        return Err(ExpectedToken(current.text));
      }
      r := ParseGroup();
    }

    /** `= expression`. */
    method ParseAssignedValue() returns (r: Outcome<Expr>)
      requires Valid()
      modifies this, lexer
      ensures Valid() && Agrees(r, index, AssignedValue(stod, tokens, old(index)))
    {
      var _ :- Expect(Assign);
      r := ParseExpression();
    }

    /** `parse`: statements up to the end of input. */
    method Parse() returns (r: Outcome<Program>)
      requires Valid()
      modifies this, lexer
      ensures Valid() && r == ProgramFrom(stod, tokens, old(index), [])
    {
      var stmts := [];
      ghost var goal := ProgramFrom(stod, tokens, old(index), []);
      while current.kind != EofTok
        invariant Valid() && old(index) <= index
        invariant ProgramFrom(stod, tokens, index, stmts) == goal
        decreases |tokens| - index
      {
        ProgramStep(stod, tokens, index, stmts);
        var s :- ParseStatement();
        stmts := stmts + [s];
      }
      return Ok(Program(stmts));
    }
  }

  /** Lex and parse a whole source text, as `main` does before running it. */
  method ParseText(sd: Stod, src: string) returns (r: Outcome<Program>)
    ensures r == ParseSource(sd, src)
  {
    var lexer := new Lexer(src);
    var parser := new Parser(lexer, sd);
    r := parser.Parse();
  }
}
