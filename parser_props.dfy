/** Properties of the parser's grammar functions: every binary level is an
    iterative left fold over the level below it, map literals keep their
    pairs in source order, and the statement productions and `parse` read
    exactly the statements the tokens hold. */
module ParserProperties {
  import opened Wrappers
  import opened Ast
  import opened Lexing
  import opened Parsing

  // ---------------------------------------------------------------------
  // The binary levels, stated once for all four.
  // ---------------------------------------------------------------------

  /** The four binary levels, tightest first. */
  datatype Level = PowerLevel | TermLevel | ArithLevel | ComparisonLevel

  /** The operators a level folds. */
  predicate IsOperator(lv: Level, k: TokenKind) {
    match lv
    case PowerLevel => k == Power
    case TermLevel => IsMultiplicative(k)
    case ArithLevel => IsAdditive(k)
    case ComparisonLevel => IsComparison(k)
  }

  /** A token that an expression of level `lv` goes on with: an operator of
      that level or of a tighter one. */
  predicate Continues(lv: Level, k: TokenKind) {
    match lv
    case PowerLevel => k == Power
    case TermLevel => k == Power || IsMultiplicative(k)
    case ArithLevel => k == Power || IsMultiplicative(k) || IsAdditive(k)
    case ComparisonLevel => k == Power || IsMultiplicative(k) || IsAdditive(k) || IsComparison(k)
  }

  /** The production that parses a level's operands. */
  function Operand(lv: Level, sd: Stod, ts: seq<Token>, i: nat): (r: Parsed<Expr>)
    requires Within(ts, i)
    ensures Consumes(r, ts, i)
  {
    match lv
    case PowerLevel => PrimaryExpr(sd, ts, i)
    case TermLevel => PowerExpr(sd, ts, i)
    case ArithLevel => TermExpr(sd, ts, i)
    case ComparisonLevel => ArithExpr(sd, ts, i)
  }

  /** A level's production: `parse_power`, `parse_term`, `parse_arithmetic`
      or `parse_expression`. */
  function LevelExpr(lv: Level, sd: Stod, ts: seq<Token>, i: nat): Parsed<Expr>
    requires Within(ts, i)
  {
    match lv
    case PowerLevel => PowerExpr(sd, ts, i)
    case TermLevel => TermExpr(sd, ts, i)
    case ArithLevel => ArithExpr(sd, ts, i)
    case ComparisonLevel => Expression(sd, ts, i)
  }

  /** A level's operator loop. */
  function LevelLoop(lv: Level, sd: Stod, ts: seq<Token>, i: nat, left: Expr): Parsed<Expr>
    requires Within(ts, i)
  {
    match lv
    case PowerLevel => PowerLoop(sd, ts, i, left)
    case TermLevel => TermLoop(sd, ts, i, left)
    case ArithLevel => ArithLoop(sd, ts, i, left)
    case ComparisonLevel => ComparisonLoop(sd, ts, i, left)
  }

  /** A level parses one operand and runs its loop from there. */
  lemma LevelUnfold(lv: Level, sd: Stod, ts: seq<Token>, i: nat)
    requires Within(ts, i)
    ensures var first := Operand(lv, sd, ts, i);
      LevelExpr(lv, sd, ts, i)
      == if first.PErr? then PErr(first.error) else LevelLoop(lv, sd, ts, first.next, first.value)
  {
  }

  /** One iteration of a level's loop. */
  lemma LevelStep(lv: Level, sd: Stod, ts: seq<Token>, i: nat, left: Expr)
    requires Within(ts, i) && IsOperator(lv, ts[i].kind)
    ensures Within(ts, i + 1)
    ensures var right := Operand(lv, sd, ts, i + 1);
      LevelLoop(lv, sd, ts, i, left)
      == if right.PErr? then PErr(right.error)
         else LevelLoop(lv, sd, ts, right.next, BinaryOperation(left, ts[i].text, right.value))
  {
    match lv
    case PowerLevel => PowerStep(sd, ts, i, left);
    case TermLevel => TermStep(sd, ts, i, left);
    case ArithLevel => ArithStep(sd, ts, i, left);
    case ComparisonLevel => ComparisonStep(sd, ts, i, left);
  }

  /** The loop stops at a token that is not one of the level's operators. */
  lemma LevelStop(lv: Level, sd: Stod, ts: seq<Token>, i: nat, left: Expr)
    requires Within(ts, i) && !IsOperator(lv, ts[i].kind)
    ensures LevelLoop(lv, sd, ts, i, left) == POk(left, i)
  {
  }

  /** `acc ops[0] es[0] ops[1] es[1] ...`, grouped to the left. */
  function FoldLeft(acc: Expr, ops: seq<string>, es: seq<Expr>): Expr
    requires |ops| == |es|
    decreases |es|
  {
    if es == [] then acc else FoldLeft(BinaryOperation(acc, ops[0], es[0]), ops[1..], es[1..])
  }

  /** From `i` the level below parses `es[0]`; each further operand `es[k]`
      comes after an operator of the level whose text is `ops[k - 1]`; no
      operator of the level follows the last operand, which ends at `end`. */
  predicate Chain(lv: Level, sd: Stod, ts: seq<Token>, i: nat, es: seq<Expr>, ops: seq<string>, end: nat)
    requires Within(ts, i)
    decreases |ops|
  {
    var first := Operand(lv, sd, ts, i);
    && |es| == |ops| + 1 && first.POk? && first.value == es[0]
    && if ops == [] then first.next == end && !IsOperator(lv, ts[end].kind)
       else
         && IsOperator(lv, ts[first.next].kind) && ts[first.next].text == ops[0] && first.next + 1 < |ts|
         && Chain(lv, sd, ts, first.next + 1, es[1..], ops[1..], end)
  }

  /** The loop of a level, run after the first operand of a chain with any
      accumulated left operand, folds the rest of the chain onto it. */
  lemma {:induction false} ChainLoop(lv: Level, sd: Stod, ts: seq<Token>, i: nat, es: seq<Expr>, ops: seq<string>, end: nat, acc: Expr)
    requires Within(ts, i) && Chain(lv, sd, ts, i, es, ops, end)
    ensures Operand(lv, sd, ts, i).POk?
    ensures LevelLoop(lv, sd, ts, Operand(lv, sd, ts, i).next, acc) == POk(FoldLeft(acc, ops, es[1..]), end)
    decreases |ops|
  {
    var j := Operand(lv, sd, ts, i).next;
    if ops == [] {
      LevelStop(lv, sd, ts, j, acc);
    } else {
      LevelStep(lv, sd, ts, j, acc);
      ChainLoop(lv, sd, ts, j + 1, es[1..], ops[1..], end, BinaryOperation(acc, ops[0], es[1]));
    }
  }

  /** Every binary level is an iterative left fold: for any operands that the
      level below parses one after another, separated by the level's
      operators, the level yields them grouped to the left and ends after
      the last one. */
  lemma LevelIsLeftFold(lv: Level, sd: Stod, ts: seq<Token>, i: nat, es: seq<Expr>, ops: seq<string>, end: nat)
    requires Within(ts, i) && Chain(lv, sd, ts, i, es, ops, end)
    ensures LevelExpr(lv, sd, ts, i) == POk(FoldLeft(es[0], ops, es[1..]), end)
  {
    LevelUnfold(lv, sd, ts, i);
    ChainLoop(lv, sd, ts, i, es, ops, end, es[0]);
  }

  /** An operand that no operator of the level follows is the level's whole
      result. */
  lemma OperandAlone(lv: Level, sd: Stod, ts: seq<Token>, i: nat, a: Expr, j: nat)
    requires Within(ts, i) && Operand(lv, sd, ts, i) == POk(a, j) && !IsOperator(lv, ts[j].kind)
    ensures LevelExpr(lv, sd, ts, i) == POk(a, j)
  {
    LevelUnfold(lv, sd, ts, i);
    LevelStop(lv, sd, ts, j, a);
  }

  /** `a op b`, with no operator of the level after `b`, is one node. */
  lemma OperandPair(lv: Level, sd: Stod, ts: seq<Token>, i: nat, a: Expr, j: nat, b: Expr, k: nat)
    requires Within(ts, i) && Operand(lv, sd, ts, i) == POk(a, j) && IsOperator(lv, ts[j].kind)
    requires Operand(lv, sd, ts, j + 1) == POk(b, k) && !IsOperator(lv, ts[k].kind)
    ensures LevelExpr(lv, sd, ts, i) == POk(BinaryOperation(a, ts[j].text, b), k)
  {
    LevelUnfold(lv, sd, ts, i);
    LevelStep(lv, sd, ts, j, a);
    LevelStop(lv, sd, ts, k, BinaryOperation(a, ts[j].text, b));
  }

  /** `a op b op c` is `(a op b) op c` at every level, for any operands. */
  lemma AssociatesLeft(lv: Level, sd: Stod, ts: seq<Token>, i: nat, a: Expr, j: nat, b: Expr, k: nat, c: Expr, m: nat)
    requires Within(ts, i)
    requires Operand(lv, sd, ts, i) == POk(a, j) && IsOperator(lv, ts[j].kind)
    requires Operand(lv, sd, ts, j + 1) == POk(b, k) && IsOperator(lv, ts[k].kind)
    requires Operand(lv, sd, ts, k + 1) == POk(c, m) && !IsOperator(lv, ts[m].kind)
    ensures LevelExpr(lv, sd, ts, i) == POk(BinaryOperation(BinaryOperation(a, ts[j].text, b), ts[k].text, c), m)
  {
    var ab := BinaryOperation(a, ts[j].text, b);
    LevelUnfold(lv, sd, ts, i);
    LevelStep(lv, sd, ts, j, a);
    LevelStep(lv, sd, ts, k, ab);
    LevelStop(lv, sd, ts, m, BinaryOperation(ab, ts[k].text, c));
  }

  /** `a ** b ** c` is `(a ** b) ** c` for any three primaries. */
  lemma PowerAssociatesLeft(sd: Stod, ts: seq<Token>, i: nat, a: Expr, j: nat, b: Expr, k: nat, c: Expr, m: nat)
    requires Within(ts, i)
    requires PrimaryExpr(sd, ts, i) == POk(a, j) && ts[j].kind == Power
    requires PrimaryExpr(sd, ts, j + 1) == POk(b, k) && ts[k].kind == Power
    requires PrimaryExpr(sd, ts, k + 1) == POk(c, m) && ts[m].kind != Power
    ensures PowerExpr(sd, ts, i) == POk(BinaryOperation(BinaryOperation(a, ts[j].text, b), ts[k].text, c), m)
  {
    AssociatesLeft(PowerLevel, sd, ts, i, a, j, b, k, c, m);
  }

  /** `a / b * c` is `(a / b) * c` for any three power-level operands. */
  lemma TermAssociatesLeft(sd: Stod, ts: seq<Token>, i: nat, a: Expr, j: nat, b: Expr, k: nat, c: Expr, m: nat)
    requires Within(ts, i)
    requires PowerExpr(sd, ts, i) == POk(a, j) && IsMultiplicative(ts[j].kind)
    requires PowerExpr(sd, ts, j + 1) == POk(b, k) && IsMultiplicative(ts[k].kind)
    requires PowerExpr(sd, ts, k + 1) == POk(c, m) && !IsMultiplicative(ts[m].kind)
    ensures TermExpr(sd, ts, i) == POk(BinaryOperation(BinaryOperation(a, ts[j].text, b), ts[k].text, c), m)
  {
    AssociatesLeft(TermLevel, sd, ts, i, a, j, b, k, c, m);
  }

  /** `a - b - c` is `(a - b) - c`, and likewise for any mix of `+` and `-`
      and any three terms. */
  lemma AdditionAssociatesLeft(sd: Stod, ts: seq<Token>, i: nat, a: Expr, j: nat, b: Expr, k: nat, c: Expr, m: nat)
    requires Within(ts, i)
    requires TermExpr(sd, ts, i) == POk(a, j) && IsAdditive(ts[j].kind)
    requires TermExpr(sd, ts, j + 1) == POk(b, k) && IsAdditive(ts[k].kind)
    requires TermExpr(sd, ts, k + 1) == POk(c, m) && !IsAdditive(ts[m].kind)
    ensures ArithExpr(sd, ts, i) == POk(BinaryOperation(BinaryOperation(a, ts[j].text, b), ts[k].text, c), m)
  {
    AssociatesLeft(ArithLevel, sd, ts, i, a, j, b, k, c, m);
  }

  /** `a < b == c` is `(a < b) == c` for any three arithmetic expressions. */
  lemma ComparisonAssociatesLeft(sd: Stod, ts: seq<Token>, i: nat, a: Expr, j: nat, b: Expr, k: nat, c: Expr, m: nat)
    requires Within(ts, i)
    requires ArithExpr(sd, ts, i) == POk(a, j) && IsComparison(ts[j].kind)
    requires ArithExpr(sd, ts, j + 1) == POk(b, k) && IsComparison(ts[k].kind)
    requires ArithExpr(sd, ts, k + 1) == POk(c, m) && !IsComparison(ts[m].kind)
    ensures Expression(sd, ts, i) == POk(BinaryOperation(BinaryOperation(a, ts[j].text, b), ts[k].text, c), m)
  {
    AssociatesLeft(ComparisonLevel, sd, ts, i, a, j, b, k, c, m);
  }

  // ---------------------------------------------------------------------
  // Precedence.
  // ---------------------------------------------------------------------

  /** A primary that nothing of level `lv` or tighter follows is a whole
      expression of that level. */
  lemma PrimaryAs(lv: Level, sd: Stod, ts: seq<Token>, i: nat, a: Expr, j: nat)
    requires Within(ts, i) && PrimaryExpr(sd, ts, i) == POk(a, j) && !Continues(lv, ts[j].kind)
    ensures LevelExpr(lv, sd, ts, i) == POk(a, j)
    decreases Depth(lv)
  {
    LevelsNest(lv, ts[j].kind);
    if lv != PowerLevel {
      PrimaryAs(Lower(lv), sd, ts, i, a, j);
      assert Operand(lv, sd, ts, i) == LevelExpr(Lower(lv), sd, ts, i);
    }
    OperandAlone(lv, sd, ts, i, a, j);
  }

  /** Past an operator of any level there is a next token. */
  lemma PastOperator(lv: Level, ts: seq<Token>, j: nat)
    requires Within(ts, j) && IsOperator(lv, ts[j].kind)
    ensures Within(ts, j + 1)
  {
    LevelsNest(lv, ts[j].kind);
  }

  /** The level that a level's operands are parsed at. */
  /** How many levels lie below `lv`. */
  function Depth(lv: Level): nat {
    match lv
    case PowerLevel => 0
    case TermLevel => 1
    case ArithLevel => 2
    case ComparisonLevel => 3
  }

  function Lower(lv: Level): Level
    requires lv != PowerLevel
  {
    match lv
    case TermLevel => PowerLevel
    case ArithLevel => TermLevel
    case ComparisonLevel => ArithLevel
  }

  /** Each level's operators are none of a tighter level's and are not the
      end of input, and a token that no expression goes on with is no
      level's operator. */
  lemma LevelsNest(lv: Level, k: TokenKind)
    ensures IsOperator(lv, k) ==> k != EofTok
    ensures lv != PowerLevel && IsOperator(lv, k) ==> !Continues(Lower(lv), k)
    ensures !Continues(ComparisonLevel, k) ==> !Continues(lv, k) && !IsOperator(lv, k)
    ensures !Continues(lv, k) ==> !IsOperator(lv, k) && (lv != PowerLevel ==> !Continues(Lower(lv), k))
  {
  }

  /** An expression of the level below, an operator of the level and a
      primary that nothing of the level or tighter follows make one node. */
  lemma FallingStep(lv: Level, sd: Stod, ts: seq<Token>, i: nat, left: Expr, j: nat, e: Expr, k: nat)
    requires lv != PowerLevel && Within(ts, i)
    requires LevelExpr(Lower(lv), sd, ts, i) == POk(left, j) && IsOperator(lv, ts[j].kind)
    requires PrimaryExpr(sd, ts, j + 1) == POk(e, k) && !Continues(lv, ts[k].kind)
    ensures LevelExpr(lv, sd, ts, i) == POk(BinaryOperation(left, ts[j].text, e), k)
  {
    assert Operand(lv, sd, ts, i) == LevelExpr(Lower(lv), sd, ts, i);
    PrimaryAs(Lower(lv), sd, ts, j + 1, e, k);
    OperandPair(lv, sd, ts, i, left, j, e, k);
  }

  /** A primary, an operator of the level, and an operand of the level below
      that no operator of the level follows make one node, when the operator
      is not one of a tighter level. */
  lemma RisingStep(lv: Level, sd: Stod, ts: seq<Token>, i: nat, a: Expr, j: nat, right: Expr, k: nat)
    requires lv != PowerLevel && Within(ts, i)
    requires PrimaryExpr(sd, ts, i) == POk(a, j) && IsOperator(lv, ts[j].kind)
    requires LevelExpr(Lower(lv), sd, ts, j + 1) == POk(right, k) && !IsOperator(lv, ts[k].kind)
    ensures LevelExpr(lv, sd, ts, i) == POk(BinaryOperation(a, ts[j].text, right), k)
  {
    LevelsNest(lv, ts[j].kind);
    assert Operand(lv, sd, ts, j + 1) == LevelExpr(Lower(lv), sd, ts, j + 1);
    PrimaryAs(Lower(lv), sd, ts, i, a, j);
    OperandPair(lv, sd, ts, i, a, j, right, k);
  }

  /** `d ** e`, with nothing of any level after `e`. */
  lemma RisingPower(sd: Stod, ts: seq<Token>, i: nat, d: Expr, j: nat, e: Expr, k: nat)
    requires Within(ts, i)
    requires PrimaryExpr(sd, ts, i) == POk(d, j) && ts[j].kind == Power
    requires PrimaryExpr(sd, ts, j + 1) == POk(e, k) && !Continues(ComparisonLevel, ts[k].kind)
    ensures PowerExpr(sd, ts, i) == POk(BinaryOperation(d, ts[j].text, e), k)
  {
    LevelsNest(PowerLevel, ts[k].kind);
    OperandPair(PowerLevel, sd, ts, i, d, j, e, k);
  }

  /** A primary, `*` or `/`, and a power expression with nothing of any
      level after it: the power expression is the right operand. */
  lemma RisingTerm(sd: Stod, ts: seq<Token>, i: nat, c: Expr, j: nat, right: Expr, k: nat)
    requires Within(ts, i)
    requires PrimaryExpr(sd, ts, i) == POk(c, j) && IsMultiplicative(ts[j].kind)
    requires PowerExpr(sd, ts, j + 1) == POk(right, k) && !Continues(ComparisonLevel, ts[k].kind)
    ensures TermExpr(sd, ts, i) == POk(BinaryOperation(c, ts[j].text, right), k)
  {
    LevelsNest(TermLevel, ts[k].kind);
    RisingStep(TermLevel, sd, ts, i, c, j, right, k);
  }

  /** A primary, `+` or `-`, and a term with nothing of any level after it:
      the term is the right operand. */
  lemma RisingArith(sd: Stod, ts: seq<Token>, i: nat, b: Expr, j: nat, right: Expr, k: nat)
    requires Within(ts, i)
    requires PrimaryExpr(sd, ts, i) == POk(b, j) && IsAdditive(ts[j].kind)
    requires TermExpr(sd, ts, j + 1) == POk(right, k) && !Continues(ComparisonLevel, ts[k].kind)
    ensures ArithExpr(sd, ts, i) == POk(BinaryOperation(b, ts[j].text, right), k)
  {
    LevelsNest(ArithLevel, ts[k].kind);
    RisingStep(ArithLevel, sd, ts, i, b, j, right, k);
  }

  /** A primary, a comparison, and an arithmetic expression with nothing of
      any level after it: the arithmetic expression is the right operand. */
  lemma RisingComparison(sd: Stod, ts: seq<Token>, i: nat, a: Expr, j: nat, right: Expr, k: nat)
    requires Within(ts, i)
    requires PrimaryExpr(sd, ts, i) == POk(a, j) && IsComparison(ts[j].kind)
    requires ArithExpr(sd, ts, j + 1) == POk(right, k) && !Continues(ComparisonLevel, ts[k].kind)
    ensures Expression(sd, ts, i) == POk(BinaryOperation(a, ts[j].text, right), k)
  {
    LevelsNest(ComparisonLevel, ts[k].kind);
    RisingStep(ComparisonLevel, sd, ts, i, a, j, right, k);
  }

  /** `c * d ** e` for any three primaries, with nothing of any level after
      `e`. */
  lemma RisingTermChain(sd: Stod, ts: seq<Token>, i: nat, c: Expr, j2: nat, d: Expr, j3: nat, e: Expr, j4: nat)
    requires Within(ts, i)
    requires PrimaryExpr(sd, ts, i) == POk(c, j2) && IsMultiplicative(ts[j2].kind)
    requires PrimaryExpr(sd, ts, j2 + 1) == POk(d, j3) && ts[j3].kind == Power
    requires PrimaryExpr(sd, ts, j3 + 1) == POk(e, j4) && !Continues(ComparisonLevel, ts[j4].kind)
    ensures TermExpr(sd, ts, i) == POk(BinaryOperation(c, ts[j2].text, BinaryOperation(d, ts[j3].text, e)), j4)
  {
    PastOperator(TermLevel, ts, j2);
    RisingPower(sd, ts, j2 + 1, d, j3, e, j4);
    RisingTerm(sd, ts, i, c, j2, BinaryOperation(d, ts[j3].text, e), j4);
  }

  /** `b + c * d ** e` for any four primaries, with nothing of any level
      after `e`. */
  lemma RisingArithChain(sd: Stod, ts: seq<Token>, i: nat, b: Expr, j1: nat, c: Expr, j2: nat, d: Expr, j3: nat, e: Expr, j4: nat)
    requires Within(ts, i)
    requires PrimaryExpr(sd, ts, i) == POk(b, j1) && IsAdditive(ts[j1].kind)
    requires PrimaryExpr(sd, ts, j1 + 1) == POk(c, j2) && IsMultiplicative(ts[j2].kind)
    requires PrimaryExpr(sd, ts, j2 + 1) == POk(d, j3) && ts[j3].kind == Power
    requires PrimaryExpr(sd, ts, j3 + 1) == POk(e, j4) && !Continues(ComparisonLevel, ts[j4].kind)
    ensures ArithExpr(sd, ts, i)
      == POk(BinaryOperation(b, ts[j1].text, BinaryOperation(c, ts[j2].text, BinaryOperation(d, ts[j3].text, e))), j4)
  {
    PastOperator(ArithLevel, ts, j1);
    RisingTermChain(sd, ts, j1 + 1, c, j2, d, j3, e, j4);
    RisingArith(sd, ts, i, b, j1, BinaryOperation(c, ts[j2].text, BinaryOperation(d, ts[j3].text, e)), j4);
  }

  /** `a < b + c * d ** e` for any five primaries: each operator to the right
      binds tighter, so each right operand holds the rest of the expression. */
  lemma PrecedenceRising(sd: Stod, ts: seq<Token>, i: nat, a: Expr, j0: nat, b: Expr, j1: nat, c: Expr, j2: nat, d: Expr, j3: nat, e: Expr, j4: nat)
    requires Within(ts, i)
    requires PrimaryExpr(sd, ts, i) == POk(a, j0) && IsComparison(ts[j0].kind)
    requires PrimaryExpr(sd, ts, j0 + 1) == POk(b, j1) && IsAdditive(ts[j1].kind)
    requires PrimaryExpr(sd, ts, j1 + 1) == POk(c, j2) && IsMultiplicative(ts[j2].kind)
    requires PrimaryExpr(sd, ts, j2 + 1) == POk(d, j3) && ts[j3].kind == Power
    requires PrimaryExpr(sd, ts, j3 + 1) == POk(e, j4) && !Continues(ComparisonLevel, ts[j4].kind)
    ensures Expression(sd, ts, i)
      == POk(BinaryOperation(a, ts[j0].text, BinaryOperation(b, ts[j1].text, BinaryOperation(c, ts[j2].text, BinaryOperation(d, ts[j3].text, e)))), j4)
  {
    PastOperator(ComparisonLevel, ts, j0);
    RisingArithChain(sd, ts, j0 + 1, b, j1, c, j2, d, j3, e, j4);
    RisingComparison(sd, ts, i, a, j0, BinaryOperation(b, ts[j1].text, BinaryOperation(c, ts[j2].text, BinaryOperation(d, ts[j3].text, e))), j4);
  }

  /** A power expression, `*` or `/`, and a primary that nothing of the term
      level or tighter follows: the power expression is the left operand. */
  lemma FallingTerm(sd: Stod, ts: seq<Token>, i: nat, left: Expr, j: nat, c: Expr, k: nat)
    requires Within(ts, i)
    requires PowerExpr(sd, ts, i) == POk(left, j) && IsMultiplicative(ts[j].kind)
    requires PrimaryExpr(sd, ts, j + 1) == POk(c, k) && !Continues(TermLevel, ts[k].kind)
    ensures TermExpr(sd, ts, i) == POk(BinaryOperation(left, ts[j].text, c), k)
  {
    FallingStep(TermLevel, sd, ts, i, left, j, c, k);
  }

  /** A term, `+` or `-`, and a primary that nothing of the arithmetic level
      or tighter follows: the term is the left operand. */
  lemma FallingArith(sd: Stod, ts: seq<Token>, i: nat, left: Expr, j: nat, d: Expr, k: nat)
    requires Within(ts, i)
    requires TermExpr(sd, ts, i) == POk(left, j) && IsAdditive(ts[j].kind)
    requires PrimaryExpr(sd, ts, j + 1) == POk(d, k) && !Continues(ArithLevel, ts[k].kind)
    ensures ArithExpr(sd, ts, i) == POk(BinaryOperation(left, ts[j].text, d), k)
  {
    FallingStep(ArithLevel, sd, ts, i, left, j, d, k);
  }

  /** An arithmetic expression, a comparison, and a primary that nothing of
      any level follows: the arithmetic expression is the left operand. */
  lemma FallingComparison(sd: Stod, ts: seq<Token>, i: nat, left: Expr, j: nat, e: Expr, k: nat)
    requires Within(ts, i)
    requires ArithExpr(sd, ts, i) == POk(left, j) && IsComparison(ts[j].kind)
    requires PrimaryExpr(sd, ts, j + 1) == POk(e, k) && !Continues(ComparisonLevel, ts[k].kind)
    ensures Expression(sd, ts, i) == POk(BinaryOperation(left, ts[j].text, e), k)
  {
    FallingStep(ComparisonLevel, sd, ts, i, left, j, e, k);
  }

  /** `a ** b * c` for any three primaries, followed by `+` or `-`. */
  lemma FallingTermChain(sd: Stod, ts: seq<Token>, i: nat, a: Expr, j0: nat, b: Expr, j1: nat, c: Expr, j2: nat)
    requires Within(ts, i)
    requires PrimaryExpr(sd, ts, i) == POk(a, j0) && ts[j0].kind == Power
    requires PrimaryExpr(sd, ts, j0 + 1) == POk(b, j1) && IsMultiplicative(ts[j1].kind)
    requires PrimaryExpr(sd, ts, j1 + 1) == POk(c, j2) && IsAdditive(ts[j2].kind)
    ensures TermExpr(sd, ts, i) == POk(BinaryOperation(BinaryOperation(a, ts[j0].text, b), ts[j1].text, c), j2)
  {
    LevelsNest(TermLevel, ts[j1].kind);
    OperandPair(PowerLevel, sd, ts, i, a, j0, b, j1);
    LevelsNest(ArithLevel, ts[j2].kind);
    FallingTerm(sd, ts, i, BinaryOperation(a, ts[j0].text, b), j1, c, j2);
  }

  /** `a ** b * c + d` for any four primaries, followed by a comparison. */
  lemma FallingArithChain(sd: Stod, ts: seq<Token>, i: nat, a: Expr, j0: nat, b: Expr, j1: nat, c: Expr, j2: nat, d: Expr, j3: nat)
    requires Within(ts, i)
    requires PrimaryExpr(sd, ts, i) == POk(a, j0) && ts[j0].kind == Power
    requires PrimaryExpr(sd, ts, j0 + 1) == POk(b, j1) && IsMultiplicative(ts[j1].kind)
    requires PrimaryExpr(sd, ts, j1 + 1) == POk(c, j2) && IsAdditive(ts[j2].kind)
    requires PrimaryExpr(sd, ts, j2 + 1) == POk(d, j3) && IsComparison(ts[j3].kind)
    ensures ArithExpr(sd, ts, i)
      == POk(BinaryOperation(BinaryOperation(BinaryOperation(a, ts[j0].text, b), ts[j1].text, c), ts[j2].text, d), j3)
  {
    FallingTermChain(sd, ts, i, a, j0, b, j1, c, j2);
    LevelsNest(ComparisonLevel, ts[j3].kind);
    FallingArith(sd, ts, i, BinaryOperation(BinaryOperation(a, ts[j0].text, b), ts[j1].text, c), j2, d, j3);
  }

  /** `a ** b * c + d < e` for any five primaries: each operator to the right
      binds looser, so each left operand holds everything before it. */
  lemma PrecedenceFalling(sd: Stod, ts: seq<Token>, i: nat, a: Expr, j0: nat, b: Expr, j1: nat, c: Expr, j2: nat, d: Expr, j3: nat, e: Expr, j4: nat)
    requires Within(ts, i)
    requires PrimaryExpr(sd, ts, i) == POk(a, j0) && ts[j0].kind == Power
    requires PrimaryExpr(sd, ts, j0 + 1) == POk(b, j1) && IsMultiplicative(ts[j1].kind)
    requires PrimaryExpr(sd, ts, j1 + 1) == POk(c, j2) && IsAdditive(ts[j2].kind)
    requires PrimaryExpr(sd, ts, j2 + 1) == POk(d, j3) && IsComparison(ts[j3].kind)
    requires PrimaryExpr(sd, ts, j3 + 1) == POk(e, j4) && !Continues(ComparisonLevel, ts[j4].kind)
    ensures Expression(sd, ts, i)
      == POk(BinaryOperation(BinaryOperation(BinaryOperation(BinaryOperation(a, ts[j0].text, b), ts[j1].text, c), ts[j2].text, d), ts[j3].text, e), j4)
  {
    FallingArithChain(sd, ts, i, a, j0, b, j1, c, j2, d, j3);
    FallingComparison(sd, ts, i, BinaryOperation(BinaryOperation(BinaryOperation(a, ts[j0].text, b), ts[j1].text, c), ts[j2].text, d), j3, e, j4);
  }

  /** `2 ** 3 ** 2` is `(2 ** 3) ** 2`: exponentiation folds to the left like
      every other level. */
  lemma PowerOfLiterals(sd: Stod, ts: seq<Token>)
    requires Within(ts, 5) && !Continues(ComparisonLevel, ts[5].kind)
    requires sd("2") == Some(2) && sd("3") == Some(3)
    requires ts[0].kind == NumberTok && ts[0].text == "2" && ts[1].kind == Power && ts[1].text == "**"
    requires ts[2].kind == NumberTok && ts[2].text == "3" && ts[3].kind == Power && ts[3].text == "**"
    requires ts[4].kind == NumberTok && ts[4].text == "2"
    ensures Expression(sd, ts, 0)
      == POk(BinaryOperation(BinaryOperation(NumberLiteral(2), "**", NumberLiteral(3)), "**", NumberLiteral(2)), 5)
  {
    var e := BinaryOperation(BinaryOperation(NumberLiteral(2), "**", NumberLiteral(3)), "**", NumberLiteral(2));
    assert PrimaryExpr(sd, ts, 0) == POk(NumberLiteral(2), 1);
    assert PrimaryExpr(sd, ts, 2) == POk(NumberLiteral(3), 3);
    assert PrimaryExpr(sd, ts, 4) == POk(NumberLiteral(2), 5);
    PowerAssociatesLeft(sd, ts, 0, NumberLiteral(2), 1, NumberLiteral(3), 3, NumberLiteral(2), 5);
    OperandAlone(TermLevel, sd, ts, 0, e, 5);
    OperandAlone(ArithLevel, sd, ts, 0, e, 5);
    OperandAlone(ComparisonLevel, sd, ts, 0, e, 5);
  }

  // ---------------------------------------------------------------------
  // Map literals and accesses.
  // ---------------------------------------------------------------------

  /** A map literal whose first entry does not start with a string literal is
      rejected. */
  lemma MapKeyMustBeString(sd: Stod, ts: seq<Token>, i: nat)
    requires Within(ts, i) && ts[i].kind != RBrace && ts[i].kind != StringTok
    ensures MapRest(sd, ts, i) == PErr(ExpectedStringKey)
  {
    assert PairAt(sd, ts, i) == PErr(ExpectedStringKey);
    assert MapPairs(sd, ts, i) == PErr(ExpectedStringKey);
  }

  /** So is a later entry: after a comma, only a string literal may follow. */
  lemma LaterMapKeyMustBeString(sd: Stod, ts: seq<Token>, i: nat, acc: seq<Pair>)
    requires Within(ts, i + 1) && ts[i].kind == Comma && ts[i + 1].kind != StringTok
    ensures PairsTail(sd, ts, i, acc) == PErr(ExpectedStringKey)
  {
    PairsStep(sd, ts, i, acc);
  }

  /** The pairs read so far stay, in order, at the front of the result. */
  lemma {:induction false} PairsKeepOrder(sd: Stod, ts: seq<Token>, i: nat, acc: seq<Pair>)
    requires Within(ts, i)
    ensures var r := PairsTail(sd, ts, i, acc); r.POk? ==> acc <= r.value
    decreases |ts| - i
  {
    if ts[i].kind == Comma {
      PairsStep(sd, ts, i, acc);
      var pair := PairAt(sd, ts, i + 1);
      if pair.POk? {
        PairsKeepOrder(sd, ts, pair.next, acc + [pair.value]);
      }
    }
  }

  /** From `i` the stream holds the pairs `ps`, each read by `PairAt` and
      separated by commas; no comma follows the last, which ends at `end`. */
  predicate PairChain(sd: Stod, ts: seq<Token>, i: nat, ps: seq<Pair>, end: nat)
    requires Within(ts, i)
    decreases |ps|
  {
    var first := PairAt(sd, ts, i);
    && ps != [] && first.POk? && first.value == ps[0]
    && if |ps| == 1 then first.next == end && ts[end].kind != Comma
       else ts[first.next].kind == Comma && first.next + 1 < |ts| && PairChain(sd, ts, first.next + 1, ps[1..], end)
  }

  /** The comma loop after the first pair of a chain appends the rest of the
      chain, in order. */
  lemma {:induction false} PairChainTail(sd: Stod, ts: seq<Token>, i: nat, ps: seq<Pair>, end: nat, acc: seq<Pair>)
    requires Within(ts, i) && PairChain(sd, ts, i, ps, end)
    ensures PairAt(sd, ts, i).POk? && PairAt(sd, ts, i).value == ps[0]
    ensures PairsTail(sd, ts, PairAt(sd, ts, i).next, acc + [ps[0]]) == POk(acc + ps, end)
    decreases |ps|
  {
    var j := PairAt(sd, ts, i).next;
    if |ps| == 1 {
      assert acc + [ps[0]] == acc + ps;
    } else {
      PairsStep(sd, ts, j, acc + [ps[0]]);
      PairChainTail(sd, ts, j + 1, ps[1..], end, acc + [ps[0]]);
      assert acc + [ps[0]] + ps[1..] == acc + ps;
    }
  }

  /** After `{`, a primary is the rest of a map literal. */
  lemma MapStart(sd: Stod, ts: seq<Token>, i: nat)
    requires Within(ts, i) && ts[i].kind == LBrace
    ensures Within(ts, i + 1) && PrimaryExpr(sd, ts, i) == MapRest(sd, ts, i + 1)
  {
  }

  /** A map body that starts with a pair is the comma loop after it. */
  lemma BodyOfPairs(sd: Stod, ts: seq<Token>, i: nat)
    requires Within(ts, i) && PairAt(sd, ts, i).POk?
    ensures MapBody(sd, ts, i) == PairsTail(sd, ts, PairAt(sd, ts, i).next, [PairAt(sd, ts, i).value])
  {
    assert ts[i].kind == StringTok;
  }

  /** The rest of a map literal is its body closed by `}`. */
  lemma RestOfBody(sd: Stod, ts: seq<Token>, i: nat)
    requires Within(ts, i)
    ensures var b := MapBody(sd, ts, i);
      && (MapRest(sd, ts, i).POk? <==> b.POk? && ts[b.next].kind == RBrace)
      && (MapRest(sd, ts, i).POk? ==> MapRest(sd, ts, i) == POk(MapLiteral(b.value), b.next + 1))
  {
  }

  /** A chain of pairs closed by `}` is the rest of the map literal of
      those pairs. */
  lemma RestOfChain(sd: Stod, ts: seq<Token>, i: nat, ps: seq<Pair>, end: nat)
    requires Within(ts, i) && PairChain(sd, ts, i, ps, end) && end < |ts| && ts[end].kind == RBrace
    ensures MapRest(sd, ts, i) == POk(MapLiteral(ps), end + 1)
  {
    PairChainTail(sd, ts, i, ps, end, []);
    assert [] + [ps[0]] == [PairAt(sd, ts, i).value] && [] + ps == ps;
    BodyOfPairs(sd, ts, i);
    RestOfBody(sd, ts, i);
  }

  /** A map literal holds its pairs in source order: for any pairs read one
      after another, `{ p0, p1, ... }` is the literal of exactly those pairs. */
  lemma MapPairsInSourceOrder(sd: Stod, ts: seq<Token>, i: nat, ps: seq<Pair>, end: nat)
    requires Within(ts, i) && ts[i].kind == LBrace
    requires PairChain(sd, ts, i + 1, ps, end) && end < |ts| && ts[end].kind == RBrace
    ensures PrimaryExpr(sd, ts, i) == POk(MapLiteral(ps), end + 1)
  {
    MapStart(sd, ts, i);
    RestOfChain(sd, ts, i + 1, ps, end);
  }

  /** The comma loop only ever appends a chain of pairs. */
  lemma {:induction false} TailIsChain(sd: Stod, ts: seq<Token>, j: nat, acc: seq<Pair>)
    requires Within(ts, j)
    ensures var r := PairsTail(sd, ts, j, acc);
      r.POk? ==>
        && acc <= r.value
        && (ts[j].kind != Comma ==> r.value == acc && r.next == j)
        && (ts[j].kind == Comma ==> j + 1 < |ts| && PairChain(sd, ts, j + 1, r.value[|acc|..], r.next))
    decreases |ts| - j
  {
    var r := PairsTail(sd, ts, j, acc);
    if ts[j].kind == Comma {
      PairsStep(sd, ts, j, acc);
      var pair := PairAt(sd, ts, j + 1);
      if pair.POk? && r.POk? {
        var acc' := acc + [pair.value];
        TailIsChain(sd, ts, pair.next, acc');
        var rest := r.value[|acc|..];
        assert rest[0] == pair.value by { assert r.value[|acc|] == acc'[|acc|]; }
        assert rest[1..] == r.value[|acc'|..];
      }
    }
  }

  /** The pairs a map literal's do-while loop reads are a chain of pairs. */
  lemma MapPairsIsChain(sd: Stod, ts: seq<Token>, i: nat)
    requires Within(ts, i)
    ensures var r := MapPairs(sd, ts, i);
      r.POk? ==> PairChain(sd, ts, i, r.value, r.next)
  {
    var r := MapPairs(sd, ts, i);
    var first := PairAt(sd, ts, i);
    if r.POk? {
      var tail := PairsTail(sd, ts, first.next, [first.value]);
      assert r == tail;
      TailIsChain(sd, ts, first.next, [first.value]);
      var ps := tail.value;
      assert ps[0] == first.value;
      if ts[first.next].kind == Comma {
        assert ps[1..] == ps[|[first.value]|..];
      }
    }
  }

  /** A parsed map body is empty exactly at `}`, and otherwise a chain of
      pairs. */
  lemma BodyIsChain(sd: Stod, ts: seq<Token>, i: nat)
    requires Within(ts, i)
    ensures var b := MapBody(sd, ts, i);
      b.POk? ==>
        && (b.value == [] <==> ts[i].kind == RBrace)
        && (b.value != [] ==> PairChain(sd, ts, i, b.value, b.next))
  {
    if ts[i].kind != RBrace {
      assert MapBody(sd, ts, i) == MapPairs(sd, ts, i);
      MapPairsIsChain(sd, ts, i);
    }
  }

  /** The rest of a parsed map literal is its pairs closed by `}`. */
  lemma RestIsChain(sd: Stod, ts: seq<Token>, i: nat)
    requires Within(ts, i)
    ensures var r := MapRest(sd, ts, i);
      r.POk? ==>
        && r.value.MapLiteral? && ts[r.next - 1].kind == RBrace
        && (r.value.pairs == [] <==> ts[i].kind == RBrace)
        && (r.value.pairs != [] ==> PairChain(sd, ts, i, r.value.pairs, r.next - 1))
  {
    RestOfBody(sd, ts, i);
    BodyIsChain(sd, ts, i);
  }

  /** Conversely, a parsed map literal is a chain of pairs closed by `}`, or
      empty exactly when `}` follows `{` at once. */
  lemma MapLiteralPairs(sd: Stod, ts: seq<Token>, i: nat)
    requires Within(ts, i) && ts[i].kind == LBrace
    ensures var r := PrimaryExpr(sd, ts, i);
      r.POk? ==>
        && r.value.MapLiteral? && ts[r.next - 1].kind == RBrace
        && (r.value.pairs == [] <==> ts[i + 1].kind == RBrace)
        && (r.value.pairs != [] ==> PairChain(sd, ts, i + 1, r.value.pairs, r.next - 1))
  {
    MapStart(sd, ts, i);
    RestIsChain(sd, ts, i + 1);
  }

  /** `id["k"]` is a map access with key `k`. */
  lemma StringIndexIsMapAccess(sd: Stod, ts: seq<Token>, i: nat)
    requires Within(ts, i + 3) && ts[i].kind == IdentTok && ts[i + 1].kind == LBracket
    requires ts[i + 2].kind == StringTok && ts[i + 3].kind == RBracket
    ensures PrimaryExpr(sd, ts, i) == POk(MapAccess(Identifier(ts[i].text), ts[i + 2].text), i + 4)
  {
    assert AccessRest(sd, ts, ts[i].text, i + 2) == POk(MapAccess(Identifier(ts[i].text), ts[i + 2].text), i + 4);
  }

  /** After `id[`, a string literal makes a map access and any other token an
      array access whose index is the expression parsed from that token. */
  lemma AccessKind(sd: Stod, ts: seq<Token>, i: nat)
    requires Within(ts, i + 2) && ts[i].kind == IdentTok && ts[i + 1].kind == LBracket
    ensures var r := PrimaryExpr(sd, ts, i);
      r.POk? ==>
        && (r.value.MapAccess? <==> ts[i + 2].kind == StringTok)
        && (r.value.ArrayAccess? <==> ts[i + 2].kind != StringTok)
        && r.value.target == Identifier(ts[i].text)
        && (r.value.MapAccess? ==> r.value.key == ts[i + 2].text)
        && (r.value.ArrayAccess? ==>
              && Expression(sd, ts, i + 2).POk? && r.value.index == Expression(sd, ts, i + 2).value)
  {
    assert PrimaryExpr(sd, ts, i) == AccessRest(sd, ts, ts[i].text, i + 2);
  }

  // ---------------------------------------------------------------------
  // Statements and programs.
  // ---------------------------------------------------------------------

  /** `let x = e ;` is the declaration of `x` with initializer `e` exactly
      when an identifier and `=` follow `let`, the expression after them
      parses, and `;` follows it; a `let` not followed by an identifier fails
      with its own message. */
  lemma LetDeclaration(sd: Stod, ts: seq<Token>, i: nat)
    requires Within(ts, i) && ts[i].kind == LetKw
    ensures i + 1 < |ts|
    ensures ts[i + 1].kind != IdentTok ==> Statement(sd, ts, i) == PErr(ExpectedLetName)
    ensures Statement(sd, ts, i).POk? <==>
      && ts[i + 1].kind == IdentTok && ts[i + 2].kind == Assign
      && Expression(sd, ts, i + 3).POk? && ts[Expression(sd, ts, i + 3).next].kind == Semicolon
    ensures Statement(sd, ts, i).POk? ==>
      Statement(sd, ts, i)
      == POk(VariableDeclaration(ts[i + 1].text, Expression(sd, ts, i + 3).value), Expression(sd, ts, i + 3).next + 1)
  {
    assert Statement(sd, ts, i) == LetStatement(sd, ts, i + 1);
    if ts[i + 1].kind == IdentTok && ts[i + 2].kind == Assign {
      assert AssignedValue(sd, ts, i + 2) == Expression(sd, ts, i + 3);
    }
  }

  /** `parse_for_init` consumes nothing and yields no statement exactly when
      the token is neither `let` nor an identifier; otherwise a parsed init is
      a declaration of the name after `let`, or an assignment to the
      identifier. */
  lemma ForInitShape(sd: Stod, ts: seq<Token>, i: nat)
    requires Within(ts, i)
    ensures ForInit(sd, ts, i) == POk(None, i) <==> ts[i].kind != LetKw && ts[i].kind != IdentTok
    ensures var r := ForInit(sd, ts, i);
      r.POk? && ts[i].kind == LetKw ==>
        r.next > i && r.value.Some? && r.value.value.VariableDeclaration? && r.value.value.name == ts[i + 1].text
    ensures var r := ForInit(sd, ts, i);
      r.POk? && ts[i].kind == IdentTok ==>
        r.next > i && r.value.Some? && r.value.value.Assignment? && r.value.value.target == ts[i].text
  {
  }

  /** An update clause that starts with neither `)` nor an identifier is not
      read, and the `)` expected in its place fails on that token. */
  lemma UpdateMustBeAssignment(sd: Stod, ts: seq<Token>, i: nat)
    requires Within(ts, i) && ts[i].kind != RParen && ts[i].kind != IdentTok
    ensures ForUpdateClause(sd, ts, i) == PErr(ExpectedToken(ts[i].text))
  {
  }

  /** So the whole `for` header fails with "Expected token type" on that
      token, whatever the init and condition clauses were. */
  lemma ForHeaderRejectsUpdate(sd: Stod, ts: seq<Token>, i: nat, init: Option<Stmt>, j: nat, cond: Option<Expr>, k: nat)
    requires Within(ts, i) && ts[i].kind == LParen
    requires ForInitClause(sd, ts, i + 1) == POk(init, j) && OptionalClause(sd, ts, j) == POk(cond, k)
    requires ts[k].kind != RParen && ts[k].kind != IdentTok
    ensures ForHeader(sd, ts, i) == PErr(ExpectedToken(ts[k].text))
  {
    UpdateMustBeAssignment(sd, ts, k);
  }

  /** From `i` the statements `ss` parse one after another; the last ends at
      `end`. */
  predicate StmtChain(sd: Stod, ts: seq<Token>, i: nat, ss: seq<Stmt>, end: nat)
    requires Within(ts, i)
    decreases |ss|
  {
    if ss == [] then i == end
    else
      var s := Statement(sd, ts, i);
      s.POk? && s.value == ss[0] && StmtChain(sd, ts, s.next, ss[1..], end)
  }

  /** No statement starts at `}` or at the end of input. */
  lemma StatementStart(sd: Stod, ts: seq<Token>, i: nat)
    requires Within(ts, i)
    ensures Statement(sd, ts, i).POk? ==> ts[i].kind != RBrace && ts[i].kind != EofTok
  {
  }

  /** Moving the first of `ss` onto `acc` keeps the concatenation. */
  lemma MoveHead<T>(acc: seq<T>, ss: seq<T>)
    requires ss != []
    ensures acc + [ss[0]] + ss[1..] == acc + ss
  {
    assert ss == [ss[0]] + ss[1..];
  }

  /** A nonempty chain starts with a statement that does not begin at `}` or
      at the end of input, and goes on from where that statement ends. */
  lemma ChainHead(sd: Stod, ts: seq<Token>, i: nat, ss: seq<Stmt>, end: nat)
    requires Within(ts, i) && ss != [] && StmtChain(sd, ts, i, ss, end)
    ensures ts[i].kind != RBrace && ts[i].kind != EofTok
    ensures var s := Statement(sd, ts, i);
      s.POk? && s.value == ss[0] && Within(ts, s.next) && StmtChain(sd, ts, s.next, ss[1..], end)
  {
    StatementStart(sd, ts, i);
  }

  /** One turn of the block's statement loop reads the chain's first
      statement. */
  lemma BlockChainStep(sd: Stod, ts: seq<Token>, i: nat, acc: seq<Stmt>, ss: seq<Stmt>, end: nat) returns (n: nat)
    requires Within(ts, i) && ss != [] && StmtChain(sd, ts, i, ss, end)
    ensures Within(ts, n) && StmtChain(sd, ts, n, ss[1..], end) && BlockLoop(sd, ts, i, acc) == BlockLoop(sd, ts, n, acc + [ss[0]])
  {
    n := Statement(sd, ts, i).next;
    ChainHead(sd, ts, i, ss, end);
    BlockStep(sd, ts, i, acc);
  }

  /** The statement loop of a block reads a chain of statements up to `}` or
      the end of input. */
  lemma {:induction false} BlockLoopChain(sd: Stod, ts: seq<Token>, i: nat, acc: seq<Stmt>, ss: seq<Stmt>, end: nat)
    requires Within(ts, i) && end < |ts| && (ts[end].kind == RBrace || ts[end].kind == EofTok)
    requires StmtChain(sd, ts, i, ss, end)
    ensures BlockLoop(sd, ts, i, acc) == POk(acc + ss, end)
    decreases |ss|
  {
    if ss == [] {
      assert acc + ss == acc;
    } else {
      var n := BlockChainStep(sd, ts, i, acc, ss, end);
      BlockLoopChain(sd, ts, n, acc + [ss[0]], ss[1..], end);
      MoveHead(acc, ss);
    }
  }

  /** `{ s0 s1 ... }` is the block of exactly those statements, in order. */
  lemma BlockOfStatements(sd: Stod, ts: seq<Token>, i: nat, ss: seq<Stmt>, end: nat)
    requires Within(ts, i) && ts[i].kind == LBrace
    requires StmtChain(sd, ts, i + 1, ss, end) && end < |ts| && ts[end].kind == RBrace
    ensures BlockStmts(sd, ts, i) == POk(ss, end + 1)
  {
    BlockLoopChain(sd, ts, i + 1, [], ss, end);
    assert [] + ss == ss;
  }

  /** One turn of the program loop reads the chain's first statement. */
  lemma ProgramChainStep(sd: Stod, ts: seq<Token>, i: nat, acc: seq<Stmt>, ss: seq<Stmt>, end: nat) returns (n: nat)
    requires Within(ts, i) && ss != [] && StmtChain(sd, ts, i, ss, end)
    ensures Within(ts, n) && StmtChain(sd, ts, n, ss[1..], end) && ProgramFrom(sd, ts, i, acc) == ProgramFrom(sd, ts, n, acc + [ss[0]])
  {
    n := Statement(sd, ts, i).next;
    ChainHead(sd, ts, i, ss, end);
    ProgramStep(sd, ts, i, acc);
  }

  /** `parse` succeeds on any chain of statements that ends at EOF, and
      yields them in order after those already read. */
  lemma {:induction false} ProgramIsStatements(sd: Stod, ts: seq<Token>, i: nat, acc: seq<Stmt>, ss: seq<Stmt>, end: nat)
    requires Within(ts, i) && end < |ts| && ts[end].kind == EofTok
    requires StmtChain(sd, ts, i, ss, end)
    ensures ProgramFrom(sd, ts, i, acc) == Ok(Program(acc + ss))
    decreases |ss|
  {
    if ss == [] {
      assert acc + ss == acc;
    } else {
      var n := ProgramChainStep(sd, ts, i, acc, ss, end);
      ProgramIsStatements(sd, ts, n, acc + [ss[0]], ss[1..], end);
      MoveHead(acc, ss);
    }
  }

  /** Conversely, when `parse` succeeds, its statements after those already
      read are a chain of statements that ends at an EOF token. */
  lemma {:induction false} ParsedProgramIsStatements(sd: Stod, ts: seq<Token>, i: nat, acc: seq<Stmt>)
    requires Within(ts, i)
    ensures var r := ProgramFrom(sd, ts, i, acc);
      r.Ok? ==>
        && acc <= r.value.stmts
        && exists end: nat :: end < |ts| && ts[end].kind == EofTok && StmtChain(sd, ts, i, r.value.stmts[|acc|..], end)
    decreases |ts| - i
  {
    var r := ProgramFrom(sd, ts, i, acc);
    if ts[i].kind == EofTok {
      if r.Ok? {
        assert r.value.stmts[|acc|..] == [];
        assert StmtChain(sd, ts, i, [], i);
      }
    } else {
      ProgramStep(sd, ts, i, acc);
      var s := Statement(sd, ts, i);
      if s.POk? && r.Ok? {
        var acc' := acc + [s.value];
        ParsedProgramIsStatements(sd, ts, s.next, acc');
        var end: nat :| end < |ts| && ts[end].kind == EofTok && StmtChain(sd, ts, s.next, r.value.stmts[|acc'|..], end);
        var rest := r.value.stmts[|acc|..];
        assert |rest| > 0 && rest[0] == s.value by { assert r.value.stmts[|acc|] == acc'[|acc|]; }
        assert rest[1..] == r.value.stmts[|acc'|..];
        assert rest != [] && Statement(sd, ts, i) == s && StmtChain(sd, ts, s.next, rest[1..], end);
        assert StmtChain(sd, ts, i, rest, end);
      }
    }
  }
}
