/** What the tree-walking interpreter (compiler.cpp:986-1406) computes, as
    functions from a state to an outcome and a new state. The class
    `Interpreter` of module Interpreting is proved to follow them. */
module Semantics {
  import opened Wrappers
  import opened Ast
  import opened Values

  /** One scope of variables: an association list with distinct keys. */
  type Scope = seq<Entry>

  /** The interpreter's fields: the globals, the stack of local scopes
      (innermost last), the `in_function` flag, the pending return value, and
      the lines printed so far. */
  datatype State = State(globals: Scope, locals: seq<Scope>, inFunction: bool, ret: Option<Value>, out: seq<string>)

  /** The state before the first statement runs. */
  const Initial := State([], [], false, None, [])

  /** The `std::runtime_error`s the interpreter throws. */
  datatype RuntimeError =
    | UndefinedVariable(name: string)
    | UnknownFunction(name: string)
    | ArityMismatch(callee: string, expected: nat, got: nat)
    | NonNumericArray(builtin: string)
    | CannotConvert(text: string)
    | InvalidArrayAccess
    | IndexOutOfBounds
    | InvalidMapAccess
    | KeyNotFound(key: string)
    | InvalidOperation(op: string, left: Value, right: Value)
    | ReturnOutsideFunction

  /** Decimal digits of a count, as `std::to_string` writes a `size_t`. */
  function Decimal(n: nat): string
    decreases n
  {
    var digit := ['0' + (n % 10) as char];
    if n < 10 then digit else Decimal(n / 10) + digit
  }

  /** The `what()` text of each error. */
  function Message(h: Host, e: RuntimeError): string {
    match e
    case UndefinedVariable(name) => "Undefined variable: " + name
    case UnknownFunction(name) => "Unknown function: " + name
    case ArityMismatch(f, expected, got) =>
      "Function " + f + " expects " + Decimal(expected) + " arguments, got " + Decimal(got)
    case NonNumericArray(builtin) => builtin + "() requires numeric array"
    case CannotConvert(text) => "Cannot convert string to number: " + text
    case InvalidArrayAccess => "Invalid array access"
    case IndexOutOfBounds => "Array index out of bounds"
    case InvalidMapAccess => "Invalid map access"
    case KeyNotFound(key) => "Key not found in map: " + key
    case InvalidOperation(op, l, r) => "Invalid operation: " + op + " on " + ToString(h, l) + " and " + ToString(h, r)
    case ReturnOutsideFunction => "Return statement outside of function"
  }

  /** How a step ends: normally with a value, with a thrown error, or (a
      model artefact) by running out of fuel, which stands for a computation
      that does not end. */
  datatype Status<T> = Normal(value: T) | Thrown(error: RuntimeError) | OutOfFuel
  {
    predicate IsFailure() { !Normal? }

    function PropagateFailure<U>(): Status<U>
      requires !Normal?
    {
      if Thrown? then Thrown(error) else OutOfFuel
    }

    function Extract(): T
      requires Normal?
    {
      value
    }
  }

  /** A step's status and the state it leaves. A thrown error leaves the state
      as it was when the exception was raised: scopes pushed on the way are
      not popped. */
  datatype Run<T> = Run(status: Status<T>, st: State)
  {
    /** An abrupt end passed on unchanged to the enclosing step. */
    function Abrupt<U>(): Run<U>
      requires !status.Normal?
    {
      Run(status.PropagateFailure(), st)
    }
  }

  /** Which exceptions the call expression's `catch (...)` swallows before it
      tries the builtins: as written, any exception raised by the lookup or by
      the call of the user function; in the corrected reading, only the
      failure of the lookup. */
  datatype Fallback = CatchAll | CatchLookup

  // ---------------------------------------------------------------------
  // Variables.
  // ---------------------------------------------------------------------

  /** The scan of `get_variable` over the local scopes, innermost first. */
  function LookupIn(scopes: seq<Scope>, name: string): Option<Value>
    decreases |scopes|
  {
    if scopes == [] then None
    else
      var found := Find(scopes[|scopes| - 1], name);
      if found.Some? then found else LookupIn(scopes[..|scopes| - 1], name)
  }

  /** `get_variable`: the local scopes innermost first, then the globals. */
  function Lookup(st: State, name: string): Option<Value> {
    var local := LookupIn(st.locals, name);
    if local.Some? then local else Find(st.globals, name)
  }

  /** `set_variable`: the innermost local scope, or the globals when no local
      scope is open. */
  function Bind(st: State, name: string, v: Value): State {
    if st.locals == [] then st.(globals := Put(st.globals, name, v))
    else
      var n := |st.locals|;
      st.(locals := st.locals[..n - 1] + [Put(st.locals[n - 1], name, v)])
  }

  /** The scope of a call: each parameter bound to its argument, in order. */
  function ParamScope(params: seq<string>, args: seq<Value>): Scope
    requires |params| == |args|
    decreases |params|
  {
    if params == [] then []
    else
      var n := |params|;
      Put(ParamScope(params[..n - 1], args[..n - 1]), params[n - 1], args[n - 1])
  }

  /** Leaving a call or a block: the innermost scope is popped. */
  function Pop(st: State): State
    requires |st.locals| > 0
  {
    st.(locals := st.locals[..|st.locals| - 1])
  }

  // ---------------------------------------------------------------------
  // Operators and builtins.
  // ---------------------------------------------------------------------

  function BoolNum(b: bool): Value {
    Num(if b then 1 else 0)
  }

  /** A binary operator on two numbers; None for an operator it does not know. */
  function NumericOp(h: Host, op: string, l: Number, r: Number): Option<Value> {
    if op == "+" then Some(Num(l + r))
    else if op == "-" then Some(Num(l - r))
    else if op == "*" then Some(Num(l * r))
    else if op == "/" then Some(Num(h.divide(l, r)))
    else if op == "**" then Some(Num(h.power(l, r)))
    else if op == "==" then Some(BoolNum(l == r))
    else if op == "!=" then Some(BoolNum(l != r))
    else if op == "<" then Some(BoolNum(l < r))
    else if op == ">" then Some(BoolNum(l > r))
    else if op == "<=" then Some(BoolNum(l <= r))
    else if op == ">=" then Some(BoolNum(l >= r))
    else None
  }

  /** The binary-operation case of `evaluate_expression`, once both operands
      are evaluated. */
  function ApplyOp(h: Host, op: string, l: Value, r: Value): Result<Value, RuntimeError> {
    if op == "+" && (l.Str? || r.Str?) then Ok(Str(ToString(h, l) + ToString(h, r)))
    else if l.Num? && r.Num? && NumericOp(h, op, l.n, r.n).Some? then Ok(NumericOp(h, op, l.n, r.n).value)
    else if l.Str? && r.Str? && op == "==" then Ok(BoolNum(l.s == r.s))
    else if l.Str? && r.Str? && op == "!=" then Ok(BoolNum(l.s != r.s))
    else Err(InvalidOperation(op, l, r))
  }

  predicate AllNumbers(xs: seq<Value>) {
    forall i :: 0 <= i < |xs| ==> xs[i].Num?
  }

  function Total(xs: seq<Value>): Number
    requires AllNumbers(xs)
    decreases |xs|
  {
    if xs == [] then 0 else Total(xs[..|xs| - 1]) + xs[|xs| - 1].n
  }

  /** The sum of squared deviations from `mean`, the numerator of `std`. */
  function Deviations(xs: seq<Value>, mean: Number): Number
    requires AllNumbers(xs)
    decreases |xs|
  {
    if xs == [] then 0
    else
      var d := xs[|xs| - 1].n - mean;
      Deviations(xs[..|xs| - 1], mean) + d * d
  }

  function Largest(xs: seq<Value>): Number
    requires |xs| > 0 && AllNumbers(xs)
    decreases |xs|
  {
    if |xs| == 1 then xs[0].n
    else
      var m := Largest(xs[..|xs| - 1]);
      if xs[|xs| - 1].n > m then xs[|xs| - 1].n else m
  }

  function Smallest(xs: seq<Value>): Number
    requires |xs| > 0 && AllNumbers(xs)
    decreases |xs|
  {
    if |xs| == 1 then xs[0].n
    else
      var m := Smallest(xs[..|xs| - 1]);
      if xs[|xs| - 1].n < m then xs[|xs| - 1].n else m
  }

  /** The size `len` reports: characters, elements or keys. */
  function Length(v: Value): Option<nat> {
    match v
    case Str(s) => Some(|s|)
    case Arr(xs) => Some(|xs|)
    case MapVal(es) => Some(|es|)
    case _ => None
  }

  /** The statistics builtins on an array argument; None when `name` is not
      one of them. */
  function Statistic(h: Host, name: string, xs: seq<Value>): Option<Result<Value, RuntimeError>> {
    if name != "mean" && name != "std" && name != "max" && name != "min" && name != "sum" then None
    else if name == "mean" && xs == [] then Some(Ok(Num(0)))
    else if name == "std" && |xs| <= 1 then Some(Ok(Num(0)))
    else if (name == "max" || name == "min") && xs == [] then Some(Ok(Num(0)))
    else if !AllNumbers(xs) then Some(Err(NonNumericArray(name)))
    else if name == "mean" then Some(Ok(Num(h.divide(Total(xs), |xs|))))
    else if name == "std" then
      var mean := h.divide(Total(xs), |xs|);
      Some(Ok(Num(h.sqrt(h.divide(Deviations(xs, mean), |xs| - 1)))))
    else if name == "max" then Some(Ok(Num(Largest(xs))))
    else if name == "min" then Some(Ok(Num(Smallest(xs))))
    else Some(Ok(Num(Total(xs))))
  }

  /** `call_builtin_function`: the cases in source order, each guarded by the
      name, the argument count and the argument types it accepts. */
  function Builtin(h: Host, name: string, args: seq<Value>): Result<Value, RuntimeError> {
    var one := |args| == 1;
    if name == "sqrt" && one && args[0].Num? then Ok(Num(h.sqrt(args[0].n)))
    else if name == "pow" && |args| == 2 && args[0].Num? && args[1].Num? then Ok(Num(h.power(args[0].n, args[1].n)))
    else if name == "log" && one && args[0].Num? then Ok(Num(h.log(args[0].n)))
    else if name == "exp" && one && args[0].Num? then Ok(Num(h.exp(args[0].n)))
    else if name == "abs" && one && args[0].Num? then Ok(Num(if args[0].n < 0 then -args[0].n else args[0].n))
    else if name == "len" && one && Length(args[0]).Some? then Ok(Num(Length(args[0]).value))
    else if one && args[0].Arr? && Statistic(h, name, args[0].elems).Some? then Statistic(h, name, args[0].elems).value
    else if name == "str" && one then Ok(Str(ToString(h, args[0])))
    else if name == "num" && one && args[0].Str? then
      var n := h.stod(args[0].s);
      if n.None? then Err(CannotConvert(args[0].s)) else Ok(Num(n.value))
    else Err(UnknownFunction(name))
  }

  // ---------------------------------------------------------------------
  // Expressions and statements. Fuel is spent by each evaluation, each
  // execution and each loop iteration; helpers at the same fuel descend on
  // the second component.
  // ---------------------------------------------------------------------

  /** `evaluate_expression`. */
  function Eval(h: Host, m: Fallback, st: State, e: Expr, fuel: nat): (r: Run<Value>)
    ensures Keeps(m, st, r)
    ensures !r.status.OutOfFuel? ==> r.st.ret == st.ret
    decreases fuel, 0, 0
  {
    if fuel == 0 then Run(OutOfFuel, st)
    else
      match e
      case NumberLiteral(n) => Run(Normal(Num(n)), st)
      case StringLiteral(s) => Run(Normal(Str(s)), st)
      case Identifier(name) =>
        var v := Lookup(st, name);
        Run(if v.Some? then Normal(v.value) else Thrown(UndefinedVariable(name)), st)
      case ArrayLiteral(elems) => EvalArray(h, m, st, elems, fuel - 1)
      case MapLiteral(pairs) => EvalMap(h, m, st, pairs, 0, [], fuel - 1)
      case ArrayAccess(target, index) => EvalIndex(h, m, st, target, index, fuel - 1)
      case MapAccess(target, key) => EvalKey(h, m, st, target, key, fuel - 1)
      case FunctionCall(callee, args) => EvalCall(h, m, st, callee, args, fuel - 1)
      case BinaryOperation(left, op, right) => EvalBinary(h, m, st, left, op, right, fuel - 1)
  }

  /** What every step keeps: output is only appended to, the scope stack
      never shrinks below its depth at the start, `in_function` is as it was
      unless fuel ran out, and in the corrected reading a step that ends
      normally leaves the stack at exactly its depth at the start. */
  predicate Keeps<T>(m: Fallback, st: State, r: Run<T>) {
    && st.out <= r.st.out
    && |r.st.locals| >= |st.locals|
    && (!r.status.OutOfFuel? ==> r.st.inFunction == st.inFunction)
    && (m == CatchLookup && r.status.Normal? ==> |r.st.locals| == |st.locals|)
  }

  /** The loop that evaluates the elements of an array literal or the
      arguments of a call, left to right, from index `i`. */
  function EvalList(h: Host, m: Fallback, st: State, es: seq<Expr>, i: nat, acc: seq<Value>, fuel: nat): (r: Run<seq<Value>>)
    requires i <= |es|
    ensures Keeps(m, st, r)
    ensures !r.status.OutOfFuel? ==> r.st.ret == st.ret
    ensures r.status.Normal? ==> |r.status.value| == |acc| + |es| - i
    decreases fuel, 1, |es| - i
  {
    if i == |es| then Run(Normal(acc), st)
    else
      var v := Eval(h, m, st, es[i], fuel);
      if !v.status.Normal? then v.Abrupt()
      else EvalList(h, m, v.st, es, i + 1, acc + [v.status.value], fuel)
  }

  function EvalArray(h: Host, m: Fallback, st: State, elems: seq<Expr>, fuel: nat): (r: Run<Value>)
    ensures Keeps(m, st, r)
    ensures !r.status.OutOfFuel? ==> r.st.ret == st.ret
    decreases fuel, 2, 0
  {
    var vs := EvalList(h, m, st, elems, 0, [], fuel);
    if !vs.status.Normal? then vs.Abrupt()
    else Run(Normal(Arr(vs.status.value)), vs.st)
  }

  /** The loop of a map literal: each value is evaluated and stored under its
      key; a repeated key keeps its first place and takes the later value. */
  function EvalMap(h: Host, m: Fallback, st: State, pairs: seq<Pair>, i: nat, acc: seq<Entry>, fuel: nat): (r: Run<Value>)
    requires i <= |pairs|
    ensures Keeps(m, st, r)
    ensures !r.status.OutOfFuel? ==> r.st.ret == st.ret
    decreases fuel, 1, |pairs| - i
  {
    if i == |pairs| then Run(Normal(MapVal(acc)), st)
    else
      var v := Eval(h, m, st, pairs[i].value, fuel);
      if !v.status.Normal? then v.Abrupt()
      else EvalMap(h, m, v.st, pairs, i + 1, Put(acc, pairs[i].key, v.status.value), fuel)
  }

  /** `a[i]`: an array and an in-range number index. */
  function EvalIndex(h: Host, m: Fallback, st: State, target: Expr, index: Expr, fuel: nat): (r: Run<Value>)
    ensures Keeps(m, st, r)
    ensures !r.status.OutOfFuel? ==> r.st.ret == st.ret
    decreases fuel, 1, 0
  {
    var a := Eval(h, m, st, target, fuel);
    if !a.status.Normal? then a.Abrupt()
    else
      var i := Eval(h, m, a.st, index, fuel);
      if !i.status.Normal? then i.Abrupt()
      else Finish(Element(a.status.value, i.status.value), i.st)
  }

  /** The checks of `a[i]` once both sides are evaluated. */
  function Element(a: Value, i: Value): Result<Value, RuntimeError> {
    if !a.Arr? || !i.Num? then Err(InvalidArrayAccess)
    else if i.n < 0 || i.n >= |a.elems| then Err(IndexOutOfBounds)
    else Ok(a.elems[i.n])
  }

  /** The checks of `m["k"]` once the map is evaluated. */
  function KeyValue(t: Value, key: string): Result<Value, RuntimeError> {
    if !t.MapVal? then Err(InvalidMapAccess)
    else
      var v := Find(t.entries, key);
      if v.Some? then Ok(v.value) else Err(KeyNotFound(key))
  }

  /** A step that ends with a computed result and leaves the state `st`. */
  function Finish(v: Result<Value, RuntimeError>, st: State): Run<Value> {
    Run(if v.Ok? then Normal(v.value) else Thrown(v.error), st)
  }

  /** `m["k"]`: a map that holds the key. */
  function EvalKey(h: Host, m: Fallback, st: State, target: Expr, key: string, fuel: nat): (r: Run<Value>)
    ensures Keeps(m, st, r)
    ensures !r.status.OutOfFuel? ==> r.st.ret == st.ret
    decreases fuel, 1, 0
  {
    var t := Eval(h, m, st, target, fuel);
    if !t.status.Normal? then t.Abrupt()
    else Finish(KeyValue(t.status.value, key), t.st)
  }

  function EvalBinary(h: Host, m: Fallback, st: State, left: Expr, op: string, right: Expr, fuel: nat): (r: Run<Value>)
    ensures Keeps(m, st, r)
    ensures !r.status.OutOfFuel? ==> r.st.ret == st.ret
    decreases fuel, 1, 0
  {
    var l := Eval(h, m, st, left, fuel);
    if !l.status.Normal? then l.Abrupt()
    else
      var rv := Eval(h, m, l.st, right, fuel);
      if !rv.status.Normal? then rv.Abrupt()
      else Finish(ApplyOp(h, op, l.status.value, rv.status.value), rv.st)
  }

  /** A call: the arguments left to right, then the variable of that name if
      it holds a function, else the builtins. Under `CatchAll` a failure of
      the user function (a wrong argument count or an error in its body) also
      falls back to the builtins, in the state the failure left. */
  function EvalCall(h: Host, m: Fallback, st: State, callee: string, args: seq<Expr>, fuel: nat): (r: Run<Value>)
    ensures Keeps(m, st, r)
    ensures !r.status.OutOfFuel? ==> r.st.ret == st.ret
    decreases fuel, 2, 0
  {
    var vs := EvalList(h, m, st, args, 0, [], fuel);
    if !vs.status.Normal? then vs.Abrupt()
    else
      var f := Lookup(vs.st, callee);
      if f.Some? && f.value.Func? then
        var c := CallUser(h, m, vs.st, f.value.decl, vs.status.value, fuel);
        if m == CatchAll && c.status.Thrown? then Finish(Builtin(h, callee, vs.status.value), c.st) else c
      else Finish(Builtin(h, callee, vs.status.value), vs.st)
  }

  /** `call_user_function`: check the argument count, push the parameter
      scope, run the body block with `in_function` set and no pending return,
      then restore the flag and the pending return and pop one scope, also
      when the body throws. Without a `return` the call yields 0. */
  function CallUser(h: Host, m: Fallback, st: State, decl: FunctionDecl, args: seq<Value>, fuel: nat): (r: Run<Value>)
    ensures Keeps(m, st, r)
    ensures !r.status.OutOfFuel? ==> r.st.ret == st.ret
    decreases fuel, 1, 0
  {
    if |args| != |decl.params| then Run(Thrown(ArityMismatch(decl.name, |decl.params|, |args|)), st)
    else
      var entry := st.(locals := st.locals + [ParamScope(decl.params, args)], inFunction := true, ret := None);
      var b := Exec(h, m, entry, Block(decl.body), fuel);
      var exit := Pop(b.st).(inFunction := st.inFunction, ret := st.ret);
      match b.status
      case OutOfFuel => Run(OutOfFuel, b.st)
      case Thrown(e) => Run(Thrown(e), exit)
      case Normal(_) => Run(Normal(if b.st.ret.Some? then b.st.ret.value else Num(0)), exit)
  }

  /** The statement contains no `return` outside the bodies of the functions
      it declares. */
  predicate NoReturn(s: Stmt) {
    match s
    case Return(_) => false
    case Block(stmts) => forall k :: 0 <= k < |stmts| ==> NoReturn(stmts[k])
    case If(_, thenBranch, elseBranch) => NoReturn(thenBranch) && (elseBranch.None? || NoReturn(elseBranch.value))
    case While(_, body) => NoReturn(body)
    case For(init, _, update, body) => (init.None? || NoReturn(init.value)) && (update.None? || NoReturn(update.value)) && NoReturn(body)
    case _ => true
  }

  /** A function has returned: statements are skipped until the call ends. */
  predicate Returning(st: State) {
    st.ret.Some? && st.inFunction
  }

  /** `execute_statement`. */
  function Exec(h: Host, m: Fallback, st: State, s: Stmt, fuel: nat): (r: Run<()>)
    ensures Keeps(m, st, r)
    decreases fuel, 0, 0
  {
    if fuel == 0 then Run(OutOfFuel, st)
    else if Returning(st) then Run(Normal(()), st)
    else
      match s
      case VariableDeclaration(name, init) => ExecDeclare(h, m, st, name, init, fuel - 1)
      case Assignment(target, value) => ExecAssign(h, m, st, target, value, fuel - 1)
      case Print(e) => ExecPrint(h, m, st, e, fuel - 1)
      case Block(stmts) => ExecBlock(h, m, st, stmts, fuel - 1)
      case If(cond, thenBranch, elseBranch) => ExecIf(h, m, st, cond, thenBranch, elseBranch, fuel - 1)
      case While(cond, body) => ExecWhile(h, m, st, cond, body, fuel - 1)
      case For(init, cond, update, body) => ExecFor(h, m, st, init, cond, update, body, fuel - 1)
      case FunctionDeclaration(decl) => Run(Normal(()), st.(globals := Put(st.globals, decl.name, Func(decl))))
      case Return(result) => ExecReturn(h, m, st, result, fuel - 1)
  }

  function ExecDeclare(h: Host, m: Fallback, st: State, name: string, init: Expr, fuel: nat): (r: Run<()>)
    ensures Keeps(m, st, r)
    ensures !r.status.OutOfFuel? ==> r.st.ret == st.ret
    decreases fuel, 1, 0
  {
    var v := Eval(h, m, st, init, fuel);
    if !v.status.Normal? then v.Abrupt()
    else Run(Normal(()), Bind(v.st, name, v.status.value))
  }

  /** An assignment first checks that the name is bound somewhere. */
  function ExecAssign(h: Host, m: Fallback, st: State, target: string, value: Expr, fuel: nat): (r: Run<()>)
    ensures Keeps(m, st, r)
    ensures !r.status.OutOfFuel? ==> r.st.ret == st.ret
    decreases fuel, 1, 0
  {
    if Lookup(st, target).None? then Run(Thrown(UndefinedVariable(target)), st)
    else
      var v := Eval(h, m, st, value, fuel);
      if !v.status.Normal? then v.Abrupt()
      else Run(Normal(()), Bind(v.st, target, v.status.value))
  }

  function ExecPrint(h: Host, m: Fallback, st: State, e: Expr, fuel: nat): (r: Run<()>)
    ensures Keeps(m, st, r)
    ensures !r.status.OutOfFuel? ==> r.st.ret == st.ret
    decreases fuel, 1, 0
  {
    var v := Eval(h, m, st, e, fuel);
    if !v.status.Normal? then v.Abrupt()
    else Run(Normal(()), v.st.(out := v.st.out + [ToString(h, v.status.value)]))
  }

  /** A block pushes a scope, runs its statements and pops the scope; an
      exception leaves the scope pushed. */
  function ExecBlock(h: Host, m: Fallback, st: State, stmts: seq<Stmt>, fuel: nat): (r: Run<()>)
    ensures Keeps(m, st, r)
    decreases fuel, 2, 0
  {
    var inner := st.(locals := st.locals + [[]]);
    var b := ExecSeq(h, m, inner, stmts, 0, fuel);
    if !b.status.Normal? then b
    else Run(Normal(()), Pop(b.st))
  }

  /** The statement loop of a block, from index `i`: it stops early once a
      function has returned. */
  function ExecSeq(h: Host, m: Fallback, st: State, stmts: seq<Stmt>, i: nat, fuel: nat): (r: Run<()>)
    requires i <= |stmts|
    ensures Keeps(m, st, r)
    decreases fuel, 1, |stmts| - i
  {
    if i == |stmts| then Run(Normal(()), st)
    else
      var s := Exec(h, m, st, stmts[i], fuel);
      if !s.status.Normal? || Returning(s.st) then s
      else ExecSeq(h, m, s.st, stmts, i + 1, fuel)
  }

  function ExecIf(h: Host, m: Fallback, st: State, cond: Expr, thenBranch: Stmt, elseBranch: Option<Stmt>, fuel: nat): (r: Run<()>)
    ensures Keeps(m, st, r)
    decreases fuel, 1, 0
  {
    var c := Eval(h, m, st, cond, fuel);
    if !c.status.Normal? then c.Abrupt()
    else if IsTruthy(c.status.value) then Exec(h, m, c.st, thenBranch, fuel)
    else if elseBranch.Some? then Exec(h, m, c.st, elseBranch.value, fuel)
    else Run(Normal(()), c.st)
  }

  /** The `while` loop: one iteration per unit of fuel. */
  function ExecWhile(h: Host, m: Fallback, st: State, cond: Expr, body: Stmt, fuel: nat): (r: Run<()>)
    ensures Keeps(m, st, r)
    decreases fuel, 1, 0
  {
    if fuel == 0 then Run(OutOfFuel, st)
    else
      var c := Eval(h, m, st, cond, fuel);
      if !c.status.Normal? then c.Abrupt()
      else if !IsTruthy(c.status.value) then Run(Normal(()), c.st)
      else
        var b := Exec(h, m, c.st, body, fuel);
        if !b.status.Normal? || Returning(b.st) then b
        else ExecWhile(h, m, b.st, cond, body, fuel - 1)
  }

  /** A `for` loop pushes a scope for its init clause, loops, and pops it. */
  function ExecFor(h: Host, m: Fallback, st: State, init: Option<Stmt>, cond: Option<Expr>, update: Option<Stmt>, body: Stmt, fuel: nat): (r: Run<()>)
    ensures Keeps(m, st, r)
    decreases fuel, 2, 0
  {
    var inner := st.(locals := st.locals + [[]]);
    var i := if init.Some? then Exec(h, m, inner, init.value, fuel) else Run(Normal(()), inner);
    if !i.status.Normal? then i
    else
      var l := ForLoop(h, m, i.st, cond, update, body, fuel);
      if !l.status.Normal? then l
      else Run(Normal(()), Pop(l.st))
  }

  /** The loop of a `for`: an absent condition is always true. */
  function ForLoop(h: Host, m: Fallback, st: State, cond: Option<Expr>, update: Option<Stmt>, body: Stmt, fuel: nat): (r: Run<()>)
    ensures Keeps(m, st, r)
    decreases fuel, 1, 0
  {
    if fuel == 0 then Run(OutOfFuel, st)
    else
      var c := if cond.Some? then Eval(h, m, st, cond.value, fuel) else Run(Normal(Num(1)), st);
      if !c.status.Normal? then c.Abrupt()
      else if !IsTruthy(c.status.value) then Run(Normal(()), c.st)
      else
        var b := Exec(h, m, c.st, body, fuel);
        if !b.status.Normal? || Returning(b.st) then b
        else
          var u := if update.Some? then Exec(h, m, b.st, update.value, fuel) else b;
          if !u.status.Normal? then u
          else ForLoop(h, m, u.st, cond, update, body, fuel - 1)
  }

  function ExecReturn(h: Host, m: Fallback, st: State, result: Option<Expr>, fuel: nat): (r: Run<()>)
    ensures Keeps(m, st, r)
    decreases fuel, 1, 0
  {
    if !st.inFunction then Run(Thrown(ReturnOutsideFunction), st)
    else if result.None? then Run(Normal(()), st.(ret := Some(Num(0))))
    else
      var v := Eval(h, m, st, result.value, fuel);
      if !v.status.Normal? then v.Abrupt()
      else Run(Normal(()), v.st.(ret := Some(v.status.value)))
  }

  /** `execute`: the top-level statements in order, from index `i`. */
  function ExecProgram(h: Host, m: Fallback, st: State, stmts: seq<Stmt>, i: nat, fuel: nat): (r: Run<()>)
    requires i <= |stmts|
    ensures Keeps(m, st, r)
    decreases |stmts| - i
  {
    if i == |stmts| then Run(Normal(()), st)
    else
      var s := Exec(h, m, st, stmts[i], fuel);
      if !s.status.Normal? then s
      else ExecProgram(h, m, s.st, stmts, i + 1, fuel)
  }

  /** Running a parsed program from the initial state. */
  function RunProgram(h: Host, m: Fallback, p: Program, fuel: nat): Run<()> {
    ExecProgram(h, m, Initial, p.stmts, 0, fuel)
  }
}
