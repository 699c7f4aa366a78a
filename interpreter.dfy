/** The tree-walking interpreter of compiler.cpp:986-1406 as a class whose
    fields are the interpreter's state. Every method is proved to leave the
    state, and to return the status, that module Semantics prescribes. */
module Interpreting {
  import opened Wrappers
  import opened Ast
  import opened Values
  import opened Semantics

  class Interpreter {
    /** The floating-point and formatting operations of the host. */
    const host: Host
    /** Which exceptions a call expression swallows before it tries the
        builtins. */
    const mode: Fallback
    var globals: Scope
    var locals: seq<Scope>
    var inFunction: bool
    var ret: Option<Value>
    /** The lines written to standard output. */
    var out: seq<string>

    function State(): State
      reads this
    {
      Semantics.State(globals, locals, inFunction, ret, out)
    }

    constructor(h: Host, m: Fallback)
      ensures host == h && mode == m && State() == Initial
    {
      host := h;
      mode := m;
      globals := [];
      locals := [];
      inFunction := false;
      ret := None;
      out := [];
    }

    /** `get_variable`: the innermost scope that binds the name wins. */
    method GetVariable(name: string) returns (r: Result<Value, RuntimeError>)
      ensures r.Ok? <==> Lookup(State(), name).Some?
      ensures r.Ok? ==> r.value == Lookup(State(), name).value
      ensures r.Err? ==> r.error == UndefinedVariable(name)
    {
      var i := |locals|;
      assert locals[..i] == locals;
      while i > 0
        invariant 0 <= i <= |locals|
        invariant LookupIn(locals, name) == LookupIn(locals[..i], name)
      {
        assert locals[..i][..i - 1] == locals[..i - 1];
        var found := Find(locals[i - 1], name);
        if found.Some? {
          return Ok(found.value);
        }
        i := i - 1;
      }
      var found := Find(globals, name);
      if found.Some? {
        return Ok(found.value);
      }
      return Err(UndefinedVariable(name));
    }

    /** `set_variable`. */
    method SetVariable(name: string, v: Value)
      modifies this
      ensures State() == Bind(old(State()), name, v)
    {
      if locals == [] {
        globals := Put(globals, name, v);
      } else {
        var n := |locals|;
        locals := locals[..n - 1] + [Put(locals[n - 1], name, v)];
      }
    }

    // -------------------------------------------------------------------
    // Builtins.
    // -------------------------------------------------------------------

    /** The loop of `sum`, and the first loop of `mean` and `std`: the total,
        or the error at the first element that is not a number. */
    static method SumNumbers(xs: seq<Value>, builtin: string) returns (r: Result<Number, RuntimeError>)
      ensures r.Ok? <==> AllNumbers(xs)
      ensures r.Ok? ==> r.value == Total(xs)
      ensures r.Err? ==> r.error == NonNumericArray(builtin)
    {
      var total := 0;
      var i := 0;
      while i < |xs|
        invariant 0 <= i <= |xs|
        invariant AllNumbers(xs[..i]) && total == Total(xs[..i])
      {
        if !xs[i].Num? {
          return Err(NonNumericArray(builtin));
        }
        assert xs[..i + 1][..i] == xs[..i];
        total := total + xs[i].n;
        i := i + 1;
      }
      assert xs[..i] == xs;
      return Ok(total);
    }

    /** The second loop of `std`. */
    static method SquaredDeviations(xs: seq<Value>, mean: Number) returns (variance: Number)
      requires AllNumbers(xs)
      ensures variance == Deviations(xs, mean)
    {
      variance := 0;
      var i := 0;
      while i < |xs|
        invariant 0 <= i <= |xs|
        invariant variance == Deviations(xs[..i], mean)
      {
        assert xs[..i + 1][..i] == xs[..i];
        variance := variance + (xs[i].n - mean) * (xs[i].n - mean);
        i := i + 1;
      }
      assert xs[..i] == xs;
    }

    /** The loops of `max` (when `largest`) and `min`: they start from the
        first element and check every element's type as they go. */
    static method Extreme(xs: seq<Value>, largest: bool, builtin: string) returns (r: Result<Number, RuntimeError>)
      requires |xs| > 0
      ensures r.Ok? <==> AllNumbers(xs)
      ensures r.Ok? ==> r.value == if largest then Largest(xs) else Smallest(xs)
      ensures r.Err? ==> r.error == NonNumericArray(builtin)
    {
      var best := if xs[0].Num? then xs[0].n else 0;
      var i := 0;
      while i < |xs|
        invariant 0 <= i <= |xs|
        invariant AllNumbers(xs[..i])
        invariant i == 0 ==> !xs[0].Num? || best == xs[0].n
        invariant i > 0 ==> best == if largest then Largest(xs[..i]) else Smallest(xs[..i])
      {
        if !xs[i].Num? {
          return Err(NonNumericArray(builtin));
        }
        assert xs[..i + 1][..i] == xs[..i];
        if largest && xs[i].n > best {
          best := xs[i].n;
        } else if !largest && xs[i].n < best {
          best := xs[i].n;
        }
        i := i + 1;
      }
      assert xs[..i] == xs;
      return Ok(best);
    }

    /** The array statistics `mean`, `std`, `max`, `min` and `sum`. */
    method Statistics(name: string, xs: seq<Value>) returns (r: Result<Value, RuntimeError>)
      requires name == "mean" || name == "std" || name == "max" || name == "min" || name == "sum"
      ensures Statistic(host, name, xs) == Some(r)
    {
      if name == "mean" {
        if xs == [] {
          return Ok(Num(0));
        }
        var total :- SumNumbers(xs, name);
        return Ok(Num(host.divide(total, |xs|)));
      } else if name == "std" {
        if |xs| <= 1 {
          return Ok(Num(0));
        }
        var total :- SumNumbers(xs, name);
        var mean := host.divide(total, |xs|);
        var variance := SquaredDeviations(xs, mean);
        return Ok(Num(host.sqrt(host.divide(variance, |xs| - 1))));
      } else if name == "max" || name == "min" {
        if xs == [] {
          return Ok(Num(0));
        }
        var best :- Extreme(xs, name == "max", name);
        return Ok(Num(best));
      } else {
        var total :- SumNumbers(xs, name);
        return Ok(Num(total));
      }
    }

    /** `call_builtin_function`. */
    method CallBuiltinFunction(name: string, args: seq<Value>) returns (r: Result<Value, RuntimeError>)
      ensures r == Builtin(host, name, args)
    {
      var one := |args| == 1;
      if name == "sqrt" && one && args[0].Num? {
        return Ok(Num(host.sqrt(args[0].n)));
      } else if name == "pow" && |args| == 2 && args[0].Num? && args[1].Num? {
        return Ok(Num(host.power(args[0].n, args[1].n)));
      } else if name == "log" && one && args[0].Num? {
        return Ok(Num(host.log(args[0].n)));
      } else if name == "exp" && one && args[0].Num? {
        return Ok(Num(host.exp(args[0].n)));
      } else if name == "abs" && one && args[0].Num? {
        return Ok(Num(if args[0].n < 0 then -args[0].n else args[0].n));
      } else if name == "len" && one && Length(args[0]).Some? {
        return Ok(Num(Length(args[0]).value));
      } else if one && args[0].Arr? && (name == "mean" || name == "std" || name == "max" || name == "min" || name == "sum") {
        r := Statistics(name, args[0].elems);
      } else if name == "str" && one {
        return Ok(Str(ToString(host, args[0])));
      } else if name == "num" && one && args[0].Str? {
        var n := host.stod(args[0].s);
        if n.None? {
          return Err(CannotConvert(args[0].s));
        }
        return Ok(Num(n.value));
      } else {
        return Err(UnknownFunction(name));
      }
    }

    // -------------------------------------------------------------------
    // Expressions.
    // -------------------------------------------------------------------

    /** `evaluate_expression`. */
    method EvaluateExpression(e: Expr, fuel: nat) returns (r: Status<Value>)
      modifies this
      ensures Run(r, State()) == Eval(host, mode, old(State()), e, fuel)
      decreases fuel, 0, 0
    {
      if fuel == 0 {
        return OutOfFuel;
      }
      match e
      case NumberLiteral(n) =>
        r := Normal(Num(n));
      case StringLiteral(s) =>
        r := Normal(Str(s));
      case Identifier(name) =>
        var v := GetVariable(name);
        r := if v.Ok? then Normal(v.value) else Thrown(v.error);
      case ArrayLiteral(elems) =>
        var vs :- EvaluateList(elems, fuel - 1);
        r := Normal(Arr(vs));
      case MapLiteral(pairs) =>
        r := EvaluateMap(pairs, fuel - 1);
      case ArrayAccess(target, index) =>
        r := EvaluateIndex(target, index, fuel - 1);
      case MapAccess(target, key) =>
        r := EvaluateKey(target, key, fuel - 1);
      case FunctionCall(callee, args) =>
        r := EvaluateCall(callee, args, fuel - 1);
      case BinaryOperation(left, op, right) =>
        r := EvaluateBinary(left, op, right, fuel - 1);
    }

    /** The loop over the elements of an array literal or the arguments of
        a call. */
    method EvaluateList(es: seq<Expr>, fuel: nat) returns (r: Status<seq<Value>>)
      modifies this
      ensures Run(r, State()) == EvalList(host, mode, old(State()), es, 0, [], fuel)
      decreases fuel, 1, 0
    {
      ghost var goal := EvalList(host, mode, State(), es, 0, [], fuel);
      var values := [];
      var i := 0;
      while i < |es|
        invariant 0 <= i <= |es|
        invariant EvalList(host, mode, State(), es, i, values, fuel) == goal
      {
        var v :- EvaluateExpression(es[i], fuel);
        values := values + [v];
        i := i + 1;
      }
      r := Normal(values);
    }

    /** The loop of a map literal. */
    method EvaluateMap(pairs: seq<Pair>, fuel: nat) returns (r: Status<Value>)
      modifies this
      ensures Run(r, State()) == EvalMap(host, mode, old(State()), pairs, 0, [], fuel)
      decreases fuel, 1, 0
    {
      ghost var goal := EvalMap(host, mode, State(), pairs, 0, [], fuel);
      var entries := [];
      var i := 0;
      while i < |pairs|
        invariant 0 <= i <= |pairs|
        invariant EvalMap(host, mode, State(), pairs, i, entries, fuel) == goal
      {
        var v :- EvaluateExpression(pairs[i].value, fuel);
        entries := Put(entries, pairs[i].key, v);
        i := i + 1;
      }
      r := Normal(MapVal(entries));
    }

    method EvaluateIndex(target: Expr, index: Expr, fuel: nat) returns (r: Status<Value>)
      modifies this
      ensures Run(r, State()) == EvalIndex(host, mode, old(State()), target, index, fuel)
      decreases fuel, 1, 0
    {
      var a :- EvaluateExpression(target, fuel);
      var i :- EvaluateExpression(index, fuel);
      var v := Element(a, i);
      r := if v.Ok? then Normal(v.value) else Thrown(v.error);
    }

    method EvaluateKey(target: Expr, key: string, fuel: nat) returns (r: Status<Value>)
      modifies this
      ensures Run(r, State()) == EvalKey(host, mode, old(State()), target, key, fuel)
      decreases fuel, 1, 0
    {
      var t :- EvaluateExpression(target, fuel);
      var v := KeyValue(t, key);
      r := if v.Ok? then Normal(v.value) else Thrown(v.error);
    }

    method EvaluateBinary(left: Expr, op: string, right: Expr, fuel: nat) returns (r: Status<Value>)
      modifies this
      ensures Run(r, State()) == EvalBinary(host, mode, old(State()), left, op, right, fuel)
      decreases fuel, 1, 0
    {
      var l :- EvaluateExpression(left, fuel);
      var rv :- EvaluateExpression(right, fuel);
      var v := ApplyOp(host, op, l, rv);
      r := if v.Ok? then Normal(v.value) else Thrown(v.error);
    }

    /** A call expression: a variable holding a function, else a builtin. */
    method EvaluateCall(callee: string, args: seq<Expr>, fuel: nat) returns (r: Status<Value>)
      modifies this
      ensures Run(r, State()) == EvalCall(host, mode, old(State()), callee, args, fuel)
      decreases fuel, 2, 0
    {
      var vs :- EvaluateList(args, fuel);
      var f := GetVariable(callee);
      if f.Ok? && f.value.Func? {
        r := CallUserFunction(f.value.decl, vs, fuel);
        if !(mode == CatchAll && r.Thrown?) {
          return;
        }
      }
      var b := CallBuiltinFunction(callee, vs);
      r := if b.Ok? then Normal(b.value) else Thrown(b.error);
    }

    /** `call_user_function`. */
    method CallUserFunction(decl: FunctionDecl, args: seq<Value>, fuel: nat) returns (r: Status<Value>)
      modifies this
      ensures Run(r, State()) == CallUser(host, mode, old(State()), decl, args, fuel)
      decreases fuel, 1, 0
    {
      if |args| != |decl.params| {
        return Thrown(ArityMismatch(decl.name, |decl.params|, |args|));
      }
      PushParameters(decl.params, args);
      var previousIn, previousRet := inFunction, ret;
      inFunction, ret := true, None;
      var b := ExecuteStatement(Block(decl.body), fuel);
      if b.OutOfFuel? {
        return OutOfFuel;
      }
      var result := if ret.Some? then ret.value else Num(0);
      inFunction, ret := previousIn, previousRet;
      locals := locals[..|locals| - 1];
      r := if b.Thrown? then Thrown(b.error) else Normal(result);
    }

    /** The new scope of a call, with each parameter bound to its argument
        in order. */
    method PushParameters(params: seq<string>, args: seq<Value>)
      requires |params| == |args|
      modifies this
      ensures State() == old(State()).(locals := old(locals) + [ParamScope(params, args)])
    {
      ghost var saved := State();
      locals := locals + [[]];
      var i := 0;
      while i < |args|
        invariant 0 <= i <= |args|
        invariant State() == saved.(locals := saved.locals + [ParamScope(params[..i], args[..i])])
      {
        assert params[..i + 1][..i] == params[..i];
        assert args[..i + 1][..i] == args[..i];
        locals := locals[..|locals| - 1] + [Put(locals[|locals| - 1], params[i], args[i])];
        i := i + 1;
      }
      assert params[..i] == params && args[..i] == args;
    }

    // -------------------------------------------------------------------
    // Statements.
    // -------------------------------------------------------------------

    /** `execute_statement`. */
    method ExecuteStatement(s: Stmt, fuel: nat) returns (r: Status<()>)
      modifies this
      ensures Run(r, State()) == Exec(host, mode, old(State()), s, fuel)
      decreases fuel, 0, 0
    {
      if fuel == 0 {
        return OutOfFuel;
      }
      if ret.Some? && inFunction {
        return Normal(());
      }
      match s
      case VariableDeclaration(name, init) =>
        var v :- EvaluateExpression(init, fuel - 1);
        SetVariable(name, v);
        r := Normal(());
      case Assignment(target, value) =>
        r := ExecuteAssignment(target, value, fuel - 1);
      case Print(e) =>
        var v :- EvaluateExpression(e, fuel - 1);
        out := out + [ToString(host, v)];
        r := Normal(());
      case Block(stmts) =>
        r := ExecuteBlock(stmts, fuel - 1);
      case If(cond, thenBranch, elseBranch) =>
        r := ExecuteIf(cond, thenBranch, elseBranch, fuel - 1);
      case While(cond, body) =>
        r := ExecuteWhile(cond, body, fuel - 1);
      case For(init, cond, update, body) =>
        r := ExecuteFor(init, cond, update, body, fuel - 1);
      case FunctionDeclaration(decl) =>
        globals := Put(globals, decl.name, Func(decl));
        r := Normal(());
      case Return(result) =>
        r := ExecuteReturn(result, fuel - 1);
    }

    method ExecuteAssignment(target: string, value: Expr, fuel: nat) returns (r: Status<()>)
      modifies this
      ensures Run(r, State()) == ExecAssign(host, mode, old(State()), target, value, fuel)
      decreases fuel, 1, 0
    {
      var found := GetVariable(target);
      if found.Err? {
        return Thrown(found.error);
      }
      var v :- EvaluateExpression(value, fuel);
      SetVariable(target, v);
      r := Normal(());
    }

    /** A block: push a scope, run the statements, pop the scope. */
    method ExecuteBlock(stmts: seq<Stmt>, fuel: nat) returns (r: Status<()>)
      modifies this
      ensures Run(r, State()) == ExecBlock(host, mode, old(State()), stmts, fuel)
      decreases fuel, 2, 0
    {
      locals := locals + [[]];
      ghost var goal := ExecSeq(host, mode, State(), stmts, 0, fuel);
      var i := 0;
      while i < |stmts|
        invariant 0 <= i <= |stmts|
        invariant ExecSeq(host, mode, State(), stmts, i, fuel) == goal
      {
        var _ :- ExecuteStatement(stmts[i], fuel);
        if ret.Some? && inFunction {
          break;
        }
        i := i + 1;
      }
      locals := locals[..|locals| - 1];
      r := Normal(());
    }

    method ExecuteIf(cond: Expr, thenBranch: Stmt, elseBranch: Option<Stmt>, fuel: nat) returns (r: Status<()>)
      modifies this
      ensures Run(r, State()) == ExecIf(host, mode, old(State()), cond, thenBranch, elseBranch, fuel)
      decreases fuel, 1, 0
    {
      var c :- EvaluateExpression(cond, fuel);
      if IsTruthy(c) {
        r := ExecuteStatement(thenBranch, fuel);
      } else if elseBranch.Some? {
        r := ExecuteStatement(elseBranch.value, fuel);
      } else {
        r := Normal(());
      }
    }

    method ExecuteWhile(cond: Expr, body: Stmt, fuel: nat) returns (r: Status<()>)
      modifies this
      ensures Run(r, State()) == ExecWhile(host, mode, old(State()), cond, body, fuel)
      decreases fuel, 1, 0
    {
      ghost var goal := ExecWhile(host, mode, State(), cond, body, fuel);
      var f: nat := fuel;
      while true
        invariant f <= fuel
        invariant ExecWhile(host, mode, State(), cond, body, f) == goal
        decreases f
      {
        if f == 0 {
          return OutOfFuel;
        }
        var c :- EvaluateExpression(cond, f);
        if !IsTruthy(c) {
          return Normal(());
        }
        var _ :- ExecuteStatement(body, f);
        if ret.Some? && inFunction {
          return Normal(());
        }
        f := f - 1;
      }
    }

    /** A `for` loop: push a scope, run the init clause, loop, pop. */
    method ExecuteFor(init: Option<Stmt>, cond: Option<Expr>, update: Option<Stmt>, body: Stmt, fuel: nat) returns (r: Status<()>)
      modifies this
      ensures Run(r, State()) == ExecFor(host, mode, old(State()), init, cond, update, body, fuel)
      decreases fuel, 2, 0
    {
      locals := locals + [[]];
      if init.Some? {
        var _ :- ExecuteStatement(init.value, fuel);
      }
      var _ :- ExecuteForLoop(cond, update, body, fuel);
      locals := locals[..|locals| - 1];
      r := Normal(());
    }

    method ExecuteForLoop(cond: Option<Expr>, update: Option<Stmt>, body: Stmt, fuel: nat) returns (r: Status<()>)
      modifies this
      ensures Run(r, State()) == ForLoop(host, mode, old(State()), cond, update, body, fuel)
      decreases fuel, 1, 0
    {
      ghost var goal := ForLoop(host, mode, State(), cond, update, body, fuel);
      var f: nat := fuel;
      while true
        invariant f <= fuel
        invariant ForLoop(host, mode, State(), cond, update, body, f) == goal
        decreases f
      {
        if f == 0 {
          return OutOfFuel;
        }
        if cond.Some? {
          var c :- EvaluateExpression(cond.value, f);
          if !IsTruthy(c) {
            return Normal(());
          }
        }
        var _ :- ExecuteStatement(body, f);
        if ret.Some? && inFunction {
          return Normal(());
        }
        if update.Some? {
          var _ :- ExecuteStatement(update.value, f);
        }
        f := f - 1;
      }
    }

    method ExecuteReturn(result: Option<Expr>, fuel: nat) returns (r: Status<()>)
      modifies this
      ensures Run(r, State()) == ExecReturn(host, mode, old(State()), result, fuel)
      decreases fuel, 1, 0
    {
      if !inFunction {
        return Thrown(ReturnOutsideFunction);
      }
      if result.None? {
        ret := Some(Num(0));
      } else {
        var v :- EvaluateExpression(result.value, fuel);
        ret := Some(v);
      }
      r := Normal(());
    }

    /** `execute`: the program's statements in order. */
    method Execute(p: Program, fuel: nat) returns (r: Status<()>)
      modifies this
      ensures Run(r, State()) == ExecProgram(host, mode, old(State()), p.stmts, 0, fuel)
    {
      ghost var goal := ExecProgram(host, mode, State(), p.stmts, 0, fuel);
      var i := 0;
      while i < |p.stmts|
        invariant 0 <= i <= |p.stmts|
        invariant ExecProgram(host, mode, State(), p.stmts, i, fuel) == goal
      {
        var _ :- ExecuteStatement(p.stmts[i], fuel);
        i := i + 1;
      }
      r := Normal(());
    }
  }
}
