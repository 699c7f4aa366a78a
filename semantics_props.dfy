/** Properties of the interpreter's semantics: where variables are found and
    written, what calls save and restore, how operators and builtins treat
    their operands, and the scope leak of the call fallback. */
module SemanticsProperties {
  import opened Wrappers
  import opened Ast
  import opened Values
  import opened Semantics

  // ---------------------------------------------------------------------
  // Variables.
  // ---------------------------------------------------------------------

  /** The scan over the local scopes finds nothing exactly when no scope binds
      the name, and otherwise finds the binding of the innermost scope that
      does. */
  lemma {:induction false} LookupInInnermost(scopes: seq<Scope>, name: string)
    ensures LookupIn(scopes, name).None? <==> forall k :: 0 <= k < |scopes| ==> Find(scopes[k], name).None?
    ensures LookupIn(scopes, name).Some? ==>
      exists k :: 0 <= k < |scopes| && LookupIn(scopes, name) == Find(scopes[k], name)
        && forall j :: k < j < |scopes| ==> Find(scopes[j], name).None?
    decreases |scopes|
  {
    if scopes != [] {
      var n := |scopes|;
      var outer := scopes[..n - 1];
      LookupInInnermost(outer, name);
      assert forall k :: 0 <= k < n - 1 ==> outer[k] == scopes[k];
      if Find(scopes[n - 1], name).None? && LookupIn(outer, name).Some? {
        var k :| 0 <= k < |outer| && LookupIn(outer, name) == Find(outer[k], name)
          && forall j :: k < j < |outer| ==> Find(outer[j], name).None?;
        assert LookupIn(scopes, name) == Find(scopes[k], name);
      }
    }
  }

  /** `get_variable` reads the globals only when no local scope binds the
      name. */
  lemma GlobalsWhenNoLocal(st: State, name: string)
    requires forall k :: 0 <= k < |st.locals| ==> Find(st.locals[k], name).None?
    ensures Lookup(st, name) == Find(st.globals, name)
  {
    LookupInInnermost(st.locals, name);
  }

  /** A local binding shadows the globals and every outer scope. */
  lemma LocalShadowsGlobal(st: State, name: string, k: nat)
    requires k < |st.locals| && Find(st.locals[k], name).Some?
    requires forall j :: k < j < |st.locals| ==> Find(st.locals[j], name).None?
    ensures Lookup(st, name) == Find(st.locals[k], name)
  {
    LookupInInnermost(st.locals, name);
  }

  /** After `set_variable` the name reads back the new value, and every other
      name reads what it read before. */
  lemma LookupAfterBind(st: State, name: string, v: Value, other: string)
    ensures Lookup(Bind(st, name, v), name) == Some(v)
    ensures other != name ==> Lookup(Bind(st, name, v), other) == Lookup(st, other)
  {
    FindAfterPut(st.globals, name, v, name);
    FindAfterPut(st.globals, name, v, other);
    if st.locals != [] {
      var n := |st.locals|;
      FindAfterPut(st.locals[n - 1], name, v, name);
      FindAfterPut(st.locals[n - 1], name, v, other);
      assert Bind(st, name, v).locals[..n - 1] == st.locals[..n - 1];
    }
  }

  /** `set_variable` writes only the innermost scope: inside a scope the
      globals and the outer scopes are untouched, and nothing but the
      variables changes. */
  lemma BindTouchesInnermostOnly(st: State, name: string, v: Value)
    ensures var b := Bind(st, name, v);
      && |b.locals| == |st.locals|
      && b.inFunction == st.inFunction && b.ret == st.ret && b.out == st.out
      && (st.locals != [] ==> b.globals == st.globals && b.locals[..|st.locals| - 1] == st.locals[..|st.locals| - 1])
  {
    if st.locals != [] {
      assert Bind(st, name, v).locals[..|st.locals| - 1] == st.locals[..|st.locals| - 1];
    }
  }

  /** A function declaration is stored in the globals even inside a block or
      a call, and leaves the scopes alone. */
  lemma DeclarationIsGlobal(h: Host, m: Fallback, st: State, decl: FunctionDecl, fuel: nat)
    requires fuel > 0 && !Returning(st)
    ensures var r := Exec(h, m, st, FunctionDeclaration(decl), fuel);
      && r.status.Normal?
      && Lookup(r.st, decl.name) == (if LookupIn(st.locals, decl.name).Some? then LookupIn(st.locals, decl.name) else Some(Func(decl)))
      && r.st.locals == st.locals
  {
    FindAfterPut(st.globals, decl.name, Func(decl), decl.name);
  }

  /** A function body sees the caller's local variables that its parameters
      do not shadow: scopes are searched dynamically, not lexically. */
  lemma CalleeSeesCallerLocals(st: State, params: seq<string>, args: seq<Value>, name: string)
    requires |params| == |args| && name !in params
    ensures LookupIn(st.locals + [ParamScope(params, args)], name) == LookupIn(st.locals, name)
  {
    ParamScopeFind(params, args, name);
    assert (st.locals + [ParamScope(params, args)])[..|st.locals|] == st.locals;
  }

  /** A parameter scope binds exactly the parameters. */
  lemma {:induction false} ParamScopeFind(params: seq<string>, args: seq<Value>, name: string)
    requires |params| == |args|
    ensures Find(ParamScope(params, args), name).Some? <==> name in params
    decreases |params|
  {
    if params != [] {
      var n := |params|;
      ParamScopeFind(params[..n - 1], args[..n - 1], name);
      FindAfterPut(ParamScope(params[..n - 1], args[..n - 1]), params[n - 1], args[n - 1], name);
      assert params == params[..n - 1] + [params[n - 1]];
    }
  }

  // ---------------------------------------------------------------------
  // Statements and calls.
  // ---------------------------------------------------------------------

  /** Once a function has returned, a statement does nothing. */
  lemma SkippedAfterReturn(h: Host, m: Fallback, st: State, s: Stmt, fuel: nat)
    requires fuel > 0 && Returning(st)
    ensures Exec(h, m, st, s, fuel) == Run(Normal(()), st)
  {
  }

  /** `return` outside a function throws, whatever it returns. */
  lemma ReturnOutsideFunctionFails(h: Host, m: Fallback, st: State, result: Option<Expr>, fuel: nat)
    requires fuel > 0 && !st.inFunction
    ensures Exec(h, m, st, Return(result), fuel) == Run(Thrown(ReturnOutsideFunction), st)
  {
  }

  /** Assigning to a name that is bound nowhere throws before the value is
      evaluated. */
  lemma AssignmentNeedsBinding(h: Host, m: Fallback, st: State, target: string, value: Expr, fuel: nat)
    requires fuel > 0 && !Returning(st) && Lookup(st, target).None?
    ensures Exec(h, m, st, Assignment(target, value), fuel) == Run(Thrown(UndefinedVariable(target)), st)
  {
  }

  /** A call with the wrong number of arguments throws before any scope is
      pushed. */
  lemma ArityChecked(h: Host, m: Fallback, st: State, decl: FunctionDecl, args: seq<Value>, fuel: nat)
    requires |args| != |decl.params|
    ensures CallUser(h, m, st, decl, args, fuel) == Run(Thrown(ArityMismatch(decl.name, |decl.params|, |args|)), st)
  {
  }

  /** At the call expression, a wrong argument count depends on the fallback:
      in the corrected reading the arity error reaches the caller; as written
      the `catch (...)` swallows it and the builtins answer instead. */
  lemma CallArityMismatch(h: Host, m: Fallback, st: State, callee: string, args: seq<Expr>, fuel: nat, decl: FunctionDecl)
    requires EvalList(h, m, st, args, 0, [], fuel).status.Normal?
    requires Lookup(EvalList(h, m, st, args, 0, [], fuel).st, callee) == Some(Func(decl))
    requires |args| != |decl.params|
    ensures var vs := EvalList(h, m, st, args, 0, [], fuel);
      EvalCall(h, m, st, callee, args, fuel)
      == if m == CatchLookup then Run(Thrown(ArityMismatch(decl.name, |decl.params|, |args|)), vs.st)
         else Finish(Builtin(h, callee, vs.status.value), vs.st)
  {
    var vs := EvalList(h, m, st, args, 0, [], fuel);
    ArityChecked(h, m, vs.st, decl, vs.status.value, fuel);
  }

  /** A call restores `in_function` and the pending return of its caller,
      whether the body ends normally or throws. */
  lemma CallRestoresCallerState(h: Host, m: Fallback, st: State, decl: FunctionDecl, args: seq<Value>, fuel: nat)
    ensures var r := CallUser(h, m, st, decl, args, fuel);
      !r.status.OutOfFuel? ==> r.st.inFunction == st.inFunction && r.st.ret == st.ret
  {
  }

  /** A statement that holds no `return` leaves the pending return alone. */
  lemma {:induction false} ExecKeepsReturn(h: Host, m: Fallback, st: State, s: Stmt, fuel: nat)
    requires NoReturn(s)
    ensures var r := Exec(h, m, st, s, fuel); !r.status.OutOfFuel? ==> r.st.ret == st.ret
    decreases fuel, 0, 0
  {
    if fuel > 0 && !Returning(st) {
      match s
      case Block(stmts) =>
        SeqKeepsReturn(h, m, st.(locals := st.locals + [[]]), stmts, 0, fuel - 1);
      case If(cond, thenBranch, elseBranch) =>
        var c := Eval(h, m, st, cond, fuel - 1);
        if c.status.Normal? {
          ExecKeepsReturn(h, m, c.st, thenBranch, fuel - 1);
          if elseBranch.Some? {
            ExecKeepsReturn(h, m, c.st, elseBranch.value, fuel - 1);
          }
        }
      case While(cond, body) =>
        WhileKeepsReturn(h, m, st, cond, body, fuel - 1);
      case For(init, cond, update, body) =>
        var inner := st.(locals := st.locals + [[]]);
        if init.Some? {
          ExecKeepsReturn(h, m, inner, init.value, fuel - 1);
        }
        var i := if init.Some? then Exec(h, m, inner, init.value, fuel - 1) else Run(Normal(()), inner);
        if i.status.Normal? {
          ForKeepsReturn(h, m, i.st, cond, update, body, fuel - 1);
        }
      case _ =>
    }
  }

  lemma {:induction false} SeqKeepsReturn(h: Host, m: Fallback, st: State, stmts: seq<Stmt>, i: nat, fuel: nat)
    requires i <= |stmts| && forall k :: i <= k < |stmts| ==> NoReturn(stmts[k])
    ensures var r := ExecSeq(h, m, st, stmts, i, fuel); !r.status.OutOfFuel? ==> r.st.ret == st.ret
    decreases fuel, 1, |stmts| - i
  {
    if i < |stmts| {
      ExecKeepsReturn(h, m, st, stmts[i], fuel);
      var s := Exec(h, m, st, stmts[i], fuel);
      if s.status.Normal? && !Returning(s.st) {
        SeqKeepsReturn(h, m, s.st, stmts, i + 1, fuel);
      }
    }
  }

  lemma {:induction false} WhileKeepsReturn(h: Host, m: Fallback, st: State, cond: Expr, body: Stmt, fuel: nat)
    requires NoReturn(body)
    ensures var r := ExecWhile(h, m, st, cond, body, fuel); !r.status.OutOfFuel? ==> r.st.ret == st.ret
    decreases fuel, 1, 0
  {
    if fuel > 0 {
      var c := Eval(h, m, st, cond, fuel);
      if c.status.Normal? && IsTruthy(c.status.value) {
        ExecKeepsReturn(h, m, c.st, body, fuel);
        var b := Exec(h, m, c.st, body, fuel);
        if b.status.Normal? && !Returning(b.st) {
          WhileKeepsReturn(h, m, b.st, cond, body, fuel - 1);
        }
      }
    }
  }

  lemma {:induction false} ForKeepsReturn(h: Host, m: Fallback, st: State, cond: Option<Expr>, update: Option<Stmt>, body: Stmt, fuel: nat)
    requires NoReturn(body) && (update.None? || NoReturn(update.value))
    ensures var r := ForLoop(h, m, st, cond, update, body, fuel); !r.status.OutOfFuel? ==> r.st.ret == st.ret
    decreases fuel, 1, 0
  {
    if fuel > 0 {
      var c := if cond.Some? then Eval(h, m, st, cond.value, fuel) else Run(Normal(Num(1)), st);
      if c.status.Normal? && IsTruthy(c.status.value) {
        ExecKeepsReturn(h, m, c.st, body, fuel);
        var b := Exec(h, m, c.st, body, fuel);
        if b.status.Normal? && !Returning(b.st) {
          if update.Some? {
            ExecKeepsReturn(h, m, b.st, update.value, fuel);
          }
          var u := if update.Some? then Exec(h, m, b.st, update.value, fuel) else b;
          if u.status.Normal? {
            ForKeepsReturn(h, m, u.st, cond, update, body, fuel - 1);
          }
        }
      }
    }
  }

  /** A function whose body holds no `return` yields 0. */
  lemma CallWithoutReturnYieldsZero(h: Host, m: Fallback, st: State, decl: FunctionDecl, args: seq<Value>, fuel: nat)
    requires forall k :: 0 <= k < |decl.body| ==> NoReturn(decl.body[k])
    ensures var r := CallUser(h, m, st, decl, args, fuel); r.status.Normal? ==> r.status.value == Num(0)
  {
    if |args| == |decl.params| {
      var entry := st.(locals := st.locals + [ParamScope(decl.params, args)], inFunction := true, ret := None);
      ExecKeepsReturn(h, m, entry, Block(decl.body), fuel);
    }
  }

  // ---------------------------------------------------------------------
  // Operators.
  // ---------------------------------------------------------------------

  predicate IsComparison(op: string) {
    op == "==" || op == "!=" || op == "<" || op == ">" || op == "<=" || op == ">="
  }

  /** A comparison of two numbers yields 1 when it holds and 0 when not. */
  lemma ComparisonYieldsFlag(h: Host, op: string, l: Number, r: Number)
    requires IsComparison(op)
    ensures var holds := (op == "==" && l == r) || (op == "!=" && l != r) || (op == "<" && l < r)
      || (op == ">" && l > r) || (op == "<=" && l <= r) || (op == ">=" && l >= r);
      ApplyOp(h, op, Num(l), Num(r)) == Ok(Num(if holds then 1 else 0))
  {
  }

  /** `+` concatenates the renderings as soon as either side is a string. */
  lemma PlusWithStringConcatenates(h: Host, l: Value, r: Value)
    requires l.Str? || r.Str?
    ensures ApplyOp(h, "+", l, r) == Ok(Str(ToString(h, l) + ToString(h, r)))
  {
  }

  /** Besides `+`, two strings only compare for equality; every other operator
      on them throws. */
  lemma StringsOnlyCompareForEquality(h: Host, op: string, l: string, r: string)
    requires op != "+"
    ensures ApplyOp(h, op, Str(l), Str(r)).Ok? <==> op == "==" || op == "!="
    ensures op == "==" ==> ApplyOp(h, op, Str(l), Str(r)) == Ok(BoolNum(l == r))
  {
  }

  /** An operator throws unless both sides are numbers, or both are strings
      compared for equality, or one is a string and the operator is `+`. */
  lemma OperandTypesChecked(h: Host, op: string, l: Value, r: Value)
    requires !(l.Num? && r.Num?)
    requires !(op == "+" && (l.Str? || r.Str?))
    requires !(l.Str? && r.Str? && (op == "==" || op == "!="))
    ensures ApplyOp(h, op, l, r) == Err(InvalidOperation(op, l, r))
  {
  }

  /** Indexing yields the element exactly for an array and a number in range;
      otherwise the two errors are told apart. */
  lemma ElementChecks(a: Value, i: Value)
    ensures Element(a, i).Ok? <==> a.Arr? && i.Num? && 0 <= i.n < |a.elems|
    ensures Element(a, i).Ok? ==> Element(a, i).value == a.elems[i.n]
    ensures Element(a, i) == Err(IndexOutOfBounds) <==> a.Arr? && i.Num? && !(0 <= i.n < |a.elems|)
  {
  }

  /** A map access yields the bound value exactly when the key is present. */
  lemma KeyValueChecks(t: Value, key: string)
    ensures KeyValue(t, key).Ok? <==> t.MapVal? && Find(t.entries, key).Some?
    ensures KeyValue(t, key) == Err(InvalidMapAccess) <==> !t.MapVal?
  {
  }

  // ---------------------------------------------------------------------
  // Builtins.
  // ---------------------------------------------------------------------

  /** `max` yields an element that no element exceeds. */
  lemma {:induction false} LargestIsMaximum(xs: seq<Value>)
    requires |xs| > 0 && AllNumbers(xs)
    ensures forall i :: 0 <= i < |xs| ==> xs[i].n <= Largest(xs)
    ensures exists i :: 0 <= i < |xs| && xs[i].n == Largest(xs)
    decreases |xs|
  {
    if |xs| > 1 {
      var init := xs[..|xs| - 1];
      LargestIsMaximum(init);
      assert forall i :: 0 <= i < |init| ==> init[i] == xs[i];
      var k :| 0 <= k < |init| && init[k].n == Largest(init);
      if xs[|xs| - 1].n <= Largest(init) {
        assert xs[k].n == Largest(xs);
      } else {
        assert xs[|xs| - 1].n == Largest(xs);
      }
    } else {
      assert xs[0].n == Largest(xs);
    }
  }

  /** `min` yields an element that exceeds no element. */
  lemma {:induction false} SmallestIsMinimum(xs: seq<Value>)
    requires |xs| > 0 && AllNumbers(xs)
    ensures forall i :: 0 <= i < |xs| ==> Smallest(xs) <= xs[i].n
    ensures exists i :: 0 <= i < |xs| && xs[i].n == Smallest(xs)
    decreases |xs|
  {
    if |xs| > 1 {
      var init := xs[..|xs| - 1];
      SmallestIsMinimum(init);
      assert forall i :: 0 <= i < |init| ==> init[i] == xs[i];
      var k :| 0 <= k < |init| && init[k].n == Smallest(init);
      if xs[|xs| - 1].n >= Smallest(init) {
        assert xs[k].n == Smallest(xs);
      } else {
        assert xs[|xs| - 1].n == Smallest(xs);
      }
    } else {
      assert xs[0].n == Smallest(xs);
    }
  }

  /** The total of a concatenation is the sum of the totals. */
  lemma {:induction false} TotalAppend(xs: seq<Value>, ys: seq<Value>)
    requires AllNumbers(xs) && AllNumbers(ys)
    ensures AllNumbers(xs + ys) && Total(xs + ys) == Total(xs) + Total(ys)
    decreases |ys|
  {
    assert AllNumbers(xs + ys) by {
      forall i | 0 <= i < |xs + ys| ensures (xs + ys)[i].Num? {
        if i >= |xs| {
          assert (xs + ys)[i] == ys[i - |xs|];
        }
      }
    }
    if ys == [] {
      assert xs + ys == xs;
    } else {
      var n := |ys|;
      assert (xs + ys)[..|xs + ys| - 1] == xs + ys[..n - 1];
      assert (xs + ys)[|xs + ys| - 1] == ys[n - 1];
      var init := ys[..n - 1];
      assert AllNumbers(init) by {
        forall i | 0 <= i < |init| ensures init[i].Num? {
          assert init[i] == ys[i];
        }
      }
      TotalAppend(xs, init);
    }
  }

  /** The statistics accept exactly the arrays of numbers, apart from the
      sizes they answer 0 for before looking at the elements. */
  lemma StatisticNeedsNumbers(h: Host, name: string, xs: seq<Value>)
    requires name == "mean" || name == "std" || name == "max" || name == "min" || name == "sum"
    requires !AllNumbers(xs)
    ensures Statistic(h, name, xs) == Some(Err(NonNumericArray(name))) <==> !(name == "std" && |xs| <= 1)
  {
  }

  /** A name that no case of `call_builtin_function` accepts is reported as
      an unknown function. */
  lemma UnknownBuiltin(h: Host, name: string, args: seq<Value>)
    requires name !in ["sqrt", "pow", "log", "exp", "abs", "len", "mean", "std", "max", "min", "sum", "str", "num"]
    ensures Builtin(h, name, args) == Err(UnknownFunction(name))
  {
  }

  /** `len` counts characters, elements and keys, and rejects numbers and
      functions as an unknown function. */
  lemma LengthOfValues(h: Host, v: Value)
    ensures Builtin(h, "len", [v]).Ok? <==> v.Str? || v.Arr? || v.MapVal?
    ensures v.Str? ==> Builtin(h, "len", [v]) == Ok(Num(|v.s|))
    ensures (v.Num? || v.Func?) ==> Builtin(h, "len", [v]) == Err(UnknownFunction("len"))
  {
  }

  /** A string, array or map is truthy exactly when `len` of it is not 0; a
      number exactly when it is not 0; a function value always. */
  lemma TruthyMeansNonEmpty(h: Host, v: Value)
    ensures (v.Str? || v.Arr? || v.MapVal?) ==> (IsTruthy(v) <==> Builtin(h, "len", [v]) != Ok(Num(0)))
    ensures v.Num? ==> (IsTruthy(v) <==> v != Num(0))
    ensures v.Func? ==> IsTruthy(v)
  {
  }

  // ---------------------------------------------------------------------
  // Error messages.
  // ---------------------------------------------------------------------

  /** The value of a string of decimal digits. */
  function DigitsValue(s: string): nat
    requires forall i :: 0 <= i < |s| ==> '0' <= s[i] <= '9'
    decreases |s|
  {
    if s == [] then 0 else 10 * DigitsValue(s[..|s| - 1]) + (s[|s| - 1] - '0') as nat
  }

  /** The counts in an arity message read back as the counts. */
  lemma {:induction false} DecimalRoundTrip(n: nat)
    ensures forall i :: 0 <= i < |Decimal(n)| ==> '0' <= Decimal(n)[i] <= '9'
    ensures DigitsValue(Decimal(n)) == n
    decreases n
  {
    var digit := ['0' + (n % 10) as char];
    if n >= 10 {
      DecimalRoundTrip(n / 10);
      var d := Decimal(n);
      assert d == Decimal(n / 10) + digit;
      assert d[..|d| - 1] == Decimal(n / 10);
    }
  }
  /** `execute` over a list of statements is `execute` over a prefix followed,
      when the prefix ends normally, by `execute` over the rest. */
  lemma {:induction false} ProgramSplits(h: Host, m: Fallback, st: State, stmts: seq<Stmt>, i: nat, k: nat, fuel: nat)
    requires i <= k <= |stmts|
    ensures var pre := ExecProgram(h, m, st, stmts[..k], i, fuel);
      ExecProgram(h, m, st, stmts, i, fuel)
      == if pre.status.Normal? then ExecProgram(h, m, pre.st, stmts, k, fuel) else pre
    decreases k - i
  {
    if i < k {
      assert stmts[..k][i] == stmts[i];
      var s := Exec(h, m, st, stmts[i], fuel);
      if s.status.Normal? {
        ProgramSplits(h, m, s.st, stmts, i + 1, k, fuel);
      }
    }
  }

  /** The run of a program ends with the first statement that does not end
      normally: its exception (or the exhausted fuel) is the program's, the
      state it leaves is the program's, and the output of the statements
      before it is kept. */
  lemma FirstAbruptStatement(h: Host, m: Fallback, st: State, stmts: seq<Stmt>, k: nat, fuel: nat)
    requires k < |stmts|
    requires ExecProgram(h, m, st, stmts[..k], 0, fuel).status.Normal?
    requires !Exec(h, m, ExecProgram(h, m, st, stmts[..k], 0, fuel).st, stmts[k], fuel).status.Normal?
    ensures var pre := ExecProgram(h, m, st, stmts[..k], 0, fuel);
      var s := Exec(h, m, pre.st, stmts[k], fuel);
      ExecProgram(h, m, st, stmts, 0, fuel) == s && st.out <= pre.st.out <= s.st.out
  {
    ProgramSplits(h, m, st, stmts, 0, k, fuel);
  }
}
