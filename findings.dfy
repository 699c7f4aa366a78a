/** The call fallback as written swallows every exception of a user call:
    a wrong argument count, which then surfaces as an unknown function, and
    one thrown inside its body after scopes were pushed; in the second case the run
    then goes on with the leaked scope on the stack, and later top-level
    declarations land in it instead of the globals. In the corrected reading
    only the failed lookup falls back to the builtins, and a step that ends
    normally keeps the depth of the scope stack (the last clause of `Keeps`). */
module Findings {
  import opened Wrappers
  import opened Ast
  import opened Values
  import opened Semantics
  import opened SemanticsProperties

  /** `function len(s) { return t; }`: its name is a builtin's and its body
      reads an undefined variable. */
  const Shadowing := FunctionDecl("len", ["s"], [Return(Some(Identifier("t")))])

  /** `len("ab")` */
  const CallLen := FunctionCall("len", [StringLiteral("ab")])

  /** The state once `Shadowing` is declared at top level. */
  const Declared := Initial.(globals := [Entry("len", Func(Shadowing))])

  /** The state inside the body's block when `t` is read. */
  const InBody := Declared.(locals := [[Entry("s", Str("ab"))], []], inFunction := true, ret := None)

  /** `t` is bound nowhere inside the body. */
  lemma NotBound(st: State)
    requires st.locals == [[Entry("s", Str("ab"))], []] && st.globals == Declared.globals
    ensures Lookup(st, "t") == None
  {
    assert st.locals[..1] == [[Entry("s", Str("ab"))]];
    assert st.locals[..1][..0] == [];
    assert Find([Entry("s", Str("ab"))], "t") == None;
    assert Find(st.globals, "t") == None;
    assert LookupIn(st.locals[..1][..0], "t") == None;
    assert LookupIn(st.locals[..1], "t") == None;
    assert Find(st.locals[1], "t") == None;
    assert LookupIn(st.locals, "t") == None;
  }

  /** The argument list of the call. */
  lemma Arguments(h: Host, m: Fallback)
    ensures EvalList(h, m, Declared, [StringLiteral("ab")], 0, [], 9) == Run(Normal([Str("ab")]), Declared)
  {
    assert Eval(h, m, Declared, StringLiteral("ab"), 9) == Run(Normal(Str("ab")), Declared);
    assert [] + [Str("ab")] == [Str("ab")];
    assert EvalList(h, m, Declared, [StringLiteral("ab")], 1, [Str("ab")], 9) == Run(Normal([Str("ab")]), Declared);
  }

  /** The call's body throws from inside its block, leaving two scopes
      pushed. */
  lemma BodyThrows(h: Host, m: Fallback)
    ensures CallUser(h, m, Declared, Shadowing, [Str("ab")], 9)
      == Run(Thrown(UndefinedVariable("t")), Declared.(locals := [[Entry("s", Str("ab"))]]))
  {
    assert ParamScope(["s"], [Str("ab")]) == [Entry("s", Str("ab"))];
    NotBound(InBody);
    assert Eval(h, m, InBody, Identifier("t"), 7) == Run(Thrown(UndefinedVariable("t")), InBody);
    assert Exec(h, m, InBody, Return(Some(Identifier("t"))), 8) == Run(Thrown(UndefinedVariable("t")), InBody);
    assert ExecSeq(h, m, InBody, Shadowing.body, 0, 8) == Run(Thrown(UndefinedVariable("t")), InBody);
    var entry := Declared.(locals := [[Entry("s", Str("ab"))]], inFunction := true, ret := None);
    assert entry.(locals := entry.locals + [[]]) == InBody;
    assert ExecBlock(h, m, entry, Shadowing.body, 8) == Run(Thrown(UndefinedVariable("t")), InBody);
    assert Exec(h, m, entry, Block(Shadowing.body), 9) == Run(Thrown(UndefinedVariable("t")), InBody);
    assert InBody.locals[..1] == [[Entry("s", Str("ab"))]];
    assert Pop(InBody).(inFunction := false, ret := None) == Declared.(locals := [[Entry("s", Str("ab"))]]);
  }

  /** As written: the exception is swallowed, the builtin `len` answers 2,
      and the parameter scope of the failed call stays on the stack. */
  lemma FallbackLeaksScope(h: Host)
    ensures var r := Eval(h, CatchAll, Declared, CallLen, 10);
      r.status == Normal(Num(2)) && |r.st.locals| == |Declared.locals| + 1
  {
    Arguments(h, CatchAll);
    assert Lookup(Declared, "len") == Some(Func(Shadowing));
    BodyThrows(h, CatchAll);
  }

  /** As written, a `let` after that call binds a local of the leaked scope:
      the globals never see it. */
  lemma LeakedScopeCapturesLet(h: Host)
    ensures var after := Eval(h, CatchAll, Declared, CallLen, 10).st;
      var r := Exec(h, CatchAll, after, VariableDeclaration("z", NumberLiteral(1)), 2);
      r.status.Normal? && Find(r.st.globals, "z").None? && Lookup(r.st, "z") == Some(Num(1))
  {
    FallbackLeaksScope(h);
    BodyThrows(h, CatchAll);
    var after := Declared.(locals := [[Entry("s", Str("ab"))]]);
    assert Eval(h, CatchAll, Declared, CallLen, 10).st == after;
    assert Eval(h, CatchAll, after, NumberLiteral(1), 1) == Run(Normal(Num(1)), after);
    assert Put([Entry("s", Str("ab"))], "z", Num(1)) == [Entry("s", Str("ab")), Entry("z", Num(1))];
    assert after.locals[..0] == [];
    assert Bind(after, "z", Num(1)).locals == [[Entry("s", Str("ab")), Entry("z", Num(1))]];
    assert Find([Entry("s", Str("ab")), Entry("z", Num(1))], "z") == Some(Num(1));
  }

  /** Corrected: the error of the body reaches the caller, and the call
      expression is not evaluated to anything. */
  lemma CorrectedCallPropagates(h: Host)
    ensures Eval(h, CatchLookup, Declared, CallLen, 10).status == Thrown(UndefinedVariable("t"))
  {
    Arguments(h, CatchLookup);
    assert Lookup(Declared, "len") == Some(Func(Shadowing));
    BodyThrows(h, CatchLookup);
  }

  /** `function len(s) { return t; } print len("ab"); let z = 1;` */
  const LeakProgram := Program([FunctionDeclaration(Shadowing), Print(CallLen), VariableDeclaration("z", NumberLiteral(1))])

  /** As written, `print len("ab");` prints the builtin's 2 and leaves the
      parameter scope of the failed call on the stack. */
  lemma PrintLeaksScope(h: Host)
    ensures Exec(h, CatchAll, Declared, Print(CallLen), 11)
      == Run(Normal(()), Declared.(locals := [[Entry("s", Str("ab"))]], out := [ToString(h, Num(2))]))
  {
    FallbackLeaksScope(h);
    BodyThrows(h, CatchAll);
  }

  /** At top level with that scope left on the stack, `let z = 1;` binds `z`
      in it. */
  lemma LetInLeakedScope(h: Host, st: State)
    requires st.locals == [[Entry("s", Str("ab"))]] && !st.inFunction
    ensures Exec(h, CatchAll, st, VariableDeclaration("z", NumberLiteral(1)), 11)
      == Run(Normal(()), st.(locals := [[Entry("s", Str("ab")), Entry("z", Num(1))]]))
  {
    assert Eval(h, CatchAll, st, NumberLiteral(1), 10) == Run(Normal(Num(1)), st);
    assert Put([Entry("s", Str("ab"))], "z", Num(1)) == [Entry("s", Str("ab")), Entry("z", Num(1))];
    assert st.locals[..0] == [];
  }

  /** As written, the program prints the builtin's 2 and ends normally, and
      its `z` is bound in the leaked scope, not among the globals. */
  lemma LeakProgramRun(h: Host)
    ensures var r := RunProgram(h, CatchAll, LeakProgram, 11);
      && r.status == Normal(()) && r.st.out == [ToString(h, Num(2))]
      && Find(r.st.globals, "z").None? && Lookup(r.st, "z") == Some(Num(1))
  {
    var stmts := LeakProgram.stmts;
    assert Exec(h, CatchAll, Initial, stmts[0], 11) == Run(Normal(()), Declared);
    var printed := Declared.(locals := [[Entry("s", Str("ab"))]], out := [ToString(h, Num(2))]);
    PrintLeaksScope(h);
    LetInLeakedScope(h, printed);
    var last := printed.(locals := [[Entry("s", Str("ab")), Entry("z", Num(1))]]);
    assert Find([Entry("s", Str("ab")), Entry("z", Num(1))], "z") == Some(Num(1));
    assert ExecProgram(h, CatchAll, last, stmts, 3, 11) == Run(Normal(()), last);
    assert ExecProgram(h, CatchAll, printed, stmts, 2, 11) == Run(Normal(()), last);
    assert ExecProgram(h, CatchAll, Declared, stmts, 1, 11) == Run(Normal(()), last);
  }

  /** Corrected: the program stops at the `print` with the body's error. */
  lemma CorrectedLeakProgram(h: Host)
    ensures RunProgram(h, CatchLookup, LeakProgram, 11).status == Thrown(UndefinedVariable("t"))
  {
    var stmts := LeakProgram.stmts;
    assert Exec(h, CatchLookup, Initial, stmts[0], 11) == Run(Normal(()), Declared);
    CorrectedCallPropagates(h);
    var bad := Exec(h, CatchLookup, Declared, stmts[1], 11);
    assert bad.status == Thrown(UndefinedVariable("t"));
    assert ExecProgram(h, CatchLookup, Declared, stmts, 1, 11) == bad;
    assert ExecProgram(h, CatchLookup, Initial, stmts, 0, 11) == bad;
  }

  /** `function f(a) {}` */
  const Unary := FunctionDecl("f", ["a"], [])

  /** `f(1, 2)` */
  const CallTwo := FunctionCall("f", [NumberLiteral(1), NumberLiteral(2)])

  /** The state once `Unary` is declared at top level. */
  const UnaryDeclared := Initial.(globals := [Entry("f", Func(Unary))])

  /** The two arguments of the call. */
  lemma TwoArguments(h: Host, m: Fallback)
    ensures EvalList(h, m, UnaryDeclared, CallTwo.args, 0, [], 9) == Run(Normal([Num(1), Num(2)]), UnaryDeclared)
  {
    assert [] + [Num(1)] == [Num(1)];
    assert [Num(1)] + [Num(2)] == [Num(1), Num(2)];
    assert EvalList(h, m, UnaryDeclared, CallTwo.args, 2, [Num(1), Num(2)], 9) == Run(Normal([Num(1), Num(2)]), UnaryDeclared);
  }

  /** As written: the arity error of `f(1, 2)` is swallowed, no builtin is
      named `f`, and the program reports "Unknown function: f". */
  lemma ArityErrorSwallowed(h: Host)
    ensures Eval(h, CatchAll, UnaryDeclared, CallTwo, 10) == Run(Thrown(UnknownFunction("f")), UnaryDeclared)
  {
    TwoArguments(h, CatchAll);
    assert Lookup(UnaryDeclared, "f") == Some(Func(Unary));
    CallArityMismatch(h, CatchAll, UnaryDeclared, "f", CallTwo.args, 9, Unary);
  }

  /** Corrected: the call reports the wrong argument count. */
  lemma CorrectedArityReported(h: Host)
    ensures Eval(h, CatchLookup, UnaryDeclared, CallTwo, 10) == Run(Thrown(ArityMismatch("f", 1, 2)), UnaryDeclared)
  {
    TwoArguments(h, CatchLookup);
    assert Lookup(UnaryDeclared, "f") == Some(Func(Unary));
    CallArityMismatch(h, CatchLookup, UnaryDeclared, "f", CallTwo.args, 9, Unary);
  }

  /** `function f(a) {} print f(1, 2);` */
  const ArityProgram := Program([FunctionDeclaration(Unary), Print(CallTwo)])

  /** As written, the program stops at the `print` with "Unknown function: f". */
  lemma ArityProgramRun(h: Host)
    ensures RunProgram(h, CatchAll, ArityProgram, 11) == Run(Thrown(UnknownFunction("f")), UnaryDeclared)
  {
    var stmts := ArityProgram.stmts;
    assert Exec(h, CatchAll, Initial, stmts[0], 11) == Run(Normal(()), UnaryDeclared);
    ArityErrorSwallowed(h);
    assert Exec(h, CatchAll, UnaryDeclared, stmts[1], 11) == Run(Thrown(UnknownFunction("f")), UnaryDeclared);
    assert ExecProgram(h, CatchAll, UnaryDeclared, stmts, 1, 11) == Run(Thrown(UnknownFunction("f")), UnaryDeclared);
  }

  /** Corrected: the program stops at the `print` with the arity error. */
  lemma CorrectedArityProgram(h: Host)
    ensures RunProgram(h, CatchLookup, ArityProgram, 11) == Run(Thrown(ArityMismatch("f", 1, 2)), UnaryDeclared)
  {
    var stmts := ArityProgram.stmts;
    assert Exec(h, CatchLookup, Initial, stmts[0], 11) == Run(Normal(()), UnaryDeclared);
    CorrectedArityReported(h);
    assert Exec(h, CatchLookup, UnaryDeclared, stmts[1], 11) == Run(Thrown(ArityMismatch("f", 1, 2)), UnaryDeclared);
    assert ExecProgram(h, CatchLookup, UnaryDeclared, stmts, 1, 11) == Run(Thrown(ArityMismatch("f", 1, 2)), UnaryDeclared);
  }
}
