/** Fuel does not matter to the structured semantics: it only cuts runs short. */
module ReferenceFuel {
  import opened PhpSyntax
  import opened StructuredSemantics

  /** `more` is what `less` becomes when it is given more fuel. */
  predicate Extends<T(==)>(less: Result<T>, more: Result<T>) { less.Timeout? || more == less }

  lemma {:induction false} MoreFuelEval(m: Meaning, e: Expr, env: Env, fuel: nat, more: nat)
    requires fuel <= more
    ensures Extends(Eval(m, e, env, fuel), Eval(m, e, env, more))
    decreases fuel, e
  {
    match e
    case Empty =>
    case Atom(_) =>
    case Op(_, operands) =>
      MoreFuelArgs(m, operands, env, fuel, more);
    case Or(a, b) =>
      MoreFuelEval(m, a, env, fuel, more);
      var r := Eval(m, a, env, fuel);
      if r.Done? { MoreFuelEval(m, b, r.value.0, fuel, more); }
    case And(a, b) =>
      MoreFuelEval(m, a, env, fuel, more);
      var r := Eval(m, a, env, fuel);
      if r.Done? { MoreFuelEval(m, b, r.value.0, fuel, more); }
    case Ternary(c, a, b) =>
      MoreFuelEval(m, c, env, fuel, more);
      var r := Eval(m, c, env, fuel);
      if r.Done? {
        var taken := if IsTrue(m, r.value.1) then a else b;
        MoreFuelEval(m, taken, r.value.0, fuel, more);
        assert Eval(m, e, env, fuel) == Eval(m, taken, r.value.0, fuel);
      }
    case Call(name, args) =>
      if name in env.functions {
        MoreFuelArgs(m, args, env, fuel, more);
        var r := EvalArgs(m, args, env, fuel);
        if r.Done? && fuel > 0 {
          MoreFuel(m, env.functions[name], r.value.Log(Entered(name)), 0, true, fuel - 1, more - 1);
        }
      }
  }

  lemma {:induction false} MoreFuelArgs(m: Meaning, args: Exprs, env: Env, fuel: nat, more: nat)
    requires fuel <= more
    ensures Extends(EvalArgs(m, args, env, fuel), EvalArgs(m, args, env, more))
    decreases fuel, args
  {
    match args
    case NoArgs =>
    case Arg(e, rest) =>
      MoreFuelEval(m, e, env, fuel, more);
      var r := Eval(m, e, env, fuel);
      if r.Done? { MoreFuelArgs(m, rest, r.value.0.Log(Passed(r.value.1)), fuel, more); }
  }

  /** A run that is not cut short is the same with any more fuel: what a statement does is one
      result, not one per fuel. */
  lemma {:induction false} MoreFuel(m: Meaning, st: Stmt, env: Env, depth: nat, inF: bool, fuel: nat, more: nat)
    requires fuel <= more
    ensures Extends(Exec(m, st, env, depth, inF, fuel), Exec(m, st, env, depth, inF, more))
    decreases fuel, st, 2
  {
    match st
    case Nop =>
    case Seq(a, b) =>
      MoreFuel(m, a, env, depth, inF, fuel, more);
      var r := Exec(m, a, env, depth, inF, fuel);
      if r.Done? { MoreFuel(m, b, r.value.0, depth, inF, fuel, more); }
    case Block(body) =>
      MoreFuel(m, body, env, depth, inF, fuel, more);
    case Do(e) =>
      MoreFuelEval(m, e, env, fuel, more);
    case If(c, thn, tail) =>
      MoreFuelEval(m, c, env, fuel, more);
      var r := Eval(m, c, env, fuel);
      if r.Done? {
        MoreFuel(m, thn, r.value.0, depth, inF, fuel, more);
        MoreFuelTail(m, tail, r.value.0, depth, inF, fuel, more);
      }
    case While(_, _, _) =>
      MoreFuelWhile(m, st, env, depth, inF, fuel, more);
    case DoWhile(_, _) =>
      MoreFuelDoWhile(m, st, env, depth, inF, fuel, more);
    case For(_, init, _, _, _) =>
      MoreFuelEval(m, init, env, fuel, more);
      var r := Eval(m, init, env, fuel);
      if r.Done? { MoreFuelFor(m, st, r.value.0, depth, inF, fuel, more); }
    case Switch(_, subject, cases) =>
      MoreFuelEval(m, subject, env, fuel, more);
      var r := Eval(m, subject, env, fuel);
      if r.Done? { MoreFuelSelect(m, cases, r.value.1, r.value.0, depth + 1, inF, fuel, more); }
    case Break(levels) =>
      if levels.Some? { MoreFuelEval(m, levels.value, env, fuel, more); }
    case Continue(levels) =>
      if levels.Some? { MoreFuelEval(m, levels.value, env, fuel, more); }
    case Return(e) =>
      if e.Some? { MoreFuelEval(m, e.value, env, fuel, more); }
    case Declare(_, _) =>
  }

  lemma {:induction false} MoreFuelWhile(m: Meaning, st: Stmt, env: Env, depth: nat, inF: bool, fuel: nat, more: nat)
    requires fuel <= more && st.While?
    ensures Extends(ExecWhile(m, st, env, depth, inF, fuel), ExecWhile(m, st, env, depth, inF, more))
    decreases fuel, st, 1
  {
    MoreFuelEval(m, st.cond, env, fuel, more);
    var r := Eval(m, st.cond, env, fuel);
    if r.Done? {
      MoreFuel(m, st.body, r.value.0, depth + 1, inF, fuel, more);
      var r2 := Exec(m, st.body, r.value.0, depth + 1, inF, fuel);
      if r2.Done? && fuel > 0 { MoreFuelWhile(m, st, r2.value.0, depth, inF, fuel - 1, more - 1); }
    }
  }

  lemma {:induction false} MoreFuelDoWhile(m: Meaning, st: Stmt, env: Env, depth: nat, inF: bool, fuel: nat, more: nat)
    requires fuel <= more && st.DoWhile?
    ensures Extends(ExecDoWhile(m, st, env, depth, inF, fuel), ExecDoWhile(m, st, env, depth, inF, more))
    decreases fuel, st, 1
  {
    MoreFuel(m, st.body, env, depth + 1, inF, fuel, more);
    var r := Exec(m, st.body, env, depth + 1, inF, fuel);
    if r.Done? {
      MoreFuelEval(m, st.cond, r.value.0, fuel, more);
      var r2 := Eval(m, st.cond, r.value.0, fuel);
      if r2.Done? && fuel > 0 { MoreFuelDoWhile(m, st, r2.value.0, depth, inF, fuel - 1, more - 1); }
    }
  }

  lemma {:induction false} MoreFuelFor(m: Meaning, st: Stmt, env: Env, depth: nat, inF: bool, fuel: nat, more: nat)
    requires fuel <= more && st.For?
    ensures Extends(ExecFor(m, st, env, depth, inF, fuel), ExecFor(m, st, env, depth, inF, more))
    decreases fuel, st, 1
  {
    MoreFuelEval(m, st.cond, env, fuel, more);
    var r := Eval(m, st.cond, env, fuel);
    if r.Done? { MoreFuelForBody(m, st, r.value.0, depth, inF, fuel, more); }
  }

  lemma {:induction false} MoreFuelForBody(m: Meaning, st: Stmt, env: Env, depth: nat, inF: bool, fuel: nat, more: nat)
    requires fuel <= more && st.For?
    ensures Extends(ExecForBody(m, st, env, depth, inF, fuel), ExecForBody(m, st, env, depth, inF, more))
    decreases fuel, st, 0
  {
    MoreFuel(m, st.body, env, depth + 1, inF, fuel, more);
    var r := Exec(m, st.body, env, depth + 1, inF, fuel);
    if r.Done? && fuel > 0 {
      MoreFuelEval(m, st.step, r.value.0, fuel - 1, more - 1);
      var r2 := Eval(m, st.step, r.value.0, fuel - 1);
      if r2.Done? { MoreFuelFor(m, st, r2.value.0, depth, inF, fuel - 1, more - 1); }
    }
  }

  lemma {:induction false} MoreFuelTail(m: Meaning, t: IfTail, env: Env, depth: nat, inF: bool, fuel: nat, more: nat)
    requires fuel <= more
    ensures Extends(ExecTail(m, t, env, depth, inF, fuel), ExecTail(m, t, env, depth, inF, more))
    decreases fuel, t, 1
  {
    match t
    case EndIf =>
    case Else(body) =>
      MoreFuel(m, body, env, depth, inF, fuel, more);
    case ElseIf(c, body, rest) =>
      MoreFuelEval(m, c, env, fuel, more);
      var r := Eval(m, c, env, fuel);
      if r.Done? {
        MoreFuel(m, body, r.value.0, depth, inF, fuel, more);
        MoreFuelTail(m, rest, r.value.0, depth, inF, fuel, more);
      }
  }

  lemma {:induction false} MoreFuelSelect(m: Meaning, cs: Cases, subject: Value, env: Env, depth: nat, inF: bool,
        fuel: nat, more: nat)
    requires fuel <= more
    ensures Extends(Select(m, cs, subject, env, depth, inF, fuel), Select(m, cs, subject, env, depth, inF, more))
    decreases fuel, cs, 1
  {
    match cs
    case EndCases =>
    case Default(body) =>
      MoreFuel(m, body, env, depth, inF, fuel, more);
    case Case(key, body, rest) =>
      MoreFuelEval(m, key, env, fuel, more);
      var r := Eval(m, key, env, fuel);
      if r.Done? {
        MoreFuelSelect(m, rest, subject, r.value.0, depth, inF, fuel, more);
        MoreFuel(m, body, r.value.0, depth, inF, fuel, more);
        var r2 := Exec(m, body, r.value.0, depth, inF, fuel);
        if r2.Done? { MoreFuelFallThrough(m, rest, r2.value.0, depth, inF, fuel, more); }
      }
  }

  lemma {:induction false} MoreFuelFallThrough(m: Meaning, cs: Cases, env: Env, depth: nat, inF: bool, fuel: nat,
        more: nat)
    requires fuel <= more
    ensures Extends(FallThrough(m, cs, env, depth, inF, fuel), FallThrough(m, cs, env, depth, inF, more))
    decreases fuel, cs, 0
  {
    match cs
    case EndCases =>
    case Default(body) =>
      MoreFuel(m, body, env, depth, inF, fuel, more);
    case Case(key, body, rest) =>
      MoreFuelEval(m, key, env, fuel, more);
      var r := Eval(m, key, env, fuel);
      if r.Done? {
        MoreFuel(m, body, r.value.0, depth, inF, fuel, more);
        var r2 := Exec(m, body, r.value.0, depth, inF, fuel);
        if r2.Done? { MoreFuelFallThrough(m, rest, r2.value.0, depth, inF, fuel, more); }
      }
  }
}
