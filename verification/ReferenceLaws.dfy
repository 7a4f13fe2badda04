/** What the structured semantics means, construct by construct, in plain terms: levels, truth,
    the boolean operators, and the history. */
module ReferenceLaws {
  import opened Options
  import opened PhpSyntax
  import opened StructuredSemantics

  // break and continue

  /** The operand of break and continue counts levels: a number as it is, Null as 0, which like any
      level there is not is an error; none means one. */
  lemma {:induction false} LevelLaw(m: Meaning, e: Expr, env: Env, depth: nat, inF: bool, fuel: nat)
    requires Eval(m, e, env, fuel).Done?
    ensures var (env1, v) := Eval(m, e, env, fuel).value;
      var n := match v case Null => 0 case Num(n) => n case Other(code) => m.long(code);
      var b, c := Exec(m, Break(Some(e)), env, depth, inF, fuel), Exec(m, Continue(Some(e)), env, depth, inF, fuel);
      if 1 <= n <= depth then b == Done((env1, Broke(n))) && c == Done((env1, Continued(n)))
      else b == Halt(BadLevel, env1.trace) && c == Halt(BadLevel, env1.trace)
    ensures var b, c := Exec(m, Break(None), env, depth, inF, fuel), Exec(m, Continue(None), env, depth, inF, fuel);
      if depth >= 1 then b == Done((env, Broke(1))) && c == Done((env, Continued(1)))
      else b == Halt(BadLevel, env.trace) && c == Halt(BadLevel, env.trace)
  {
  }

  datatype Kind = InWhile | InDo | InFor | InSwitch

  /** A loop or switch around a statement; all its expressions are the atom `c`. */
  function Around(kind: Kind, pos: nat, c: int, st: Stmt): Stmt {
    match kind
    case InWhile => While(pos, Atom(c), st)
    case InDo => DoWhile(st, Atom(c))
    case InFor => For(pos, Atom(c), Atom(c), Atom(c), st)
    case InSwitch => Switch(pos, Atom(c), Default(st))
  }

  /** The outermost first. */
  function AllAround(kinds: seq<Kind>, c: int, st: Stmt): Stmt {
    if kinds == [] then st else Around(kinds[0], |kinds|, c, AllAround(kinds[1..], c, st))
  }

  /** How often the atom is evaluated on the way in. */
  function WayIn(kinds: seq<Kind>): nat {
    if kinds == [] then 0
    else (match kinds[0] case InWhile => 1 case InDo => 0 case InFor => 2 case InSwitch => 1) + WayIn(kinds[1..])
  }

  function Evaluations(c: int, n: nat): Trace { seq(n, _ => Evaluated(c)) }

  /** `break n` inside that many loops and switches of any kind leaves them all, and inside fewer it
      leaves them and goes on outward with what is left of n; so does `continue n` inside fewer. */
  lemma {:induction false} LeaveAll(m: Meaning, kinds: seq<Kind>, c: int, b: int, n: int, env: Env, depth: nat,
        inF: bool, fuel: nat)
    requires forall t :: m.value(t, c) == Num(1) && m.value(t, b) == Num(n)
    requires |kinds| <= n <= depth + |kinds| && n >= 1
    ensures var after := env.(trace := env.trace + Evaluations(c, WayIn(kinds)) + [Evaluated(b)]);
      && Exec(m, AllAround(kinds, c, Break(Some(Atom(b)))), env, depth, inF, fuel)
         == Done((after, if n == |kinds| then Normal else Broke(n - |kinds|)))
      && (n > |kinds| ==>
            Exec(m, AllAround(kinds, c, Continue(Some(Atom(b)))), env, depth, inF, fuel)
            == Done((after, Continued(n - |kinds|))))
    decreases |kinds|
  {
    if kinds == [] {
      assert env.trace + Evaluations(c, 0) == env.trace;
      LevelLaw(m, Atom(b), env, depth, inF, fuel);
    } else {
      var k := WayIn([kinds[0]]);
      var env1 := env.(trace := env.trace + Evaluations(c, k));
      WayInSplits(env.trace, kinds, c, b);
      LeaveAll(m, kinds[1..], c, b, n, env1, depth + 1, inF, fuel);
      Enters(m, kinds[0], |kinds|, c, AllAround(kinds[1..], c, Break(Some(Atom(b)))), env, depth, inF, fuel);
      Enters(m, kinds[0], |kinds|, c, AllAround(kinds[1..], c, Continue(Some(Atom(b)))), env, depth, inF, fuel);
    }
  }

  lemma {:induction false} WayInSplits(trace: Trace, kinds: seq<Kind>, c: int, b: int)
    requires kinds != []
    ensures var k := WayIn([kinds[0]]);
      trace + Evaluations(c, k) + Evaluations(c, WayIn(kinds[1..])) + [Evaluated(b)]
      == trace + Evaluations(c, WayIn(kinds)) + [Evaluated(b)]
  {
    assert [kinds[0]][1..] == [];
  }

  /** A loop or switch whose body leaves it. */
  lemma {:induction false} Enters(m: Meaning, kind: Kind, pos: nat, c: int, body: Stmt, env: Env, depth: nat,
        inF: bool, fuel: nat)
    requires forall t :: m.value(t, c) == Num(1)
    ensures var env1 := env.(trace := env.trace + Evaluations(c, WayIn([kind])));
      var r := Exec(m, body, env1, depth + 1, inF, fuel);
      r.Done? && (r.value.1.Broke? || (r.value.1.Continued? && r.value.1.levels > 1)) ==>
        Exec(m, Around(kind, pos, c, body), env, depth, inF, fuel)
        == Done((r.value.0, match r.value.1
                            case Broke(n) => if n == 1 then Normal else Broke(n - 1)
                            case Continued(n) => Continued(n - 1)
                            case out => out))
  {
    assert [kind][1..] == [];
    var one := env.(trace := env.trace + [Evaluated(c)]);
    assert Eval(m, Atom(c), env, fuel) == Done((one, Num(1)));
    match kind
    case InWhile =>
      assert env.trace + Evaluations(c, 1) == one.trace;
    case InDo =>
      assert env.trace + Evaluations(c, 0) == env.trace;
    case InFor =>
      var two := one.(trace := one.trace + [Evaluated(c)]);
      assert Eval(m, Atom(c), one, fuel) == Done((two, Num(1)));
      assert env.trace + Evaluations(c, 2) == two.trace;
      var st := Around(kind, pos, c, body);
      assert Exec(m, st, env, depth, inF, fuel) == ExecFor(m, st, one, depth, inF, fuel);
      assert ExecFor(m, st, one, depth, inF, fuel) == ExecForBody(m, st, two, depth, inF, fuel);
    case InSwitch =>
      assert env.trace + Evaluations(c, 1) == one.trace;
      var st := Around(kind, pos, c, body);
      assert Exec(m, st, env, depth, inF, fuel) == ExecSwitch(m, st, env, depth, inF, fuel);
      assert Select(m, Default(body), Num(1), one, depth + 1, inF, fuel) == Exec(m, body, one, depth + 1, inF, fuel);
  }

  // Truth

  /** Null and the number 0 are false, every other number is true. */
  lemma {:induction false} TruthLaw(m: Meaning, c: Expr, thn: Stmt, els: Stmt, env: Env, depth: nat, inF: bool,
        fuel: nat)
    requires Eval(m, c, env, fuel).Done?
    ensures var (env1, v) := Eval(m, c, env, fuel).value;
      var holds := match v case Null => false case Num(n) => n != 0 case Other(code) => m.truth(code);
      && Exec(m, If(c, thn, Else(els)), env, depth, inF, fuel)
         == Exec(m, if holds then thn else els, env1, depth, inF, fuel)
      && (!holds ==> Exec(m, If(c, thn, EndIf), env, depth, inF, fuel) == Done((env1, Normal)))
  {
  }

  /** `||` and `&&` give 1 or 0, and evaluate the right operand only when it decides. */
  lemma {:induction false} BooleanLaw(m: Meaning, a: Expr, b: Expr, env: Env, fuel: nat)
    requires Eval(m, a, env, fuel).Done?
    ensures var (env1, v) := Eval(m, a, env, fuel).value;
      var left := match v case Null => false case Num(n) => n != 0 case Other(code) => m.truth(code);
      var r := Eval(m, b, env1, fuel);
      && (left ==> Eval(m, Or(a, b), env, fuel) == Done((env1, Num(1))))
      && (!left ==> Eval(m, And(a, b), env, fuel) == Done((env1, Num(0))))
      && (r.Done? ==>
            var (env2, w) := r.value;
            var right := match w case Null => false case Num(n) => n != 0 case Other(code) => m.truth(code);
            var both := Done((env2, Num(if right then 1 else 0)));
            && (!left ==> Eval(m, Or(a, b), env, fuel) == both)
            && (left ==> Eval(m, And(a, b), env, fuel) == both))
  {
  }

  // History

  /** A run only appends to its history. */
  predicate Appends<T>(env: Env, r: Result<(Env, T)>) {
    match r
    case Done((env1, _)) => env.trace <= env1.trace
    case Halt(_, trace) => env.trace <= trace
    case Timeout => true
  }

  /** An atom appends the event of its evaluation, and has the value it has then. */
  lemma {:induction false} AtomLaw(m: Meaning, id: int, env: Env, fuel: nat)
    ensures var trace := env.trace + [Evaluated(id)];
      Eval(m, Atom(id), env, fuel) == Done((Env(trace, env.functions), m.value(trace, id)))
  {
  }

  lemma {:induction false} ExprAppends(m: Meaning, e: Expr, env: Env, fuel: nat)
    ensures Appends(env, Eval(m, e, env, fuel))
    decreases fuel, e, 1
  {
    match e
    case Empty =>
    case Atom(_) =>
    case Op(_, operands) =>
      ArgsAppend(m, operands, env, fuel);
    case Or(a, b) =>
      ExprAppends(m, a, env, fuel);
      var r := Eval(m, a, env, fuel);
      if r.Done? { ExprAppends(m, b, r.value.0, fuel); }
    case And(a, b) =>
      ExprAppends(m, a, env, fuel);
      var r := Eval(m, a, env, fuel);
      if r.Done? { ExprAppends(m, b, r.value.0, fuel); }
    case Ternary(c, a, b) =>
      ExprAppends(m, c, env, fuel);
      var r := Eval(m, c, env, fuel);
      if r.Done? {
        var taken := if IsTrue(m, r.value.1) then a else b;
        ExprAppends(m, taken, r.value.0, fuel);
        assert Eval(m, e, env, fuel) == Eval(m, taken, r.value.0, fuel);
      }
    case Call(_, _) =>
      CallAppends(m, e, env, fuel);
  }

  lemma {:induction false} CallAppends(m: Meaning, e: Expr, env: Env, fuel: nat)
    requires e.Call?
    ensures Appends(env, Eval(m, e, env, fuel))
    decreases fuel, e, 0
  {
    if e.name in env.functions {
      ArgsAppend(m, e.args, env, fuel);
      var r := EvalArgs(m, e.args, env, fuel);
      if r.Done? && fuel > 0 {
        StmtAppends(m, env.functions[e.name], r.value.Log(Entered(e.name)), 0, true, fuel - 1);
      }
    }
  }

  lemma {:induction false} ArgsAppend(m: Meaning, args: Exprs, env: Env, fuel: nat)
    ensures match EvalArgs(m, args, env, fuel)
            case Done(env1) => env.trace <= env1.trace
            case Halt(_, trace) => env.trace <= trace
            case Timeout => true
    decreases fuel, args
  {
    match args
    case NoArgs =>
    case Arg(e, rest) =>
      ExprAppends(m, e, env, fuel);
      var r := Eval(m, e, env, fuel);
      if r.Done? { ArgsAppend(m, rest, r.value.0.Log(Passed(r.value.1)), fuel); }
  }

  lemma {:induction false} OptionAppends(m: Meaning, e: Option<Expr>, env: Env, fuel: nat)
    ensures e.Some? ==> Appends(env, Eval(m, e.value, env, fuel))
    decreases fuel, e
  {
    if e.Some? { ExprAppends(m, e.value, env, fuel); }
  }

  /** ... whatever the statement. */
  lemma {:induction false} StmtAppends(m: Meaning, st: Stmt, env: Env, depth: nat, inF: bool, fuel: nat)
    ensures Appends(env, Exec(m, st, env, depth, inF, fuel))
    decreases fuel, st, 2
  {
    match st
    case Nop =>
    case Seq(a, b) =>
      StmtAppends(m, a, env, depth, inF, fuel);
      var r := Exec(m, a, env, depth, inF, fuel);
      if r.Done? { StmtAppends(m, b, r.value.0, depth, inF, fuel); }
    case Block(body) =>
      StmtAppends(m, body, env, depth, inF, fuel);
    case Do(e) =>
      ExprAppends(m, e, env, fuel);
    case If(c, thn, tail) =>
      ExprAppends(m, c, env, fuel);
      var r := Eval(m, c, env, fuel);
      if r.Done? {
        StmtAppends(m, thn, r.value.0, depth, inF, fuel);
        TailAppends(m, tail, r.value.0, depth, inF, fuel);
      }
    case While(_, _, _) =>
      WhileAppends(m, st, env, depth, inF, fuel);
    case DoWhile(_, _) =>
      DoAppends(m, st, env, depth, inF, fuel);
    case For(_, init, _, _, _) =>
      ExprAppends(m, init, env, fuel);
      var r := Eval(m, init, env, fuel);
      if r.Done? { ForAppends(m, st, r.value.0, depth, inF, fuel); }
    case Switch(_, subject, cases) =>
      ExprAppends(m, subject, env, fuel);
      var r := Eval(m, subject, env, fuel);
      if r.Done? { SelectAppends(m, cases, r.value.1, r.value.0, depth + 1, inF, fuel); }
    case Break(levels) =>
      OptionAppends(m, levels, env, fuel);
    case Continue(levels) =>
      OptionAppends(m, levels, env, fuel);
    case Return(e) =>
      OptionAppends(m, e, env, fuel);
    case Declare(_, _) =>
  }

  lemma {:induction false} WhileAppends(m: Meaning, st: Stmt, env: Env, depth: nat, inF: bool, fuel: nat)
    requires st.While?
    ensures Appends(env, ExecWhile(m, st, env, depth, inF, fuel))
    decreases fuel, st, 1
  {
    ExprAppends(m, st.cond, env, fuel);
    var r := Eval(m, st.cond, env, fuel);
    if r.Done? {
      StmtAppends(m, st.body, r.value.0, depth + 1, inF, fuel);
      var r1 := Exec(m, st.body, r.value.0, depth + 1, inF, fuel);
      if r1.Done? && fuel > 0 { WhileAppends(m, st, r1.value.0, depth, inF, fuel - 1); }
    }
  }

  lemma {:induction false} DoAppends(m: Meaning, st: Stmt, env: Env, depth: nat, inF: bool, fuel: nat)
    requires st.DoWhile?
    ensures Appends(env, ExecDoWhile(m, st, env, depth, inF, fuel))
    decreases fuel, st, 1
  {
    StmtAppends(m, st.body, env, depth + 1, inF, fuel);
    var r := Exec(m, st.body, env, depth + 1, inF, fuel);
    if r.Done? {
      ExprAppends(m, st.cond, r.value.0, fuel);
      var r1 := Eval(m, st.cond, r.value.0, fuel);
      if r1.Done? && fuel > 0 { DoAppends(m, st, r1.value.0, depth, inF, fuel - 1); }
    }
  }

  lemma {:induction false} ForAppends(m: Meaning, st: Stmt, env: Env, depth: nat, inF: bool, fuel: nat)
    requires st.For?
    ensures Appends(env, ExecFor(m, st, env, depth, inF, fuel))
    decreases fuel, st, 1
  {
    ExprAppends(m, st.cond, env, fuel);
    var r := Eval(m, st.cond, env, fuel);
    if r.Done? { ForBodyAppends(m, st, r.value.0, depth, inF, fuel); }
  }

  lemma {:induction false} ForBodyAppends(m: Meaning, st: Stmt, env: Env, depth: nat, inF: bool, fuel: nat)
    requires st.For?
    ensures Appends(env, ExecForBody(m, st, env, depth, inF, fuel))
    decreases fuel, st, 0
  {
    StmtAppends(m, st.body, env, depth + 1, inF, fuel);
    var r := Exec(m, st.body, env, depth + 1, inF, fuel);
    if r.Done? && fuel > 0 {
      ExprAppends(m, st.step, r.value.0, fuel - 1);
      var r1 := Eval(m, st.step, r.value.0, fuel - 1);
      if r1.Done? { ForAppends(m, st, r1.value.0, depth, inF, fuel - 1); }
    }
  }

  lemma {:induction false} TailAppends(m: Meaning, t: IfTail, env: Env, depth: nat, inF: bool, fuel: nat)
    ensures Appends(env, ExecTail(m, t, env, depth, inF, fuel))
    decreases fuel, t, 1
  {
    match t
    case EndIf =>
    case Else(body) =>
      StmtAppends(m, body, env, depth, inF, fuel);
    case ElseIf(c, body, rest) =>
      ExprAppends(m, c, env, fuel);
      var r := Eval(m, c, env, fuel);
      if r.Done? {
        StmtAppends(m, body, r.value.0, depth, inF, fuel);
        TailAppends(m, rest, r.value.0, depth, inF, fuel);
      }
  }

  lemma {:induction false} SelectAppends(m: Meaning, cs: Cases, subject: Value, env: Env, depth: nat, inF: bool,
        fuel: nat)
    ensures Appends(env, Select(m, cs, subject, env, depth, inF, fuel))
    decreases fuel, cs, 1
  {
    match cs
    case EndCases =>
    case Default(body) =>
      StmtAppends(m, body, env, depth, inF, fuel);
    case Case(key, body, rest) =>
      ExprAppends(m, key, env, fuel);
      var r := Eval(m, key, env, fuel);
      if r.Done? {
        SelectAppends(m, rest, subject, r.value.0, depth, inF, fuel);
        MatchedAppends(m, cs, r.value.0, depth, inF, fuel);
      }
  }

  lemma {:induction false} MatchedAppends(m: Meaning, cs: Cases, env: Env, depth: nat, inF: bool, fuel: nat)
    requires cs.Case?
    ensures var r := Exec(m, cs.body, env, depth, inF, fuel);
      Appends(env, if r.Done? && r.value.1.Normal? then FallThrough(m, cs.rest, r.value.0, depth, inF, fuel) else r)
    decreases fuel, cs, 0
  {
    StmtAppends(m, cs.body, env, depth, inF, fuel);
    var r := Exec(m, cs.body, env, depth, inF, fuel);
    if r.Done? { FallAppends(m, cs.rest, r.value.0, depth, inF, fuel); }
  }

  lemma {:induction false} FallAppends(m: Meaning, cs: Cases, env: Env, depth: nat, inF: bool, fuel: nat)
    ensures Appends(env, FallThrough(m, cs, env, depth, inF, fuel))
    decreases fuel, cs, 1
  {
    match cs
    case EndCases =>
    case Default(body) =>
      StmtAppends(m, body, env, depth, inF, fuel);
    case Case(key, body, rest) =>
      ExprAppends(m, key, env, fuel);
      var r := Eval(m, key, env, fuel);
      if r.Done? { MatchedAppends(m, cs, r.value.0, depth, inF, fuel); }
  }
}
