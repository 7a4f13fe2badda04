/** When no run of a script can come to a marked `while`: a condition on its text, by the calls the
    functions of the script make to each other. */
module ControlCallGraph {
  import opened Options
  import opened PhpSyntax
  import opened StructuredSemantics
  import opened ControlMarks

  // The names called in a text, not counting the bodies of functions declared in it.

  function CallsExpr(e: Expr): set<string> {
    match e
    case Empty => {}
    case Atom(_) => {}
    case Op(_, operands) => CallsArgs(operands)
    case Or(a, b) => CallsExpr(a) + CallsExpr(b)
    case And(a, b) => CallsExpr(a) + CallsExpr(b)
    case Ternary(c, a, b) => CallsExpr(c) + CallsExpr(a) + CallsExpr(b)
    case Call(name, args) => {name} + CallsArgs(args)
  }

  function CallsArgs(args: Exprs): set<string> {
    match args
    case NoArgs => {}
    case Arg(e, rest) => CallsExpr(e) + CallsArgs(rest)
  }

  function CallsOption(e: Option<Expr>): set<string> { if e.None? then {} else CallsExpr(e.value) }

  function Calls(st: Stmt): set<string> {
    match st
    case Nop => {}
    case Seq(a, b) => Calls(a) + Calls(b)
    case Block(body) => Calls(body)
    case Do(e) => CallsExpr(e)
    case If(c, thn, tail) => CallsExpr(c) + Calls(thn) + TailCalls(tail)
    case While(_, c, body) => CallsExpr(c) + Calls(body)
    case DoWhile(body, c) => Calls(body) + CallsExpr(c)
    case For(_, init, c, step, body) => CallsExpr(init) + CallsExpr(c) + CallsExpr(step) + Calls(body)
    case Switch(_, subject, cases) => CallsExpr(subject) + CaseCalls(cases)
    case Break(levels) => CallsOption(levels)
    case Continue(levels) => CallsOption(levels)
    case Return(e) => CallsOption(e)
    case Declare(_, _) => {}
  }

  function TailCalls(t: IfTail): set<string> {
    match t
    case EndIf => {}
    case Else(body) => Calls(body)
    case ElseIf(c, body, rest) => CallsExpr(c) + Calls(body) + TailCalls(rest)
  }

  function CaseCalls(cs: Cases): set<string> {
    match cs
    case EndCases => {}
    case Default(body) => Calls(body)
    case Case(key, body, rest) => CallsExpr(key) + Calls(body) + CaseCalls(rest)
  }

  datatype Declaration = Declaration(name: string, body: Stmt)

  /** All functions declared in a text, inside other functions as well. */
  function Declarations(st: Stmt): set<Declaration> {
    match st
    case Seq(a, b) => Declarations(a) + Declarations(b)
    case Block(body) => Declarations(body)
    case If(_, thn, tail) => Declarations(thn) + TailDeclarations(tail)
    case While(_, _, body) => Declarations(body)
    case DoWhile(body, _) => Declarations(body)
    case For(_, _, _, _, body) => Declarations(body)
    case Switch(_, _, cases) => CaseDeclarations(cases)
    case Declare(name, body) => {Declaration(name, body)} + Declarations(body)
    case _ => {}
  }

  function TailDeclarations(t: IfTail): set<Declaration> {
    match t
    case EndIf => {}
    case Else(body) => Declarations(body)
    case ElseIf(_, body, rest) => Declarations(body) + TailDeclarations(rest)
  }

  function CaseDeclarations(cs: Cases): set<Declaration> {
    match cs
    case EndCases => {}
    case Default(body) => Declarations(body)
    case Case(_, body, rest) => Declarations(body) + CaseDeclarations(rest)
  }

  /** A call to `f` can lead to a call to `g` through `n` calls in between. */
  ghost predicate Reaches(ds: set<Declaration>, f: string, g: string, n: nat)
    decreases n
  {
    if n == 0 then f == g
    else exists d, h :: d in ds && d.name == f && h in Calls(d.body) && Reaches(ds, h, g, n - 1)
  }

  /** A call to `f` can lead into a text that a mark on the `while` at `pos` stops. */
  ghost predicate LeadsTo(ds: set<Declaration>, f: string, pos: int) {
    exists n: nat, d :: d in ds && Reaches(ds, f, d.name, n) && pos in Stops(d.body, BRACED)
  }

  /** No call in the condition of a `while` can lead to a text that its mark stops. */
  ghost predicate SafeLoops(st: Stmt, ds: set<Declaration>) {
    match st
    case Seq(a, b) => SafeLoops(a, ds) && SafeLoops(b, ds)
    case Block(body) => SafeLoops(body, ds)
    case If(_, thn, tail) => SafeLoops(thn, ds) && TailSafe(tail, ds)
    case While(pos, c, body) => (forall f <- CallsExpr(c) :: !LeadsTo(ds, f, pos)) && SafeLoops(body, ds)
    case DoWhile(body, _) => SafeLoops(body, ds)
    case For(_, _, _, _, body) => SafeLoops(body, ds)
    case Switch(_, _, cases) => CasesSafe(cases, ds)
    case Declare(_, body) => SafeLoops(body, ds)
    case _ => true
  }

  ghost predicate TailSafe(t: IfTail, ds: set<Declaration>) {
    match t
    case EndIf => true
    case Else(body) => SafeLoops(body, ds)
    case ElseIf(_, body, rest) => SafeLoops(body, ds) && TailSafe(rest, ds)
  }

  ghost predicate CasesSafe(cs: Cases, ds: set<Declaration>) {
    match cs
    case EndCases => true
    case Default(body) => SafeLoops(body, ds)
    case Case(_, body, rest) => SafeLoops(body, ds) && CasesSafe(rest, ds)
  }

  /** The condition on a whole script. */
  ghost predicate CallGraphSafe(script: Stmt) { SafeLoops(script, Declarations(script)) }

  /** The declared functions of a safe text are safe. */
  lemma {:induction false} DeclaredSafe(st: Stmt, ds: set<Declaration>)
    requires SafeLoops(st, ds)
    ensures forall d <- Declarations(st) :: SafeLoops(d.body, ds) && Declarations(d.body) <= Declarations(st)
  {
    match st
    case Seq(a, b) =>
      DeclaredSafe(a, ds);
      DeclaredSafe(b, ds);
    case Block(body) => DeclaredSafe(body, ds);
    case If(_, thn, tail) =>
      DeclaredSafe(thn, ds);
      TailDeclaredSafe(tail, ds);
    case While(_, _, body) => DeclaredSafe(body, ds);
    case DoWhile(body, _) => DeclaredSafe(body, ds);
    case For(_, _, _, _, body) => DeclaredSafe(body, ds);
    case Switch(_, _, cases) => CasesDeclaredSafe(cases, ds);
    case Declare(_, body) => DeclaredSafe(body, ds);
    case _ =>
  }

  lemma {:induction false} TailDeclaredSafe(t: IfTail, ds: set<Declaration>)
    requires TailSafe(t, ds)
    ensures forall d <- TailDeclarations(t) :: SafeLoops(d.body, ds) && Declarations(d.body) <= TailDeclarations(t)
  {
    match t
    case EndIf =>
    case Else(body) => DeclaredSafe(body, ds);
    case ElseIf(_, body, rest) =>
      DeclaredSafe(body, ds);
      TailDeclaredSafe(rest, ds);
  }

  lemma {:induction false} CasesDeclaredSafe(cs: Cases, ds: set<Declaration>)
    requires CasesSafe(cs, ds)
    ensures forall d <- CaseDeclarations(cs) :: SafeLoops(d.body, ds) && Declarations(d.body) <= CaseDeclarations(cs)
  {
    match cs
    case EndCases =>
    case Default(body) => DeclaredSafe(body, ds);
    case Case(_, body, rest) =>
      DeclaredSafe(body, ds);
      CasesDeclaredSafe(rest, ds);
  }

  /** No run of a script with a safe call graph calls a function that a mark stops. */
  lemma {:induction false} CallGraphSuffices(m: Meaning, script: Stmt, fuel: nat)
    requires CallGraphSafe(script)
    ensures MarksStmt(m, script, Env([], map[]), 0, false, {}, fuel) == Some({})
  {
    var ds := Declarations(script);
    DeclaredSafe(script, ds);
    SafeStmt(m, script, Env([], map[]), 0, false, {}, fuel, ds);
    var k := MarksStmt(m, script, Env([], map[]), 0, false, {}, fuel).value;
    assert k <= {} && k == {};
  }

  // What holds throughout a run

  ghost predicate BodiesSafe(ds: set<Declaration>) {
    forall d <- ds :: SafeLoops(d.body, ds) && Declarations(d.body) <= ds
  }

  predicate From(env: Env, ds: set<Declaration>) {
    forall f <- env.functions :: Declaration(f, env.functions[f]) in ds
  }

  /** No call in the text can lead to a text that one of the marks stops. */
  ghost predicate Guarded(marks: Marks, calls: set<string>, ds: set<Declaration>) {
    forall pos, f :: pos in marks && f in calls ==> !LeadsTo(ds, f, pos)
  }

  ghost predicate Fit(env: Env, marks: Marks, calls: set<string>, ds: set<Declaration>) {
    BodiesSafe(ds) && From(env, ds) && Guarded(marks, calls, ds)
  }

  predicate Unharmed<T>(k: Option<Marks>, r: Result<(Env, T)>, ds: set<Declaration>) {
    k.Some? && (r.Done? ==> From(r.value.0, ds))
  }

  lemma {:induction false} LeadsHere(ds: set<Declaration>, d: Declaration, pos: int)
    requires d in ds && pos in Stops(d.body, BRACED)
    ensures LeadsTo(ds, d.name, pos)
  {
    assert Reaches(ds, d.name, d.name, 0);
  }

  lemma {:induction false} LeadsOn(ds: set<Declaration>, d: Declaration, f: string, pos: int)
    requires d in ds && f in Calls(d.body) && LeadsTo(ds, f, pos)
    ensures LeadsTo(ds, d.name, pos)
  {
    var n: nat, g :| g in ds && Reaches(ds, f, g.name, n) && pos in Stops(g.body, BRACED);
    assert Reaches(ds, d.name, g.name, n + 1);
  }

  /** A declared function may be called where a call to its name may. */
  lemma {:induction false} EnterBody(ds: set<Declaration>, d: Declaration, marks: Marks)
    requires d in ds && Guarded(marks, {d.name}, ds)
    ensures Stops(d.body, BRACED) !! marks && Guarded(marks, Calls(d.body), ds)
  {
    forall pos | pos in Stops(d.body, BRACED) ensures pos !in marks {
      LeadsHere(ds, d, pos);
    }
    forall pos, f | pos in marks && f in Calls(d.body) ensures !LeadsTo(ds, f, pos) {
      if LeadsTo(ds, f, pos) { LeadsOn(ds, d, f, pos); }
    }
  }

  lemma {:induction false} SafeExpr(m: Meaning, e: Expr, env: Env, marks: Marks, fuel: nat, ds: set<Declaration>)
    requires Fit(env, marks, CallsExpr(e), ds)
    ensures Unharmed(MarksExpr(m, e, env, marks, fuel), Eval(m, e, env, fuel), ds)
    decreases fuel, e
  {
    match e
    case Empty =>
    case Atom(_) =>
    case Op(_, operands) =>
      SafeArgs(m, operands, env, marks, fuel, ds);
    case Or(a, b) =>
      SafeExpr(m, a, env, marks, fuel, ds);
      var r := Eval(m, a, env, fuel);
      if r.Done? { SafeExpr(m, b, r.value.0, MarksExpr(m, a, env, marks, fuel).value, fuel, ds); }
    case And(a, b) =>
      SafeExpr(m, a, env, marks, fuel, ds);
      var r := Eval(m, a, env, fuel);
      if r.Done? { SafeExpr(m, b, r.value.0, MarksExpr(m, a, env, marks, fuel).value, fuel, ds); }
    case Ternary(c, a, b) =>
      SafeExpr(m, c, env, marks, fuel, ds);
      var r := Eval(m, c, env, fuel);
      if r.Done? {
        var taken := if IsTrue(m, r.value.1) then a else b;
        SafeExpr(m, taken, r.value.0, MarksExpr(m, c, env, marks, fuel).value, fuel, ds);
        assert Eval(m, e, env, fuel) == Eval(m, taken, r.value.0, fuel);
      }
    case Call(_, _) =>
      SafeCall(m, e, env, marks, fuel, ds);
  }

  lemma {:induction false} SafeCall(m: Meaning, e: Expr, env: Env, marks: Marks, fuel: nat, ds: set<Declaration>)
    requires Fit(env, marks, CallsExpr(e), ds) && e.Call?
    ensures Unharmed(MarksExpr(m, e, env, marks, fuel), Eval(m, e, env, fuel), ds)
    decreases fuel, e, 0
  {
    if e.name in env.functions {
      SafeArgs(m, e.args, env, marks, fuel, ds);
      var r := EvalArgs(m, e.args, env, fuel);
      if r.Done? && fuel > 0 {
        var body, k := env.functions[e.name], MarksArgs(m, e.args, env, marks, fuel).value;
        EnterBody(ds, Declaration(e.name, body), k);
        SafeStmt(m, body, r.value.Log(Entered(e.name)), 0, true, k, fuel - 1, ds);
      }
    }
  }

  lemma {:induction false} SafeArgs(m: Meaning, args: Exprs, env: Env, marks: Marks, fuel: nat, ds: set<Declaration>)
    requires Fit(env, marks, CallsArgs(args), ds)
    ensures MarksArgs(m, args, env, marks, fuel).Some?
    ensures var r := EvalArgs(m, args, env, fuel); r.Done? ==> From(r.value, ds)
    decreases fuel, args
  {
    match args
    case NoArgs =>
    case Arg(e, rest) =>
      SafeExpr(m, e, env, marks, fuel, ds);
      var r := Eval(m, e, env, fuel);
      if r.Done? {
        SafeArgs(m, rest, r.value.0.Log(Passed(r.value.1)), MarksExpr(m, e, env, marks, fuel).value, fuel, ds);
      }
  }

  lemma {:induction false} SafeOption(m: Meaning, e: Option<Expr>, env: Env, marks: Marks, fuel: nat,
        ds: set<Declaration>)
    requires Fit(env, marks, CallsOption(e), ds)
    ensures MarksOption(m, e, env, marks, fuel).Some?
    ensures e.Some? ==> Unharmed(Some(marks), Eval(m, e.value, env, fuel), ds)
    decreases fuel, e
  {
    if e.Some? { SafeExpr(m, e.value, env, marks, fuel, ds); }
  }

  ghost predicate SafeText(st: Stmt, ds: set<Declaration>) { SafeLoops(st, ds) && Declarations(st) <= ds }

  /** A run of a safe text meets no function that a mark stops. */
  lemma {:induction false} SafeStmt(m: Meaning, st: Stmt, env: Env, depth: nat, inF: bool, marks: Marks, fuel: nat,
        ds: set<Declaration>)
    requires Fit(env, marks, Calls(st), ds) && SafeText(st, ds)
    ensures Unharmed(MarksStmt(m, st, env, depth, inF, marks, fuel), Exec(m, st, env, depth, inF, fuel), ds)
    decreases fuel, st, 2
  {
    match st
    case Nop =>
    case Seq(a, b) =>
      SafeStmt(m, a, env, depth, inF, marks, fuel, ds);
      var r := Exec(m, a, env, depth, inF, fuel);
      if r.Done? {
        SafeStmt(m, b, r.value.0, depth, inF, MarksStmt(m, a, env, depth, inF, marks, fuel).value, fuel, ds);
      }
    case Block(body) =>
      SafeStmt(m, body, env, depth, inF, marks, fuel, ds);
    case Do(e) =>
      SafeExpr(m, e, env, marks, fuel, ds);
    case If(c, thn, tail) =>
      SafeExpr(m, c, env, marks, fuel, ds);
      var r := Eval(m, c, env, fuel);
      if r.Done? {
        var k := MarksExpr(m, c, env, marks, fuel).value;
        SafeStmt(m, thn, r.value.0, depth, inF, k, fuel, ds);
        SafeTail(m, tail, r.value.0, depth, inF, k, fuel, ds);
      }
    case While(pos, _, _) =>
      SafeWhile(m, st, env, depth, inF, marks, fuel, ds);
    case DoWhile(_, _) =>
      SafeDoWhile(m, st, env, depth, inF, marks, fuel, ds);
    case For(_, _, _, _, _) =>
      SafePass(m, st, true, env, depth, inF, marks, fuel, ds);
    case Switch(_, subject, cases) =>
      SafeExpr(m, subject, env, marks, fuel, ds);
      var r := Eval(m, subject, env, fuel);
      if r.Done? {
        SafeSelect(m, cases, r.value.1, r.value.0, depth + 1, inF, MarksExpr(m, subject, env, marks, fuel).value,
                   fuel, ds);
      }
    case Break(levels) =>
      SafeOption(m, levels, env, marks, fuel, ds);
    case Continue(levels) =>
      SafeOption(m, levels, env, marks, fuel, ds);
    case Return(e) =>
      SafeOption(m, e, env, marks, fuel, ds);
    case Declare(_, _) =>
  }

  /** The loop's own mark may be set while its condition is evaluated, and then only. */
  lemma {:induction false} SafeWhile(m: Meaning, st: Stmt, env: Env, depth: nat, inF: bool, marks: Marks, fuel: nat,
        ds: set<Declaration>)
    requires st.While? && SafeText(st, ds)
    requires Fit(env, marks - {st.pos as int}, Calls(st), ds)
    ensures Unharmed(MarksWhile(m, st, env, depth, inF, marks, fuel), ExecWhile(m, st, env, depth, inF, fuel), ds)
    decreases fuel, st, 1
  {
    SafeExpr(m, st.cond, env, marks, fuel, ds);
    var r := Eval(m, st.cond, env, fuel);
    if r.Done? {
      var k := MarksExpr(m, st.cond, env, marks, fuel).value - {st.pos as int};
      SafeStmt(m, st.body, r.value.0, depth + 1, inF, k, fuel, ds);
      var r1 := Exec(m, st.body, r.value.0, depth + 1, inF, fuel);
      if r1.Done? && fuel > 0 {
        var k1 := MarksStmt(m, st.body, r.value.0, depth + 1, inF, k, fuel).value;
        SafeWhile(m, st, r1.value.0, depth, inF, k1 + {st.pos as int}, fuel - 1, ds);
      }
    }
  }

  lemma {:induction false} SafeDoWhile(m: Meaning, st: Stmt, env: Env, depth: nat, inF: bool, marks: Marks,
        fuel: nat, ds: set<Declaration>)
    requires st.DoWhile? && Fit(env, marks, Calls(st), ds) && SafeText(st, ds)
    ensures Unharmed(MarksDoWhile(m, st, env, depth, inF, marks, fuel), ExecDoWhile(m, st, env, depth, inF, fuel), ds)
    decreases fuel, st, 1
  {
    SafeStmt(m, st.body, env, depth + 1, inF, marks, fuel, ds);
    var r := Exec(m, st.body, env, depth + 1, inF, fuel);
    if r.Done? {
      var k := MarksStmt(m, st.body, env, depth + 1, inF, marks, fuel).value;
      SafeExpr(m, st.cond, r.value.0, k, fuel, ds);
      var r1 := Eval(m, st.cond, r.value.0, fuel);
      if r1.Done? && fuel > 0 {
        SafeDoWhile(m, st, r1.value.0, depth, inF, MarksExpr(m, st.cond, r.value.0, k, fuel).value, fuel - 1, ds);
      }
    }
  }

  lemma {:induction false} SafeHeader(m: Meaning, st: Stmt, first: bool, env: Env, marks: Marks, fuel: nat,
        ds: set<Declaration>)
    requires st.For? && Fit(env, marks, Calls(st), ds)
    ensures Unharmed(MarksHeader(m, st, first, env, marks, fuel), Header(m, st, first, env, fuel), ds)
    decreases fuel, st, 0
  {
    var part := if first then st.init else st.step;
    SafeExpr(m, part, env, marks, fuel, ds);
    var r := Eval(m, part, env, fuel);
    if r.Done? { SafeExpr(m, st.cond, r.value.0, MarksExpr(m, part, env, marks, fuel).value, fuel, ds); }
  }

  /** What a pass over a `for` and all that follow it make of the environment. */
  function Passes(m: Meaning, st: Stmt, first: bool, env: Env, depth: nat, inF: bool, fuel: nat): Result<(Env, Outcome)>
    requires st.For?
  {
    var (env1, v) :- Header(m, st, first, env, fuel);
    if IsTrue(m, v) then ExecForBody(m, st, env1, depth, inF, fuel) else Done((env1, Normal))
  }

  lemma {:induction false} SafePass(m: Meaning, st: Stmt, first: bool, env: Env, depth: nat, inF: bool, marks: Marks,
        fuel: nat, ds: set<Declaration>)
    requires st.For? && Fit(env, marks, Calls(st), ds) && SafeText(st, ds)
    ensures Unharmed(MarksPass(m, st, first, env, depth, inF, marks, fuel), Passes(m, st, first, env, depth, inF,
                     fuel), ds)
    decreases fuel, st, 1
  {
    SafeHeader(m, st, first, env, marks, fuel, ds);
    var r := Header(m, st, first, env, fuel);
    if r.Done? {
      SafeForBody(m, st, r.value.0, depth, inF, MarksHeader(m, st, first, env, marks, fuel).value, fuel, ds);
    }
  }

  lemma {:induction false} SafeForBody(m: Meaning, st: Stmt, env: Env, depth: nat, inF: bool, marks: Marks,
        fuel: nat, ds: set<Declaration>)
    requires st.For? && Fit(env, marks, Calls(st), ds) && SafeText(st, ds)
    ensures Unharmed(MarksForBody(m, st, env, depth, inF, marks, fuel), ExecForBody(m, st, env, depth, inF, fuel), ds)
    decreases fuel, st, 0
  {
    SafeStmt(m, st.body, env, depth + 1, inF, marks, fuel, ds);
    var r := Exec(m, st.body, env, depth + 1, inF, fuel);
    if r.Done? && fuel > 0 {
      var k := MarksStmt(m, st.body, env, depth + 1, inF, marks, fuel).value;
      SafePass(m, st, false, r.value.0, depth, inF, k, fuel - 1, ds);
      if Iterates(r.value.1) {
        assert ExecForBody(m, st, env, depth, inF, fuel) == Passes(m, st, false, r.value.0, depth, inF, fuel - 1);
      }
    }
  }

  lemma {:induction false} SafeTail(m: Meaning, t: IfTail, env: Env, depth: nat, inF: bool, marks: Marks, fuel: nat,
        ds: set<Declaration>)
    requires Fit(env, marks, TailCalls(t), ds) && TailSafe(t, ds) && TailDeclarations(t) <= ds
    ensures Unharmed(MarksTail(m, t, env, depth, inF, marks, fuel), ExecTail(m, t, env, depth, inF, fuel), ds)
    decreases fuel, t, 1
  {
    match t
    case EndIf =>
    case Else(body) =>
      SafeStmt(m, body, env, depth, inF, marks, fuel, ds);
    case ElseIf(c, body, rest) =>
      SafeExpr(m, c, env, marks, fuel, ds);
      var r := Eval(m, c, env, fuel);
      if r.Done? {
        var k := MarksExpr(m, c, env, marks, fuel).value;
        SafeStmt(m, body, r.value.0, depth, inF, k, fuel, ds);
        SafeTail(m, rest, r.value.0, depth, inF, k, fuel, ds);
      }
  }

  lemma {:induction false} SafeSelect(m: Meaning, cs: Cases, subject: Value, env: Env, depth: nat, inF: bool,
        marks: Marks, fuel: nat, ds: set<Declaration>)
    requires Fit(env, marks, CaseCalls(cs), ds) && CasesSafe(cs, ds) && CaseDeclarations(cs) <= ds
    ensures Unharmed(MarksSelect(m, cs, subject, env, depth, inF, marks, fuel),
                     Select(m, cs, subject, env, depth, inF, fuel), ds)
    decreases fuel, cs, 1
  {
    match cs
    case EndCases =>
    case Default(body) =>
      SafeStmt(m, body, env, depth, inF, marks, fuel, ds);
    case Case(key, _, rest) =>
      SafeExpr(m, key, env, marks, fuel, ds);
      var r := Eval(m, key, env, fuel);
      if r.Done? {
        var k := MarksExpr(m, key, env, marks, fuel).value;
        if m.equal(subject, r.value.1) {
          SafeMatched(m, cs, r.value.0, depth, inF, k, fuel, ds);
        } else {
          SafeSelect(m, rest, subject, r.value.0, depth, inF, k, fuel, ds);
        }
      }
  }

  lemma {:induction false} SafeMatched(m: Meaning, cs: Cases, env: Env, depth: nat, inF: bool, marks: Marks,
        fuel: nat, ds: set<Declaration>)
    requires cs.Case? && Fit(env, marks, CaseCalls(cs), ds) && CasesSafe(cs, ds) && CaseDeclarations(cs) <= ds
    ensures var r := Exec(m, cs.body, env, depth, inF, fuel);
      Unharmed(MarksMatched(m, cs, env, depth, inF, marks, fuel),
               if r.Done? && r.value.1.Normal? then FallThrough(m, cs.rest, r.value.0, depth, inF, fuel) else r, ds)
    decreases fuel, cs, 0
  {
    SafeStmt(m, cs.body, env, depth, inF, marks, fuel, ds);
    var r := Exec(m, cs.body, env, depth, inF, fuel);
    if r.Done? {
      var k := MarksStmt(m, cs.body, env, depth, inF, marks, fuel).value;
      SafeFallThrough(m, cs.rest, r.value.0, depth, inF, k, fuel, ds);
    }
  }

  lemma {:induction false} SafeFallThrough(m: Meaning, cs: Cases, env: Env, depth: nat, inF: bool, marks: Marks,
        fuel: nat, ds: set<Declaration>)
    requires Fit(env, marks, CaseCalls(cs), ds) && CasesSafe(cs, ds) && CaseDeclarations(cs) <= ds
    ensures Unharmed(MarksFallThrough(m, cs, env, depth, inF, marks, fuel),
                     FallThrough(m, cs, env, depth, inF, fuel), ds)
    decreases fuel, cs, 1
  {
    match cs
    case EndCases =>
    case Default(body) =>
      SafeStmt(m, body, env, depth, inF, marks, fuel, ds);
    case Case(key, _, _) =>
      SafeExpr(m, key, env, marks, fuel, ds);
      var r := Eval(m, key, env, fuel);
      if r.Done? { SafeMatched(m, cs, r.value.0, depth, inF, MarksExpr(m, key, env, marks, fuel).value, fuel, ds); }
  }
}
