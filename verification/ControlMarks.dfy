/** The marks on `while` tokens, in terms of the structured semantics alone.

    The mark of a `while` is set while its condition is evaluated again and removed afterwards.
    The functions below follow a run of the structured semantics with the set of marks, and give
    None when the run calls a function whose text holds a marked `while` at a place where the mark
    stops the parser. */
module ControlMarks {
  import opened Options
  import opened PhpSyntax
  import opened StructuredSemantics

  type Marks = set<int>

  function MarksExpr(m: Meaning, e: Expr, env: Env, marks: Marks, fuel: nat): (r: Option<Marks>)
    ensures r.Some? ==> r.value <= marks
    decreases fuel, e
  {
    match e
    case Empty => Some(marks)
    case Atom(_) => Some(marks)
    case Op(_, operands) => MarksArgs(m, operands, env, marks, fuel)
    case Or(a, b) =>
      var k :- MarksExpr(m, a, env, marks, fuel);
      var r := Eval(m, a, env, fuel);
      if r.Done? && !IsTrue(m, r.value.1) then MarksExpr(m, b, r.value.0, k, fuel) else Some(k)
    case And(a, b) =>
      var k :- MarksExpr(m, a, env, marks, fuel);
      var r := Eval(m, a, env, fuel);
      if r.Done? && IsTrue(m, r.value.1) then MarksExpr(m, b, r.value.0, k, fuel) else Some(k)
    case Ternary(c, a, b) =>
      var k :- MarksExpr(m, c, env, marks, fuel);
      var r := Eval(m, c, env, fuel);
      if r.Done? then MarksExpr(m, if IsTrue(m, r.value.1) then a else b, r.value.0, k, fuel) else Some(k)
    case Call(name, args) =>
      if name !in env.functions then Some(marks)
      else
        var k :- MarksArgs(m, args, env, marks, fuel);
        var r := EvalArgs(m, args, env, fuel);
        if !r.Done? || fuel == 0 then Some(k)
        else MarksBody(m, env.functions[name], r.value.Log(Entered(name)), k, fuel - 1)
  }

  /** A call: the whole text of the callee is walked over, so any stop in it that is marked counts. */
  function MarksBody(m: Meaning, body: Stmt, env: Env, marks: Marks, fuel: nat): (r: Option<Marks>)
    ensures r.Some? ==> r.value <= marks
    decreases fuel, body, 3
  {
    if Stops(body, BRACED) !! marks then MarksStmt(m, body, env, 0, true, marks, fuel) else None
  }

  function MarksArgs(m: Meaning, args: Exprs, env: Env, marks: Marks, fuel: nat): (r: Option<Marks>)
    ensures r.Some? ==> r.value <= marks
    decreases fuel, args
  {
    match args
    case NoArgs => Some(marks)
    case Arg(e, rest) =>
      var k :- MarksExpr(m, e, env, marks, fuel);
      var r := Eval(m, e, env, fuel);
      if r.Done? then MarksArgs(m, rest, r.value.0.Log(Passed(r.value.1)), k, fuel) else Some(k)
  }

  function MarksOption(m: Meaning, e: Option<Expr>, env: Env, marks: Marks, fuel: nat): (r: Option<Marks>)
    ensures r.Some? ==> r.value <= marks
    decreases fuel, e
  {
    match e
    case None => Some(marks)
    case Some(e) => MarksExpr(m, e, env, marks, fuel)
  }

  function MarksStmt(m: Meaning, st: Stmt, env: Env, depth: nat, inF: bool, marks: Marks, fuel: nat): (r: Option<Marks>)
    ensures r.Some? ==> r.value <= marks
    decreases fuel, st, 2
  {
    match st
    case Nop => Some(marks)
    case Seq(a, b) =>
      var k :- MarksStmt(m, a, env, depth, inF, marks, fuel);
      var r := Exec(m, a, env, depth, inF, fuel);
      if r.Done? && r.value.1.Normal? then MarksStmt(m, b, r.value.0, depth, inF, k, fuel) else Some(k)
    case Block(body) => MarksStmt(m, body, env, depth, inF, marks, fuel)
    case Do(e) => MarksExpr(m, e, env, marks, fuel)
    case If(c, thn, tail) =>
      var k :- MarksExpr(m, c, env, marks, fuel);
      var r := Eval(m, c, env, fuel);
      if !r.Done? then Some(k)
      else if IsTrue(m, r.value.1) then MarksStmt(m, thn, r.value.0, depth, inF, k, fuel)
      else MarksTail(m, tail, r.value.0, depth, inF, k, fuel)
    case While(_, _, _) => MarksWhile(m, st, env, depth, inF, marks, fuel)
    case DoWhile(_, _) => MarksDoWhile(m, st, env, depth, inF, marks, fuel)
    case For(_, _, _, _, _) => MarksPass(m, st, true, env, depth, inF, marks, fuel)
    case Switch(_, subject, cases) =>
      var k :- MarksExpr(m, subject, env, marks, fuel);
      var r := Eval(m, subject, env, fuel);
      if r.Done? then MarksSelect(m, cases, r.value.1, r.value.0, depth + 1, inF, k, fuel) else Some(k)
    case Break(levels) => MarksOption(m, levels, env, marks, fuel)
    case Continue(levels) => MarksOption(m, levels, env, marks, fuel)
    case Return(e) => MarksOption(m, e, env, marks, fuel)
    case Declare(_, _) => Some(marks)
  }

  /** The mark, if set, goes when the condition has been evaluated; each further pass sets it. */
  function MarksWhile(m: Meaning, st: Stmt, env: Env, depth: nat, inF: bool, marks: Marks, fuel: nat)
    : (r: Option<Marks>)
    requires st.While?
    ensures r.Some? ==> r.value <= marks - {st.pos as int}
    decreases fuel, st, 1
  {
    var before :- MarksExpr(m, st.cond, env, marks, fuel);
    var k := before - {st.pos as int};
    var r := Eval(m, st.cond, env, fuel);
    if !r.Done? || !IsTrue(m, r.value.1) then Some(k)
    else
      var k1 :- MarksStmt(m, st.body, r.value.0, depth + 1, inF, k, fuel);
      var r1 := Exec(m, st.body, r.value.0, depth + 1, inF, fuel);
      if !r1.Done? || !Iterates(r1.value.1) || fuel == 0 then Some(k1)
      else MarksWhile(m, st, r1.value.0, depth, inF, k1 + {st.pos as int}, fuel - 1)
  }

  function MarksDoWhile(m: Meaning, st: Stmt, env: Env, depth: nat, inF: bool, marks: Marks, fuel: nat)
    : (r: Option<Marks>)
    requires st.DoWhile?
    ensures r.Some? ==> r.value <= marks
    decreases fuel, st, 1
  {
    var k :- MarksStmt(m, st.body, env, depth + 1, inF, marks, fuel);
    var r := Exec(m, st.body, env, depth + 1, inF, fuel);
    if !r.Done? || !Iterates(r.value.1) then Some(k)
    else
      var k1 :- MarksExpr(m, st.cond, r.value.0, k, fuel);
      var r1 := Eval(m, st.cond, r.value.0, fuel);
      if !r1.Done? || !IsTrue(m, r1.value.1) || fuel == 0 then Some(k1)
      else MarksDoWhile(m, st, r1.value.0, depth, inF, k1, fuel - 1)
  }

  function MarksHeader(m: Meaning, st: Stmt, first: bool, env: Env, marks: Marks, fuel: nat): (r: Option<Marks>)
    requires st.For?
    ensures r.Some? ==> r.value <= marks
    decreases fuel, st, 0
  {
    var part := if first then st.init else st.step;
    var k :- MarksExpr(m, part, env, marks, fuel);
    var r := Eval(m, part, env, fuel);
    if r.Done? then MarksExpr(m, st.cond, r.value.0, k, fuel) else Some(k)
  }

  function MarksPass(m: Meaning, st: Stmt, first: bool, env: Env, depth: nat, inF: bool, marks: Marks, fuel: nat)
    : (r: Option<Marks>)
    requires st.For?
    ensures r.Some? ==> r.value <= marks
    decreases fuel, st, 1
  {
    var k :- MarksHeader(m, st, first, env, marks, fuel);
    var r := Header(m, st, first, env, fuel);
    if r.Done? && IsTrue(m, r.value.1) then MarksForBody(m, st, r.value.0, depth, inF, k, fuel) else Some(k)
  }

  function MarksForBody(m: Meaning, st: Stmt, env: Env, depth: nat, inF: bool, marks: Marks, fuel: nat)
    : (r: Option<Marks>)
    requires st.For?
    ensures r.Some? ==> r.value <= marks
    decreases fuel, st, 0
  {
    var k :- MarksStmt(m, st.body, env, depth + 1, inF, marks, fuel);
    var r := Exec(m, st.body, env, depth + 1, inF, fuel);
    if !r.Done? || !Iterates(r.value.1) || fuel == 0 then Some(k)
    else MarksPass(m, st, false, r.value.0, depth, inF, k, fuel - 1)
  }

  function MarksTail(m: Meaning, t: IfTail, env: Env, depth: nat, inF: bool, marks: Marks, fuel: nat)
    : (r: Option<Marks>)
    ensures r.Some? ==> r.value <= marks
    decreases fuel, t, 1
  {
    match t
    case EndIf => Some(marks)
    case Else(body) => MarksStmt(m, body, env, depth, inF, marks, fuel)
    case ElseIf(c, body, rest) =>
      var k :- MarksExpr(m, c, env, marks, fuel);
      var r := Eval(m, c, env, fuel);
      if !r.Done? then Some(k)
      else if IsTrue(m, r.value.1) then MarksStmt(m, body, r.value.0, depth, inF, k, fuel)
      else MarksTail(m, rest, r.value.0, depth, inF, k, fuel)
  }

  function MarksSelect(m: Meaning, cs: Cases, subject: Value, env: Env, depth: nat, inF: bool, marks: Marks, fuel: nat)
    : (r: Option<Marks>)
    ensures r.Some? ==> r.value <= marks
    decreases fuel, cs, 1
  {
    match cs
    case EndCases => Some(marks)
    case Default(body) => MarksStmt(m, body, env, depth, inF, marks, fuel)
    case Case(key, body, rest) =>
      var k :- MarksExpr(m, key, env, marks, fuel);
      var r := Eval(m, key, env, fuel);
      if !r.Done? then Some(k)
      else if m.equal(subject, r.value.1) then MarksMatched(m, cs, r.value.0, depth, inF, k, fuel)
      else MarksSelect(m, rest, subject, r.value.0, depth, inF, k, fuel)
  }

  /** A case body that runs, and the cases after it. */
  function MarksMatched(m: Meaning, cs: Cases, env: Env, depth: nat, inF: bool, marks: Marks, fuel: nat)
    : (r: Option<Marks>)
    requires cs.Case?
    ensures r.Some? ==> r.value <= marks
    decreases fuel, cs, 0
  {
    var k :- MarksStmt(m, cs.body, env, depth, inF, marks, fuel);
    var r := Exec(m, cs.body, env, depth, inF, fuel);
    if r.Done? && r.value.1.Normal? then MarksFallThrough(m, cs.rest, r.value.0, depth, inF, k, fuel) else Some(k)
  }

  function MarksFallThrough(m: Meaning, cs: Cases, env: Env, depth: nat, inF: bool, marks: Marks, fuel: nat)
    : (r: Option<Marks>)
    ensures r.Some? ==> r.value <= marks
    decreases fuel, cs, 1
  {
    match cs
    case EndCases => Some(marks)
    case Default(body) => MarksStmt(m, body, env, depth, inF, marks, fuel)
    case Case(key, body, rest) =>
      var k :- MarksExpr(m, key, env, marks, fuel);
      var r := Eval(m, key, env, fuel);
      if r.Done? then MarksMatched(m, cs, r.value.0, depth, inF, k, fuel) else Some(k)
  }
}
