/** Text walked while the gate is shut. */
module ControlSkipping {
  import opened Options
  import opened PhpSyntax
  import opened StructuredSemantics
  import opened ControlHooks
  import opened ParserDriver

  /** The invariant every hook keeps: the gate is right, and a pending break or continue is aimed
      at a loop that is open. */
  predicate Consistent(s: State) {
    && s.execute == ShouldExecute(s)
    && s.fs.loopNestLevel >= 0
    && (s.fs.changeType != DoNothing ==> 1 <= s.fs.changeLevel <= s.fs.loopNestLevel)
  }

  predicate Skipping(s: State) { Consistent(s) && !s.execute }

  /** None of these `for` loops is the one the top of the `for` stack stands for. */
  predicate Fresh(s: State, fors: set<int>) { IntTop(s.forStack) !in fors }

  /** The walk came to a marked `while` that ends its orderly course. */
  predicate MetMark<T>(r: Result<T>) { r.Halt? && (r.why == ContinuedWhileMet || r.why == WhileSwallowed) }

  predicate MetSwallowed<T>(r: Result<T>) { r.Halt? && r.why == WhileSwallowed }

  /** None of these `while` tokens is marked as continued. */
  predicate Clear(s: State, whiles: set<int>) { whiles !! s.continued }

  /** All of a text has been walked over, or the walk came to a marked `while` that stops it. */
  predicate Walked(s: State, r: Result<State>, fors: set<int>, stops: set<int>, tidy: bool) {
    if Clear(s, stops) then r == Done(Swap(s, fors)) else MetMark(r) && !(tidy && MetSwallowed(r))
  }

  function Swap(s: State, fors: set<int>): State { s.(switched := s.switched + fors) }

  /** Skipped expressions change nothing. */
  lemma {:induction false} SkipExpr(m: Meaning, e: Expr, s: State, fuel: nat)
    requires Skipping(s)
    ensures DriveExpr(m, e, s, fuel).Done? && DriveExpr(m, e, s, fuel).value.0 == s
    decreases e
  {
    match e
    case Empty =>
    case Atom(_) =>
    case Op(_, operands) =>
      SkipArgs(m, operands, s, fuel);
    case Or(a, b) =>
      SkipExpr(m, a, s, fuel);
      SkipExpr(m, b, PushFlag(s), fuel);
    case And(a, b) =>
      SkipExpr(m, a, s, fuel);
      SkipExpr(m, b, PushFlag(s), fuel);
    case Ternary(c, a, b) =>
      SkipExpr(m, c, s, fuel);
      SkipExpr(m, a, PushFlag(s), fuel);
      SkipExpr(m, b, PushFlag(s), fuel);
    case Call(_, args) =>
      SkipArgs(m, args, s, fuel);
  }

  lemma {:induction false} SkipArgs(m: Meaning, args: Exprs, s: State, fuel: nat)
    requires Skipping(s)
    ensures DriveArgs(m, args, s, fuel) == Done(s)
    decreases args
  {
    match args
    case NoArgs =>
    case Arg(e, rest) =>
      SkipExpr(m, e, s, fuel);
      SkipArgs(m, rest, s, fuel);
  }

  lemma {:induction false} SkipOption(m: Meaning, e: Option<Expr>, s: State, fuel: nat)
    requires Skipping(s)
    ensures DriveOption(m, e, s, fuel).Done? && DriveOption(m, e, s, fuel).value.0 == s
  {
    if e.Some? { SkipExpr(m, e.value, s, fuel); }
  }

  lemma {:induction false} SwapNothing(s: State)
    ensures Swap(s, {}) == s
  {
    assert s.switched + {} == s.switched;
  }

  /** Walking over any statement with the gate shut leaves the machine as it was, except that the
      `for` headers in the text are now exchanged, unless a mark stops it; in a tidy text a mark that
      does is one that no rule of the grammar can take.  In particular no loop or switch first met
      while skipping consumes the pending break or continue. */
  lemma {:induction false} SkipStmt(m: Meaning, st: Stmt, at: Place, s: State, fuel: nat)
    requires Skipping(s) && Nested(st) && Fresh(s, Fors(st))
    ensures Walked(s, Drive(m, st, at, s, fuel), Fors(st), Stops(st, at), Tidy(st, at))
    decreases st, 1
  {
    match st
    case Nop =>
      SwapNothing(s);
    case Seq(a, b) =>
      SkipStmt(m, a, FirstPlace(at, b), s, fuel);
      SkipStmt(m, b, SecondPlace(a, at), Swap(s, Fors(a)), fuel);
      assert s.switched + Fors(a) + Fors(b) == s.switched + Fors(st);
    case Block(body) =>
      SkipStmt(m, body, BRACED, s, fuel);
    case Do(e) =>
      SwapNothing(s);
      SkipExpr(m, e, s, fuel);
    case If(_, _, _) =>
      SkipIf(m, st, at, s, fuel);
    case While(_, _, _) =>
      if st.pos !in s.continued || at.after { SkipWhile(m, st, at, s, fuel); }
    case DoWhile(_, _) =>
      SkipDoWhile(m, st, s, fuel);
    case For(_, _, _, _, _) =>
      SkipFor(m, st, at, s, fuel);
    case Switch(_, _, _) =>
      SkipSwitch(m, st, s, fuel);
    case Break(levels) =>
      SwapNothing(s);
      SkipOption(m, levels, s, fuel);
    case Continue(levels) =>
      SwapNothing(s);
      SkipOption(m, levels, s, fuel);
    case Return(e) =>
      SwapNothing(s);
      SkipOption(m, e, s, fuel);
    case Declare(_, body) =>
      SkipStmt(m, body, BRACED, StartDeclaration(s), fuel);
  }

  lemma {:induction false} SkipIf(m: Meaning, st: Stmt, at: Place, s: State, fuel: nat)
    requires st.If?
    requires Skipping(s) && Nested(st) && Fresh(s, Fors(st))
    ensures Walked(s, DriveIf(m, st, at, s, fuel), Fors(st), Stops(st, at), Tidy(st, at))
    decreases st, 0
  {
    SkipExpr(m, st.cond, s, fuel);
    var s1 := PushFlag(s).(executeFlag := DONT_EXECUTE);
    SkipStmt(m, st.thn, BranchPlace(st.tail, at), s1, fuel);
    SkipTail(m, st.tail, at, Swap(s1, Fors(st.thn)), fuel);
    assert s.switched + Fors(st.thn) + TailFors(st.tail) == s.switched + Fors(st);
  }

  lemma {:induction false} SkipWhile(m: Meaning, st: Stmt, at: Place, s: State, fuel: nat)
    requires st.While?
    requires Skipping(s) && Nested(st) && Fresh(s, Fors(st))
    ensures Walked(s, DriveWhile(m, st, at, s, fuel), Fors(st), Stops(st.body, BodyPlace(at)), Tidy(st.body,
                   BodyPlace(at)))
    decreases st, 0
  {
    SkipExpr(m, st.cond, s, fuel);
    SkipStmt(m, st.body, BodyPlace(at), EnterLoop(s), fuel);
  }

  lemma {:induction false} SkipDoWhile(m: Meaning, st: Stmt, s: State, fuel: nat)
    requires st.DoWhile?
    requires Skipping(s) && Nested(st) && Fresh(s, Fors(st))
    ensures Walked(s, DriveDoWhile(m, st, s, fuel), Fors(st), Stops(st, BRACED), Tidy(st, BRACED))
    decreases st, 0
  {
    SkipStmt(m, st.body, BRACED, EnterLoop(s), fuel);
    SkipExpr(m, st.cond, Swap(EnterLoop(s), Fors(st.body)), fuel);
  }

  lemma {:induction false} SkipSwitch(m: Meaning, st: Stmt, s: State, fuel: nat)
    requires st.Switch?
    requires Skipping(s) && Nested(st) && Fresh(s, Fors(st))
    ensures Walked(s, DriveSwitch(m, st, s, fuel), Fors(st), Stops(st, BRACED), Tidy(st, BRACED))
    decreases st, 0
  {
    SkipExpr(m, st.subject, s, fuel);
    var v := DriveExpr(m, st.subject, s, fuel).value.1;
    SkipCases(m, st.cases, SwitchStart(s, st.pos, v), fuel);
  }

  /** The header hooks of a skipped `for` enter the loop and restore the flag they change. */
  lemma {:induction false} SkippedForHeader(m: Meaning, s: State, pos: nat, v: Value, w: Value)
    requires Skipping(s) && IntTop(s.forStack) != pos
    ensures var isSwitched := pos in s.switched;
            var s1 := EnterLoop(s);
            && Skipping(s1) && s1.forStack == s.forStack && s1.switched == s.switched
            && ForPreExpr1(s, pos) == s1
            && Skipping(ForPreExpr2(s1, pos, isSwitched))
            && ForPreExpr3(ForPreExpr2(s1, pos, isSwitched), isSwitched) == s1
            && ForPreStatement(m, s1, isSwitched, v, w) == s1
  {
  }

  /** The entry a skipped `for` pushes on the `for` stack is popped again at once. */
  lemma {:induction false} SkippedForEnd(s: State, pos: nat, inner: set<int>)
    requires Skipping(s) && IntTop(s.forStack) != pos && pos !in inner
    ensures ForPostStatement(Swap(EnterLoop(s), inner), pos, pos in s.switched)
         == Done((Swap(s, {pos as int} + inner), false))
  {
    assert s.switched + inner + {pos as int} == s.switched + ({pos as int} + inner);
    if pos in s.switched {
      assert s.switched + inner == s.switched + ({pos as int} + inner);
    }
    assert !ChangeIsHere(EnterLoop(s));
  }

  lemma {:induction false} SkipFor(m: Meaning, st: Stmt, at: Place, s: State, fuel: nat)
    requires st.For?
    requires Skipping(s) && Nested(st) && Fresh(s, Fors(st))
    ensures Walked(s, DriveFor(m, st, at, s, fuel), Fors(st), Stops(st, at), Tidy(st, at))
    decreases st, 0
  {
    var isSwitched := st.pos in s.switched;
    var s1 := EnterLoop(s);
    var second := SecondPart(st, isSwitched);
    var third := ThirdPart(st, isSwitched);
    SkippedForHeader(m, s, st.pos, Null, Null);
    var s2 := ForPreExpr2(s1, st.pos, isSwitched);
    SkipExpr(m, st.init, s1, fuel);
    SkipExpr(m, second, s2, fuel);
    SkipExpr(m, third, s1, fuel);
    var v, w := DriveExpr(m, second, s2, fuel).value.1, DriveExpr(m, third, s1, fuel).value.1;
    SkippedForHeader(m, s, st.pos, v, w);
    assert DriveForHeader(m, st, s, fuel) == Done(s1);
    SkipStmt(m, st.body, BodyPlace(at), s1, fuel);
    SkippedForEnd(s, st.pos, Fors(st.body));
  }

  /** A chain with no branch left to take: its branch flag is EXECUTE or DONT_EXECUTE. */
  lemma {:induction false} SkipTail(m: Meaning, t: IfTail, at: Place, s: State, fuel: nat)
    requires Skipping(s) && s.executeFlag == DONT_EXECUTE && TailNested(t) && Fresh(s, TailFors(t))
    ensures Walked(s, DriveTail(m, t, at, s, fuel), TailFors(t), TailStops(t, at), TailTidy(t, at))
    decreases t
  {
    match t
    case EndIf =>
      SwapNothing(s);
    case Else(body) =>
      SkipStmt(m, body, BodyPlace(at), s, fuel);
    case ElseIf(c, body, rest) =>
      SkipExpr(m, c, PushFlag(s), fuel);
      SkipStmt(m, body, BranchPlace(rest, at), s, fuel);
      SkipTail(m, rest, at, Swap(s, Fors(body)), fuel);
      assert s.switched + Fors(body) + TailFors(rest) == s.switched + TailFors(t);
  }

  /** Cases walked while skipping, in a switch whose flag is the one to restore. */
  lemma {:induction false} SkipCases(m: Meaning, cs: Cases, s: State, fuel: nat)
    requires Skipping(s) && s.executeFlag == IntTop(s.css) && |s.switchStack| > 0
    requires CasesNested(cs) && Fresh(s, CaseFors(cs))
    ensures Walked(s, DriveCases(m, cs, s, fuel), CaseFors(cs), CaseStops(cs), CasesTidy(cs))
    decreases cs
  {
    match cs
    case EndCases =>
      SwapNothing(s);
    case Default(body) =>
      SkipStmt(m, body, BRACED, s, fuel);
    case Case(key, body, rest) =>
      SkipExpr(m, key, s, fuel);
      SkipStmt(m, body, BRACED, s, fuel);
      SkipCases(m, rest, Swap(s, Fors(body)), fuel);
      assert s.switched + Fors(body) + CaseFors(rest) == s.switched + CaseFors(cs);
  }
}
