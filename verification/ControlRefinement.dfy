/** The flag machine implements the structured semantics. */
module ControlRefinement {
  import opened Options
  import opened PhpSyntax
  import opened StructuredSemantics
  import opened ControlHooks
  import opened ParserDriver
  import opened ControlSkipping

  /** Every `for` in the body of a declared function has had its header exchanged: the parser
      walked over the body when it met the declaration. */
  predicate Ready(functions: map<string, Stmt>, switched: set<int>) {
    forall f <- functions :: Nested(functions[f]) && Fors(functions[f]) <= switched
  }

  predicate Running(s: State) {
    Consistent(s) && s.execute && Ready(s.env.functions, s.switched)
  }

  /** Evaluating an expression with the gate open changes the environment and the return value
      register and nothing else, except that a call may remove marks: the callee has then run the
      marked `while` as an iteration of the one before it. */
  predicate ExprMatches(s: State, r: Result<(State, Value)>, ref: Result<(Env, Value)>) {
    || MetMark(r)
    || match ref
       case Timeout => r.Timeout?
       case Halt(why, trace) => r == Halt(why, trace)
       case Done((env, v)) =>
         && r.Done? && r.value.1 == v
         && r.value.0 == s.(env := env, returnValue := r.value.0.returnValue, continued := r.value.0.continued)
         && r.value.0.continued <= s.continued
         && Ready(env.functions, s.switched)
  }

  predicate ArgsMatch(s: State, r: Result<State>, ref: Result<Env>) {
    || MetMark(r)
    || match ref
       case Timeout => r.Timeout?
       case Halt(why, trace) => r == Halt(why, trace)
       case Done(env) =>
         && r.Done?
         && r.value == s.(env := env, returnValue := r.value.returnValue, continued := r.value.continued)
         && r.value.continued <= s.continued
         && Ready(env.functions, s.switched)
  }

  /** What a statement with outcome `out` leaves of the state `s` it started in: all stacks and the
      nesting level are as before, no mark is added, the `for` headers in its text are exchanged,
      and flag, gate and change registers encode the outcome. */
  predicate Encodes(s: State, t: State, env: Env, out: Outcome, fors: set<int>) {
    && t.css == s.css && t.forStack == s.forStack && t.switchStack == s.switchStack && t.fsStack == s.fsStack
    && t.fs.loopNestLevel == s.fs.loopNestLevel && t.fs.functionName == s.fs.functionName
    && t.continued <= s.continued
    && t.switched == s.switched + fors
    && t.env == env && Ready(env.functions, t.switched)
    && Consistent(t)
    && match out
       case Normal => t.execute
       case Broke(k) => !t.execute && Pending(t, DoBreak, k)
       case Continued(k) => !t.execute && Pending(t, DoContinue, k)
       case Returned(v) =>
         && !t.execute && t.fs.returned && t.fs.changeType == DoNothing && t.returnValue == v
         && (t.executeFlag == EXECUTE || t.executeFlag == DONT_EXECUTE)
  }

  predicate Pending(t: State, op: Change, levels: int) {
    && t.executeFlag == EXECUTE && !t.fs.returned
    && t.fs.changeType == op && t.fs.changeLevel == t.fs.loopNestLevel - levels + 1
  }

  predicate StmtMatches(s: State, r: Result<State>, ref: Result<(Env, Outcome)>, fors: set<int>) {
    || MetMark(r)
    || match ref
       case Timeout => r.Timeout?
       case Halt(why, trace) => r == Halt(why, trace)
       case Done((env, out)) => r.Done? && Encodes(s, r.value, env, out, fors)
  }

  function InFunction(s: State): bool { s.fs.functionName.Some? }

  // Expressions

  lemma {:induction false} RefineExpr(m: Meaning, e: Expr, s: State, fuel: nat)
    requires Running(s)
    ensures ExprMatches(s, DriveExpr(m, e, s, fuel), Eval(m, e, s.env, fuel))
    decreases fuel, e, 1
  {
    match e
    case Empty =>
    case Atom(_) =>
    case Op(_, operands) =>
      RefineArgs(m, operands, s, fuel);
    case Or(a, b) =>
      RefineExpr(m, a, s, fuel);
      var r := DriveExpr(m, a, s, fuel);
      if r.Done? {
        var (s1, v) := r.value;
        if IsTrue(m, v) { SkipExpr(m, b, PreOr(m, s1, v), fuel); } else { RefineExpr(m, b, PushFlag(s1), fuel); }
      }
    case And(a, b) =>
      RefineExpr(m, a, s, fuel);
      var r := DriveExpr(m, a, s, fuel);
      if r.Done? {
        var (s1, v) := r.value;
        if IsTrue(m, v) { RefineExpr(m, b, PushFlag(s1), fuel); } else { SkipExpr(m, b, PreAnd(m, s1, v), fuel); }
      }
    case Ternary(_, _, _) =>
      RefineTernary(m, e, s, fuel);
    case Call(_, _) =>
      RefineCall(m, e, s, fuel);
  }

  lemma {:induction false} RefineTernary(m: Meaning, e: Expr, s: State, fuel: nat)
    requires Running(s) && e.Ternary?
    ensures ExprMatches(s, DriveExpr(m, e, s, fuel), Eval(m, e, s.env, fuel))
    decreases fuel, e, 0
  {
    RefineExpr(m, e.test, s, fuel);
    var r := DriveExpr(m, e.test, s, fuel);
    if r.Done? {
      var (s1, v) := r.value;
      if IsTrue(m, v) {
        RefineExpr(m, e.yes, PushFlag(s1), fuel);
        var r2 := DriveExpr(m, e.yes, PushFlag(s1), fuel);
        if r2.Done? { SkipExpr(m, e.no, PreNo(m, r2.value.0, v), fuel); }
      } else {
        SkipExpr(m, e.yes, PreYes(m, s1, v), fuel);
        RefineExpr(m, e.no, PushFlag(s1), fuel);
      }
    }
  }

  /** The return from a call: the marker ends the unwinding, and the caller gets back what it had. */
  lemma {:induction false} ReturnFromCall(s: State, name: string, called: State, t: State, env: Env, out: Outcome,
        fors: set<int>)
    requires Running(s) && fors <= s.switched && Ready(called.env.functions, s.switched)
    requires called == s.(env := called.env, returnValue := called.returnValue, continued := called.continued,
      forStack := Push(s.forStack, -1), fsStack := Push(s.fsStack, s.fs), fs := s.fs.(functionName := Some(name)))
    requires called.continued <= s.continued && Encodes(PostVariablePassing(called, name), t, env, out, fors)
    ensures |t.fsStack| > 0
    ensures var result := if out.Returned? then out.value else Null;
      && FunctioncallEnd(t).1 == result
      && FunctioncallEnd(t).0
         == s.(env := env.Log(Left(result)), returnValue := t.returnValue, continued := t.continued)
  {
    assert s.switched + fors == s.switched;
    assert UnwindFors(t.forStack) == s.forStack;
  }

  /** Call isolation: whatever the callee does, a call that returns gives the caller back its
      stacks, its function state, its flag and its gate; the -1 marker ends the unwinding. */
  lemma {:induction false} RefineCall(m: Meaning, e: Expr, s: State, fuel: nat)
    requires Running(s) && e.Call?
    ensures ExprMatches(s, DriveExpr(m, e, s, fuel), Eval(m, e, s.env, fuel))
    decreases fuel, e, 0
  {
    if e.name in s.env.functions {
      var body := s.env.functions[e.name];
      var s1 := PreVariablePassing(s, e.name).value.0;
      RefineArgs(m, e.args, s1, fuel);
      var r := DriveArgs(m, e.args, s1, fuel);
      if r.Done? && fuel > 0 {
        var s2 := r.value;
        var s3 := PostVariablePassing(s2, e.name);
        RefineStmt(m, body, BRACED, s3, fuel - 1);
        var r3 := Drive(m, body, BRACED, s3, fuel - 1);
        if r3.Done? {
          var ref := Exec(m, body, s3.env, 0, true, fuel - 1);
          ReturnFromCall(s, e.name, s2, r3.value, ref.value.0, ref.value.1, Fors(body));
        }
      }
    }
  }

  lemma {:induction false} RefineArgs(m: Meaning, args: Exprs, s: State, fuel: nat)
    requires Running(s)
    ensures ArgsMatch(s, DriveArgs(m, args, s, fuel), EvalArgs(m, args, s.env, fuel))
    decreases fuel, args, 0
  {
    match args
    case NoArgs =>
    case Arg(e, rest) =>
      RefineExpr(m, e, s, fuel);
      var r := DriveExpr(m, e, s, fuel);
      if r.Done? {
        RefineArgs(m, rest, PassParameter(r.value.0, r.value.1), fuel);
      }
  }

  // Statements

  /** The main result.  From any consistent state with the gate open, walking over a statement
      gives the trace and the outcome of the structured semantics, unless a statement is met
      whose `while` token is still marked as continued. */
  lemma {:induction false} RefineStmt(m: Meaning, st: Stmt, at: Place, s: State, fuel: nat)
    requires Running(s) && Nested(st) && Fresh(s, Fors(st))
    ensures StmtMatches(s, Drive(m, st, at, s, fuel),
                        Exec(m, st, s.env, s.fs.loopNestLevel, InFunction(s), fuel), Fors(st))
    decreases fuel, st, 5
  {
    match st
    case Nop =>
      SwapNothing(s);
    case Seq(a, b) =>
      RefineSeq(m, st, at, s, fuel);
    case Block(body) =>
      RefineStmt(m, body, BRACED, s, fuel);
    case Do(e) =>
      SwapNothing(s);
      RefineExpr(m, e, s, fuel);
    case If(_, _, _) =>
      RefineIf(m, st, at, s, fuel);
    case While(_, _, _) =>
      RefineWhileStatement(m, st, at, s, fuel);
    case DoWhile(_, _) =>
      RefineDoWhile(m, st, s, fuel);
    case For(_, _, _, _, _) =>
      RefineFor(m, st, at, s, s.forStack, fuel);
    case Switch(_, _, _) =>
      RefineSwitch(m, st, s, fuel);
    case Break(levels) =>
      SwapNothing(s);
      RefineJump(m, st, at, s, fuel);
    case Continue(levels) =>
      SwapNothing(s);
      RefineJump(m, st, at, s, fuel);
    case Return(e) =>
      SwapNothing(s);
      if e.Some? { RefineExpr(m, e.value, s, fuel); }
    case Declare(_, _) =>
      RefineDeclare(m, st, at, s, fuel);
  }

  lemma {:induction false} RefineSeq(m: Meaning, st: Stmt, at: Place, s: State, fuel: nat)
    requires Running(s) && Nested(st) && Fresh(s, Fors(st)) && st.Seq?
    ensures StmtMatches(s, Drive(m, st, at, s, fuel),
                        Exec(m, st, s.env, s.fs.loopNestLevel, InFunction(s), fuel), Fors(st))
    decreases fuel, st, 3
  {
    var first, second := FirstPlace(at, st.second), SecondPlace(st.first, at);
    RefineStmt(m, st.first, first, s, fuel);
    var r := Drive(m, st.first, first, s, fuel);
    if r.Done? {
      var s1 := r.value;
      assert s.switched + Fors(st.first) + Fors(st.second) == s.switched + Fors(st);
      if s1.execute { RefineStmt(m, st.second, second, s1, fuel); } else { SkipStmt(m, st.second, second, s1, fuel); }
    }
  }

  /** A `while`, marked or not, and the look at the token behind it. */
  lemma {:induction false} RefineWhileStatement(m: Meaning, st: Stmt, at: Place, s: State, fuel: nat)
    requires Running(s) && Nested(st) && Fresh(s, Fors(st)) && st.While?
    ensures StmtMatches(s, Drive(m, st, at, s, fuel),
                        Exec(m, st, s.env, s.fs.loopNestLevel, InFunction(s), fuel), Fors(st))
    decreases fuel, st, 3
  {
    RefineWhile(m, st, at, s, fuel);
    Reframe(s, s.(continued := s.continued - {st.pos as int}), DriveWhile(m, st, at, s, fuel),
            ExecWhile(m, st, s.env, s.fs.loopNestLevel, InFunction(s), fuel), {}, Fors(st));
  }

  lemma {:induction false} RefineJump(m: Meaning, st: Stmt, at: Place, s: State, fuel: nat)
    requires Running(s) && (st.Break? || st.Continue?)
    ensures StmtMatches(s, Drive(m, st, at, s, fuel),
                        Exec(m, st, s.env, s.fs.loopNestLevel, InFunction(s), fuel), {})
    decreases fuel, st, 3
  {
    SwapNothing(s);
    if st.levels.Some? { RefineExpr(m, st.levels.value, s, fuel); }
  }

  /** Declaring a function walks over its body with the gate shut, which exchanges its `for`
      headers: that is why a later call finds them exchanged. */
  lemma {:induction false} RefineDeclare(m: Meaning, st: Stmt, at: Place, s: State, fuel: nat)
    requires Running(s) && Nested(st) && Fresh(s, Fors(st)) && st.Declare?
    ensures StmtMatches(s, Drive(m, st, at, s, fuel),
                        Exec(m, st, s.env, s.fs.loopNestLevel, InFunction(s), fuel), Fors(st))
    decreases fuel, st, 3
  {
    SkipStmt(m, st.body, BRACED, StartDeclaration(s), fuel);
  }

  /** What a statement that has run leaves, in terms of the semantics and without them. */
  lemma {:induction false} RanStmt(m: Meaning, st: Stmt, at: Place, s: State, fuel: nat)
    requires Running(s) && Nested(st) && Fresh(s, Fors(st))
    ensures var r := Drive(m, st, at, s, fuel);
      r.Done? ==>
        var ref := Exec(m, st, s.env, s.fs.loopNestLevel, InFunction(s), fuel);
        ref.Done? && Encodes(s, r.value, ref.value.0, ref.value.1, Fors(st))
  {
    RefineStmt(m, st, at, s, fuel);
  }

  lemma {:induction false} RanFrame(m: Meaning, st: Stmt, at: Place, s: State, fuel: nat)
    requires Running(s) && Nested(st) && Fresh(s, Fors(st))
    ensures var r := Drive(m, st, at, s, fuel);
      r.Done? ==>
        && SameFrame(s, r.value) && Consistent(r.value)
        && (r.value.executeFlag == EXECUTE || r.value.executeFlag == DONT_EXECUTE)
  {
    RefineStmt(m, st, at, s, fuel);
  }

  /** The body of a loop or switch entered in state `s` starts in state `inner`. */
  predicate Inside(s: State, inner: State) {
    && s.executeFlag == EXECUTE && inner.css == Push(s.css, EXECUTE)
    && inner.forStack == s.forStack && inner.fsStack == s.fsStack
    && inner.fs.loopNestLevel == s.fs.loopNestLevel + 1 && inner.fs.functionName == s.fs.functionName
    && inner.continued <= s.continued && inner.switched == s.switched
    && s.fs.loopNestLevel >= 0
  }

  /** Leaving a loop: an outcome aimed at it is consumed, and exactly then its change is the one
      pending here; any other is passed outward. */
  lemma {:induction false} LoopExit(s: State, inner: State, t: State, env: Env, out: Outcome, fors: set<int>)
    requires Inside(s, inner) && inner.switchStack == s.switchStack && Encodes(inner, t, env, out, fors)
    ensures ChangeIsHere(t) <==> out == Broke(1) || out == Continued(1)
    ensures t.execute <==> out.Normal?
    ensures ChangeIsHere(t) ==> (t.fs.changeType == DoContinue <==> out == Continued(1))
    ensures ChangeIsHere(t) ==> Encodes(s, LeaveLoop(ClearChange(t)), env, Normal, fors)
    ensures !ChangeIsHere(t) ==> Encodes(s, LeaveLoop(t), env, Outward(out), fors)
  {
  }

  /** The fields of the starting state that matter to Encodes. */
  predicate SameFrame(s: State, t: State) {
    && t.css == s.css && t.forStack == s.forStack && t.switchStack == s.switchStack && t.fsStack == s.fsStack
    && t.fs.loopNestLevel == s.fs.loopNestLevel && t.fs.functionName == s.fs.functionName
    && t.continued <= s.continued
  }

  lemma {:induction false} Reframe(s: State, t: State, r: Result<State>, ref: Result<(Env, Outcome)>,
        before: set<int>, fors: set<int>)
    requires SameFrame(s, t) && t.switched == s.switched + before && before <= fors && StmtMatches(t, r, ref, fors)
    ensures StmtMatches(s, r, ref, fors)
  {
    assert s.switched + before + fors == s.switched + fors;
  }

  lemma {:induction false} RefineWhile(m: Meaning, st: Stmt, at: Place, s: State, fuel: nat)
    requires Running(s) && Nested(st) && Fresh(s, Fors(st)) && st.While?
    ensures StmtMatches(s.(continued := s.continued - {st.pos as int}), DriveWhile(m, st, at, s, fuel),
                        ExecWhile(m, st, s.env, s.fs.loopNestLevel, InFunction(s), fuel), Fors(st))
    decreases fuel, st, 2
  {
    RefineExpr(m, st.cond, s, fuel);
    var r := DriveExpr(m, st.cond, s, fuel);
    if r.Done? {
      var (s1, v) := r.value;
      var s2 := StartWhile(m, s1, st.pos, v);
      if !IsTrue(m, v) {
        SkipStmt(m, st.body, BodyPlace(at), s2, fuel);
      } else {
        RefineStmt(m, st.body, BodyPlace(at), s2, fuel);
        var r2 := Drive(m, st.body, BodyPlace(at), s2, fuel);
        if r2.Done? {
          var ref := Exec(m, st.body, s2.env, s2.fs.loopNestLevel, InFunction(s2), fuel);
          RefineWhileEnd(m, st, at, s.(continued := s.continued - {st.pos as int}), s2,
                         r2.value, ref.value.0, ref.value.1, fuel);
        }
      }
    }
  }

  /** The end of a pass over a `while` jumps back exactly when the body is to be followed by
      another pass, and otherwise leaves the loop with what is left of the outcome. */
  lemma {:induction false} WhileEnds(s: State, pos: nat, inner: State, t: State, env: Env, out: Outcome, fors: set<int>)
    requires Inside(s, inner) && inner.switchStack == s.switchStack && pos !in inner.continued
    requires Encodes(inner, t, env, out, fors)
    ensures var (u, again) := EndWhile(t, pos);
      && again == Iterates(out)
      && (!again ==> Encodes(s, u, env, LoopOutcome(out), fors))
      && (again ==> Encodes(s, u.(continued := u.continued - {pos as int}), env, Normal, fors))
  {
    LoopExit(s, inner, t, env, out, fors);
    assert t.continued + {pos as int} - {pos as int} == t.continued;
  }

  /** After the body of a while loop, run in `inner` with the result `r`. */
  lemma {:induction false} RefineWhileEnd(m: Meaning, st: Stmt, at: Place, s: State, inner: State, t: State,
        env: Env, out: Outcome, fuel: nat)
    requires Nested(st) && Fresh(s, Fors(st)) && st.While?
    requires Inside(s, inner) && inner.switchStack == s.switchStack && st.pos !in inner.continued
    requires Encodes(inner, t, env, out, Fors(st))
    ensures var (u, again) := EndWhile(t, st.pos);
      && again == Iterates(out)
      && (!again ==> Encodes(s, u, env, LoopOutcome(out), Fors(st)))
      && (again && fuel > 0 ==>
            StmtMatches(s, DriveWhile(m, st, at, u, fuel - 1),
                        ExecWhile(m, st, env, s.fs.loopNestLevel, InFunction(s), fuel - 1), Fors(st)))
    decreases fuel, st, 1
  {
    WhileEnds(s, st.pos, inner, t, env, out, Fors(st));
    var (u, again) := EndWhile(t, st.pos);
    if again && fuel > 0 {
      RefineWhile(m, st, at, u, fuel - 1);
      Reframe(s, u.(continued := u.continued - {st.pos as int}), DriveWhile(m, st, at, u, fuel - 1),
              ExecWhile(m, st, u.env, u.fs.loopNestLevel, InFunction(u), fuel - 1), Fors(st), Fors(st));
    }
  }

  lemma {:induction false} RefineDoWhile(m: Meaning, st: Stmt, s: State, fuel: nat)
    requires Running(s) && Nested(st) && Fresh(s, Fors(st)) && st.DoWhile?
    ensures StmtMatches(s, DriveDoWhile(m, st, s, fuel),
                        ExecDoWhile(m, st, s.env, s.fs.loopNestLevel, InFunction(s), fuel), Fors(st))
    decreases fuel, st, 2
  {
    var s1 := StartDoWhile(s);
    RefineStmt(m, st.body, BRACED, s1, fuel);
    var r := Drive(m, st.body, BRACED, s1, fuel);
    if r.Done? {
      var ref := Exec(m, st.body, s1.env, s1.fs.loopNestLevel, InFunction(s1), fuel);
      var s2 := ForceEvalDoWhile(r.value);
      if Iterates(ref.value.1) {
        DoRepeats(s, s1, r.value, ref.value.0, ref.value.1, Fors(st));
        RefineDoWhileEnd(m, st, s, s1, s2, fuel);
      } else {
        SkipDoWhileEnd(m, st, s, s1, r.value, ref.value.0, ref.value.1, fuel);
      }
    }
  }

  /** A continue aimed at a `do` goes on with its condition. */
  lemma {:induction false} DoRepeats(s: State, inner: State, t: State, env: Env, out: Outcome, fors: set<int>)
    requires Inside(s, inner) && inner.switchStack == s.switchStack && Encodes(inner, t, env, out, fors)
    requires Iterates(out)
    ensures Encodes(inner, ForceEvalDoWhile(t), env, Normal, fors)
  {
    LoopExit(s, inner, t, env, out, fors);
  }

  /** The condition of a `do` whose body ended it is skipped. */
  lemma {:induction false} SkipDoWhileEnd(m: Meaning, st: Stmt, s: State, inner: State, t: State, env: Env,
        out: Outcome, fuel: nat)
    requires st.DoWhile? && Inside(s, inner) && inner.switchStack == s.switchStack
    requires Encodes(inner, t, env, out, Fors(st)) && !Iterates(out)
    ensures var r := DriveExpr(m, st.cond, ForceEvalDoWhile(t), fuel);
      && r.Done?
      && var (u, again) := EndDoWhile(m, r.value.0, r.value.1);
      !again && u.continued == t.continued && Encodes(s, u, env, LoopOutcome(out), Fors(st))
  {
    LoopExit(s, inner, t, env, out, Fors(st));
    SkipExpr(m, st.cond, t, fuel);
  }

  /** The condition at the end of a do loop, evaluated in `t`. */
  lemma {:induction false} RefineDoWhileEnd(m: Meaning, st: Stmt, s: State, inner: State, t: State, fuel: nat)
    requires Running(s) && Nested(st) && Fresh(s, Fors(st)) && st.DoWhile?
    requires Inside(s, inner) && inner.switchStack == s.switchStack
    requires Encodes(inner, t, t.env, Normal, Fors(st))
    ensures var r := DriveExpr(m, st.cond, t, fuel);
      var ref := Eval(m, st.cond, t.env, fuel);
      && ExprMatches(t, r, ref)
      && (r.Done? ==>
           var (u, again) := EndDoWhile(m, r.value.0, r.value.1);
           && again == IsTrue(m, r.value.1)
           && (!again ==> Encodes(s, u, ref.value.0, Normal, Fors(st)))
           && (again && fuel > 0 ==>
                StmtMatches(s, DriveDoWhile(m, st, u, fuel - 1),
                            ExecDoWhile(m, st, ref.value.0, s.fs.loopNestLevel, InFunction(s), fuel - 1), Fors(st))))
    decreases fuel, st, 1
  {
    RefineExpr(m, st.cond, t, fuel);
    var r := DriveExpr(m, st.cond, t, fuel);
    if r.Done? {
      var ref := Eval(m, st.cond, t.env, fuel);
      LoopExit(s, inner, r.value.0, ref.value.0, Normal, Fors(st));
      var (u, again) := EndDoWhile(m, r.value.0, r.value.1);
      if again && fuel > 0 {
        RefineDoWhile(m, st, u, fuel - 1);
        Reframe(s, u, DriveDoWhile(m, st, u, fuel - 1),
                ExecDoWhile(m, st, u.env, u.fs.loopNestLevel, InFunction(u), fuel - 1), Fors(st), Fors(st));
      }
    }
  }

  // if

  predicate SameButGate(s: State, t: State) {
    s == t.(executeFlag := s.executeFlag, execute := s.execute)
  }

  /** Once a branch has run, the rest of the chain is skipped, however the branch completed. */
  lemma {:induction false} TailAfterBranch(m: Meaning, t: IfTail, at: Place, s: State, fuel: nat)
    requires Consistent(s) && (s.executeFlag == EXECUTE || s.executeFlag == DONT_EXECUTE)
    requires TailNested(t) && Fresh(s, TailFors(t))
    ensures var r := DriveTail(m, t, at, s, fuel);
            if Clear(s, TailStops(t, at)) then r.Done? && SameButGate(r.value, Swap(s, TailFors(t)))
            else MetMark(r) && !(TailTidy(t, at) && MetSwallowed(r))
    decreases t
  {
    var closed := CloseBranch(s);
    match t
    case EndIf =>
      SwapNothing(s);
    case Else(body) =>
      SkipStmt(m, body, BodyPlace(at), closed, fuel);
    case ElseIf(c, body, rest) =>
      SkipExpr(m, c, PushFlag(closed), fuel);
      SkipStmt(m, body, BranchPlace(rest, at), closed, fuel);
      SkipTail(m, rest, at, Swap(closed, Fors(body)), fuel);
      assert s.switched + Fors(body) + TailFors(rest) == s.switched + TailFors(t);
  }

  /** A chain still looking for its branch. */
  predicate Seeking(s: State) {
    && Skipping(s) && s.executeFlag == BEFORE_EXECUTE && IntTop(s.css) == EXECUTE
    && !s.fs.returned && s.fs.changeType == DoNothing && Ready(s.env.functions, s.switched)
  }

  /** The state the conditions and branches of a chain are run in. */
  function Open(s: State): State { SetFlag(s, EXECUTE) }

  /** Encodes, but for the flag, which the end of the chain restores. */
  predicate ChainEncodes(s: State, t: State, env: Env, out: Outcome, fors: set<int>) {
    Encodes(Open(s), Open(t), env, out, fors)
  }

  predicate TailMatches(s: State, r: Result<State>, ref: Result<(Env, Outcome)>, fors: set<int>) {
    || MetMark(r)
    || match ref
       case Timeout => r.Timeout?
       case Halt(why, trace) => r == Halt(why, trace)
       case Done((env, out)) => r.Done? && ChainEncodes(s, r.value, env, out, fors)
  }

  lemma {:induction false} BranchTaken(s: State, t: State, u: State, env: Env, out: Outcome, fors: set<int>,
        more: set<int>)
    requires Encodes(Open(s), t, env, out, fors) && SameButGate(u, Swap(t, more))
    ensures ChainEncodes(s, u, env, out, fors + more)
  {
    assert s.switched + fors + more == s.switched + (fors + more);
  }

  lemma {:induction false} ChainEnd(s: State, inner: State, u: State, env: Env, out: Outcome, fors: set<int>)
    requires s.executeFlag == EXECUTE && inner.css == Push(s.css, EXECUTE)
    requires SameFrame(s.(css := inner.css), inner) && inner.switched == s.switched
    requires ChainEncodes(inner, u, env, out, fors)
    ensures Encodes(s, ControlHooks.EndIf(u), env, out, fors)
  {
  }

  lemma {:induction false} RefineIf(m: Meaning, st: Stmt, at: Place, s: State, fuel: nat)
    requires Running(s) && Nested(st) && Fresh(s, Fors(st)) && st.If?
    ensures StmtMatches(s, DriveIf(m, st, at, s, fuel),
                        Exec(m, st, s.env, s.fs.loopNestLevel, InFunction(s), fuel), Fors(st))
    decreases fuel, st, 2
  {
    RefineExpr(m, st.cond, s, fuel);
    var r := DriveExpr(m, st.cond, s, fuel);
    if r.Done? {
      var (s1, v) := r.value;
      var s2 := StartIf(m, s1, v);
      RefineChain(m, st, at, s2, IsTrue(m, v), fuel);
      var r2 := Drive(m, st.thn, BranchPlace(st.tail, at), s2, fuel);
      if r2.Done? {
        var r3 := DriveTail(m, st.tail, at, r2.value, fuel);
        var ref := if IsTrue(m, v) then Exec(m, st.thn, s2.env, s2.fs.loopNestLevel, InFunction(s2), fuel)
                   else ExecTail(m, st.tail, s2.env, s2.fs.loopNestLevel, InFunction(s2), fuel);
        if r3.Done? && ref.Done? { ChainEnd(s, s2, r3.value, ref.value.0, ref.value.1, Fors(st)); }
      }
    }
  }

  /** The branches of an `if` after its condition. */
  lemma {:induction false} RefineChain(m: Meaning, st: Stmt, at: Place, s: State, holds: bool, fuel: nat)
    requires Nested(st) && Fresh(s, Fors(st)) && st.If?
    requires if holds then Running(s) else Seeking(s)
    ensures var r := Drive(m, st.thn, BranchPlace(st.tail, at), s, fuel);
            var ref := if holds then Exec(m, st.thn, s.env, s.fs.loopNestLevel, InFunction(s), fuel)
                       else ExecTail(m, st.tail, s.env, s.fs.loopNestLevel, InFunction(s), fuel);
            if r.Done? then TailMatches(s, DriveTail(m, st.tail, at, r.value, fuel), ref, Fors(st))
            else MetMark(r) || (r.Halt? && ref.Halt? && r.why == ref.why && r.trace == ref.trace)
                 || (r.Timeout? && ref.Timeout?)
    decreases fuel, st, 1
  {
    assert s.switched + Fors(st.thn) + TailFors(st.tail) == s.switched + Fors(st);
    if holds {
      RefineStmt(m, st.thn, BranchPlace(st.tail, at), s, fuel);
      var r := Drive(m, st.thn, BranchPlace(st.tail, at), s, fuel);
      var ref := Exec(m, st.thn, s.env, s.fs.loopNestLevel, InFunction(s), fuel);
      if r.Done? {
        TailAfterBranch(m, st.tail, at, r.value, fuel);
        var r2 := DriveTail(m, st.tail, at, r.value, fuel);
        if r2.Done? {
          BranchTaken(s, r.value, r2.value, ref.value.0, ref.value.1, Fors(st.thn), TailFors(st.tail));
        }
      }
    } else {
      SkipStmt(m, st.thn, BranchPlace(st.tail, at), s, fuel);
      RefineTail(m, st.tail, at, Swap(s, Fors(st.thn)), fuel);
    }
  }

  lemma {:induction false} RefineTail(m: Meaning, t: IfTail, at: Place, s: State, fuel: nat)
    requires Seeking(s) && TailNested(t) && Fresh(s, TailFors(t))
    ensures TailMatches(s, DriveTail(m, t, at, s, fuel),
                        ExecTail(m, t, s.env, s.fs.loopNestLevel, InFunction(s), fuel), TailFors(t))
    decreases fuel, t, 3
  {
    match t
    case EndIf =>
      SwapNothing(s);
    case Else(body) =>
      RefineStmt(m, body, BodyPlace(at), Open(s), fuel);
    case ElseIf(c, body, rest) =>
      RefineElseIf(m, t, at, s, fuel);
  }

  /** The state between the condition of an `elseif` and its branch. */
  predicate Evaluated(s: State, t: State) {
    && Seeking(t) && t.continued <= s.continued
    && t == s.(env := t.env, returnValue := t.returnValue, continued := t.continued)
  }

  lemma {:induction false} RefineElseIf(m: Meaning, t: IfTail, at: Place, s: State, fuel: nat)
    requires Seeking(s) && TailNested(t) && Fresh(s, TailFors(t)) && t.ElseIf?
    ensures TailMatches(s, DriveTail(m, t, at, s, fuel),
                        ExecTail(m, t, s.env, s.fs.loopNestLevel, InFunction(s), fuel), TailFors(t))
    decreases fuel, t, 2
  {
    var s1 := ElseifStartEvaluate(s);
    RefineExpr(m, t.cond, s1, fuel);
    var r := DriveExpr(m, t.cond, s1, fuel);
    if r.Done? {
      var (s2, v) := r.value;
      var s3 := ElseifEndEvaluate(s2);
      assert Evaluated(s, s3);
      if IsTrue(m, v) { RefineBranch(m, t, at, s, s3, fuel); } else { RefineSkippedBranch(m, t, at, s, s3, fuel); }
    }
  }

  /** The branch of an `elseif` whose condition holds, and the chain behind it. */
  lemma {:induction false} RefineBranch(m: Meaning, t: IfTail, at: Place, s: State, s3: State, fuel: nat)
    requires Evaluated(s, s3) && TailNested(t) && Fresh(s, TailFors(t)) && t.ElseIf?
    ensures var r := Drive(m, t.body, BranchPlace(t.rest, at), Open(s3), fuel);
            TailMatches(s, if r.Done? then DriveTail(m, t.rest, at, r.value, fuel) else r,
                        Exec(m, t.body, s3.env, s3.fs.loopNestLevel, InFunction(s3), fuel), TailFors(t))
    decreases fuel, t, 1
  {
    RefineStmt(m, t.body, BranchPlace(t.rest, at), Open(s3), fuel);
    var r := Drive(m, t.body, BranchPlace(t.rest, at), Open(s3), fuel);
    if r.Done? {
      TailAfterBranch(m, t.rest, at, r.value, fuel);
      var all := DriveTail(m, t.rest, at, r.value, fuel);
      var ref := Exec(m, t.body, s3.env, s3.fs.loopNestLevel, InFunction(s3), fuel);
      if all.Done? { BranchTaken(s, r.value, all.value, ref.value.0, ref.value.1, Fors(t.body), TailFors(t.rest)); }
    }
  }

  /** The branch of an `elseif` whose condition does not hold, and the chain behind it. */
  lemma {:induction false} RefineSkippedBranch(m: Meaning, t: IfTail, at: Place, s: State, s3: State, fuel: nat)
    requires Evaluated(s, s3) && TailNested(t) && Fresh(s, TailFors(t)) && t.ElseIf?
    ensures var r := Drive(m, t.body, BranchPlace(t.rest, at), s3, fuel);
            TailMatches(s, if r.Done? then DriveTail(m, t.rest, at, r.value, fuel) else r,
                        ExecTail(m, t.rest, s3.env, s3.fs.loopNestLevel, InFunction(s3), fuel), TailFors(t))
    decreases fuel, t, 1
  {
    assert s.switched + Fors(t.body) + TailFors(t.rest) == s.switched + TailFors(t);
    SkipStmt(m, t.body, BranchPlace(t.rest, at), s3, fuel);
    RefineTail(m, t.rest, at, Swap(s3, Fors(t.body)), fuel);
  }

  // for

  /** Where a pass over a `for` may start: entering it, with its header in either order, or
      iterating, with its position on the `for` stack and its header exchanged. */
  predicate AtPass(st: Stmt, s: State, first: bool)
    requires st.For?
  {
    if first then IntTop(s.forStack) != st.pos else IntTop(s.forStack) == st.pos && st.pos in s.switched
  }

  predicate HeaderMatches(m: Meaning, s: State, r: Result<State>, ref: Result<(Env, Value)>) {
    || MetMark(r)
    || match ref
       case Timeout => r.Timeout?
       case Halt(why, trace) => r == Halt(why, trace)
       case Done((env, v)) =>
         && r.Done? && Ready(env.functions, s.switched)
         && r.value == SetFlag(EnterLoop(s), if IsTrue(m, v) then EXECUTE else DONT_EXECUTE)
                       .(env := env, returnValue := r.value.returnValue, continued := r.value.continued)
         && r.value.continued <= s.continued
  }

  /** Exchanging the header parts preserves their meaning: initialisation, step and condition
      take effect when they should, and the condition decides. */
  lemma {:induction false} RefineHeader(m: Meaning, st: Stmt, s: State, first: bool, fuel: nat)
    requires Running(s) && st.For? && AtPass(st, s, first)
    ensures HeaderMatches(m, s, DriveForHeader(m, st, s, fuel), Header(m, st, first, s.env, fuel))
    decreases fuel, st, 0
  {
    var isSwitched := st.pos in s.switched;
    var s1 := ForPreExpr1(s, st.pos);
    if first { RefineExpr(m, st.init, s1, fuel); } else { SkipExpr(m, st.init, s1, fuel); }
    var r1 := DriveExpr(m, st.init, s1, fuel);
    if r1.Done? {
      var s2 := ForPreExpr2(r1.value.0, st.pos, isSwitched);
      if first && isSwitched {
        SkipExpr(m, st.step, s2, fuel);
        RefineExpr(m, st.cond, ForPreExpr3(s2, true), fuel);
      } else if first {
        RefineExpr(m, st.cond, s2, fuel);
        var r2 := DriveExpr(m, st.cond, s2, fuel);
        if r2.Done? { SkipExpr(m, st.step, ForPreExpr3(r2.value.0, false), fuel); }
      } else {
        RefineExpr(m, st.step, s2, fuel);
        var r2 := DriveExpr(m, st.step, s2, fuel);
        if r2.Done? { RefineExpr(m, st.cond, ForPreExpr3(r2.value.0, true), fuel); }
      }
    }
  }

  /** `t` ends a pass over the `for` at `pos`, which was entered with `stack` on the `for` stack. */
  predicate PassEnds(t: State, stack: seq<int>, pos: nat) {
    IntTop(stack) != pos && (t.forStack == stack || t.forStack == Push(stack, pos))
  }

  function Consume(t: State): State { if ChangeIsHere(t) then ClearChange(t) else t }

  function Exchange(t: State, pos: nat, isSwitched: bool): set<int> {
    if isSwitched then t.switched else t.switched + {pos as int}
  }

  lemma {:induction false} PostRepeats(t: State, stack: seq<int>, pos: nat, isSwitched: bool)
    requires PassEnds(t, stack, pos) && (isSwitched || pos !in t.switched)
    requires t.execute || (ChangeIsHere(t) && t.fs.changeType == DoContinue)
    requires t.execute ==> !ChangeIsHere(t)
    ensures ForPostStatement(t, pos, isSwitched)
         == Done((LeaveLoop(Consume(t.(forStack := Push(stack, pos), switched := Exchange(t, pos, isSwitched)))), true))
  {
  }

  lemma {:induction false} PostFinishes(t: State, stack: seq<int>, pos: nat, isSwitched: bool)
    requires PassEnds(t, stack, pos) && (isSwitched || pos !in t.switched)
    requires !t.execute && !(ChangeIsHere(t) && t.fs.changeType == DoContinue)
    ensures ForPostStatement(t, pos, isSwitched)
         == Done((LeaveLoop(Consume(t.(forStack := stack, switched := Exchange(t, pos, isSwitched)))), false))
  {
  }

  /** The end of a pass sets no `while` mark and removes none. */
  lemma {:induction false} PostKeeps(t: State, pos: nat, isSwitched: bool)
    ensures var r := ForPostStatement(t, pos, isSwitched);
            r.Done? ==> r.value.0.continued == t.continued && r.value.0.env == t.env
  {
  }

  lemma {:induction false} Exchanged(s: State, t: State, pos: nat, fors: set<int>)
    requires t.switched == s.switched + fors
    ensures Exchange(t, pos, pos in s.switched) == s.switched + ({pos as int} + fors)
  {
  }

  /** Leaving a pass with `stack` on the `for` stack and the headers `all` exchanged. */
  lemma {:induction false} PassLeft(s: State, inner: State, t: State, env: Env, out: Outcome, fors: set<int>,
        stack: seq<int>, all: set<int>)
    requires Inside(s, inner) && inner.switchStack == s.switchStack && Encodes(inner, t, env, out, fors) && fors <= all
    ensures Encodes(s.(forStack := stack),
                    LeaveLoop(Consume(t.(forStack := stack, switched := s.switched + all))), env, LoopOutcome(out), all)
            || Iterates(out)
    ensures Iterates(out) ==>
      Encodes(s.(forStack := stack),
              LeaveLoop(Consume(t.(forStack := stack, switched := s.switched + all))), env, Normal, all)
  {
    LoopExit(s, inner, t, env, out, fors);
  }

  /** The end of a pass that is to be repeated: the loop's position is on the `for` stack and its
      header exchanged. */
  lemma {:induction false} ForRepeats(s: State, stack: seq<int>, pos: nat, inner: State, t: State, env: Env,
        out: Outcome, fors: set<int>)
    requires PassEnds(s, stack, pos) && (s.forStack == stack || pos in s.switched)
    requires Inside(s, inner) && inner.switchStack == s.switchStack
    requires Encodes(inner, t, env, out, fors) && pos !in fors && Iterates(out)
    ensures var r := ForPostStatement(t, pos, pos in s.switched);
            && r.Done? && r.value.1 && pos in r.value.0.switched
            && Encodes(s.(forStack := Push(stack, pos)), r.value.0, env, Normal, {pos as int} + fors)
  {
    LoopExit(s, inner, t, env, out, fors);
    PostRepeats(t, stack, pos, pos in s.switched);
    Exchanged(s, t, pos, fors);
    PassLeft(s, inner, t, env, out, fors, Push(stack, pos), {pos as int} + fors);
  }

  /** The end of the last pass: the `for` stack is as the loop found it. */
  lemma {:induction false} ForFinishes(s: State, stack: seq<int>, pos: nat, inner: State, t: State, env: Env,
        out: Outcome, fors: set<int>)
    requires PassEnds(s, stack, pos) && (s.forStack == stack || pos in s.switched)
    requires Inside(s, inner) && inner.switchStack == s.switchStack
    requires Encodes(inner, t, env, out, fors) && pos !in fors && !Iterates(out)
    ensures var r := ForPostStatement(t, pos, pos in s.switched);
            && r.Done? && !r.value.1
            && Encodes(s.(forStack := stack), r.value.0, env, LoopOutcome(out), {pos as int} + fors)
  {
    LoopExit(s, inner, t, env, out, fors);
    PostFinishes(t, stack, pos, pos in s.switched);
    Exchanged(s, t, pos, fors);
    PassLeft(s, inner, t, env, out, fors, stack, {pos as int} + fors);
  }

  /** The end of a pass whose body has run: it jumps back exactly when another pass is due. */
  lemma {:induction false} ForEnds(s: State, stack: seq<int>, pos: nat, inner: State, t: State, env: Env,
        out: Outcome, fors: set<int>)
    requires PassEnds(s, stack, pos) && (s.forStack == stack || pos in s.switched)
    requires Inside(s, inner) && inner.switchStack == s.switchStack
    requires Encodes(inner, t, env, out, fors) && pos !in fors
    ensures var r := ForPostStatement(t, pos, pos in s.switched);
      && r.Done? && r.value.1 == Iterates(out)
      && var u := r.value.0;
      && u.continued == t.continued && u.env == env
      && (Iterates(out) ==> pos in u.switched
                            && Encodes(s.(forStack := Push(stack, pos)), u, env, Normal, {pos as int} + fors))
      && (!Iterates(out) ==> Encodes(s.(forStack := stack), u, env, LoopOutcome(out), {pos as int} + fors))
  {
    PostKeeps(t, pos, pos in s.switched);
    if Iterates(out) {
      ForRepeats(s, stack, pos, inner, t, env, out, fors);
    } else {
      ForFinishes(s, stack, pos, inner, t, env, out, fors);
    }
  }

  /** A `for` whose condition fails. */
  lemma {:induction false} ForStops(s: State, stack: seq<int>, pos: nat, t: State, fors: set<int>)
    requires PassEnds(s, stack, pos) && (s.forStack == stack || pos in s.switched)
    requires Running(s) && pos !in fors && Ready(t.env.functions, s.switched)
    requires t == Swap(SetFlag(EnterLoop(s), DONT_EXECUTE)
                       .(env := t.env, returnValue := t.returnValue, continued := t.continued), fors)
    requires t.continued <= s.continued
    ensures var r := ForPostStatement(t, pos, pos in s.switched);
            && r.Done? && !r.value.1
            && Encodes(s.(forStack := stack), r.value.0, t.env, Normal, {pos as int} + fors)
  {
    PostFinishes(t, stack, pos, pos in s.switched);
    Exchanged(s, t, pos, fors);
  }

  lemma {:induction false} RefineFor(m: Meaning, st: Stmt, at: Place, s: State, stack: seq<int>, fuel: nat)
    requires Running(s) && Nested(st) && st.For?
    requires IntTop(stack) !in Fors(st)
    requires s.forStack == stack || (s.forStack == Push(stack, st.pos) && st.pos in s.switched)
    ensures StmtMatches(s.(forStack := stack), DriveFor(m, st, at, s, fuel),
                        ForPass(m, st, s.forStack == stack, s.env, s.fs.loopNestLevel, InFunction(s), fuel), Fors(st))
    decreases fuel, st, 3
  {
    RefineHeader(m, st, s, s.forStack == stack, fuel);
    var r := DriveForHeader(m, st, s, fuel);
    if r.Done? {
      var (env, v) := Header(m, st, s.forStack == stack, s.env, fuel).value;
      if IsTrue(m, v) {
        RefineForBody(m, st, at, s, stack, r.value, fuel);
      } else {
        SkipForBody(m, st, at, s, stack, r.value, fuel);
      }
    }
  }

  predicate AfterHeader(s: State, inner: State, holds: bool) {
    && inner == SetFlag(EnterLoop(s), if holds then EXECUTE else DONT_EXECUTE)
                .(env := inner.env, returnValue := inner.returnValue, continued := inner.continued)
    && inner.continued <= s.continued
    && Ready(inner.env.functions, s.switched)
  }

  /** A `for` whose condition holds. */
  lemma {:induction false} RefineForBody(m: Meaning, st: Stmt, at: Place, s: State, stack: seq<int>, inner: State,
        fuel: nat)
    requires Running(s) && Nested(st) && st.For?
    requires IntTop(stack) !in Fors(st)
    requires s.forStack == stack || (s.forStack == Push(stack, st.pos) && st.pos in s.switched)
    requires AfterHeader(s, inner, true)
    ensures StmtMatches(s.(forStack := stack), DriveForBody(m, st, at, inner, st.pos in s.switched, fuel),
                        ExecForBody(m, st, inner.env, s.fs.loopNestLevel, InFunction(s), fuel), Fors(st))
    decreases fuel, st, 2
  {
    RefineStmt(m, st.body, BodyPlace(at), inner, fuel);
    var r := Drive(m, st.body, BodyPlace(at), inner, fuel);
    var ref := Exec(m, st.body, inner.env, inner.fs.loopNestLevel, InFunction(inner), fuel);
    if r.Done? {
      ForEnds(s, stack, st.pos, inner, r.value, ref.value.0, ref.value.1, Fors(st.body));
      if Iterates(ref.value.1) {
        RefineForAgain(m, st, at, s, stack, ForPostStatement(r.value, st.pos, st.pos in s.switched).value.0, fuel);
      }
    }
  }

  lemma {:induction false} SkipForBody(m: Meaning, st: Stmt, at: Place, s: State, stack: seq<int>, inner: State,
        fuel: nat)
    requires Running(s) && Nested(st) && st.For?
    requires IntTop(stack) !in Fors(st)
    requires s.forStack == stack || (s.forStack == Push(stack, st.pos) && st.pos in s.switched)
    requires AfterHeader(s, inner, false)
    ensures StmtMatches(s.(forStack := stack), DriveForBody(m, st, at, inner, st.pos in s.switched, fuel),
                        Done((inner.env, Normal)), Fors(st))
  {
    SkipStmt(m, st.body, BodyPlace(at), inner, fuel);
    ForStops(s, stack, st.pos, Swap(inner, Fors(st.body)), Fors(st.body));
  }

  /** The next pass over a `for`, in state `t`. */
  lemma {:induction false} RefineForAgain(m: Meaning, st: Stmt, at: Place, s: State, stack: seq<int>, t: State,
        fuel: nat)
    requires Nested(st) && st.For? && IntTop(stack) !in Fors(st)
    requires Encodes(s.(forStack := Push(stack, st.pos)), t, t.env, Normal, Fors(st)) && st.pos in t.switched
    ensures fuel > 0 ==>
      && t.fs.loopNestLevel >= 0
      && StmtMatches(s.(forStack := stack), DriveFor(m, st, at, t, fuel - 1),
                     ForPass(m, st, false, t.env, t.fs.loopNestLevel, InFunction(t), fuel - 1), Fors(st))
    decreases fuel, st, 0
  {
    if fuel > 0 {
      RefineFor(m, st, at, t, stack, fuel - 1);
      Reframe(s.(forStack := stack), t.(forStack := stack), DriveFor(m, st, at, t, fuel - 1),
              ForPass(m, st, false, t.env, t.fs.loopNestLevel, InFunction(t), fuel - 1), Fors(st), Fors(st));
    }
  }

  /** The reference for a pass and all that follows it. */
  function ForPass(m: Meaning, st: Stmt, first: bool, env: Env, depth: nat, inFunction: bool, fuel: nat)
    : Result<(Env, Outcome)>
    requires st.For?
  {
    var (env1, _) :- Eval(m, if first then st.init else st.step, env, fuel);
    ExecFor(m, st, env1, depth, inFunction, fuel)
  }

  // switch

  /** Encodes, but for the mark on the top switch entry that a label has matched. */
  predicate CasesEncode(s: State, t: State, env: Env, out: Outcome, fors: set<int>) {
    && |t.switchStack| == |s.switchStack| && DelTop(t.switchStack) == DelTop(s.switchStack)
    && Encodes(s, t.(switchStack := s.switchStack), env, out, fors)
  }

  predicate CasesMatch(s: State, r: Result<State>, ref: Result<(Env, Outcome)>, fors: set<int>) {
    || MetMark(r)
    || match ref
       case Timeout => r.Timeout?
       case Halt(why, trace) => r == Halt(why, trace)
       case Done((env, out)) => r.Done? && CasesEncode(s, r.value, env, out, fors)
  }

  predicate AtCase(s: State) { |s.switchStack| > 0 && IntTop(s.css) == EXECUTE }

  function TopEntry(s: State): SwitchExpr
    requires |s.switchStack| > 0
  {
    s.switchStack[|s.switchStack| - 1]
  }

  /** Between `s` and `t` only a mark on the top switch entry and headers in `before` have changed. */
  predicate SameCases(s: State, t: State, before: set<int>) {
    && SameFrame(s, t.(switchStack := s.switchStack)) && t.switched == s.switched + before
    && |t.switchStack| == |s.switchStack| && DelTop(t.switchStack) == DelTop(s.switchStack)
  }

  lemma {:induction false} ReframeCases(s: State, t: State, r: Result<State>, ref: Result<(Env, Outcome)>,
        before: set<int>, more: set<int>)
    requires SameCases(s, t, before) && CasesMatch(t, r, ref, more)
    ensures CasesMatch(s, r, ref, before + more)
  {
    assert s.switched + before + more == s.switched + (before + more);
  }

  lemma {:induction false} RefineSwitch(m: Meaning, st: Stmt, s: State, fuel: nat)
    requires Running(s) && Nested(st) && Fresh(s, Fors(st)) && st.Switch?
    ensures StmtMatches(s, DriveSwitch(m, st, s, fuel),
                        ExecSwitch(m, st, s.env, s.fs.loopNestLevel, InFunction(s), fuel), Fors(st))
    decreases fuel, st, 2
  {
    RefineExpr(m, st.subject, s, fuel);
    var r := DriveExpr(m, st.subject, s, fuel);
    if r.Done? {
      var (s1, v) := r.value;
      var s2 := SwitchStart(s1, st.pos, v);
      RefineSelect(m, st.cases, s2, fuel);
      var r2 := DriveCases(m, st.cases, s2, fuel);
      if r2.Done? {
        var ref := Select(m, st.cases, v, s2.env, s2.fs.loopNestLevel, InFunction(s2), fuel);
        SwitchExit(s, s2, r2.value, ref.value.0, ref.value.1, Fors(st));
      }
    }
  }

  /** A break or continue aimed at the switch stops there. */
  lemma {:induction false} SwitchExit(s: State, inner: State, t: State, env: Env, out: Outcome, fors: set<int>)
    requires Inside(s, inner) && |inner.switchStack| > 0 && DelTop(inner.switchStack) == s.switchStack
    requires CasesEncode(inner, t, env, out, fors)
    ensures Encodes(s, SwitchEnd(t), env, if out == Broke(1) || out == Continued(1) then Normal else Outward(out), fors)
  {
  }

  /** No label has matched yet. */
  lemma {:induction false} RefineSelect(m: Meaning, cs: Cases, s: State, fuel: nat)
    requires Running(s) && AtCase(s) && TopEntry(s).offset != -1
    requires CasesNested(cs) && Fresh(s, CaseFors(cs))
    ensures CasesMatch(s, DriveCases(m, cs, s, fuel),
                       Select(m, cs, TopEntry(s).expr, s.env, s.fs.loopNestLevel, InFunction(s), fuel), CaseFors(cs))
    decreases fuel, cs, 4
  {
    match cs
    case EndCases =>
      SwapNothing(s);
    case Default(body) =>
      RefineLabelMatched(m, cs, body, EndCases, s, None, fuel);
      assert Fors(body) + CaseFors(EndCases) == CaseFors(cs);
    case Case(_, _, _) =>
      RefineExpr(m, cs.value, s, fuel);
      var r := DriveExpr(m, cs.value, s, fuel);
      if r.Done? { RefineLabel(m, cs, s, r.value.0, r.value.1, fuel); }
  }

  /** The label has been evaluated to `v`, which leaves the state `s1`. */
  lemma {:induction false} RefineLabel(m: Meaning, cs: Cases, s: State, s1: State, v: Value, fuel: nat)
    requires Running(s) && AtCase(s) && TopEntry(s).offset != -1
    requires cs.Case? && CasesNested(cs) && Fresh(s, CaseFors(cs))
    requires s1 == s.(env := s1.env, returnValue := s1.returnValue, continued := s1.continued)
    requires s1.continued <= s.continued && Ready(s1.env.functions, s.switched)
    ensures var ref := if m.equal(TopEntry(s).expr, v)
                       then MatchedRef(m, cs.body, cs.rest, s1.env, s.fs.loopNestLevel, InFunction(s), fuel)
                       else Select(m, cs.rest, TopEntry(s).expr, s1.env, s.fs.loopNestLevel, InFunction(s), fuel);
            CasesMatch(s, MatchedDrive(m, cs.body, cs.rest, SwitchCasePre(m, s1, Some(v)), fuel), ref, CaseFors(cs))
    decreases fuel, cs, 3
  {
    assert SameCases(s, s1, {});
    assert {} + CaseFors(cs) == CaseFors(cs);
    if m.equal(TopEntry(s).expr, v) {
      RefineLabelMatched(m, cs, cs.body, cs.rest, s1, Some(v), fuel);
    } else {
      RefineUnmatched(m, cs, s1, v, fuel);
    }
  }

  /** The label is `default` or equal to the subject: its body runs, and all that follow. */
  lemma {:induction false} RefineLabelMatched(m: Meaning, cs: Cases, body: Stmt, rest: Cases, s: State,
        key: Option<Value>, fuel: nat)
    requires (cs == Default(body) && rest == EndCases) || (cs.Case? && cs.body == body && cs.rest == rest)
    requires Running(s) && AtCase(s) && TopEntry(s).offset != -1
    requires key.None? || m.equal(TopEntry(s).expr, key.value)
    requires Nested(body) && CasesNested(rest) && Fresh(s, Fors(body) + CaseFors(rest))
    ensures CasesMatch(s, MatchedDrive(m, body, rest, SwitchCasePre(m, s, key), fuel),
                       MatchedRef(m, body, rest, s.env, s.fs.loopNestLevel, InFunction(s), fuel),
                       Fors(body) + CaseFors(rest))
    decreases fuel, cs, 2
  {
    var s2 := SwitchCasePre(m, s, key);
    RefineMatched(m, cs, body, rest, s2, fuel);
    assert SameCases(s, s2, {});
    var fors := Fors(body) + CaseFors(rest);
    ReframeCases(s, s2, MatchedDrive(m, body, rest, s2, fuel),
                 MatchedRef(m, body, rest, s2.env, s2.fs.loopNestLevel, InFunction(s2), fuel), {}, fors);
    assert {} + fors == fors;
  }

  /** The label evaluated to a value other than the subject: its body is skipped. */
  lemma {:induction false} RefineUnmatched(m: Meaning, cs: Cases, s: State, v: Value, fuel: nat)
    requires Running(s) && AtCase(s) && TopEntry(s).offset != -1
    requires cs.Case? && CasesNested(cs) && Fresh(s, CaseFors(cs)) && !m.equal(TopEntry(s).expr, v)
    ensures CasesMatch(s, MatchedDrive(m, cs.body, cs.rest, SwitchCasePre(m, s, Some(v)), fuel),
                       Select(m, cs.rest, TopEntry(s).expr, s.env, s.fs.loopNestLevel, InFunction(s), fuel),
                       CaseFors(cs))
    decreases fuel, cs, 1
  {
    var s2 := SwitchCasePre(m, s, Some(v));
    SkipStmt(m, cs.body, BRACED, s2, fuel);
    var s3 := SwitchCasePost(Swap(s2, Fors(cs.body)));
    RefineSelect(m, cs.rest, s3, fuel);
    ReframeCases(s, s3, DriveCases(m, cs.rest, s3, fuel),
                 Select(m, cs.rest, TopEntry(s3).expr, s3.env, s3.fs.loopNestLevel, InFunction(s3), fuel),
                 Fors(cs.body), CaseFors(cs.rest));
  }

  /** The body of a matched or fallen-into case, and the cases after it. */
  function MatchedRef(m: Meaning, body: Stmt, rest: Cases, env: Env, depth: nat, inFunction: bool, fuel: nat)
    : Result<(Env, Outcome)>
  {
    var (env1, out) :- Exec(m, body, env, depth, inFunction, fuel);
    if out.Normal? then FallThrough(m, rest, env1, depth, inFunction, fuel) else Done((env1, out))
  }

  function MatchedDrive(m: Meaning, body: Stmt, rest: Cases, s: State, fuel: nat): Result<State> {
    var s1 :- Drive(m, body, BRACED, s, fuel);
    DriveCases(m, rest, SwitchCasePost(s1), fuel)
  }

  /** The end of a body that has run: the next case is fallen into, or all that are left are
      skipped, which leaves the outcome as it is. */
  lemma {:induction false} CaseEnds(s: State, t: State, env: Env, out: Outcome, fors: set<int>, more: set<int>)
    requires Running(s) && AtCase(s) && TopEntry(s).offset == -1 && Encodes(s, t, env, out, fors)
    ensures var u := SwitchCasePost(t);
      && u.env == env && u.executeFlag == IntTop(u.css) && u.switchStack == s.switchStack
      && SameCases(s, u, fors) && u.forStack == s.forStack
      && (out.Normal? ==> Running(u) && AtCase(u))
      && (!out.Normal? ==> Skipping(u) && CasesEncode(s, Swap(u, more), env, out, fors + more))
  {
    assert s.switched + fors + more == s.switched + (fors + more);
  }

  lemma {:induction false} RefineMatched(m: Meaning, cs: Cases, body: Stmt, rest: Cases, s: State, fuel: nat)
    requires (cs == Default(body) && rest == EndCases) || (cs.Case? && cs.body == body && cs.rest == rest)
    requires Running(s) && AtCase(s) && TopEntry(s).offset == -1
    requires Nested(body) && CasesNested(rest) && Fresh(s, Fors(body) + CaseFors(rest))
    ensures CasesMatch(s, MatchedDrive(m, body, rest, s, fuel),
                       MatchedRef(m, body, rest, s.env, s.fs.loopNestLevel, InFunction(s), fuel),
                       Fors(body) + CaseFors(rest))
    decreases fuel, cs, 1
  {
    RefineStmt(m, body, BRACED, s, fuel);
    var r := Drive(m, body, BRACED, s, fuel);
    if r.Done? {
      var ref := Exec(m, body, s.env, s.fs.loopNestLevel, InFunction(s), fuel);
      CaseEnds(s, r.value, ref.value.0, ref.value.1, Fors(body), CaseFors(rest));
      RefineNextCase(m, cs, rest, s, SwitchCasePost(r.value), ref.value.0, ref.value.1, Fors(body), fuel);
    }
  }

  /** The cases after a body that has run. */
  lemma {:induction false} RefineNextCase(m: Meaning, cs: Cases, rest: Cases, s: State, u: State, env: Env,
        out: Outcome, fors: set<int>, fuel: nat)
    requires (cs.Default? && rest == EndCases) || (cs.Case? && cs.rest == rest)
    requires CasesNested(rest) && Fresh(s, CaseFors(rest)) && |s.switchStack| > 0 && TopEntry(s).offset == -1
    requires u.env == env && u.executeFlag == IntTop(u.css) && u.switchStack == s.switchStack
    requires SameCases(s, u, fors) && u.fs.loopNestLevel >= 0
    requires out.Normal? ==> Running(u) && AtCase(u)
    requires !out.Normal? ==> Skipping(u) && CasesEncode(s, Swap(u, CaseFors(rest)), env, out, fors + CaseFors(rest))
    ensures CasesMatch(s, DriveCases(m, rest, u, fuel),
                       if out.Normal? then FallThrough(m, rest, env, u.fs.loopNestLevel, InFunction(u), fuel)
                       else Done((env, out)), fors + CaseFors(rest))
    decreases fuel, cs, 0
  {
    if !out.Normal? {
      SkipCases(m, rest, u, fuel);
    } else {
      if rest == EndCases { SwapNothing(u); } else { RefineFallThrough(m, rest, u, fuel); }
      ReframeCases(s, u, DriveCases(m, rest, u, fuel),
                   FallThrough(m, rest, env, u.fs.loopNestLevel, InFunction(u), fuel), fors, CaseFors(rest));
    }
  }

  lemma {:induction false} RefineFallThrough(m: Meaning, cs: Cases, s: State, fuel: nat)
    requires Running(s) && AtCase(s) && TopEntry(s).offset == -1
    requires CasesNested(cs) && Fresh(s, CaseFors(cs))
    ensures CasesMatch(s, DriveCases(m, cs, s, fuel),
                       FallThrough(m, cs, s.env, s.fs.loopNestLevel, InFunction(s), fuel), CaseFors(cs))
    decreases fuel, cs, 2
  {
    match cs
    case EndCases =>
      SwapNothing(s);
    case Default(body) =>
      RefineMatched(m, cs, body, EndCases, s, fuel);
      assert Fors(body) + CaseFors(EndCases) == CaseFors(cs);
    case Case(key, body, rest) =>
      RefineExpr(m, key, s, fuel);
      var r := DriveExpr(m, key, s, fuel);
      if r.Done? { RefineMatched(m, cs, body, rest, r.value.0, fuel); }
  }
}
