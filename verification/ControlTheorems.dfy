/** What the control machine promises about whole constructs and whole scripts. */
module ControlTheorems {
  import opened Options
  import opened PhpSyntax
  import opened TextPlaces
  import opened StructuredSemantics
  import opened ControlHooks
  import opened ParserDriver
  import opened ControlSkipping
  import opened ControlRefinement
  import opened ControlMarks
  import opened ControlTracking
  import opened ControlCallGraph
  import opened ReferenceLaws

  predicate GateRight(s: State) { s.execute == ShouldExecute(s) }

  // After every hook the gate is right if it was before.

  lemma {:induction false} LoopHooksKeepGate(m: Meaning, s: State, pos: nat, v: Value)
    requires GateRight(s)
    ensures GateRight(StartWhile(m, s, pos, v)) && GateRight(EndWhile(s, pos).0)
    ensures GateRight(StartDoWhile(s)) && GateRight(ForceEvalDoWhile(s)) && GateRight(EndDoWhile(m, s, v).0)
    ensures GateRight(SwitchStart(s, pos, v)) && GateRight(SwitchCasePost(s))
    ensures |s.switchStack| > 0 ==> GateRight(SwitchCasePre(m, s, Some(v))) && GateRight(SwitchCasePre(m, s, None))
    ensures |s.switchStack| > 0 ==> GateRight(SwitchEnd(s))
  {
  }

  lemma {:induction false} ForHooksKeepGate(m: Meaning, s: State, pos: nat, isSwitched: bool, v: Value, w: Value)
    requires GateRight(s)
    ensures GateRight(ForPreExpr1(s, pos)) && GateRight(ForPreExpr2(s, pos, isSwitched))
    ensures GateRight(ForPreExpr3(s, isSwitched)) && GateRight(ForPreStatement(m, s, isSwitched, v, w))
  {
  }

  /** Leaving a loop recomputes the gate, whatever it was. */
  lemma {:induction false} LeavingSetsGate(s: State, pos: nat, isSwitched: bool)
    ensures ForPostStatement(s, pos, isSwitched).Done? ==> GateRight(ForPostStatement(s, pos, isSwitched).value.0)
  {
  }

  lemma {:induction false} BranchHooksKeepGate(m: Meaning, s: State, v: Value, w: Value)
    requires GateRight(s)
    ensures GateRight(StartIf(m, s, v)) && GateRight(ControlHooks.EndIf(s))
    ensures GateRight(ElseifStartEvaluate(s)) && GateRight(ElseifEndEvaluate(s))
    ensures GateRight(StartElseif(m, s, v)) && GateRight(StartElse(s))
    ensures GateRight(PreOr(m, s, v)) && GateRight(PostOr(m, s, v, w).0)
    ensures GateRight(PreAnd(m, s, v)) && GateRight(PostAnd(m, s, v, w).0)
    ensures GateRight(PreYes(m, s, v)) && GateRight(PreNo(m, s, v)) && GateRight(PostNo(m, s, v, w, w).0)
  {
  }

  lemma {:induction false} JumpHooksKeepGate(m: Meaning, s: State, levels: Option<Value>)
    requires GateRight(s)
    ensures BreakContinue(m, s, levels, DoBreak).Done? ==> GateRight(BreakContinue(m, s, levels, DoBreak).value)
    ensures BreakContinue(m, s, levels, DoContinue).Done? ==> GateRight(BreakContinue(m, s, levels, DoContinue).value)
    ensures CsReturn(s, levels).Done? ==> GateRight(CsReturn(s, levels).value)
    ensures |s.fsStack| > 0 ==> GateRight(FunctioncallEnd(s).0)
    ensures GateRight(StartDeclaration(s))
  {
  }

  lemma {:induction false} CallHooksKeepGate(m: Meaning, s: State, name: string, body: Stmt, v: Value)
    requires GateRight(s)
    ensures PreVariablePassing(s, name).Done? ==> GateRight(PreVariablePassing(s, name).value.0)
    ensures GateRight(PassParameter(s, v))
    ensures s.execute ==> GateRight(PostVariablePassing(s, name))
    ensures EndDeclaration(s, name, body).Done? ==> GateRight(EndDeclaration(s, name, body).value)
  {
  }

  /** Every complete statement, run or skipped, however it completed, leaves all stacks and the
      nesting level as they were, adds no mark, keeps the gate right and a pending change aimed at an
      open loop, and restores the flag unless the function has returned. */
  lemma {:induction false} StatementsBalance(m: Meaning, st: Stmt, at: Place, s: State, fuel: nat)
    requires Consistent(s) && Ready(s.env.functions, s.switched) && Nested(st) && Fresh(s, Fors(st))
    requires Drive(m, st, at, s, fuel).Done?
    ensures var t := Drive(m, st, at, s, fuel).value;
      && SameFrame(s, t) && Consistent(t)
      && (!t.fs.returned || s.fs.returned ==> t.executeFlag == s.executeFlag)
      && (!s.execute ==> t == Swap(s, Fors(st)))
  {
    if s.execute { RefineStmt(m, st, at, s, fuel); } else { SkipStmt(m, st, at, s, fuel); }
  }

  /** Whatever a callee does, the caller's stacks, function state, flag and gate are what they were
      before the call; only what happened, the return value register and lost marks are new. */
  lemma {:induction false} CallIsolation(m: Meaning, e: Expr, s: State, fuel: nat)
    requires Consistent(s) && Ready(s.env.functions, s.switched) && e.Call?
    requires DriveExpr(m, e, s, fuel).Done?
    ensures var t := DriveExpr(m, e, s, fuel).value.0;
      && t.css == s.css && t.forStack == s.forStack && t.fsStack == s.fsStack && t.switchStack == s.switchStack
      && t.fs == s.fs && t.executeFlag == s.executeFlag && t.execute == s.execute
      && t.switched == s.switched && t.continued <= s.continued
  {
    if s.execute { RefineExpr(m, e, s, fuel); } else { SkipExpr(m, e, s, fuel); }
  }

  predicate Agrees(s: State, r: Result<State>, ref: Result<(Env, Outcome)>, fors: set<int>) {
    match ref
    case Timeout => r.Timeout?
    case Halt(why, trace) => r == Halt(why, trace)
    case Done((env, out)) => r.Done? && Encodes(s, r.value, env, out, fors)
  }

  /** The machine does what the structured semantics says unless a mark stops it or leads it
      astray; in particular no header is ever garbled and no stack ever runs empty. */
  lemma {:induction false} AgreesUnlessStopped(m: Meaning, st: Stmt, at: Place, s: State, fuel: nat)
    requires Running(s) && Nested(st) && Fresh(s, Fors(st))
    ensures var r := Drive(m, st, at, s, fuel);
            var ref := Exec(m, st, s.env, s.fs.loopNestLevel, InFunction(s), fuel);
            && (!MetMark(r) ==> Agrees(s, r, ref, Fors(st)))
            && (MetMark(r) && !MetSwallowed(r) ==> !Agrees(s, r, ref, Fors(st)))
  {
    RefineStmt(m, st, at, s, fuel);
  }

  /** When that is, without the machine: a statement that the semantics completes agrees exactly
      when no `while` in its text is marked where that stops the walk, and the semantics calls no
      function of which this is true.  The marks followed are those of the semantics.  In a script
      that is not tidy a swallowed `while` is not followed further, so there only one half is said. */
  lemma {:induction false} AgreesExactly(m: Meaning, st: Stmt, at: Place, s: State, fuel: nat, l: Layout)
    requires Legible(s, l) && Nested(st) && Fresh(s, Fors(st)) && LaidOut(st, at, l)
    ensures var r := Drive(m, st, at, s, fuel);
            var ref := Exec(m, st, s.env, s.fs.loopNestLevel, InFunction(s), fuel);
            var k := MarksStmt(m, st, s.env, s.fs.loopNestLevel, InFunction(s), s.continued, fuel);
            var agrees := Agrees(s, r, ref, Fors(st));
            && (Clear(s, Stops(st, at)) && k.Some? ==> agrees)
            && (l.tidy && ref.Done? && agrees ==> Clear(s, Stops(st, at)) && k == Some(r.value.continued))
            && (l.tidy && !agrees ==> MetMark(r) && !MetSwallowed(r))
  {
    TrackStmt(m, st, at, s, fuel, l);
    AgreesUnlessStopped(m, st, at, s, fuel);
  }

  // Whole scripts

  /** What the script of a request does by the structured semantics. */
  function Reference(m: Meaning, script: Stmt, fuel: nat): Result<(Env, Outcome)> {
    Exec(m, script, Env([], map[]), 0, false, fuel)
  }

  /** By the structured semantics, the script calls no function whose text holds a `while` whose
      condition is being evaluated again, unless it directly follows a `while` there. */
  predicate CallsNoStop(m: Meaning, script: Stmt, fuel: nat) {
    MarksStmt(m, script, Env([], map[]), 0, false, {}, fuel).Some?
  }

  /** What the text of a script guarantees: no `for` inside itself, and no `while` keyword both
      behind a `while` and elsewhere. */
  predicate WellPlaced(script: Stmt) { Nested(script) && Stops(script, BRACED) !! Softs(script, false) }

  /** A text whose `while` keywords each have their own position is so placed. */
  lemma {:induction false} TextsAreWellPlaced(script: Stmt)
    requires Nested(script) && OwnPlaces(script)
    ensures WellPlaced(script)
  {
    StopsFollowNoLoop(script, BRACED);
  }

  /** The machine ends as the semantics says; a script that is completed leaves the machine as it
      was at the start. */
  predicate RunsAsWritten(script: Stmt, r: Result<State>, ref: Result<(Env, Outcome)>) {
    match ref
    case Timeout => r.Timeout?
    case Halt(why, trace) => r == Halt(why, trace)
    case Done((env, out)) =>
      && out == Normal && r.Done?
      && r.value == State(EXECUTE, true, [], [], [], FunctionState(0, DoNothing, r.value.fs.changeLevel, false, None),
                          [], r.value.returnValue, Fors(script), {}, env)
  }

  /** A tidy script that the semantics completes runs as written exactly when the semantics calls no
      function that a mark stops; otherwise the machine stops at a marked `while` that no rule of the
      grammar can take.  Any script with no such call runs as written, however it ends. */
  lemma {:induction false} ScriptsRunExactly(m: Meaning, script: Stmt, fuel: nat)
    requires WellPlaced(script)
    ensures var r := Drive(m, script, BRACED, StartState(), fuel);
      var ref := Reference(m, script, fuel);
      && (CallsNoStop(m, script, fuel) ==> RunsAsWritten(script, r, ref))
      && (Tidy(script, BRACED) && ref.Done? && RunsAsWritten(script, r, ref) ==> CallsNoStop(m, script, fuel))
      && (Tidy(script, BRACED) && !RunsAsWritten(script, r, ref) ==> r.Halt? && r.why == ContinuedWhileMet)
  {
    var l := Layout(Softs(script, false), Tidy(script, BRACED));
    AgreesExactly(m, script, BRACED, StartState(), fuel, l);
    AgreesAtStart(script, Drive(m, script, BRACED, StartState(), fuel), Reference(m, script, fuel));
  }

  lemma {:induction false} AgreesAtStart(script: Stmt, r: Result<State>, ref: Result<(Env, Outcome)>)
    requires Sound(ref, 0, false)
    ensures Agrees(StartState(), r, ref, Fors(script)) ==> RunsAsWritten(script, r, ref)
    ensures RunsAsWritten(script, r, ref) ==>
      (ref.Done? <==> r.Done?) && !MetMark(r)
  {
    assert StartState().switched + Fors(script) == Fors(script);
  }

  /** Every script whose call graph is safe runs as written. */
  lemma {:induction false} ScriptsRunAsWritten(m: Meaning, script: Stmt, fuel: nat)
    requires WellPlaced(script) && CallGraphSafe(script)
    ensures RunsAsWritten(script, Drive(m, script, BRACED, StartState(), fuel), Reference(m, script, fuel))
  {
    CallGraphSuffices(m, script, fuel);
    ScriptsRunExactly(m, script, fuel);
  }

  // break n

  lemma {:induction false} LoopsWellPlaced(kinds: seq<Kind>, c: int, b: int, at: Place, ds: set<Declaration>)
    ensures var st := AllAround(kinds, c, Break(Some(Atom(b))));
      && Nested(st) && (forall pos <- Fors(st) :: pos <= |kinds|)
      && (!at.after ==> Softs(st, false) == {}) && SafeLoops(st, ds)
    decreases |kinds|
  {
    if kinds != [] {
      LoopsWellPlaced(kinds[1..], c, b, BRACED, ds);
      var inner := AllAround(kinds[1..], c, Break(Some(Atom(b))));
      assert Fors(Around(kinds[0], |kinds|, c, inner)) <= Fors(inner) + {|kinds| as int} by {
        assert CaseFors(Default(inner)) == Fors(inner);
      }
    }
  }

  /** A `break n` inside n loops and switches of any kind ends them all: the machine evaluates what is
      on the way in, and nothing after. */
  lemma {:induction false} BreakLeavesThemAll(m: Meaning, kinds: seq<Kind>, c: int, b: int, fuel: nat)
    requires kinds != [] && forall t :: m.value(t, c) == Num(1) && m.value(t, b) == Num(|kinds|)
    ensures var r := Drive(m, AllAround(kinds, c, Break(Some(Atom(b)))), BRACED, StartState(), fuel);
      r.Done? && r.value.env == Env(Evaluations(c, WayIn(kinds)) + [Evaluated(b)], map[])
  {
    var script := AllAround(kinds, c, Break(Some(Atom(b))));
    LoopsWellPlaced(kinds, c, b, BRACED, Declarations(script));
    ScriptsRunAsWritten(m, script, fuel);
    LeaveAll(m, kinds, c, b, |kinds|, Env([], map[]), 0, false, fuel);
    var after := Env(Evaluations(c, WayIn(kinds)) + [Evaluated(b)], map[]);
    assert Env([], map[]).trace + Evaluations(c, WayIn(kinds)) + [Evaluated(b)] == after.trace;
    assert Reference(m, script, fuel) == Done((after, Normal));
  }

  // Scripts with recursion in the condition of a loop

  const RECURSE: Expr := Call("f", NoArgs)

  /** function f() { while (a0); while (a1 ? f() : a2); }  f(); */
  const ABSORBING: Stmt :=
    Seq(Declare("f", Seq(While(1, Atom(0), Nop), While(2, Ternary(Atom(1), RECURSE, Atom(2)), Nop))), Do(RECURSE))

  /** The second loop directly follows a loop, so the parser takes it for an iteration of that. */
  lemma {:induction false} AbsorbingScriptRuns(m: Meaning, fuel: nat)
    ensures RunsAsWritten(ABSORBING, Drive(m, ABSORBING, BRACED, StartState(), fuel), Reference(m, ABSORBING, fuel))
  {
    var ds := Declarations(ABSORBING);
    assert forall d <- ds :: 2 !in Stops(d.body, BRACED);
    assert !LeadsTo(ds, "f", 2);
    ScriptsRunAsWritten(m, ABSORBING, fuel);
  }

  /** Evaluates atom 0 to true as the fourth event only and atom 1 to true as the third only. */
  function WaveValue(t: Trace, id: int): Value { Bool((id == 0 && |t| == 4) || (id == 1 && |t| == 3)) }

  function Wave(): Meaning {
    Meaning(WaveValue, code => false, code => 0, (v, w) => v == w, (t, id) => Null)
  }

  const AGAIN: Expr := Ternary(Atom(0), RECURSE, Atom(1))
  const LOOP: Stmt := While(1, AGAIN, Nop)

  /** function f() { while (a0 ? f() : a1); }  f(); */
  const UNSAFE: Stmt := Seq(Declare("f", LOOP), Do(RECURSE))

  predicate LoopDeclared(env: Env) { env.functions == map["f" := LOOP] }

  lemma {:induction false} AtomOfWave(env: Env, id: int, fuel: nat)
    ensures var env1 := env.Log(Evaluated(id));
            Eval(Wave(), Atom(id), env, fuel) == Done((env1, WaveValue(env1.trace, id)))
  {
    assert Wave().value == WaveValue;
  }

  /** Everywhere but after three events the condition makes no call. */
  lemma {:induction false} ConditionWithoutCall(env: Env, fuel: nat, marks: Marks)
    requires |env.trace| != 3
    ensures var r := Eval(Wave(), AGAIN, env, fuel);
      && r.Done? && r.value.0.functions == env.functions
      && |r.value.0.trace| == |env.trace| + 2
      && (IsTrue(Wave(), r.value.1) <==> |env.trace| == 1)
    ensures MarksExpr(Wave(), AGAIN, env, marks, fuel) == Some(marks)
  {
    AtomOfWave(env, 0, fuel);
    AtomOfWave(env.Log(Evaluated(0)), 1, fuel);
  }

  lemma {:induction false} LoopEndsAtOnce(env: Env, depth: nat, fuel: nat)
    requires |env.trace| > 3
    ensures var r := ExecWhile(Wave(), LOOP, env, depth, true, fuel);
      r.Done? && r.value.0.functions == env.functions && r.value.1 == Normal
  {
    ConditionWithoutCall(env, fuel, {});
  }

  /** After three events it calls the function that holds the loop. */
  lemma {:induction false} ConditionWithCall(env: Env, fuel: nat)
    requires |env.trace| == 3 && LoopDeclared(env) && fuel > 0
    ensures var r := Eval(Wave(), AGAIN, env, fuel);
      r.Done? && r.value.0.functions == env.functions && r.value.1 == Null
    ensures MarksExpr(Wave(), AGAIN, env, {1}, fuel) == None
  {
    var m := Wave();
    var env1 := env.Log(Evaluated(0));
    AtomOfWave(env, 0, fuel);
    var env2 := env1.Log(Entered("f"));
    LoopEndsAtOnce(env2, 0, fuel - 1);
    assert EvalArgs(m, NoArgs, env1, fuel) == Done(env1);
    assert Exec(m, LOOP, env2, 0, true, fuel - 1) == ExecWhile(m, LOOP, env2, 0, true, fuel - 1);
    assert Eval(m, RECURSE, env1, fuel).Done?;
    assert 1 in Stops(LOOP, BRACED);
    assert MarksArgs(m, NoArgs, env1, {1}, fuel) == Some({1});
    assert MarksExpr(m, RECURSE, env1, {1}, fuel) == None;
  }

  lemma {:induction false} LoopEnds(env: Env, fuel: nat)
    requires |env.trace| == 1 && LoopDeclared(env) && fuel > 1
    ensures var r := Exec(Wave(), LOOP, env, 0, true, fuel);
      r.Done? && r.value.0.functions == env.functions && r.value.1 == Normal
    ensures MarksStmt(Wave(), LOOP, env, 0, true, {}, fuel) == None
  {
    var m := Wave();
    ConditionWithoutCall(env, fuel, {});
    var env1 := Eval(m, AGAIN, env, fuel).value.0;
    assert Exec(m, Nop, env1, 1, true, fuel) == Done((env1, Normal));
    ConditionWithCall(env1, fuel - 1);
    assert ExecWhile(m, LOOP, env1, 0, true, fuel - 1).Done?;
    assert MarksStmt(m, Nop, env1, 1, true, {}, fuel) == Some({});
    assert {} + {1} == {1};
    assert MarksWhile(m, LOOP, env1, 0, true, {1}, fuel - 1) == None;
    assert MarksExpr(m, AGAIN, env, {}, fuel) == Some({}) && {} - {1} == {};
    assert MarksWhile(m, LOOP, env, 0, true, {}, fuel) == None;
  }

  lemma {:induction false} UnsafeScriptCompletes(fuel: nat)
    requires fuel > 2
    ensures Reference(Wave(), UNSAFE, fuel).Done?
    ensures !CallsNoStop(Wave(), UNSAFE, fuel)
  {
    var m := Wave();
    var env := Env([], map["f" := LOOP]);
    assert Exec(m, Declare("f", LOOP), Env([], map[]), 0, false, fuel) == Done((env, Normal));
    assert EvalArgs(m, NoArgs, env, fuel) == Done(env);
    LoopEnds(env.Log(Entered("f")), fuel - 1);
    assert Eval(m, RECURSE, env, fuel).Done?;
    assert Exec(m, Do(RECURSE), env, 0, false, fuel).Done?;
    assert MarksArgs(m, NoArgs, env, {}, fuel) == Some({});
    assert MarksExpr(m, RECURSE, env, {}, fuel) == None;
    assert MarksStmt(m, Do(RECURSE), env, 0, false, {}, fuel) == None;
    assert MarksStmt(m, Declare("f", LOOP), Env([], map[]), 0, false, {}, fuel) == Some({});
    assert MarksStmt(m, UNSAFE, Env([], map[]), 0, false, {}, fuel) == None;
  }

  /** The structured semantics completes the script; the machine stops at the marked `while`. */
  lemma {:induction false} UnsafeScriptStops(fuel: nat)
    requires fuel > 2
    ensures Reference(Wave(), UNSAFE, fuel).Done?
    ensures var r := Drive(Wave(), UNSAFE, BRACED, StartState(), fuel); r.Halt? && r.why == ContinuedWhileMet
  {
    UnsafeScriptCompletes(fuel);
    ScriptsRunExactly(Wave(), UNSAFE, fuel);
  }
}
