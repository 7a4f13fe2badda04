/** The control hooks as state transformers: one function for each `cs_` and `for_` hook of
    control_structures_inline.h.  The class ControlMachine performs them in place. */
module ControlHooks {
  import opened Options
  import opened PhpSyntax
  import opened StructuredSemantics

  const EXECUTE: int := 0
  const BEFORE_EXECUTE: int := 1
  const DONT_EXECUTE: int := 2

  datatype Change = DoNothing | DoBreak | DoContinue

  datatype FunctionState = FunctionState(
    loopNestLevel: int,
    changeType: Change,
    changeLevel: int,
    returned: bool,
    functionName: Option<string>)

  datatype SwitchExpr = SwitchExpr(expr: Value, offset: int, execute: bool)

  datatype State = State(
    executeFlag: int,
    execute: bool,
    css: seq<int>,
    forStack: seq<int>,
    switchStack: seq<SwitchExpr>,
    fs: FunctionState,
    fsStack: seq<FunctionState>,
    returnValue: Value,
    switched: set<int>,      // `for` tokens whose header parts have been exchanged
    continued: set<int>,     // `while` tokens now of type CONTINUED_WHILE
    env: Env)

  /** The state in which a request starts. */
  function StartState(): State {
    State(EXECUTE, true, [], [], [], FunctionState(0, DoNothing, 0, false, None), [], Null, {}, {}, Env([], map[]))
  }

  /** The gate: whether actions take effect. */
  predicate ShouldExecute(s: State) {
    s.executeFlag == EXECUTE && !s.fs.returned && s.fs.changeType == DoNothing
  }

  function Gate(s: State): State { s.(execute := ShouldExecute(s)) }

  function SetFlag(s: State, flag: int): State { Gate(s.(executeFlag := flag)) }

  // The stacks of stack.c; the top of an empty integer stack reads as FAILURE, that is -1.

  function IntTop(stack: seq<int>): int { if |stack| == 0 then -1 else stack[|stack| - 1] }

  function DelTop<T>(stack: seq<T>): seq<T> { if |stack| == 0 then stack else stack[..|stack| - 1] }

  function Push<T>(stack: seq<T>, x: T): (r: seq<T>)
    ensures |r| == |stack| + 1 && r[|stack|] == x && DelTop(r) == stack
  {
    stack + [x]
  }

  function PushFlag(s: State): State { s.(css := Push(s.css, s.executeFlag)) }

  /** ExecuteFlag = top of css; the entry goes; the gate is recomputed. */
  function PopFlag(s: State): State { SetFlag(s.(css := DelTop(s.css)), IntTop(s.css)) }

  function EnterLoop(s: State): State {
    PushFlag(s.(fs := s.fs.(loopNestLevel := s.fs.loopNestLevel + 1)))
  }

  function LeaveLoop(s: State): State {
    var t := PopFlag(s);
    t.(fs := t.fs.(loopNestLevel := t.fs.loopNestLevel - 1))
  }

  /** The pending break or continue is aimed at the innermost open loop. */
  predicate ChangeIsHere(s: State) {
    s.fs.changeType != DoNothing && s.fs.changeLevel == s.fs.loopNestLevel
  }

  function ClearChange(s: State): State {
    s.(fs := s.fs.(changeType := DoNothing, changeLevel := 0))
  }

  // while

  function StartWhile(m: Meaning, s: State, pos: nat, cond: Value): State {
    var t := EnterLoop(s);
    if t.execute then
      SetFlag(t.(continued := t.continued - {pos as int}), if IsTrue(m, cond) then EXECUTE else DONT_EXECUTE)
    else t
  }

  /** The new state, and whether the parser has been sent back to the `while` token. */
  function EndWhile(s: State, pos: nat): (State, bool) {
    if s.execute then (LeaveLoop(s.(continued := s.continued + {pos as int})), true)
    else if ChangeIsHere(s) then
      if s.fs.changeType == DoContinue then
        (LeaveLoop(ClearChange(s.(continued := s.continued + {pos as int}))), true)
      else (LeaveLoop(ClearChange(s)), false)
    else (LeaveLoop(s), false)
  }

  // do .. while

  function StartDoWhile(s: State): State { EnterLoop(s) }

  function ForceEvalDoWhile(s: State): State {
    if s.fs.changeLevel == s.fs.loopNestLevel && s.fs.changeType == DoContinue
    then SetFlag(ClearChange(s), EXECUTE)
    else s
  }

  function EndDoWhile(m: Meaning, s: State, cond: Value): (State, bool) {
    if s.execute && IsTrue(m, cond) then (LeaveLoop(s), true)
    else if ChangeIsHere(s) then (LeaveLoop(ClearChange(s)), false)
    else (LeaveLoop(s), false)
  }

  // if

  function StartIf(m: Meaning, s: State, cond: Value): State {
    var t := PushFlag(s);
    if t.execute then SetFlag(t, if IsTrue(m, cond) then EXECUTE else BEFORE_EXECUTE)
    else t.(executeFlag := DONT_EXECUTE)
  }

  function EndIf(s: State): State { PopFlag(s) }

  /** An executed branch closes the chain. */
  function CloseBranch(s: State): State {
    if s.executeFlag == EXECUTE then SetFlag(s, DONT_EXECUTE) else s
  }

  function ElseifStartEvaluate(s: State): State {
    var t := CloseBranch(s);
    var u := PushFlag(t);
    if t.executeFlag == BEFORE_EXECUTE && IntTop(t.css) == EXECUTE then SetFlag(u, EXECUTE) else u
  }

  function ElseifEndEvaluate(s: State): State { PopFlag(s) }

  function StartElseif(m: Meaning, s: State, cond: Value): State {
    var t := CloseBranch(s);
    if t.executeFlag == BEFORE_EXECUTE && IsTrue(m, cond) then SetFlag(t, EXECUTE) else t
  }

  function StartElse(s: State): State {
    var t := CloseBranch(s);
    if t.executeFlag == BEFORE_EXECUTE then SetFlag(t, EXECUTE) else t
  }

  // break and continue

  /** `levels` is None when the statement has no operand. */
  function BreakContinue(m: Meaning, s: State, levels: Option<Value>, op: Change): Result<State>
    requires op != DoNothing
  {
    if !s.execute then Done(s)
    else
      var level := if levels.Some? then s.fs.loopNestLevel - ToLong(m, levels.value) + 1 else s.fs.loopNestLevel;
      if level <= 0 || level > s.fs.loopNestLevel then Halt(BadLevel, s.env.trace)
      else Done(s.(fs := s.fs.(changeLevel := level, changeType := op), execute := false))
  }

  // for

  function ForPreExpr1(s: State, pos: nat): State {
    var t := EnterLoop(s);
    if t.execute && IntTop(t.forStack) == pos then SetFlag(t, DONT_EXECUTE) else t
  }

  // `isSwitched` is the bit the parser read with the `for` token of this pass.

  function ForPreExpr2(s: State, pos: nat, isSwitched: bool): State {
    var t := SetFlag(s, IntTop(s.css));
    if isSwitched && IntTop(t.forStack) != pos then SetFlag(t, DONT_EXECUTE) else t
  }

  function ForPreExpr3(s: State, isSwitched: bool): State {
    var t := SetFlag(s, IntTop(s.css));
    if t.execute && !isSwitched then SetFlag(t, DONT_EXECUTE) else t
  }

  function ForPreStatement(m: Meaning, s: State, isSwitched: bool, expr2: Value, expr3: Value): State {
    var t := SetFlag(s, IntTop(s.css));
    if t.execute then SetFlag(t, if IsTrue(m, if isSwitched then expr3 else expr2) then EXECUTE else DONT_EXECUTE)
    else t
  }

  /** Exchanging the header of a `for` that has been exchanged already destroys it. */
  function ForPostStatement(s: State, pos: nat, isSwitched: bool): Result<(State, bool)> {
    if !isSwitched && pos as int in s.switched then Halt(Garbled, s.env.trace)
    else
      var t := if IntTop(s.forStack) != pos then s.(forStack := Push(s.forStack, pos)) else s;
      var u := if isSwitched then t else t.(switched := t.switched + {pos as int});
      var popped := if IntTop(u.forStack) == pos then u.(forStack := DelTop(u.forStack)) else u;
      if u.execute then Done((LeaveLoop(u), true))
      else if ChangeIsHere(u) then
        if u.fs.changeType == DoContinue then Done((LeaveLoop(ClearChange(u)), true))
        else Done((LeaveLoop(ClearChange(popped)), false))
      else Done((LeaveLoop(popped), false))
  }

  // return

  function CsReturn(s: State, result: Option<Value>): Result<State> {
    if !s.execute then Done(s)
    else if s.fs.functionName.Some? then
      var v := if result.Some? then result.value else Null;
      Done(SetFlag(s.(returnValue := v, fs := s.fs.(returned := true)), DONT_EXECUTE))
    else Halt(LeftMain, if result.Some? then s.env.Log(Printed(result.value)).trace else s.env.trace)
  }

  // ||, && and ?:

  function PreOr(m: Meaning, s: State, left: Value): State {
    var t := PushFlag(s);
    if t.execute && IsTrue(m, left) then SetFlag(t, DONT_EXECUTE) else t
  }

  function PostOr(m: Meaning, s: State, left: Value, right: Value): (State, Value) {
    var t := PopFlag(s);
    (t, if t.execute then Bool(IsTrue(m, left) || IsTrue(m, right)) else left)
  }

  function PreAnd(m: Meaning, s: State, left: Value): State {
    var t := PushFlag(s);
    if t.execute && !IsTrue(m, left) then SetFlag(t, DONT_EXECUTE) else t
  }

  function PostAnd(m: Meaning, s: State, left: Value, right: Value): (State, Value) {
    var t := PopFlag(s);
    (t, if t.execute then Bool(IsTrue(m, left) && IsTrue(m, right)) else left)
  }

  function PreYes(m: Meaning, s: State, test: Value): State {
    var t := PushFlag(s);
    if t.execute && !IsTrue(m, test) then SetFlag(t, DONT_EXECUTE) else t
  }

  function PreNo(m: Meaning, s: State, test: Value): State {
    var t := SetFlag(s, IntTop(s.css));
    if t.execute && IsTrue(m, test) then SetFlag(t, DONT_EXECUTE) else t
  }

  function PostNo(m: Meaning, s: State, test: Value, yes: Value, no: Value): (State, Value) {
    var t := PopFlag(s);
    (t, if t.execute then (if IsTrue(m, test) then yes else no) else test)
  }

  // function calls

  /** The body to run is found before the arguments are evaluated; None when nothing is called. */
  function PreVariablePassing(s: State, name: string): Result<(State, Option<Stmt>)> {
    if !s.execute then Done((s, None))
    else if name !in s.env.functions then Halt(Undefined(name), s.env.trace)
    else Done((s.(forStack := Push(s.forStack, -1), fsStack := Push(s.fsStack, s.fs),
                  fs := s.fs.(functionName := Some(name))), Some(s.env.functions[name])))
  }

  function PassParameter(s: State, v: Value): State {
    if s.execute then s.(env := s.env.Log(Passed(v))) else s
  }

  function PostVariablePassing(s: State, name: string): State {
    PushFlag(s).(fs := s.fs.(loopNestLevel := 0, changeLevel := 0, changeType := DoNothing),
      returnValue := Null, env := s.env.Log(Entered(name)))
  }

  /** The `for` stack down to the nearest marker, without the marker. */
  function UnwindFors(stack: seq<int>): seq<int> {
    if IntTop(stack) == -1 then DelTop(stack) else UnwindFors(DelTop(stack))
  }

  function FunctioncallEnd(s: State): (State, Value)
    requires |s.fsStack| > 0
  {
    var result := if s.fs.returned then s.returnValue else Null;
    var t := s.(forStack := UnwindFors(s.forStack), fs := s.fsStack[|s.fsStack| - 1],
                fsStack := DelTop(s.fsStack), env := s.env.Log(Left(result)));
    (PopFlag(t), result)
  }

  // switch

  function SwitchStart(s: State, pos: nat, subject: Value): State {
    var t := EnterLoop(s);
    t.(switchStack := Push(t.switchStack, SwitchExpr(subject, pos, t.execute)))
  }

  /** `key` is None for `default`. */
  function SwitchCasePre(m: Meaning, s: State, key: Option<Value>): State
    requires |s.switchStack| > 0
  {
    var top := |s.switchStack| - 1;
    var se := s.switchStack[top];
    if !s.execute || se.offset == -1 then s
    else if key.None? || m.equal(se.expr, key.value) then
      SetFlag(s.(switchStack := s.switchStack[top := se.(offset := -1)]), EXECUTE)
    else SetFlag(s, DONT_EXECUTE)
  }

  function SwitchCasePost(s: State): State { SetFlag(s, IntTop(s.css)) }

  function SwitchEnd(s: State): State
    requires |s.switchStack| > 0
  {
    var t := if !s.execute && s.fs.changeLevel == s.fs.loopNestLevel
             then s.(fs := s.fs.(changeType := DoNothing)) else s;
    var u := PopFlag(t);
    u.(switchStack := DelTop(u.switchStack), fs := u.fs.(loopNestLevel := u.fs.loopNestLevel - 1))
  }

  // function declarations

  function StartDeclaration(s: State): State { SetFlag(PushFlag(s), DONT_EXECUTE) }

  function EndDeclaration(s: State, name: string, body: Stmt): Result<State> {
    var t := PopFlag(s);
    if !t.execute then Done(t)
    else if name in t.env.functions then Halt(Redeclared(name), t.env.trace)
    else Done(t.(env := t.env.(functions := t.env.functions[name := body])))
  }
}
