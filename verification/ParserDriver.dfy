/** The parser walking over the tokens of a construct: the hooks in the order in which
    language-parser.y calls them.  Being sent back in the token cache is walking over the same
    construct again, which takes one unit of fuel. */
module ParserDriver {
  import opened Options
  import opened PhpSyntax
  import opened StructuredSemantics
  import opened ControlHooks

  /** Text is parsed whether or not it has effects, so every construct is walked in full. */
  function DriveExpr(m: Meaning, e: Expr, s: State, fuel: nat): Result<(State, Value)>
    decreases fuel, e, 1
  {
    match e
    case Empty => Done((s, Num(1)))
    case Atom(id) =>
      Done(Operate(m, s, id))
    case Op(id, operands) =>
      var s1 :- DriveArgs(m, operands, s, fuel);
      Done(Operate(m, s1, id))
    case Or(a, b) =>
      var (s1, v) :- DriveExpr(m, a, s, fuel);
      var (s2, w) :- DriveExpr(m, b, PreOr(m, s1, v), fuel);
      Done(PostOr(m, s2, v, w))
    case And(a, b) =>
      var (s1, v) :- DriveExpr(m, a, s, fuel);
      var (s2, w) :- DriveExpr(m, b, PreAnd(m, s1, v), fuel);
      Done(PostAnd(m, s2, v, w))
    case Ternary(_, _, _) => DriveTernary(m, e, s, fuel)
    case Call(_, _) => DriveCall(m, e, s, fuel)
  }

  /** The action of an expression without control flow. */
  function Operate(m: Meaning, s: State, id: int): (State, Value) {
    if s.execute then
      var env1 := s.env.Log(Evaluated(id));
      (s.(env := env1), m.value(env1.trace, id))
    else (s, m.stale(s.env.trace, id))
  }

  function DriveTernary(m: Meaning, e: Expr, s: State, fuel: nat): Result<(State, Value)>
    requires e.Ternary?
    decreases fuel, e, 0
  {
    var (s1, t) :- DriveExpr(m, e.test, s, fuel);
    var (s2, v) :- DriveExpr(m, e.yes, PreYes(m, s1, t), fuel);
    var (s3, w) :- DriveExpr(m, e.no, PreNo(m, s2, t), fuel);
    Done(PostNo(m, s3, t, v, w))
  }

  /** The callee's body is walked over where it was declared; then the parser returns. */
  function DriveCall(m: Meaning, e: Expr, s: State, fuel: nat): Result<(State, Value)>
    requires e.Call?
    decreases fuel, e, 0
  {
    var (s1, callee) :- PreVariablePassing(s, e.name);
    var s2 :- DriveArgs(m, e.args, s1, fuel);
    if callee.None? then Done((s2, Null))
    else if fuel == 0 then Timeout
    else
      var s3 :- Drive(m, callee.value, BRACED, PostVariablePassing(s2, e.name), fuel - 1);
      if |s3.fsStack| == 0 then Halt(EmptyStack, s3.env.trace) else Done(FunctioncallEnd(s3))
  }

  function DriveArgs(m: Meaning, args: Exprs, s: State, fuel: nat): Result<State>
    decreases fuel, args
  {
    match args
    case NoArgs => Done(s)
    case Arg(e, rest) =>
      var (s1, v) :- DriveExpr(m, e, s, fuel);
      DriveArgs(m, rest, PassParameter(s1, v), fuel)
  }

  /** Walks over the statement at a place of the text.  A marked `while` is an iteration of the
      `while` it directly follows; elsewhere the grammar has no use for it. */
  function Drive(m: Meaning, st: Stmt, at: Place, s: State, fuel: nat): Result<State>
    decreases fuel, st, 2
  {
    match st
    case Nop => Done(s)
    case Seq(a, b) =>
      var s1 :- Drive(m, a, FirstPlace(at, b), s, fuel);
      Drive(m, b, SecondPlace(a, at), s1, fuel)
    case Block(body) => Drive(m, body, BRACED, s, fuel)
    case Do(e) =>
      var (s1, _) :- DriveExpr(m, e, s, fuel);
      Done(s1)
    case If(_, _, _) => DriveIf(m, st, at, s, fuel)
    case While(pos, _, _) =>
      if pos as int in s.continued && !at.after then Halt(ContinuedWhileMet, s.env.trace)
      else
        var s1 :- DriveWhile(m, st, at, s, fuel);
        PastWhile(at, s1)
    case DoWhile(_, _) => DriveDoWhile(m, st, s, fuel)
    case For(_, _, _, _, _) => DriveFor(m, st, at, s, fuel)
    case Switch(_, _, _) => DriveSwitch(m, st, s, fuel)
    case Break(levels) =>
      var (s1, v) :- DriveOption(m, levels, s, fuel);
      BreakContinue(m, s1, v, DoBreak)
    case Continue(levels) =>
      var (s1, v) :- DriveOption(m, levels, s, fuel);
      BreakContinue(m, s1, v, DoContinue)
    case Return(result) =>
      var (s1, v) :- DriveOption(m, result, s, fuel);
      CsReturn(s1, v)
    case Declare(name, body) =>
      var s1 :- Drive(m, body, BRACED, StartDeclaration(s), fuel);
      EndDeclaration(s1, name, body)
  }

  /** The parser looks for iterations of the `while` it has just walked over.  A marked `while`
      behind the enclosing statement would be one; the walk is not followed further then. */
  function PastWhile(at: Place, s: State): Result<State> {
    if Swallowed(at) !! s.continued then Done(s) else Halt(WhileSwallowed, s.env.trace)
  }

  function DriveIf(m: Meaning, st: Stmt, at: Place, s: State, fuel: nat): Result<State>
    requires st.If?
    decreases fuel, st, 1
  {
    var (s1, v) :- DriveExpr(m, st.cond, s, fuel);
    var s2 :- Drive(m, st.thn, BranchPlace(st.tail, at), StartIf(m, s1, v), fuel);
    var s3 :- DriveTail(m, st.tail, at, s2, fuel);
    Done(ControlHooks.EndIf(s3))
  }

  // Loops: one walk, and the further walks it asks for.

  function DriveWhile(m: Meaning, st: Stmt, at: Place, s: State, fuel: nat): Result<State>
    requires st.While?
    decreases fuel, st, 1
  {
    var (s1, v) :- DriveExpr(m, st.cond, s, fuel);
    var s2 :- Drive(m, st.body, BodyPlace(at), StartWhile(m, s1, st.pos, v), fuel);
    var (s3, again) := EndWhile(s2, st.pos);
    if !again then Done(s3) else if fuel == 0 then Timeout else DriveWhile(m, st, at, s3, fuel - 1)
  }

  function DriveDoWhile(m: Meaning, st: Stmt, s: State, fuel: nat): Result<State>
    requires st.DoWhile?
    decreases fuel, st, 1
  {
    var s1 :- Drive(m, st.body, BRACED, StartDoWhile(s), fuel);
    var (s2, v) :- DriveExpr(m, st.cond, ForceEvalDoWhile(s1), fuel);
    var (s3, again) := EndDoWhile(m, s2, v);
    if !again then Done(s3) else if fuel == 0 then Timeout else DriveDoWhile(m, st, s3, fuel - 1)
  }

  function DriveFor(m: Meaning, st: Stmt, at: Place, s: State, fuel: nat): Result<State>
    requires st.For?
    decreases fuel, st, 1
  {
    var s1 :- DriveForHeader(m, st, s, fuel);
    DriveForBody(m, st, at, s1, st.pos as int in s.switched, fuel)
  }

  function DriveForBody(m: Meaning, st: Stmt, at: Place, s: State, isSwitched: bool, fuel: nat): Result<State>
    requires st.For?
    decreases fuel, st, 0
  {
    var s1 :- Drive(m, st.body, BodyPlace(at), s, fuel);
    var (s2, again) :- ForPostStatement(s1, st.pos, isSwitched);
    if !again then Done(s2) else if fuel == 0 then Timeout else DriveFor(m, st, at, s2, fuel - 1)
  }

  /** The header parts are read in the order the token cache has them in. */
  function DriveForHeader(m: Meaning, st: Stmt, s: State, fuel: nat): Result<State>
    requires st.For?
    decreases fuel, st, 0
  {
    var isSwitched := st.pos as int in s.switched;
    var (s1, _) :- DriveExpr(m, st.init, ForPreExpr1(s, st.pos), fuel);
    var (s2, v) :- DriveExpr(m, SecondPart(st, isSwitched), ForPreExpr2(s1, st.pos, isSwitched), fuel);
    var (s3, w) :- DriveExpr(m, ThirdPart(st, isSwitched), ForPreExpr3(s2, isSwitched), fuel);
    Done(ForPreStatement(m, s3, isSwitched, v, w))
  }

  function SecondPart(st: Stmt, isSwitched: bool): Expr
    requires st.For?
  {
    if isSwitched then st.step else st.cond
  }

  function ThirdPart(st: Stmt, isSwitched: bool): Expr
    requires st.For?
  {
    if isSwitched then st.cond else st.step
  }

  function DriveSwitch(m: Meaning, st: Stmt, s: State, fuel: nat): Result<State>
    requires st.Switch?
    decreases fuel, st, 1
  {
    var (s1, v) :- DriveExpr(m, st.subject, s, fuel);
    var s2 :- DriveCases(m, st.cases, SwitchStart(s1, st.pos, v), fuel);
    if |s2.switchStack| == 0 then Halt(EmptyStack, s2.env.trace) else Done(SwitchEnd(s2))
  }

  function DriveOption(m: Meaning, e: Option<Expr>, s: State, fuel: nat): Result<(State, Option<Value>)>
    decreases fuel, e
  {
    match e
    case None => Done((s, None))
    case Some(e) =>
      var (s1, v) :- DriveExpr(m, e, s, fuel);
      Done((s1, Some(v)))
  }

  function DriveTail(m: Meaning, t: IfTail, at: Place, s: State, fuel: nat): Result<State>
    decreases fuel, t
  {
    match t
    case EndIf => Done(s)
    case Else(body) => Drive(m, body, BodyPlace(at), StartElse(s), fuel)
    case ElseIf(c, body, rest) =>
      var (s1, v) :- DriveExpr(m, c, ElseifStartEvaluate(s), fuel);
      var s2 :- Drive(m, body, BranchPlace(rest, at), StartElseif(m, ElseifEndEvaluate(s1), v), fuel);
      DriveTail(m, rest, at, s2, fuel)
  }

  function DriveCases(m: Meaning, cs: Cases, s: State, fuel: nat): Result<State>
    decreases fuel, cs
  {
    match cs
    case EndCases => Done(s)
    case Default(body) =>
      if |s.switchStack| == 0 then Halt(EmptyStack, s.env.trace) else
      var s1 :- Drive(m, body, BRACED, SwitchCasePre(m, s, None), fuel);
      Done(SwitchCasePost(s1))
    case Case(key, body, rest) =>
      var (s1, v) :- DriveExpr(m, key, s, fuel);
      if |s1.switchStack| == 0 then Halt(EmptyStack, s1.env.trace) else
      var s2 :- Drive(m, body, BRACED, SwitchCasePre(m, s1, Some(v)), fuel);
      DriveCases(m, rest, SwitchCasePost(s2), fuel)
  }
}
