/** The interpreter's control globals and the hooks that update them in place. */
module ControlMachineModule {
  import opened Options
  import opened PhpSyntax
  import opened StructuredSemantics
  import ParserDriver
  import opened ControlHooks

  datatype Status = Completed | Stopped(why: Reason, at: Trace) | OutOfFuel

  /** What a run of the machine must leave, given what the driver computes from its old state. */
  predicate Performs(r: Result<State>, status: Status, after: State) {
    match r
    case Done(s) => status == Completed && after == s
    case Halt(why, trace) => status == Stopped(why, trace)
    case Timeout => status == OutOfFuel
  }

  ghost predicate Yields<T>(r: Result<(State, T)>, status: Status, after: State, v: T) {
    match r
    case Done((s, w)) => status == Completed && after == s && v == w
    case Halt(why, trace) => status == Stopped(why, trace)
    case Timeout => status == OutOfFuel
  }

  class ControlMachine {
    const m: Meaning
    var executeFlag: int
    var execute: bool
    var css: seq<int>
    var forStack: seq<int>
    var switchStack: seq<SwitchExpr>
    var fs: FunctionState
    var fsStack: seq<FunctionState>
    var returnValue: Value
    var switched: set<int>
    var continued: set<int>
    var env: Env

    function Snapshot(): State
      reads this
    {
      State(executeFlag, execute, css, forStack, switchStack, fs, fsStack, returnValue, switched, continued, env)
    }

    /** The state in which a request starts. */
    constructor (meaning: Meaning)
      ensures m == meaning
      ensures Snapshot() == StartState()
      ensures Snapshot() == State(EXECUTE, true, [], [], [], FunctionState(0, DoNothing, 0, false, None), [], Null,
                                  {}, {}, Env([], map[]))
    {
      m := meaning;
      executeFlag, execute := EXECUTE, true;
      css, forStack, switchStack, fsStack := [], [], [], [];
      fs := FunctionState(0, DoNothing, 0, false, None);
      returnValue := Null;
      switched, continued := {}, {};
      env := Env([], map[]);
    }

    method SetFlag(flag: int)
      modifies this
      ensures Snapshot() == ControlHooks.SetFlag(old(Snapshot()), flag)
    {
      executeFlag := flag;
      execute := executeFlag == EXECUTE && !fs.returned && fs.changeType == DoNothing;
    }

    method PushFlag()
      modifies this
      ensures Snapshot() == ControlHooks.PushFlag(old(Snapshot()))
    {
      css := css + [executeFlag];
    }

    method PopFlag()
      modifies this
      ensures Snapshot() == ControlHooks.PopFlag(old(Snapshot()))
    {
      var flag := IntTop(css);
      css := DelTop(css);
      SetFlag(flag);
    }

    method EnterLoop()
      modifies this
      ensures Snapshot() == ControlHooks.EnterLoop(old(Snapshot()))
    {
      fs := fs.(loopNestLevel := fs.loopNestLevel + 1);
      PushFlag();
    }

    method LeaveLoop()
      modifies this
      ensures Snapshot() == ControlHooks.LeaveLoop(old(Snapshot()))
    {
      PopFlag();
      fs := fs.(loopNestLevel := fs.loopNestLevel - 1);
    }

    method ClearChange()
      modifies this
      ensures Snapshot() == ControlHooks.ClearChange(old(Snapshot()))
    {
      fs := fs.(changeType := DoNothing, changeLevel := 0);
    }

    // while

    method StartWhile(pos: nat, cond: Value)
      modifies this
      ensures Snapshot() == ControlHooks.StartWhile(m, old(Snapshot()), pos, cond)
    {
      EnterLoop();
      if execute {
        continued := continued - {pos as int};
        if IsTrue(m, cond) { SetFlag(EXECUTE); } else { SetFlag(DONT_EXECUTE); }
      }
    }

    method EndWhile(pos: nat) returns (again: bool)
      modifies this
      ensures (Snapshot(), again) == ControlHooks.EndWhile(old(Snapshot()), pos)
    {
      again := false;
      if execute {
        continued := continued + {pos as int};
        again := true;
      } else if fs.changeType != DoNothing && fs.changeLevel == fs.loopNestLevel {
        if fs.changeType == DoContinue {
          continued := continued + {pos as int};
          again := true;
        }
        ClearChange();
      }
      LeaveLoop();
    }

    // do .. while

    method StartDoWhile()
      modifies this
      ensures Snapshot() == ControlHooks.StartDoWhile(old(Snapshot()))
    {
      EnterLoop();
    }

    method ForceEvalDoWhile()
      modifies this
      ensures Snapshot() == ControlHooks.ForceEvalDoWhile(old(Snapshot()))
    {
      if fs.changeLevel == fs.loopNestLevel && fs.changeType == DoContinue {
        ClearChange();
        SetFlag(EXECUTE);
      }
    }

    method EndDoWhile(cond: Value) returns (again: bool)
      modifies this
      ensures (Snapshot(), again) == ControlHooks.EndDoWhile(m, old(Snapshot()), cond)
    {
      again := execute && IsTrue(m, cond);
      if !again && fs.changeType != DoNothing && fs.changeLevel == fs.loopNestLevel {
        ClearChange();
      }
      LeaveLoop();
    }

    // if

    method StartIf(cond: Value)
      modifies this
      ensures Snapshot() == ControlHooks.StartIf(m, old(Snapshot()), cond)
    {
      PushFlag();
      if execute {
        if IsTrue(m, cond) { SetFlag(EXECUTE); } else { SetFlag(BEFORE_EXECUTE); }
      } else {
        executeFlag := DONT_EXECUTE;
      }
    }

    method EndIf()
      modifies this
      ensures Snapshot() == ControlHooks.EndIf(old(Snapshot()))
    {
      PopFlag();
    }

    method CloseBranch()
      modifies this
      ensures Snapshot() == ControlHooks.CloseBranch(old(Snapshot()))
    {
      if executeFlag == EXECUTE { SetFlag(DONT_EXECUTE); }
    }

    method ElseifStartEvaluate()
      modifies this
      ensures Snapshot() == ControlHooks.ElseifStartEvaluate(old(Snapshot()))
    {
      CloseBranch();
      var localStackTop := IntTop(css);
      PushFlag();
      if executeFlag == BEFORE_EXECUTE && localStackTop == EXECUTE { SetFlag(EXECUTE); }
    }

    method ElseifEndEvaluate()
      modifies this
      ensures Snapshot() == ControlHooks.ElseifEndEvaluate(old(Snapshot()))
    {
      PopFlag();
    }

    method StartElseif(cond: Value)
      modifies this
      ensures Snapshot() == ControlHooks.StartElseif(m, old(Snapshot()), cond)
    {
      CloseBranch();
      if executeFlag == BEFORE_EXECUTE && IsTrue(m, cond) { SetFlag(EXECUTE); }
    }

    method StartElse()
      modifies this
      ensures Snapshot() == ControlHooks.StartElse(old(Snapshot()))
    {
      CloseBranch();
      if executeFlag == BEFORE_EXECUTE { SetFlag(EXECUTE); }
    }

    // break and continue

    method BreakContinue(levels: Option<Value>, op: Change) returns (status: Status)
      requires op != DoNothing
      modifies this
      ensures Performs(ControlHooks.BreakContinue(m, old(Snapshot()), levels, op), status, Snapshot())
    {
      status := Completed;
      if execute {
        var level := if levels.Some? then fs.loopNestLevel - ToLong(m, levels.value) + 1 else fs.loopNestLevel;
        fs := fs.(changeLevel := level);
        if fs.changeLevel <= 0 || fs.changeLevel > fs.loopNestLevel {
          return Stopped(BadLevel, env.trace);
        }
        fs := fs.(changeType := op);
        execute := false;
      }
    }

    // for

    method ForPreExpr1(pos: nat)
      modifies this
      ensures Snapshot() == ControlHooks.ForPreExpr1(old(Snapshot()), pos)
    {
      EnterLoop();
      if execute && IntTop(forStack) == pos { SetFlag(DONT_EXECUTE); }
    }

    method ForPreExpr2(pos: nat, isSwitched: bool)
      modifies this
      ensures Snapshot() == ControlHooks.ForPreExpr2(old(Snapshot()), pos, isSwitched)
    {
      SetFlag(IntTop(css));
      if isSwitched && IntTop(forStack) != pos { SetFlag(DONT_EXECUTE); }
    }

    method ForPreExpr3(isSwitched: bool)
      modifies this
      ensures Snapshot() == ControlHooks.ForPreExpr3(old(Snapshot()), isSwitched)
    {
      SetFlag(IntTop(css));
      if execute && !isSwitched { SetFlag(DONT_EXECUTE); }
    }

    method ForPreStatement(isSwitched: bool, expr2: Value, expr3: Value)
      modifies this
      ensures Snapshot() == ControlHooks.ForPreStatement(m, old(Snapshot()), isSwitched, expr2, expr3)
    {
      SetFlag(IntTop(css));
      if execute && isSwitched {
        if IsTrue(m, expr3) { SetFlag(EXECUTE); } else { SetFlag(DONT_EXECUTE); }
      } else if execute && !isSwitched {
        if IsTrue(m, expr2) { SetFlag(EXECUTE); } else { SetFlag(DONT_EXECUTE); }
      }
    }

    method ForPostStatement(pos: nat, isSwitched: bool) returns (status: Status, again: bool)
      modifies this
      ensures Yields(ControlHooks.ForPostStatement(old(Snapshot()), pos, isSwitched), status, Snapshot(), again)
    {
      status, again := Completed, false;
      if IntTop(forStack) != pos { forStack := forStack + [pos]; }
      if !isSwitched {
        if pos as int in switched { return Stopped(Garbled, env.trace), false; }
        switched := switched + {pos as int};
      }
      if execute {
        again := true;
      } else if fs.changeType != DoNothing && fs.changeLevel == fs.loopNestLevel {
        if fs.changeType == DoContinue {
          again := true;
        } else if IntTop(forStack) == pos {
          forStack := DelTop(forStack);
        }
        ClearChange();
      } else if IntTop(forStack) == pos {
        forStack := DelTop(forStack);
      }
      LeaveLoop();
    }

    // return

    method CsReturn(result: Option<Value>) returns (status: Status)
      modifies this
      ensures Performs(ControlHooks.CsReturn(old(Snapshot()), result), status, Snapshot())
    {
      status := Completed;
      if execute {
        if fs.functionName.Some? {
          returnValue := if result.Some? then result.value else Null;
          fs := fs.(returned := true);
          SetFlag(DONT_EXECUTE);
        } else {
          if result.Some? { env := env.Log(Printed(result.value)); }
          status := Stopped(LeftMain, env.trace);
        }
      }
    }

    // ||, && and ?:

    method PreOr(left: Value)
      modifies this
      ensures Snapshot() == ControlHooks.PreOr(m, old(Snapshot()), left)
    {
      PushFlag();
      if execute && IsTrue(m, left) { SetFlag(DONT_EXECUTE); }
    }

    method PostOr(left: Value, right: Value) returns (result: Value)
      modifies this
      ensures (Snapshot(), result) == ControlHooks.PostOr(m, old(Snapshot()), left, right)
    {
      result := left;
      PopFlag();
      if execute { result := Bool(IsTrue(m, left) || IsTrue(m, right)); }
    }

    method PreAnd(left: Value)
      modifies this
      ensures Snapshot() == ControlHooks.PreAnd(m, old(Snapshot()), left)
    {
      PushFlag();
      if execute && !IsTrue(m, left) { SetFlag(DONT_EXECUTE); }
    }

    method PostAnd(left: Value, right: Value) returns (result: Value)
      modifies this
      ensures (Snapshot(), result) == ControlHooks.PostAnd(m, old(Snapshot()), left, right)
    {
      result := left;
      PopFlag();
      if execute { result := Bool(IsTrue(m, left) && IsTrue(m, right)); }
    }

    method PreYes(test: Value)
      modifies this
      ensures Snapshot() == ControlHooks.PreYes(m, old(Snapshot()), test)
    {
      PushFlag();
      if execute && !IsTrue(m, test) { SetFlag(DONT_EXECUTE); }
    }

    method PreNo(test: Value)
      modifies this
      ensures Snapshot() == ControlHooks.PreNo(m, old(Snapshot()), test)
    {
      SetFlag(IntTop(css));
      if execute && IsTrue(m, test) { SetFlag(DONT_EXECUTE); }
    }

    method PostNo(test: Value, yes: Value, no: Value) returns (result: Value)
      modifies this
      ensures (Snapshot(), result) == ControlHooks.PostNo(m, old(Snapshot()), test, yes, no)
    {
      result := test;
      PopFlag();
      if execute { result := if IsTrue(m, test) then yes else no; }
    }

    // function calls

    method PreVariablePassing(name: string) returns (status: Status, callee: Option<Stmt>)
      modifies this
      ensures Yields(ControlHooks.PreVariablePassing(old(Snapshot()), name), status, Snapshot(), callee)
    {
      status, callee := Completed, None;
      if execute {
        if name !in env.functions { return Stopped(Undefined(name), env.trace), None; }
        forStack := forStack + [-1];
        fsStack := fsStack + [fs];
        callee := Some(env.functions[name]);
        fs := fs.(functionName := Some(name));
      }
    }

    method PassParameter(v: Value)
      modifies this
      ensures Snapshot() == ControlHooks.PassParameter(old(Snapshot()), v)
    {
      if execute { env := env.Log(Passed(v)); }
    }

    method PostVariablePassing(name: string)
      modifies this
      ensures Snapshot() == ControlHooks.PostVariablePassing(old(Snapshot()), name)
    {
      PushFlag();
      fs := fs.(loopNestLevel := 0, changeLevel := 0, changeType := DoNothing);
      returnValue := Null;
      env := env.Log(Entered(name));
    }

    method FunctioncallEnd() returns (result: Value)
      requires |fsStack| > 0
      modifies this
      ensures (Snapshot(), result) == ControlHooks.FunctioncallEnd(old(Snapshot()))
    {
      result := returnValue;
      if !fs.returned { result := Null; }
      ghost var found := forStack;
      while IntTop(forStack) != -1
        invariant UnwindFors(forStack) == UnwindFors(found)
        invariant unchanged(this`executeFlag, this`execute, this`css, this`switchStack, this`fs, this`fsStack,
                            this`returnValue, this`switched, this`continued, this`env)
        decreases |forStack|
      {
        forStack := DelTop(forStack);
      }
      forStack := DelTop(forStack);
      fs := fsStack[|fsStack| - 1];
      fsStack := DelTop(fsStack);
      env := env.Log(Left(result));
      PopFlag();
    }

    // switch

    method SwitchStart(pos: nat, subject: Value)
      modifies this
      ensures Snapshot() == ControlHooks.SwitchStart(old(Snapshot()), pos, subject)
    {
      EnterLoop();
      switchStack := switchStack + [SwitchExpr(subject, pos, execute)];
    }

    method SwitchCasePre(key: Option<Value>)
      requires |switchStack| > 0
      modifies this
      ensures Snapshot() == ControlHooks.SwitchCasePre(m, old(Snapshot()), key)
    {
      if execute {
        var top := |switchStack| - 1;
        var se := switchStack[top];
        if se.offset != -1 {
          if key.None? || m.equal(se.expr, key.value) {
            switchStack := switchStack[top := se.(offset := -1)];
            SetFlag(EXECUTE);
          } else {
            SetFlag(DONT_EXECUTE);
          }
        }
      }
    }

    method SwitchCasePost()
      modifies this
      ensures Snapshot() == ControlHooks.SwitchCasePost(old(Snapshot()))
    {
      SetFlag(IntTop(css));
    }

    method SwitchEnd()
      requires |switchStack| > 0
      modifies this
      ensures Snapshot() == ControlHooks.SwitchEnd(old(Snapshot()))
    {
      if !execute && fs.changeLevel == fs.loopNestLevel {
        fs := fs.(changeType := DoNothing);
      }
      PopFlag();
      switchStack := DelTop(switchStack);
      fs := fs.(loopNestLevel := fs.loopNestLevel - 1);
    }

    // function declarations

    method StartDeclaration()
      modifies this
      ensures Snapshot() == ControlHooks.StartDeclaration(old(Snapshot()))
    {
      PushFlag();
      SetFlag(DONT_EXECUTE);
    }

    method EndDeclaration(name: string, body: Stmt) returns (status: Status)
      modifies this
      ensures Performs(ControlHooks.EndDeclaration(old(Snapshot()), name, body), status, Snapshot())
    {
      status := Completed;
      PopFlag();
      if execute {
        if name in env.functions { return Stopped(Redeclared(name), env.trace); }
        env := env.(functions := env.functions[name := body]);
      }
    }

    // The parser, performing the hooks.

    method Expr(e: Expr, fuel: nat) returns (status: Status, v: Value)
      modifies this
      ensures Yields(ParserDriver.DriveExpr(m, e, old(Snapshot()), fuel), status, Snapshot(), v)
      decreases fuel, e, 1
    {
      v := Null;
      match e
      case Empty =>
        return Completed, Num(1);
      case Atom(id) =>
        status := Completed;
        v := Operate(id);
      case Op(id, operands) =>
        status := Args(operands, fuel);
        if status != Completed { return; }
        v := Operate(id);
      case Or(a, b) =>
        var left, right;
        status, left := Expr(a, fuel);
        if status != Completed { return; }
        PreOr(left);
        status, right := Expr(b, fuel);
        if status != Completed { return; }
        v := PostOr(left, right);
      case And(a, b) =>
        var left, right;
        status, left := Expr(a, fuel);
        if status != Completed { return; }
        PreAnd(left);
        status, right := Expr(b, fuel);
        if status != Completed { return; }
        v := PostAnd(left, right);
      case Ternary(_, _, _) =>
        status, v := TernaryExpr(e, fuel);
      case Call(_, _) =>
        status, v := CallExpr(e, fuel);
    }

    method Operate(id: int) returns (v: Value)
      modifies this
      ensures (Snapshot(), v) == ParserDriver.Operate(m, old(Snapshot()), id)
    {
      if execute {
        env := env.Log(Evaluated(id));
        v := m.value(env.trace, id);
      } else {
        v := m.stale(env.trace, id);
      }
    }

    method TernaryExpr(e: Expr, fuel: nat) returns (status: Status, v: Value)
      requires e.Ternary?
      modifies this
      ensures Yields(ParserDriver.DriveTernary(m, e, old(Snapshot()), fuel), status, Snapshot(), v)
      decreases fuel, e, 0
    {
      v := Null;
      var test, yes, no;
      status, test := Expr(e.test, fuel);
      if status != Completed { return; }
      PreYes(test);
      status, yes := Expr(e.yes, fuel);
      if status != Completed { return; }
      PreNo(test);
      status, no := Expr(e.no, fuel);
      if status != Completed { return; }
      v := PostNo(test, yes, no);
    }

    method CallExpr(e: Expr, fuel: nat) returns (status: Status, v: Value)
      requires e.Call?
      modifies this
      ensures Yields(ParserDriver.DriveCall(m, e, old(Snapshot()), fuel), status, Snapshot(), v)
      decreases fuel, e, 0
    {
      v := Null;
      var callee;
      status, callee := PreVariablePassing(e.name);
      if status != Completed { return; }
      status := Args(e.args, fuel);
      if status != Completed || callee.None? { return; }
      if fuel == 0 { return OutOfFuel, Null; }
      PostVariablePassing(e.name);
      status := Statement(callee.value, BRACED, fuel - 1);
      if status != Completed { return; }
      if |fsStack| == 0 { return Stopped(EmptyStack, env.trace), Null; }
      v := FunctioncallEnd();
    }

    method Args(args: Exprs, fuel: nat) returns (status: Status)
      modifies this
      ensures Performs(ParserDriver.DriveArgs(m, args, old(Snapshot()), fuel), status, Snapshot())
      decreases fuel, args
    {
      match args
      case NoArgs =>
        status := Completed;
      case Arg(e, rest) =>
        var v;
        status, v := Expr(e, fuel);
        if status != Completed { return; }
        PassParameter(v);
        status := Args(rest, fuel);
    }

    method Operand(e: Option<Expr>, fuel: nat) returns (status: Status, v: Option<Value>)
      modifies this
      ensures Yields(ParserDriver.DriveOption(m, e, old(Snapshot()), fuel), status, Snapshot(), v)
      decreases fuel, e
    {
      status, v := Completed, None;
      if e.Some? {
        var w;
        status, w := Expr(e.value, fuel);
        v := Some(w);
      }
    }

    method Statement(st: Stmt, at: Place, fuel: nat) returns (status: Status)
      modifies this
      ensures Performs(ParserDriver.Drive(m, st, at, old(Snapshot()), fuel), status, Snapshot())
      decreases fuel, st, 2
    {
      match st
      case Nop =>
        status := Completed;
      case Seq(a, b) =>
        status := Statement(a, FirstPlace(at, b), fuel);
        if status != Completed { return; }
        status := Statement(b, SecondPlace(a, at), fuel);
      case Block(body) =>
        status := Statement(body, BRACED, fuel);
      case Do(e) =>
        var unused;
        status, unused := Expr(e, fuel);
      case If(_, _, _) =>
        status := IfStatement(st, at, fuel);
      case While(pos, _, _) =>
        if pos as int in continued && !at.after { return Stopped(ContinuedWhileMet, env.trace); }
        status := WhileStatement(st, at, fuel);
        if status != Completed { return; }
        status := PastWhile(at);
      case DoWhile(_, _) =>
        status := DoStatement(st, fuel);
      case For(_, _, _, _, _) =>
        status := ForStatement(st, at, fuel);
      case Switch(_, _, _) =>
        status := SwitchStatement(st, fuel);
      case Break(levels) =>
        var v;
        status, v := Operand(levels, fuel);
        if status != Completed { return; }
        status := BreakContinue(v, DoBreak);
      case Continue(levels) =>
        var v;
        status, v := Operand(levels, fuel);
        if status != Completed { return; }
        status := BreakContinue(v, DoContinue);
      case Return(result) =>
        var v;
        status, v := Operand(result, fuel);
        if status != Completed { return; }
        status := CsReturn(v);
      case Declare(name, body) =>
        StartDeclaration();
        status := Statement(body, BRACED, fuel);
        if status != Completed { return; }
        status := EndDeclaration(name, body);
    }

    /** The token behind a `while`. */
    method PastWhile(at: Place) returns (status: Status)
      ensures Performs(ParserDriver.PastWhile(at, Snapshot()), status, Snapshot())
    {
      status := Completed;
      if at.follow.Beyond? && at.follow.pos as int in continued { status := Stopped(WhileSwallowed, env.trace); }
    }

    method IfStatement(st: Stmt, at: Place, fuel: nat) returns (status: Status)
      requires st.If?
      modifies this
      ensures Performs(ParserDriver.DriveIf(m, st, at, old(Snapshot()), fuel), status, Snapshot())
      decreases fuel, st, 1
    {
      var v;
      status, v := Expr(st.cond, fuel);
      if status != Completed { return; }
      StartIf(v);
      status := Statement(st.thn, BranchPlace(st.tail, at), fuel);
      if status != Completed { return; }
      status := Tail(st.tail, at, fuel);
      if status != Completed { return; }
      EndIf();
    }

    method Tail(t: IfTail, at: Place, fuel: nat) returns (status: Status)
      modifies this
      ensures Performs(ParserDriver.DriveTail(m, t, at, old(Snapshot()), fuel), status, Snapshot())
      decreases fuel, t
    {
      match t
      case EndIf =>
        status := Completed;
      case Else(body) =>
        StartElse();
        status := Statement(body, BodyPlace(at), fuel);
      case ElseIf(c, body, rest) =>
        var v;
        ElseifStartEvaluate();
        status, v := Expr(c, fuel);
        if status != Completed { return; }
        ElseifEndEvaluate();
        StartElseif(v);
        status := Statement(body, BranchPlace(rest, at), fuel);
        if status != Completed { return; }
        status := Tail(rest, at, fuel);
    }

    method WhileStatement(st: Stmt, at: Place, fuel: nat) returns (status: Status)
      requires st.While?
      modifies this
      ensures Performs(ParserDriver.DriveWhile(m, st, at, old(Snapshot()), fuel), status, Snapshot())
      decreases fuel, st, 1
    {
      var v;
      status, v := Expr(st.cond, fuel);
      if status != Completed { return; }
      StartWhile(st.pos, v);
      status := Statement(st.body, BodyPlace(at), fuel);
      if status != Completed { return; }
      var again := EndWhile(st.pos);
      if again {
        if fuel == 0 { return OutOfFuel; }
        status := WhileStatement(st, at, fuel - 1);
      }
    }

    method DoStatement(st: Stmt, fuel: nat) returns (status: Status)
      requires st.DoWhile?
      modifies this
      ensures Performs(ParserDriver.DriveDoWhile(m, st, old(Snapshot()), fuel), status, Snapshot())
      decreases fuel, st, 1
    {
      StartDoWhile();
      status := Statement(st.body, BRACED, fuel);
      if status != Completed { return; }
      ForceEvalDoWhile();
      var v;
      status, v := Expr(st.cond, fuel);
      if status != Completed { return; }
      var again := EndDoWhile(v);
      if again {
        if fuel == 0 { return OutOfFuel; }
        status := DoStatement(st, fuel - 1);
      }
    }

    method ForStatement(st: Stmt, at: Place, fuel: nat) returns (status: Status)
      requires st.For?
      modifies this
      ensures Performs(ParserDriver.DriveFor(m, st, at, old(Snapshot()), fuel), status, Snapshot())
      decreases fuel, st, 1
    {
      var isSwitched := st.pos as int in switched;
      status := ForHeader(st, fuel);
      if status != Completed { return; }
      status := ForBody(st, at, isSwitched, fuel);
    }

    method ForHeader(st: Stmt, fuel: nat) returns (status: Status)
      requires st.For?
      modifies this
      ensures Performs(ParserDriver.DriveForHeader(m, st, old(Snapshot()), fuel), status, Snapshot())
      decreases fuel, st, 0
    {
      var isSwitched := st.pos as int in switched;
      var v, w, unused;
      ForPreExpr1(st.pos);
      status, unused := Expr(st.init, fuel);
      if status != Completed { return; }
      ForPreExpr2(st.pos, isSwitched);
      status, v := Expr(ParserDriver.SecondPart(st, isSwitched), fuel);
      if status != Completed { return; }
      ForPreExpr3(isSwitched);
      status, w := Expr(ParserDriver.ThirdPart(st, isSwitched), fuel);
      if status != Completed { return; }
      ForPreStatement(isSwitched, v, w);
    }

    method ForBody(st: Stmt, at: Place, isSwitched: bool, fuel: nat) returns (status: Status)
      requires st.For?
      modifies this
      ensures Performs(ParserDriver.DriveForBody(m, st, at, old(Snapshot()), isSwitched, fuel), status, Snapshot())
      decreases fuel, st, 0
    {
      status := Statement(st.body, BodyPlace(at), fuel);
      if status != Completed { return; }
      var again;
      status, again := ForPostStatement(st.pos, isSwitched);
      if status != Completed || !again { return; }
      if fuel == 0 { return OutOfFuel; }
      status := ForStatement(st, at, fuel - 1);
    }

    method SwitchStatement(st: Stmt, fuel: nat) returns (status: Status)
      requires st.Switch?
      modifies this
      ensures Performs(ParserDriver.DriveSwitch(m, st, old(Snapshot()), fuel), status, Snapshot())
      decreases fuel, st, 1
    {
      var v;
      status, v := Expr(st.subject, fuel);
      if status != Completed { return; }
      SwitchStart(st.pos, v);
      status := CaseList(st.cases, fuel);
      if status != Completed { return; }
      if |switchStack| == 0 { return Stopped(EmptyStack, env.trace); }
      SwitchEnd();
    }

    method CaseList(cs: Cases, fuel: nat) returns (status: Status)
      modifies this
      ensures Performs(ParserDriver.DriveCases(m, cs, old(Snapshot()), fuel), status, Snapshot())
      decreases fuel, cs
    {
      status := Completed;
      match cs
      case EndCases =>
      case Default(body) =>
        if |switchStack| == 0 { return Stopped(EmptyStack, env.trace); }
        SwitchCasePre(None);
        status := Statement(body, BRACED, fuel);
        if status != Completed { return; }
        SwitchCasePost();
      case Case(key, body, rest) =>
        var v;
        status, v := Expr(key, fuel);
        if status != Completed { return; }
        if |switchStack| == 0 { return Stopped(EmptyStack, env.trace); }
        SwitchCasePre(Some(v));
        status := Statement(body, BRACED, fuel);
        if status != Completed { return; }
        SwitchCasePost();
        status := CaseList(rest, fuel);
    }
  }
}
