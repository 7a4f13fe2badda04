/** The machine's marks are those of the structured semantics, and it comes to a marked `while`
    that stops it exactly when the semantics calls a function that holds one. */
module ControlTracking {
  import opened Options
  import opened PhpSyntax
  import opened StructuredSemantics
  import opened ControlHooks
  import opened ParserDriver
  import opened ControlSkipping
  import opened ControlRefinement
  import opened ControlMarks

  /** What is known of a whole script: the `while` keywords that directly follow a `while`, and
      whether no `while` directly follows an unbraced statement ending in one. */
  datatype Layout = Layout(softs: set<int>, tidy: bool)

  /** A text of such a script: a keyword that stops the walk when marked follows no `while`. */
  predicate LaidOut(st: Stmt, at: Place, l: Layout) {
    Softs(st, at.after) <= l.softs && Stops(st, at) !! l.softs && (l.tidy ==> Tidy(st, at))
  }

  predicate TailLaidOut(t: IfTail, at: Place, l: Layout) {
    TailSofts(t) <= l.softs && TailStops(t, at) !! l.softs && (l.tidy ==> TailTidy(t, at))
  }

  predicate CasesLaidOut(cs: Cases, l: Layout) {
    CaseSofts(cs) <= l.softs && CaseStops(cs) !! l.softs && (l.tidy ==> CasesTidy(cs))
  }

  predicate FunctionsLaidOut(functions: map<string, Stmt>, l: Layout) {
    forall f <- functions :: LaidOut(functions[f], BRACED, l)
  }

  /** From `s` the walk completes only if no stop was marked, with the marks `k`; it comes to a
      mark that stops it only if one was marked or there is no `k`; only marks on keywords that
      follow a `while` are lost; nothing is swallowed in a tidy script. */
  predicate Tracked(s: State, r: Result<State>, k: Option<Marks>, stops: set<int>, l: Layout) {
    && (r.Done? ==> Clear(s, stops) && k == Some(r.value.continued) && Kept(s, r.value, l))
    && (MetMark(r) ==> k.None? || !Clear(s, stops))
    && (l.tidy ==> !MetSwallowed(r))
  }

  predicate TrackedValue(s: State, r: Result<(State, Value)>, k: Option<Marks>, l: Layout) {
    && (r.Done? ==> k == Some(r.value.0.continued) && Kept(s, r.value.0, l))
    && (MetMark(r) ==> k.None?)
    && (l.tidy ==> !MetSwallowed(r))
  }

  predicate Kept(s: State, t: State, l: Layout) {
    s.continued - l.softs <= t.continued <= s.continued && FunctionsLaidOut(t.env.functions, l)
  }

  predicate Legible(s: State, l: Layout) { Running(s) && FunctionsLaidOut(s.env.functions, l) }

  // Expressions

  lemma {:induction false} TrackExpr(m: Meaning, e: Expr, s: State, fuel: nat, l: Layout)
    requires Legible(s, l)
    ensures TrackedValue(s, DriveExpr(m, e, s, fuel), MarksExpr(m, e, s.env, s.continued, fuel), l)
    decreases fuel, e, 2
  {
    match e
    case Empty =>
    case Atom(_) =>
    case Op(_, operands) =>
      TrackArgs(m, operands, s, fuel, l);
      RefineArgs(m, operands, s, fuel);
    case Or(_, _) =>
      TrackOr(m, e, s, fuel, l);
    case And(_, _) =>
      TrackAnd(m, e, s, fuel, l);
    case Ternary(_, _, _) =>
      TrackTernary(m, e, s, fuel, l);
    case Call(_, _) =>
      TrackCall(m, e, s, fuel, l);
  }

  lemma {:induction false} TrackOr(m: Meaning, e: Expr, s: State, fuel: nat, l: Layout)
    requires Legible(s, l) && e.Or?
    ensures TrackedValue(s, DriveExpr(m, e, s, fuel), MarksExpr(m, e, s.env, s.continued, fuel), l)
    decreases fuel, e, 0
  {
    TrackExpr(m, e.left, s, fuel, l);
    RefineExpr(m, e.left, s, fuel);
    var r := DriveExpr(m, e.left, s, fuel);
    if r.Done? {
      var s1 := PreOr(m, r.value.0, r.value.1);
      if s1.execute { TrackExpr(m, e.right, s1, fuel, l); } else { SkipExpr(m, e.right, s1, fuel); }
    }
  }

  lemma {:induction false} TrackAnd(m: Meaning, e: Expr, s: State, fuel: nat, l: Layout)
    requires Legible(s, l) && e.And?
    ensures TrackedValue(s, DriveExpr(m, e, s, fuel), MarksExpr(m, e, s.env, s.continued, fuel), l)
    decreases fuel, e, 0
  {
    TrackExpr(m, e.left, s, fuel, l);
    RefineExpr(m, e.left, s, fuel);
    var r := DriveExpr(m, e.left, s, fuel);
    if r.Done? {
      var s1 := PreAnd(m, r.value.0, r.value.1);
      if s1.execute { TrackExpr(m, e.right, s1, fuel, l); } else { SkipExpr(m, e.right, s1, fuel); }
    }
  }

  lemma {:induction false} TrackTernary(m: Meaning, e: Expr, s: State, fuel: nat, l: Layout)
    requires Legible(s, l) && e.Ternary?
    ensures TrackedValue(s, DriveTernary(m, e, s, fuel), MarksExpr(m, e, s.env, s.continued, fuel), l)
    decreases fuel, e, 0
  {
    TrackExpr(m, e.test, s, fuel, l);
    RefineExpr(m, e.test, s, fuel);
    var r := DriveExpr(m, e.test, s, fuel);
    if r.Done? {
      var (s1, v) := r.value;
      var s2 := PreYes(m, s1, v);
      if IsTrue(m, v) {
        TrackExpr(m, e.yes, s2, fuel, l);
        RefineExpr(m, e.yes, s2, fuel);
        var r2 := DriveExpr(m, e.yes, s2, fuel);
        if r2.Done? { SkipExpr(m, e.no, PreNo(m, r2.value.0, v), fuel); }
      } else {
        SkipExpr(m, e.yes, s2, fuel);
        TrackExpr(m, e.no, PreNo(m, s2, v), fuel, l);
      }
    }
  }

  lemma {:induction false} TrackCall(m: Meaning, e: Expr, s: State, fuel: nat, l: Layout)
    requires Legible(s, l) && e.Call?
    ensures TrackedValue(s, DriveCall(m, e, s, fuel), MarksExpr(m, e, s.env, s.continued, fuel), l)
    decreases fuel, e, 1
  {
    if e.name in s.env.functions {
      var s1 := PreVariablePassing(s, e.name).value.0;
      TrackArgs(m, e.args, s1, fuel, l);
      RefineArgs(m, e.args, s1, fuel);
      var r := DriveArgs(m, e.args, s1, fuel);
      if r.Done? { TrackCallee(m, e, s, r.value, fuel, l); }
    }
  }

  /** What follows the arguments of a call. */
  function CallRest(m: Meaning, name: string, body: Stmt, called: State, fuel: nat): Result<(State, Value)> {
    if fuel == 0 then Timeout
    else
      var s3 :- Drive(m, body, BRACED, PostVariablePassing(called, name), fuel - 1);
      if |s3.fsStack| == 0 then Halt(EmptyStack, s3.env.trace) else Done(FunctioncallEnd(s3))
  }

  function MarksCallRest(m: Meaning, name: string, body: Stmt, env: Env, marks: Marks, fuel: nat): Option<Marks> {
    if fuel == 0 then Some(marks) else MarksBody(m, body, env.Log(Entered(name)), marks, fuel - 1)
  }

  predicate CalledFrom(s: State, name: string, called: State) {
    && called == s.(env := called.env, returnValue := called.returnValue, continued := called.continued,
         forStack := Push(s.forStack, -1), fsStack := Push(s.fsStack, s.fs), fs := s.fs.(functionName := Some(name)))
    && called.continued <= s.continued && Ready(called.env.functions, s.switched)
  }

  /** The callee, called in state `called` after the arguments. */
  lemma {:induction false} TrackCallee(m: Meaning, e: Expr, s: State, called: State, fuel: nat, l: Layout)
    requires Legible(s, l) && Legible(called, l) && e.Call? && e.name in s.env.functions
    requires CalledFrom(s, e.name, called)
    ensures var body := s.env.functions[e.name];
      TrackedValue(called, CallRest(m, e.name, body, called, fuel),
                   MarksCallRest(m, e.name, body, called.env, called.continued, fuel), l)
    decreases fuel, e, 0
  {
    if fuel > 0 {
      var body, s1 := s.env.functions[e.name], PostVariablePassing(called, e.name);
      TrackStmt(m, body, BRACED, s1, fuel - 1, l);
      RefineStmt(m, body, BRACED, s1, fuel - 1);
      var r := Drive(m, body, BRACED, s1, fuel - 1);
      if r.Done? { CalleeReturns(m, s, e.name, body, called, r.value, fuel - 1); }
    }
  }

  lemma {:induction false} CalleeReturns(m: Meaning, s: State, name: string, body: Stmt, called: State, t: State,
        fuel: nat)
    requires Running(s) && CalledFrom(s, name, called) && Fors(body) <= s.switched
    requires StmtMatches(PostVariablePassing(called, name), Done(t),
                         Exec(m, body, called.env.Log(Entered(name)), 0, true, fuel), Fors(body))
    ensures |t.fsStack| > 0
    ensures var u := FunctioncallEnd(t).0; u.continued == t.continued && u.env.functions == t.env.functions
  {
    var ref := Exec(m, body, called.env.Log(Entered(name)), 0, true, fuel);
    ReturnFromCall(s, name, called, t, ref.value.0, ref.value.1, Fors(body));
  }

  lemma {:induction false} TrackArgs(m: Meaning, args: Exprs, s: State, fuel: nat, l: Layout)
    requires Legible(s, l)
    ensures Tracked(s, DriveArgs(m, args, s, fuel), MarksArgs(m, args, s.env, s.continued, fuel), {}, l)
    decreases fuel, args, 0
  {
    match args
    case NoArgs =>
    case Arg(e, rest) =>
      TrackExpr(m, e, s, fuel, l);
      RefineExpr(m, e, s, fuel);
      var r := DriveExpr(m, e, s, fuel);
      if r.Done? { TrackArgs(m, rest, PassParameter(r.value.0, r.value.1), fuel, l); }
  }

  // Statements

  lemma {:induction false} TrackStmt(m: Meaning, st: Stmt, at: Place, s: State, fuel: nat, l: Layout)
    requires Legible(s, l) && Nested(st) && Fresh(s, Fors(st)) && LaidOut(st, at, l)
    ensures Tracked(s, Drive(m, st, at, s, fuel),
                    MarksStmt(m, st, s.env, s.fs.loopNestLevel, InFunction(s), s.continued, fuel), Stops(st, at), l)
    decreases fuel, st, 6
  {
    match st
    case Nop =>
    case Seq(_, _) =>
      TrackSeq(m, st, at, s, fuel, l);
    case Block(body) =>
      TrackStmt(m, body, BRACED, s, fuel, l);
    case Do(e) =>
      TrackExpr(m, e, s, fuel, l);
    case If(_, _, _) =>
      TrackIf(m, st, at, s, fuel, l);
    case While(_, _, _) =>
      TrackWhileStatement(m, st, at, s, fuel, l);
    case DoWhile(_, _) =>
      TrackDoWhile(m, st, s, fuel, l);
    case For(_, _, _, _, _) =>
      TrackFor(m, st, at, s, s.forStack, fuel, l);
    case Switch(_, _, _) =>
      TrackSwitch(m, st, s, fuel, l);
    case Break(_) =>
      TrackJump(m, st, at, s, fuel, l);
    case Continue(_) =>
      TrackJump(m, st, at, s, fuel, l);
    case Return(_) =>
      TrackJump(m, st, at, s, fuel, l);
    case Declare(_, _) =>
      TrackDeclare(m, st, at, s, fuel, l);
  }

  /** Two walks one after the other: what is marked for the second was marked for the first. */
  lemma {:induction false} ThenClear(s: State, t: State, stops: set<int>, l: Layout)
    requires Kept(s, t, l) && stops !! l.softs
    ensures Clear(t, stops) <==> Clear(s, stops)
  {
  }

  /** A walk followed by a walk over text that is skipped. */
  lemma {:induction false} ThenSkipped(s: State, r: Result<State>, all: Result<State>, k: Option<Marks>,
        stops: set<int>, more: set<int>, l: Layout)
    requires Tracked(s, r, k, stops, l) && more !! l.softs
    requires r.Done? && Clear(r.value, more) ==>
               all.Done? && all.value.continued == r.value.continued && all.value.env == r.value.env
    requires r.Done? && !Clear(r.value, more) ==> MetMark(all) && !(l.tidy && MetSwallowed(all))
    requires !r.Done? ==> all == r
    ensures Tracked(s, all, k, stops + more, l)
  {
    if r.Done? { ThenClear(s, r.value, more, l); }
  }

  /** A walk followed by a walk over text that runs. */
  lemma {:induction false} ThenTracked(s: State, r: Result<State>, all: Result<State>, k: Option<Marks>,
        k': Option<Marks>, stops: set<int>, more: set<int>, l: Layout)
    requires Tracked(s, r, k, stops, l) && more !! l.softs
    requires r.Done? ==> Tracked(r.value, all, k', more, l)
    requires !r.Done? ==> all == r && (k.None? ==> k'.None?)
    ensures Tracked(s, all, k', stops + more, l)
  {
    if r.Done? { ThenClear(s, r.value, more, l); }
  }

  predicate FailsAs<T, U>(r: Result<T>, all: Result<U>) {
    match r
    case Done(_) => false
    case Halt(why, _) => all.Halt? && all.why == why
    case Timeout => all.Timeout?
  }

  /** An expression followed by a walk from `u`. */
  lemma {:induction false} ValueThen(s: State, r: Result<(State, Value)>, u: State, all: Result<State>,
        k: Option<Marks>, k': Option<Marks>, stops: set<int>, l: Layout)
    requires TrackedValue(s, r, k, l) && stops !! l.softs
    requires r.Done? ==> u.continued == r.value.0.continued && Tracked(u, all, k', stops, l)
    requires !r.Done? ==> FailsAs(r, all) && (k.None? ==> k'.None?)
    ensures Tracked(s, all, k', stops, l)
  {
    if r.Done? { ThenClear(s, r.value.0, stops, l); }
  }

  lemma {:induction false} TrackSeq(m: Meaning, st: Stmt, at: Place, s: State, fuel: nat, l: Layout)
    requires Legible(s, l) && Nested(st) && Fresh(s, Fors(st)) && LaidOut(st, at, l) && st.Seq?
    ensures Tracked(s, Drive(m, st, at, s, fuel),
                    MarksStmt(m, st, s.env, s.fs.loopNestLevel, InFunction(s), s.continued, fuel), Stops(st, at), l)
    decreases fuel, st, 4
  {
    var first, second := FirstPlace(at, st.second), SecondPlace(st.first, at);
    var stops, more := Stops(st.first, first), Stops(st.second, second);
    TrackStmt(m, st.first, first, s, fuel, l);
    RefineStmt(m, st.first, first, s, fuel);
    var r, all := Drive(m, st.first, first, s, fuel), Drive(m, st, at, s, fuel);
    var k := MarksStmt(m, st.first, s.env, s.fs.loopNestLevel, InFunction(s), s.continued, fuel);
    var k' := MarksStmt(m, st, s.env, s.fs.loopNestLevel, InFunction(s), s.continued, fuel);
    if r.Done? && r.value.execute {
      TrackStmt(m, st.second, second, r.value, fuel, l);
      ThenTracked(s, r, all, k, k', stops, more, l);
    } else {
      if r.Done? { SkipStmt(m, st.second, second, r.value, fuel); }
      ThenSkipped(s, r, all, k, stops, more, l);
    }
  }

  lemma {:induction false} TrackOption(m: Meaning, e: Option<Expr>, s: State, fuel: nat, l: Layout)
    requires Legible(s, l)
    ensures var r := DriveOption(m, e, s, fuel);
      var k := MarksOption(m, e, s.env, s.continued, fuel);
      && (r.Done? ==> k == Some(r.value.0.continued) && Kept(s, r.value.0, l))
      && (MetMark(r) ==> k.None?)
      && (l.tidy ==> !MetSwallowed(r))
    decreases fuel, e
  {
    if e.Some? { TrackExpr(m, e.value, s, fuel, l); }
  }

  lemma {:induction false} TrackJump(m: Meaning, st: Stmt, at: Place, s: State, fuel: nat, l: Layout)
    requires Legible(s, l) && (st.Break? || st.Continue? || st.Return?)
    ensures Tracked(s, Drive(m, st, at, s, fuel),
                    MarksStmt(m, st, s.env, s.fs.loopNestLevel, InFunction(s), s.continued, fuel), {}, l)
    decreases fuel, st, 4
  {
    TrackOption(m, if st.Return? then st.result else st.levels, s, fuel, l);
  }

  lemma {:induction false} TrackDeclare(m: Meaning, st: Stmt, at: Place, s: State, fuel: nat, l: Layout)
    requires Legible(s, l) && Nested(st) && Fresh(s, Fors(st)) && LaidOut(st, at, l) && st.Declare?
    ensures Tracked(s, Drive(m, st, at, s, fuel),
                    MarksStmt(m, st, s.env, s.fs.loopNestLevel, InFunction(s), s.continued, fuel), Stops(st, at), l)
    decreases fuel, st, 4
  {
    SkipStmt(m, st.body, BRACED, StartDeclaration(s), fuel);
  }

  // while

  function Unmarked(s: State, pos: nat): State { s.(continued := s.continued - {pos as int}) }

  lemma {:induction false} TrackWhileStatement(m: Meaning, st: Stmt, at: Place, s: State, fuel: nat, l: Layout)
    requires Legible(s, l) && Nested(st) && Fresh(s, Fors(st)) && LaidOut(st, at, l) && st.While?
    ensures Tracked(s, Drive(m, st, at, s, fuel),
                    MarksStmt(m, st, s.env, s.fs.loopNestLevel, InFunction(s), s.continued, fuel), Stops(st, at), l)
    decreases fuel, st, 5
  {
    if st.pos !in s.continued || at.after {
      TrackWhile(m, st, at, s, fuel, l);
      var r := DriveWhile(m, st, at, s, fuel);
      var inner := Stops(st.body, BodyPlace(at));
      assert Clear(Unmarked(s, st.pos), inner) <==> Clear(s, inner) by {
        assert st.pos in s.continued ==> st.pos in l.softs;
      }
      if r.Done? {
        assert Kept(s, r.value, l);
        ThenClear(s, r.value, Swallowed(at), l);
      }
    }
  }

  /** A `while` about to evaluate its condition, marked or not. */
  lemma {:induction false} TrackWhile(m: Meaning, st: Stmt, at: Place, s: State, fuel: nat, l: Layout)
    requires Legible(s, l) && Nested(st) && Fresh(s, Fors(st)) && st.While? && LaidOut(st.body, BodyPlace(at), l)
    ensures Tracked(Unmarked(s, st.pos), DriveWhile(m, st, at, s, fuel),
                    MarksWhile(m, st, s.env, s.fs.loopNestLevel, InFunction(s), s.continued, fuel),
                    Stops(st.body, BodyPlace(at)), l)
    decreases fuel, st, 4
  {
    TrackExpr(m, st.cond, s, fuel, l);
    RefineExpr(m, st.cond, s, fuel);
    var r, all := DriveExpr(m, st.cond, s, fuel), DriveWhile(m, st, at, s, fuel);
    var k := MarksExpr(m, st.cond, s.env, s.continued, fuel);
    var k' := MarksWhile(m, st, s.env, s.fs.loopNestLevel, InFunction(s), s.continued, fuel);
    if r.Done? {
      var (t, v) := r.value;
      assert all == WhileTested(m, st, at, t, v, fuel);
      if k.Some? {
        assert k' == MarksWhileTested(m, st, t.env, v, t.fs.loopNestLevel, InFunction(t), t.continued, fuel);
      }
      TrackWhileTested(m, st, at, t, v, fuel, l);
    }
    TestThen(s, st.pos, r, all, k, k', Stops(st.body, BodyPlace(at)), l);
  }

  /** The condition of the `while` at `pos`, and what follows it without the mark. */
  lemma {:induction false} TestThen(s: State, pos: nat, r: Result<(State, Value)>, all: Result<State>,
        k: Option<Marks>, k': Option<Marks>, stops: set<int>, l: Layout)
    requires TrackedValue(s, r, k, l) && stops !! l.softs
    requires r.Done? ==> Tracked(Unmarked(r.value.0, pos), all, k', stops, l)
    requires !r.Done? ==> FailsAs(r, all) && (k.None? ==> k'.None?)
    ensures Tracked(Unmarked(s, pos), all, k', stops, l)
  {
    if r.Done? { ThenClear(Unmarked(s, pos), Unmarked(r.value.0, pos), stops, l); }
  }

  /** A `while` whose condition has evaluated to `v`, in state `t`. */
  function WhileTested(m: Meaning, st: Stmt, at: Place, t: State, v: Value, fuel: nat): Result<State>
    requires st.While?
  {
    var u :- Drive(m, st.body, BodyPlace(at), StartWhile(m, t, st.pos, v), fuel);
    WhileRest(m, st, at, u, fuel)
  }

  function MarksWhileTested(m: Meaning, st: Stmt, env: Env, v: Value, depth: nat, inF: bool, marks: Marks, fuel: nat)
    : Option<Marks>
    requires st.While?
  {
    var k := marks - {st.pos as int};
    if !IsTrue(m, v) then Some(k)
    else
      var k1 :- MarksStmt(m, st.body, env, depth + 1, inF, k, fuel);
      MarksWhileRest(m, st, Exec(m, st.body, env, depth + 1, inF, fuel), depth, inF, k1, fuel)
  }

  lemma {:induction false} TrackWhileTested(m: Meaning, st: Stmt, at: Place, t: State, v: Value, fuel: nat, l: Layout)
    requires Legible(t, l) && Nested(st) && Fresh(t, Fors(st)) && st.While? && LaidOut(st.body, BodyPlace(at), l)
    ensures Tracked(Unmarked(t, st.pos), WhileTested(m, st, at, t, v, fuel),
                    MarksWhileTested(m, st, t.env, v, t.fs.loopNestLevel, InFunction(t), t.continued, fuel),
                    Stops(st.body, BodyPlace(at)), l)
    decreases fuel, st, 3
  {
    var s, u := Unmarked(t, st.pos), StartWhile(m, t, st.pos, v);
    if u.execute {
      TrackWhileBody(m, st, at, s, u, fuel, l);
    } else {
      SkipStmt(m, st.body, BodyPlace(at), u, fuel);
    }
  }

  /** What follows the body of a `while`, which ended in `t`. */
  function WhileRest(m: Meaning, st: Stmt, at: Place, t: State, fuel: nat): Result<State>
    requires st.While?
  {
    var (u, again) := EndWhile(t, st.pos);
    if !again then Done(u) else if fuel == 0 then Timeout else DriveWhile(m, st, at, u, fuel - 1)
  }

  function MarksWhileRest(m: Meaning, st: Stmt, r: Result<(Env, Outcome)>, depth: nat, inF: bool, k: Marks, fuel: nat)
    : Option<Marks>
    requires st.While?
  {
    if !r.Done? || !Iterates(r.value.1) || fuel == 0 then Some(k)
    else MarksWhile(m, st, r.value.0, depth, inF, k + {st.pos as int}, fuel - 1)
  }

  /** The body of a `while`, and the passes after it. */
  lemma {:induction false} TrackWhileBody(m: Meaning, st: Stmt, at: Place, s: State, inner: State, fuel: nat, l: Layout)
    requires Legible(inner, l) && Nested(st) && Fresh(s, Fors(st)) && st.While? && LaidOut(st.body, BodyPlace(at), l)
    requires Inside(s, inner) && inner.switchStack == s.switchStack && st.pos !in inner.continued && Kept(s, inner, l)
    ensures var r := Drive(m, st.body, BodyPlace(at), inner, fuel);
      var k := MarksStmt(m, st.body, inner.env, inner.fs.loopNestLevel, InFunction(inner), inner.continued, fuel);
      var ref := Exec(m, st.body, inner.env, inner.fs.loopNestLevel, InFunction(inner), fuel);
      Tracked(s, if r.Done? then WhileRest(m, st, at, r.value, fuel) else r,
              if k.None? then k else MarksWhileRest(m, st, ref, s.fs.loopNestLevel, InFunction(s), k.value, fuel),
              Stops(st.body, BodyPlace(at)), l)
    decreases fuel, st, 2
  {
    var stops := Stops(st.body, BodyPlace(at));
    TrackStmt(m, st.body, BodyPlace(at), inner, fuel, l);
    RanStmt(m, st.body, BodyPlace(at), inner, fuel);
    ThenClear(s, inner, stops, l);
    var r := Drive(m, st.body, BodyPlace(at), inner, fuel);
    if r.Done? {
      var ref := Exec(m, st.body, inner.env, inner.fs.loopNestLevel, InFunction(inner), fuel);
      TrackWhileRest(m, st, at, s, inner, r.value, ref.value.0, ref.value.1, fuel, l);
    }
  }

  lemma {:induction false} TrackWhileRest(m: Meaning, st: Stmt, at: Place, s: State, inner: State, t: State,
        env: Env, out: Outcome, fuel: nat, l: Layout)
    requires Nested(st) && Fresh(s, Fors(st)) && st.While? && LaidOut(st.body, BodyPlace(at), l)
    requires Inside(s, inner) && inner.switchStack == s.switchStack && st.pos !in inner.continued
    requires Encodes(inner, t, env, out, Fors(st)) && Kept(s, t, l) && Clear(s, Stops(st.body, BodyPlace(at)))
    ensures Tracked(s, WhileRest(m, st, at, t, fuel),
                    MarksWhileRest(m, st, Done((env, out)), s.fs.loopNestLevel, InFunction(s), t.continued, fuel),
                    Stops(st.body, BodyPlace(at)), l)
    decreases fuel, st, 1
  {
    WhileEnds(s, st.pos, inner, t, env, out, Fors(st));
    var (u, again) := EndWhile(t, st.pos);
    if again && fuel > 0 {
      assert Unmarked(u, st.pos).continued == t.continued;
      TrackWhile(m, st, at, u, fuel - 1, l);
      ThenClear(s, Unmarked(u, st.pos), Stops(st.body, BodyPlace(at)), l);
    }
  }

  // do .. while

  lemma {:induction false} TrackDoWhile(m: Meaning, st: Stmt, s: State, fuel: nat, l: Layout)
    requires Legible(s, l) && Nested(st) && Fresh(s, Fors(st)) && st.DoWhile? && LaidOut(st.body, BRACED, l)
    ensures Tracked(s, DriveDoWhile(m, st, s, fuel),
                    MarksDoWhile(m, st, s.env, s.fs.loopNestLevel, InFunction(s), s.continued, fuel),
                    Stops(st.body, BRACED), l)
    decreases fuel, st, 3
  {
    var s1 := StartDoWhile(s);
    TrackStmt(m, st.body, BRACED, s1, fuel, l);
    RefineStmt(m, st.body, BRACED, s1, fuel);
    var r := Drive(m, st.body, BRACED, s1, fuel);
    if r.Done? {
      var ref := Exec(m, st.body, s1.env, s1.fs.loopNestLevel, InFunction(s1), fuel);
      TrackDoRest(m, st, s, s1, r.value, ref.value.0, ref.value.1, fuel, l);
      assert DriveDoWhile(m, st, s, fuel) == DoRest(m, st, r.value, fuel);
    }
  }

  /** What follows the body of a `do`, which ended in `t`. */
  function DoRest(m: Meaning, st: Stmt, t: State, fuel: nat): Result<State>
    requires st.DoWhile?
  {
    var (s2, v) :- DriveExpr(m, st.cond, ForceEvalDoWhile(t), fuel);
    var (s3, again) := EndDoWhile(m, s2, v);
    if !again then Done(s3) else if fuel == 0 then Timeout else DriveDoWhile(m, st, s3, fuel - 1)
  }

  function MarksDoRest(m: Meaning, st: Stmt, env: Env, out: Outcome, depth: nat, inF: bool, marks: Marks, fuel: nat)
    : Option<Marks>
    requires st.DoWhile?
  {
    if !Iterates(out) then Some(marks)
    else
      var k :- MarksExpr(m, st.cond, env, marks, fuel);
      var r := Eval(m, st.cond, env, fuel);
      if !r.Done? || !IsTrue(m, r.value.1) || fuel == 0 then Some(k)
      else MarksDoWhile(m, st, r.value.0, depth, inF, k, fuel - 1)
  }

  lemma {:induction false} TrackDoRest(m: Meaning, st: Stmt, s: State, inner: State, t: State, env: Env,
        out: Outcome, fuel: nat, l: Layout)
    requires Legible(s, l) && Nested(st) && Fresh(s, Fors(st)) && st.DoWhile? && LaidOut(st.body, BRACED, l)
    requires Inside(s, inner) && inner.switchStack == s.switchStack
    requires Encodes(inner, t, env, out, Fors(st)) && Kept(s, t, l) && Clear(s, Stops(st.body, BRACED))
    ensures Tracked(s, DoRest(m, st, t, fuel),
                    MarksDoRest(m, st, env, out, s.fs.loopNestLevel, InFunction(s), t.continued, fuel),
                    Stops(st.body, BRACED), l)
    decreases fuel, st, 2
  {
    if Iterates(out) {
      DoRepeats(s, inner, t, env, out, Fors(st));
      var u := ForceEvalDoWhile(t);
      TrackExpr(m, st.cond, u, fuel, l);
      RefineExpr(m, st.cond, u, fuel);
      var r := DriveExpr(m, st.cond, u, fuel);
      if r.Done? { TrackDoAgain(m, st, s, inner, r.value.0, r.value.1, fuel, l); }
    } else {
      SkipDoWhileEnd(m, st, s, inner, t, env, out, fuel);
    }
  }

  /** The condition of a `do` evaluated to `v`, in state `t`. */
  lemma {:induction false} TrackDoAgain(m: Meaning, st: Stmt, s: State, inner: State, t: State, v: Value, fuel: nat,
        l: Layout)
    requires Legible(s, l) && Nested(st) && Fresh(s, Fors(st)) && st.DoWhile? && LaidOut(st.body, BRACED, l)
    requires Inside(s, inner) && inner.switchStack == s.switchStack
    requires Encodes(inner, t, t.env, Normal, Fors(st)) && Kept(s, t, l) && Clear(s, Stops(st.body, BRACED))
    ensures var (u, again) := EndDoWhile(m, t, v);
      && u.continued == t.continued && u.env == t.env && again == IsTrue(m, v)
      && (again && fuel > 0 ==>
            Tracked(s, DriveDoWhile(m, st, u, fuel - 1),
                    MarksDoWhile(m, st, u.env, s.fs.loopNestLevel, InFunction(s), u.continued, fuel - 1),
                    Stops(st.body, BRACED), l))
    decreases fuel, st, 1
  {
    LoopExit(s, inner, t, t.env, Normal, Fors(st));
    var (u, again) := EndDoWhile(m, t, v);
    if again && fuel > 0 {
      TrackDoWhile(m, st, u, fuel - 1, l);
      ThenClear(s, u, Stops(st.body, BRACED), l);
    }
  }

  // for

  /** A header part, evaluated or skipped. */
  lemma {:induction false} TrackPart(m: Meaning, e: Expr, s: State, fuel: nat, l: Layout)
    requires Consistent(s) && FunctionsLaidOut(s.env.functions, l) && Ready(s.env.functions, s.switched)
    ensures var r := DriveExpr(m, e, s, fuel);
      && TrackedValue(s, r, if s.execute then MarksExpr(m, e, s.env, s.continued, fuel) else Some(s.continued), l)
      && (if s.execute then ExprMatches(s, r, Eval(m, e, s.env, fuel)) else r.Done? && r.value.0 == s)
    decreases fuel, e, 3
  {
    if s.execute {
      TrackExpr(m, e, s, fuel, l);
      RefineExpr(m, e, s, fuel);
    } else {
      SkipExpr(m, e, s, fuel);
    }
  }

  lemma {:induction false} TrackHeader(m: Meaning, st: Stmt, s: State, first: bool, fuel: nat, l: Layout)
    requires Legible(s, l) && st.For? && AtPass(st, s, first)
    ensures Tracked(s, DriveForHeader(m, st, s, fuel), MarksHeader(m, st, first, s.env, s.continued, fuel), {}, l)
    decreases fuel, st, 1
  {
    var s1 := ForPreExpr1(s, st.pos);
    TrackPart(m, st.init, s1, fuel, l);
    var r1 := DriveExpr(m, st.init, s1, fuel);
    if r1.Done? {
      var isSwitched := st.pos in s.switched;
      TrackParts(m, st, ForPreExpr2(r1.value.0, st.pos, isSwitched), fuel, l, isSwitched);
    }
  }

  /** The second and third part of a header, in the order they stand in. */
  lemma {:induction false} TrackParts(m: Meaning, st: Stmt, s: State, fuel: nat, l: Layout, isSwitched: bool)
    requires st.For? && Consistent(s) && FunctionsLaidOut(s.env.functions, l) && Ready(s.env.functions, s.switched)
    requires Running(ForPreExpr3(s, true))
    ensures var second, third := SecondPart(st, isSwitched), ThirdPart(st, isSwitched);
      var r := DriveExpr(m, second, s, fuel);
      var k := if s.execute then MarksExpr(m, second, s.env, s.continued, fuel) else Some(s.continued);
      && TrackedValue(s, r, k, l)
      && (if s.execute then ExprMatches(s, r, Eval(m, second, s.env, fuel)) else r.Done? && r.value.0 == s)
      && (r.Done? ==>
           var t := ForPreExpr3(r.value.0, isSwitched);
           var r2 := DriveExpr(m, third, t, fuel);
           var k2 := if t.execute then MarksExpr(m, third, t.env, t.continued, fuel) else Some(t.continued);
           TrackedValue(t, r2, k2, l))
    decreases fuel, st, 0
  {
    TrackPart(m, SecondPart(st, isSwitched), s, fuel, l);
    var r := DriveExpr(m, SecondPart(st, isSwitched), s, fuel);
    if r.Done? { TrackPart(m, ThirdPart(st, isSwitched), ForPreExpr3(r.value.0, isSwitched), fuel, l); }
  }

  lemma {:induction false} TrackFor(m: Meaning, st: Stmt, at: Place, s: State, stack: seq<int>, fuel: nat, l: Layout)
    requires Legible(s, l) && Nested(st) && st.For? && LaidOut(st.body, BodyPlace(at), l)
    requires IntTop(stack) !in Fors(st)
    requires s.forStack == stack || (s.forStack == Push(stack, st.pos) && st.pos in s.switched)
    ensures Tracked(s, DriveFor(m, st, at, s, fuel),
                    MarksPass(m, st, s.forStack == stack, s.env, s.fs.loopNestLevel, InFunction(s), s.continued, fuel),
                    Stops(st.body, BodyPlace(at)), l)
    decreases fuel, st, 4
  {
    var first := s.forStack == stack;
    TrackHeader(m, st, s, first, fuel, l);
    RefineHeader(m, st, s, first, fuel);
    var r := DriveForHeader(m, st, s, fuel);
    if r.Done? {
      var (env, v) := Header(m, st, first, s.env, fuel).value;
      if IsTrue(m, v) {
        TrackForBody(m, st, at, s, stack, r.value, fuel, l);
      } else {
        TrackSkippedBody(m, st, at, s, stack, r.value, fuel, l);
      }
    }
  }

  lemma {:induction false} TrackSkippedBody(m: Meaning, st: Stmt, at: Place, s: State, stack: seq<int>, inner: State,
        fuel: nat, l: Layout)
    requires Legible(s, l) && Nested(st) && st.For? && LaidOut(st.body, BodyPlace(at), l)
    requires IntTop(stack) !in Fors(st)
    requires s.forStack == stack || (s.forStack == Push(stack, st.pos) && st.pos in s.switched)
    requires AfterHeader(s, inner, false) && Kept(s, inner, l)
    ensures Tracked(s, DriveForBody(m, st, at, inner, st.pos in s.switched, fuel), Some(inner.continued),
                    Stops(st.body, BodyPlace(at)), l)
  {
    SkipStmt(m, st.body, BodyPlace(at), inner, fuel);
    ThenClear(s, inner, Stops(st.body, BodyPlace(at)), l);
    var t := Swap(inner, Fors(st.body));
    ForStops(s, stack, st.pos, t, Fors(st.body));
    PostKeeps(t, st.pos, st.pos in s.switched);
  }

  lemma {:induction false} TrackForBody(m: Meaning, st: Stmt, at: Place, s: State, stack: seq<int>, inner: State,
        fuel: nat, l: Layout)
    requires Legible(s, l) && Nested(st) && st.For? && LaidOut(st.body, BodyPlace(at), l)
    requires IntTop(stack) !in Fors(st)
    requires s.forStack == stack || (s.forStack == Push(stack, st.pos) && st.pos in s.switched)
    requires AfterHeader(s, inner, true) && Kept(s, inner, l)
    ensures Tracked(s, DriveForBody(m, st, at, inner, st.pos in s.switched, fuel),
                    MarksForBody(m, st, inner.env, s.fs.loopNestLevel, InFunction(s), inner.continued, fuel),
                    Stops(st.body, BodyPlace(at)), l)
    decreases fuel, st, 3
  {
    var place, isSwitched := BodyPlace(at), st.pos in s.switched;
    var stops := Stops(st.body, place);
    TrackStmt(m, st.body, place, inner, fuel, l);
    RanStmt(m, st.body, place, inner, fuel);
    ThenClear(s, inner, stops, l);
    var r, all := Drive(m, st.body, place, inner, fuel), DriveForBody(m, st, at, inner, isSwitched, fuel);
    var k := MarksStmt(m, st.body, inner.env, inner.fs.loopNestLevel, InFunction(inner), inner.continued, fuel);
    var k' := MarksForBody(m, st, inner.env, s.fs.loopNestLevel, InFunction(s), inner.continued, fuel);
    ForBodyUnfolds(m, st, at, inner, isSwitched, fuel);
    if r.Done? {
      var ref := Exec(m, st.body, inner.env, inner.fs.loopNestLevel, InFunction(inner), fuel);
      TrackForEnd(m, st, at, s, stack, inner, r.value, ref.value.0, ref.value.1, fuel, l);
    }
    BodyThen(s, inner, r, all, k, k', stops, l);
  }

  lemma {:induction false} ForBodyUnfolds(m: Meaning, st: Stmt, at: Place, s: State, isSwitched: bool, fuel: nat)
    requires st.For?
    ensures var r, all := Drive(m, st.body, BodyPlace(at), s, fuel), DriveForBody(m, st, at, s, isSwitched, fuel);
            all == if r.Done? then ForEnd(m, st, at, r.value, isSwitched, fuel) else r
  {
  }

  /** The body of a loop entered in `inner`, and what follows it. */
  lemma {:induction false} BodyThen(s: State, inner: State, r: Result<State>, all: Result<State>, k: Option<Marks>,
        k': Option<Marks>, stops: set<int>, l: Layout)
    requires Kept(s, inner, l) && Tracked(inner, r, k, stops, l) && stops !! l.softs
    requires r.Done? ==> Tracked(s, all, k', stops, l)
    requires !r.Done? ==> all == r && (k.None? ==> k'.None?)
    ensures Tracked(s, all, k', stops, l)
  {
    ThenClear(s, inner, stops, l);
  }

  /** What follows the body of a `for`, which ended in `t`. */
  function ForEnd(m: Meaning, st: Stmt, at: Place, t: State, isSwitched: bool, fuel: nat): Result<State>
    requires st.For?
  {
    var (u, again) :- ForPostStatement(t, st.pos, isSwitched);
    ForRest(m, st, at, u, again, fuel)
  }

  lemma {:induction false} TrackForEnd(m: Meaning, st: Stmt, at: Place, s: State, stack: seq<int>, inner: State,
        t: State, env: Env, out: Outcome, fuel: nat, l: Layout)
    requires Legible(s, l) && Nested(st) && st.For? && LaidOut(st.body, BodyPlace(at), l)
    requires IntTop(stack) !in Fors(st)
    requires s.forStack == stack || (s.forStack == Push(stack, st.pos) && st.pos in s.switched)
    requires AfterHeader(s, inner, true) && Encodes(inner, t, env, out, Fors(st.body)) && Kept(s, t, l)
    requires Clear(s, Stops(st.body, BodyPlace(at)))
    ensures Tracked(s, ForEnd(m, st, at, t, st.pos in s.switched, fuel),
                    MarksForRest(m, st, env, Iterates(out), s.fs.loopNestLevel, InFunction(s), t.continued, fuel),
                    Stops(st.body, BodyPlace(at)), l)
    decreases fuel, st, 2
  {
    ForEnds(s, stack, st.pos, inner, t, env, out, Fors(st.body));
    var u := ForPostStatement(t, st.pos, st.pos in s.switched).value.0;
    TrackForRest(m, st, at, s, stack, u, Iterates(out), fuel, l);
  }

  /** What follows a pass over a `for`. */
  function ForRest(m: Meaning, st: Stmt, at: Place, u: State, again: bool, fuel: nat): Result<State>
    requires st.For?
  {
    if !again then Done(u) else if fuel == 0 then Timeout else DriveFor(m, st, at, u, fuel - 1)
  }

  function MarksForRest(m: Meaning, st: Stmt, env: Env, again: bool, depth: nat, inF: bool, marks: Marks, fuel: nat)
    : Option<Marks>
    requires st.For?
  {
    if !again || fuel == 0 then Some(marks) else MarksPass(m, st, false, env, depth, inF, marks, fuel - 1)
  }

  lemma {:induction false} TrackForRest(m: Meaning, st: Stmt, at: Place, s: State, stack: seq<int>, u: State,
        again: bool, fuel: nat, l: Layout)
    requires Legible(s, l) && Nested(st) && st.For? && LaidOut(st.body, BodyPlace(at), l)
    requires IntTop(stack) !in Fors(st)
    requires again ==> Encodes(s.(forStack := Push(stack, st.pos)), u, u.env, Normal, Fors(st)) && st.pos in u.switched
    requires Kept(s, u, l) && Clear(s, Stops(st.body, BodyPlace(at)))
    ensures Tracked(s, ForRest(m, st, at, u, again, fuel),
                    MarksForRest(m, st, u.env, again, s.fs.loopNestLevel, InFunction(s), u.continued, fuel),
                    Stops(st.body, BodyPlace(at)), l)
    decreases fuel, st, 1
  {
    if again && fuel > 0 {
      TrackFor(m, st, at, u, stack, fuel - 1, l);
      ThenClear(s, u, Stops(st.body, BodyPlace(at)), l);
    }
  }

  // if

  lemma {:induction false} TrackIf(m: Meaning, st: Stmt, at: Place, s: State, fuel: nat, l: Layout)
    requires Legible(s, l) && Nested(st) && Fresh(s, Fors(st)) && LaidOut(st, at, l) && st.If?
    ensures Tracked(s, DriveIf(m, st, at, s, fuel),
                    MarksStmt(m, st, s.env, s.fs.loopNestLevel, InFunction(s), s.continued, fuel), Stops(st, at), l)
    decreases fuel, st, 4
  {
    TrackExpr(m, st.cond, s, fuel, l);
    RefineExpr(m, st.cond, s, fuel);
    var r, all := DriveExpr(m, st.cond, s, fuel), DriveIf(m, st, at, s, fuel);
    var k := MarksExpr(m, st.cond, s.env, s.continued, fuel);
    var k' := MarksStmt(m, st, s.env, s.fs.loopNestLevel, InFunction(s), s.continued, fuel);
    var u := s;
    if r.Done? {
      u := r.value.0;
      TrackIfRest(m, st, at, u, r.value.1, fuel, l);
    }
    ValueThen(s, r, u, all, k, k', Stops(st, at), l);
  }

  /** What follows the condition of an `if`. */
  function IfRest(m: Meaning, st: Stmt, at: Place, s: State, v: Value, fuel: nat): Result<State>
    requires st.If?
  {
    var s1 :- BranchRest(m, st.thn, BranchPlace(st.tail, at), st.tail, at, StartIf(m, s, v), fuel);
    Done(ControlHooks.EndIf(s1))
  }

  /** The end of a chain keeps what is tracked. */
  lemma {:induction false} Ended(s: State, u: State, r: Result<State>)
    requires u.continued == s.continued
    ensures forall k, stops, l ::
      Tracked(u, r, k, stops, l) ==>
        Tracked(s, if r.Done? then Done(ControlHooks.EndIf(r.value)) else r, k, stops, l)
  {
  }

  lemma {:induction false} TrackIfRest(m: Meaning, st: Stmt, at: Place, s: State, v: Value, fuel: nat, l: Layout)
    requires Legible(s, l) && Nested(st) && Fresh(s, Fors(st)) && LaidOut(st, at, l) && st.If?
    ensures Tracked(s, IfRest(m, st, at, s, v, fuel),
                    if IsTrue(m, v) then
                      MarksStmt(m, st.thn, s.env, s.fs.loopNestLevel, InFunction(s), s.continued, fuel)
                    else MarksTail(m, st.tail, s.env, s.fs.loopNestLevel, InFunction(s), s.continued, fuel),
                    Stops(st, at), l)
    decreases fuel, st, 3
  {
    var u, place := StartIf(m, s, v), BranchPlace(st.tail, at);
    if IsTrue(m, v) {
      TrackBranch(m, st.thn, place, st.tail, at, u, fuel, l);
    } else {
      TrackSkippedBranch(m, st.thn, place, st.tail, at, u, fuel, l);
    }
    Ended(s, u, BranchRest(m, st.thn, place, st.tail, at, u, fuel));
  }

  function BranchRest(m: Meaning, body: Stmt, place: Place, rest: IfTail, at: Place, s: State, fuel: nat)
    : Result<State> {
    var s1 :- Drive(m, body, place, s, fuel);
    DriveTail(m, rest, at, s1, fuel)
  }

  /** A branch that runs, and the rest of its chain. */
  lemma {:induction false} TrackBranch(m: Meaning, body: Stmt, place: Place, rest: IfTail, at: Place, s: State,
        fuel: nat, l: Layout)
    requires Legible(s, l) && Nested(body) && Fresh(s, Fors(body)) && LaidOut(body, place, l)
    requires TailNested(rest) && Fresh(s, TailFors(rest)) && TailLaidOut(rest, at, l)
    ensures Tracked(s, BranchRest(m, body, place, rest, at, s, fuel),
              MarksStmt(m, body, s.env, s.fs.loopNestLevel, InFunction(s), s.continued, fuel),
              Stops(body, place) + TailStops(rest, at), l)
    decreases fuel, body, 7
  {
    TrackStmt(m, body, place, s, fuel, l);
    RanFrame(m, body, place, s, fuel);
    var r := Drive(m, body, place, s, fuel);
    var k := MarksStmt(m, body, s.env, s.fs.loopNestLevel, InFunction(s), s.continued, fuel);
    if r.Done? {
      TailAfterBranch(m, rest, at, r.value, fuel);
      ThenSkipped(s, r, DriveTail(m, rest, at, r.value, fuel), k, Stops(body, place), TailStops(rest, at), l);
    }
  }

  /** A branch that is skipped, and the rest of its chain. */
  lemma {:induction false} TrackSkippedBranch(m: Meaning, body: Stmt, place: Place, rest: IfTail, at: Place,
        s: State, fuel: nat, l: Layout)
    requires Seeking(s) && FunctionsLaidOut(s.env.functions, l)
    requires Nested(body) && Fresh(s, Fors(body)) && LaidOut(body, place, l)
    requires TailNested(rest) && Fresh(s, TailFors(rest)) && TailLaidOut(rest, at, l)
    ensures Tracked(s, BranchRest(m, body, place, rest, at, s, fuel),
              MarksTail(m, rest, s.env, s.fs.loopNestLevel, InFunction(s), s.continued, fuel),
              Stops(body, place) + TailStops(rest, at), l)
    decreases fuel, rest, 3
  {
    SkipStmt(m, body, place, s, fuel);
    TrackTail(m, rest, at, Swap(s, Fors(body)), fuel, l);
  }

  lemma {:induction false} TrackTail(m: Meaning, t: IfTail, at: Place, s: State, fuel: nat, l: Layout)
    requires Seeking(s) && FunctionsLaidOut(s.env.functions, l)
    requires TailNested(t) && Fresh(s, TailFors(t)) && TailLaidOut(t, at, l)
    ensures Tracked(s, DriveTail(m, t, at, s, fuel),
                    MarksTail(m, t, s.env, s.fs.loopNestLevel, InFunction(s), s.continued, fuel), TailStops(t, at), l)
    decreases fuel, t, 2
  {
    match t
    case EndIf =>
    case Else(body) =>
      TrackStmt(m, body, BodyPlace(at), Open(s), fuel, l);
    case ElseIf(_, _, _) =>
      TrackElseIf(m, t, at, s, fuel, l);
  }

  lemma {:induction false} TrackElseIf(m: Meaning, t: IfTail, at: Place, s: State, fuel: nat, l: Layout)
    requires Seeking(s) && FunctionsLaidOut(s.env.functions, l) && t.ElseIf?
    requires TailNested(t) && Fresh(s, TailFors(t)) && TailLaidOut(t, at, l)
    ensures Tracked(s, DriveTail(m, t, at, s, fuel),
                    MarksTail(m, t, s.env, s.fs.loopNestLevel, InFunction(s), s.continued, fuel), TailStops(t, at), l)
    decreases fuel, t, 1
  {
    var s1 := ElseifStartEvaluate(s);
    TrackExpr(m, t.cond, s1, fuel, l);
    RefineExpr(m, t.cond, s1, fuel);
    var r, all := DriveExpr(m, t.cond, s1, fuel), DriveTail(m, t, at, s, fuel);
    var k := MarksExpr(m, t.cond, s1.env, s1.continued, fuel);
    var k' := MarksTail(m, t, s.env, s.fs.loopNestLevel, InFunction(s), s.continued, fuel);
    var u := s;
    if r.Done? {
      u := ElseifEndEvaluate(r.value.0);
      TrackElseIfRest(m, t, at, u, r.value.1, fuel, l);
    }
    ValueThen(s1, r, u, all, k, k', TailStops(t, at), l);
  }

  /** What follows the condition of an `elseif`. */
  lemma {:induction false} TrackElseIfRest(m: Meaning, t: IfTail, at: Place, s: State, v: Value, fuel: nat, l: Layout)
    requires Seeking(s) && FunctionsLaidOut(s.env.functions, l) && t.ElseIf?
    requires TailNested(t) && Fresh(s, TailFors(t)) && TailLaidOut(t, at, l)
    ensures Tracked(s, BranchRest(m, t.body, BranchPlace(t.rest, at), t.rest, at, StartElseif(m, s, v), fuel),
                    if IsTrue(m, v) then
                      MarksStmt(m, t.body, s.env, s.fs.loopNestLevel, InFunction(s), s.continued, fuel)
                    else MarksTail(m, t.rest, s.env, s.fs.loopNestLevel, InFunction(s), s.continued, fuel),
                    TailStops(t, at), l)
    decreases fuel, t, 0
  {
    var u, place := StartElseif(m, s, v), BranchPlace(t.rest, at);
    if IsTrue(m, v) {
      TrackBranch(m, t.body, place, t.rest, at, u, fuel, l);
    } else {
      TrackSkippedBranch(m, t.body, place, t.rest, at, u, fuel, l);
    }
  }

  // switch

  lemma {:induction false} TrackSwitch(m: Meaning, st: Stmt, s: State, fuel: nat, l: Layout)
    requires Legible(s, l) && Nested(st) && Fresh(s, Fors(st)) && st.Switch? && CasesLaidOut(st.cases, l)
    ensures Tracked(s, DriveSwitch(m, st, s, fuel),
                    MarksStmt(m, st, s.env, s.fs.loopNestLevel, InFunction(s), s.continued, fuel),
                              CaseStops(st.cases), l)
    decreases fuel, st, 4
  {
    TrackExpr(m, st.subject, s, fuel, l);
    RefineExpr(m, st.subject, s, fuel);
    var r, all := DriveExpr(m, st.subject, s, fuel), DriveSwitch(m, st, s, fuel);
    var k := MarksExpr(m, st.subject, s.env, s.continued, fuel);
    var k' := MarksStmt(m, st, s.env, s.fs.loopNestLevel, InFunction(s), s.continued, fuel);
    var u := s;
    if r.Done? {
      u := SwitchStart(r.value.0, st.pos, r.value.1);
      TrackCases(m, st.cases, u, fuel, l);
    }
    ValueThen(s, r, u, all, k, k', CaseStops(st.cases), l);
  }

  function MarksCases(m: Meaning, cs: Cases, s: State, fuel: nat): Option<Marks>
    requires |s.switchStack| > 0 && s.fs.loopNestLevel >= 0
  {
    if TopEntry(s).offset == -1 then
      MarksFallThrough(m, cs, s.env, s.fs.loopNestLevel, InFunction(s), s.continued, fuel)
    else MarksSelect(m, cs, TopEntry(s).expr, s.env, s.fs.loopNestLevel, InFunction(s), s.continued, fuel)
  }

  lemma {:induction false} TrackCases(m: Meaning, cs: Cases, s: State, fuel: nat, l: Layout)
    requires Legible(s, l) && AtCase(s) && CasesNested(cs) && Fresh(s, CaseFors(cs)) && CasesLaidOut(cs, l)
    ensures Tracked(s, DriveCases(m, cs, s, fuel), MarksCases(m, cs, s, fuel), CaseStops(cs), l)
    decreases fuel, cs, 4
  {
    match cs
    case EndCases =>
    case Default(body) =>
      TrackStmt(m, body, BRACED, SwitchCasePre(m, s, None), fuel, l);
    case Case(_, _, _) =>
      TrackLabel(m, cs, s, fuel, l);
  }

  lemma {:induction false} TrackLabel(m: Meaning, cs: Cases, s: State, fuel: nat, l: Layout)
    requires cs.Case? && Legible(s, l) && AtCase(s) && CasesNested(cs) && Fresh(s, CaseFors(cs)) && CasesLaidOut(cs, l)
    ensures Tracked(s, DriveCases(m, cs, s, fuel), MarksCases(m, cs, s, fuel), CaseStops(cs), l)
    decreases fuel, cs, 3
  {
    TrackExpr(m, cs.value, s, fuel, l);
    RefineExpr(m, cs.value, s, fuel);
    var r, all := DriveExpr(m, cs.value, s, fuel), DriveCases(m, cs, s, fuel);
    var k := MarksExpr(m, cs.value, s.env, s.continued, fuel);
    var u := s;
    if r.Done? {
      u := r.value.0;
      TrackLabelRest(m, cs, u, r.value.1, fuel, l);
    }
    ValueThen(s, r, u, all, k, MarksCases(m, cs, s, fuel), CaseStops(cs), l);
  }

  /** The marks after a label that evaluated to `v`. */
  function MarksLabelRest(m: Meaning, cs: Cases, s: State, v: Value, fuel: nat): Option<Marks>
    requires cs.Case? && |s.switchStack| > 0 && s.fs.loopNestLevel >= 0
  {
    if TopEntry(s).offset == -1 || m.equal(TopEntry(s).expr, v) then
      MarksMatched(m, cs, s.env, s.fs.loopNestLevel, InFunction(s), s.continued, fuel)
    else
      MarksSelect(m, cs.rest, TopEntry(s).expr, s.env, s.fs.loopNestLevel, InFunction(s), s.continued, fuel)
  }

  lemma {:induction false} TrackLabelRest(m: Meaning, cs: Cases, s: State, v: Value, fuel: nat, l: Layout)
    requires cs.Case? && Legible(s, l) && AtCase(s) && CasesNested(cs) && Fresh(s, CaseFors(cs)) && CasesLaidOut(cs, l)
    ensures Tracked(s, MatchedDrive(m, cs.body, cs.rest, SwitchCasePre(m, s, Some(v)), fuel),
                    MarksLabelRest(m, cs, s, v, fuel), CaseStops(cs), l)
    decreases fuel, cs, 2
  {
    var u := SwitchCasePre(m, s, Some(v));
    if u.execute { TrackCaseRun(m, cs, u, fuel, l); } else { TrackCaseSkipped(m, cs, u, fuel, l); }
  }

  /** After a label that has matched: its body and the cases after it. */
  lemma {:induction false} TrackCaseRun(m: Meaning, cs: Cases, s: State, fuel: nat, l: Layout)
    requires cs.Case? && Legible(s, l) && AtCase(s) && TopEntry(s).offset == -1
    requires CasesNested(cs) && Fresh(s, CaseFors(cs)) && CasesLaidOut(cs, l)
    ensures Tracked(s, MatchedDrive(m, cs.body, cs.rest, s, fuel),
                    MarksMatched(m, cs, s.env, s.fs.loopNestLevel, InFunction(s), s.continued, fuel), CaseStops(cs), l)
    decreases fuel, cs, 1
  {
    TrackStmt(m, cs.body, BRACED, s, fuel, l);
    RefineStmt(m, cs.body, BRACED, s, fuel);
    var r, all := Drive(m, cs.body, BRACED, s, fuel), MatchedDrive(m, cs.body, cs.rest, s, fuel);
    var k := MarksStmt(m, cs.body, s.env, s.fs.loopNestLevel, InFunction(s), s.continued, fuel);
    var k' := MarksMatched(m, cs, s.env, s.fs.loopNestLevel, InFunction(s), s.continued, fuel);
    if r.Done? {
      var ref := Exec(m, cs.body, s.env, s.fs.loopNestLevel, InFunction(s), fuel);
      CaseEnds(s, r.value, ref.value.0, ref.value.1, Fors(cs.body), CaseFors(cs.rest));
    }
    if r.Done? && r.value.execute {
      TrackCases(m, cs.rest, SwitchCasePost(r.value), fuel, l);
      ThenTracked(s, r, all, k, k', Stops(cs.body, BRACED), CaseStops(cs.rest), l);
    } else {
      if r.Done? { SkipCases(m, cs.rest, SwitchCasePost(r.value), fuel); }
      ThenSkipped(s, r, all, k, Stops(cs.body, BRACED), CaseStops(cs.rest), l);
    }
  }

  /** After a label that has not matched. */
  lemma {:induction false} TrackCaseSkipped(m: Meaning, cs: Cases, s: State, fuel: nat, l: Layout)
    requires cs.Case? && AtCase(s) && TopEntry(s).offset != -1
    requires CasesNested(cs) && Fresh(s, CaseFors(cs)) && CasesLaidOut(cs, l)
    requires Skipping(s) && s.executeFlag == DONT_EXECUTE && Legible(SetFlag(s, EXECUTE), l)
    ensures Tracked(s, MatchedDrive(m, cs.body, cs.rest, s, fuel),
                    MarksSelect(m, cs.rest, TopEntry(s).expr, s.env, s.fs.loopNestLevel, InFunction(s),
                                s.continued, fuel),
                    CaseStops(cs), l)
    decreases fuel, cs, 1
  {
    SkipStmt(m, cs.body, BRACED, s, fuel);
    TrackCases(m, cs.rest, SwitchCasePost(Swap(s, Fors(cs.body))), fuel, l);
  }
}
