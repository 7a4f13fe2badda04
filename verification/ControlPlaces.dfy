/** What the parser makes of a marked `while`, by what stands before it, and that the nesting of
    statement lists does not matter. */
module ControlPlaces {
  import opened PhpSyntax
  import opened TextPlaces
  import opened StructuredSemantics
  import opened ControlHooks
  import opened ParserDriver
  import opened ControlSkipping
  import opened ControlMarks

  /** A list of statements is walked over in the same way however the list rule has grouped it. */
  lemma {:induction false} ListsHaveNoNesting(m: Meaning, a: Stmt, b: Stmt, c: Stmt, at: Place, s: State, fuel: nat)
    ensures Drive(m, Seq(Seq(a, b), c), at, s, fuel) == Drive(m, Seq(a, Seq(b, c)), at, s, fuel)
  {
    var inner := FirstPlace(at, c);
    assert FirstPlace(inner, b) == FirstPlace(at, Seq(b, c));
    assert SecondPlace(a, inner) == FirstPlace(SecondPlace(a, at), c);
    assert SecondPlace(Seq(a, b), at) == SecondPlace(b, SecondPlace(a, at));
    assert Drive(m, Seq(a, b), inner, s, fuel)
        == GroupOf(m, a, b, FirstPlace(at, Seq(b, c)), SecondPlace(a, inner), s, fuel);
  }

  function GroupOf(m: Meaning, a: Stmt, b: Stmt, first: Place, second: Place, s: State, fuel: nat): Result<State> {
    var s1 :- Drive(m, a, first, s, fuel);
    Drive(m, b, second, s1, fuel)
  }

  /** ... and has the same meaning, the same marks, and the same stops. */
  lemma {:induction false} MeaningHasNoNesting(m: Meaning, a: Stmt, b: Stmt, c: Stmt, env: Env, depth: nat, inF: bool,
        fuel: nat)
    ensures Exec(m, Seq(Seq(a, b), c), env, depth, inF, fuel) == Exec(m, Seq(a, Seq(b, c)), env, depth, inF, fuel)
  {
  }

  lemma {:induction false} MarksHaveNoNesting(m: Meaning, a: Stmt, b: Stmt, c: Stmt, env: Env, depth: nat, inF: bool,
        marks: Marks, fuel: nat)
    ensures MarksStmt(m, Seq(Seq(a, b), c), env, depth, inF, marks, fuel)
         == MarksStmt(m, Seq(a, Seq(b, c)), env, depth, inF, marks, fuel)
  {
  }

  lemma {:induction false} StopsHaveNoNesting(a: Stmt, b: Stmt, c: Stmt, at: Place)
    ensures Stops(Seq(Seq(a, b), c), at) == Stops(Seq(a, Seq(b, c)), at)
    ensures Softs(Seq(Seq(a, b), c), at.after) == Softs(Seq(a, Seq(b, c)), at.after)
    ensures Tidy(Seq(Seq(a, b), c), at) <==> Tidy(Seq(a, Seq(b, c)), at)
  {
    var inner := FirstPlace(at, c);
    assert FirstPlace(inner, b) == FirstPlace(at, Seq(b, c));
    assert SecondPlace(a, inner) == FirstPlace(SecondPlace(a, at), c);
    assert SecondPlace(Seq(a, b), at) == SecondPlace(b, SecondPlace(a, at));
  }

  /** A statement that is neither a list nor ends in another statement. */
  predicate Simple(st: Stmt) { !st.Seq? && !st.While? && !st.If? && !st.For? }

  /** A `while` directly behind a list that ends in a loop is walked over, marked or not: the parser
      takes it for an iteration of that loop. */
  lemma {:induction false} LoopBehindLoop(m: Meaning, before: Stmt, first: Stmt, second: Stmt, s: State, fuel: nat)
    requires first.While? && Simple(first.body) && second.While?
    ensures var r := Drive(m, Seq(before, first), FirstPlace(BRACED, second), s, fuel);
      r.Done? ==>
        Drive(m, Seq(Seq(before, first), second), BRACED, s, fuel)
        == DriveWhile(m, second, Place(true, Elsewhere), r.value, fuel)
    ensures var r := Drive(m, first, FirstPlace(BRACED, second), s, fuel);
      r.Done? ==>
        Drive(m, Seq(first, second), BRACED, s, fuel)
        == DriveWhile(m, second, Place(true, Elsewhere), r.value, fuel)
  {
    var at := Place(true, Elsewhere);
    assert !EndsOpen(first.body) && EndsInWhile(first);
    assert SecondPlace(Seq(before, first), BRACED) == at && SecondPlace(first, BRACED) == at;
    forall t ensures Drive(m, second, at, t, fuel) == DriveWhile(m, second, at, t, fuel) {
      var r := DriveWhile(m, second, at, t, fuel);
      if r.Done? { assert PastWhile(at, r.value) == r; }
    }
  }

  /** With the gate shut, a text is walked to its end as long as only loops behind loops are marked. */
  lemma {:induction false} SkippedWithMarks(m: Meaning, st: Stmt, s: State, fuel: nat)
    requires Skipping(s) && Nested(st) && OwnPlaces(st) && Fresh(s, Fors(st))
    requires s.continued <= Softs(st, false)
    ensures Drive(m, st, BRACED, s, fuel) == Done(Swap(s, Fors(st)))
  {
    StopsFollowNoLoop(st, BRACED);
    SkipStmt(m, st, BRACED, s, fuel);
  }

  /** So is a list that ends in a loop in front of a marked loop, however the list is grouped. */
  lemma {:induction false} SkippedLoopBehindLoop(m: Meaning, before: Expr, p: nat, q: nat, c: Expr, d: Expr, s: State,
        fuel: nat)
    requires Skipping(s) && s.continued == {q as int} && p != q
    ensures var list := Seq(Seq(Do(before), While(p, c, Nop)), While(q, d, Nop));
      Drive(m, list, BRACED, s, fuel) == Done(s)
  {
    var one, two := While(p, c, Nop), While(q, d, Nop);
    var front := Seq(Do(before), one);
    var list := Seq(front, two);
    assert Nested(Nop) && Nested(one) && Nested(two) && Nested(front) && Nested(list);
    assert Whiles(Nop) == {} && Whiles(one) == {p as int} && Whiles(two) == {q as int} && Whiles(front) == {p as int};
    assert OwnPlaces(Nop) && OwnPlaces(one) && OwnPlaces(two) && OwnPlaces(front) && OwnPlaces(list);
    assert Fors(Nop) == {} && Fors(one) == {} && Fors(two) == {} && Fors(front) == {} && Fors(list) == {};
    assert EndsInWhile(one) && EndsInWhile(front) && Softs(two, true) == {q as int};
    assert Softs(list, false) == Softs(front, false) + Softs(two, true);
    SkippedWithMarks(m, list, s, fuel);
    SwapNothing(s);
  }

  /** A marked `while` at the start of a text, or behind any statement that is no loop, stops the
      walk: no rule of the grammar can take it. */
  lemma {:induction false} MarkStopsElsewhere(m: Meaning, before: Stmt, st: Stmt, at: Place, s: State, fuel: nat)
    requires st.While? && !before.While? && !before.Seq?
    ensures st.pos in s.continued ==> Drive(m, st, BRACED, s, fuel) == Halt(ContinuedWhileMet, s.env.trace)
    ensures var r := Drive(m, before, FirstPlace(at, st), s, fuel);
      r.Done? && st.pos in r.value.continued ==>
        Drive(m, Seq(before, st), at, s, fuel) == Halt(ContinuedWhileMet, r.value.env.trace)
  {
  }

  /** A marked `while` behind an unbraced statement that ends in a loop is swallowed by that loop. */
  lemma {:induction false} MarkIsSwallowed(m: Meaning, c: Expr, d: Expr, p: nat, q: nat, r: nat, s: State, fuel: nat)
    requires Skipping(s) && s.continued == {p as int} && p != q && p != r
    ensures var loop, marked := While(q, d, Nop), While(p, d, Nop);
      var swallowed := Halt(WhileSwallowed, s.env.trace);
      && Drive(m, Seq(If(c, loop, EndIf), marked), BRACED, s, fuel) == swallowed
      && Drive(m, Seq(If(c, Nop, Else(loop)), marked), BRACED, s, fuel) == swallowed
      && Drive(m, Seq(If(c, Nop, ElseIf(c, loop, EndIf)), marked), BRACED, s, fuel) == swallowed
      && Drive(m, Seq(While(r, c, loop), marked), BRACED, s, fuel) == swallowed
  {
    var loop, marked := While(q, d, Nop), While(p, d, Nop);
    SwallowedHere(m, p, q, d, PushFlag(s).(executeFlag := DONT_EXECUTE), fuel);
    SwallowedHere(m, p, q, d, EnterLoop(s), fuel);
    assert FirstPlace(BRACED, marked) == Place(false, Here(p));
    LoopSwallows(m, c, loop, p, r, s, fuel);
    IfSwallows(m, c, loop, p, s, fuel);
  }

  lemma {:induction false} SwallowedHere(m: Meaning, p: nat, q: nat, d: Expr, s: State, fuel: nat)
    requires Skipping(s) && s.continued == {p as int} && p != q
    ensures Drive(m, While(q, d, Nop), Place(false, Beyond(p)), s, fuel) == Halt(WhileSwallowed, s.env.trace)
  {
    var st, at := While(q, d, Nop), Place(false, Beyond(p));
    SkipWhile(m, st, at, s, fuel);
    SwapNothing(s);
    assert Fors(st) == {} && Stops(Nop, BodyPlace(at)) == {};
    assert DriveWhile(m, st, at, s, fuel) == Done(s);
  }

  lemma {:induction false} LoopSwallows(m: Meaning, c: Expr, loop: Stmt, p: nat, r: nat, s: State, fuel: nat)
    requires Skipping(s) && s.continued == {p as int} && p != r && loop.While?
    requires Drive(m, loop, Place(false, Beyond(p)), EnterLoop(s), fuel) == Halt(WhileSwallowed, s.env.trace)
    ensures Drive(m, While(r, c, loop), Place(false, Here(p)), s, fuel) == Halt(WhileSwallowed, s.env.trace)
  {
    SkipExpr(m, c, s, fuel);
    var outer, at := While(r, c, loop), Place(false, Here(p));
    assert BodyPlace(at) == Place(false, Beyond(p));
    assert StartWhile(m, s, r, DriveExpr(m, c, s, fuel).value.1) == EnterLoop(s);
    assert DriveWhile(m, outer, at, s, fuel) == Halt(WhileSwallowed, s.env.trace);
  }

  lemma {:induction false} IfSwallows(m: Meaning, c: Expr, loop: Stmt, p: nat, s: State, fuel: nat)
    requires Skipping(s) && s.continued == {p as int} && loop.While?
    requires var u := PushFlag(s).(executeFlag := DONT_EXECUTE);
      Drive(m, loop, Place(false, Beyond(p)), u, fuel) == Halt(WhileSwallowed, s.env.trace)
    ensures var at := Place(false, Here(p));
      var swallowed := Halt(WhileSwallowed, s.env.trace);
      && Drive(m, If(c, loop, EndIf), at, s, fuel) == swallowed
      && Drive(m, If(c, Nop, Else(loop)), at, s, fuel) == swallowed
      && Drive(m, If(c, Nop, ElseIf(c, loop, EndIf)), at, s, fuel) == swallowed
  {
    var u, at := PushFlag(s).(executeFlag := DONT_EXECUTE), Place(false, Here(p));
    SkipExpr(m, c, s, fuel);
    SkipExpr(m, c, PushFlag(u), fuel);
    assert DriveIf(m, If(c, loop, EndIf), at, s, fuel).Halt?;
    assert DriveTail(m, Else(loop), at, u, fuel) == Halt(WhileSwallowed, s.env.trace);
    assert DriveIf(m, If(c, Nop, Else(loop)), at, s, fuel) == Halt(WhileSwallowed, s.env.trace);
    assert DriveTail(m, ElseIf(c, loop, EndIf), at, u, fuel) == Halt(WhileSwallowed, s.env.trace);
    assert DriveIf(m, If(c, Nop, ElseIf(c, loop, EndIf)), at, s, fuel) == Halt(WhileSwallowed, s.env.trace);
  }
}
