/** Where the `while` keywords of a text can stand: if each has its own position, none that stops the
    parser when marked is one that directly follows a loop. */
module TextPlaces {
  import opened PhpSyntax

  /** The positions of all `while` keywords in a text. */
  function Whiles(st: Stmt): set<int> {
    match st
    case Seq(a, b) => Whiles(a) + Whiles(b)
    case Block(body) => Whiles(body)
    case If(_, thn, tail) => Whiles(thn) + TailWhiles(tail)
    case While(pos, _, body) => {pos as int} + Whiles(body)
    case DoWhile(body, _) => Whiles(body)
    case For(_, _, _, _, body) => Whiles(body)
    case Switch(_, _, cases) => CaseWhiles(cases)
    case Declare(_, body) => Whiles(body)
    case _ => {}
  }

  function TailWhiles(t: IfTail): set<int> {
    match t
    case EndIf => {}
    case Else(body) => Whiles(body)
    case ElseIf(_, body, rest) => Whiles(body) + TailWhiles(rest)
  }

  function CaseWhiles(cs: Cases): set<int> {
    match cs
    case EndCases => {}
    case Default(body) => Whiles(body)
    case Case(_, body, rest) => Whiles(body) + CaseWhiles(rest)
  }

  /** No two `while` keywords have the same position. */
  predicate OwnPlaces(st: Stmt) {
    match st
    case Seq(a, b) => OwnPlaces(a) && OwnPlaces(b) && Whiles(a) !! Whiles(b)
    case Block(body) => OwnPlaces(body)
    case If(_, thn, tail) => OwnPlaces(thn) && TailOwnPlaces(tail) && Whiles(thn) !! TailWhiles(tail)
    case While(pos, _, body) => pos as int !in Whiles(body) && OwnPlaces(body)
    case DoWhile(body, _) => OwnPlaces(body)
    case For(_, _, _, _, body) => OwnPlaces(body)
    case Switch(_, _, cases) => CasesOwnPlaces(cases)
    case Declare(_, body) => OwnPlaces(body)
    case _ => true
  }

  predicate TailOwnPlaces(t: IfTail) {
    match t
    case EndIf => true
    case Else(body) => OwnPlaces(body)
    case ElseIf(_, body, rest) => OwnPlaces(body) && TailOwnPlaces(rest) && Whiles(body) !! TailWhiles(rest)
  }

  predicate CasesOwnPlaces(cs: Cases) {
    match cs
    case EndCases => true
    case Default(body) => OwnPlaces(body)
    case Case(_, body, rest) => OwnPlaces(body) && CasesOwnPlaces(rest) && Whiles(body) !! CaseWhiles(rest)
  }

  function Behind(at: Place): set<int> { if at.follow.Elsewhere? then {} else {at.follow.pos as int} }

  // What stops the walk is a keyword of the text, or the one behind it

  lemma {:induction false} StopsWithin(st: Stmt, at: Place)
    ensures Stops(st, at) <= Whiles(st) + Behind(at)
    decreases st
  {
    match st
    case Seq(a, b) =>
      StopsWithin(a, FirstPlace(at, b));
      StopsWithin(b, SecondPlace(a, at));
      FirstWithin(b);
    case Block(body) => StopsWithin(body, BRACED);
    case If(_, thn, tail) =>
      StopsWithin(thn, BranchPlace(tail, at));
      TailStopsWithin(tail, at);
    case While(_, _, body) => StopsWithin(body, BodyPlace(at));
    case DoWhile(body, _) => StopsWithin(body, BRACED);
    case For(_, _, _, _, body) => StopsWithin(body, BodyPlace(at));
    case Switch(_, _, cases) => CaseStopsWithin(cases);
    case Declare(_, body) => StopsWithin(body, BRACED);
    case _ =>
  }

  lemma {:induction false} TailStopsWithin(t: IfTail, at: Place)
    ensures TailStops(t, at) <= TailWhiles(t) + Behind(at)
    decreases t
  {
    match t
    case EndIf =>
    case Else(body) => StopsWithin(body, BodyPlace(at));
    case ElseIf(_, body, rest) =>
      StopsWithin(body, BranchPlace(rest, at));
      TailStopsWithin(rest, at);
  }

  lemma {:induction false} CaseStopsWithin(cs: Cases)
    ensures CaseStops(cs) <= CaseWhiles(cs)
    decreases cs
  {
    match cs
    case EndCases =>
    case Default(body) => StopsWithin(body, BRACED);
    case Case(_, body, rest) =>
      StopsWithin(body, BRACED);
      CaseStopsWithin(rest);
  }

  lemma {:induction false} FirstWithin(st: Stmt)
    ensures FirstWhile(st).Some? ==> FirstWhile(st).value as int in Whiles(st)
  {
    if st.Seq? { FirstWithin(st.first); }
  }

  lemma {:induction false} SoftsWithin(st: Stmt, after: bool)
    ensures Softs(st, after) <= Whiles(st)
    decreases st
  {
    match st
    case Seq(a, b) =>
      SoftsWithin(a, after);
      SoftsWithin(b, EndsInWhile(a));
    case Block(body) => SoftsWithin(body, false);
    case If(_, thn, tail) =>
      SoftsWithin(thn, false);
      TailSoftsWithin(tail);
    case While(_, _, body) => SoftsWithin(body, false);
    case DoWhile(body, _) => SoftsWithin(body, false);
    case For(_, _, _, _, body) => SoftsWithin(body, false);
    case Switch(_, _, cases) => CaseSoftsWithin(cases);
    case Declare(_, body) => SoftsWithin(body, false);
    case _ =>
  }

  lemma {:induction false} TailSoftsWithin(t: IfTail)
    ensures TailSofts(t) <= TailWhiles(t)
    decreases t
  {
    match t
    case EndIf =>
    case Else(body) => SoftsWithin(body, false);
    case ElseIf(_, body, rest) =>
      SoftsWithin(body, false);
      TailSoftsWithin(rest);
  }

  lemma {:induction false} CaseSoftsWithin(cs: Cases)
    ensures CaseSofts(cs) <= CaseWhiles(cs)
    decreases cs
  {
    match cs
    case EndCases =>
    case Default(body) => SoftsWithin(body, false);
    case Case(_, body, rest) =>
      SoftsWithin(body, false);
      CaseSoftsWithin(rest);
  }

  // The keyword behind a text

  /** Only a statement whose last token is that of an open loop looks at the keyword behind it. */
  lemma {:induction false} ClosedLooksNoFurther(st: Stmt, at: Place)
    requires !EndsOpen(st) && Behind(at) !! Whiles(st)
    ensures Stops(st, at) !! Behind(at)
    decreases st
  {
    match st
    case Seq(a, b) =>
      StopsWithin(a, FirstPlace(at, b));
      FirstWithin(b);
      ClosedLooksNoFurther(b, SecondPlace(a, at));
    case If(_, thn, tail) =>
      if tail.EndIf? {
        ClosedLooksNoFurther(thn, BodyPlace(at));
      } else {
        StopsWithin(thn, BRACED);
        ClosedTailLooksNoFurther(tail, at);
      }
    case For(_, _, _, _, body) => ClosedLooksNoFurther(body, BodyPlace(at));
    case _ => StopsWithin(st, Place(at.after, Elsewhere));
  }

  lemma {:induction false} ClosedTailLooksNoFurther(t: IfTail, at: Place)
    requires !t.EndIf? && !TailEndsOpen(t) && Behind(at) !! TailWhiles(t)
    ensures TailStops(t, at) !! Behind(at)
    decreases t
  {
    match t
    case Else(body) => ClosedLooksNoFurther(body, BodyPlace(at));
    case ElseIf(_, body, rest) =>
      if rest.EndIf? {
        ClosedLooksNoFurther(body, BodyPlace(at));
      } else {
        StopsWithin(body, BRACED);
        ClosedTailLooksNoFurther(rest, at);
      }
  }

  /** A list that ends in a loop takes a `while` directly behind it for an iteration of that loop. */
  lemma {:induction false} LoopTakesTheNext(st: Stmt, at: Place)
    requires EndsInWhile(st) && !at.follow.Beyond? && Behind(at) !! Whiles(st)
    ensures Stops(st, at) !! Behind(at)
    decreases st
  {
    match st
    case Seq(a, b) =>
      StopsWithin(a, FirstPlace(at, b));
      FirstWithin(b);
      LoopTakesTheNext(b, SecondPlace(a, at));
    case While(_, _, body) => ClosedLooksNoFurther(body, BodyPlace(at));
  }

  lemma {:induction false} FirstFollowsNoLoop(st: Stmt)
    requires OwnPlaces(st) && FirstWhile(st).Some?
    ensures FirstWhile(st).value as int !in Softs(st, false)
    decreases st
  {
    match st
    case Seq(a, b) =>
      FirstFollowsNoLoop(a);
      FirstWithin(a);
      SoftsWithin(b, EndsInWhile(a));
    case While(_, _, body) => SoftsWithin(body, false);
  }

  // No keyword both stops the parser and directly follows a loop

  lemma {:induction false} StopsFollowNoLoop(st: Stmt, at: Place)
    requires OwnPlaces(st) && Behind(at) !! Whiles(st)
    ensures Stops(st, at) !! Softs(st, at.after)
    decreases st
  {
    SoftsWithin(st, at.after);
    match st
    case Seq(a, b) => ListStopsFollowNoLoop(a, b, at);
    case Block(body) => StopsFollowNoLoop(body, BRACED);
    case If(_, thn, tail) =>
      var first := BranchPlace(tail, at);
      StopsFollowNoLoop(thn, first);
      TailStopsFollowNoLoop(tail, at);
      StopsWithin(thn, first);
      SoftsWithin(thn, false);
      TailStopsWithin(tail, at);
      TailSoftsWithin(tail);
    case While(_, _, body) =>
      StopsFollowNoLoop(body, BodyPlace(at));
      StopsWithin(body, BodyPlace(at));
      SoftsWithin(body, false);
    case DoWhile(body, _) => StopsFollowNoLoop(body, BRACED);
    case For(_, _, _, _, body) => StopsFollowNoLoop(body, BodyPlace(at));
    case Switch(_, _, cases) => CaseStopsFollowNoLoop(cases);
    case Declare(_, body) => StopsFollowNoLoop(body, BRACED);
    case _ =>
  }

  lemma {:induction false} ListStopsFollowNoLoop(a: Stmt, b: Stmt, at: Place)
    requires OwnPlaces(Seq(a, b)) && Behind(at) !! Whiles(Seq(a, b))
    ensures Stops(Seq(a, b), at) !! Softs(Seq(a, b), at.after)
    decreases Seq(a, b), 0
  {
    var first, second := FirstPlace(at, b), SecondPlace(a, at);
    FirstWithin(b);
    StopsFollowNoLoop(a, first);
    StopsFollowNoLoop(b, second);
    StopsWithin(a, first);
    StopsWithin(b, second);
    SoftsWithin(a, at.after);
    SoftsWithin(b, EndsInWhile(a));
    if EndsInWhile(a) {
      LoopTakesTheNext(a, first);
    } else if FirstWhile(b).Some? {
      FirstFollowsNoLoop(b);
    }
  }

  lemma {:induction false} TailStopsFollowNoLoop(t: IfTail, at: Place)
    requires TailOwnPlaces(t) && Behind(at) !! TailWhiles(t)
    ensures TailStops(t, at) !! TailSofts(t)
    decreases t
  {
    match t
    case EndIf =>
    case Else(body) => StopsFollowNoLoop(body, BodyPlace(at));
    case ElseIf(_, body, rest) =>
      var first := BranchPlace(rest, at);
      StopsFollowNoLoop(body, first);
      TailStopsFollowNoLoop(rest, at);
      StopsWithin(body, first);
      SoftsWithin(body, false);
      TailStopsWithin(rest, at);
      TailSoftsWithin(rest);
  }

  lemma {:induction false} CaseStopsFollowNoLoop(cs: Cases)
    requires CasesOwnPlaces(cs)
    ensures CaseStops(cs) !! CaseSofts(cs)
    decreases cs
  {
    match cs
    case EndCases =>
    case Default(body) => StopsFollowNoLoop(body, BRACED);
    case Case(_, body, rest) =>
      StopsFollowNoLoop(body, BRACED);
      CaseStopsFollowNoLoop(rest);
      StopsWithin(body, BRACED);
      SoftsWithin(body, false);
      CaseStopsWithin(rest);
      CaseSoftsWithin(rest);
  }
}
