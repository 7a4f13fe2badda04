/** Scripts as the grammar of the parser sees them.

    Loops and switches carry the position of their keyword in the token cache, because the
    parser recognises a `for` it has met before, and marks tokens, by that position. */
module PhpSyntax {
  import opened Options

  datatype Expr =
    | Empty                                     // an omitted expression of a for header
    | Atom(id: int)                             // any expression without control flow or user calls
    | Op(id: int, operands: Exprs)              // an operator that evaluates all its operands
    | Or(left: Expr, right: Expr)
    | And(left: Expr, right: Expr)
    | Ternary(test: Expr, yes: Expr, no: Expr)
    | Call(name: string, args: Exprs)

  datatype Exprs = NoArgs | Arg(head: Expr, tail: Exprs)

  datatype Stmt =
    | Nop                                       // ;
    | Seq(first: Stmt, second: Stmt)            // two statements of a list
    | Block(body: Stmt)                         // { .. }, or the : form of a body
    | Do(expr: Expr)                            // an expression statement
    | If(cond: Expr, thn: Stmt, tail: IfTail)
    | While(pos: nat, cond: Expr, body: Stmt)
    | DoWhile(body: Stmt, cond: Expr)
    | For(pos: nat, init: Expr, cond: Expr, step: Expr, body: Stmt)
    | Switch(pos: nat, subject: Expr, cases: Cases)
    | Break(levels: Option<Expr>)
    | Continue(levels: Option<Expr>)
    | Return(result: Option<Expr>)
    | Declare(name: string, body: Stmt)

  datatype IfTail = EndIf | Else(body: Stmt) | ElseIf(cond: Expr, body: Stmt, rest: IfTail)

  // The grammar allows `default` as the last label only.
  datatype Cases = EndCases | Default(body: Stmt) | Case(value: Expr, body: Stmt, rest: Cases)

  /** The positions of all `for` keywords in the text of a statement, declared functions included. */
  function Fors(st: Stmt): (r: set<int>)
    ensures -1 !in r
  {
    match st
    case Seq(a, b) => Fors(a) + Fors(b)
    case If(_, thn, tail) => Fors(thn) + TailFors(tail)
    case Block(body) => Fors(body)
    case While(_, _, body) => Fors(body)
    case DoWhile(body, _) => Fors(body)
    case For(pos, _, _, _, body) => {pos} + Fors(body)
    case Switch(_, _, cases) => CaseFors(cases)
    case Declare(_, body) => Fors(body)
    case _ => {}
  }

  function TailFors(t: IfTail): (r: set<int>)
    ensures -1 !in r
  {
    match t
    case EndIf => {}
    case Else(body) => Fors(body)
    case ElseIf(_, body, rest) => Fors(body) + TailFors(rest)
  }

  function CaseFors(cs: Cases): (r: set<int>)
    ensures -1 !in r
  {
    match cs
    case EndCases => {}
    case Default(body) => Fors(body)
    case Case(_, body, rest) => Fors(body) + CaseFors(rest)
  }

  /** No `for` contains a `for` at its own position: what the text of a script guarantees. */
  predicate Nested(st: Stmt) {
    match st
    case Seq(a, b) => Nested(a) && Nested(b)
    case If(_, thn, tail) => Nested(thn) && TailNested(tail)
    case Block(body) => Nested(body)
    case While(_, _, body) => Nested(body)
    case DoWhile(body, _) => Nested(body)
    case For(pos, _, _, _, body) => pos !in Fors(body) && Nested(body)
    case Switch(_, _, cases) => CasesNested(cases)
    case Declare(_, body) => Nested(body)
    case _ => true
  }

  predicate TailNested(t: IfTail) {
    match t
    case EndIf => true
    case Else(body) => Nested(body)
    case ElseIf(_, body, rest) => Nested(body) && TailNested(rest)
  }

  predicate CasesNested(cs: Cases) {
    match cs
    case EndCases => true
    case Default(body) => Nested(body)
    case Case(_, body, rest) => Nested(body) && CasesNested(rest)
  }

  // Where a `while` stands.

  /** The token that follows a statement, as far as it matters: a `while` of the same list, a
      `while` behind the unbraced statement this one ends, or any other token. */
  datatype Follow = Elsewhere | Here(pos: nat) | Beyond(pos: nat)

  /** A place for a statement: whether it directly follows the end of a `while` in its list, so
      that the parser still looks for iterations of that `while`; and what follows it. */
  datatype Place = Place(after: bool, follow: Follow)

  /** The start of a braced list that nothing but the brace follows. */
  const BRACED: Place := Place(false, Elsewhere)

  /** The place of an unbraced body that ends the statement at `at`. */
  function BodyPlace(at: Place): Place {
    Place(false, match at.follow case Here(p) => Beyond(p) case _ => at.follow)
  }

  /** The place of a branch in front of the rest of a chain. */
  function BranchPlace(tail: IfTail, at: Place): Place { if tail.EndIf? then BodyPlace(at) else BRACED }

  function FirstWhile(st: Stmt): Option<nat> {
    match st
    case While(pos, _, _) => Some(pos)
    case Seq(a, _) => FirstWhile(a)
    case _ => None
  }

  function FirstPlace(at: Place, second: Stmt): Place {
    Place(at.after, match FirstWhile(second) case Some(p) => Here(p) case None => Elsewhere)
  }

  function SecondPlace(first: Stmt, at: Place): Place { Place(EndsInWhile(first), at.follow) }

  /** The last token of the statement is that of a `while` whose iterations may follow. */
  predicate EndsOpen(st: Stmt) {
    match st
    case While(_, _, _) => true
    case Seq(_, b) => EndsOpen(b)
    case If(_, thn, tail) => if tail.EndIf? then EndsOpen(thn) else TailEndsOpen(tail)
    case For(_, _, _, _, body) => EndsOpen(body)
    case _ => false
  }

  predicate TailEndsOpen(t: IfTail) {
    match t
    case EndIf => false
    case Else(body) => EndsOpen(body)
    case ElseIf(_, body, rest) => if rest.EndIf? then EndsOpen(body) else TailEndsOpen(rest)
  }

  /** The list ends in a `while` that does not end in an inner one: the token after it is looked
      at where the list goes on. */
  predicate EndsInWhile(st: Stmt) {
    match st
    case While(_, _, body) => !EndsOpen(body)
    case Seq(_, b) => EndsInWhile(b)
    case _ => false
  }

  /** The `while` that the end of a `while` at this place would take for an iteration of its own. */
  function Swallowed(at: Place): set<int> { if at.follow.Beyond? then {at.follow.pos as int} else {} }

  /** The positions of the `while` keywords that, when marked, end the orderly walk over a
      statement: those that are no iteration of a `while` before them, and those swallowed. */
  function Stops(st: Stmt, at: Place): set<int> {
    match st
    case Seq(a, b) => Stops(a, FirstPlace(at, b)) + Stops(b, SecondPlace(a, at))
    case Block(body) => Stops(body, BRACED)
    case If(_, thn, tail) => Stops(thn, BranchPlace(tail, at)) + TailStops(tail, at)
    case While(pos, _, body) => WhileStop(pos, at) + Stops(body, BodyPlace(at)) + Swallowed(at)
    case DoWhile(body, _) => Stops(body, BRACED)
    case For(_, _, _, _, body) => Stops(body, BodyPlace(at))
    case Switch(_, _, cases) => CaseStops(cases)
    case Declare(_, body) => Stops(body, BRACED)
    case _ => {}
  }

  function WhileStop(pos: nat, at: Place): set<int> { if at.after then {} else {pos as int} }

  function TailStops(t: IfTail, at: Place): set<int> {
    match t
    case EndIf => {}
    case Else(body) => Stops(body, BodyPlace(at))
    case ElseIf(_, body, rest) => Stops(body, BranchPlace(rest, at)) + TailStops(rest, at)
  }

  function CaseStops(cs: Cases): set<int> {
    match cs
    case EndCases => {}
    case Default(body) => Stops(body, BRACED)
    case Case(_, body, rest) => Stops(body, BRACED) + CaseStops(rest)
  }

  /** The positions of the `while` keywords that directly follow the end of a `while`. */
  function Softs(st: Stmt, after: bool): set<int> {
    match st
    case Seq(a, b) => Softs(a, after) + Softs(b, EndsInWhile(a))
    case Block(body) => Softs(body, false)
    case If(_, thn, tail) => Softs(thn, false) + TailSofts(tail)
    case While(pos, _, body) => (if after then {pos as int} else {}) + Softs(body, false)
    case DoWhile(body, _) => Softs(body, false)
    case For(_, _, _, _, body) => Softs(body, false)
    case Switch(_, _, cases) => CaseSofts(cases)
    case Declare(_, body) => Softs(body, false)
    case _ => {}
  }

  function TailSofts(t: IfTail): set<int> {
    match t
    case EndIf => {}
    case Else(body) => Softs(body, false)
    case ElseIf(_, body, rest) => Softs(body, false) + TailSofts(rest)
  }

  function CaseSofts(cs: Cases): set<int> {
    match cs
    case EndCases => {}
    case Default(body) => Softs(body, false)
    case Case(_, body, rest) => Softs(body, false) + CaseSofts(rest)
  }

  /** No `while` directly follows an unbraced statement that ends in a `while`. */
  predicate Tidy(st: Stmt, at: Place) {
    match st
    case Seq(a, b) => Tidy(a, FirstPlace(at, b)) && Tidy(b, SecondPlace(a, at))
    case Block(body) => Tidy(body, BRACED)
    case If(_, thn, tail) => Tidy(thn, BranchPlace(tail, at)) && TailTidy(tail, at)
    case While(_, _, body) => !at.follow.Beyond? && Tidy(body, BodyPlace(at))
    case DoWhile(body, _) => Tidy(body, BRACED)
    case For(_, _, _, _, body) => Tidy(body, BodyPlace(at))
    case Switch(_, _, cases) => CasesTidy(cases)
    case Declare(_, body) => Tidy(body, BRACED)
    case _ => true
  }

  predicate TailTidy(t: IfTail, at: Place) {
    match t
    case EndIf => true
    case Else(body) => Tidy(body, BodyPlace(at))
    case ElseIf(_, body, rest) => Tidy(body, BranchPlace(rest, at)) && TailTidy(rest, at)
  }

  predicate CasesTidy(cs: Cases) {
    match cs
    case EndCases => true
    case Default(body) => Tidy(body, BRACED)
    case Case(_, body, rest) => Tidy(body, BRACED) && CasesTidy(rest)
  }
}
