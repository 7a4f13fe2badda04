/** The packed LALR(1) tables of the configuration parser, and what they encode. */
module ConfigTables {

  const YYFINAL: int := 2
  const YYLAST: int := 18
  const YYNTOKENS: int := 11
  const YYPACT_NINF: int := -5
  const YYTERROR: int := 1

  const YYPACT: seq<int> := [-5, 0, -5, -5, -5, -5, 4, -5, -5, 7, -2, 8, -5, -5, -5, -5, -5, -5]
  const YYDEFACT: seq<int> := [3, 0, 1, 9, 10, 7, 0, 8, 2, 5, 0, 0, 6, 12, 13, 14, 11, 4]
  const YYPGOTO: seq<int> := [-5, -5, -5, -4, -5]
  const YYDEFGOTO: seq<int> := [-1, 1, 8, 9, 17]
  const YYTABLE: seq<int> := [2, 3, 4, 3, 4, 5, 12, 16, 6, 0, 7, 3, 4, 10, 13, 14, 11, 0, 15]
  const YYCHECK: seq<int> := [0, 3, 4, 3, 4, 5, 10, 11, 8, -1, 10, 3, 4, 9, 6, 7, 9, -1, 10]
  const YYR1: seq<int> := [0, 11, 12, 12, 13, 13, 13, 13, 13, 14, 14, 15, 15, 15, 15]
  const YYR2: seq<int> := [0, 2, 2, 0, 3, 1, 3, 1, 1, 1, 1, 1, 1, 1, 1]

  // Grammar symbols: terminals up to 10, nonterminals from 11.
  const END: int := 0
  const UNDEFINED: int := 2
  const STRING: int := 3
  const ENCAPSULATED: int := 4
  const SECTION: int := 5
  const TRUE: int := 6
  const FALSE: int := 7
  const EXTENSION: int := 8
  const EQUALS: int := 9
  const NEWLINE: int := 10
  const STATEMENT_LIST: int := 12
  const STATEMENT: int := 13
  const STRING_NT: int := 14
  const STRING_OR_VALUE: int := 15

  /** yytranslate: the symbol for a code the scanner returns. */
  function Translate(code: int): (sym: int)
    ensures 0 <= sym <= 10 && (sym == END <==> code == 0)
  {
    if code == 0 then END
    else if code == 10 then NEWLINE
    else if code == 61 then EQUALS
    else if code == 256 then YYTERROR
    else if 258 <= code <= 263 then code - 255
    else UNDEFINED
  }

  datatype Action = Shift(state: int) | Reduce(rule: int) | Error

  predicate IsState(state: int) { 0 <= state < 18 }

  predicate IsDefault(state: int)
    requires IsState(state)
  {
    YYPACT[state] == YYPACT_NINF
  }

  function DefaultAction(state: int): Action
    requires IsState(state)
  {
    if YYDEFACT[state] == 0 then Error else Reduce(YYDEFACT[state])
  }

  /** The action in a state that looks at the next symbol. */
  function Lookup(state: int, sym: int): Action
    requires IsState(state) && !IsDefault(state)
  {
    var n := YYPACT[state] + sym;
    if n < 0 || YYLAST < n || YYCHECK[n] != sym then DefaultAction(state)
    else if YYTABLE[n] <= 0 then Reduce(-YYTABLE[n])
    else Shift(YYTABLE[n])
  }

  /** The state after a reduction by `rule` that uncovered `state`. */
  function Goto(rule: int, state: int): int
    requires 1 <= rule <= 14 && YYR1[rule] >= YYNTOKENS
  {
    var nt := YYR1[rule] - YYNTOKENS;
    var n := YYPGOTO[nt] + state;
    if 0 <= n <= YYLAST && YYCHECK[n] == state then YYTABLE[n] else YYDEFGOTO[nt]
  }

  /** The right-hand sides of the grammar, rule by rule. */
  function Rhs(rule: int): seq<int>
    requires 1 <= rule <= 14
  {
    match rule
    case 1 => [STATEMENT_LIST, END]
    case 2 => [STATEMENT_LIST, STATEMENT]
    case 3 => []
    case 4 => [STRING_NT, EQUALS, STRING_OR_VALUE]
    case 5 => [STRING_NT]
    case 6 => [EXTENSION, EQUALS, STRING_NT]
    case 7 => [SECTION]
    case 8 => [NEWLINE]
    case 9 => [STRING]
    case 10 => [ENCAPSULATED]
    case 11 => [STRING_NT]
    case 12 => [TRUE]
    case 13 => [FALSE]
    case _ => [NEWLINE]
  }

  /** The left-hand sides; 11 is the start symbol that Bison adds. */
  function Lhs(rule: int): int
    requires 1 <= rule <= 14
  {
    match rule
    case 1 => YYNTOKENS
    case 2 => STATEMENT_LIST
    case 3 => STATEMENT_LIST
    case 9 => STRING_NT
    case 10 => STRING_NT
    case _ => if rule <= 8 then STATEMENT else STRING_OR_VALUE
  }

  /** The grammar is the one the tables were made for, and no entry handles the error token. */
  lemma {:induction false} TablesFitGrammar()
    ensures forall rule :: 1 <= rule <= 14 ==> YYR2[rule] == |Rhs(rule)| && YYR1[rule] == Lhs(rule)
    ensures forall i :: 0 <= i <= YYLAST ==> YYCHECK[i] != YYTERROR
  {
  }

  // The automaton in the tables, spelled out.

  predicate IsString(sym: int) { sym == STRING || sym == ENCAPSULATED }

  predicate IsValue(sym: int) { IsString(sym) || sym == TRUE || sym == FALSE || sym == NEWLINE }

  /** The states that look at the next symbol, and what they do. */
  function LookaheadAction(state: int, sym: int): Action {
    match state
    case 1 =>
      if sym == END then Shift(2) else if sym == STRING then Shift(3) else if sym == ENCAPSULATED then Shift(4)
      else if sym == SECTION then Shift(5) else if sym == EXTENSION then Shift(6)
      else if sym == NEWLINE then Shift(7) else Error
    case 6 => if sym == EQUALS then Shift(10) else Error
    case 9 => if sym == EQUALS then Shift(11) else Reduce(5)
    case 10 => if sym == STRING then Shift(3) else if sym == ENCAPSULATED then Shift(4) else Error
    case _ =>
      if sym == STRING then Shift(3) else if sym == ENCAPSULATED then Shift(4) else if sym == TRUE then Shift(13)
      else if sym == FALSE then Shift(14) else if sym == NEWLINE then Shift(15) else Error
  }

  predicate Looks(state: int) { state == 1 || state == 6 || state == 9 || state == 10 || state == 11 }

  /** The packed lookup, with its bounds test, its check vector and its default reductions, is
      this automaton. */
  lemma {:induction false} UnpackLookup(state: int, sym: int)
    requires IsState(state) && 0 <= sym <= 10
    ensures IsDefault(state) <==> !Looks(state)
    ensures Looks(state) ==> Lookup(state, sym) == LookaheadAction(state, sym)
  {
    if state == 1 {} else if state == 6 {} else if state == 9 {} else if state == 10 {} else if state == 11 {}
  }
}
