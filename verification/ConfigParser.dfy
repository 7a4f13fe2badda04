/** The table-driven parser of configuration files. */
module ConfigParser {
  import opened Options
  import opened ConfigTables
  import opened ConfigMeaning
  import opened ConfigErrors
  import opened ConfigCodes
  import opened ConfigGrammar
  import opened BrowscapPattern

  // The situations the parser can be in: each stands for one stack of states.

  datatype Situation =
    | Start
    | AtList
    | Final
    | StringToken(state: int, key: string)
    | SectionToken(name: string)
    | NewlineToken
    | Reduced
    | Name(key: string)
    | NameEquals(key: string)
    | ValueToken(state: int, key: string, raw: string)
    | ValueName(key: string, value: string)
    | ValueReady(key: string, value: string)
    | Extension
    | ExtensionEquals
    | ExtensionToken(state: int, name: string)
    | ExtensionName(name: string)

  predicate Proper(c: Situation) {
    match c
    case StringToken(s, _) => s == 3 || s == 4
    case ExtensionToken(s, _) => s == 3 || s == 4
    case ValueToken(s, _, _) => s == 3 || s == 4 || s == 13 || s == 14 || s == 15
    case _ => true
  }

  function Stack(c: Situation): (r: seq<int>)
    ensures 1 <= |r| <= 5
  {
    match c
    case Start => [0]
    case AtList => [0, 1]
    case Final => [0, 1, 2]
    case StringToken(s, _) => [0, 1, s]
    case SectionToken(_) => [0, 1, 5]
    case NewlineToken => [0, 1, 7]
    case Reduced => [0, 1, 8]
    case Name(_) => [0, 1, 9]
    case NameEquals(_) => [0, 1, 9, 11]
    case ValueToken(s, _, _) => [0, 1, 9, 11, s]
    case ValueName(_, _) => [0, 1, 9, 11, 16]
    case ValueReady(_, _) => [0, 1, 9, 11, 17]
    case Extension => [0, 1, 6]
    case ExtensionEquals => [0, 1, 6, 10]
    case ExtensionToken(s, _) => [0, 1, 6, 10, s]
    case ExtensionName(_) => [0, 1, 6, 10, 12]
  }

  function Top(c: Situation): int { Stack(c)[|Stack(c)| - 1] }

  /** The semantic values the situation relies on, by position on the value stack. */
  predicate ValuesFit(c: Situation, vs: seq<string>)
    requires |vs| > 5
  {
    match c
    case StringToken(_, t) => vs[2] == t
    case SectionToken(t) => vs[2] == t
    case Name(t) => vs[2] == t
    case NameEquals(t) => vs[2] == t
    case ValueToken(_, t, raw) => vs[2] == t && vs[4] == raw
    case ValueName(t, v) => vs[2] == t && vs[4] == v
    case ValueReady(t, v) => vs[2] == t && vs[4] == v
    case ExtensionToken(_, t) => vs[4] == t
    case ExtensionName(t) => vs[4] == t
    case _ => true
  }

  /** What is still to be read in a situation, with `ts` left of the input. */
  function Rest(c: Situation, ts: seq<Token>): Reading {
    match c
    case Start => Read(ts)
    case AtList => Read(ts)
    case Reduced => Read(ts)
    case Final => Reading(true, [])
    case StringToken(_, t) => AfterName(t, ts)
    case Name(t) => AfterName(t, ts)
    case NameEquals(t) =>
      if ValueAt(ts, 0) then Then(Assign(t, ValueText(ts[0])), Read(ts[1..])) else BAD
    case ValueToken(s, t, raw) => Then(Assign(t, if s == 15 then "" else raw), Read(ts))
    case ValueName(t, v) => Then(Assign(t, v), Read(ts))
    case ValueReady(t, v) => Then(Assign(t, v), Read(ts))
    case SectionToken(t) => Then(Header(t), Read(ts))
    case NewlineToken => Then(Blank, Read(ts))
    case Extension =>
      if At(ts, 0, EQUALS) && StringAt(ts, 1) then Then(Load(ts[1].text), Read(ts[2..])) else BAD
    case ExtensionEquals => if StringAt(ts, 0) then Then(Load(ts[0].text), Read(ts[1..])) else BAD
    case ExtensionToken(_, t) => Then(Load(t), Read(ts))
    case ExtensionName(t) => Then(Load(t), Read(ts))
  }

  function AfterName(t: string, ts: seq<Token>): Reading {
    if !At(ts, 0, EQUALS) then Then(Bare(t), Read(ts))
    else if ValueAt(ts, 1) then Then(Assign(t, ValueText(ts[1])), Read(ts[2..]))
    else BAD
  }

  /** How far behind the tokens shifted so far the first offending token is. */
  function Ahead(c: Situation, ts: seq<Token>): nat
    requires !Rest(c, ts).accepted
  {
    match c
    case StringToken(_, _) => AheadOfName(ts)
    case Name(_) => AheadOfName(ts)
    case NameEquals(_) => if ValueAt(ts, 0) then 1 + Offence(ts[1..]).1 else 0
    case Extension =>
      if !At(ts, 0, EQUALS) then 0 else if StringAt(ts, 1) then 2 + Offence(ts[2..]).1 else 1
    case ExtensionEquals => if StringAt(ts, 0) then 1 + Offence(ts[1..]).1 else 0
    case _ => Offence(ts).1
  }

  function AheadOfName(ts: seq<Token>): nat
    requires !AfterName("", ts).accepted
  {
    if !At(ts, 0, EQUALS) then Offence(ts).1
    else if ValueAt(ts, 1) then 2 + Offence(ts[2..]).1 else 1
  }

  // How long an accepting run is, and how high its stack grows.

  /** The moves for a list: those of its statements, and the shift of the end of the input. */
  function ListMoves(ts: seq<Token>): nat
    requires Read(ts).accepted
    decreases |ts|
  {
    if ts == [] then 1
    else
      ReadStep(ts);
      StatementMoves(ts) + ListMoves(ts[StepLength(ts)..])
  }

  /** A shift for each token, a reduction for each rule applied: 8 for a key with a string, 7 for a key
      with another value, 6 for an extension, 4 for a key alone, 3 for a section or a line end. */
  function StatementMoves(ts: seq<Token>): nat
    requires StepLength(ts) > 0
  {
    if StringAt(ts, 0) then if StepLength(ts) == 1 then 4 else if StringAt(ts, 2) then 8 else 7
    else if At(ts, 0, EXTENSION) then 6 else 3
  }

  lemma {:induction false} ListMovesBound(ts: seq<Token>)
    requires Read(ts).accepted
    ensures ListMoves(ts) <= 4 * |ts| + 1
    decreases |ts|
  {
    if ts != [] {
      ReadStep(ts);
      ListMovesBound(ts[StepLength(ts)..]);
    }
  }

  /** Five states if a statement has three tokens, else three. */
  function ListHeight(ts: seq<Token>): nat
    requires Read(ts).accepted
    decreases |ts|
  {
    if ts == [] then 3
    else
      ReadStep(ts);
      if StepLength(ts) == 3 then 5 else ListHeight(ts[1..])
  }

  function ValueMoves(t: Token): nat { if IsString(Symbol(t)) then 4 else 3 }

  /** The moves to come. */
  function MovesLeft(c: Situation, ts: seq<Token>): nat
    requires Rest(c, ts).accepted
  {
    match c
    case Start => 1 + ListMoves(ts)
    case AtList => ListMoves(ts)
    case Final => 0
    case StringToken(_, _) => 1 + NameMoves(ts)
    case Name(_) => NameMoves(ts)
    case NameEquals(_) => 1 + ValueMoves(ts[0]) + ListMoves(ts[1..])
    case ValueToken(s, _, _) => (if s == 3 || s == 4 then 4 else 3) + ListMoves(ts)
    case ValueName(_, _) => 3 + ListMoves(ts)
    case ValueReady(_, _) => 2 + ListMoves(ts)
    case Extension => 5 + ListMoves(ts[2..])
    case ExtensionEquals => 4 + ListMoves(ts[1..])
    case ExtensionToken(_, _) => 3 + ListMoves(ts)
    case ExtensionName(_) => 2 + ListMoves(ts)
    case Reduced => 1 + ListMoves(ts)
    case _ => 2 + ListMoves(ts)
  }

  function NameMoves(ts: seq<Token>): nat
    requires AfterName("", ts).accepted
  {
    if !At(ts, 0, EQUALS) then 2 + ListMoves(ts) else 2 + ValueMoves(ts[1]) + ListMoves(ts[2..])
  }

  /** The highest stack to come. */
  function HeightLeft(c: Situation, ts: seq<Token>): nat
    requires Rest(c, ts).accepted
  {
    match c
    case Final => 3
    case StringToken(_, _) => if At(ts, 0, EQUALS) then 5 else ListHeight(ts)
    case Name(_) => if At(ts, 0, EQUALS) then 5 else ListHeight(ts)
    case NameEquals(_) => 5
    case ValueToken(_, _, _) => 5
    case ValueName(_, _) => 5
    case ValueReady(_, _) => 5
    case Extension => 5
    case ExtensionEquals => 5
    case ExtensionToken(_, _) => 5
    case ExtensionName(_) => 5
    case _ => ListHeight(ts)
  }

  function Max(a: nat, b: nat): nat { if a > b then a else b }

  /** The move from `c` to `d` is counted, and the stack of `c` is the higher one unless a higher comes. */
  predicate Counted(c: Situation, ts: seq<Token>, d: Situation, us: seq<Token>) {
    Rest(c, ts).accepted && Rest(d, us).accepted ==>
      && MovesLeft(c, ts) == 1 + MovesLeft(d, us)
      && HeightLeft(c, ts) == Max(|Stack(c)|, HeightLeft(d, us))
  }

  lemma {:induction false} ListHeightBounds(ts: seq<Token>)
    requires Read(ts).accepted
    ensures 3 <= ListHeight(ts) <= 5
    decreases |ts|
  {
    if ts != [] {
      ReadStep(ts);
      if StepLength(ts) != 3 { ListHeightBounds(ts[1..]); }
    }
  }

  /** The next situation when `t` is shifted into state `s`. */
  function AfterShift(c: Situation, s: int, t: Token): Situation {
    match c
    case AtList =>
      if s == 5 then SectionToken(t.text) else if s == 6 then Extension else if s == 7 then NewlineToken
      else StringToken(s, t.text)
    case Name(key) => NameEquals(key)
    case NameEquals(key) => ValueToken(s, key, t.text)
    case Extension => ExtensionEquals
    case _ => ExtensionToken(s, t.text)
  }

  function AfterReduce(c: Situation): Situation {
    match c
    case Start => AtList
    case StringToken(_, t) => Name(t)
    case ValueToken(s, t, raw) =>
      if s == 3 || s == 4 then ValueName(t, raw) else ValueReady(t, if s == 15 then "" else raw)
    case ValueName(t, v) => ValueReady(t, v)
    case ExtensionToken(_, t) => ExtensionName(t)
    case Reduced => AtList
    case _ => Reduced
  }

  /** The statement whose reduction leaves this situation. */
  function Emitted(c: Situation): seq<Statement> {
    match c
    case Name(t) => [Bare(t)]
    case ValueReady(t, v) => [Assign(t, v)]
    case ExtensionName(t) => [Load(t)]
    case SectionToken(t) => [Header(t)]
    case NewlineToken => [Blank]
    case _ => []
  }

  /** An upper bound on the moves to come without reading further tokens. */
  function Potential(c: Situation): nat {
    match c
    case Start => 2
    case AtList => 1
    case Final => 0
    case StringToken(_, _) => 4
    case SectionToken(_) => 3
    case NewlineToken => 3
    case Reduced => 2
    case Name(_) => 3
    case NameEquals(_) => 6
    case ValueToken(s, _, _) => if s == 3 || s == 4 then 5 else 4
    case ValueName(_, _) => 4
    case ValueReady(_, _) => 3
    case Extension => 1
    case ExtensionEquals => 1
    case ExtensionToken(_, _) => 4
    case ExtensionName(_) => 3
  }

  function NextSymbol(ts: seq<Token>): int { if ts == [] then END else Symbol(ts[0]) }

  function Decide(c: Situation, ts: seq<Token>): Action
    requires Proper(c)
  {
    if IsDefault(Top(c)) then DefaultAction(Top(c)) else Lookup(Top(c), NextSymbol(ts))
  }

  /** The situations whose state looks at the next symbol. */
  predicate Looking(c: Situation) { c.AtList? || c.Name? || c.NameEquals? || c.Extension? || c.ExtensionEquals? }

  /** What the automaton does in a situation that looks. */
  function Choice(c: Situation, ts: seq<Token>): Action { LookaheadAction(Top(c), NextSymbol(ts)) }

  predicate Reduces(c: Situation) {
    !c.Final? && !c.AtList? && !c.NameEquals? && !c.Extension? && !c.ExtensionEquals?
  }

  /** The rule reduced in a situation that reduces. */
  function RuleOf(c: Situation): int {
    match c
    case Start => 3
    case StringToken(s, _) => if s == 3 then 9 else 10
    case SectionToken(_) => 7
    case NewlineToken => 8
    case Reduced => 2
    case Name(_) => 5
    case ValueToken(s, _, _) =>
      if s == 3 then 9 else if s == 4 then 10 else if s == 13 then 12 else if s == 14 then 13 else 14
    case ValueName(_, _) => 11
    case ValueReady(_, _) => 4
    case ExtensionToken(s, _) => if s == 3 then 9 else 10
    case _ => 6
  }

  lemma {:induction false} Decided(c: Situation, ts: seq<Token>)
    requires Proper(c) && !c.Final?
    ensures Looking(c) ==> Decide(c, ts) == Choice(c, ts)
    ensures !Looking(c) ==> Decide(c, ts) == Reduce(RuleOf(c))
  {
    UnpackLookup(Top(c), NextSymbol(ts));
  }

  /** A shift consumes the next token and loses nothing of what is to be read. */
  lemma {:induction false} ShiftMove(c: Situation, s: int, ts: seq<Token>)
    requires Looking(c) && Choice(c, ts) == Shift(s)
    ensures
      if ts == [] then c == AtList && s == YYFINAL && Rest(c, ts) == Rest(Final, ts)
      else
        var next := AfterShift(c, s, ts[0]);
        && Proper(next) && Stack(next) == Stack(c) + [s]
        && Rest(next, ts[1..]) == Rest(c, ts) && Potential(next) <= Potential(c) + 3
  {
    if ts != [] { FirstShifted(ts); }
  }

  /** What follows the first token of a text, in the places of the text. */
  lemma {:induction false} FirstShifted(ts: seq<Token>)
    requires ts != []
    ensures var rest := ts[1..];
      && (At(rest, 0, EQUALS) <==> At(ts, 1, EQUALS)) && (StringAt(rest, 1) <==> StringAt(ts, 2))
      && (ValueAt(rest, 1) <==> ValueAt(ts, 2))
      && (|ts| > 2 ==> rest[2..] == ts[3..])
  {
  }

  lemma {:induction false} NameAhead(ts: seq<Token>)
    requires StringAt(ts, 0) && !Read(ts).accepted && !AfterName("", ts[1..]).accepted
    ensures Offence(ts).1 == 1 + AheadOfName(ts[1..])
  {
    FirstShifted(ts);
    OffenceStep(ts);
  }

  lemma {:induction false} ExtensionAhead(ts: seq<Token>)
    requires At(ts, 0, EXTENSION) && !Read(ts).accepted && !Rest(Extension, ts[1..]).accepted
    ensures Offence(ts).1 == 1 + Ahead(Extension, ts[1..])
  {
    FirstShifted(ts);
    OffenceStep(ts);
  }

  lemma {:induction false} FirstAhead(s: int, ts: seq<Token>)
    requires Choice(AtList, ts) == Shift(s) && ts != []
    requires !Read(ts).accepted && !Rest(AfterShift(AtList, s, ts[0]), ts[1..]).accepted
    ensures Offence(ts).1 == 1 + Ahead(AfterShift(AtList, s, ts[0]), ts[1..])
  {
    if StringAt(ts, 0) {
      NameAhead(ts);
    } else if At(ts, 0, EXTENSION) {
      ExtensionAhead(ts);
    } else {
      OffenceStep(ts);
    }
  }

  /** A shift brings the first offending token one closer. */
  lemma {:induction false} ShiftAhead(c: Situation, s: int, ts: seq<Token>)
    requires Looking(c) && Choice(c, ts) == Shift(s) && ts != []
    requires !Rest(c, ts).accepted && !Rest(AfterShift(c, s, ts[0]), ts[1..]).accepted
    ensures Ahead(c, ts) == 1 + Ahead(AfterShift(c, s, ts[0]), ts[1..])
  {
    if c.AtList? { FirstAhead(s, ts); } else { FirstShifted(ts); }
  }

  lemma {:induction false} FirstNameCounted(s: int, ts: seq<Token>)
    requires StringAt(ts, 0) && (s == 3 || s == 4)
    ensures Counted(AtList, ts, StringToken(s, ts[0].text), ts[1..])
  {
    FirstShifted(ts);
    if Read(ts).accepted {
      ReadStep(ts);
      if StepLength(ts) == 1 { ListHeightBounds(ts[1..]); }
    }
  }

  lemma {:induction false} FirstExtensionCounted(ts: seq<Token>)
    requires At(ts, 0, EXTENSION)
    ensures Counted(AtList, ts, Extension, ts[1..])
  {
    FirstShifted(ts);
    if Read(ts).accepted { ReadStep(ts); }
  }

  lemma {:induction false} FirstSingleCounted(ts: seq<Token>, c: Situation)
    requires (At(ts, 0, SECTION) && c.SectionToken?) || (At(ts, 0, NEWLINE) && c.NewlineToken?)
    ensures Counted(AtList, ts, c, ts[1..])
  {
    if Read(ts).accepted {
      ReadStep(ts);
      ListHeightBounds(ts[1..]);
    }
  }

  lemma {:induction false} FirstCounted(s: int, ts: seq<Token>)
    requires Choice(AtList, ts) == Shift(s) && ts != []
    ensures Counted(AtList, ts, AfterShift(AtList, s, ts[0]), ts[1..])
  {
    if StringAt(ts, 0) {
      FirstNameCounted(s, ts);
    } else if At(ts, 0, EXTENSION) {
      FirstExtensionCounted(ts);
    } else {
      FirstSingleCounted(ts, AfterShift(AtList, s, ts[0]));
    }
  }

  lemma {:induction false} EqualsCounted(key: string, ts: seq<Token>)
    requires At(ts, 0, EQUALS)
    ensures Counted(Name(key), ts, NameEquals(key), ts[1..])
    ensures Counted(Extension, ts, ExtensionEquals, ts[1..])
  {
    FirstShifted(ts);
  }

  lemma {:induction false} ValueCounted(key: string, s: int, ts: seq<Token>)
    requires ts != [] && Choice(NameEquals(key), ts) == Shift(s)
    ensures Counted(NameEquals(key), ts, ValueToken(s, key, ts[0].text), ts[1..])
  {
  }

  lemma {:induction false} ExtensionNameCounted(s: int, ts: seq<Token>)
    requires ts != [] && Choice(ExtensionEquals, ts) == Shift(s)
    ensures Counted(ExtensionEquals, ts, ExtensionToken(s, ts[0].text), ts[1..])
  {
  }

  /** Every shift of a token is counted. */
  lemma {:induction false} ShiftCounted(c: Situation, s: int, ts: seq<Token>)
    requires Looking(c) && Choice(c, ts) == Shift(s) && ts != []
    ensures Counted(c, ts, AfterShift(c, s, ts[0]), ts[1..])
  {
    match c
    case AtList => FirstCounted(s, ts);
    case Name(key) => EqualsCounted(key, ts);
    case NameEquals(key) => ValueCounted(key, s, ts);
    case Extension => EqualsCounted("", ts);
    case ExtensionEquals => ExtensionNameCounted(s, ts);
    case _ =>
  }

  /** So is every reduction. */
  lemma {:induction false} ReduceCounted(c: Situation, ts: seq<Token>)
    requires Proper(c) && Reduces(c) && (c.Name? ==> !At(ts, 0, EQUALS))
    ensures Counted(c, ts, AfterReduce(c), ts)
  {
    if Read(ts).accepted { ListHeightBounds(ts); }
  }

  /** A reduction leaves it where it is. */
  lemma {:induction false} ReduceAhead(c: Situation, ts: seq<Token>)
    requires Proper(c) && Reduces(c) && (c.Name? ==> !At(ts, 0, EQUALS))
    requires !Rest(c, ts).accepted && !Rest(AfterReduce(c), ts).accepted
    ensures Ahead(c, ts) == Ahead(AfterReduce(c), ts)
  {
  }

  /** An error is signalled at the offending token, where no complete statement can be read. */
  lemma {:induction false} ErrorMove(c: Situation, ts: seq<Token>)
    requires Looking(c) && Choice(c, ts) == Error
    ensures Rest(c, ts) == BAD && Ahead(c, ts) == 0
  {
    if c.AtList? { OffenceStep(ts); }
  }

  lemma {:induction false} ReduceRule(c: Situation, ts: seq<Token>)
    requires Proper(c) && !c.Final? && Decide(c, ts).Reduce?
    ensures Reduces(c) && Decide(c, ts) == Reduce(RuleOf(c))
    ensures c.Name? ==> !At(ts, 0, EQUALS)
  {
    Decided(c, ts);
  }

  /** The value shifted is the one relied on. */
  lemma {:induction false} ShiftValues(c: Situation, s: int, t: Token, vs: seq<string>)
    requires Looking(c) && |vs| > 5 && ValuesFit(c, vs)
    ensures ValuesFit(AfterShift(c, s, t), vs[|Stack(c)| := t.text])
  {
  }

  /** A reduction pops the right-hand side of its rule and goes where the tables say. */
  lemma {:induction false} ReduceStack(c: Situation)
    requires Proper(c) && Reduces(c)
    ensures var rule := RuleOf(c);
      var next := AfterReduce(c);
      && 2 <= rule <= 14
      && var below := |Stack(c)| - YYR2[rule];
      && 1 <= below && YYR1[rule] >= YYNTOKENS
      && Proper(next) && Stack(next) == Stack(c)[..below] + [Goto(rule, Stack(c)[below - 1])]
  {
  }

  /** A reduction emits at most one complete statement. */
  lemma {:induction false} ReduceMeaning(c: Situation, ts: seq<Token>)
    requires Proper(c) && Reduces(c) && (c.Name? ==> !At(ts, 0, EQUALS))
    ensures var next := AfterReduce(c);
      && Rest(c, ts).accepted == Rest(next, ts).accepted
      && Rest(c, ts).stmts == Emitted(c) + Rest(next, ts).stmts
      && Potential(next) < Potential(c)
  {
  }

  /** What the action of a rule does to the store; `name` and `value` are the texts of the first
      and the last symbol of the right-hand side. */
  function Acted(mode: Mode, rule: int, name: string, value: string, st: Store): Store {
    if rule == 4 then Apply(mode, st, Assign(name, value))
    else if rule == 6 then Apply(mode, st, Load(value))
    else if rule == 7 then Apply(mode, st, Header(value))
    else st
  }

  /** The action applies the emitted statement, and the value pushed is the one relied on. */
  lemma {:induction false} ReduceValues(mode: Mode, c: Situation, vs: seq<string>, st: Store, more: seq<Statement>)
    requires Proper(c) && Reduces(c) && |vs| > 5 && ValuesFit(c, vs)
    ensures var rule := RuleOf(c);
      && 2 <= rule <= 14
      && var top := |Stack(c)| - 1;
      var first := top + 1 - YYR2[rule];
      && 0 <= first <= top + 1
      && ApplyAll(mode, st, Emitted(c) + more) == ApplyAll(mode, Acted(mode, rule, vs[first], vs[top], st), more)
      && ValuesFit(AfterReduce(c), vs[first := if rule == 14 then "" else vs[first]])
  {
    if Emitted(c) != [] {
      assert (Emitted(c) + more)[1..] == more;
    } else {
      assert Emitted(c) + more == more;
    }
  }

  /** All of a reduction, for stack contents `stack` and values `vs`. */
  lemma {:induction false} ReduceMove(mode: Mode, c: Situation, ts: seq<Token>, vs: seq<string>, st: Store)
    requires Proper(c) && Reduces(c) && (c.Name? ==> !At(ts, 0, EQUALS)) && |vs| > 5 && ValuesFit(c, vs)
    ensures var rule := RuleOf(c);
      var next := AfterReduce(c);
      && 2 <= rule <= 14 && YYR1[rule] >= YYNTOKENS
      && var top := |Stack(c)| - 1;
      var first := top + 1 - YYR2[rule];
      && 1 <= first <= top + 1
      && Proper(next) && Stack(next) == Stack(c)[..first] + [Goto(rule, Stack(c)[first - 1])]
      && ValuesFit(next, vs[first := if rule == 14 then "" else vs[first]])
      && Rest(c, ts).accepted == Rest(next, ts).accepted
      && ApplyAll(mode, st, Rest(c, ts).stmts)
         == ApplyAll(mode, Acted(mode, rule, vs[first], vs[top], st), Rest(next, ts).stmts)
      && Potential(next) < Potential(c)
  {
    ReduceStack(c);
    ReduceMeaning(c, ts);
    ReduceValues(mode, c, vs, st, Rest(AfterReduce(c), ts).stmts);
  }

  // The driver

  const YYINITDEPTH: int := 200
  const YYEMPTY: int := -2

  method Act(mode: Mode, rule: int, name: string, value: string, st: Store) returns (store: Store)
    ensures store == Acted(mode, rule, name, value, st)
  {
    store := st;
    if rule == 4 {
      if mode == Configuration {
        store := store.(table := store.table[name := Text(value)]);
      } else if OpenSection(store) {
        var section := store.current.value;
        var settings := store.table[section].settings[ToLower(name) := value];
        store := store.(table := store.table[section := Block(settings)]);
      } else {
        store := store.(wild := true);
      }
    } else if rule == 6 {
      store := store.(loaded := store.loaded + [value]);
    } else if rule == 7 {
      if mode == Browscap {
        store := store.(table := store.table[value := Block(map[])], current := Some(value));
        var settings := store.table[value].settings["browser_name_pattern" := Convert(value)];
        store := store.(table := store.table[value := Block(settings)]);
      }
    }
  }

  /** Stack and values are those of the situation. */
  predicate Held(c: Situation, stack: seq<int>, vs: seq<string>)
    requires |vs| > 5
  {
    Proper(c) && stack == Stack(c) && ValuesFit(c, vs)
  }

  /** Every move so far was one of a run over `tokens` whose first `next` tokens are shifted. */
  predicate OnTheWay(mode: Mode, tokens: seq<Token>, initial: Store, c: Situation, next: nat, store: Store,
        moves: nat) {
    && next <= |tokens|
    && Read(tokens).accepted == Rest(c, tokens[next..]).accepted
    && ApplyAll(mode, initial, Read(tokens).stmts) == ApplyAll(mode, store, Rest(c, tokens[next..]).stmts)
    && moves <= 4 * next + 2 - Potential(c)
    && (c.Final? ==> next == |tokens|)
    && (Read(tokens).accepted ==> moves + MovesLeft(c, tokens[next..]) == 1 + ListMoves(tokens))
    && (!Read(tokens).accepted ==> Offence(tokens).1 == next + Ahead(c, tokens[next..]))
  }

  /** Parses a token sequence.  The result is 0 exactly when the grammar derives it; the store
      then and otherwise holds the updates of the complete statements read, in order; at most one
      error is reported; the stacks never hold more than five states, and an accepting run takes
      exactly the moves its statements need, at most 4n + 2.  A rejecting run stops before the first
      offending token. */
  method CfgParse(mode: Mode, tokens: seq<Token>, initial: Store)
    returns (result: int, store: Store, yynerrs: nat, consumed: nat, moves: nat, maxDepth: nat)
    ensures result == 0 || result == 1
    ensures result == 0 <==> Read(tokens).accepted
    ensures result == 0 <==> Derives(STATEMENT_LIST, Symbols(tokens))
    ensures result == 0 <==> ByCodes(Codes(tokens))
    ensures store == ApplyAll(mode, initial, Read(tokens).stmts)
    ensures yynerrs == result
    ensures consumed == if Read(tokens).accepted then |tokens| else Offence(tokens).1
    ensures Read(tokens).accepted ==> moves == 1 + ListMoves(tokens) && moves <= 4 * |tokens| + 2
    ensures Read(tokens).accepted ==> maxDepth == ListHeight(tokens)
    ensures maxDepth <= 5
  {
    result, store, yynerrs, consumed, moves, maxDepth := Run(mode, tokens, initial);
    ReadIsDerivation(tokens);
    AcceptedByCodes(tokens);
    if Read(tokens).accepted { ListMovesBound(tokens); }
  }

  /** The highest stack of the run is the highest so far or comes yet. */
  predicate Climbed(tokens: seq<Token>, c: Situation, next: nat, maxDepth: nat) {
    next <= |tokens| && Read(tokens).accepted && Rest(c, tokens[next..]).accepted ==>
      Max(maxDepth, HeightLeft(c, tokens[next..])) == ListHeight(tokens)
  }

  lemma {:induction false} ClimbsOn(tokens: seq<Token>, c: Situation, next: nat, d: Situation, after: nat,
        maxDepth: nat)
    requires next <= |tokens| && after <= |tokens| && Climbed(tokens, c, next, maxDepth)
    requires Read(tokens).accepted ==> Rest(c, tokens[next..]).accepted && Rest(d, tokens[after..]).accepted
    requires Counted(c, tokens[next..], d, tokens[after..])
    ensures Climbed(tokens, d, after, Max(maxDepth, |Stack(c)|))
  {
  }

  /** What holds before the first move. */
  lemma {:induction false} Begins(mode: Mode, tokens: seq<Token>, initial: Store)
    ensures OnTheWay(mode, tokens, initial, Start, 0, initial, 0) && Climbed(tokens, Start, 0, 0)
  {
    assert tokens[0..] == tokens;
    if Read(tokens).accepted { ListHeightBounds(tokens); }
  }

  /** The loop of the driver. */
  method Run(mode: Mode, tokens: seq<Token>, initial: Store)
    returns (result: int, store: Store, yynerrs: nat, consumed: nat, moves: nat, maxDepth: nat)
    ensures result == if Read(tokens).accepted then 0 else 1
    ensures store == ApplyAll(mode, initial, Read(tokens).stmts)
    ensures yynerrs == result
    ensures consumed == if Read(tokens).accepted then |tokens| else Offence(tokens).1
    ensures Read(tokens).accepted ==> moves == 1 + ListMoves(tokens) && maxDepth == ListHeight(tokens)
    ensures maxDepth <= 5
  {
    var yyssa := new int[YYINITDEPTH];
    var yyvsa := new string[YYINITDEPTH];
    var yyssp, yystate, yychar, yylval, yyerrstatus := 0, 0, YYEMPTY, "", 0;
    var next: nat := 0;               // the first token not shifted
    store, yynerrs, consumed, moves, maxDepth := initial, 0, 0, 0, 0;
    ghost var c := Start;
    Begins(mode, tokens, initial);
    while true
      invariant 0 <= yyssp < 5 && Held(c, yyssa[..yyssp] + [yystate], yyvsa[..])
      invariant OnTheWay(mode, tokens, initial, c, next, store, moves)
      invariant yychar == YYEMPTY || Lookahead(tokens, next, yychar, yylval)
      invariant yyerrstatus == 0 && yynerrs == 0 && maxDepth <= 5
      invariant Climbed(tokens, c, next, maxDepth)
      decreases 4 * (|tokens| - next) + Potential(c)
    {
      yyssa[yyssp] := yystate;
      assert yyssa[..yyssp + 1] == yyssa[..yyssp] + [yystate];
      ghost var depth := maxDepth;
      if yyssp + 1 > maxDepth { maxDepth := yyssp + 1; }
      if YYINITDEPTH - 1 <= yyssp {
        assert false;                 // the stacks never need to grow
      }
      Situated(c, yyssa[..yyssp + 1]);
      if yystate == YYFINAL {
        Accepted(mode, tokens, initial, c, next, store, moves, depth);
        return 0, store, yynerrs, next, moves, maxDepth;
      }
      var failed;
      failed, yyssp, yystate, yychar, yylval, store, next, c :=
        Step(mode, yyssa, yyvsa, yyssp, yychar, yylval, tokens, next, initial, store, moves, c, depth);
      if failed {
        Rejected(mode, tokens, initial, c, next, store, moves);
        if yyerrstatus == 0 { yynerrs := yynerrs + 1; }
        PopAll(yyssa, yyssp, c);
        return 1, store, yynerrs, next, moves, maxDepth;
      }
      moves := moves + 1;
    }
  }

  /** One move, or none if the tables have none. */
  method Step(mode: Mode, yyssa: array<int>, yyvsa: array<string>, depth: nat, code: int, text: string,
        tokens: seq<Token>, next: nat, ghost initial: Store, st: Store, ghost moves: nat, ghost c: Situation,
        ghost maxDepth: nat)
    returns (failed: bool, yyssp: nat, yystate: int, yychar: int, yylval: string, store: Store, next': nat,
             ghost c': Situation)
    requires depth < 5 && yyssa.Length == yyvsa.Length == YYINITDEPTH
    requires Held(c, yyssa[..depth + 1], yyvsa[..]) && !c.Final?
    requires OnTheWay(mode, tokens, initial, c, next, st, moves) && Climbed(tokens, c, next, maxDepth)
    requires code == YYEMPTY || Lookahead(tokens, next, code, text)
    modifies yyvsa
    ensures failed ==> yyssp == depth && store == st && next' == next && c' == c && Decide(c, tokens[next..]) == Error
    ensures !failed ==>
      && yyssp < 5 && Held(c', yyssa[..yyssp] + [yystate], yyvsa[..])
      && OnTheWay(mode, tokens, initial, c', next', store, moves + 1)
      && Climbed(tokens, c', next', Max(maxDepth, depth + 1))
      && (yychar == YYEMPTY || Lookahead(tokens, next', yychar, yylval))
      && 4 * (|tokens| - next') + Potential(c') < 4 * (|tokens| - next) + Potential(c)
  {
    Situated(c, yyssa[..depth + 1]);
    assert yyssa[..depth + 1][depth] == yyssa[depth];
    var action;
    action, yychar, yylval := Backup(yyssa[depth], code, text, tokens, next);
    failed, yyssp, yystate, store, next', c' := action == Error, depth, yyssa[depth], st, next, c;
    if !failed {
      yyssp, yystate, store, next', c' :=
        Move(mode, action, yyssa, yyvsa, depth, yylval, tokens, next, initial, st, moves, c);
      if action.Shift? { yychar := YYEMPTY; }
      ClimbsOn(tokens, c, next, c', next', maxDepth);
    }
  }

  /** What the final state says of the run before it. */
  lemma {:induction false} Accepted(mode: Mode, tokens: seq<Token>, initial: Store, c: Situation, next: nat, st: Store,
        moves: nat, maxDepth: nat)
    requires Climbed(tokens, c, next, maxDepth)
    requires c.Final? && OnTheWay(mode, tokens, initial, c, next, st, moves)
    ensures Read(tokens).accepted && next == |tokens| && st == ApplyAll(mode, initial, Read(tokens).stmts)
    ensures moves == 1 + ListMoves(tokens)
    ensures Max(maxDepth, 3) == ListHeight(tokens)
  {
  }

  /** What an error says of the run before it. */
  lemma {:induction false} Rejected(mode: Mode, tokens: seq<Token>, initial: Store, c: Situation, next: nat,
        st: Store, moves: nat)
    requires Proper(c) && !c.Final? && OnTheWay(mode, tokens, initial, c, next, st, moves)
    requires Decide(c, tokens[next..]) == Error
    ensures !Read(tokens).accepted && next == Offence(tokens).1 && st == ApplyAll(mode, initial, Read(tokens).stmts)
  {
    Decided(c, tokens[next..]);
    ErrorMove(c, tokens[next..]);
  }

  /** A shift or a reduction in a run on the way. */
  method Move(mode: Mode, action: Action, yyssa: array<int>, yyvsa: array<string>, depth: nat, yylval: string,
        tokens: seq<Token>, next: nat, ghost initial: Store, st: Store, ghost moves: nat, ghost c: Situation)
    returns (yyssp: nat, yystate: int, store: Store, next': nat, ghost c': Situation)
    requires depth < 5 && yyssa.Length == yyvsa.Length == YYINITDEPTH
    requires Held(c, yyssa[..depth + 1], yyvsa[..]) && !c.Final?
    requires OnTheWay(mode, tokens, initial, c, next, st, moves)
    requires Decide(c, tokens[next..]) == action && action != Error
    requires action.Shift? && next < |tokens| ==> yylval == tokens[next].text
    modifies yyvsa
    ensures yyssp < 5 && Held(c', yyssa[..yyssp] + [yystate], yyvsa[..])
    ensures OnTheWay(mode, tokens, initial, c', next', store, moves + 1)
    ensures Counted(c, tokens[next..], c', tokens[next'..])
    ensures action.Reduce? ==> next' == next
    ensures 4 * (|tokens| - next') + Potential(c') < 4 * (|tokens| - next) + Potential(c)
  {
    store, next' := st, next;
    match action
    case Shift(s) =>
      c', next' := ShiftTo(mode, s, yyssa, yyvsa, depth, yylval, tokens, next, initial, st, moves, c);
      yyssp, yystate := depth + 1, s;
    case Reduce(rule) =>
      yyssp, yystate, store, c' := ReduceBy(mode, rule, yyssa, yyvsa, depth, tokens, next, initial, st, moves, c);
  }

  /** A reduction keeps the run on the way. */
  lemma {:induction false} ReduceReached(mode: Mode, tokens: seq<Token>, initial: Store, c: Situation, next: nat,
        st: Store, moves: nat, stack: seq<int>, vs: seq<string>)
    requires |vs| > 5 && Held(c, stack, vs) && !c.Final?
    requires OnTheWay(mode, tokens, initial, c, next, st, moves) && Decide(c, tokens[next..]).Reduce?
    ensures var rule := Decide(c, tokens[next..]).rule;
      && 2 <= rule <= 14 && YYR1[rule] >= YYNTOKENS
      && var top := |stack| - 1;
      var first := top + 1 - YYR2[rule];
      && 1 <= first <= top + 1 <= 5
      && var value := if rule == 14 then "" else vs[first];
      && Held(AfterReduce(c), stack[..first] + [Goto(rule, stack[first - 1])], vs[first := value])
      && OnTheWay(mode, tokens, initial, AfterReduce(c), next, Acted(mode, rule, vs[first], vs[top], st), moves + 1)
      && Counted(c, tokens[next..], AfterReduce(c), tokens[next..])
      && Potential(AfterReduce(c)) < Potential(c)
  {
    ReduceRule(c, tokens[next..]);
    ReduceMove(mode, c, tokens[next..], vs, st);
    ReduceCounted(c, tokens[next..]);
    if !Read(tokens).accepted { ReduceAhead(c, tokens[next..]); }
  }

  /** What the stack says about the situation. */
  lemma {:induction false} Situated(c: Situation, stack: seq<int>)
    requires Proper(c) && stack == Stack(c)
    ensures Top(c) == stack[|stack| - 1] && IsState(Top(c))
    ensures Top(c) == YYFINAL <==> c.Final?
    ensures forall i :: 0 <= i < |stack| ==> IsState(stack[i])
  {
  }

  /** The label yybackup: the action, reading a token only if the state needs one. */
  method Backup(yystate: int, code: int, text: string, tokens: seq<Token>, next: nat)
    returns (action: Action, yychar: int, yylval: string)
    requires IsState(yystate) && next <= |tokens|
    requires code == YYEMPTY || Lookahead(tokens, next, code, text)
    ensures yychar == YYEMPTY || Lookahead(tokens, next, yychar, yylval)
    ensures IsDefault(yystate) ==> action == DefaultAction(yystate)
    ensures !IsDefault(yystate) ==> yychar != YYEMPTY && action == Lookup(yystate, NextSymbol(tokens[next..]))
  {
    yychar, yylval := code, text;
    if IsDefault(yystate) { return DefaultAction(yystate), yychar, yylval; }
    if yychar == YYEMPTY {
      if next < |tokens| { yychar, yylval := tokens[next].code, tokens[next].text; } else { yychar := 0; }
    }
    action := Lookup(yystate, Translate(yychar));
  }

  /** A shift: the token's value is pushed, and its state is about to be. */
  method ShiftTo(mode: Mode, s: int, yyssa: array<int>, yyvsa: array<string>, depth: nat, yylval: string,
        tokens: seq<Token>, next: nat, ghost initial: Store, ghost st: Store, ghost moves: nat, ghost c: Situation)
    returns (ghost c': Situation, next': nat)
    requires depth < 5 && yyssa.Length == yyvsa.Length == YYINITDEPTH
    requires Held(c, yyssa[..depth + 1], yyvsa[..]) && !c.Final?
    requires OnTheWay(mode, tokens, initial, c, next, st, moves)
    requires Decide(c, tokens[next..]) == Shift(s)
    requires next < |tokens| ==> yylval == tokens[next].text
    modifies yyvsa
    ensures Held(c', yyssa[..depth + 1] + [s], yyvsa[..]) && depth < 4
    ensures OnTheWay(mode, tokens, initial, c', next', st, moves + 1)
    ensures Counted(c, tokens[next..], c', tokens[next'..])
    ensures 4 * (|tokens| - next') + Potential(c') < 4 * (|tokens| - next) + Potential(c)
  {
    ghost var ts := tokens[next..];
    ghost var vs := yyvsa[..];
    Decided(c, ts);
    ShiftMove(c, s, ts);
    yyvsa[depth + 1] := yylval;
    assert yyvsa[..] == vs[depth + 1 := yylval];
    if next == |tokens| {
      c', next' := Final, next;
    } else {
      ShiftValues(c, s, ts[0], vs);
      c', next' := AfterShift(c, s, ts[0]), next + 1;
      assert tokens[next'..] == ts[1..];
      ShiftCounted(c, s, ts);
      if !Read(tokens).accepted { ShiftAhead(c, s, ts); }
    }
  }

  /** A reduction in a run on the way. */
  method ReduceBy(mode: Mode, rule: int, yyssa: array<int>, yyvsa: array<string>, depth: nat,
        ghost tokens: seq<Token>, ghost next: nat, ghost initial: Store, st: Store, ghost moves: nat,
        ghost c: Situation)
    returns (yyssp: nat, yystate: int, store: Store, ghost c': Situation)
    requires depth < 5 && yyssa.Length == yyvsa.Length == YYINITDEPTH
    requires Held(c, yyssa[..depth + 1], yyvsa[..]) && !c.Final?
    requires OnTheWay(mode, tokens, initial, c, next, st, moves)
    requires Decide(c, tokens[next..]) == Reduce(rule)
    modifies yyvsa
    ensures yyssp < 5 && Held(c', yyssa[..yyssp] + [yystate], yyvsa[..])
    ensures OnTheWay(mode, tokens, initial, c', next, store, moves + 1)
    ensures Counted(c, tokens[next..], c', tokens[next..])
    ensures Potential(c') < Potential(c)
  {
    ReduceReached(mode, tokens, initial, c, next, st, moves, yyssa[..depth + 1], yyvsa[..]);
    yyssp, yystate, store := PopAndPush(mode, rule, yyssa, yyvsa, depth, st);
    c' := AfterReduce(c);
  }

  /** The label yyreduce: the action, the pops, the push and the goto. */
  method PopAndPush(mode: Mode, rule: int, yyssa: array<int>, yyvsa: array<string>, depth: nat, st: Store)
    returns (yyssp: nat, yystate: int, store: Store)
    requires 2 <= rule <= 14 && YYR1[rule] >= YYNTOKENS && YYR2[rule] <= depth < 5
    requires yyssa.Length == yyvsa.Length == YYINITDEPTH
    modifies yyvsa
    ensures yyssp == depth + 1 - YYR2[rule] && yyssp >= 1
    ensures yyssa[..yyssp] == yyssa[..depth + 1][..yyssp]
    ensures yystate == Goto(rule, yyssa[..depth + 1][yyssp - 1])
    ensures yyvsa[..] == old(yyvsa[..])[yyssp := if rule == 14 then "" else old(yyvsa[..])[yyssp]]
    ensures store == Acted(mode, rule, old(yyvsa[..])[yyssp], old(yyvsa[..])[depth], st)
  {
    var yylen := YYR2[rule];
    yyssp := depth + 1 - yylen;
    var yyval := if rule == 14 then "" else yyvsa[yyssp];
    store := Act(mode, rule, yyvsa[yyssp], yyvsa[depth], st);
    yyvsa[yyssp] := yyval;
    yystate := Goto(rule, yyssa[yyssp - 1]);
  }

  /** Looking for a state that can shift the error token pops every state there is. */
  method PopAll(yyssa: array<int>, depth: nat, ghost c: Situation)
    requires depth < yyssa.Length && Proper(c) && yyssa[..depth + 1] == Stack(c)
  {
    TablesFitGrammar();
    Situated(c, yyssa[..depth + 1]);
    assert forall i :: 0 <= i <= depth ==> yyssa[i] == yyssa[..depth + 1][i];
    var yyssp, yystate := depth, yyssa[depth];
    while true
      invariant 0 <= yyssp <= depth && IsState(yystate)
      decreases yyssp
    {
      var n := YYPACT[yystate];
      if n != YYPACT_NINF {
        n := n + YYTERROR;
        if 0 <= n <= YYLAST && YYCHECK[n] == YYTERROR {
          assert false;               // no state handles the error token
        }
      }
      if yyssp == 0 { return; }
      yyssp := yyssp - 1;
      yystate := yyssa[yyssp];
    }
  }

  /** The token read ahead is the next one to shift, or the end of the input. */
  predicate Lookahead(tokens: seq<Token>, next: nat, yychar: int, yylval: string) {
    if next < |tokens| then yychar == tokens[next].code && yylval == tokens[next].text else yychar == 0
  }
}
