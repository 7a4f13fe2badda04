/** The language of the configuration grammar, by derivation trees. */
module ConfigGrammar {
  import opened ConfigTables
  import opened ConfigMeaning

  // No rule has more than three symbols on its right-hand side.
  datatype Tree =
    | Leaf(sym: int)
    | Node0(rule: int)
    | Node1(rule: int, a: Tree)
    | Node2(rule: int, a: Tree, b: Tree)
    | Node3(rule: int, a: Tree, b: Tree, c: Tree)

  function Root(t: Tree): int {
    if t.Leaf? then t.sym else if 1 <= t.rule <= 14 then YYR1[t.rule] else -1
  }

  /** Leaves are terminals, and every node applies a rule of the grammar. */
  predicate Valid(t: Tree) {
    match t
    case Leaf(sym) => 0 <= sym <= 10
    case Node0(rule) => 1 <= rule <= 14 && Rhs(rule) == []
    case Node1(rule, a) => 1 <= rule <= 14 && Rhs(rule) == [Root(a)] && Valid(a)
    case Node2(rule, a, b) => 1 <= rule <= 14 && Rhs(rule) == [Root(a), Root(b)] && Valid(a) && Valid(b)
    case Node3(rule, a, b, c) =>
      1 <= rule <= 14 && Rhs(rule) == [Root(a), Root(b), Root(c)] && Valid(a) && Valid(b) && Valid(c)
  }

  function Yield(t: Tree): seq<int> {
    match t
    case Leaf(sym) => [sym]
    case Node0(_) => []
    case Node1(_, a) => Yield(a)
    case Node2(_, a, b) => Yield(a) + Yield(b)
    case Node3(_, a, b, c) => Yield(a) + Yield(b) + Yield(c)
  }

  ghost predicate Derives(nt: int, syms: seq<int>) {
    exists t :: Valid(t) && Root(t) == nt && Yield(t) == syms
  }

  function Symbols(ts: seq<Token>): (r: seq<int>)
    ensures |r| == |ts| && forall i :: 0 <= i < |ts| ==> r[i] == Symbol(ts[i])
  {
    seq(|ts|, i requires 0 <= i < |ts| => Symbol(ts[i]))
  }

  /** The rule a node applies, from the symbols it derives. */
  lemma {:induction false} RuleOf(t: Tree)
    requires Valid(t) && !t.Leaf?
    ensures t.Node0? ==> t.rule == 3
    ensures t.Node2? ==> (t.rule == 1 || t.rule == 2)
    ensures t.Node3? ==> (t.rule == 4 || t.rule == 6)
    ensures t.Node1? ==> (t.rule == 5 || 7 <= t.rule <= 14)
  {
    var n := |Rhs(t.rule)|;
    assert n == if t.Node0? then 0 else if t.Node1? then 1 else if t.Node2? then 2 else 3;
  }

  // Soundness: what is read can be derived.

  function StringTree(sym: int): Tree { Node1(if sym == STRING then 9 else 10, Leaf(sym)) }

  function ValueTree(sym: int): Tree {
    if IsString(sym) then Node1(11, StringTree(sym))
    else Node1(if sym == TRUE then 12 else if sym == FALSE then 13 else 14, Leaf(sym))
  }

  /** The first statement read has a tree over its tokens. */
  lemma {:induction false} StatementDerived(ts: seq<Token>) returns (t: Tree, n: nat)
    requires ts != [] && Read(ts).accepted
    ensures 1 <= n <= |ts| && Read(ts[n..]).accepted
    ensures Valid(t) && Root(t) == STATEMENT && Yield(t) == Symbols(ts)[..n]
  {
    var syms := Symbols(ts);
    if StringAt(ts, 0) {
      if At(ts, 1, EQUALS) {
        t, n := Node3(4, StringTree(syms[0]), Leaf(EQUALS), ValueTree(syms[2])), 3;
      } else {
        t, n := Node1(5, StringTree(syms[0])), 1;
      }
    } else if At(ts, 0, EXTENSION) {
      t, n := Node3(6, Leaf(EXTENSION), Leaf(EQUALS), StringTree(syms[2])), 3;
    } else {
      t, n := Node1(if At(ts, 0, SECTION) then 7 else 8, Leaf(syms[0])), 1;
    }
  }

  lemma {:induction false} SplitSymbols(y: seq<int>, ts: seq<Token>, n: nat)
    requires n <= |ts|
    ensures y + Symbols(ts)[..n] + Symbols(ts[n..]) == y + Symbols(ts)
  {
    var s := Symbols(ts);
    assert Symbols(ts[n..]) == s[n..];
    assert s[..n] + s[n..] == s;
    assert y + s[..n] + s[n..] == y + (s[..n] + s[n..]);
  }

  /** Appending statements one by one to a derived list, as the left-recursive rule 2 does. */
  lemma {:induction false} ListDerived(list: Tree, ts: seq<Token>)
    requires Valid(list) && Root(list) == STATEMENT_LIST && Read(ts).accepted
    ensures Derives(STATEMENT_LIST, Yield(list) + Symbols(ts))
    decreases |ts|
  {
    if ts == [] {
      assert Yield(list) + Symbols(ts) == Yield(list);
    } else {
      var t, n := StatementDerived(ts);
      var longer := Node2(2, list, t);
      ListDerived(longer, ts[n..]);
      SplitSymbols(Yield(list), ts, n);
    }
  }

  // Completeness: what can be derived is read.

  lemma {:induction false} StringYield(t: Tree)
    requires Valid(t) && Root(t) == STRING_NT
    ensures |Yield(t)| == 1 && IsString(Yield(t)[0])
  {
    RuleOf(t);
    assert t.a.Leaf?;
  }

  lemma {:induction false} ValueYield(t: Tree)
    requires Valid(t) && Root(t) == STRING_OR_VALUE
    ensures |Yield(t)| == 1 && IsValue(Yield(t)[0])
  {
    RuleOf(t);
    if t.rule == 11 { StringYield(t.a); } else { assert t.a.Leaf?; }
  }

  /** The shapes a statement's yield can have. */
  lemma {:induction false} StatementYield(t: Tree)
    requires Valid(t) && Root(t) == STATEMENT
    ensures var y := Yield(t);
      || (|y| == 1 && (IsString(y[0]) || y[0] == SECTION || y[0] == NEWLINE))
      || (|y| == 3 && IsString(y[0]) && y[1] == EQUALS && IsValue(y[2]))
      || (|y| == 3 && y[0] == EXTENSION && y[1] == EQUALS && IsString(y[2]))
  {
    RuleOf(t);
    if t.rule == 4 {
      StringYield(t.a);
      ValueYield(t.c);
      assert t.b == Leaf(EQUALS);
    } else if t.rule == 6 {
      StringYield(t.c);
      assert t.a == Leaf(EXTENSION) && t.b == Leaf(EQUALS);
    } else if t.rule == 5 {
      StringYield(t.a);
    } else {
      assert t.a.Leaf?;
    }
  }

  lemma {:induction false} StatementRead(t: Tree, ts: seq<Token>)
    requires Valid(t) && Root(t) == STATEMENT
    requires Yield(t) <= Symbols(ts) && Read(ts[|Yield(t)|..]).accepted
    ensures Read(ts).accepted
  {
    StatementYield(t);
    var y := Yield(t);
    assert forall i :: 0 <= i < |y| ==> y[i] == Symbol(ts[i]);
    if |y| == 1 && |ts| > 1 { assert ts[1..][0] == ts[1]; }
  }

  lemma {:induction false} ListRead(t: Tree, ts: seq<Token>)
    requires Valid(t) && Root(t) == STATEMENT_LIST
    requires Yield(t) <= Symbols(ts) && Read(ts[|Yield(t)|..]).accepted
    ensures Read(ts).accepted
    decreases t
  {
    RuleOf(t);
    if t.rule == 2 {
      var n := |Yield(t.a)|;
      var rest := ts[n..];
      assert Symbols(rest) == Symbols(ts)[n..];
      assert rest[|Yield(t.b)|..] == ts[|Yield(t)|..];
      assert Yield(t.b) == Yield(t)[n..];
      StatementRead(t.b, rest);
      assert Yield(t.a) == Yield(t)[..n];
      ListRead(t.a, ts);
    } else {
      assert ts[0..] == ts;
    }
  }

  /** A token sequence is read to its end exactly when the grammar derives it from
      `statement_list`. */
  lemma {:induction false} ReadIsDerivation(ts: seq<Token>)
    ensures Read(ts).accepted <==> Derives(STATEMENT_LIST, Symbols(ts))
  {
    if Read(ts).accepted {
      var empty := Node0(3);
      ListDerived(empty, ts);
      assert Yield(empty) + Symbols(ts) == Symbols(ts);
    }
    if Derives(STATEMENT_LIST, Symbols(ts)) {
      var t :| Valid(t) && Root(t) == STATEMENT_LIST && Yield(t) == Symbols(ts);
      assert ts[|Yield(t)|..] == [];
      ListRead(t, ts);
    }
  }
}
