/** Settings before any section. */
module ConfigSections {
  import opened ConfigMeaning

  /** A setting before any section header. */
  predicate Orphaned(stmts: seq<Statement>) {
    stmts != [] && !stmts[0].Header? && (stmts[0].Assign? || Orphaned(stmts[1..]))
  }

  /** Browser files: a setting goes through an unset section pointer exactly when it comes before
      any section header.  Configuration files never use the pointer. */
  lemma {:induction false} WildExactlyWhenOrphaned(st: Store, stmts: seq<Statement>)
    requires !st.wild && (st.current.None? || OpenSection(st))
    ensures ApplyAll(Browscap, st, stmts).wild <==> st.current.None? && Orphaned(stmts)
    ensures !ApplyAll(Configuration, st, stmts).wild
    decreases |stmts|
  {
    if stmts != [] {
      var st1 := Apply(Browscap, st, stmts[0]);
      if st1.wild { WildStays(st1, stmts[1..]); } else { WildExactlyWhenOrphaned(st1, stmts[1..]); }
      ConfigurationNeverWild(st, stmts);
    }
  }

  lemma {:induction false} WildStays(st: Store, stmts: seq<Statement>)
    requires st.wild
    ensures ApplyAll(Browscap, st, stmts).wild
    decreases |stmts|
  {
    if stmts != [] { WildStays(Apply(Browscap, st, stmts[0]), stmts[1..]); }
  }

  lemma {:induction false} ConfigurationNeverWild(st: Store, stmts: seq<Statement>)
    requires !st.wild
    ensures !ApplyAll(Configuration, st, stmts).wild
    decreases |stmts|
  {
    if stmts != [] { ConfigurationNeverWild(Apply(Configuration, st, stmts[0]), stmts[1..]); }
  }
}
