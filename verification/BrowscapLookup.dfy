/** Looking a browser up in what a browser file has left in the store. */
module BrowscapLookup {
  import opened Options
  import opened ConfigMeaning
  import opened ConfigFiles
  import opened BrowscapPattern

  /** Every entry is a section with a pattern. */
  predicate Sections(table: map<string, Entry>) {
    forall name <- table :: table[name].Block? && "browser_name_pattern" in table[name].settings
  }

  /** browser_reg_compare: only stored patterns with a `*` are compiled. */
  predicate Compare(table: map<string, Entry>, name: string, agent: string)
    requires Sections(table) && name in table
  {
    var pattern := table[name].settings["browser_name_pattern"];
    '*' in pattern && Search(pattern, agent)
  }

  /** get_browser, with the sections in the order of the hash table: the section of that name; or the
      first whose stored pattern matches; or the default. */
  method GetBrowser(table: map<string, Entry>, order: seq<string>, agent: string) returns (found: Option<string>)
    requires Sections(table) && forall name :: name in order <==> name in table
    ensures agent in table ==> found == Some(agent)
    ensures agent !in table ==>
      match found
      case Some(name) =>
        || (exists k :: 0 <= k < |order| && order[k] == name && Compare(table, name, agent)
                        && forall i :: 0 <= i < k ==> !Compare(table, order[i], agent))
        || (name == "Default Browser" && name in table && forall other <- table :: !Compare(table, other, agent))
      case None => "Default Browser" !in table && forall other <- table :: !Compare(table, other, agent)
  {
    if agent in table { return Some(agent); }
    found := None;
    var i := 0;
    while i < |order|
      invariant 0 <= i <= |order|
      invariant found.None? ==> forall k :: 0 <= k < i ==> !Compare(table, order[k], agent)
      invariant found.Some? ==>
        exists k :: 0 <= k < i && order[k] == found.value && Compare(table, found.value, agent)
                    && forall j :: 0 <= j < k ==> !Compare(table, order[j], agent)
    {
      if found.None? && Compare(table, order[i], agent) {
        found := Some(order[i]);
      }
      i := i + 1;
    }
    if found.None? {
      forall other | other in table ensures !Compare(table, other, agent) {
        assert other in order;
      }
      if "Default Browser" in table { found := Some("Default Browser"); }
    }
  }

  /** No setting replaces the pattern of its section. */
  predicate KeepsPatterns(lines: seq<Line>) {
    forall i :: 0 <= i < |lines| && lines[i].Set? ==> ToLower(lines[i].key.text) != "browser_name_pattern"
  }

  lemma {:induction false} PatternNotSet(lines: seq<Line>)
    requires KeepsPatterns(lines)
    ensures LastHere(lines, "browser_name_pattern").None?
  {
    if lines != [] && !lines[0].Heading? {
      assert forall i :: 0 <= i < |lines| - 1 ==> lines[1..][i] == lines[i + 1];
      PatternNotSet(lines[1..]);
    }
  }

  lemma {:induction false} BehindKeeps(lines: seq<Line>, name: string)
    requires KeepsPatterns(lines) && Behind(lines, name).Some?
    ensures KeepsPatterns(Behind(lines, name).value)
  {
    if lines != [] {
      assert forall i :: 0 <= i < |lines| - 1 ==> lines[1..][i] == lines[i + 1];
      if Behind(lines[1..], name).Some? { BehindKeeps(lines[1..], name); }
    }
  }

  /** In what a browser file leaves in an empty store, a lookup finds a section by its name exactly as
      the translation of that name says. */
  lemma {:induction false} StoredPatterns(st: Store, lines: seq<Line>, after: Store, agent: string)
    requires st.table == map[] && st.current.None? && Browsed(st, lines, after) && KeepsPatterns(lines)
    ensures Sections(after.table)
    ensures forall name <- after.table ::
      Behind(lines, name).Some? && (name == agent || Compare(after.table, name, agent) <==> Answers(name, agent))
  {
    forall name | name in after.table
      ensures Behind(lines, name).Some? && after.table[name].Block?
        && "browser_name_pattern" in after.table[name].settings
        && after.table[name].settings["browser_name_pattern"] == Convert(name)
    {
      assert NameIs(st, lines, after, name);
      BehindKeeps(lines, name);
      PatternNotSet(Behind(lines, name).value);
    }
  }

  /** From the lines of a browser file to the section that answers. */
  method LookUp(lines: seq<Line>, order: seq<string>, agent: string) returns (found: Option<string>)
    requires Headed(lines) && KeepsPatterns(lines)
    requires forall name :: name in order <==> Behind(lines, name).Some?
    ensures agent in order ==> found == Some(agent)
    ensures agent !in order ==>
      match found
      case Some(name) =>
        || (exists k :: 0 <= k < |order| && order[k] == name && Answers(name, agent)
                        && forall i :: 0 <= i < k ==> !Answers(order[i], agent))
        || (name == "Default Browser" && name in order && forall other <- order :: !Answers(other, agent))
      case None => "Default Browser" !in order && forall other <- order :: !Answers(other, agent)
  {
    var st := Store(map[], None, [], false);
    var result, store := ParseBrowsers(lines, st);
    StoredPatterns(st, lines, store, agent);
    forall name ensures name in order <==> name in store.table { assert NameIs(st, lines, store, name); }
    found := GetBrowser(store.table, order, agent);
  }
}
