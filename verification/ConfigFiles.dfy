/** Whole files, line by line: printing any lines and parsing them, and what the store holds then. */
module ConfigFiles {
  import opened Options
  import opened ConfigTables
  import opened ConfigMeaning
  import opened ConfigCodes
  import opened ConfigParser

  datatype Word = Word(quoted: bool, text: string)

  datatype Given = Text(word: Word) | Flag(on: bool, text: string) | Nothing

  datatype Line =
    | Set(key: Word, value: Given)     // key = value
    | Alone(key: Word)                 // key
    | Loading(extension: Word)         // extension = name
    | Heading(name: string)            // [name]
    | EmptyLine

  function PrintWord(w: Word): Token { Token(if w.quoted then 259 else 258, w.text) }

  function PrintGiven(v: Given): Token {
    match v
    case Text(w) => PrintWord(w)
    case Flag(on, text) => Token(if on then 261 else 262, text)
    case Nothing => Token(10, "\n")
  }

  function PrintLine(l: Line): seq<Token> {
    match l
    case Set(key, value) => [PrintWord(key), Token(61, "="), PrintGiven(value)]
    case Alone(key) => [PrintWord(key)]
    case Loading(extension) => [Token(263, "extension"), Token(61, "="), PrintWord(extension)]
    case Heading(name) => [Token(260, name)]
    case EmptyLine => [Token(10, "\n")]
  }

  function Print(lines: seq<Line>): seq<Token> {
    if lines == [] then [] else PrintLine(lines[0]) + Print(lines[1..])
  }

  /** What a value stands for: its text, and the empty string if there is none. */
  function GivenText(v: Given): string {
    match v
    case Text(w) => w.text
    case Flag(_, text) => text
    case Nothing => ""
  }

  function StatementOf(l: Line): Statement {
    match l
    case Set(key, value) => Assign(key.text, GivenText(value))
    case Alone(key) => Bare(key.text)
    case Loading(extension) => Load(extension.text)
    case Heading(name) => Header(name)
    case EmptyLine => Blank
  }

  function StatementsOf(lines: seq<Line>): seq<Statement> {
    if lines == [] then [] else [StatementOf(lines[0])] + StatementsOf(lines[1..])
  }

  lemma {:induction false} LineIsRead(l: Line, rest: seq<Token>)
    requires !At(rest, 0, EQUALS)
    ensures Read(PrintLine(l) + rest) == Then(StatementOf(l), Read(rest))
  {
    var ts := PrintLine(l) + rest;
    assert ts[|PrintLine(l)|..] == rest;
    if l.Alone? && rest != [] { assert ts[1] == rest[0]; }
  }

  lemma {:induction false} FileIsRead(lines: seq<Line>)
    ensures Read(Print(lines)) == Reading(true, StatementsOf(lines)) && !At(Print(lines), 0, EQUALS)
  {
    if lines != [] {
      FileIsRead(lines[1..]);
      LineIsRead(lines[0], Print(lines[1..]));
    }
  }

  // Configuration files

  /** The last value the lines give to a key. */
  function LastSet(lines: seq<Line>, key: string): Option<string> {
    if lines == [] then None
    else
      var last := lines[|lines| - 1];
      if last.Set? && last.key.text == key then Some(GivenText(last.value)) else LastSet(lines[..|lines| - 1], key)
  }

  function Loaded(lines: seq<Line>): seq<string> {
    if lines == [] then []
    else (if lines[0].Loading? then [lines[0].extension.text] else []) + Loaded(lines[1..])
  }

  /** Each key holds the last value given to it; headings mean nothing; extensions are loaded in the
      order of the file. */
  ghost predicate Configured(st: Store, lines: seq<Line>, after: Store) {
    && after.loaded == st.loaded + Loaded(lines) && after.current == st.current && after.wild == st.wild
    && forall key ::
         match LastSet(lines, key)
         case Some(value) => key in after.table && after.table[key] == Entry.Text(value)
         case None =>
          (key in after.table <==> key in st.table) && (key in st.table ==> after.table[key] == st.table[key])
  }

  /** The first line does what the last line of it alone would, unless a later one gives the key again. */
  lemma {:induction false} LastSetOfMore(lines: seq<Line>, key: string)
    requires lines != []
    ensures LastSet(lines, key) ==
      match LastSet(lines[1..], key)
      case Some(value) => Some(value)
      case None => if lines[0].Set? && lines[0].key.text == key then Some(GivenText(lines[0].value)) else None
    decreases |lines|
  {
    if |lines| > 1 {
      LastSetOfMore(lines[..|lines| - 1], key);
      assert lines[1..][..|lines| - 2] == lines[..|lines| - 1][1..];
      assert lines[1..][|lines| - 2] == lines[|lines| - 1];
    }
  }

  lemma {:induction false} ConfigurationMeans(st: Store, lines: seq<Line>)
    ensures Configured(st, lines, ApplyAll(Configuration, st, StatementsOf(lines)))
    decreases |lines|
  {
    if lines != [] {
      var st1 := Apply(Configuration, st, StatementOf(lines[0]));
      ConfigurationMeans(st1, lines[1..]);
      assert StatementsOf(lines)[1..] == StatementsOf(lines[1..]);
      forall key ensures LastSet(lines, key) ==
        (match LastSet(lines[1..], key)
         case Some(value) => Some(value)
         case None => if lines[0].Set? && lines[0].key.text == key then Some(GivenText(lines[0].value)) else None)
      {
        LastSetOfMore(lines, key);
      }
    }
  }

  // Browser files

  /** The last value that the lines up to the next heading give to a key, written in whatever case. */
  function LastHere(lines: seq<Line>, key: string): Option<string> {
    if lines == [] || lines[0].Heading? then None
    else
      match LastHere(lines[1..], key)
      case Some(value) => Some(value)
      case None => if lines[0].Set? && ToLower(lines[0].key.text) == key then Some(GivenText(lines[0].value)) else None
  }

  /** The lines behind the last heading of that name. */
  function Behind(lines: seq<Line>, name: string): Option<seq<Line>> {
    if lines == [] then None
    else
      match Behind(lines[1..], name)
      case Some(rest) => Some(rest)
      case None => if lines[0].Heading? && lines[0].name == name then Some(lines[1..]) else None
  }

  /** The settings `before`, changed by the lines up to the next heading. */
  ghost predicate SettingsAre(settings: map<string, string>, before: map<string, string>, lines: seq<Line>) {
    forall key ::
      match LastHere(lines, key)
      case Some(value) => key in settings && settings[key] == value
      case None => (key in settings <==> key in before) && (key in before ==> settings[key] == before[key])
  }

  /** A section named in the file is a block.  Its pattern is the name, translated, unless a setting
      replaces it; every other key, in lower case, has the last value given to it behind the last
      heading of that name.  A section that is open before the file gets the settings in front of the
      first heading; every other entry stays. */
  ghost predicate NameIs(st: Store, lines: seq<Line>, after: Store, name: string) {
    match Behind(lines, name)
    case Some(rest) =>
      && name in after.table && after.table[name].Block?
      && SettingsAre(after.table[name].settings, map["browser_name_pattern" := BrowscapPattern.Convert(name)], rest)
    case None =>
      if st.current == Some(name) then
        && name in after.table && name in st.table && after.table[name].Block? && st.table[name].Block?
        && SettingsAre(after.table[name].settings, st.table[name].settings, lines)
      else (name in after.table <==> name in st.table) && (name in st.table ==> after.table[name] == st.table[name])
  }

  /** The whole store after a browser file. */
  ghost predicate Browsed(st: Store, lines: seq<Line>, after: Store) {
    && after.loaded == st.loaded + Loaded(lines) && !after.wild
    && forall name :: NameIs(st, lines, after, name)
  }

  /** No setting comes before the first heading. */
  predicate Headed(lines: seq<Line>) {
    lines != [] ==> lines[0].Heading? || (!lines[0].Set? && Headed(lines[1..]))
  }

  lemma {:induction false} SettingsNext(settings: map<string, string>, before: map<string, string>, lines: seq<Line>)
    requires lines != [] && !lines[0].Heading?
    requires SettingsAre(settings, if lines[0].Set? then before[ToLower(lines[0].key.text) := GivenText(lines[0].value)]
                                   else before, lines[1..])
    ensures SettingsAre(settings, before, lines)
  {
  }

  lemma {:induction false} BrowsersMean(st: Store, lines: seq<Line>)
    requires !st.wild && (OpenSection(st) || (st.current.None? && Headed(lines)))
    ensures Browsed(st, lines, ApplyAll(Browscap, st, StatementsOf(lines)))
    decreases |lines|
  {
    var after := ApplyAll(Browscap, st, StatementsOf(lines));
    if lines != [] {
      var st1 := Apply(Browscap, st, StatementOf(lines[0]));
      BrowsersMean(st1, lines[1..]);
      assert StatementsOf(lines)[1..] == StatementsOf(lines[1..]);
      assert Browsed(st1, lines[1..], after);
      forall name ensures NameIs(st, lines, after, name) { BrowserNext(st, st1, lines, after, name); }
    }
  }

  lemma {:induction false} BrowserNext(st: Store, st1: Store, lines: seq<Line>, after: Store, name: string)
    requires lines != [] && !st.wild && (OpenSection(st) || (st.current.None? && !lines[0].Set?))
    requires st1 == Apply(Browscap, st, StatementOf(lines[0])) && NameIs(st1, lines[1..], after, name)
    ensures NameIs(st, lines, after, name)
  {
    if Behind(lines[1..], name).None? && st1.current == Some(name) && !lines[0].Heading? {
      SettingsNext(after.table[name].settings, st.table[name].settings, lines);
    }
  }

  // By the parser

  method ParseConfiguration(lines: seq<Line>, initial: Store) returns (result: int, store: Store)
    ensures result == 0 && Configured(initial, lines, store)
  {
    var errors, consumed, moves, depth;
    result, store, errors, consumed, moves, depth := CfgParse(Configuration, Print(lines), initial);
    FileIsRead(lines);
    ConfigurationMeans(initial, lines);
  }

  method ParseBrowsers(lines: seq<Line>, initial: Store) returns (result: int, store: Store)
    requires !initial.wild && (OpenSection(initial) || (initial.current.None? && Headed(lines)))
    ensures result == 0 && Browsed(initial, lines, store)
  {
    var errors, consumed, moves, depth;
    result, store, errors, consumed, moves, depth := CfgParse(Browscap, Print(lines), initial);
    FileIsRead(lines);
    BrowsersMean(initial, lines);
  }

  /** Every accepted token sequence says what some lines say, token code by token code. */
  lemma {:induction false} EveryFileHasLines(ts: seq<Token>) returns (lines: seq<Line>)
    requires Read(ts).accepted
    ensures StatementsOf(lines) == Read(ts).stmts && Codes(Print(lines)) == Codes(ts)
    decreases |ts|
  {
    if ts == [] {
      lines := [];
    } else {
      var line, k := FirstLine(ts);
      var rest := EveryFileHasLines(ts[k..]);
      lines := [line] + rest;
      assert lines[1..] == rest;
      var first := PrintLine(line);
      assert Print(lines) == first + Print(rest);
      assert Codes(ts) == Codes(ts[..k]) + Codes(ts[k..]);
      assert Codes(Print(lines)) == Codes(first) + Codes(Print(rest));
    }
  }

  lemma {:induction false} FirstLine(ts: seq<Token>) returns (line: Line, k: nat)
    requires ts != [] && Read(ts).accepted
    ensures 0 < k <= |ts| && Read(ts[k..]).accepted
    ensures Read(ts).stmts == [StatementOf(line)] + Read(ts[k..]).stmts
    ensures Codes(PrintLine(line)) == Codes(ts[..k])
  {
    if ts[0].code == 10 {
      line, k := EmptyLine, 1;
    } else if ts[0].code == 260 {
      line, k := Heading(ts[0].text), 1;
    } else if ts[0].code == 263 {
      line, k := Loading(Word(ts[2].code == 259, ts[2].text)), 3;
    } else if |ts| > 1 && ts[1].code == 61 {
      var value := if ts[2].code == 10 then Nothing
                   else if ts[2].code == 261 || ts[2].code == 262 then Flag(ts[2].code == 261, ts[2].text)
                   else Given.Text(Word(ts[2].code == 259, ts[2].text));
      line, k := Set(Word(ts[0].code == 259, ts[0].text), value), 3;
    } else {
      line, k := Alone(Word(ts[0].code == 259, ts[0].text)), 1;
    }
  }
}
