/** What a configuration file means: a left-to-right sequence of statements updating a store. */
module ConfigMeaning {
  import opened Options
  import opened ConfigTables
  import opened BrowscapPattern

  /** A token of the scanner: its code, positive as zero means end of input, and its text. */
  datatype Token_ = Token(code: int, text: string)

  type Token = t: Token_ | t.code > 0 witness Token(10, "")

  function Symbol(t: Token): (sym: int)
    ensures 1 <= sym <= 10
  {
    Translate(t.code)
  }

  datatype Statement =
    | Assign(key: string, value: string)
    | Bare(key: string)
    | Load(extension: string)
    | Header(section: string)
    | Blank

  datatype Mode = Configuration | Browscap

  datatype Entry = Text(text: string) | Block(settings: map<string, string>)

  datatype Store = Store(
    table: map<string, Entry>,
    current: Option<string>,    // key of the current section
    loaded: seq<string>,        // extensions loaded, in order
    wild: bool)                 // a setting was stored through a section pointer that is not set

  function ToLowerChar(c: char): char {
    if 'A' <= c <= 'Z' then (c as int + 32) as char else c
  }

  /** Capital letters become small ones, everything else stays. */
  function ToLower(s: string): (r: string)
    ensures |r| == |s|
    ensures forall i :: 0 <= i < |s| ==> if 'A' <= s[i] <= 'Z' then r[i] == (s[i] as int + 32) as char else r[i] == s[i]
  {
    if s == "" then "" else [ToLowerChar(s[0])] + ToLower(s[1..])
  }

  predicate OpenSection(st: Store) {
    st.current.Some? && st.current.value in st.table && st.table[st.current.value].Block?
  }

  function Apply(mode: Mode, st: Store, stmt: Statement): Store {
    match stmt
    case Assign(key, value) =>
      if mode == Configuration then st.(table := st.table[key := Text(value)])
      else if OpenSection(st) then
        var name := st.current.value;
        st.(table := st.table[name := Block(st.table[name].settings[ToLower(key) := value])])
      else st.(wild := true)
    case Bare(_) => st
    case Load(extension) => st.(loaded := st.loaded + [extension])
    case Header(name) =>
      if mode == Browscap then
        st.(table := st.table[name := Block(map["browser_name_pattern" := Convert(name)])],
            current := Some(name))
      else st
    case Blank => st
  }

  function ApplyAll(mode: Mode, st: Store, stmts: seq<Statement>): Store
    decreases |stmts|
  {
    if stmts == [] then st else ApplyAll(mode, Apply(mode, st, stmts[0]), stmts[1..])
  }

  // Reading a token sequence statement by statement.

  predicate At(ts: seq<Token>, i: nat, sym: int) { i < |ts| && Symbol(ts[i]) == sym }

  predicate StringAt(ts: seq<Token>, i: nat) { i < |ts| && IsString(Symbol(ts[i])) }

  predicate ValueAt(ts: seq<Token>, i: nat) { i < |ts| && IsValue(Symbol(ts[i])) }

  /** The semantic value of a value token; a line end is the empty string. */
  function ValueText(t: Token): string { if Symbol(t) == NEWLINE then "" else t.text }

  datatype Reading = Reading(accepted: bool, stmts: seq<Statement>)

  function Then(stmt: Statement, r: Reading): Reading { Reading(r.accepted, [stmt] + r.stmts) }

  const BAD := Reading(false, [])

  /** The complete statements before the first offending token, and whether there is none. */
  function Read(ts: seq<Token>): Reading
    decreases |ts|
  {
    if ts == [] then Reading(true, [])
    else if StringAt(ts, 0) then
      if !At(ts, 1, EQUALS) then Then(Bare(ts[0].text), Read(ts[1..]))
      else if ValueAt(ts, 2) then Then(Assign(ts[0].text, ValueText(ts[2])), Read(ts[3..]))
      else BAD
    else if At(ts, 0, EXTENSION) then
      if At(ts, 1, EQUALS) && StringAt(ts, 2) then Then(Load(ts[2].text), Read(ts[3..])) else BAD
    else if At(ts, 0, SECTION) then Then(Header(ts[0].text), Read(ts[1..]))
    else if At(ts, 0, NEWLINE) then Then(Blank, Read(ts[1..]))
    else BAD
  }
}
