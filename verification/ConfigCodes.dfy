/** The language of configuration files in terms of the codes the scanner returns. */
module ConfigCodes {
  import opened ConfigTables
  import opened ConfigMeaning
  import opened ConfigGrammar

  /** The translation vector, ten entries a row. */
  const YYTRANSLATE: seq<seq<int>> := [
    [0, 2, 2, 2, 2, 2, 2, 2, 2, 2],
    [10, 2, 2, 2, 2, 2, 2, 2, 2, 2],
    [2, 2, 2, 2, 2, 2, 2, 2, 2, 2],
    [2, 2, 2, 2, 2, 2, 2, 2, 2, 2],
    [2, 2, 2, 2, 2, 2, 2, 2, 2, 2],
    [2, 2, 2, 2, 2, 2, 2, 2, 2, 2],
    [2, 9, 2, 2, 2, 2, 2, 2, 2, 2],
    [2, 2, 2, 2, 2, 2, 2, 2, 2, 2],
    [2, 2, 2, 2, 2, 2, 2, 2, 2, 2],
    [2, 2, 2, 2, 2, 2, 2, 2, 2, 2],
    [2, 2, 2, 2, 2, 2, 2, 2, 2, 2],
    [2, 2, 2, 2, 2, 2, 2, 2, 2, 2],
    [2, 2, 2, 2, 2, 2, 2, 2, 2, 2],
    [2, 2, 2, 2, 2, 2, 2, 2, 2, 2],
    [2, 2, 2, 2, 2, 2, 2, 2, 2, 2],
    [2, 2, 2, 2, 2, 2, 2, 2, 2, 2],
    [2, 2, 2, 2, 2, 2, 2, 2, 2, 2],
    [2, 2, 2, 2, 2, 2, 2, 2, 2, 2],
    [2, 2, 2, 2, 2, 2, 2, 2, 2, 2],
    [2, 2, 2, 2, 2, 2, 2, 2, 2, 2],
    [2, 2, 2, 2, 2, 2, 2, 2, 2, 2],
    [2, 2, 2, 2, 2, 2, 2, 2, 2, 2],
    [2, 2, 2, 2, 2, 2, 2, 2, 2, 2],
    [2, 2, 2, 2, 2, 2, 2, 2, 2, 2],
    [2, 2, 2, 2, 2, 2, 2, 2, 2, 2],
    [2, 2, 2, 2, 2, 2, 1, 2, 3, 4],
    [5, 6, 7, 8]
  ]

  /** The symbol of every code is the entry of the translation vector, and 2 beyond it. */
  lemma {:induction false} TranslateIsTable(code: int)
    ensures |YYTRANSLATE| == 27 && (forall row :: 0 <= row < 27 ==> |YYTRANSLATE[row]| == if row < 26 then 10 else 4)
    ensures Translate(code) == if 0 <= code <= 263 then YYTRANSLATE[code / 10][code % 10] else 2
  {
    if 0 <= code <= 263 {
      var row, column := code / 10, code % 10;
      assert code == 10 * row + column;
      RowIsTable(row, column);
    }
  }

  lemma {:induction false} RowIsTable(row: nat, column: nat)
    requires row <= 26 && column <= (if row < 26 then 9 else 3)
    ensures Translate(10 * row + column) == YYTRANSLATE[row][column]
  {
    if row == 0 || row == 1 || row == 6 {
      assert YYTRANSLATE[row][column] == Translate(10 * row + column);
    } else if row < 25 {
      assert YYTRANSLATE[row] == [2, 2, 2, 2, 2, 2, 2, 2, 2, 2];
    }
  }

  function Codes(ts: seq<Token>): (r: seq<int>)
    ensures |r| == |ts| && forall i :: 0 <= i < |ts| ==> r[i] == ts[i].code
  {
    seq(|ts|, i requires 0 <= i < |ts| => ts[i].code)
  }

  /** Statement by statement: a line end (10) or a section (260) alone; `extension` (263), an equals
      sign (61) and a string (258 or 259); a string, an equals sign and a string, true (261), false
      (262) or a line end; or a string that no equals sign follows. */
  predicate ByCodes(codes: seq<int>) {
    if codes == [] then true
    else if codes[0] == 10 || codes[0] == 260 then ByCodes(codes[1..])
    else if codes[0] == 263 then
      |codes| > 2 && codes[1] == 61 && (codes[2] == 258 || codes[2] == 259) && ByCodes(codes[3..])
    else if codes[0] == 258 || codes[0] == 259 then
      if |codes| > 1 && codes[1] == 61 then
        && |codes| > 2 && (codes[2] == 258 || codes[2] == 259 || codes[2] == 261 || codes[2] == 262 || codes[2] == 10)
        && ByCodes(codes[3..])
      else ByCodes(codes[1..])
    else false
  }

  lemma {:induction false} CodesBehind(ts: seq<Token>, k: nat)
    requires k <= |ts|
    ensures Codes(ts)[k..] == Codes(ts[k..])
  {
  }

  /** Exactly these sequences derive from the grammar. */
  lemma {:induction false} AcceptedByCodes(ts: seq<Token>)
    ensures Derives(STATEMENT_LIST, Symbols(ts)) <==> ByCodes(Codes(ts))
  {
    ReadIsDerivation(ts);
    ReadByCodes(ts);
  }

  lemma {:induction false} ReadByCodes(ts: seq<Token>)
    ensures Read(ts).accepted <==> ByCodes(Codes(ts))
    decreases |ts|
  {
    if ts != [] {
      CodesBehind(ts, 1);
      ReadByCodes(ts[1..]);
      if |ts| > 2 {
        CodesBehind(ts, 3);
        ReadByCodes(ts[3..]);
      }
    }
  }
}
