/** Where a rejected token sequence goes wrong. */
module ConfigErrors {
  import opened ConfigTables
  import opened ConfigMeaning

  /** The number of tokens of the statement at the front; 0 if there is no complete one. */
  function StepLength(ts: seq<Token>): (k: nat)
    ensures k <= |ts| && (k == 0 || k == 1 || k == 3)
  {
    if StringAt(ts, 0) then if !At(ts, 1, EQUALS) then 1 else if ValueAt(ts, 2) then 3 else 0
    else if At(ts, 0, EXTENSION) then if At(ts, 1, EQUALS) && StringAt(ts, 2) then 3 else 0
    else if At(ts, 0, SECTION) || At(ts, 0, NEWLINE) then 1
    else 0
  }

  function Step(ts: seq<Token>): Statement
    requires StepLength(ts) > 0
  {
    if StringAt(ts, 0) then
      if StepLength(ts) == 1 then Bare(ts[0].text) else Assign(ts[0].text, ValueText(ts[2]))
    else if At(ts, 0, EXTENSION) then Load(ts[2].text)
    else if At(ts, 0, SECTION) then Header(ts[0].text)
    else Blank
  }

  lemma {:induction false} ReadStep(ts: seq<Token>)
    ensures StepLength(ts) > 0 ==> Read(ts) == Then(Step(ts), Read(ts[StepLength(ts)..]))
    ensures StepLength(ts) == 0 && ts != [] ==> Read(ts) == BAD
  {
  }

  /** Where a rejected sequence goes wrong: after `n` tokens of complete statements, at token `e`;
      `e == |ts|` means that the input ends too early. */
  function Offence(ts: seq<Token>): (nat, nat)
    requires !Read(ts).accepted
    decreases |ts|
  {
    ReadStep(ts);
    var k := StepLength(ts);
    if k > 0 then
      var (n, e) := Offence(ts[k..]);
      (n + k, e + k)
    else (0, if !StringAt(ts, 0) && !At(ts, 0, EXTENSION) then 0 else if !At(ts, 1, EQUALS) then 1 else 2)
  }

  /** The offending token of a text, from that of its rest. */
  lemma {:induction false} OffenceStep(ts: seq<Token>)
    requires !Read(ts).accepted
    ensures var k := StepLength(ts);
      if k > 0 then !Read(ts[k..]).accepted && Offence(ts).1 == k + Offence(ts[k..]).1
      else
        Offence(ts).1
        == (if !StringAt(ts, 0) && !At(ts, 0, EXTENSION) then 0 else if !At(ts, 1, EQUALS) then 1 else 2)
  {
    ReadStep(ts);
  }

  /** A complete statement is read whatever follows it, unless it is a string and what follows an
      equals sign. */
  lemma {:induction false} StepThen(ts: seq<Token>, rest: seq<Token>)
    requires StepLength(ts) > 0
    requires StepLength(ts) == 3 || !StringAt(ts, 0) || !At(rest, 0, EQUALS)
    ensures Read(ts[..StepLength(ts)] + rest) == Then(Step(ts), Read(rest))
  {
    var k := StepLength(ts);
    var us := ts[..k] + rest;
    assert us[k..] == rest;
    assert forall i :: 0 <= i < k ==> us[i] == ts[i];
    if k == 1 && rest != [] { assert us[1] == rest[0]; }
    assert StepLength(us) == k && Step(us) == Step(ts);
    ReadStep(us);
  }

  lemma {:induction false} AcceptedStart(ts: seq<Token>)
    requires Read(ts).accepted
    ensures !At(ts, 0, EQUALS)
  {
  }

  /** The statements in effect after an error are those of the `n` tokens before it. */
  lemma {:induction false} ErrorKeepsCompleteStatements(ts: seq<Token>)
    requires !Read(ts).accepted
    ensures var (n, e) := Offence(ts);
      && n <= e <= |ts| && e <= n + 2
      && Read(ts[..n]) == Reading(true, Read(ts).stmts)
    decreases |ts|
  {
    ReadStep(ts);
    var k := StepLength(ts);
    if k > 0 {
      ErrorKeepsCompleteStatements(ts[k..]);
      var rest := ts[k..][..Offence(ts).0 - k];
      AcceptedStart(rest);
      StepThen(ts, rest);
      assert ts[..Offence(ts).0] == ts[..k] + rest;
    }
  }

  /** A first statement that goes wrong at token `e` goes wrong in every text with the same tokens
      up to there. */
  lemma {:induction false} OffenceStays(ts: seq<Token>, us: seq<Token>)
    requires !Read(ts).accepted && StepLength(ts) == 0
    requires var e := Offence(ts).1; e < |ts| && e < |us| && forall i :: 0 <= i <= e ==> us[i] == ts[i]
    ensures !Read(us).accepted
  {
    ReadStep(ts);
    assert StepLength(us) == 0;
    ReadStep(us);
  }

  /** The beginning of a first statement that goes wrong can be completed. */
  lemma {:induction false} BeginningIsViable(ts: seq<Token>) returns (more: seq<Token>)
    requires !Read(ts).accepted && StepLength(ts) == 0
    ensures Offence(ts).1 <= |ts| && Read(ts[..Offence(ts).1] + more).accepted
  {
    ReadStep(ts);
    var e := Offence(ts).1;
    var equals, text := Token(61, "="), Token(258, "");
    more := if e == 0 then [] else if e == 1 then [equals, text] else [text];
    var us := ts[..e] + more;
    if e > 0 {
      assert us[0] == ts[0] && Symbol(us[1]) == EQUALS && IsString(Symbol(us[2])) && us[3..] == [];
      ReadStep(us);
    }
  }

  /** A step before a text that goes wrong. */
  lemma {:induction false} OffenceBehindStep(ts: seq<Token>, e: nat, more: seq<Token>)
    requires var k := StepLength(ts); 0 < k <= e < |ts| && !Read(ts[k..e + 1] + more).accepted
    ensures !Read(ts[..e + 1] + more).accepted
  {
    var k := StepLength(ts);
    var rest := ts[k..e + 1] + more;
    assert ts[..e + 1] + more == ts[..k] + rest;
    assert rest[0] == ts[k];
    StepThen(ts, rest);
  }

  /** The offending token cannot follow what was read before it, whatever comes after. */
  lemma {:induction false} NothingRepairsTheOffence(ts: seq<Token>, more: seq<Token>)
    requires !Read(ts).accepted && Offence(ts).1 < |ts|
    ensures !Read(ts[..Offence(ts).1 + 1] + more).accepted
    decreases |ts|
  {
    ReadStep(ts);
    var e := Offence(ts).1;
    var k := StepLength(ts);
    if k > 0 {
      NothingRepairsTheOffence(ts[k..], more);
      assert ts[k..][..e - k + 1] == ts[k..e + 1];
      OffenceBehindStep(ts, e, more);
    } else {
      var us := ts[..e + 1] + more;
      assert forall i :: 0 <= i <= e ==> us[i] == ts[i];
      OffenceStays(ts, us);
    }
  }

  lemma {:induction false} OffenceBounds(ts: seq<Token>)
    requires !Read(ts).accepted
    ensures Offence(ts).0 <= Offence(ts).1 <= |ts|
  {
    ErrorKeepsCompleteStatements(ts);
  }

  /** What was read before the offending token can be completed to a whole file. */
  lemma {:induction false} PrefixIsViable(ts: seq<Token>) returns (more: seq<Token>)
    requires !Read(ts).accepted
    ensures Offence(ts).1 <= |ts| && Read(ts[..Offence(ts).1] + more).accepted
    decreases |ts|
  {
    ReadStep(ts);
    OffenceBounds(ts);
    var e := Offence(ts).1;
    var k := StepLength(ts);
    if k > 0 {
      more := PrefixIsViable(ts[k..]);
      OffenceBounds(ts[k..]);
      var rest := ts[k..][..e - k] + more;
      AcceptedStart(rest);
      StepThen(ts, rest);
      assert ts[..e] + more == ts[..k] + rest;
    } else {
      more := BeginningIsViable(ts);
    }
  }
}
