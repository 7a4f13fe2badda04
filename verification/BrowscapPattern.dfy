/** Browser patterns: globs with `*` and `?`, rewritten as regular expressions. */
module BrowscapPattern {

  predicate IsWild(c: char) { c == '*' || c == '?' }

  predicate HasWildcard(p: string) { exists i :: 0 <= i < |p| && IsWild(p[i]) }

  predicate Doubles(c: char) { c == '*' || c == '.' }

  /** What one character of a pattern becomes. */
  function ConvertChar(c: char): (r: string)
    ensures |r| == if Doubles(c) then 2 else 1
  {
    if c == '?' then "." else if c == '*' then ".*" else if c == '.' then "\\." else [c]
  }

  function ConvertAll(p: string): string {
    if p == "" then "" else ConvertChar(p[0]) + ConvertAll(p[1..])
  }

  /** A pattern without wildcards is kept as it is. */
  function Convert(p: string): string { if HasWildcard(p) then ConvertAll(p) else p }

  // Globs

  /** `*` stands for any characters, `?` for one, and any other character for itself. */
  predicate GlobMatch(p: string, s: string)
    decreases |p|, |s|
  {
    if p == "" then s == ""
    else if p[0] == '*' then GlobMatch(p[1..], s) || (s != "" && GlobMatch(p, s[1..]))
    else s != "" && (p[0] == '?' || p[0] == s[0]) && GlobMatch(p[1..], s[1..])
  }

  // Basic regular expressions, as far as the translation uses them: ordinary characters, `.`, a
  // backslash before a character, and `*` after any of these.  An expression that ends in a single
  // backslash is refused, so it matches nothing.

  function AtomLength(re: string): nat
    requires re != ""
  {
    if re[0] == '\\' && |re| > 1 then 2 else 1
  }

  predicate AtomMatches(re: string, c: char)
    requires re != ""
  {
    if re[0] == '\\' then |re| > 1 && re[1] == c else re[0] == '.' || re[0] == c
  }

  /** The expression matches the string from its beginning to its end. */
  predicate RegexMatch(re: string, s: string)
    decreases |re|, |s|
  {
    if re == "" then s == ""
    else
      var n := AtomLength(re);
      if n < |re| && re[n] == '*' then
        RegexMatch(re[n + 1..], s) || (s != "" && AtomMatches(re, s[0]) && RegexMatch(re, s[1..]))
      else s != "" && AtomMatches(re, s[0]) && RegexMatch(re[n..], s[1..])
  }

  /** Characters that have a meaning of their own after a backslash. */
  predicate Operator(c: char) { c == '(' || c == ')' || c == '{' || c == '}' || '0' <= c <= '9' }

  /** No bracket or anchor, and no operator made by a backslash. */
  predicate Ordinary(p: string) {
    && (forall i :: 0 <= i < |p| ==> p[i] != '[' && p[i] != '^' && p[i] != '$')
    && (forall i :: 0 < i < |p| && p[i - 1] == '\\' ==> !Operator(p[i]))
  }

  // Looking a browser up: its name is a section, or matches the expression of a section.  Only
  // expressions with a `*` are compiled.

  predicate Compiled(p: string) { '*' in Convert(p) }

  /** The expression matches some part of the string. */
  predicate Search(re: string, s: string) {
    exists i, j :: 0 <= i <= j <= |s| && RegexMatch(re, s[i..j])
  }

  /** The section with pattern `p` answers for the browser `s`. */
  predicate Answers(p: string, s: string) { s == p || CompareBrowser(p, s) }

  /** The same if the expression had to match the whole name. */
  predicate AnswersWhole(p: string, s: string) { s == p || (Compiled(p) && RegexMatch(Convert(p), s)) }

  /** What the search for a name finds of the section with pattern `p`. */
  predicate CompareBrowser(p: string, agent: string) { Compiled(p) && Search(Convert(p), agent) }

  lemma {:induction false} CompiledWithStar(p: string)
    ensures Compiled(p) <==> '*' in p
    ensures '*' in p ==> Convert(p) == ConvertAll(p)
  {
    StarsConverted(p);
    if '*' in p {
      var i :| 0 <= i < |p| && p[i] == '*';
      assert IsWild(p[i]);
    }
  }

  lemma {:induction false} StarsConverted(p: string)
    ensures '*' in ConvertAll(p) <==> '*' in p
  {
    if p != "" {
      StarsConverted(p[1..]);
      assert p == [p[0]] + p[1..];
    }
  }

  /** When the translation preserves the meaning of a pattern, apart from the search: exactly when
      the pattern has no wildcard, and so is found by its name only, or has a `*` and no backslash.
      A pattern with `?` and no `*` is never compiled. */
  lemma {:induction false} PreservedExactly(p: string)
    requires Ordinary(p)
    ensures (forall s :: AnswersWhole(p, s) <==> GlobMatch(p, s)) <==> Wildless(p) || ('*' in p && '\\' !in p)
  {
    CompiledWithStar(p);
    if '*' in p && '\\' !in p {
      forall s ensures AnswersWhole(p, s) <==> GlobMatch(p, s) {
        TranslationPreservesMeaning(p, s);
        SelfMatch(p);
      }
    } else if '*' in p {
      var s := TranslationChangesMeaning(p);
      assert AnswersWhole(p, s) != GlobMatch(p, s);
    } else {
      NamedExactly(p);
    }
  }

  /** When the lookup finds a section exactly for the names its pattern stands for: as above, and a
      pattern with a `*` must have one in front of its first ordinary character and one behind its
      last, because the search is content with a part of the name. */
  lemma {:induction false} LookupExactly(p: string)
    requires Ordinary(p)
    ensures (forall s :: Answers(p, s) <==> GlobMatch(p, s))
       <==> Wildless(p) || ('*' in p && '\\' !in p && OpensWide(p) && EndsWide(p))
  {
    CompiledWithStar(p);
    if '*' !in p {
      NamedExactly(p);
    } else if '\\' in p {
      var s := TranslationChangesMeaning(p);
      assert RegexMatch(ConvertAll(p), s) ==> s[0..|s|] == s && Search(ConvertAll(p), s);
      if Search(ConvertAll(p), s) {
        var i, j :| 0 <= i <= j <= |s| && RegexMatch(ConvertAll(p), s[i..j]);
        if Refused(p) { RefusedMatchesNothing(p, s[i..j]); }
      }
      assert Answers(p, s) != GlobMatch(p, s);
    } else if OpensWide(p) && EndsWide(p) {
      forall s ensures Answers(p, s) <==> GlobMatch(p, s) { PartIsWhole(p, s); }
    } else {
      var s := PartOnly(p);
      assert Answers(p, s) != GlobMatch(p, s);
    }
  }

  /** Without a `*` a pattern is found by its name only. */
  lemma {:induction false} NamedExactly(p: string)
    requires '*' !in p
    ensures Wildless(p) ==> forall s :: GlobMatch(p, s) <==> s == p
    ensures !Wildless(p) ==> exists s :: GlobMatch(p, s) && s != p
    ensures !Compiled(p)
  {
    CompiledWithStar(p);
    if Wildless(p) {
      forall s ensures GlobMatch(p, s) <==> s == p { LiteralGlob(p, s); }
    } else {
      InstanceMatches(p, 'x');
      InstanceHasNoMark(p, 'x');
      var i :| 0 <= i < |p| && IsWild(p[i]);
      assert p[i] == '?' && '?' in p;
      var s := Instance(p, 'x');
      assert s != p && GlobMatch(p, s);
    }
  }

  lemma {:induction false} NoLeadingStar(p: string)
    ensures p != "" ==> ConvertAll(p) != "" && ConvertAll(p)[0] != '*'
  {
  }

  /** Without a backslash the translation preserves the meaning of the pattern. */
  lemma {:induction false} TranslationPreservesMeaning(p: string, s: string)
    requires '\\' !in p
    ensures RegexMatch(ConvertAll(p), s) <==> GlobMatch(p, s)
    decreases |p|, |s|
  {
    if p != "" {
      var re, rest := ConvertAll(p), ConvertAll(p[1..]);
      NoLeadingStar(p[1..]);
      assert p[0] in p;
      if p[0] == '*' {
        assert re[2..] == rest;
        TranslationPreservesMeaning(p[1..], s);
        if s != "" { TranslationPreservesMeaning(p, s[1..]); }
      } else {
        var n := |ConvertChar(p[0])|;
        assert re[n..] == rest && AtomLength(re) == n;
        assert n < |re| ==> re[n] == rest[0];
        if s != "" { TranslationPreservesMeaning(p[1..], s[1..]); }
      }
    }
  }

  // With a backslash it does not: some string matches only one of the two.

  /** The translation ends in a backslash that is not itself escaped. */
  predicate Refused(p: string) {
    if p == "" then false
    else if p[0] != '\\' then Refused(p[1..])
    else |p| == 1 || Refused(p[2..])
  }

  /** A shortest string that matches the translation; where an escaped backslash has left a dot
      unescaped, it has another character than the dot of the pattern. */
  function Example(p: string): string {
    if p == "" then ""
    else if p[0] == '*' then Example(p[1..])
    else if p[0] == '?' then "x" + Example(p[1..])
    else if p[0] != '\\' then [p[0]] + Example(p[1..])
    else if |p| == 1 then ""
    else if p[1] == '*' then Example(p[2..])
    else if p[1] == '.' then "\\x" + Example(p[2..])
    else if p[1] == '?' then "." + Example(p[2..])
    else [p[1]] + Example(p[2..])
  }

  /** How a pattern that starts with a backslash is translated. */
  lemma {:induction false} ConvertTwo(p: string)
    requires |p| > 1 && p[0] == '\\'
    ensures ConvertAll(p) == "\\" + ConvertChar(p[1]) + ConvertAll(p[2..])
  {
    assert p[1..][1..] == p[2..];
  }

  lemma {:induction false} ExampleMatches(p: string)
    requires !Refused(p)
    ensures RegexMatch(ConvertAll(p), Example(p))
    decreases |p|
  {
    if p != "" {
      if p[0] == '\\' {
        ExampleMatches(p[2..]);
        EscapedMatches(p);
      } else {
        ExampleMatches(p[1..]);
        NoLeadingStar(p[1..]);
        var re, rest, s := ConvertAll(p), ConvertAll(p[1..]), Example(p);
        var n := |ConvertChar(p[0])|;
        assert re[n..] == rest;
        if p[0] != '*' { assert s[1..] == Example(p[1..]); }
      }
    }
  }

  lemma {:induction false} PlainFirst(x: char, rest: string, c: char, t: string)
    requires x != '\\' && (x == '.' || x == c) && RegexMatch(rest, t) && (rest != "" ==> rest[0] != '*')
    ensures RegexMatch([x] + rest, [c] + t)
  {
    assert ([x] + rest)[1..] == rest && ([c] + t)[1..] == t;
  }

  lemma {:induction false} QuotedFirst(x: char, rest: string, t: string)
    requires RegexMatch(rest, t) && (rest != "" ==> rest[0] != '*')
    ensures RegexMatch(['\\', x] + rest, [x] + t)
  {
    assert (['\\', x] + rest)[2..] == rest && ([x] + t)[1..] == t;
  }

  lemma {:induction false} QuotedStar(x: char, rest: string, t: string)
    requires RegexMatch(rest, t)
    ensures RegexMatch(['\\', x, '*'] + rest, t)
  {
    assert (['\\', x, '*'] + rest)[3..] == rest;
  }

  lemma {:induction false} EscapedParts(p: string)
    requires |p| > 1 && p[0] == '\\'
    ensures var re, rest, s, t := ConvertAll(p), ConvertAll(p[2..]), Example(p), Example(p[2..]);
      && (p[1] == '*' ==> re == ['\\', '.', '*'] + rest && s == t)
      && (p[1] == '.' ==> re == ['\\', '\\'] + (['.'] + rest) && s == ['\\'] + (['x'] + t))
      && (p[1] != '*' && p[1] != '.' ==>
            var x := if p[1] == '?' then '.' else p[1];
            re == ['\\', x] + rest && s == [x] + t)
  {
    ConvertTwo(p);
  }

  lemma {:induction false} EscapedMatches(p: string)
    requires |p| > 1 && p[0] == '\\' && RegexMatch(ConvertAll(p[2..]), Example(p[2..]))
    ensures RegexMatch(ConvertAll(p), Example(p))
  {
    var rest, t := ConvertAll(p[2..]), Example(p[2..]);
    NoLeadingStar(p[2..]);
    EscapedParts(p);
    if p[1] == '*' {
      QuotedStar('.', rest, t);
    } else if p[1] == '.' {
      PlainFirst('.', rest, 'x', t);
      QuotedFirst('\\', ['.'] + rest, ['x'] + t);
    } else {
      QuotedFirst(if p[1] == '?' then '.' else p[1], rest, t);
    }
  }

  /** The length of a shortest string that matches the pattern. */
  function Shortest(p: string): nat {
    if p == "" then 0 else (if p[0] == '*' then 0 else 1) + Shortest(p[1..])
  }

  /** The string matches the pattern with every star standing for nothing. */
  predicate Fits(p: string, s: string) {
    if p == "" then s == ""
    else if p[0] == '*' then Fits(p[1..], s)
    else s != "" && (p[0] == '?' || p[0] == s[0]) && Fits(p[1..], s[1..])
  }

  lemma {:induction false} ShortestGlob(p: string, s: string)
    requires GlobMatch(p, s)
    ensures |s| >= Shortest(p)
    ensures |s| == Shortest(p) ==> Fits(p, s)
    decreases |p|, |s|
  {
    if p != "" {
      if p[0] == '*' {
        if GlobMatch(p[1..], s) { ShortestGlob(p[1..], s); } else { ShortestGlob(p, s[1..]); }
      } else {
        ShortestGlob(p[1..], s[1..]);
      }
    }
  }

  lemma {:induction false} ExampleDoesNotFit(p: string)
    ensures |Example(p)| <= Shortest(p)
    ensures '\\' in p && !Refused(p) ==> |Example(p)| < Shortest(p) || !Fits(p, Example(p))
    decreases |p|
  {
    if p != "" {
      if p[0] == '\\' && |p| > 1 {
        ExampleDoesNotFit(p[2..]);
        assert p[1..][1..] == p[2..] && p[1..][0] == p[1];
        assert Shortest(p) == 1 + (if p[1] == '*' then 0 else 1) + Shortest(p[2..]);
        if p[1] == '.' { assert Example(p)[1..][0] == 'x'; }
      } else {
        ExampleDoesNotFit(p[1..]);
        if p[0] != '*' && p[0] != '\\' { assert Example(p)[1..] == Example(p[1..]); }
      }
    }
  }

  /** A pattern fits some string: itself without the stars. */
  function Starless(p: string): string {
    if p == "" then "" else (if p[0] == '*' then "" else [p[0]]) + Starless(p[1..])
  }

  lemma {:induction false} StarlessMatches(p: string)
    ensures GlobMatch(p, Starless(p))
  {
    if p != "" {
      StarlessMatches(p[1..]);
      if p[0] == '*' { assert Starless(p) == Starless(p[1..]); } else { assert Starless(p)[1..] == Starless(p[1..]); }
    }
  }

  lemma {:induction false} RefusedMatchesNothing(p: string, s: string)
    requires Refused(p)
    ensures !RegexMatch(ConvertAll(p), s)
    decreases |p|, |s|
  {
    var re := ConvertAll(p);
    if p[0] == '\\' && |p| == 1 {
      assert re == "\\" + ConvertAll("");
    } else if p[0] == '\\' {
      RefusedEscape(p, s);
    } else {
      var rest := ConvertAll(p[1..]);
      NoLeadingStar(p[1..]);
      var n := |ConvertChar(p[0])|;
      assert re[n..] == rest && n < |re| ==> re[n] == rest[0];
      if p[0] == '*' { RefusedMatchesNothing(p[1..], s); }
      if s != "" { RefusedMatchesNothing(if p[0] == '*' then p else p[1..], s[1..]); }
    }
  }

  lemma {:induction false} RefusedEscape(p: string, s: string)
    requires |p| > 1 && p[0] == '\\' && Refused(p[2..])
    ensures !RegexMatch(ConvertAll(p), s)
    decreases |p|, |s|, 0
  {
    var re, rest := ConvertAll(p), ConvertAll(p[2..]);
    NoLeadingStar(p[2..]);
    ConvertTwo(p);
    if p[1] == '*' {
      assert re[3..] == rest;
      RefusedMatchesNothing(p[2..], s);
      if s != "" { RefusedEscape(p, s[1..]); }
    } else if p[1] == '.' {
      assert re[2..] == "." + rest && ("." + rest)[1..] == rest;
      if |s| > 1 { RefusedMatchesNothing(p[2..], s[1..][1..]); }
      if s != "" { assert !RegexMatch("." + rest, s[1..]); }
    } else {
      assert re[2..] == rest;
      if s != "" { RefusedMatchesNothing(p[2..], s[1..]); }
    }
  }

  /** With a backslash in a pattern with a `*`, some name, not that of the pattern, matches only one of
      expression and glob; if the expression is refused, it is one that the glob matches. */
  lemma {:induction false} TranslationChangesMeaning(p: string) returns (s: string)
    requires '\\' in p && '*' in p
    ensures RegexMatch(ConvertAll(p), s) != GlobMatch(p, s)
    ensures Refused(p) <==> GlobMatch(p, s)
    ensures GlobMatch(p, s) ==> s != p
  {
    if Refused(p) {
      s := Starless(p);
      StarlessMatches(p);
      StarlessIsShorter(p);
      RefusedMatchesNothing(p, s);
    } else {
      s := Example(p);
      ExampleMatches(p);
      ExampleDoesNotFit(p);
      if GlobMatch(p, s) { ShortestGlob(p, s); }
    }
  }

  lemma {:induction false} StarlessIsShorter(p: string)
    ensures |Starless(p)| <= |p| && ('*' in p ==> |Starless(p)| < |p|)
  {
    if p != "" {
      StarlessIsShorter(p[1..]);
      assert p == [p[0]] + p[1..];
    }
  }

  // Patterns without wildcards stand for themselves.

  predicate Wildless(p: string) { forall i :: 0 <= i < |p| ==> !IsWild(p[i]) }

  lemma {:induction false} LiteralGlob(p: string, s: string)
    requires Wildless(p)
    ensures GlobMatch(p, s) <==> s == p
  {
    if p != "" && s != "" { LiteralGlob(p[1..], s[1..]); }
    if p != "" && s != "" && p[0] == s[0] && p[1..] == s[1..] { assert p == [p[0]] + p[1..] && s == [s[0]] + s[1..]; }
  }

  lemma {:induction false} SelfMatch(p: string)
    ensures GlobMatch(p, p)
  {
    if p != "" { SelfMatch(p[1..]); }
  }

  // A part of a name

  /** A `*` comes before any ordinary character. */
  predicate OpensWide(p: string) { p != "" && (p[0] == '*' || (p[0] == '?' && OpensWide(p[1..]))) }

  predicate AllWild(p: string) { p == "" || (IsWild(p[0]) && AllWild(p[1..])) }

  /** A `*` comes after every ordinary character. */
  predicate EndsWide(p: string) { p != "" && ((AllWild(p) && '*' in p) || EndsWide(p[1..])) }

  lemma {:induction false} MoreInFront(p: string, c: char, s: string)
    requires OpensWide(p) && GlobMatch(p, s)
    ensures GlobMatch(p, [c] + s)
    decreases |p|
  {
    assert ([c] + s)[1..] == s;
    if p[0] == '?' {
      MoreInFront(p[1..], s[0], s[1..]);
      assert s == [s[0]] + s[1..];
    }
  }

  lemma {:induction false} WildLength(p: string, s: string)
    requires AllWild(p)
    ensures GlobMatch(p, s) <==> |s| == Shortest(p) || ('*' in p && |s| >= Shortest(p))
    decreases |p|, |s|
  {
    if p != "" {
      assert IsWild(p[0]) && p == [p[0]] + p[1..];
      if p[0] == '*' {
        WildLength(p[1..], s);
        if s != "" { WildLength(p, s[1..]); }
      } else if s != "" {
        WildLength(p[1..], s[1..]);
      }
    }
  }

  lemma {:induction false} MoreBehind(p: string, s: string, c: char)
    requires EndsWide(p) && GlobMatch(p, s)
    ensures GlobMatch(p, s + [c])
    decreases |p|, |s|
  {
    if AllWild(p) && '*' in p {
      WildLength(p, s);
      WildLength(p, s + [c]);
    } else if p[0] == '*' && GlobMatch(p[1..], s) {
      MoreBehind(p[1..], s, c);
    } else {
      MoreBehind(if p[0] == '*' then p else p[1..], s[1..], c);
      assert (s + [c])[1..] == s[1..] + [c];
    }
  }

  lemma {:induction false} PartMatches(p: string, s: string, i: nat, j: nat)
    requires OpensWide(p) && EndsWide(p) && i <= j <= |s| && GlobMatch(p, s[i..j])
    ensures GlobMatch(p, s)
    decreases i + |s| - j
  {
    if i > 0 {
      MoreInFront(p, s[i - 1], s[i..j]);
      assert s[i - 1..j] == [s[i - 1]] + s[i..j];
      PartMatches(p, s, i - 1, j);
    } else if j < |s| {
      MoreBehind(p, s[i..j], s[j]);
      assert s[i..j + 1] == s[i..j] + [s[j]];
      PartMatches(p, s, i, j + 1);
    } else {
      assert s[i..j] == s;
    }
  }

  lemma {:induction false} PartIsWhole(p: string, s: string)
    requires '*' in p && '\\' !in p && OpensWide(p) && EndsWide(p)
    ensures Answers(p, s) <==> GlobMatch(p, s)
  {
    CompiledWithStar(p);
    SelfMatch(p);
    if Search(Convert(p), s) {
      var i, j :| 0 <= i <= j <= |s| && RegexMatch(Convert(p), s[i..j]);
      TranslationPreservesMeaning(p, s[i..j]);
      PartMatches(p, s, i, j);
    }
    if GlobMatch(p, s) {
      TranslationPreservesMeaning(p, s);
      assert s[0..|s|] == s;
    }
  }

  /** What the pattern stands for with every star for nothing and every `?` for `f`. */
  function Instance(p: string, f: char): string {
    if p == "" then ""
    else (if p[0] == '*' then "" else if p[0] == '?' then [f] else [p[0]]) + Instance(p[1..], f)
  }

  lemma {:induction false} InstanceMatches(p: string, f: char)
    ensures GlobMatch(p, Instance(p, f))
  {
    if p != "" {
      InstanceMatches(p[1..], f);
      if p[0] == '*' {
        assert Instance(p, f) == Instance(p[1..], f);
      } else {
        assert Instance(p, f)[1..] == Instance(p[1..], f);
      }
    }
  }

  lemma {:induction false} InstanceHasNoMark(p: string, f: char)
    requires f != '?'
    ensures '?' !in Instance(p, f)
  {
    if p != "" { InstanceHasNoMark(p[1..], f); }
  }

  /** The first ordinary character in front of any star. */
  function FirstOrdinary(p: string): char
    requires '*' in p && !OpensWide(p)
  {
    if p[0] == '?' then
      assert p == [p[0]] + p[1..];
      FirstOrdinary(p[1..])
    else p[0]
  }

  lemma {:induction false} NotInFront(p: string, f: char)
    requires '*' in p && !OpensWide(p) && f != FirstOrdinary(p)
    ensures !GlobMatch(p, [f] + Instance(p, f))
  {
    var s := [f] + Instance(p, f);
    if p[0] == '?' {
      assert p == [p[0]] + p[1..];
      NotInFront(p[1..], f);
      assert s[1..] == [f] + Instance(p[1..], f);
    }
  }

  /** The last ordinary character, and the number of `?` behind it. */
  function LastOrdinary(p: string): (char, nat)
    requires !AllWild(p)
  {
    if AllWild(p[1..]) then (p[0], |p| - 1) else LastOrdinary(p[1..])
  }

  lemma {:induction false} NarrowEnd(p: string, s: string)
    requires !AllWild(p) && !EndsWide(p) && GlobMatch(p, s)
    ensures var (c, n) := LastOrdinary(p); n < |s| && s[|s| - 1 - n] == c
    decreases |p|, |s|
  {
    if AllWild(p[1..]) {
      WildLength(p[1..], s[1..]);
      QuestionMarks(p[1..]);
    } else if p[0] == '*' && GlobMatch(p[1..], s) {
      NarrowEnd(p[1..], s);
    } else {
      var rest := if p[0] == '*' then p else p[1..];
      NarrowEnd(rest, s[1..]);
      var (c, n) := LastOrdinary(rest);
      assert LastOrdinary(p) == (c, n) && s[1..][|s| - 2 - n] == s[|s| - 1 - n];
    }
  }

  lemma {:induction false} QuestionMarks(p: string)
    requires AllWild(p) && '*' !in p
    ensures Shortest(p) == |p|
  {
    if p != "" {
      assert IsWild(p[0]) && p[0] in p;
      assert forall c :: c in p[1..] ==> c in p;
      QuestionMarks(p[1..]);
    }
  }

  lemma {:induction false} InstanceEnd(p: string, f: char)
    requires !AllWild(p) && !EndsWide(p)
    ensures var n, t := LastOrdinary(p).1, Instance(p, f);
      n < |t| && forall k :: |t| - n <= k < |t| ==> t[k] == f
  {
    var t := Instance(p[1..], f);
    if AllWild(p[1..]) {
      InstanceOfMarks(p[1..], f);
      assert Instance(p, f) == [p[0]] + t;
    } else {
      InstanceEnd(p[1..], f);
      assert Instance(p, f) == (if p[0] == '*' then "" else if p[0] == '?' then [f] else [p[0]]) + t;
    }
  }

  lemma {:induction false} InstanceOfMarks(p: string, f: char)
    requires AllWild(p) && '*' !in p
    ensures |Instance(p, f)| == |p| && forall k :: 0 <= k < |p| ==> Instance(p, f)[k] == f
  {
    if p != "" {
      assert IsWild(p[0]) && p[0] in p;
      assert forall c :: c in p[1..] ==> c in p;
      InstanceOfMarks(p[1..], f);
    }
  }

  lemma {:induction false} NotBehind(p: string, f: char)
    requires !AllWild(p) && !EndsWide(p) && f != LastOrdinary(p).0
    ensures !GlobMatch(p, Instance(p, f) + [f])
  {
    var t, n := Instance(p, f), LastOrdinary(p).1;
    InstanceEnd(p, f);
    var s := t + [f];
    assert s[|s| - 1 - n] == if n > 0 then t[|t| - n] else f;
    if GlobMatch(p, s) { NarrowEnd(p, s); }
  }

  /** A name of which only a part is what the pattern stands for. */
  lemma {:induction false} PartOnly(p: string) returns (s: string)
    requires '*' in p && '\\' !in p && !(OpensWide(p) && EndsWide(p))
    ensures Answers(p, s) && !GlobMatch(p, s)
  {
    CompiledWithStar(p);
    var avoid := if OpensWide(p) then (if AllWild(p) then 'x' else LastOrdinary(p).0) else FirstOrdinary(p);
    var f := if avoid == 'x' then 'y' else 'x';
    var t := Instance(p, f);
    InstanceMatches(p, f);
    TranslationPreservesMeaning(p, t);
    if OpensWide(p) {
      NotBehind(p, f);
      s := t + [f];
      assert s[0..|t|] == t;
    } else {
      NotInFront(p, f);
      s := [f] + t;
      assert s[1..|s|] == t;
    }
  }

  // Length

  function Doublings(p: string): (n: nat)
    ensures n <= |p|
  {
    if p == "" then 0 else (if Doubles(p[0]) then 1 else 0) + Doublings(p[1..])
  }

  lemma {:induction false} AllDoubled(p: string)
    ensures Doublings(p) == |p| <==> forall i :: 0 <= i < |p| ==> Doubles(p[i])
  {
    if p != "" {
      AllDoubled(p[1..]);
      assert forall i :: 0 < i < |p| ==> p[i] == p[1..][i - 1];
    }
  }

  lemma {:induction false} ConvertedLength(p: string)
    ensures |ConvertAll(p)| == |p| + Doublings(p)
  {
    if p != "" { ConvertedLength(p[1..]); }
  }

  lemma {:induction false} ConvertBoth(p: string, q: string)
    ensures ConvertAll(p + q) == ConvertAll(p) + ConvertAll(q)
  {
    if p == "" {
      assert p + q == q;
    } else {
      assert (p + q)[1..] == p[1..] + q;
      ConvertBoth(p[1..], q);
    }
  }

  lemma {:induction false} ConvertParts(p: string, i: nat)
    requires i < |p|
    ensures ConvertAll(p) == ConvertAll(p[..i]) + (ConvertChar(p[i]) + ConvertAll(p[i + 1..]))
  {
    assert p == p[..i] + p[i..] && p[i..][1..] == p[i + 1..];
    ConvertBoth(p[..i], p[i..]);
  }

  lemma {:induction false} Middle(a: string, b: string, c: string)
    ensures (a + (b + c))[|a|..|a| + |b|] == b
  {
  }

  /** What becomes of each character of a pattern with a wildcard, and where; a pattern without one
      stays as it is. */
  lemma {:induction false} ConvertedAt(p: string, i: nat)
    requires i < |p|
    ensures '*' !in p && '?' !in p ==> Convert(p) == p
    ensures '*' in p || '?' in p ==>
      var piece := if p[i] == '?' then "." else if p[i] == '*' then ".*" else if p[i] == '.' then "\\." else [p[i]];
      var k := i + Doublings(p[..i]);
      k + |piece| <= |Convert(p)| == |p| + Doublings(p) && Convert(p)[k..k + |piece|] == piece
  {
    WildOrNot(p);
    if '*' in p || '?' in p {
      ConvertParts(p, i);
      Middle(ConvertAll(p[..i]), ConvertChar(p[i]), ConvertAll(p[i + 1..]));
      ConvertedLength(p[..i]);
      ConvertedLength(p);
    }
  }

  lemma {:induction false} WildOrNot(p: string)
    ensures HasWildcard(p) <==> '*' in p || '?' in p
  {
    if '*' in p || '?' in p {
      var j :| 0 <= j < |p| && (p[j] == '*' || p[j] == '?');
      assert IsWild(p[j]);
    }
  }

  lemma {:induction false} ConvertNext(p: string, i: nat, before: string)
    requires i < |p| && before + ConvertAll(p[i..]) == ConvertAll(p)
    ensures before + ConvertChar(p[i]) + ConvertAll(p[i + 1..]) == ConvertAll(p)
    ensures |before| + |ConvertChar(p[i])| <= |ConvertAll(p)|
  {
    assert p[i..][1..] == p[i + 1..];
    assert before + (ConvertChar(p[i]) + ConvertAll(p[i + 1..])) == before + ConvertChar(p[i]) + ConvertAll(p[i + 1..]);
  }

  /** Rewrites a pattern in a buffer of twice its length.  The terminating zero fits exactly when
      the pattern has a character that is not doubled. */
  method ConvertPattern(pattern: string) returns (converted: string, terminated: bool)
    ensures converted == Convert(pattern)
    ensures terminated <==> HasWildcard(pattern) ==> exists i :: 0 <= i < |pattern| && !Doubles(pattern[i])
  {
    var i := 0;
    while i < |pattern|
      invariant 0 <= i <= |pattern| && forall k :: 0 <= k < i ==> !IsWild(pattern[k])
    {
      if IsWild(pattern[i]) { break; }
      i := i + 1;
    }
    if i == |pattern| { return pattern, true; }
    var t := new char[2 * |pattern|];
    var j := Fill(pattern, t);
    converted := t[..j];
    ConvertedLength(pattern);
    AllDoubled(pattern);
    terminated := j < t.Length;
    if terminated { t[j] := '\0'; }
  }

  method Fill(pattern: string, t: array<char>) returns (j: nat)
    requires t.Length == 2 * |pattern|
    modifies t
    ensures j <= t.Length && t[..j] == ConvertAll(pattern)
  {
    ConvertedLength(pattern);
    j := 0;
    for i := 0 to |pattern|
      invariant j <= t.Length && t[..j] + ConvertAll(pattern[i..]) == ConvertAll(pattern)
    {
      var c := pattern[i];
      ConvertNext(pattern, i, t[..j]);
      ghost var before := t[..j];
      if c == '?' {
        t[j] := '.';
      } else if c == '*' {
        t[j] := '.';
        j := j + 1;
        t[j] := '*';
      } else if c == '.' {
        t[j] := '\\';
        j := j + 1;
        t[j] := '.';
      } else {
        t[j] := c;
      }
      j := j + 1;
      assert t[..j] == before + ConvertChar(c);
    }
    assert t[..j] + "" == t[..j];
  }
}
