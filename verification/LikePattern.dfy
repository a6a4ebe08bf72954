/** Searching a name for user text: escaping the text makes a LIKE pattern mean containment.  Patterns are those of
    section 8.5 of ISO/IEC 9075-2, with a backslash as escape character. */
module LikePattern {
  import opened Wrappers

  // ----- patterns -----

  datatype Piece = Literal(c: char) | AnyOne | AnyRun

  predicate IsSpecial(c: char) {
    c == '\\' || c == '%' || c == '_'
  }

  /** None when an escape character does not escape anything. */
  function Parse(pattern: string): Option<seq<Piece>> {
    if pattern == "" then Some([])
    else if pattern[0] == '\\' then
      if |pattern| < 2 || !IsSpecial(pattern[1]) then None else Cons(Literal(pattern[1]), Parse(pattern[2..]))
    else if pattern[0] == '%' then Cons(AnyRun, Parse(pattern[1..]))
    else if pattern[0] == '_' then Cons(AnyOne, Parse(pattern[1..]))
    else Cons(Literal(pattern[0]), Parse(pattern[1..]))
  }

  function Cons(first: Piece, rest: Option<seq<Piece>>): Option<seq<Piece>> {
    if rest.None? then None else Some([first] + rest.value)
  }

  /** Two characters match if `fold` (case folding) makes them equal. */
  predicate Matches(fold: char -> char, s: string, pieces: seq<Piece>)
    decreases |pieces|, |s|
  {
    if pieces == [] then s == ""
    else
      match pieces[0]
      case AnyRun => Matches(fold, s, pieces[1..]) || (s != "" && Matches(fold, s[1..], pieces))
      case AnyOne => s != "" && Matches(fold, s[1..], pieces[1..])
      case Literal(c) => s != "" && fold(s[0]) == fold(c) && Matches(fold, s[1..], pieces[1..])
  }

  /** `s ILIKE pattern`; None for an invalid pattern. */
  function ILike(fold: char -> char, s: string, pattern: string): Option<bool> {
    var pieces := Parse(pattern);
    if pieces.None? then None else Some(Matches(fold, s, pieces.value))
  }

  // ----- escaping -----

  /** str.replace for a one-character needle. */
  function Replace(s: string, c: char, with: string): string {
    if s == "" then "" else (if s[0] == c then with else [s[0]]) + Replace(s[1..], c, with)
  }

  function EscapeLike(value: string): string {
    Replace(Replace(Replace(value, '\\', "\\\\"), '%', "\\%"), '_', "\\_")
  }

  function EscapedChar(c: char): string {
    if IsSpecial(c) then ['\\', c] else [c]
  }

  /** One pass, character by character. */
  function EscapeEach(value: string): string {
    if value == "" then ""
    else EscapedChar(value[0]) + EscapeEach(value[1..])
  }

  lemma {:induction false} ReplaceConcat(a: string, b: string, c: char, with: string)
    ensures Replace(a + b, c, with) == Replace(a, c, with) + Replace(b, c, with)
  {
    if a == "" {
      assert a + b == b;
    } else {
      assert (a + b)[1..] == a[1..] + b;
      ReplaceConcat(a[1..], b, c, with);
    }
  }

  lemma ReplaceOne(x: char, c: char, with: string)
    ensures Replace([x], c, with) == if x == c then with else [x]
  {
    assert Replace([x][1..], c, with) == "";
  }

  lemma ReplaceTwo(x: char, y: char, c: char, with: string)
    requires x != c && y != c
    ensures Replace([x, y], c, with) == [x, y]
  {
    ReplaceOne(x, c, with);
    ReplaceOne(y, c, with);
    ReplaceConcat([x], [y], c, with);
    assert [x] + [y] == [x, y];
  }

  lemma EscapeOne(x: char)
    ensures EscapeLike([x]) == EscapedChar(x)
  {
    hide Replace;
    ReplaceOne(x, '\\', "\\\\");
    ReplaceOne(x, '%', "\\%");
    ReplaceOne(x, '_', "\\_");
    ReplaceTwo('\\', '\\', '%', "\\%");
    ReplaceTwo('\\', '\\', '_', "\\_");
    ReplaceTwo('\\', '%', '_', "\\_");
  }

  /** The three chained replacements, in this order, are one per-character escape. */
  lemma {:induction false} ChainIsOnePass(value: string)
    ensures EscapeLike(value) == EscapeEach(value)
  {
    if value != "" {
      var head, tail := [value[0]], value[1..];
      ChainIsOnePass(tail);
      EscapeOne(value[0]);
      assert value == head + tail;
      ReplaceConcat(head, tail, '\\', "\\\\");
      var h1, t1 := Replace(head, '\\', "\\\\"), Replace(tail, '\\', "\\\\");
      ReplaceConcat(h1, t1, '%', "\\%");
      ReplaceConcat(Replace(h1, '%', "\\%"), Replace(t1, '%', "\\%"), '_', "\\_");
    }
  }

  /** The order matters: escaping the backslashes last escapes the escapes, and a percent sign becomes a wildcard. */
  lemma BackslashLastIsWrong()
    ensures Replace(Replace("%", '%', "\\%"), '\\', "\\\\") == "\\\\%"
    ensures Parse("\\\\%") == Some([Literal('\\'), AnyRun])
  {
    ReplaceOne('%', '%', "\\%");
    ReplaceOne('\\', '\\', "\\\\");
    ReplaceOne('%', '\\', "\\\\");
    ReplaceConcat(['\\'], ['%'], '\\', "\\\\");
    assert "%" == ['%'] && ['\\'] + ['%'] == "\\%" && "\\\\" + ['%'] == "\\\\%";
    assert "\\\\%"[2..] == "%" && "%"[1..] == "";
    assert Parse("") == Some([]) && [AnyRun] + [] == [AnyRun] && [Literal('\\')] + [AnyRun] == [Literal('\\'), AnyRun];
    assert Parse("%") == Some([AnyRun]);
  }

  // ----- what an escaped pattern means -----

  function Literals(value: string): (r: seq<Piece>)
    ensures |r| == |value|
    ensures forall i :: 0 <= i < |r| ==> r[i] == Literal(value[i])
  {
    seq(|value|, i requires 0 <= i < |value| => Literal(value[i]))
  }

  lemma ParseEscaped(c: char, rest: string)
    ensures Parse(EscapedChar(c) + rest) == Cons(Literal(c), Parse(rest))
  {
    var pattern := EscapedChar(c) + rest;
    assert pattern[|EscapedChar(c)|..] == rest;
  }

  lemma {:induction false} EscapedIsLiteral(value: string, tail: string)
    requires Parse(tail).Some?
    ensures Parse(EscapeEach(value) + tail) == Some(Literals(value) + Parse(tail).value)
  {
    hide Parse, EscapedChar;
    if value == "" {
      assert "" + tail == tail && Literals(value) + Parse(tail).value == Parse(tail).value;
    } else {
      var rest := EscapeEach(value[1..]) + tail;
      EscapedIsLiteral(value[1..], tail);
      ParseEscaped(value[0], rest);
      assert EscapeEach(value) + tail == EscapedChar(value[0]) + rest;
      assert Literals(value) == [Literal(value[0])] + Literals(value[1..]);
      assert Literals(value) + Parse(tail).value == [Literal(value[0])] + (Literals(value[1..]) + Parse(tail).value);
    }
  }

  /** `value` occurs in `s` at position `k`, up to case. */
  ghost predicate OccursAt(fold: char -> char, value: string, s: string, k: nat) {
    k + |value| <= |s| && forall i :: 0 <= i < |value| ==> fold(s[k + i]) == fold(value[i])
  }

  ghost predicate Occurs(fold: char -> char, value: string, s: string) {
    exists k: nat :: OccursAt(fold, value, s, k)
  }

  lemma {:induction false} AnyRunMatchesAll(fold: char -> char, s: string)
    ensures Matches(fold, s, [AnyRun])
  {
    if s == "" {
      assert Matches(fold, s, [AnyRun][1..]);
    } else {
      AnyRunMatchesAll(fold, s[1..]);
    }
  }

  lemma {:induction false} PrefixMatch(fold: char -> char, value: string, s: string)
    ensures Matches(fold, s, Literals(value) + [AnyRun]) <==> OccursAt(fold, value, s, 0)
  {
    var pieces := Literals(value) + [AnyRun];
    if value == "" {
      assert pieces == [AnyRun];
      AnyRunMatchesAll(fold, s);
    } else {
      assert pieces[1..] == Literals(value[1..]) + [AnyRun];
      if s != "" {
        PrefixMatch(fold, value[1..], s[1..]);
        PeelOccurrence(fold, value, s);
      }
    }
  }

  lemma PeelOccurrence(fold: char -> char, value: string, s: string)
    requires value != "" && s != ""
    ensures OccursAt(fold, value, s, 0) <==> fold(s[0]) == fold(value[0]) && OccursAt(fold, value[1..], s[1..], 0)
  {
    assert OccursAt(fold, value, s, 0) ==> fold(s[0 + 0]) == fold(value[0]);
    if fold(s[0]) == fold(value[0]) && OccursAt(fold, value[1..], s[1..], 0) {
      forall i | 0 <= i < |value|
        ensures fold(s[0 + i]) == fold(value[i])
      {
        assert i == 0 || fold(s[1..][0 + (i - 1)]) == fold(value[1..][i - 1]);
      }
    }
  }

  lemma {:induction false} ContainsMatch(fold: char -> char, value: string, s: string)
    ensures Matches(fold, s, [AnyRun] + (Literals(value) + [AnyRun])) <==> Occurs(fold, value, s)
    decreases |s|
  {
    var pieces := [AnyRun] + (Literals(value) + [AnyRun]);
    assert pieces[1..] == Literals(value) + [AnyRun];
    PrefixMatch(fold, value, s);
    if s == "" {
      NotInNothing(fold, value);
    } else {
      ContainsMatch(fold, value, s[1..]);
      ShiftOccurrence(fold, value, s);
    }
  }

  lemma NotInNothing(fold: char -> char, value: string)
    ensures Occurs(fold, value, "") <==> OccursAt(fold, value, "", 0)
  {
    if k: nat :| OccursAt(fold, value, "", k) {
      assert value == "" && k == 0;
    }
  }

  lemma ShiftOccurrence(fold: char -> char, value: string, s: string)
    requires s != ""
    ensures Occurs(fold, value, s) <==> OccursAt(fold, value, s, 0) || Occurs(fold, value, s[1..])
  {
    if k: nat :| OccursAt(fold, value, s, k) {
      if k > 0 {
        assert OccursAt(fold, value, s[1..], k - 1);
      }
    }
    if k: nat :| OccursAt(fold, value, s[1..], k) {
      assert OccursAt(fold, value, s, k + 1);
    }
  }

  /** For all user text and all names: the search pattern is valid, and a name matches it if and only if the text occurs
      in the name, up to case. */
  lemma SearchIsContainment(fold: char -> char, value: string, name: string)
    ensures ILike(fold, name, "%" + EscapeLike(value) + "%") == Some(Occurs(fold, value, name))
  {
    hide EscapeLike, EscapeEach, Matches, Occurs;
    ChainIsOnePass(value);
    assert Parse("%") == Some([AnyRun]) by {
      assert "%"[1..] == "" && [AnyRun] + [] == [AnyRun];
    }
    EscapedIsLiteral(value, "%");
    var pattern := "%" + EscapeLike(value) + "%";
    assert pattern[0] == '%' && pattern[1..] == EscapeEach(value) + "%";
    ContainsMatch(fold, value, name);
  }
}
