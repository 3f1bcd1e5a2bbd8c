/**
 * How every parser gets at the report's JSON: the first script element of a
 * page holds `window.data = <json>;`, and the text of the JSON is what is left
 * after removing every occurrence of the assignment prefix and then every
 * semicolon. The model states what that removal does to a payload, and gives
 * the unwrapping the code evidently intends beside it.
 */
module Loader {

  /** The assignment in front of the JSON text. */
  const Prefix: string := "window.data = "

  /** `pat` occurs in `s` starting at position `i`. */
  predicate MatchAt(pat: string, s: string, i: int) {
    0 <= i && i + |pat| <= |s| && s[i..i + |pat|] == pat
  }

  /** `pat` occurs in `s` at some position. */
  predicate Occurs(pat: string, s: string) {
    exists i :: 0 <= i <= |s| && MatchAt(pat, s, i)
  }

  /**
   * `s.replace(pat, '')`: scanning from the left, every occurrence of `pat`
   * that does not overlap an earlier removed one is dropped.
   */
  function RemoveAll(s: string, pat: string): (r: string)
    requires pat != []
    ensures |r| <= |s|
    decreases |s|
  {
    if |s| < |pat| then s
    else if s[..|pat|] == pat then RemoveAll(s[|pat|..], pat)
    else [s[0]] + RemoveAll(s[1..], pat)
  }

  /** The characters of `s` other than `c`, in order. */
  function Without(s: string, c: char): (r: string)
    ensures c !in r
    ensures forall x :: x in r <==> x in s && x != c
    decreases |s|
  {
    if |s| == 0 then []
    else (if s[0] == c then [] else [s[0]]) + Without(s[1..], c)
  }

  /** The JSON text as the parsers extract it: the prefix removed everywhere, then every `;`. */
  function Unwrap(script: string): string {
    RemoveAll(RemoveAll(script, Prefix), ";")
  }

  /** The evidently intended unwrapping: the leading assignment and the one trailing `;` only. */
  function UnwrapIntended(script: string): string {
    var body := if |Prefix| <= |script| && script[..|Prefix|] == Prefix then script[|Prefix|..] else script;
    if |body| > 0 && body[|body| - 1] == ';' then body[..|body| - 1] else body
  }

  // ---------------------------------------------------------------------------
  // Removal

  /** Where `pat` does not occur, removing it changes nothing. */
  lemma {:induction false} RemoveAllAbsent(s: string, pat: string)
    requires pat != [] && !Occurs(pat, s)
    ensures RemoveAll(s, pat) == s
    decreases |s|
  {
    if |s| >= |pat| {
      assert s[0..0 + |pat|] == s[..|pat|];
      assert !MatchAt(pat, s, 0);
      if Occurs(pat, s[1..]) {
        var i :| 0 <= i <= |s[1..]| && MatchAt(pat, s[1..], i);
        assert s[i + 1..i + 1 + |pat|] == s[1..][i..i + |pat|];
        assert MatchAt(pat, s, i + 1);
      }
      RemoveAllAbsent(s[1..], pat);
      assert [s[0]] + s[1..] == s;
    }
  }

  /** Removing a single character drops exactly the copies of that character. */
  lemma {:induction false} RemoveCharacter(s: string, c: char)
    ensures RemoveAll(s, [c]) == Without(s, c)
    decreases |s|
  {
    if |s| > 0 {
      RemoveCharacter(s[1..], c);
      if s[..1] == [c] {
        assert s[0] == c;
      } else {
        assert s[0] != c;
      }
    }
  }

  lemma {:induction false} WithoutAppend(a: string, b: string, c: char)
    ensures Without(a + b, c) == Without(a, c) + Without(b, c)
    decreases |a|
  {
    if |a| > 0 {
      assert (a + b)[1..] == a[1..] + b;
      WithoutAppend(a[1..], b, c);
    } else {
      assert a + b == b;
    }
  }

  /** A string without `c` is its own `Without`. */
  lemma {:induction false} WithoutAbsent(s: string, c: char)
    requires c !in s
    ensures Without(s, c) == s
    decreases |s|
  {
    if |s| > 0 {
      WithoutAbsent(s[1..], c);
      assert [s[0]] + s[1..] == s;
    }
  }

  /** The prefix ends in a space, so appending `;` to a text that lacks it never makes it occur. */
  lemma PrefixNotCreated(body: string)
    requires !Occurs(Prefix, body)
    ensures !Occurs(Prefix, body + ";")
  {
    var s := body + ";";
    forall i | 0 <= i && i + |Prefix| <= |s|
      ensures !MatchAt(Prefix, s, i)
    {
      if i + |Prefix| <= |body| {
        assert body[i..i + |Prefix|] == s[i..i + |Prefix|];
        assert !MatchAt(Prefix, body, i);
      } else {
        assert s[i..i + |Prefix|][|Prefix| - 1] == s[|s| - 1] == ';';
      }
    }
  }

  // ---------------------------------------------------------------------------
  // What the parsers' unwrapping does to a payload

  /** Whatever the script holds, the text handed to the JSON decoder contains no `;`. */
  lemma UnwrapHasNoSemicolon(script: string)
    ensures ';' !in Unwrap(script)
  {
    RemoveCharacter(RemoveAll(script, Prefix), ';');
  }

  /**
   * On a script `window.data = body;` whose body does not itself contain the
   * prefix, the extracted text is the body with every `;` deleted, including
   * the ones inside JSON strings.
   */
  lemma UnwrapDeletesSemicolons(body: string)
    requires !Occurs(Prefix, body)
    ensures Unwrap(Prefix + body + ";") == Without(body, ';')
  {
    var script := Prefix + body + ";";
    assert script[..|Prefix|] == Prefix;
    assert script[|Prefix|..] == body + ";";
    PrefixNotCreated(body);
    RemoveAllAbsent(body + ";", Prefix);
    RemoveCharacter(body + ";", ';');
    WithoutAppend(body, ";", ';');
    assert Without(";", ';') == [];
  }

  /** The extracted text is the body exactly when the body contains no `;`. */
  lemma UnwrapFaithfulIff(body: string)
    requires !Occurs(Prefix, body)
    ensures Unwrap(Prefix + body + ";") == body <==> ';' !in body
  {
    UnwrapDeletesSemicolons(body);
    if ';' !in body {
      WithoutAbsent(body, ';');
    }
  }

  /** A payload consisting of the JSON string `";"` is read back as the empty string `""`. */
  lemma UnwrapCounterexample()
    ensures Unwrap(Prefix + "\";\"" + ";") == "\"\""
    ensures Unwrap(Prefix + "\";\"" + ";") != "\";\""
  {
    var body := "\";\"";
    assert forall i :: !MatchAt(Prefix, body, i);
    UnwrapDeletesSemicolons(body);
    assert body == ['"'] + [';'] + ['"'];
    WithoutAppend(['"'] + [';'], ['"'], ';');
    WithoutAppend(['"'], [';'], ';');
  }

  // ---------------------------------------------------------------------------
  // The intended unwrapping

  /** The intended unwrapping returns the body of `window.data = body;`, whatever the body holds. */
  lemma UnwrapIntendedRoundTrip(body: string)
    ensures UnwrapIntended(Prefix + body + ";") == body
  {
    var script := Prefix + body + ";";
    assert script[..|Prefix|] == Prefix;
    assert script[|Prefix|..] == body + ";";
    assert (body + ";")[..|body|] == body;
  }

  /** On bodies without `;` or the prefix, the code as written and the intended unwrapping agree. */
  lemma UnwrapAgreesWithoutSemicolons(body: string)
    requires !Occurs(Prefix, body) && ';' !in body
    ensures Unwrap(Prefix + body + ";") == UnwrapIntended(Prefix + body + ";")
  {
    UnwrapFaithfulIff(body);
    UnwrapIntendedRoundTrip(body);
  }
}
