/** Slugs: the identifiers in request URLs, their required shape
    (`ValidSlug::PATTERN`, `\A[a-z\d][a-z\d-]*[a-z\d]\z`) and the
    lower-casing that path computation applies to them. */
module Slugs {

  predicate IsLowerAlnum(c: char) {
    'a' <= c <= 'z' || '0' <= c <= '9'
  }

  predicate IsSlugChar(c: char) {
    IsLowerAlnum(c) || c == '-'
  }

  /** The shape the pattern admits, written with character classes: at least
      two characters, all of them lower-case letters, digits or hyphens, and
      the first and last not a hyphen. */
  predicate IsSlug(s: string) {
    |s| >= 2 && IsLowerAlnum(s[0]) && IsLowerAlnum(s[|s| - 1]) &&
    forall i :: 0 <= i < |s| ==> IsSlugChar(s[i])
  }

  /** States of a deterministic automaton for the pattern, independent of
      `IsSlug`: nothing read yet, one leading character read, last read a
      letter or digit, last read a hyphen, or rejected. */
  datatype MatchState = Start | Leading | AfterAlnum | AfterHyphen | Rejected

  function Step(st: MatchState, c: char): MatchState {
    match st
    case Start => if IsLowerAlnum(c) then Leading else Rejected
    case Leading | AfterAlnum | AfterHyphen =>
      if IsLowerAlnum(c) then AfterAlnum else if c == '-' then AfterHyphen else Rejected
    case Rejected => Rejected
  }

  /** The state after reading all of `s`, left to right. */
  function Run(s: string): MatchState {
    if s == [] then Start else Step(Run(s[..|s| - 1]), s[|s| - 1])
  }

  /** `s =~ ValidSlug::PATTERN`: the automaton ends in its accepting state. */
  predicate Matches(s: string) {
    Run(s) == AfterAlnum
  }

  /** What each state of the automaton means about the text read so far. */
  lemma {:induction false} RunMeaning(s: string)
    ensures Run(s) == Start <==> s == []
    ensures Run(s) == Leading <==> |s| == 1 && IsLowerAlnum(s[0])
    ensures Run(s) == AfterAlnum <==> IsSlug(s)
    ensures Run(s) == AfterHyphen <==>
      |s| >= 2 && IsLowerAlnum(s[0]) && s[|s| - 1] == '-' &&
      forall i :: 0 <= i < |s| ==> IsSlugChar(s[i])
  {
    if s != [] {
      var p := s[..|s| - 1];
      RunMeaning(p);
      assert forall i :: 0 <= i < |p| ==> p[i] == s[i];
      if |s| >= 2 {
        assert s[0] == p[0];
      }
    }
  }

  /** The character-class predicate accepts exactly the pattern's language. */
  lemma MatchesIffSlug(s: string)
    ensures Matches(s) <==> IsSlug(s)
  {
    RunMeaning(s);
  }

  /** `String#downcase` on one character (ASCII letters only). */
  function LowerChar(c: char): char {
    if 'A' <= c <= 'Z' then (c as int + 32) as char else c
  }

  /** `String#downcase`: every character lower-cased, in place. */
  function Lower(s: string): (r: string)
    ensures |r| == |s|
    ensures forall i :: 0 <= i < |s| ==> r[i] == LowerChar(s[i])
  {
    if s == [] then [] else [LowerChar(s[0])] + Lower(s[1..])
  }

  lemma LowerIdempotent(s: string)
    ensures Lower(Lower(s)) == Lower(s)
  {
    assert forall i :: 0 <= i < |s| ==> Lower(Lower(s))[i] == Lower(s)[i];
  }

  /** A slug that passes validation is already lower-case, so lower-casing
      it for a path changes nothing. */
  lemma SlugIsLower(s: string)
    requires IsSlug(s)
    ensures Lower(s) == s
  {
    assert forall i :: 0 <= i < |s| ==> Lower(s)[i] == s[i];
  }

  /** Lower-casing never creates or removes a path separator. */
  lemma LowerKeepsSeparators(s: string)
    ensures forall i :: 0 <= i < |s| ==> (Lower(s)[i] == '/' <==> s[i] == '/')
  {
  }

  /** The text `Regexp#to_s` gives for the pattern. */
  const PatternSource := "(?-mix:\\A[a-z\\d][a-z\\d-]*[a-z\\d]\\z)"

  /** The `message:` option of the format validation. */
  const PatternMessage := "should match the pattern: " + PatternSource

  /** The full messages the format validation adds for one attribute:
      none for a slug, and otherwise one, prefixed with the attribute's
      human name. */
  function FormatErrors(attribute: string, value: string): (r: seq<string>)
    ensures r == [] <==> IsSlug(value)
    ensures r != [] ==> r == [attribute + " " + PatternMessage]
  {
    if IsSlug(value) then [] else [attribute + " " + PatternMessage]
  }
}
