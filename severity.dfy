/**
 * Severity normalisation: `SeverityFromString` compares the lower-cased
 * severity word of an issue against the four protocol severities.
 */
module Severities {
  import opened Protocol

  /**
   * The lower case of one character, for every character whose lower case is
   * ASCII: 'A'..'Z', U+0130 (dotted capital I, lower case 'i') and U+212A
   * (Kelvin sign, lower case 'k'). Any other character is kept; its lower case
   * is not ASCII, so it can never complete one of the ASCII keywords below.
   */
  function LowerChar(c: char): (d: char)
    ensures 'a' <= d <= 'z' && d != c ==> 'A' <= c <= 'Z' || c == '\U{0130}' || c == '\U{212A}'
    ensures 'A' <= c <= 'Z' ==> d as int == c as int + 32
  {
    if 'A' <= c <= 'Z' then (c as int + 32) as char
    else if c == '\U{0130}' then 'i'
    else if c == '\U{212A}' then 'k'
    else c
  }

  /** strings.ToLower, character by character. */
  function Lower(s: string): (r: string)
    ensures |r| == |s|
    ensures forall i :: 0 <= i < |s| ==> r[i] == LowerChar(s[i])
  {
    if s == [] then [] else [LowerChar(s[0])] + Lower(s[1..])
  }

  /** handler.go SeverityFromString: a switch on the lower-cased word, Warning by default. */
  function SeverityFromString(severity: string): (sev: Severity)
    ensures sev == Error <==> Lower(severity) == "error"
    ensures sev == Information <==> Lower(severity) == "information"
    ensures sev == Hint <==> Lower(severity) == "hint"
    ensures sev == Warning <==> Lower(severity) !in {"error", "information", "hint"}
  {
    match Lower(severity)
    case "error" => Error
    case "warning" => Warning
    case "information" => Information
    case "hint" => Hint
    case _ => Warning
  }

  /** `s` spells `word` (a lower-case ASCII word) with any mix of upper- and lower-case letters. */
  predicate SpellsInAnyCase(s: string, word: string) {
    && |s| == |word|
    && forall i :: 0 <= i < |s| ==> s[i] == word[i] || s[i] as int == word[i] as int - 32
  }

  predicate IsLowerAsciiWord(word: string) {
    forall i :: 0 <= i < |word| ==> 'a' <= word[i] <= 'z'
  }

  /** Lower-casing any case variant of a lower-case ASCII word gives the word back. */
  lemma {:induction false} LowerOfCaseVariant(s: string, word: string)
    requires IsLowerAsciiWord(word) && SpellsInAnyCase(s, word)
    ensures Lower(s) == word
  {
    forall i | 0 <= i < |s|
      ensures Lower(s)[i] == word[i]
    {
      if s[i] != word[i] {
        assert 'A' <= s[i] <= 'Z';
      }
    }
  }

  /** The four severity words are recognised in any case. */
  lemma SeverityIgnoresCase(s: string)
    ensures SpellsInAnyCase(s, "error") ==> SeverityFromString(s) == Error
    ensures SpellsInAnyCase(s, "warning") ==> SeverityFromString(s) == Warning
    ensures SpellsInAnyCase(s, "information") ==> SeverityFromString(s) == Information
    ensures SpellsInAnyCase(s, "hint") ==> SeverityFromString(s) == Hint
  {
    if SpellsInAnyCase(s, "error") { LowerOfCaseVariant(s, "error"); }
    if SpellsInAnyCase(s, "warning") { LowerOfCaseVariant(s, "warning"); }
    if SpellsInAnyCase(s, "information") { LowerOfCaseVariant(s, "information"); }
    if SpellsInAnyCase(s, "hint") { LowerOfCaseVariant(s, "hint"); }
  }

  /** Unrecognised words fall back to Warning, never to Error. */
  lemma UnknownSeverityIsWarning(s: string)
    requires Lower(s) !in {"error", "warning", "information", "hint"}
    ensures SeverityFromString(s) == Warning
  {
  }

  /** An issue without a severity gets Warning. */
  lemma EmptySeverityIsWarning()
    ensures SeverityFromString("") == Warning
  {
    UnknownSeverityIsWarning("");
  }

  /** Two spellings that lower-case alike get the same severity. */
  lemma SeverityDependsOnlyOnLowerCase(s: string, t: string)
    requires Lower(s) == Lower(t)
    ensures SeverityFromString(s) == SeverityFromString(t)
  {
  }
}
