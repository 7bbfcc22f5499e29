/**
 * The name normalisation `injectStyles` applies to property names before they
 * become `data-` attribute names in selectors: every space becomes `-`, then
 * the name is lower-cased. Lower-casing is modelled on ASCII letters.
 */
module CssNames {

  function LowerChar(c: char): (r: char)
    ensures 'A' <= c <= 'Z' ==> r as int == c as int + 32
    ensures !('A' <= c <= 'Z') ==> r == c
  {
    if 'A' <= c <= 'Z' then (c as int + 32) as char else c
  }

  /** `toLowerCase()`. */
  function ToLower(s: string): (r: string)
    ensures |r| == |s|
    ensures forall i :: 0 <= i < |s| ==> r[i] == LowerChar(s[i])
  {
    if |s| == 0 then "" else [LowerChar(s[0])] + ToLower(s[1..])
  }

  /** `replace(/ /g, "-")`. */
  function ReplaceSpaces(s: string): (r: string)
    ensures |r| == |s|
    ensures forall i :: 0 <= i < |s| ==> r[i] == if s[i] == ' ' then '-' else s[i]
  {
    if |s| == 0 then "" else [if s[0] == ' ' then '-' else s[0]] + ReplaceSpaces(s[1..])
  }

  /** `replace(/ /g, "-").toLowerCase()`. */
  function NormaliseName(s: string): (r: string)
    ensures |r| == |s|
  {
    ToLower(ReplaceSpaces(s))
  }

  /** A name without spaces or upper-case ASCII letters. */
  predicate Normalised(s: string) {
    forall i :: 0 <= i < |s| ==> s[i] != ' ' && !('A' <= s[i] <= 'Z')
  }

  /** Character by character: a space becomes `-`, an upper-case letter its lower-case form, anything else stays. */
  lemma NormaliseCharwise(s: string, i: int)
    requires 0 <= i < |s|
    ensures NormaliseName(s)[i] == if s[i] == ' ' then '-' else LowerChar(s[i])
  {
  }

  /** The result has no space and no upper-case letter, and a name that has neither is left alone. */
  lemma NormaliseNormalises(s: string)
    ensures Normalised(NormaliseName(s))
    ensures Normalised(s) ==> NormaliseName(s) == s
  {

  }

  /** Normalising twice is normalising once. */
  lemma NormaliseIdempotent(s: string)
    ensures NormaliseName(NormaliseName(s)) == NormaliseName(s)
  {

  }

  /** The two steps commute: lower-casing never makes or removes a space. */
  lemma ReplaceAndLowerCommute(s: string)
    ensures ReplaceSpaces(ToLower(s)) == ToLower(ReplaceSpaces(s))
  {

  }
}
