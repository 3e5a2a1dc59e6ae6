/**
 * Character and string helpers the C# code takes from the .NET library:
 * `char.ToUpper`, `char.ToLower`, `string.ToUpper`, `string.ToLower` and
 * `StringComparison.OrdinalIgnoreCase`. Only the ASCII letters are mapped;
 * every other character is left as it is.
 */
module Text {

  predicate IsUpperLetter(c: char) { 'A' <= c <= 'Z' }
  predicate IsLowerLetter(c: char) { 'a' <= c <= 'z' }

  /** `char.ToUpper` on ASCII. */
  function Upper(c: char): (u: char)
    ensures !IsLowerLetter(u)
    ensures u == ' ' <==> c == ' '
  {
    if IsLowerLetter(c) then (c as int - 32) as char else c
  }

  /** `char.ToLower` on ASCII. */
  function Lower(c: char): (l: char)
    ensures !IsUpperLetter(l)
    ensures l == ' ' <==> c == ' '
  {
    if IsUpperLetter(c) then (c as int + 32) as char else c
  }

  /** `string.ToUpper`. */
  function UpperAll(s: string): (r: string)
    ensures |r| == |s|
  {
    seq(|s|, i requires 0 <= i < |s| => Upper(s[i]))
  }

  /** `string.ToLower`. */
  function LowerAll(s: string): (r: string)
    ensures |r| == |s|
  {
    seq(|s|, i requires 0 <= i < |s| => Lower(s[i]))
  }

  /** `a.Equals(b, StringComparison.OrdinalIgnoreCase)`. */
  predicate EqualsIgnoreCase(a: string, b: string)
  {
    UpperAll(a) == UpperAll(b)
  }

  /** A string containing a lower-case ASCII letter. */
  predicate HasLowerLetter(s: string)
  {
    exists i :: 0 <= i < |s| && IsLowerLetter(s[i])
  }

  /** A string with no upper-case ASCII letter, such as every CoinGecko id. */
  predicate NoUpperLetter(s: string)
  {
    forall i :: 0 <= i < |s| ==> !IsUpperLetter(s[i])
  }

  /** Lower-casing the upper-cased form gives back a string without capitals. */
  lemma LowerUpperRoundTrip(s: string)
    requires NoUpperLetter(s)
    ensures LowerAll(UpperAll(s)) == s
  {
    forall i | 0 <= i < |s|
      ensures LowerAll(UpperAll(s))[i] == s[i]
    {
      assert UpperAll(s)[i] == Upper(s[i]);
    }
  }

  /** Upper-casing is idempotent and never produces a lower-case letter. */
  lemma UpperAllIdempotent(s: string)
    ensures UpperAll(UpperAll(s)) == UpperAll(s)
    ensures forall i :: 0 <= i < |s| ==> !IsLowerLetter(UpperAll(s)[i])
  {
  }
}
