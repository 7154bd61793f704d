/** Upper-casing of domain names, restricted to ASCII letters. */
module Text {

  predicate IsAsciiLower(c: char) { 'a' <= c <= 'z' }

  predicate IsAsciiUpper(c: char) { 'A' <= c <= 'Z' }

  /** The upper-case form of one character: ASCII lower-case letters move to
      upper case, every other character is left alone. */
  function UpperChar(c: char): (u: char)
    ensures !IsAsciiLower(u)
  {
    if IsAsciiLower(c) then (c as int - 32) as char else c
  }

  /** `String.uppercased()`, for ASCII, character by character. */
  function Upper(s: string): (r: string)
    ensures |r| == |s|
    ensures forall i :: 0 <= i < |r| ==> !IsAsciiLower(r[i])
  {
    seq(|s|, i requires 0 <= i < |s| => UpperChar(s[i]))
  }

  /** The upper-case form of a letter is its upper-case counterpart, and every
      character that is not a lower-case letter is kept. */
  lemma UpperCharCases(c: char)
    ensures IsAsciiLower(c) ==> IsAsciiUpper(UpperChar(c)) && UpperChar(c) as int + 32 == c as int
    ensures !IsAsciiLower(c) ==> UpperChar(c) == c
  {
  }

  /** Two names that differ only in the case of their ASCII letters give the
      same upper-case form, so the casing used at registration does not matter. */
  lemma UpperIgnoresCase(s: string, t: string)
    requires |s| == |t|
    requires forall i :: 0 <= i < |s| ==> s[i] == t[i] || UpperChar(s[i]) == t[i] || s[i] == UpperChar(t[i])
    ensures Upper(s) == Upper(t)
  {
    forall i | 0 <= i < |s|
      ensures Upper(s)[i] == Upper(t)[i]
    {
      assert UpperChar(UpperChar(s[i])) == UpperChar(s[i]);
      assert UpperChar(UpperChar(t[i])) == UpperChar(t[i]);
    }
  }
}
