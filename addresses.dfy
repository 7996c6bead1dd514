/** Wallet addresses are compared with `toLowerCase()` on both sides. */
module Addresses {

  function LowerChar(c: char): char {
    if 'A' <= c <= 'Z' then (c as int + 32) as char else c
  }

  predicate IsUpper(c: char) {
    'A' <= c <= 'Z'
  }

  /** The two characters are equal, or are the upper- and lower-case forms of one ASCII letter. */
  predicate SameLetter(c: char, d: char) {
    c == d || (IsUpper(c) && d as int == c as int + 32) || (IsUpper(d) && c as int == d as int + 32)
  }

  /** `String.prototype.toLowerCase` on the ASCII letters that hexadecimal addresses use: no
      upper-case letter is left, and each character is the same letter as before. */
  function ToLower(s: string): (r: string)
    ensures |r| == |s|
    ensures forall i :: 0 <= i < |r| ==> !IsUpper(r[i])
    ensures forall i :: 0 <= i < |s| ==> SameLetter(s[i], r[i])
  {
    seq(|s|, i requires 0 <= i < |s| => LowerChar(s[i]))
  }

  /** `a.toLowerCase() === b.toLowerCase()`. */
  predicate SameAddress(a: string, b: string) {
    ToLower(a) == ToLower(b)
  }

  /** Lowering an address changes nothing a second time, so an address matches its lowered form. */
  lemma MatchesLowered(a: string)
    ensures ToLower(ToLower(a)) == ToLower(a)
    ensures SameAddress(a, ToLower(a))
  {
    assert ToLower(ToLower(a)) == ToLower(a);
  }

  /** Two addresses match exactly when they have the same length and, position by position, hold
      the same character or the two cases of one letter. */
  lemma {:induction false} SameAddressIgnoresCase(a: string, b: string)
    ensures SameAddress(a, b) <==> |a| == |b| && forall i :: 0 <= i < |a| ==> SameLetter(a[i], b[i])
  {
    if |a| == |b| && forall i :: 0 <= i < |a| ==> SameLetter(a[i], b[i]) {
      forall i | 0 <= i < |a|
        ensures ToLower(a)[i] == ToLower(b)[i]
      {
        assert ToLower(a)[i] == LowerChar(a[i]) && ToLower(b)[i] == LowerChar(b[i]);
      }
    }
    if SameAddress(a, b) {
      forall i | 0 <= i < |a|
        ensures SameLetter(a[i], b[i])
      {
        assert LowerChar(a[i]) == ToLower(a)[i] == ToLower(b)[i] == LowerChar(b[i]);
      }
    }
  }
}
