/** Characters and strings as the request parser sees them. */
module Text {

  /** The whitespace characters: those that trim() removes and the `\s` class matches. */
  predicate IsSpace(c: char) {
    c == ' ' || c == '\t' || c == '\n' || c == '\r' || c == '\U{000B}' || c == '\U{000C}'
  }

  /** Lower-casing of one character (ASCII letters only). */
  function LowerChar(c: char): (d: char)
    ensures ('A' <= c <= 'Z') ==> 'a' <= d <= 'z' && d as int == c as int - 'A' as int + 'a' as int
    ensures !('A' <= c <= 'Z') ==> d == c
  {
    if 'A' <= c <= 'Z' then (c as int - 'A' as int + 'a' as int) as char else c
  }

  /** Lower-casing of a string, character by character, as String.toLowerCase. */
  function ToLower(s: string): (r: string)
    ensures |r| == |s|
  {
    if s == [] then [] else [LowerChar(s[0])] + ToLower(s[1..])
  }

  /** No ASCII capital letter. */
  predicate IsLower(s: string) {
    forall i :: 0 <= i < |s| ==> !('A' <= s[i] <= 'Z')
  }

  /** Each character of the lower-cased string is its original, lower-cased. */
  lemma {:induction false} ToLowerAt(s: string, i: nat)
    requires i < |s|
    ensures ToLower(s)[i] == LowerChar(s[i])
    decreases i
  {
    if i > 0 {
      ToLowerAt(s[1..], i - 1);
    }
  }

  /** The lower-cased string has no capital letter, and whitespace stays where it was. */
  lemma ToLowerSpec(s: string)
    ensures IsLower(ToLower(s))
    ensures forall i :: 0 <= i < |s| ==> (IsSpace(ToLower(s)[i]) <==> IsSpace(s[i]))
  {
    forall i | 0 <= i < |s|
      ensures !('A' <= ToLower(s)[i] <= 'Z') && (IsSpace(ToLower(s)[i]) <==> IsSpace(s[i]))
    {
      ToLowerAt(s, i);
    }
  }

  /** A string without capitals is its own lower-case form. */
  lemma {:induction false} ToLowerOfLower(s: string)
    requires IsLower(s)
    ensures ToLower(s) == s
    decreases |s|
  {
    if s != [] {
      assert IsLower(s[1..]) by {
        forall i | 0 <= i < |s| - 1 ensures !('A' <= s[1..][i] <= 'Z') {
          assert s[1..][i] == s[i + 1];
        }
      }
      ToLowerOfLower(s[1..]);
      assert s == [s[0]] + s[1..];
    }
  }

  /** Lower-casing twice is lower-casing once: keys stored lower-cased are found again. */
  lemma ToLowerIdempotent(s: string)
    ensures ToLower(ToLower(s)) == ToLower(s)
  {
    ToLowerSpec(s);
    ToLowerOfLower(ToLower(s));
  }
}
