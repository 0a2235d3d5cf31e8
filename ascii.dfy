/** `String.prototype.toUpperCase`, restricted to the ASCII letters. */
module Ascii {

  predicate IsLower(c: char)
  {
    'a' <= c <= 'z'
  }

  /** The upper-case form of one character: `a`..`z` move to `A`..`Z`, everything else is kept. */
  function UpperChar(c: char): (u: char)
    ensures !IsLower(u)
    ensures IsLower(c) ==> 'A' <= u <= 'Z' && u as int == c as int - 32
    ensures !IsLower(c) ==> u == c
  {
    if IsLower(c) then (c as int - 32) as char else c
  }

  /** `s.toUpperCase()`, character by character. */
  function ToUpper(s: string): (r: string)
    ensures |r| == |s|
  {
    if s == [] then [] else [UpperChar(s[0])] + ToUpper(s[1..])
  }

  /** Uppercasing keeps the length and maps every position on its own. */
  lemma {:induction false} ToUpperAt(s: string, i: nat)
    requires i < |s|
    ensures |ToUpper(s)| == |s|
    ensures ToUpper(s)[i] == UpperChar(s[i])
    decreases |s|
  {
    if i > 0 {
      ToUpperAt(s[1..], i - 1);
    } else if |s| > 1 {
      ToUpperAt(s[1..], 0);
    }
  }

  /** The reply to a message has exactly the message's length, and holds no lower-case letter. */
  lemma {:induction false} ToUpperShape(s: string)
    ensures |ToUpper(s)| == |s|
    ensures forall i :: 0 <= i < |s| ==> ToUpper(s)[i] == UpperChar(s[i]) && !IsLower(ToUpper(s)[i])
  {
    if |s| > 0 {
      ToUpperAt(s, 0);
    }
    forall i | 0 <= i < |s|
      ensures ToUpper(s)[i] == UpperChar(s[i])
    {
      ToUpperAt(s, i);
    }
  }

  /** Uppercasing an uppercased text changes nothing. */
  lemma {:induction false} ToUpperIdempotent(s: string)
    ensures ToUpper(ToUpper(s)) == ToUpper(s)
  {
    var u := ToUpper(s);
    ToUpperShape(s);
    ToUpperShape(u);
  }
}
