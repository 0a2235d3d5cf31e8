/**
 * How the listener frames a datagram's text: JavaScript's `split(' ')` and
 * `join(' ')` on the single space character, and the command / payload view
 * they produce together.
 */
module Framing {

  /** The only separator: the single space character (tabs and other whitespace are ordinary characters). */
  const Space: char := ' '

  /** `s.split(' ')`: the maximal space-free pieces of `s`; there is always at least one. */
  function Split(s: string): (parts: seq<string>)
    ensures |parts| >= 1
    ensures forall i :: 0 <= i < |parts| ==> Space !in parts[i]
    decreases |s|
  {
    if |s| == 0 then [""]
    else
      var rest := Split(s[1..]);
      if s[0] == Space then [""] + rest
      else [[s[0]] + rest[0]] + rest[1..]
  }

  /** `parts.join(' ')`; the join of no parts is the empty string. */
  function Join(parts: seq<string>): (s: string)
    ensures |parts| >= 1 ==> parts[0] <= s
    ensures |parts| >= 2 ==> |s| > |parts[0]| && s[|parts[0]|] == Space
  {
    if |parts| == 0 then ""
    else if |parts| == 1 then parts[0]
    else parts[0] + [Space] + Join(parts[1..])
  }

  /** The index of the first space in `s`, or `|s|` when there is none. */
  function SpaceIndex(s: string): (i: nat)
    ensures i <= |s|
    ensures i < |s| ==> s[i] == Space
    ensures Space !in s[..i]
  {
    if |s| == 0 then 0
    else if s[0] == Space then 0
    else 1 + SpaceIndex(s[1..])
  }

  /** The command token: the text before the first space, all of `t` when it has none. */
  function Command(t: string): string
  {
    t[..SpaceIndex(t)]
  }

  /** The payload: the text after the first space, empty when there is none. */
  function Payload(t: string): string
  {
    if SpaceIndex(t) < |t| then t[SpaceIndex(t) + 1..] else ""
  }

  /** Command and payload partition the text around its first space; the command never holds a space. */
  lemma {:induction false} CommandPayloadPartition(t: string)
    ensures Space !in Command(t)
    ensures SpaceIndex(t) < |t| ==> t == Command(t) + [Space] + Payload(t)
    ensures SpaceIndex(t) == |t| ==> t == Command(t) && Payload(t) == ""
  {
    var i := SpaceIndex(t);
    if i < |t| {
      assert Command(t) == t[..i] && Payload(t) == t[i + 1..];
      assert t == t[..i] + [t[i]] + t[i + 1..];
    } else {
      assert Command(t) == t[..|t|] == t;
    }
  }

  /** Joining a list whose head has been extended by a prefix extends the join by that prefix. */
  lemma {:induction false} JoinExtendsHead(x: string, parts: seq<string>)
    requires |parts| >= 1
    ensures Join([x + parts[0]] + parts[1..]) == x + Join(parts)
  {
    var q := [x + parts[0]] + parts[1..];
    assert q[1..] == parts[1..];
    if |parts| > 1 {
      assert Join(q) == q[0] + [Space] + Join(q[1..]);
      assert Join(parts) == parts[0] + [Space] + Join(parts[1..]);
    }
  }

  /** Round trip: `s.split(' ').join(' ')` is `s` itself, so no space is lost or added. */
  lemma {:induction false} JoinSplit(s: string)
    ensures Join(Split(s)) == s
    decreases |s|
  {
    if |s| > 0 {
      var rest := Split(s[1..]);
      JoinSplit(s[1..]);
      if s[0] == Space {
        var q := [""] + rest;
        assert q[1..] == rest;
        assert Join(q) == "" + [Space] + Join(rest);
        assert s == [s[0]] + s[1..];
      } else {
        JoinExtendsHead([s[0]], rest);
        assert s == [s[0]] + s[1..];
      }
    }
  }

  /** A space-free text is one piece. */
  lemma {:induction false} SplitNoSpace(w: string)
    requires Space !in w
    ensures Split(w) == [w]
    decreases |w|
  {
    if |w| > 0 {
      assert Space !in w[1..] by {
        forall k | 0 <= k < |w[1..]| ensures w[1..][k] != Space { assert w[1..][k] == w[k + 1]; }
      }
      SplitNoSpace(w[1..]);
      assert [w[0]] + w[1..] == w;
    }
  }

  /** A space-free word followed by a space splits off as the first piece. */
  lemma {:induction false} SplitWordThenSpace(w: string, s: string)
    requires Space !in w
    ensures Split(w + [Space] + s) == [w] + Split(s)
    decreases |w|
  {
    var t := w + [Space] + s;
    if |w| == 0 {
      assert t[0] == Space && t[1..] == s;
    } else {
      assert t[0] == w[0] && t[0] != Space;
      assert t[1..] == w[1..] + [Space] + s;
      assert Space !in w[1..] by {
        forall k | 0 <= k < |w[1..]| ensures w[1..][k] != Space { assert w[1..][k] == w[k + 1]; }
      }
      SplitWordThenSpace(w[1..], s);
      assert [w[0]] + w[1..] == w;
    }
  }

  /** Round trip the other way: space-free pieces survive `join(' ')` then `split(' ')`. */
  lemma {:induction false} SplitJoin(parts: seq<string>)
    requires |parts| >= 1
    requires forall i :: 0 <= i < |parts| ==> Space !in parts[i]
    ensures Split(Join(parts)) == parts
    decreases |parts|
  {
    if |parts| == 1 {
      SplitNoSpace(parts[0]);
    } else {
      SplitWordThenSpace(parts[0], Join(parts[1..]));
      SplitJoin(parts[1..]);
      assert [parts[0]] + parts[1..] == parts;
    }
  }

  /**
   * What the listener computes: the first piece of `t.split(' ')` is the command,
   * and the remaining pieces joined with `' '` are exactly the payload.
   */
  lemma {:induction false} SplitGivesCommandAndPayload(t: string)
    ensures Split(t)[0] == Command(t)
    ensures Join(Split(t)[1..]) == Payload(t)
  {
    var i := SpaceIndex(t);
    if i < |t| {
      assert t == t[..i] + [Space] + t[i + 1..];
      SplitWordThenSpace(t[..i], t[i + 1..]);
      assert Split(t)[1..] == Split(t[i + 1..]);
      JoinSplit(t[i + 1..]);
    } else {
      assert t[..i] == t;
      SplitNoSpace(t);
    }
  }

  /** Framing a word, one space and any payload gives back the word and the payload unchanged. */
  lemma {:induction false} FrameWordAndPayload(w: string, p: string)
    requires Space !in w
    ensures Command(w + [Space] + p) == w
    ensures Payload(w + [Space] + p) == p
  {
    var t := w + [Space] + p;
    SplitWordThenSpace(w, p);
    SplitGivesCommandAndPayload(t);
    JoinSplit(p);
    assert Split(t)[1..] == Split(p);
  }
}
