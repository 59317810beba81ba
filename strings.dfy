/** `String.prototype.split` and `Array.prototype.join` on a one-character
    separator, as the profile upsert uses them to turn the `skills` request
    field into a list. */
module StringSplit {
  import opened Common

  /** `String.prototype.split` on a one-character separator. */
  function Split(s: string, sep: char): (parts: seq<string>)
    ensures |parts| >= 1
    decreases |s|
  {
    var k := IndexOf(s, sep);
    if k < 0 then [s]
    else [s[..k]] + Split(s[k + 1..], sep)
  }

  /** `Array.prototype.join` with a one-character separator. */
  function Join(parts: seq<string>, sep: char): string {
    if |parts| == 0 then ""
    else if |parts| == 1 then parts[0]
    else parts[0] + [sep] + Join(parts[1..], sep)
  }

  lemma {:induction false} JoinCons(head: string, rest: seq<string>, sep: char)
    requires |rest| >= 1
    ensures Join([head] + rest, sep) == head + [sep] + Join(rest, sep)
  {
    assert ([head] + rest)[1..] == rest;
  }

  function Count(s: string, c: char): nat {
    if s == [] then 0 else (if s[0] == c then 1 else 0) + Count(s[1..], c)
  }

  lemma {:induction false} CountAppend(a: string, b: string, c: char)
    ensures Count(a + b, c) == Count(a, c) + Count(b, c)
  {
    if a == [] {
      assert a + b == b;
    } else {
      assert (a + b)[0] == a[0];
      assert (a + b)[1..] == a[1..] + b;
      CountAppend(a[1..], b, c);
    }
  }

  lemma {:induction false} CountAbsent(s: string, c: char)
    requires c !in s
    ensures Count(s, c) == 0
  {
    if s != [] {
      CountAbsent(s[1..], c);
    }
  }

  /** Joining the tokens of `s` gives `s` back. */
  predicate JoinsBack(s: string, sep: char) {
    Join(Split(s, sep), sep) == s
  }

  lemma {:induction false} JoinSplitWithoutSep(s: string, sep: char)
    requires IndexOf(s, sep) < 0
    ensures JoinsBack(s, sep)
  {
    assert Split(s, sep) == [s];
  }

  /** The inductive step of `JoinSplit`: the first token, the separator, and
      the join of the tokens of the rest. */
  lemma {:induction false} JoinSplitAtSep(s: string, sep: char)
    requires IndexOf(s, sep) >= 0
    requires JoinsBack(s[IndexOf(s, sep) + 1..], sep)
    ensures JoinsBack(s, sep)
  {
    var k := IndexOf(s, sep);
    var head, tail := s[..k], s[k + 1..];
    var rest := Split(tail, sep);
    assert Split(s, sep) == [head] + rest;
    JoinCons(head, rest, sep);
    assert head + [sep] + tail == s by { SplitAround(s, k); }
  }

  /** Joining the tokens with the separator gives back the string: the split
      neither trims nor drops empty tokens. */
  lemma {:induction false} JoinSplit(s: string, sep: char)
    ensures Join(Split(s, sep), sep) == s
  {
    JoinSplitAll(s, sep);
  }

  lemma {:induction false} JoinSplitAll(s: string, sep: char)
    ensures JoinsBack(s, sep)
    decreases |s|
  {
    var k := IndexOf(s, sep);
    if k < 0 {
      JoinSplitWithoutSep(s, sep);
    } else {
      JoinSplitAll(s[k + 1..], sep);
      JoinSplitAtSep(s, sep);
    }
  }

  /** There is one token more than there are separators. */
  lemma {:induction false} SplitCount(s: string, sep: char)
    ensures |Split(s, sep)| == Count(s, sep) + 1
    decreases |s|
  {
    var k := IndexOf(s, sep);
    if k < 0 {
      CountAbsent(s, sep);
    } else {
      SplitCount(s[k + 1..], sep);
      assert s == s[..k] + ([sep] + s[k + 1..]);
      CountAppend(s[..k], [sep] + s[k + 1..], sep);
      CountAbsent(s[..k], sep);
      assert ([sep] + s[k + 1..])[1..] == s[k + 1..];
    }
  }

  /** The inductive step of `SplitJoin`: the first separator of the join is
      the one after the first token. */
  lemma {:induction false} SplitJoinAtSep(parts: seq<string>, sep: char)
    requires |parts| > 1 && sep !in parts[0]
    requires Split(Join(parts[1..], sep), sep) == parts[1..]
    ensures Split(Join(parts, sep), sep) == parts
  {
    var s := Join(parts, sep);
    var k := |parts[0]|;
    JoinCons(parts[0], parts[1..], sep);
    assert [parts[0]] + parts[1..] == parts;
    IndexOfAfter(parts[0], sep, Join(parts[1..], sep));
    assert s[..k] == parts[0];
    assert s[k + 1..] == Join(parts[1..], sep);
  }

  /** Splitting a join of separator-free tokens gives the tokens back. */
  lemma {:induction false} SplitJoin(parts: seq<string>, sep: char)
    requires |parts| >= 1
    requires forall i :: 0 <= i < |parts| ==> sep !in parts[i]
    ensures Split(Join(parts, sep), sep) == parts
  {
    if |parts| > 1 {
      SplitJoin(parts[1..], sep);
      SplitJoinAtSep(parts, sep);
    }
  }
}
