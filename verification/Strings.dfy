/** A value that may be absent: a null argument, a missing file, an invalid handle. */
module Options {
  datatype Option<+T> = None | Some(value: T)
}

/** Lists of lists. */
module Lists {

  /** One list after the other. */
  function Concat<T>(parts: seq<seq<T>>): seq<T> {
    if parts == [] then [] else parts[0] + Concat(parts[1..])
  }

  lemma ConcatCons<T>(a: seq<T>, rest: seq<seq<T>>)
    ensures Concat([a] + rest) == a + Concat(rest)
  {
    assert ([a] + rest)[1..] == rest;
  }

  lemma ConcatOne<T>(a: seq<T>)
    ensures Concat([a]) == a
  {
    ConcatCons(a, []);
    assert [a] + [] == [a];
  }

  lemma {:induction false} ConcatJoins<T>(a: seq<seq<T>>, b: seq<seq<T>>)
    ensures Concat(a + b) == Concat(a) + Concat(b)
  {
    if a == [] {
      assert a + b == b;
    } else {
      assert (a + b)[1..] == a[1..] + b;
      ConcatJoins(a[1..], b);
    }
  }

  lemma ConcatSnoc<T>(front: seq<seq<T>>, last: seq<T>)
    ensures Concat(front + [last]) == Concat(front) + last
  {
    ConcatJoins(front, [last]);
    ConcatOne(last);
  }
}

/** Searching, cutting and joining strings: the vocabulary shared by the proxy parser and the installer data. */
module Strings {

  /** Position of the first `c` in `s`, or |s| (the terminator) when there is none. */
  function IndexOf(s: string, c: char): (i: nat)
    ensures i <= |s|
    ensures c !in s[..i]
    ensures i < |s| ==> s[i] == c
  {
    if s == "" || s[0] == c then 0 else 1 + IndexOf(s[1..], c)
  }

  lemma IndexOfUnique(s: string, c: char, i: nat)
    requires i <= |s| && c !in s[..i] && (i < |s| ==> s[i] == c)
    ensures IndexOf(s, c) == i
  {
    var j := IndexOf(s, c);
    assert forall k :: 0 <= k < i ==> s[..i][k] == s[k];
    assert forall k :: 0 <= k < j ==> s[..j][k] == s[k];
  }

  lemma IndexOfIs(s: string, c: char, i: nat)
    requires i < |s| && s[i] == c && forall k | 0 <= k < i :: s[k] != c
    ensures IndexOf(s, c) == i
  {
    var j := IndexOf(s, c);
    assert forall k | 0 <= k < j :: s[..j][k] == s[k];
  }

  lemma IndexOfPresent(s: string, c: char)
    requires c in s
    ensures IndexOf(s, c) < |s|
  {
    assert s[..|s|] == s;
  }

  lemma DropTake(s: string, from: nat, to: nat)
    requires from <= to <= |s|
    ensures s[from..][..to - from] == s[from..to]
  {
  }

  lemma DropDrop(s: string, from: nat, to: nat)
    requires from <= to <= |s|
    ensures s[from..][to - from..] == s[to..]
  {
  }

  function Count(s: string, c: char): nat {
    if s == "" then 0 else (if s[0] == c then 1 else 0) + Count(s[1..], c)
  }

  lemma {:induction false} CountConcat(a: string, b: string, c: char)
    ensures Count(a + b, c) == Count(a, c) + Count(b, c)
  {
    if a == "" {
      assert a + b == b;
    } else {
      assert (a + b)[1..] == a[1..] + b;
      CountConcat(a[1..], b, c);
    }
  }

  lemma CountFree(s: string, c: char)
    requires c !in s
    ensures Count(s, c) == 0
  {
  }

  lemma CountFromFirst(s: string, c: char)
    requires c in s
    ensures Count(s, c) == 1 + Count(s[IndexOf(s, c) + 1..], c)
  {
    var i := IndexOf(s, c);
    assert s == s[..i] + ([c] + s[i + 1..]);
    CountConcat(s[..i], [c] + s[i + 1..], c);
    CountFree(s[..i], c);
    assert ([c] + s[i + 1..])[1..] == s[i + 1..];
  }

  /** Every maximal run between two separators, empty runs included. */
  function Cut(s: string, c: char): (r: seq<string>)
    ensures |r| >= 1
    decreases |s|
  {
    var i := IndexOf(s, c);
    if i == |s| then [s] else [s[..i]] + Cut(s[i + 1..], c)
  }

  lemma CutUnfold(s: string, c: char)
    requires c in s
    ensures IndexOf(s, c) < |s| && Cut(s, c) == [s[..IndexOf(s, c)]] + Cut(s[IndexOf(s, c) + 1..], c)
  {
    assert IndexOf(s, c) < |s| by { IndexOfPresent(s, c); }
  }

  function Join(parts: seq<string>, c: char): string {
    if parts == [] then ""
    else if |parts| == 1 then parts[0]
    else parts[0] + [c] + Join(parts[1..], c)
  }

  lemma JoinCons(a: string, rest: seq<string>, c: char)
    requires rest != []
    ensures Join([a] + rest, c) == a + [c] + Join(rest, c)
  {
    assert ([a] + rest)[1..] == rest;
  }

  lemma SplitAt(s: string, i: nat)
    requires i < |s|
    ensures s == s[..i] + [s[i]] + s[i + 1..]
  {
  }

  /** Cutting loses nothing. */
  lemma {:induction false} JoinCut(s: string, c: char)
    ensures Join(Cut(s, c), c) == s
    decreases |s|
  {
    var i := IndexOf(s, c);
    if i < |s| {
      JoinCut(s[i + 1..], c);
      JoinCons(s[..i], Cut(s[i + 1..], c), c);
      SplitAt(s, i);
    }
  }

  /** There is one piece more than there are separators, and no piece holds one. */
  lemma {:induction false} CutCount(s: string, c: char)
    ensures |Cut(s, c)| == 1 + Count(s, c)
    ensures forall piece <- Cut(s, c) :: c !in piece
    decreases |s|
  {
    var i := IndexOf(s, c);
    if i == |s| {
      assert s[..i] == s;
      CountFree(s, c);
    } else {
      var tail := s[i + 1..];
      CutCount(tail, c);
      CountFree(s[..i], c);
      assert s == s[..i] + ([c] + tail);
      CountConcat(s[..i], [c] + tail, c);
      assert ([c] + tail)[1..] == tail;
    }
  }

  lemma CutStep(a: string, b: string, c: char)
    requires c !in a
    ensures Cut(a + [c] + b, c) == [a] + Cut(b, c)
  {
    var s := a + [c] + b;
    assert s[..|a|] == a && s[|a| + 1..] == b;
    IndexOfUnique(s, c, |a|);
  }

  lemma CutFree(a: string, c: char)
    requires c !in a
    ensures Cut(a, c) == [a]
  {
    assert a[..|a|] == a;
    IndexOfUnique(a, c, |a|);
  }

  /** Joining separator-free parts and cutting again gives the parts back. */
  lemma {:induction false} CutJoin(parts: seq<string>, c: char)
    requires parts != []
    requires forall k :: 0 <= k < |parts| ==> c !in parts[k]
    ensures Cut(Join(parts, c), c) == parts
  {
    if |parts| == 1 {
      CutFree(parts[0], c);
    } else {
      CutJoin(parts[1..], c);
      CutStep(parts[0], Join(parts[1..], c), c);
    }
  }

  lemma {:induction false} JoinFree(parts: seq<string>, sep: char, c: char)
    requires c != sep
    requires forall k :: 0 <= k < |parts| ==> c !in parts[k]
    ensures c !in Join(parts, sep)
  {
    if |parts| > 1 {
      JoinFree(parts[1..], sep, c);
    }
  }
}
