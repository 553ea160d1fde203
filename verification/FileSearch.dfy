/** The wildcard search for files below a directory, over any finite answer of the directory listing. */
module FileSearch {
  import opened Options

  const NO_ERROR := 0
  const ERROR_NO_MORE_FILES := 18

  type Path = seq<string>

  datatype Entry = Entry(name: string, isDirectory: bool)

  /** FindFirstFileExW on one directory and one pattern, and the calls that follow it. */
  datatype Listing = NotFound(error: int) | Found(first: Entry, more: seq<Entry>, end: int)

  type Lister = (Path, string) -> Listing

  function EntriesOf(list: Lister, dir: Path, pattern: seq<string>): (es: seq<Entry>)
    ensures pattern == [] ==> es == []
  {
    if pattern == [] then []
    else
      var l := list(dir, pattern[0]);
      if l.NotFound? then [] else [l.first] + l.more
  }

  /** What one entry contributes: itself when it is a file, what is below it when it is a directory. */
  function EntryHits(list: Lister, dir: Path, e: Entry, rest: seq<string>): seq<Path>
    decreases |rest|, 1
  {
    if e.isDirectory then Hits(list, dir + [e.name], rest) else [dir + [e.name]]
  }

  function HitsOf(list: Lister, dir: Path, es: seq<Entry>, rest: seq<string>): seq<Path>
    decreases |rest|, 2 + |es|
  {
    if es == [] then [] else EntryHits(list, dir, es[0], rest) + HitsOf(list, dir, es[1..], rest)
  }

  /** The files a search appends. */
  function Hits(list: Lister, dir: Path, pattern: seq<string>): seq<Path>
    decreases |pattern|, 0
  {
    if pattern == [] then [] else HitsOf(list, dir, EntriesOf(list, dir, pattern), pattern[1..])
  }

  /**
   * WindowsUtilities::SearchFiles from the component at `begin`. The code is what ended the listing of the directory
   * itself, 18 (no more files) counting as success, whatever happened below.
   */
  method SearchFiles(list: Lister, searchPath: Path, pattern: seq<string>, begin: nat, results: seq<Path>)
    returns (error: int, found: seq<Path>)
    requires begin <= |pattern|
    ensures found == results + Hits(list, searchPath, pattern[begin..])
    ensures begin == |pattern| ==> error == 0
    ensures begin < |pattern| ==>
      var l := list(searchPath, pattern[begin]);
      error == if l.NotFound? then l.error else if l.end == 18 then 0 else l.end
    decreases |pattern| - begin
  {
    error, found := NO_ERROR, results;
    if begin == |pattern| {
      return;
    }
    ghost var rest := pattern[begin + 1..];
    assert pattern[begin..][1..] == rest;
    var listing := list(searchPath, pattern[begin]);
    if listing.NotFound? {
      return listing.error, found;
    }
    var data, i := listing.first, 0;
    ghost var unread := [listing.first] + listing.more;
    ghost var all := results + HitsOf(list, searchPath, unread, rest);
    while true
      invariant i <= |listing.more| && unread == [data] + listing.more[i..]
      invariant all == found + HitsOf(list, searchPath, unread, rest)
      decreases |listing.more| - i
    {
      if data.isDirectory {
        error, found := SearchFiles(list, searchPath + [data.name], pattern, begin + 1, found);
      } else {
        found := found + [searchPath + [data.name]];
      }
      unread := unread[1..];
      assert all == found + HitsOf(list, searchPath, unread, rest);
      if i == |listing.more| {
        break;
      }
      data, i := listing.more[i], i + 1;
    }
    error := if listing.end == ERROR_NO_MORE_FILES then NO_ERROR else listing.end;
  }

  /** The parts of the path below its root are the patterns; the search begins at the root. */
  method FileSearchWithWildCard(list: Lister, root: Path, relative: seq<string>, results: seq<Path>)
    returns (error: int, found: seq<Path>)
    ensures found == results + Hits(list, root, relative)
    ensures relative == [] ==> error == 0
    ensures relative != [] ==>
      var l := list(root, relative[0]);
      error == if l.NotFound? then l.error else if l.end == 18 then 0 else l.end
  {
    var searchList := [];
    for i := 0 to |relative|
      invariant searchList == relative[..i]
    {
      searchList := searchList + [relative[i]];
    }
    assert searchList[0..] == relative;
    error, found := SearchFiles(list, root, searchList, 0, results);
  }

  // ----- what is found, independently of how it is searched -----

  /** What a listing gives at a position: first what FindFirstFile found, then what each FindNextFile did. */
  function EntryAt(l: Listing, k: nat): Option<Entry> {
    if l.NotFound? then None
    else if k == 0 then Some(l.first)
    else if k <= |l.more| then Some(l.more[k - 1])
    else None
  }

  /** The file that a path of listing positions leads to: directories all the way, a regular file at its end. */
  function At(list: Lister, dir: Path, pattern: seq<string>, ix: seq<nat>): Option<Path>
    decreases |ix|
  {
    if ix == [] || pattern == [] then None
    else
      var e := EntryAt(list(dir, pattern[0]), ix[0]);
      if e.None? then None
      else if |ix| == 1 then if e.value.isDirectory then None else Some(dir + [e.value.name])
      else if e.value.isDirectory then At(list, dir + [e.value.name], pattern[1..], ix[1..])
      else None
  }

  /** The same by the entries that the search goes through. */
  lemma AtMeans(list: Lister, dir: Path, pattern: seq<string>, ix: seq<nat>)
    ensures var es := EntriesOf(list, dir, pattern);
      At(list, dir, pattern, ix) ==
      if ix == [] || ix[0] >= |es| then None
      else if |ix| == 1 then if es[ix[0]].isDirectory then None else Some(dir + [es[ix[0]].name])
      else if es[ix[0]].isDirectory then At(list, dir + [es[ix[0]].name], pattern[1..], ix[1..])
      else None
  {
    var es := EntriesOf(list, dir, pattern);
    if ix != [] && pattern != [] {
      var l := list(dir, pattern[0]);
      assert EntryAt(l, ix[0]) == if ix[0] < |es| then Some(es[ix[0]]) else None;
    }
  }

  /** Depth-first order of position paths. */
  predicate Precedes(a: seq<nat>, b: seq<nat>) {
    b != [] && (a == [] || a[0] < b[0] || (a[0] == b[0] && Precedes(a[1..], b[1..])))
  }

  ghost predicate Starts(ix: seq<nat>, from: nat, to: nat) {
    ix != [] && from <= ix[0] < to
  }

  /** `ranks` lists, once each and in depth-first order, all positions starting in a range; `hits` are their files. */
  ghost predicate Exact(list: Lister, dir: Path, pattern: seq<string>, from: nat, to: nat,
                        hits: seq<Path>, ranks: seq<seq<nat>>)
  {
    && |hits| == |ranks|
    && (forall k | 0 <= k < |ranks| :: Starts(ranks[k], from, to) && At(list, dir, pattern, ranks[k]) == Some(hits[k]))
    && (forall j, k | 0 <= j < k < |ranks| :: Precedes(ranks[j], ranks[k]))
    && (forall ix | Starts(ix, from, to) && At(list, dir, pattern, ix).Some? :: ix in ranks)
  }

  lemma OrderJoins(r1: seq<seq<nat>>, r2: seq<seq<nat>>, from: nat, mid: nat, to: nat)
    requires forall j, k | 0 <= j < k < |r1| :: Precedes(r1[j], r1[k])
    requires forall j, k | 0 <= j < k < |r2| :: Precedes(r2[j], r2[k])
    requires forall k | 0 <= k < |r1| :: Starts(r1[k], from, mid)
    requires forall k | 0 <= k < |r2| :: Starts(r2[k], mid, to)
    ensures forall j, k | 0 <= j < k < |r1| + |r2| :: Precedes((r1 + r2)[j], (r1 + r2)[k])
  {
    forall j, k | 0 <= j < k < |r1| + |r2| ensures Precedes((r1 + r2)[j], (r1 + r2)[k]) {
      if k < |r1| {
        assert Precedes(r1[j], r1[k]);
      } else if j < |r1| {
        assert Starts(r1[j], from, mid) && Starts(r2[k - |r1|], mid, to);
      } else {
        assert Precedes(r2[j - |r1|], r2[k - |r1|]);
      }
    }
  }

  lemma ExactJoins(list: Lister, dir: Path, pattern: seq<string>, from: nat, mid: nat, to: nat,
                   h1: seq<Path>, r1: seq<seq<nat>>, h2: seq<Path>, r2: seq<seq<nat>>)
    requires from <= mid <= to
    requires Exact(list, dir, pattern, from, mid, h1, r1) && Exact(list, dir, pattern, mid, to, h2, r2)
    ensures Exact(list, dir, pattern, from, to, h1 + h2, r1 + r2)
  {
    var hits, ranks := h1 + h2, r1 + r2;
    forall k | 0 <= k < |ranks| ensures Starts(ranks[k], from, to) && At(list, dir, pattern, ranks[k]) == Some(hits[k]) {
      if k < |r1| {
        assert Starts(r1[k], from, mid) && ranks[k] == r1[k] && hits[k] == h1[k];
      } else {
        assert Starts(r2[k - |r1|], mid, to) && ranks[k] == r2[k - |r1|] && hits[k] == h2[k - |r1|];
      }
    }
    OrderJoins(r1, r2, from, mid, to);
    forall ix | Starts(ix, from, to) && At(list, dir, pattern, ix).Some? ensures ix in ranks {
      assert Starts(ix, from, mid) || Starts(ix, mid, to);
    }
  }

  function Prefixed(i: nat, ranks: seq<seq<nat>>): seq<seq<nat>> {
    seq(|ranks|, k requires 0 <= k < |ranks| => [i] + ranks[k])
  }

  lemma AtBelow(list: Lister, dir: Path, pattern: seq<string>, i: nat, ix: seq<nat>)
    requires i < |EntriesOf(list, dir, pattern)| && EntriesOf(list, dir, pattern)[i].isDirectory && ix != []
    ensures At(list, dir, pattern, [i] + ix) == At(list, dir + [EntriesOf(list, dir, pattern)[i].name], pattern[1..], ix)
  {
    assert ([i] + ix)[1..] == ix;
    AtMeans(list, dir, pattern, [i] + ix);
  }

  lemma PrecedesBelow(i: nat, a: seq<nat>, b: seq<nat>)
    requires Precedes(a, b)
    ensures Precedes([i] + a, [i] + b)
  {
    assert ([i] + a)[1..] == a && ([i] + b)[1..] == b;
  }

  /** Every position below a directory entry is the entry's own, followed by one below it. */
  lemma BelowComplete(list: Lister, dir: Path, pattern: seq<string>, i: nat, sub: seq<seq<nat>>, ix: seq<nat>)
    requires i < |EntriesOf(list, dir, pattern)| && EntriesOf(list, dir, pattern)[i].isDirectory
    requires var child := dir + [EntriesOf(list, dir, pattern)[i].name];
      forall jx | Starts(jx, 0, |EntriesOf(list, child, pattern[1..])|) && At(list, child, pattern[1..], jx).Some? :: jx in sub
    requires Starts(ix, i, i + 1) && At(list, dir, pattern, ix).Some?
    ensures ix in Prefixed(i, sub)
  {
    var jx := ix[1..];
    assert ix == [i] + jx;
    AtMeans(list, dir, pattern, ix);
    AtBelow(list, dir, pattern, i, jx);
    AtMeans(list, dir + [EntriesOf(list, dir, pattern)[i].name], pattern[1..], jx);
    assert Starts(jx, 0, |EntriesOf(list, dir + [EntriesOf(list, dir, pattern)[i].name], pattern[1..])|);
    var k :| 0 <= k < |sub| && sub[k] == jx;
    assert Prefixed(i, sub)[k] == ix;
  }

  /** Below a directory entry: the positions below it, each after the entry's own. */
  lemma ExactBelow(list: Lister, dir: Path, pattern: seq<string>, i: nat, hits: seq<Path>, sub: seq<seq<nat>>)
    requires i < |EntriesOf(list, dir, pattern)| && EntriesOf(list, dir, pattern)[i].isDirectory
    requires var child := dir + [EntriesOf(list, dir, pattern)[i].name];
      Exact(list, child, pattern[1..], 0, |EntriesOf(list, child, pattern[1..])|, hits, sub)
    ensures Exact(list, dir, pattern, i, i + 1, hits, Prefixed(i, sub))
  {
    var child := dir + [EntriesOf(list, dir, pattern)[i].name];
    var ranks := Prefixed(i, sub);
    forall k | 0 <= k < |ranks| ensures Starts(ranks[k], i, i + 1) && At(list, dir, pattern, ranks[k]) == Some(hits[k]) {
      assert Starts(sub[k], 0, |EntriesOf(list, child, pattern[1..])|);
      AtBelow(list, dir, pattern, i, sub[k]);
    }
    forall j, k | 0 <= j < k < |ranks| ensures Precedes(ranks[j], ranks[k]) {
      PrecedesBelow(i, sub[j], sub[k]);
    }
    forall ix | Starts(ix, i, i + 1) && At(list, dir, pattern, ix).Some? ensures ix in ranks {
      BelowComplete(list, dir, pattern, i, sub, ix);
    }
  }

  /** A regular file is itself the only hit of its entry. */
  lemma ExactFile(list: Lister, dir: Path, pattern: seq<string>, i: nat)
    requires i < |EntriesOf(list, dir, pattern)| && !EntriesOf(list, dir, pattern)[i].isDirectory
    ensures Exact(list, dir, pattern, i, i + 1, [dir + [EntriesOf(list, dir, pattern)[i].name]], [[i]])
  {
    AtMeans(list, dir, pattern, [i]);
    forall ix | Starts(ix, i, i + 1) && At(list, dir, pattern, ix).Some? ensures ix in [[i]] {
      AtMeans(list, dir, pattern, ix);
      assert ix == [i];
    }
  }

  lemma {:induction false} ExactFrom(list: Lister, dir: Path, pattern: seq<string>, i: nat) returns (ranks: seq<seq<nat>>)
    requires pattern != [] && i <= |EntriesOf(list, dir, pattern)|
    ensures var es := EntriesOf(list, dir, pattern);
      Exact(list, dir, pattern, i, |es|, HitsOf(list, dir, es[i..], pattern[1..]), ranks)
    decreases |pattern|, |EntriesOf(list, dir, pattern)| - i
  {
    var es := EntriesOf(list, dir, pattern);
    if i == |es| {
      ranks := [];
    } else {
      var later := ExactFrom(list, dir, pattern, i + 1);
      var first;
      if es[i].isDirectory {
        var sub := ExactAll(list, dir + [es[i].name], pattern[1..]);
        first := Prefixed(i, sub);
        ExactBelow(list, dir, pattern, i, Hits(list, dir + [es[i].name], pattern[1..]), sub);
      } else {
        first := [[i]];
        ExactFile(list, dir, pattern, i);
      }
      ranks := first + later;
      var below := EntryHits(list, dir, es[i], pattern[1..]);
      assert es[i..][1..] == es[i + 1..];
      ExactJoins(list, dir, pattern, i, i + 1, |es|, below, first, HitsOf(list, dir, es[i + 1..], pattern[1..]), later);
    }
  }

  lemma {:induction false} ExactAll(list: Lister, dir: Path, pattern: seq<string>) returns (ranks: seq<seq<nat>>)
    ensures Exact(list, dir, pattern, 0, |EntriesOf(list, dir, pattern)|, Hits(list, dir, pattern), ranks)
    decreases |pattern|, |EntriesOf(list, dir, pattern)| + 1
  {
    if pattern == [] {
      ranks := [];
    } else {
      ranks := ExactFrom(list, dir, pattern, 0);
      assert EntriesOf(list, dir, pattern)[0..] == EntriesOf(list, dir, pattern);
    }
  }

  /** `ranks` lists, once each and in depth-first order, all positions that lead to a file; `hits` are their files. */
  ghost predicate AllAndOnly(list: Lister, dir: Path, pattern: seq<string>, hits: seq<Path>, ranks: seq<seq<nat>>) {
    && |hits| == |ranks|
    && (forall k | 0 <= k < |ranks| :: At(list, dir, pattern, ranks[k]) == Some(hits[k]))
    && (forall j, k | 0 <= j < k < |ranks| :: Precedes(ranks[j], ranks[k]))
    && (forall ix | At(list, dir, pattern, ix).Some? :: ix in ranks)
  }

  /**
   * The search is exact: the files appended are, once for each way to reach it and in depth-first order,
   * every regular file whose components match a non-empty prefix of the pattern, and no other.
   */
  lemma SearchExact(list: Lister, dir: Path, pattern: seq<string>) returns (ranks: seq<seq<nat>>)
    ensures AllAndOnly(list, dir, pattern, Hits(list, dir, pattern), ranks)
  {
    ranks := ExactAll(list, dir, pattern);
    forall ix | At(list, dir, pattern, ix).Some? ensures ix in ranks {
      AtMeans(list, dir, pattern, ix);
      assert Starts(ix, 0, |EntriesOf(list, dir, pattern)|);
    }
  }

  lemma {:induction false} AtLength(list: Lister, dir: Path, pattern: seq<string>, ix: seq<nat>)
    requires At(list, dir, pattern, ix).Some?
    ensures |At(list, dir, pattern, ix).value| == |dir| + |ix| && |ix| <= |pattern|
    decreases |ix|
  {
    if |ix| > 1 {
      var e := EntryAt(list(dir, pattern[0]), ix[0]).value;
      AtLength(list, dir + [e.name], pattern[1..], ix[1..]);
    }
  }

  /** Every hit matches the whole pattern exactly when no regular file matches at an intermediate component. */
  lemma OnlyFullMatches(list: Lister, dir: Path, pattern: seq<string>)
    ensures (forall hit <- Hits(list, dir, pattern) :: |hit| == |dir| + |pattern|) <==>
            (forall ix | |ix| < |pattern| :: At(list, dir, pattern, ix).None?)
  {
    var hits := Hits(list, dir, pattern);
    var ranks := SearchExact(list, dir, pattern);
    if ix :| |ix| < |pattern| && At(list, dir, pattern, ix).Some? {
      AtLength(list, dir, pattern, ix);
      var k :| 0 <= k < |ranks| && ranks[k] == ix;
      assert hits[k] in hits;
    } else {
      forall k | 0 <= k < |hits| ensures |hits[k]| == |dir| + |pattern| {
        AtLength(list, dir, pattern, ranks[k]);
      }
    }
  }
}
