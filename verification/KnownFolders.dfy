/** Known-folder tags in configuration paths: resolving them, and putting them back into discovered files. */
module KnownFolders {
  import opened Options
  import opened Strings

  predicate OccursAt(s: string, pat: string, i: nat) {
    i + |pat| <= |s| && s[i..i + |pat|] == pat
  }

  /** std::string::find: the first occurrence, or None. */
  function Find(s: string, pat: string): (r: Option<nat>)
    ensures r.Some? ==> OccursAt(s, pat, r.value)
    ensures forall j: nat | j < (if r.Some? then r.value else |s| + 1) :: !OccursAt(s, pat, j)
  {
    if |s| < |pat| then None
    else if s[..|pat|] == pat then Some(0)
    else
      var r := Find(s[1..], pat);
      assert forall j: nat | 0 < j :: OccursAt(s, pat, j) ==> OccursAt(s[1..], pat, j - 1);
      assert r.Some? ==> OccursAt(s, pat, r.value + 1);
      if r.Some? then Some(r.value + 1) else None
  }

  lemma FindInFront(s: string, pat: string)
    requires OccursAt(s, pat, 0)
    ensures Find(s, pat) == Some(0)
  {
  }

  /** Known-folder lookup by identifier; the empty string when it is not known. */
  type Folders = string -> string

  const TAG := "<FOLDERID_"

  // The functions below take the opening text as a parameter; only its shape matters to the proofs.
  predicate Opening(tag: string) {
    tag != "" && '>' !in tag
  }

  lemma TagOpens()
    ensures Opening(TAG)
  {
  }

  /** The first '>' at or after position `from`, or the end of the path. */
  function CloseFrom(path: string, from: nat): (r: nat)
    requires from <= |path|
    ensures from <= r <= |path|
  {
    from + IndexOf(path[from..], '>')
  }

  ghost predicate ClosesAt(path: string, from: nat, end: nat) {
    from <= end < |path| && path[end] == '>' && forall k | from <= k < end :: path[k] != '>'
  }

  lemma CloseAt(path: string, from: nat, end: nat)
    requires ClosesAt(path, from, end)
    ensures CloseFrom(path, from) == end
  {
    IndexOfIs(path[from..], '>', end - from);
  }

  datatype Span = Span(begin: nat, end: nat)

  /** The first tag of a path, from its opening text to its '>', if it has one that is closed. */
  function TagIn(path: string, tag: string): (r: Option<Span>)
    requires tag != ""
    ensures r.Some? ==> r.value.begin < r.value.end < |path|
  {
    var begin := Find(path, tag);
    if begin.None? then None
    else
      var end := CloseFrom(path, begin.value + |tag|);
      if end == |path| then None else Some(Span(begin.value, end))
  }

  function Spliced(path: string, begin: nat, end: nat, folder: string): string
    requires begin <= end < |path|
  {
    if folder == "" then path else path[..begin] + folder + path[end + 1..]
  }

  /** WindowsUtilities::ResolvePath, for an opening text `tag`. */
  function Resolve(path: string, tag: string, folders: Folders): string
    requires tag != ""
  {
    var at := TagIn(path, tag);
    if at.None? then path
    else Spliced(path, at.value.begin, at.value.end, folders(path[at.value.begin + 1..at.value.end]))
  }

  function ResolvePath(path: string, folders: Folders): string {
    Resolve(path, TAG, folders)
  }

  datatype FolderInfo = FolderInfo(id: string, conversion: string)

  /** The text before the first occurrence of `remaining`, all of it when there is none. */
  function Before(resolved: string, remaining: string): string {
    var at := Find(resolved, remaining);
    if at.Some? then resolved[..at.value] else resolved
  }

  /** std::string::substr from a position inside the string. */
  function Substr(s: string, from: nat, count: nat): string
    requires from <= |s|
  {
    if from + count <= |s| then s[from..from + count] else s[from..]
  }

  /**
   * The known-folder part of PackageDiscovery::ResolveAndDiscover: nothing when the two paths are the same,
   * otherwise a substring of `last + 1` characters from the tag and the resolved text before the remaining path.
   * None stands for std::out_of_range.
   */
  function FolderOf(unresolved: string, resolved: string, tag: string): Option<FolderInfo> {
    var first := Find(unresolved, tag);
    if unresolved == resolved then Some(FolderInfo("", ""))
    else if first.None? then None
    else
      var last := CloseFrom(unresolved, 0);
      var count := if last == |unresolved| then 0 else last + 1;
      Some(FolderInfo(Substr(unresolved, first.value, count), Before(resolved, unresolved[count..])))
  }

  /** How a discovered file is reported; None stands for std::out_of_range. */
  function Reported(file: string, info: FolderInfo): Option<string> {
    if info.id == "" then Some(file)
    else if |info.conversion| > |file| then None
    else Some(info.id + file[|info.conversion|..])
  }

  /** A known-folder name in its brackets, and the identifier looked up for it. */
  function Tagged(tag: string, name: string): string {
    tag + name + ">"
  }

  function IdOf(tag: string, name: string): string
    requires tag != ""
  {
    tag[1..] + name
  }

  // ----- resolving -----

  lemma Parts(a: string, b: string, c: string)
    ensures var s := a + b + c;
      s[..|a|] == a && s[|a|..|a| + |b|] == b && s[|a| + |b|..] == c && |s| == |a| + |b| + |c|
  {
  }

  /** Where the characters of a tag are in a path that holds it at `begin`. */
  lemma TagCharacters(path: string, begin: nat, tag: string, name: string)
    requires Opening(tag) && '>' !in name && OccursAt(path, Tagged(tag, name), begin)
    ensures ClosesAt(path, begin, begin + |tag| + |name|)
  {
    var t := Tagged(tag, name);
    assert |t| == |tag| + |name| + 1;
    forall k | 0 <= k < |t| ensures path[begin + k] == t[k] {
      assert path[begin..begin + |t|][k] == path[begin + k];
    }
    forall k | begin <= k < begin + |tag| + |name| ensures path[k] != '>' {
      assert path[begin + (k - begin)] == t[k - begin];
    }
    assert path[begin + (|tag| + |name|)] == t[|tag| + |name|];
  }

  lemma TagSlice(path: string, begin: nat, tag: string, name: string)
    requires tag != "" && OccursAt(path, Tagged(tag, name), begin)
    ensures path[begin + 1..begin + |tag| + |name|] == IdOf(tag, name)
  {
    var t, id := Tagged(tag, name), IdOf(tag, name);
    var slice := path[begin + 1..begin + |tag| + |name|];
    assert |slice| == |id| && |t| == |id| + 2;
    forall k | 0 <= k < |id| ensures slice[k] == id[k] {
      assert slice[k] == path[begin + (k + 1)];
      assert path[begin..begin + |t|][k + 1] == path[begin + (k + 1)];
      assert t[k + 1] == id[k];
    }
  }

  lemma TagInAt(path: string, tag: string, begin: nat, end: nat)
    requires tag != "" && Find(path, tag) == Some(begin) && ClosesAt(path, begin + |tag|, end)
    ensures TagIn(path, tag) == Some(Span(begin, end))
  {
    CloseAt(path, begin + |tag|, end);
  }

  lemma ResolveAt(path: string, tag: string, begin: nat, end: nat, id: string, folders: Folders)
    requires tag != "" && TagIn(path, tag) == Some(Span(begin, end)) && path[begin + 1..end] == id
    ensures Resolve(path, tag, folders) == Spliced(path, begin, end, folders(id))
  {
  }

  lemma SplicedParts(pre: string, t: string, rest: string, folder: string)
    requires t != "" && folder != ""
    ensures |pre + t + rest| == |pre| + |t| + |rest|
    ensures Spliced(pre + t + rest, |pre|, |pre| + |t| - 1, folder) == pre + folder + rest
  {
    Parts(pre, t, rest);
  }

  /** Resolving replaces the first tag by its folder and nothing else. */
  lemma ResolveTagged(pre: string, tag: string, name: string, rest: string, folders: Folders)
    requires Opening(tag) && '>' !in name && folders(IdOf(tag, name)) != ""
    requires Find(pre + Tagged(tag, name) + rest, tag) == Some(|pre|)
    ensures Resolve(pre + Tagged(tag, name) + rest, tag, folders) == pre + folders(IdOf(tag, name)) + rest
  {
    var t, id := Tagged(tag, name), IdOf(tag, name);
    var path, begin, end := pre + t + rest, |pre|, |pre| + |t| - 1;
    assert ClosesAt(path, begin + |tag|, end) && path[begin + 1..end] == id by {
      Parts(pre, t, rest);
      TagCharacters(path, begin, tag, name);
      TagSlice(path, begin, tag, name);
    }
    TagInAt(path, tag, begin, end);
    ResolveAt(path, tag, begin, end, id, folders);
    SplicedParts(pre, t, rest, folders(id));
  }

  lemma CloseFromMeans(path: string, from: nat)
    requires from <= |path|
    ensures var end := CloseFrom(path, from);
      (end < |path| ==> path[end] == '>') && forall k | from <= k < end :: path[k] != '>'
  {
    var n := IndexOf(path[from..], '>');
    assert forall k | from <= k < from + n :: path[k] == path[from..][..n][k - from];
  }

  /** A tag found in a path, spelled out. */
  lemma TagFound(path: string, begin: nat, end: nat, tag: string)
    requires tag != "" && OccursAt(path, tag, begin) && begin + |tag| <= end < |path| && path[end] == '>'
    ensures var name := path[begin + |tag|..end];
      && path == path[..begin] + Tagged(tag, name) + path[end + 1..]
      && path[begin + 1..end] == IdOf(tag, name)
  {
    var name := path[begin + |tag|..end];
    assert path[begin..end + 1] == path[begin..begin + |tag|] + name + [path[end]];
    assert path == path[..begin] + path[begin..end + 1] + path[end + 1..];
    assert path[begin + 1..end] == path[begin..begin + |tag|][1..] + name;
  }

  lemma TagInMeans(path: string, tag: string)
    requires tag != "" && TagIn(path, tag).Some?
    ensures var at := TagIn(path, tag).value;
      Find(path, tag) == Some(at.begin) && OccursAt(path, tag, at.begin) && ClosesAt(path, at.begin + |tag|, at.end)
  {
    CloseFromMeans(path, Find(path, tag).value + |tag|);
  }

  lemma SplicedChanged(path: string, begin: nat, end: nat, folder: string)
    requires begin <= end < |path| && Spliced(path, begin, end, folder) != path
    ensures folder != "" && Spliced(path, begin, end, folder) == path[..begin] + folder + path[end + 1..]
  {
  }

  lemma ResolveChanged(path: string, tag: string, folders: Folders)
    requires tag != "" && Resolve(path, tag, folders) != path
    ensures TagIn(path, tag).Some?
    ensures var at := TagIn(path, tag).value;
      var folder := folders(path[at.begin + 1..at.end]);
      folder != "" && Resolve(path, tag, folders) == path[..at.begin] + folder + path[at.end + 1..]
  {
    var at := TagIn(path, tag).value;
    SplicedChanged(path, at.begin, at.end, folders(path[at.begin + 1..at.end]));
  }

  lemma ChangedSpan(path: string, tag: string, folders: Folders) returns (begin: nat, end: nat)
    requires tag != "" && Resolve(path, tag, folders) != path
    ensures Find(path, tag) == Some(begin) && OccursAt(path, tag, begin) && ClosesAt(path, begin + |tag|, end)
    ensures folders(path[begin + 1..end]) != ""
    ensures Resolve(path, tag, folders) == path[..begin] + folders(path[begin + 1..end]) + path[end + 1..]
  {
    ResolveChanged(path, tag, folders);
    TagInMeans(path, tag);
    begin, end := TagIn(path, tag).value.begin, TagIn(path, tag).value.end;
  }

  lemma NameOpen(path: string, from: nat, end: nat)
    requires ClosesAt(path, from, end)
    ensures '>' !in path[from..end]
  {
  }

  /** Resolving changes a path only where it replaces a closed tag, the first one, by a known folder. */
  lemma ResolveOnlyTagged(path: string, tag: string, folders: Folders) returns (pre: string, name: string, rest: string)
    requires tag != "" && Resolve(path, tag, folders) != path
    ensures path == pre + Tagged(tag, name) + rest && '>' !in name && Find(path, tag) == Some(|pre|)
    ensures folders(IdOf(tag, name)) != "" && Resolve(path, tag, folders) == pre + folders(IdOf(tag, name)) + rest
  {
    var begin, end := ChangedSpan(path, tag, folders);
    pre, name, rest := path[..begin], path[begin + |tag|..end], path[end + 1..];
    TagFound(path, begin, end, tag);
    NameOpen(path, begin + |tag|, end);
  }

  // ----- putting the tag back -----

  lemma TagInFront(tag: string, name: string, rest: string)
    ensures Find(Tagged(tag, name) + rest, tag) == Some(0)
  {
    assert OccursAt(Tagged(tag, name) + rest, tag, 0);
    FindInFront(Tagged(tag, name) + rest, tag);
  }

  lemma RestOccurs(k: string, rest: string)
    ensures Find(k + rest, rest).Some? && Find(k + rest, rest).value <= |k|
  {
    assert OccursAt(k + rest, rest, |k|);
  }

  lemma DifferentMiddles(pre: string, a: string, b: string, rest: string)
    requires a != b
    ensures pre + a + rest != pre + b + rest
  {
    Parts(pre, a, rest);
    Parts(pre, b, rest);
  }

  /** FolderOf with the first '>' known. */
  lemma FolderOfAt(unresolved: string, resolved: string, tag: string, last: nat)
    requires unresolved != resolved && Find(unresolved, tag).Some? && ClosesAt(unresolved, 0, last)
    ensures FolderOf(unresolved, resolved, tag) ==
            Some(FolderInfo(Substr(unresolved, Find(unresolved, tag).value, last + 1),
                            Before(resolved, unresolved[last + 1..])))
  {
    CloseAt(unresolved, 0, last);
  }

  /** With the tag in front, the tag and the text before the remaining path are read off. */
  lemma TagReadOff(tag: string, name: string, rest: string, resolved: string)
    requires Opening(tag) && '>' !in name && Tagged(tag, name) + rest != resolved
    ensures FolderOf(Tagged(tag, name) + rest, resolved, tag) ==
            Some(FolderInfo(Tagged(tag, name), Before(resolved, rest)))
  {
    var t := Tagged(tag, name);
    var path := t + rest;
    TagInFront(tag, name, rest);
    assert OccursAt(path, t, 0);
    TagCharacters(path, 0, tag, name);
    FolderOfAt(path, resolved, tag, |tag| + |name|);
    assert path[|t|..] == rest;
  }

  lemma FolderOfFront(tag: string, name: string, rest: string, k: string)
    requires Opening(tag) && '>' !in name && Tagged(tag, name) != k
    ensures FolderOf(Tagged(tag, name) + rest, k + rest, tag) == Some(FolderInfo(Tagged(tag, name), Before(k + rest, rest)))
  {
    var t := Tagged(tag, name);
    assert t + rest != k + rest by {
      DifferentMiddles("", t, k, rest);
      assert "" + t + rest == t + rest && "" + k + rest == k + rest;
    }
    TagReadOff(tag, name, rest, k + rest);
  }

  /** What is cut from a file K+s is as long as K only when the remaining path first occurs right after K. */
  lemma ReportedFront(t: string, rest: string, k: string, s: string)
    requires t != ""
    ensures Reported(k + s, FolderInfo(t, Before(k + rest, rest))) == Some(t + s) <==> Find(k + rest, rest) == Some(|k|)
  {
    RestOccurs(k, rest);
    var at := Find(k + rest, rest).value;
    assert |Before(k + rest, rest)| == at;
    if at == |k| {
      assert (k + s)[at..] == s;
    } else {
      assert |t + (k + s)[at..]| != |t + s|;
    }
  }

  /**
   * Unresolving a discovered file K+s puts the tag back in place of K exactly when the remaining path
   * first occurs in the resolved pattern right after K (or the folder is spelled like its tag).
   */
  lemma UnresolveFront(name: string, rest: string, k: string, s: string)
    requires '>' !in name
    ensures var info := FolderOf(Tagged(TAG, name) + rest, k + rest, TAG);
      && info.Some?
      && (Reported(k + s, info.value) == Some(Tagged(TAG, name) + s) <==>
          k == Tagged(TAG, name) || Find(k + rest, rest) == Some(|k|))
  {
    TagOpens();
    if k != Tagged(TAG, name) {
      FolderOfFront(TAG, name, rest, k);
      ReportedFront(Tagged(TAG, name), rest, k, s);
    }
  }

  /** How much of a file is replaced by the tag: what precedes the remaining path, or as much as the resolved path. */
  function Replaced(resolved: string, rest: string): nat {
    var at := Find(resolved, rest);
    if at.Some? then at.value else |resolved|
  }

  /**
   * Every report of a file found for a pattern with its tag in front: the tag in place of the text before the remaining
   * path, or of the length of the resolved path where the remaining path does not occur; none for a shorter file.
   */
  lemma ReportFront(name: string, rest: string, resolved: string, file: string)
    requires '>' !in name && Tagged(TAG, name) + rest != resolved
    ensures var info, n := FolderOf(Tagged(TAG, name) + rest, resolved, TAG), Replaced(resolved, rest);
      && info.Some?
      && Reported(file, info.value) == if n > |file| then None else Some(Tagged(TAG, name) + file[n..])
  {
    TagOpens();
    TagReadOff(TAG, name, rest, resolved);
    assert Tagged(TAG, name) != "";
  }

  lemma NoClose(path: string)
    requires '>' !in path
    ensures CloseFrom(path, 0) == |path|
  {
    CloseFromMeans(path, 0);
  }

  /** A tag that is not closed is never put back: files are reported as they are. */
  lemma ReportOpenTag(unresolved: string, resolved: string, file: string)
    requires unresolved != resolved && Find(unresolved, TAG).Some? && '>' !in unresolved
    ensures var info := FolderOf(unresolved, resolved, TAG); info.Some? && Reported(file, info.value) == Some(file)
  {
    NoClose(unresolved);
    assert Substr(unresolved, Find(unresolved, TAG).value, 0) == "";
  }

  /** The other way: resolving a reported path gives the discovered file back. */
  lemma ResolveUndoesReport(name: string, s: string, folders: Folders)
    requires '>' !in name && folders(IdOf(TAG, name)) != ""
    ensures ResolvePath(Tagged(TAG, name) + s, folders) == folders(IdOf(TAG, name)) + s
  {
    var t, k := Tagged(TAG, name), folders(IdOf(TAG, name));
    TagOpens();
    TagInFront(TAG, name, s);
    assert "" + t + s == t + s && "" + k + s == k + s;
    ResolveTagged("", TAG, name, s, folders);
  }

  /**
   * Resolve and unresolve are inverse: a pattern tag+rest whose folder K is known resolves to K+rest, and when rest
   * first occurs there right after K, every file K+s found for it is reported as tag+s, which resolves to K+s.
   */
  lemma ResolveUnresolve(name: string, rest: string, s: string, folders: Folders)
    requires '>' !in name && folders(IdOf(TAG, name)) != ""
    requires var k := folders(IdOf(TAG, name)); Find(k + rest, rest) == Some(|k|)
    ensures var pattern, k := Tagged(TAG, name) + rest, folders(IdOf(TAG, name));
      var info := FolderOf(pattern, ResolvePath(pattern, folders), TAG);
      && ResolvePath(pattern, folders) == k + rest
      && info.Some? && Reported(k + s, info.value) == Some(Tagged(TAG, name) + s)
      && ResolvePath(Tagged(TAG, name) + s, folders) == k + s
  {
    ResolveUndoesReport(name, rest, folders);
    ResolveUndoesReport(name, s, folders);
    UnresolveFront(name, rest, folders(IdOf(TAG, name)), s);
  }

  // ----- a tag that is not in front -----

  lemma FirstClose(path: string, at: nat) returns (last: nat)
    requires at < |path| && path[at] == '>'
    ensures last <= at && ClosesAt(path, 0, last)
  {
    last := IndexOf(path, '>');
    assert forall j | 0 <= j < last :: path[..last][j] == path[j];
  }

  /** Two occurrences of which only one is there differ in a character. */
  lemma SomeDifference(path: string, tag: string, first: nat) returns (i: nat)
    requires OccursAt(path, tag, first) && !OccursAt(path, tag, 0)
    ensures i < |tag| && path[i] != tag[i] && path[first + i] == tag[i]
  {
    assert path[0..|tag|] != tag;
    i :| 0 <= i < |tag| && path[0..|tag|][i] != tag[i];
    assert path[first..first + |tag|][i] == path[first + i];
  }

  /** What is taken for the tag cannot start the wanted path when something stands before the real tag. */
  lemma FrontDiffers(path: string, tag: string, first: nat, last: nat) returns (i: nat)
    requires Opening(tag) && OccursAt(path, tag, first) && !OccursAt(path, tag, 0)
    requires last < |path| && path[last] == '>' && first + |tag| < |path|
    ensures i <= last && i <= |tag| && first + i < |path| && path[i] != path[first + i]
  {
    i := SomeDifference(path, tag, first);
    if last < i {
      i := last;
      assert path[first..first + |tag|][i] == tag[i];
    }
  }

  lemma ReportStarts(file: string, info: FolderInfo, i: nat)
    requires i < |info.id|
    ensures var r := Reported(file, info); r.Some? ==> i < |r.value| && r.value[i] == info.id[i]
  {
  }

  lemma SubstrAt(path: string, first: nat, last: nat, i: nat)
    requires first + i < |path| && i <= last
    ensures i < |Substr(path, first, last + 1)| && Substr(path, first, last + 1)[i] == path[first + i]
  {
  }

  /** The path and the wanted report start alike, up to and including the tag. */
  lemma CommonFront(pre: string, t: string, rest: string, s: string, i: nat)
    requires i < |pre| + |t|
    ensures (pre + t + rest)[i] == (pre + t + s)[i]
  {
  }

  lemma NeedsFront(pre: string, tag: string, name: string, rest: string, k: string, s: string)
    requires pre != "" && Opening(tag) && '>' !in name && Tagged(tag, name) != k
    requires Find(pre + Tagged(tag, name) + rest, tag) == Some(|pre|)
    ensures var info := FolderOf(pre + Tagged(tag, name) + rest, pre + k + rest, tag);
      info.Some? && Reported(pre + k + s, info.value) != Some(pre + Tagged(tag, name) + s)
  {
    var t := Tagged(tag, name);
    var path := pre + t + rest;
    Parts(pre, t, rest);
    DifferentMiddles(pre, t, k, rest);
    TagCharacters(path, |pre|, tag, name);
    var last := FirstClose(path, |pre| + |tag| + |name|);
    FolderOfAt(path, pre + k + rest, tag, last);
    var i := FrontDiffers(path, tag, |pre|, last);
    SubstrAt(path, |pre|, last, i);
    CommonFront(pre, t, rest, s, i);
    ReportStarts(pre + k + s, FolderOf(path, pre + k + rest, tag).value, i);
  }

  /** A tag that is not in front is never put back: the substring count is taken from the start of the path. */
  lemma UnresolveNeedsFront(pre: string, name: string, rest: string, k: string, s: string)
    requires pre != "" && '>' !in name && Tagged(TAG, name) != k
    requires Find(pre + Tagged(TAG, name) + rest, TAG) == Some(|pre|)
    ensures var info := FolderOf(pre + Tagged(TAG, name) + rest, pre + k + rest, TAG);
      info.Some? && Reported(pre + k + s, info.value) != Some(pre + Tagged(TAG, name) + s)
  {
    TagOpens();
    NeedsFront(pre, TAG, name, rest, k, s);
  }
}
