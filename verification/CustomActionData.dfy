/** Installer properties joined into one string for a custom action, and taken apart again. */
module CustomActionData {
  import opened Lists
  import opened Options
  import opened Strings

  /** The separator that is written, whatever delimiter the caller names. */
  const BAR := '|'

  /** The joined string; None stands for a property that could not be read. */
  function Built(values: seq<Option<string>>): string {
    if values == [] then ""
    else
      match values[0]
      case None => Built(values[1..])
      case Some(v) => if |values| > 1 then v + [BAR] + Built(values[1..]) else v
  }

  function NonEmpty(parts: seq<string>): seq<string> {
    if parts == [] then []
    else if parts[0] == "" then NonEmpty(parts[1..])
    else [parts[0]] + NonEmpty(parts[1..])
  }

  /** The tokens of a string: its non-empty pieces. */
  function Tokens(s: string, delim: char): seq<string> {
    NonEmpty(Cut(s, delim))
  }

  method BuildCustomActionData(values: seq<Option<string>>, delim: char) returns (str: string)
    ensures str == Built(values)
  {
    str := "";
    assert values[0..] == values && str + Built(values) == Built(values);
    for i := 0 to |values|
      invariant Built(values) == str + Built(values[i..])
    {
      ghost var rest := values[i..];
      assert rest[0] == values[i] && rest[1..] == values[i + 1..];
      if values[i].Some? {
        ghost var before := str;
        str := str + values[i].value;
        if i + 1 < |values| {
          str := str + [BAR];
          assert before + (values[i].value + [BAR] + Built(rest[1..])) == str + Built(rest[1..]);
        }
      }
    }
    assert values[|values|..] == [] && str + "" == str;
  }

  lemma TokensSkip(s: string, delim: char)
    requires s != "" && s[0] == delim
    ensures Tokens(s, delim) == Tokens(s[1..], delim)
  {
    assert Cut(s, delim)[0] == "" && Cut(s, delim)[1..] == Cut(s[1..], delim);
  }

  /** std::wstring::find_first_not_of; the length when there is none. What is skipped holds no token. */
  method FindFirstNotOf(str: string, delim: char, from: nat) returns (start: nat)
    requires from <= |str|
    ensures from <= start <= |str|
    ensures start < |str| ==> str[start] != delim
    ensures Tokens(str[start..], delim) == Tokens(str[from..], delim)
  {
    start := from;
    while start < |str| && str[start] == delim
      invariant from <= start <= |str| && Tokens(str[start..], delim) == Tokens(str[from..], delim)
    {
      TokensSkip(str[start..], delim);
      start := start + 1;
    }
  }

  lemma TokensOfFree(s: string, delim: char)
    requires delim !in s
    ensures Tokens(s, delim) == if s == "" then [] else [s]
  {
    CutFree(s, delim);
    var parts := Cut(s, delim);
    assert NonEmpty(parts[1..]) == [];
  }

  lemma TokensWord(s: string, delim: char)
    requires s != "" && s[0] != delim
    ensures var i := IndexOf(s, delim); 0 < i && Tokens(s, delim) == [s[..i]] + Tokens(s[i..], delim)
  {
    var i := IndexOf(s, delim);
    if i == |s| {
      assert s[..i] == s && s[i..] == "";
      TokensOfFree(s, delim);
      TokensOfFree("", delim);
    } else {
      assert s[i..][1..] == s[i + 1..];
      TokensSkip(s[i..], delim);
      assert Cut(s, delim)[0] == s[..i] && Cut(s, delim)[1..] == Cut(s[i + 1..], delim);
    }
  }

  lemma TokenAt(str: string, start: nat, end: nat, delim: char)
    requires start < |str| && str[start] != delim && end == start + IndexOf(str[start..], delim)
    ensures start < end <= |str| && Tokens(str[start..], delim) == [str[start..end]] + Tokens(str[end..], delim)
  {
    TokensWord(str[start..], delim);
    assert str[start..][..end - start] == str[start..end] && str[start..][end - start..] == str[end..];
  }

  method Tokenize(str: string, delim: char, stringList: seq<string>) returns (list: seq<string>)
    ensures list == stringList + Tokens(str, delim)
  {
    list := stringList;
    var end := 0;
    assert str[0..] == str;
    ghost var all := list + Tokens(str, delim);
    while true
      invariant end <= |str| && all == list + Tokens(str[end..], delim)
      invariant end == 0 || end == |str| || str[end] == delim
      decreases |str| - end
    {
      var start := FindFirstNotOf(str, delim, end);
      if start == |str| {
        TokensOfFree(str[start..], delim);
        return;
      }
      end := start + IndexOf(str[start..], delim);
      TokenAt(str, start, end, delim);
      list := list + [str[start..end]];
    }
  }

  // ----- what the tokens of any string are -----

  function Without(s: string, c: char): string {
    if s == "" then "" else (if s[0] == c then "" else [s[0]]) + Without(s[1..], c)
  }

  lemma {:induction false} WithoutFree(a: string, b: string, c: char)
    requires c !in a
    ensures Without(a + b, c) == a + Without(b, c)
  {
    if a == "" {
      assert a + b == b;
    } else {
      assert (a + b)[1..] == a[1..] + b;
      WithoutFree(a[1..], b, c);
    }
  }

  lemma {:induction false} NonEmptyParts(parts: seq<string>)
    ensures Concat(NonEmpty(parts)) == Concat(parts)
    ensures forall k | 0 <= k < |NonEmpty(parts)| :: NonEmpty(parts)[k] != "" && NonEmpty(parts)[k] in parts
  {
    if parts != [] {
      NonEmptyParts(parts[1..]);
    }
  }

  lemma WithoutStep(a: string, b: string, c: char)
    requires c !in a
    ensures Without(a + [c] + b, c) == a + Without(b, c)
  {
    assert a + [c] + b == a + ([c] + b) && ([c] + b)[1..] == b;
    WithoutFree(a, [c] + b, c);
  }

  lemma {:induction false} ConcatCut(s: string, delim: char)
    ensures Concat(Cut(s, delim)) == Without(s, delim)
    decreases |s|
  {
    var i := IndexOf(s, delim);
    if i == |s| {
      assert s[..i] == s && s + "" == s;
      WithoutFree(s, "", delim);
    } else {
      ConcatCut(s[i + 1..], delim);
      ConcatCons(s[..i], Cut(s[i + 1..], delim));
      WithoutStep(s[..i], s[i + 1..], delim);
      SplitAt(s, i);
    }
  }

  /** Of any string the tokens are non-empty, free of the delimiter, and together the string without delimiters. */
  lemma TokensOfAnything(s: string, delim: char)
    ensures forall k | 0 <= k < |Tokens(s, delim)| :: Tokens(s, delim)[k] != "" && delim !in Tokens(s, delim)[k]
    ensures Concat(Tokens(s, delim)) == Without(s, delim)
  {
    NonEmptyParts(Cut(s, delim));
    CutCount(s, delim);
    ConcatCut(s, delim);
  }

  // ----- packing and unpacking -----

  /** The values that were read, in order, without the empty ones. */
  function Given(values: seq<Option<string>>): seq<string> {
    if values == [] then []
    else
      (if values[0].Some? && values[0].value != "" then [values[0].value] else []) + Given(values[1..])
  }

  ghost predicate BarFree(values: seq<Option<string>>) {
    forall k | 0 <= k < |values| :: values[k].Some? ==> BAR !in values[k].value
  }

  lemma TokensCons(v: string, b: string)
    requires BAR !in v
    ensures Tokens(v + [BAR] + b, BAR) == (if v == "" then [] else [v]) + Tokens(b, BAR)
  {
    CutStep(v, b, BAR);
    assert ([v] + Cut(b, BAR))[1..] == Cut(b, BAR);
  }

  lemma {:induction false} TokensOfBuilt(values: seq<Option<string>>)
    requires BarFree(values)
    ensures Tokens(Built(values), BAR) == Given(values)
  {
    if values == [] {
      TokensOfFree("", BAR);
    } else {
      assert forall k | 0 <= k < |values[1..]| :: values[1..][k] == values[k + 1];
      TokensOfBuilt(values[1..]);
      if values[0].Some? {
        if |values| > 1 {
          TokensCons(values[0].value, Built(values[1..]));
        } else {
          TokensOfFree(values[0].value, BAR);
        }
      }
    }
  }

  function AllRead(values: seq<string>): seq<Option<string>> {
    seq(|values|, k requires 0 <= k < |values| => Some(values[k]))
  }

  /** When every property is read the string is their values joined by bars. */
  lemma {:induction false} BuiltIsJoin(values: seq<string>)
    ensures Built(AllRead(values)) == Join(values, '|')
  {
    if values != [] {
      BuiltIsJoin(values[1..]);
      assert AllRead(values)[1..] == AllRead(values[1..]);
    }
  }

  lemma {:induction false} GivenHas(values: seq<Option<string>>, k: nat)
    requires k < |values| && values[k].Some? && values[k].value != ""
    ensures values[k].value in Given(values)
  {
    if k > 0 {
      GivenHas(values[1..], k - 1);
    }
  }

  /**
   * Unpacking gives back exactly the non-empty values that were read, in order and whatever lookups failed,
   * if and only if no value that was read holds the separator.
   */
  lemma UnpackIsPackedExactly(values: seq<Option<string>>)
    ensures Tokens(Built(values), BAR) == Given(values) <==> BarFree(values)
  {
    if BarFree(values) {
      TokensOfBuilt(values);
    } else {
      var k :| 0 <= k < |values| && values[k].Some? && BAR in values[k].value;
      GivenHas(values, k);
      TokensOfAnything(Built(values), BAR);
    }
  }

  // ----- unpacking at another delimiter -----

  /** How many separators were written: one for each value read that is not the last of the list. */
  function Separators(values: seq<Option<string>>): nat {
    if |values| <= 1 then 0 else (if values[0].Some? then 1 else 0) + Separators(values[1..])
  }

  ghost predicate OnlyLastRead(values: seq<Option<string>>) {
    forall k | 0 <= k < |values| - 1 :: values[k].None?
  }

  lemma {:induction false} NoSeparators(values: seq<Option<string>>)
    requires Separators(values) == 0
    ensures OnlyLastRead(values)
  {
    if |values| > 1 {
      NoSeparators(values[1..]);
      forall k | 0 <= k < |values| - 1 ensures values[k].None? {
        assert k > 0 ==> values[1..][k - 1] == values[k];
      }
    }
  }

  lemma CountPrefixed(v: string, b: string)
    ensures Count(v + [BAR] + b, BAR) == Count(v, BAR) + 1 + Count(b, BAR)
  {
    assert v + [BAR] + b == v + ([BAR] + b) && ([BAR] + b)[1..] == b;
    CountConcat(v, [BAR] + b, BAR);
  }

  lemma GivenCons(values: seq<Option<string>>)
    requires values != [] && values[0].Some?
    ensures Concat(Given(values)) == values[0].value + Concat(Given(values[1..]))
  {
    if values[0].value != "" {
      ConcatCons(values[0].value, Given(values[1..]));
    } else {
      assert Given(values) == Given(values[1..]);
      assert "" + Concat(Given(values[1..])) == Concat(Given(values[1..]));
    }
  }

  /** Packing adds its separators to the bars of the values, and no others. */
  lemma {:induction false} BarsOfBuilt(values: seq<Option<string>>)
    ensures Count(Built(values), BAR) == Count(Concat(Given(values)), BAR) + Separators(values)
  {
    if values != [] {
      BarsOfBuilt(values[1..]);
      if values[0].Some? {
        var v, rest := values[0].value, Concat(Given(values[1..]));
        GivenCons(values);
        CountConcat(v, rest, BAR);
        if |values| > 1 {
          CountPrefixed(v, Built(values[1..]));
        } else {
          assert rest == "";
        }
      } else {
        assert Given(values) == Given(values[1..]);
      }
    }
  }

  lemma {:induction false} CountWithout(s: string, c: char, d: char)
    requires c != d
    ensures Count(Without(s, d), c) == Count(s, c)
  {
    if s != "" {
      CountWithout(s[1..], c, d);
      CountConcat(if s[0] == d then "" else [s[0]], Without(s[1..], d), c);
      assert s[0] != d ==> [s[0]][1..] == "";
    }
  }

  /** The value of the last property, or nothing. */
  function LastRead(values: seq<Option<string>>): string {
    if values == [] || values[|values| - 1].None? then "" else values[|values| - 1].value
  }

  lemma {:induction false} BuiltOfLast(values: seq<Option<string>>)
    requires OnlyLastRead(values)
    ensures Built(values) == LastRead(values)
    ensures Given(values) == if LastRead(values) == "" then [] else [LastRead(values)]
  {
    if |values| > 1 {
      assert forall k | 0 <= k < |values| - 2 :: values[1..][k] == values[k + 1];
      BuiltOfLast(values[1..]);
    } else if |values| == 1 {
      assert values[1..] == [] && Given(values[1..]) == [] && Built(values[1..]) == "";
    }
  }

  /**
   * Exactly when unpacking at any delimiter gives back the non-empty values that were read, in order:
   * at the separator, when no value holds it; at another delimiter, when nothing but the last property was read
   * and its value does not hold that delimiter.
   */
  lemma UnpackAtExactly(values: seq<Option<string>>, delim: char)
    ensures Tokens(Built(values), delim) == Given(values) <==>
            if delim == BAR then BarFree(values) else OnlyLastRead(values) && delim !in LastRead(values)
  {
    if delim == BAR {
      UnpackIsPackedExactly(values);
    } else if Tokens(Built(values), delim) == Given(values) {
      TokensOfAnything(Built(values), delim);
      CountWithout(Built(values), BAR, delim);
      BarsOfBuilt(values);
      NoSeparators(values);
      BuiltOfLast(values);
      assert LastRead(values) != "" ==> delim !in Given(values)[0];
    } else if OnlyLastRead(values) && delim !in LastRead(values) {
      BuiltOfLast(values);
      TokensOfFree(LastRead(values), delim);
      assert false;
    }
  }
}
