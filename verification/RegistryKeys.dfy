/** Registry paths as discovery rules spell them, and version numbers as the inventory spells them. */
module RegistryKeys {
  import opened Options
  import opened Strings

  /** A path split at its backslashes, and whether the 32-bit view is asked for. */
  datatype KeyDef = KeyDef(parts: seq<string>, wow: bool)

  datatype Root = CLASSES_ROOT | LOCAL_MACHINE | CURRENT_USER

  datatype Key = Key(root: Root, subKey: string, valueName: string)

  /** The registry of a machine: string values by key and view. */
  datatype Registry = Registry(read: (Key, bool) -> Option<string>, is64Bit: bool)

  const SEPARATOR := '\\'

  function RootOf(name: string): Option<Root> {
    if name == "HKCR" then Some(CLASSES_ROOT)
    else if name == "HKLM" then Some(LOCAL_MACHINE)
    else if name == "HKCU" then Some(CURRENT_USER)
    else None
  }

  /** The middle parts joined; parts that are empty at the front leave no separator. */
  function SubKey(parts: seq<string>): string {
    if parts == [] then ""
    else
      var front, last := SubKey(parts[..|parts| - 1]), parts[|parts| - 1];
      if front == "" then last else front + [SEPARATOR] + last
  }

  function Decoded(parts: seq<string>): Option<Key> {
    if |parts| < 2 || RootOf(parts[0]).None? then None
    else Some(Key(RootOf(parts[0]).value, SubKey(parts[1..|parts| - 1]), parts[|parts| - 1]))
  }

  /** The root by its short name, the middle parts as the subkey, and the last part as the value's name. */
  method DecodeRegistryPath(parts: seq<string>) returns (key: Option<Key>)
    ensures key == Decoded(parts)
    ensures key.Some? <==> |parts| >= 2 && parts[0] in {"HKCR", "HKLM", "HKCU"}
    ensures key.Some? && parts[0] == "HKCR" ==> key.value.root == CLASSES_ROOT
    ensures key.Some? && parts[0] == "HKLM" ==> key.value.root == LOCAL_MACHINE
    ensures key.Some? && parts[0] == "HKCU" ==> key.value.root == CURRENT_USER
    ensures key.Some? ==> key.value.valueName == parts[|parts| - 1] && key.value.subKey == SubKey(parts[1..|parts| - 1])
  {
    if |parts| < 2 {
      return None;
    }
    var root := RootOf(parts[0]);
    if root.None? {
      return None;
    }
    var subKey, middle := "", parts[1..|parts| - 1];
    for i := 0 to |middle|
      invariant subKey == SubKey(middle[..i])
    {
      assert middle[..i + 1][..i] == middle[..i];
      subKey := (if subKey == "" then "" else subKey + [SEPARATOR]) + middle[i];
    }
    assert middle[..|middle|] == middle;
    key := Some(Key(root.value, subKey, parts[|parts| - 1]));
  }

  lemma {:induction false} JoinSnoc(parts: seq<string>, last: string)
    requires parts != []
    ensures Join(parts + [last], SEPARATOR) == Join(parts, SEPARATOR) + [SEPARATOR] + last
  {
    if |parts| == 1 {
      assert (parts + [last])[1..] == [last];
    } else {
      JoinSnoc(parts[1..], last);
      assert (parts + [last])[1..] == parts[1..] + [last];
    }
  }

  lemma {:induction false} SubKeyIsJoin(parts: seq<string>)
    requires parts != [] && parts[0] != ""
    ensures SubKey(parts) == Join(parts, SEPARATOR) != ""
  {
    var n := |parts| - 1;
    if n == 0 {
      assert parts[..0] == [];
    } else {
      SubKeyIsJoin(parts[..n]);
      JoinSnoc(parts[..n], parts[n]);
      assert parts[..n] + [parts[n]] == parts;
    }
  }

  /** Parts that are empty at the front leave no trace in the subkey. */
  lemma {:induction false} SubKeySkipsEmpty(parts: seq<string>)
    requires parts != [] && parts[0] == ""
    ensures SubKey(parts) == SubKey(parts[1..])
  {
    var n := |parts| - 1;
    if n == 0 {
      assert parts[..0] == [];
    } else {
      SubKeySkipsEmpty(parts[..n]);
      assert parts[..n][1..] == parts[1..][..n - 1];
    }
  }

  lemma MiddleCut(middle: seq<string>)
    requires middle != [] && middle[0] != "" && forall k | 0 <= k < |middle| :: SEPARATOR !in middle[k]
    ensures Cut(SubKey(middle), SEPARATOR) == middle
  {
    SubKeyIsJoin(middle);
    CutJoin(middle, SEPARATOR);
  }

  /** Decoding loses nothing of a path with a subkey: its middle parts can be cut out of the subkey again. */
  lemma DecodeKeepsParts(parts: seq<string>, key: Key)
    requires |parts| > 2 && Decoded(parts) == Some(key) && parts[1] != ""
    requires forall k | 0 <= k < |parts| :: SEPARATOR !in parts[k]
    ensures parts == [parts[0]] + Cut(key.subKey, SEPARATOR) + [key.valueName] && RootOf(parts[0]) == Some(key.root)
  {
    var middle := parts[1..|parts| - 1];
    assert Cut(key.subKey, SEPARATOR) == middle by {
      MiddleCut(middle);
    }
  }

  function Value(registry: Registry, def: KeyDef): Option<string> {
    var key := Decoded(def.parts);
    if key.None? then None else registry.read(key.value, def.wow && registry.is64Bit)
  }

  lemma OneMore(version: string)
    ensures Count(version + ".0", '.') == Count(version, '.') + 1
  {
    CountConcat(version, ".0", '.');
    assert ".0"[1..] == "0" && "0"[1..] == "";
  }

  /** As many ".0" as are missing to four numbers. */
  function Padded(version: string): string
    decreases if Count(version, '.') < 3 then 3 - Count(version, '.') else 0
  {
    if Count(version, '.') >= 3 then version
    else
      assert Count(version + ".0", '.') == Count(version, '.') + 1 by { OneMore(version); }
      Padded(version + ".0")
  }

  method PadBuildNumber(version: string) returns (padded: string)
    ensures padded == Padded(version)
  {
    padded := version;
    while Count(padded, '.') < 3
      invariant Padded(padded) == Padded(version)
      decreases if Count(padded, '.') < 3 then 3 - Count(padded, '.') else 0
    {
      OneMore(padded);
      padded := padded + ".0";
    }
  }

  /** What is appended to a version with so many dots. */
  function Padding(dots: nat): string {
    if dots == 0 then ".0.0.0" else if dots == 1 then ".0.0" else if dots == 2 then ".0" else ""
  }

  /** Padding is with zeros, as many as are missing to four numbers. */
  lemma {:induction false} PaddedWithZeros(version: string)
    ensures Padded(version) == version + Padding(Count(version, '.'))
    decreases if Count(version, '.') < 3 then 3 - Count(version, '.') else 0
  {
    var dots := Count(version, '.');
    if dots < 3 {
      OneMore(version);
      PaddedWithZeros(version + ".0");
      assert version + ".0" + Padding(dots + 1) == version + (".0" + Padding(dots + 1));
      assert ".0" + Padding(dots + 1) == Padding(dots);
    }
  }

  /** Padding keeps the version in front and leaves three dots, or those there were. */
  lemma {:induction false} PaddedShape(version: string)
    ensures version <= Padded(version)
    ensures Count(Padded(version), '.') == if Count(version, '.') < 3 then 3 else Count(version, '.')
    ensures Padded(Padded(version)) == Padded(version)
    decreases if Count(version, '.') < 3 then 3 - Count(version, '.') else 0
  {
    if Count(version, '.') < 3 {
      OneMore(version);
      PaddedShape(version + ".0");
      assert version <= version + ".0";
    }
  }
}
