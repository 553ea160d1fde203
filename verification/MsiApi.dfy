/** Enumerating installed MSI products, and the discovery methods that look products up live or in a cached list. */
module Msi {
  import opened Lists
  import opened Options

  const ERROR_SUCCESS := 0
  const ERROR_NO_MORE_ITEMS := 259
  const INSTALLSTATE_ADVERTISED := 1
  const INSTALLSTATE_DEFAULT := 5

  datatype Product = Product(code: string, name: string, publisher: string, version: string, installState: int)

  /** What enumerating by index gives: the items in order, then a code that is not success. */
  datatype Listing<T> = Listing(items: seq<T>, end: int)

  ghost predicate Ends<T>(l: Listing<T>) {
    l.end != ERROR_SUCCESS
  }

  predicate MatchesNameAndPublisher(p: Product, name: string, publisher: string) {
    name != "" && publisher != "" && name == p.name && publisher == p.publisher
  }

  predicate MatchesNameOnly(p: Product, name: string, publisher: string) {
    name != "" && publisher == "" && name == p.name
  }

  predicate MatchesPublisherOnly(p: Product, name: string, publisher: string) {
    name == "" && publisher != "" && publisher == p.publisher
  }

  /** The filter as one condition: each criterion that is given must match. */
  predicate Selected(p: Product, name: string, publisher: string) {
    (name == "" || name == p.name) && (publisher == "" || publisher == p.publisher)
  }

  lemma TestIsSelected(p: Product, name: string, publisher: string)
    ensures Selected(p, name, publisher) <==>
            MatchesNameAndPublisher(p, name, publisher) || MatchesNameOnly(p, name, publisher)
            || MatchesPublisherOnly(p, name, publisher) || (name == "" && publisher == "")
  {
  }

  function Select(ps: seq<Product>, name: string, publisher: string): seq<Product> {
    if ps == [] then []
    else
      var front, last := ps[..|ps| - 1], ps[|ps| - 1];
      Select(front, name, publisher) + if Selected(last, name, publisher) then [last] else []
  }

  lemma SelectSnoc(ps: seq<Product>, p: Product, name: string, publisher: string)
    ensures Select(ps + [p], name, publisher) ==
            Select(ps, name, publisher) + if Selected(p, name, publisher) then [p] else []
  {
    assert (ps + [p])[..|ps|] == ps;
  }

  lemma SelectStep(ps: seq<Product>, i: nat, name: string, publisher: string)
    requires i < |ps|
    ensures Select(ps[..i + 1], name, publisher) ==
            if Selected(ps[i], name, publisher) then Select(ps[..i], name, publisher) + [ps[i]]
            else Select(ps[..i], name, publisher)
  {
    assert ps[..i + 1] == ps[..i] + [ps[i]];
    SelectSnoc(ps[..i], ps[i], name, publisher);
  }

  /** Positions of the k-th kept product: increasing, all selected, and none selected is missing. */
  ghost predicate Picks(ps: seq<Product>, name: string, publisher: string, ix: seq<nat>, kept: seq<Product>) {
    && |ix| == |kept|
    && (forall k | 0 <= k < |ix| :: ix[k] < |ps| && kept[k] == ps[ix[k]] && Selected(ps[ix[k]], name, publisher))
    && (forall j, k | 0 <= j < k < |ix| :: ix[j] < ix[k])
    && (forall i | 0 <= i < |ps| && Selected(ps[i], name, publisher) :: i in ix)
  }

  lemma PicksMore(ps: seq<Product>, name: string, publisher: string, ix: seq<nat>, kept: seq<Product>)
    requires ps != [] && Picks(ps[..|ps| - 1], name, publisher, ix, kept)
    ensures var n := |ps| - 1;
      if Selected(ps[n], name, publisher) then Picks(ps, name, publisher, ix + [n], kept + [ps[n]])
      else Picks(ps, name, publisher, ix, kept)
  {
    var n := |ps| - 1;
    forall i | 0 <= i < n && Selected(ps[i], name, publisher) ensures i in ix {
      assert ps[..n][i] == ps[i];
    }
  }

  /** The filter keeps order: its result is the enumeration at increasing positions, exactly the selected ones. */
  lemma {:induction false} SelectIsFilter(ps: seq<Product>, name: string, publisher: string) returns (ix: seq<nat>)
    ensures Picks(ps, name, publisher, ix, Select(ps, name, publisher))
  {
    if ps == [] {
      ix := [];
    } else {
      var n := |ps| - 1;
      var before := SelectIsFilter(ps[..n], name, publisher);
      ix := before + if Selected(ps[n], name, publisher) then [n] else [];
      PicksMore(ps, name, publisher, before, Select(ps[..n], name, publisher));
    }
  }

  lemma {:induction false} SelectAll(ps: seq<Product>)
    ensures Select(ps, "", "") == ps
  {
    if ps != [] {
      SelectAll(ps[..|ps| - 1]);
      assert ps == ps[..|ps| - 1] + [ps[|ps| - 1]];
    }
  }

  /** The products of related codes, one code after the other. */
  function AllOf(codes: seq<string>, byCode: string -> Listing<Product>): seq<Product> {
    Concat(seq(|codes|, i requires 0 <= i < |codes| => byCode(codes[i]).items))
  }

  /** One more related code adds the unfiltered products of that code. */
  lemma RelatedStep(codes: seq<string>, i: nat, byCode: string -> Listing<Product>)
    requires i < |codes|
    ensures AllOf(codes[..i + 1], byCode) == AllOf(codes[..i], byCode) + Select(byCode(codes[i]).items, "", "")
  {
    var front := seq(i, k requires 0 <= k < i => byCode(codes[..i][k]).items);
    assert seq(i + 1, k requires 0 <= k < i + 1 => byCode(codes[..i + 1][k]).items) == front + [byCode(codes[i]).items];
    ConcatSnoc(front, byCode(codes[i]).items);
    SelectAll(byCode(codes[i]).items);
  }

  /** The Windows Installer as the wrapper shows it. */
  class MsiApi {
    const all: Listing<Product>
    const byCode: string -> Listing<Product>
    const related: string -> Listing<string>

    ghost predicate Valid() {
      Ends(all) && (forall c :: Ends(byCode(c))) && (forall u :: Ends(related(u)))
    }

    constructor (all: Listing<Product>, byCode: string -> Listing<Product>, related: string -> Listing<string>)
      requires Ends(all) && (forall c :: Ends(byCode(c))) && (forall u :: Ends(related(u)))
      ensures Valid() && this.all == all && this.byCode == byCode && this.related == related
    {
      this.all, this.byCode, this.related := all, byCode, related;
    }

    /** The cache query: every product is appended, whatever ends the enumeration; its end, 259, counts as success. */
    method QueryAllProducts(products: seq<Product>) returns (code: int, list: seq<Product>)
      requires Valid()
      ensures list == products + all.items && code == if all.end == 259 then 0 else all.end
    {
      list := products;
      var index, ret := 0, ERROR_SUCCESS;
      while ret == ERROR_SUCCESS
        invariant 0 <= index <= |all.items| && list == products + all.items[..index]
        invariant ret == ERROR_SUCCESS || (index == |all.items| && ret == all.end)
        decreases |all.items| - index, if ret == ERROR_SUCCESS then 1 else 0
      {
        if index < |all.items| {
          list := list + [all.items[index]];
          index := index + 1;
        } else {
          ret := all.end;
        }
      }
      code := if ret == ERROR_NO_MORE_ITEMS then ERROR_SUCCESS else ret;
    }

    /** The live query: the order-preserving filter of the enumeration, of one product code or of all. */
    method QueryProducts(productCode: Option<string>, name: string, publisher: string)
      returns (code: int, list: seq<Product>)
      requires Valid()
      ensures var from := if productCode.Some? then byCode(productCode.value) else all;
        list == Select(from.items, name, publisher) && code == if from.end == 259 then 0 else from.end
    {
      var from := if productCode.Some? then byCode(productCode.value) else all;
      list := [];
      var index, ret := 0, ERROR_SUCCESS;
      while ret == ERROR_SUCCESS
        invariant 0 <= index <= |from.items| && list == Select(from.items[..index], name, publisher)
        invariant ret == ERROR_SUCCESS || (index == |from.items| && ret == from.end)
        decreases |from.items| - index, if ret == ERROR_SUCCESS then 1 else 0
      {
        if index < |from.items| {
          var product := from.items[index];
          TestIsSelected(product, name, publisher);
          if MatchesNameAndPublisher(product, name, publisher) || MatchesNameOnly(product, name, publisher)
             || MatchesPublisherOnly(product, name, publisher) || (name == "" && publisher == "") {
            list := list + [product];
          }
          SelectStep(from.items, index, name, publisher);
          index := index + 1;
        } else {
          ret := from.end;
        }
      }
      assert from.items[..index] == from.items;
      code := if ret == ERROR_NO_MORE_ITEMS then ERROR_SUCCESS else ret;
    }

    /** Every product of every related code; the code of an inner query is ignored. */
    method FindRelatedProducts(upgradeCode: string) returns (code: int, products: seq<Product>)
      requires Valid()
      ensures products == AllOf(related(upgradeCode).items, byCode)
      ensures var end := related(upgradeCode).end; code == if end == 259 then 0 else end
    {
      var codes := related(upgradeCode);
      products := [];
      var index, ret := 0, ERROR_SUCCESS;
      while ret == ERROR_SUCCESS
        invariant 0 <= index <= |codes.items| && products == AllOf(codes.items[..index], byCode)
        invariant ret == ERROR_SUCCESS || (index == |codes.items| && ret == codes.end)
        decreases |codes.items| - index, if ret == ERROR_SUCCESS then 1 else 0
      {
        if index < |codes.items| {
          var inner, p := QueryProducts(Some(codes.items[index]), "", "");
          RelatedStep(codes.items, index, byCode);
          products := products + p;
          index := index + 1;
        } else {
          ret := codes.end;
        }
      }
      assert codes.items[..index] == codes.items;
      code := if ret == ERROR_NO_MORE_ITEMS then ERROR_SUCCESS else ret;
    }
  }
}

module DiscoveryMethods {
  import opened Options
  import opened Msi
  import opened RegistryKeys
  import opened Strings

  datatype Package = Package(product: string, version: string)

  datatype MsiRule = MsiRule(isMsi: bool, name: string, vendor: string)

  datatype UpgradeCodeRule = UpgradeCodeRule(isUpgradeCode: bool, upgradeCode: string)

  /** The packages a list of products stands for: all but the advertised ones. */
  function Installed(product: string, ps: seq<Product>): seq<Package> {
    if ps == [] then []
    else
      var last := ps[|ps| - 1];
      Installed(product, ps[..|ps| - 1]) +
      if last.installState != INSTALLSTATE_ADVERTISED then [Package(product, last.version)] else []
  }

  lemma InstalledSnoc(product: string, ps: seq<Product>, p: Product)
    ensures Installed(product, ps + [p]) ==
            Installed(product, ps) +
            if p.installState != INSTALLSTATE_ADVERTISED then [Package(product, p.version)] else []
  {
    assert (ps + [p])[..|ps|] == ps;
  }

  /** Positions of the products the k-th package stands for: increasing, none advertised (1), and no other is missing. */
  ghost predicate StandsFor(product: string, ps: seq<Product>, ix: seq<nat>, packages: seq<Package>) {
    && |ix| == |packages|
    && (forall k | 0 <= k < |ix| ::
          ix[k] < |ps| && ps[ix[k]].installState != 1 && packages[k] == Package(product, ps[ix[k]].version))
    && (forall j, k | 0 <= j < k < |ix| :: ix[j] < ix[k])
    && (forall i | 0 <= i < |ps| && ps[i].installState != 1 :: i in ix)
  }

  lemma StandsForMore(product: string, ps: seq<Product>, ix: seq<nat>, packages: seq<Package>)
    requires ps != [] && StandsFor(product, ps[..|ps| - 1], ix, packages)
    ensures var n := |ps| - 1;
      if ps[n].installState != 1 then StandsFor(product, ps, ix + [n], packages + [Package(product, ps[n].version)])
      else StandsFor(product, ps, ix, packages)
  {
    var n := |ps| - 1;
    forall i | 0 <= i < n && ps[i].installState != 1 ensures i in ix {
      assert ps[..n][i] == ps[i];
    }
  }

  /** Each product that is not advertised gives one package with its version, in order. */
  lemma {:induction false} InstalledIsFilter(product: string, ps: seq<Product>) returns (ix: seq<nat>)
    ensures StandsFor(product, ps, ix, Installed(product, ps))
  {
    if ps == [] {
      ix := [];
    } else {
      var n := |ps| - 1;
      var before := InstalledIsFilter(product, ps[..n]);
      ix := before + if ps[n].installState != INSTALLSTATE_ADVERTISED then [n] else [];
      StandsForMore(product, ps, before, Installed(product, ps[..n]));
    }
  }

  /** What the live lookup appends, given the whole enumeration. */
  function Live(product: string, rule: MsiRule, all: seq<Product>): seq<Package> {
    if rule.isMsi then Installed(product, Select(all, rule.name, rule.vendor)) else []
  }

  /** What the cached lookup appends, given the cached list. */
  function Cached(product: string, rule: MsiRule, cache: seq<Product>): seq<Package> {
    if cache == [] then []
    else
      var p := cache[|cache| - 1];
      Cached(product, rule, cache[..|cache| - 1]) +
      if rule.name != "" && rule.vendor != "" && rule.name == p.name && rule.vendor == p.publisher
         && p.installState != INSTALLSTATE_ADVERTISED
      then [Package(product, p.version)] else []
  }

  lemma CachedSnoc(product: string, rule: MsiRule, cache: seq<Product>, p: Product)
    ensures Cached(product, rule, cache + [p]) ==
            Cached(product, rule, cache) +
            if rule.name != "" && rule.vendor != "" && rule.name == p.name && rule.vendor == p.publisher
               && p.installState != INSTALLSTATE_ADVERTISED
            then [Package(product, p.version)] else []
  {
    assert (cache + [p])[..|cache|] == cache;
  }

  datatype RegistryRule = RegistryRule(isRegistry: bool, install: KeyDef, version: KeyDef)

  /** What the registry lookup appends: the padded version, when both values can be read and it is not empty. */
  function ByRegistry(registry: Registry, product: string, rule: RegistryRule): seq<Package> {
    if !rule.isRegistry || Value(registry, rule.install).None? then []
    else
      var version := Value(registry, rule.version);
      if version.None? || version.value == "" then [] else [Package(product, Padded(version.value))]
  }

  class PackageDiscoveryMethods {
    const m_msiApi: MsiApi
    const registry: Registry

    constructor (msiApi: MsiApi, registry: Registry)
      ensures m_msiApi == msiApi && this.registry == registry
    {
      m_msiApi, this.registry := msiApi, registry;
    }

    /** The value a key definition names; an undecodable key and a missing value are the same to the caller. */
    method ReadValue(def: KeyDef) returns (data: Option<string>)
      ensures data == Value(registry, def)
      ensures var key := Decoded(def.parts);
        data == if key.None? then None else registry.read(key.value, def.wow && registry.is64Bit)
    {
      var decoded := DecodeRegistryPath(def.parts);
      if decoded.None? {
        return None;
      }
      data := registry.read(decoded.value, def.wow && registry.is64Bit);
    }

    /**
     * Something is found exactly when the rule is a registry rule, both values can be read and the version is not
     * empty; it is one package whose version is the one read with as many zeros as are missing to four numbers.
     */
    method DiscoverByRegistry(product: string, rule: RegistryRule, detected: seq<Package>) returns (result: seq<Package>)
      ensures result == detected + ByRegistry(registry, product, rule)
      ensures result != detected <==>
        rule.isRegistry && Value(registry, rule.install).Some? && Value(registry, rule.version) !in {None, Some("")}
      ensures result != detected ==>
        var version := Value(registry, rule.version).value;
        result[|detected|..] == [Package(product, version + Padding(Count(version, '.')))]
    {
      result := detected;
      if !rule.isRegistry {
        return;
      }
      var data := ReadValue(rule.install);
      if data.None? {
        return;
      }
      data := ReadValue(rule.version);
      if data.None? || data.value == "" {
        return;
      }
      var version := PadBuildNumber(data.value);
      PaddedWithZeros(data.value);
      result := result + [Package(product, version)];
      assert result[|detected|..] == [Package(product, version)];
    }

    /** The loop the live lookup and the upgrade-code lookup share. */
    method AppendInstalled(product: string, msiList: seq<Product>, detected: seq<Package>)
      returns (result: seq<Package>)
      ensures result == detected + Installed(product, msiList)
    {
      result := detected;
      for i := 0 to |msiList|
        invariant result == detected + Installed(product, msiList[..i])
      {
        var item := msiList[i];
        if item.installState != INSTALLSTATE_ADVERTISED {
          result := result + [Package(product, item.version)];
        }
        assert msiList[..i + 1] == msiList[..i] + [item];
        InstalledSnoc(product, msiList[..i], item);
      }
      assert msiList[..|msiList|] == msiList;
    }

    method DiscoverByMsi(product: string, rule: MsiRule, detected: seq<Package>) returns (result: seq<Package>)
      requires m_msiApi.Valid()
      ensures result == detected + Live(product, rule, m_msiApi.all.items)
    {
      result := detected;
      if !rule.isMsi {
        return;
      }
      var code, msiList := m_msiApi.QueryProducts(None, rule.name, rule.vendor);
      result := AppendInstalled(product, msiList, detected);
    }

    method DiscoverByMsiRules(product: string, rule: MsiRule, detected: seq<Package>, cache: seq<Product>)
      returns (result: seq<Package>)
      ensures result == detected + Cached(product, rule, cache)
    {
      result := detected;
      for i := 0 to |cache|
        invariant result == detected + Cached(product, rule, cache[..i])
      {
        var p := cache[i];
        if rule.name != "" && rule.vendor != "" && rule.name == p.name && rule.vendor == p.publisher
           && p.installState != INSTALLSTATE_ADVERTISED {
          result := result + [Package(product, p.version)];
        }
        assert cache[..i + 1] == cache[..i] + [p];
        CachedSnoc(product, rule, cache[..i], p);
      }
      assert cache[..|cache|] == cache;
    }

    method DiscoverByMsiUpgradeCode(product: string, rule: UpgradeCodeRule, detected: seq<Package>)
      returns (result: seq<Package>)
      requires m_msiApi.Valid()
      ensures result == detected +
        if rule.isUpgradeCode
        then Installed(product, AllOf(m_msiApi.related(rule.upgradeCode).items, m_msiApi.byCode)) else []
    {
      result := detected;
      if !rule.isUpgradeCode {
        return;
      }
      var code, msiList := m_msiApi.FindRelatedProducts(rule.upgradeCode);
      result := AppendInstalled(product, msiList, detected);
    }
  }

  /** When both criteria are given the cached lookup of a rule, whatever its type, refines the live query of an msi rule. */
  lemma {:induction false} CacheRefinesLive(product: string, rule: MsiRule, all: seq<Product>)
    requires rule.name != "" && rule.vendor != ""
    ensures Cached(product, rule, all) == Live(product, rule.(isMsi := true), all)
  {
    if all != [] {
      var front, last := all[..|all| - 1], all[|all| - 1];
      CacheRefinesLive(product, rule, front);
      assert Select(front, rule.name, rule.vendor) + [] == Select(front, rule.name, rule.vendor);
      InstalledSnoc(product, Select(front, rule.name, rule.vendor), last);
    }
  }

  /** The cached lookup finds nothing when a criterion is missing. */
  lemma {:induction false} CacheNeedsBoth(product: string, rule: MsiRule, cache: seq<Product>)
    requires rule.name == "" || rule.vendor == ""
    ensures Cached(product, rule, cache) == []
  {
    if cache != [] {
      CacheNeedsBoth(product, rule, cache[..|cache| - 1]);
    }
  }

  ghost predicate AlwaysAgree(product: string, rule: MsiRule) {
    forall all: seq<Product> :: Cached(product, rule, all) == Live(product, rule, all)
  }

  /**
   * Exactly when the two lookups agree on every set of installed products: the rule is of type msi and has both
   * criteria, or neither holds. An msi rule with a criterion missing finds more live;
   * a rule of another type, which the cached lookup does not look at, finds more cached.
   */
  lemma CacheAgreesExactly(product: string, rule: MsiRule)
    ensures AlwaysAgree(product, rule) <==> (rule.isMsi <==> rule.name != "" && rule.vendor != "")
  {
    var both := rule.name != "" && rule.vendor != "";
    if rule.isMsi && both {
      forall all ensures Cached(product, rule, all) == Live(product, rule, all) {
        CacheRefinesLive(product, rule, all);
      }
    } else if !rule.isMsi && !both {
      forall all ensures Cached(product, rule, all) == Live(product, rule, all) {
        CacheNeedsBoth(product, rule, all);
      }
    } else {
      var p := Product("", rule.name, rule.vendor, "", INSTALLSTATE_DEFAULT);
      var one := [] + [p];
      CachedSnoc(product, rule, [], p);
      SelectSnoc([], p, rule.name, rule.vendor);
      InstalledSnoc(product, [], p);
      assert |Cached(product, rule, one)| != |Live(product, rule, one)|;
    }
  }
}
