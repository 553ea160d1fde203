/** What an inventory holds: which rule found a package, and what each of its configuration entries says. */
module InventoryContents {
  import opened Lists
  import opened Options
  import opened Msi
  import opened RegistryKeys
  import opened DiscoveryMethods
  import opened KnownFolders
  import opened PackageInventory

  // ----- which rule found the packages -----

  function UpgradeCodeHits(api: MsiApi, rules: Rules): seq<seq<Package>> {
    seq(|rules.upgradeCodes|, i requires 0 <= i < |rules.upgradeCodes| =>
      ByUpgradeCode(api, rules.product, rules.upgradeCodes[i]))
  }

  function MsiHits(api: MsiApi, rules: Rules): seq<seq<Package>> {
    seq(|rules.msi|, i requires 0 <= i < |rules.msi| => Cached(rules.product, rules.msi[i], api.all.items))
  }

  function RegistryHits(registry: Registry, rules: Rules): seq<seq<Package>> {
    seq(|rules.registry|, i requires 0 <= i < |rules.registry| =>
      ByRegistry(registry, rules.product, rules.registry[i]))
  }

  lemma {:induction false} FirstOfBoth<T>(a: seq<seq<T>>, b: seq<seq<T>>)
    ensures FirstNonEmpty(a + b) == if FirstNonEmpty(a) != [] then FirstNonEmpty(a) else FirstNonEmpty(b)
  {
    if a == [] {
      assert a + b == b;
    } else {
      assert (a + b)[0] == a[0] && (a + b)[1..] == a[1..] + b;
      FirstOfBoth(a[1..], b);
    }
  }

  lemma OutcomesByKind(api: MsiApi, registry: Registry, rules: Rules)
    ensures Outcomes(api, registry, rules) ==
            UpgradeCodeHits(api, rules) + MsiHits(api, rules) + RegistryHits(registry, rules)
  {
  }

  /**
   * The packages detected are those of the first upgrade-code rule that finds any; without one, of the first MSI rule
   * that does; and without one, of the first registry rule.
   */
  lemma RuleOrder(api: MsiApi, registry: Registry, rules: Rules)
    ensures var byCode, byMsi := FirstNonEmpty(UpgradeCodeHits(api, rules)), FirstNonEmpty(MsiHits(api, rules));
      FirstNonEmpty(Outcomes(api, registry, rules)) ==
      if byCode != [] then byCode
      else if byMsi != [] then byMsi
      else FirstNonEmpty(RegistryHits(registry, rules))
  {
    OutcomesByKind(api, registry, rules);
    FirstOfBoth(UpgradeCodeHits(api, rules) + MsiHits(api, rules), RegistryHits(registry, rules));
    FirstOfBoth(UpgradeCodeHits(api, rules), MsiHits(api, rules));
  }

  // ----- the entries of one configurable -----

  /** The first files are taken, as many as the limit says, and one when the limit is 0. */
  lemma LimitIsPrefix(c: Configurable, files: seq<FilePath>)
    ensures Limit(c, files) <= files
    ensures |Limit(c, files)| ==
            if |files| <= c.maxInstances then |files| else if c.maxInstances == 0 then 1 else c.maxInstances
  {
  }

  /** `e` is the entry of one of the first files found for the configurable. */
  ghost predicate FromFile(search: Search, c: Configurable, e: ConfigInfo) {
    && Chosen(search, c).Some?
    && var (atDeploy, found) := Chosen(search, c).value;
       exists k | 0 <= k < |found.files| ::
         (k == 0 || k < c.maxInstances) && EntryOf(c, atDeploy, found.info, found.files[k], e)
  }

  /** A configurable has one entry for each of the files that count, in order. */
  lemma EntriesOfConfigurable(search: Search, c: Configurable)
    requires CandidatesOf(search, c).Some?
    ensures Chosen(search, c).Some?
    ensures var (atDeploy, found) := Chosen(search, c).value;
      var files, entries := Limit(c, found.files), CandidatesOf(search, c).value;
      |entries| == |files| && forall k | 0 <= k < |files| :: EntryOf(c, atDeploy, found.info, files[k], entries[k])
  {
    var (atDeploy, found) := Chosen(search, c).value;
    InfosAreEntries(c, atDeploy, found.info, Limit(c, found.files));
  }

  lemma EntryIsFromFile(search: Search, c: Configurable, k: nat)
    requires CandidatesOf(search, c).Some? && k < |CandidatesOf(search, c).value|
    ensures FromFile(search, c, CandidatesOf(search, c).value[k])
  {
    EntriesOfConfigurable(search, c);
    var (atDeploy, found) := Chosen(search, c).value;
    LimitIsPrefix(c, found.files);
    assert EntryOf(c, atDeploy, found.info, found.files[k], CandidatesOf(search, c).value[k]);
  }

  // ----- the entries of a package -----

  ghost predicate FromSome(search: Search, cs: seq<Configurable>, e: ConfigInfo) {
    exists c <- cs :: FromFile(search, c, e)
  }

  ghost predicate AllResolved(search: Search, cs: seq<Configurable>) {
    forall c <- cs :: CandidatesOf(search, c).Some?
  }

  function EntryLists(search: Search, cs: seq<Configurable>): seq<seq<ConfigInfo>>
    requires AllResolved(search, cs)
  {
    seq(|cs|, i requires 0 <= i < |cs| => CandidatesOf(search, cs[i]).value)
  }

  /** The candidates are the entries of one configurable after the other, if all of them can be resolved and reported. */
  lemma {:induction false} CandidatesInOrder(search: Search, cs: seq<Configurable>)
    ensures Candidates(search, cs).Some? <==> AllResolved(search, cs)
    ensures AllResolved(search, cs) ==> Candidates(search, cs).value == Concat(EntryLists(search, cs))
  {
    if cs != [] {
      var front, last := cs[..|cs| - 1], cs[|cs| - 1];
      CandidatesInOrder(search, front);
      assert cs == front + [last];
      if AllResolved(search, cs) {
        assert EntryLists(search, cs) == EntryLists(search, front) + [CandidatesOf(search, last).value];
        ConcatSnoc(EntryLists(search, front), CandidatesOf(search, last).value);
      }
    }
  }

  lemma FromMore(search: Search, cs: seq<Configurable>, c: Configurable, e: ConfigInfo)
    requires FromSome(search, cs, e) || FromFile(search, c, e)
    ensures FromSome(search, cs + [c], e)
  {
    assert c in cs + [c] && forall d <- cs :: d in cs + [c];
  }

  lemma {:induction false} CandidatesFromFiles(search: Search, cs: seq<Configurable>)
    ensures var r := Candidates(search, cs); r.Some? ==> forall e <- r.value :: FromSome(search, cs, e)
  {
    var r := Candidates(search, cs);
    if cs != [] && r.Some? {
      var front, last := cs[..|cs| - 1], cs[|cs| - 1];
      assert cs == front + [last];
      CandidatesFromFiles(search, front);
      var before, entries := Candidates(search, front).value, CandidatesOf(search, last).value;
      forall e <- r.value ensures FromSome(search, cs, e) {
        if e !in before {
          var k :| 0 <= k < |entries| && entries[k] == e;
          EntryIsFromFile(search, last, k);
        }
        FromMore(search, front, last, e);
      }
    }
  }

  /** Which candidates are kept behind the old list: the fresh ones, at increasing positions, and no other. */
  ghost predicate Keeps(existing: seq<ConfigInfo>, cs: seq<ConfigInfo>, n: nat, ix: seq<nat>, list: seq<ConfigInfo>)
    requires n <= |cs|
  {
    && |list| == |existing| + |ix| && existing <= list
    && (forall k | 0 <= k < |ix| :: ix[k] < n && list[|existing| + k] == cs[ix[k]] && Fresh(existing, cs, ix[k]))
    && (forall j, k | 0 <= j < k < |ix| :: ix[j] < ix[k])
    && (forall i | 0 <= i < n && Fresh(existing, cs, i) :: i in ix)
  }

  lemma KeepsMore(existing: seq<ConfigInfo>, cs: seq<ConfigInfo>, n: nat, ix: seq<nat>, list: seq<ConfigInfo>)
    requires n < |cs| && Keeps(existing, cs, n, ix, list)
    ensures if Fresh(existing, cs, n) then Keeps(existing, cs, n + 1, ix + [n], list + [cs[n]])
            else Keeps(existing, cs, n + 1, ix, list)
  {
  }

  ghost predicate InOrder(existing: seq<ConfigInfo>, cs: seq<ConfigInfo>, n: nat, list: seq<ConfigInfo>)
    requires n <= |cs|
  {
    exists ix :: Keeps(existing, cs, n, ix, list)
  }

  lemma InOrderMore(existing: seq<ConfigInfo>, cs: seq<ConfigInfo>, n: nat, list: seq<ConfigInfo>, more: seq<ConfigInfo>)
    requires n < |cs| && InOrder(existing, cs, n, list)
    requires more == if Fresh(existing, cs, n) then list + [cs[n]] else list
    ensures InOrder(existing, cs, n + 1, more)
  {
    var ix :| Keeps(existing, cs, n, ix, list);
    KeepsMore(existing, cs, n, ix, list);
  }

  /** What is kept is the old list and behind it the fresh candidates in their order. */
  lemma {:induction false} KeptInOrder(existing: seq<ConfigInfo>, cs: seq<ConfigInfo>, n: nat)
    requires n <= |cs|
    ensures InOrder(existing, cs, n, Kept(existing, cs, n))
  {
    if n == 0 {
      assert Keeps(existing, cs, n, [], Kept(existing, cs, n));
    } else {
      KeptInOrder(existing, cs, n - 1);
      InOrderMore(existing, cs, n - 1, Kept(existing, cs, n - 1), Kept(existing, cs, n));
    }
  }

  lemma KeptIsCandidate(cs: seq<ConfigInfo>, list: seq<ConfigInfo>, e: ConfigInfo)
    requires InOrder([], cs, |cs|, list) && e in list
    ensures e in cs
  {
    var ix :| Keeps([], cs, |cs|, ix, list);
    var k :| 0 <= k < |list| && list[k] == e;
    assert cs[ix[k]] == e;
  }

  // ----- the inventory -----

  lemma {:induction false} ItemsInOrder(search: Search, detected: seq<Package>, configurables: seq<Configurable>)
    requires ItemsOf(search, detected, configurables).Some?
    ensures var items := ItemsOf(search, detected, configurables).value;
      |items| == |detected| && forall k | 0 <= k < |items| ::
        && items[k].package == detected[k] && Candidates(search, configurables).Some?
        && var cs := Candidates(search, configurables).value; items[k].configs == Kept([], cs, |cs|)
  {
    if detected != [] {
      ItemsInOrder(search, detected[..|detected| - 1], configurables);
    }
  }

  ghost function Detected(api: MsiApi, registry: Registry, rules: Rules): seq<Package> {
    FirstNonEmpty(Outcomes(api, registry, rules))
  }

  ghost predicate AllListed(api: MsiApi, registry: Registry, search: Search, catalog: seq<Rules>) {
    forall rules <- catalog :: ItemsOf(search, Detected(api, registry, rules), rules.configurables).Some?
  }

  ghost function ItemLists(api: MsiApi, registry: Registry, search: Search, catalog: seq<Rules>): seq<seq<Item>>
    requires AllListed(api, registry, search, catalog)
  {
    seq(|catalog|, i requires 0 <= i < |catalog| =>
      ItemsOf(search, Detected(api, registry, catalog[i]), catalog[i].configurables).value)
  }

  lemma ItemListsSnoc(api: MsiApi, registry: Registry, search: Search, front: seq<Rules>, last: Rules)
    requires AllListed(api, registry, search, front + [last])
    ensures AllListed(api, registry, search, front)
    ensures ItemsOf(search, Detected(api, registry, last), last.configurables).Some?
    ensures ItemLists(api, registry, search, front + [last]) ==
            ItemLists(api, registry, search, front)
            + [ItemsOf(search, Detected(api, registry, last), last.configurables).value]
  {
    assert last in front + [last] && forall rules <- front :: rules in front + [last];
  }

  lemma ListedUnfold(api: MsiApi, registry: Registry, search: Search, front: seq<Rules>, last: Rules)
    ensures AllListed(api, registry, search, front + [last]) <==>
            AllListed(api, registry, search, front)
            && ItemsOf(search, Detected(api, registry, last), last.configurables).Some?
  {
    assert last in front + [last] && forall rules <- front :: rules in front + [last];
  }

  lemma InventoryUnfold(api: MsiApi, registry: Registry, search: Search, front: seq<Rules>, last: Rules)
    ensures var before := Inventory(api, registry, search, front);
      var items := ItemsOf(search, Detected(api, registry, last), last.configurables);
      Inventory(api, registry, search, front + [last]) ==
      if before.None? || items.None? then None else Some(before.value + items.value)
  {
    assert (front + [last])[..|front|] == front;
  }

  /** The inventory is the packages of one product of the catalog after the other, if all can be listed. */
  lemma {:induction false} InventoryInOrder(api: MsiApi, registry: Registry, search: Search, catalog: seq<Rules>)
    ensures Inventory(api, registry, search, catalog).Some? <==> AllListed(api, registry, search, catalog)
    ensures AllListed(api, registry, search, catalog) ==>
      Inventory(api, registry, search, catalog).value == Concat(ItemLists(api, registry, search, catalog))
  {
    if catalog != [] {
      var front, last := catalog[..|catalog| - 1], catalog[|catalog| - 1];
      assert catalog == front + [last];
      InventoryInOrder(api, registry, search, front);
      InventoryUnfold(api, registry, search, front, last);
      ListedUnfold(api, registry, search, front, last);
      if AllListed(api, registry, search, catalog) {
        ItemListsSnoc(api, registry, search, front, last);
        ConcatSnoc(ItemLists(api, registry, search, front),
                   ItemsOf(search, Detected(api, registry, last), last.configurables).value);
      }
    }
  }

  /** A package that the rules detect, with entries of their configurables' files only. */
  ghost predicate ItemOf(api: MsiApi, registry: Registry, search: Search, rules: Rules, item: Item) {
    item.package in Detected(api, registry, rules) && forall e <- item.configs :: FromSome(search, rules.configurables, e)
  }

  ghost predicate ItemOfSome(api: MsiApi, registry: Registry, search: Search, catalog: seq<Rules>, item: Item) {
    exists rules <- catalog :: ItemOf(api, registry, search, rules, item)
  }

  lemma ItemIsOf(api: MsiApi, registry: Registry, search: Search, rules: Rules, item: Item)
    requires ItemsOf(search, Detected(api, registry, rules), rules.configurables).Some?
    requires item in ItemsOf(search, Detected(api, registry, rules), rules.configurables).value
    ensures ItemOf(api, registry, search, rules, item)
  {
    var items := ItemsOf(search, Detected(api, registry, rules), rules.configurables).value;
    ItemsInOrder(search, Detected(api, registry, rules), rules.configurables);
    var k :| 0 <= k < |items| && items[k] == item;
    var cs := Candidates(search, rules.configurables).value;
    CandidatesFromFiles(search, rules.configurables);
    KeptInOrder([], cs, |cs|);
    forall e <- item.configs ensures FromSome(search, rules.configurables, e) {
      KeptIsCandidate(cs, item.configs, e);
    }
  }

  lemma OfMore(api: MsiApi, registry: Registry, search: Search, front: seq<Rules>, last: Rules, item: Item)
    requires ItemOfSome(api, registry, search, front, item) || ItemOf(api, registry, search, last, item)
    ensures ItemOfSome(api, registry, search, front + [last], item)
  {
    assert last in front + [last] && forall rules <- front :: rules in front + [last];
  }

  /**
   * Every package of an inventory was detected by a product's rules, and every configuration entry of it is the entry
   * of a file found for one of that product's configurables, with both its paths and both its unresolved paths.
   */
  lemma {:induction false} InventoryEntries(api: MsiApi, registry: Registry, search: Search, catalog: seq<Rules>)
    ensures var r := Inventory(api, registry, search, catalog);
      r.Some? ==> forall item <- r.value :: ItemOfSome(api, registry, search, catalog, item)
  {
    var r := Inventory(api, registry, search, catalog);
    if catalog != [] && r.Some? {
      var front, last := catalog[..|catalog| - 1], catalog[|catalog| - 1];
      assert catalog == front + [last];
      InventoryEntries(api, registry, search, front);
      InventoryUnfold(api, registry, search, front, last);
      forall item <- r.value ensures ItemOfSome(api, registry, search, catalog, item) {
        if item !in Inventory(api, registry, search, front).value {
          ItemIsOf(api, registry, search, last, item);
        }
        OfMore(api, registry, search, front, last, item);
      }
    }
  }

  // ----- an entry's unresolved path and its path -----

  /** The pattern of the side an entry was found on, and what it resolved to. */
  function PatternOf(c: Configurable, e: ConfigInfo): string {
    if e.atDeployPath then c.unresolvedDeployPath else c.unresolvedCfgPath
  }

  function ResolvedOf(c: Configurable, e: ConfigInfo): string {
    if e.atDeployPath then c.deployPath else c.cfgPath
  }

  function UnresolvedPathOf(e: ConfigInfo): string {
    if e.atDeployPath then e.unresolvedDeployPath else e.unresolvedCfgPath
  }

  /** An entry's unresolved path is the report of its path by its own side's folder. */
  lemma EntryReported(search: Search, c: Configurable, e: ConfigInfo)
    requires FromFile(search, c, e)
    ensures var info := FolderOf(PatternOf(c, e), ResolvedOf(c, e), TAG);
      info.Some? && Reported(PathOf(e), info.value) == Some(UnresolvedPathOf(e))
  {
    var (atDeploy, found) := Chosen(search, c).value;
    var k :| 0 <= k < |found.files| && EntryOf(c, atDeploy, found.info, found.files[k], e);
    assert Discover(search, PatternOf(c, e), ResolvedOf(c, e)) == Some(found);
  }

  /** The known folder of a name and its text. */
  function FolderNamed(name: string, folders: Folders): string {
    folders(IdOf(TAG, name))
  }

  /** A report of a file inside the folder is the file with the tag in the folder's place, and resolves to the file. */
  lemma ReportResolvesBack(name: string, rest: string, folders: Folders, file: string, info: FolderInfo, report: string)
    requires '>' !in name && FolderNamed(name, folders) != ""
    requires var k := FolderNamed(name, folders); Find(k + rest, rest) == Some(|k|) && k <= file
    requires var pattern := Tagged(TAG, name) + rest; FolderOf(pattern, ResolvePath(pattern, folders), TAG) == Some(info)
    requires Reported(file, info) == Some(report)
    ensures report == Tagged(TAG, name) + file[|FolderNamed(name, folders)|..] && ResolvePath(report, folders) == file
  {
    var k := FolderNamed(name, folders);
    assert file == k + file[|k|..];
    ResolveUnresolve(name, rest, file[|k|..], folders);
  }

  /**
   * For a pattern with a known folder in front whose remaining path first occurs right behind the folder, the unresolved
   * path of an entry inside the folder is its path with the tag in the folder's place; resolving it gives the path.
   */
  lemma EntryResolvesBack(search: Search, c: Configurable, e: ConfigInfo, name: string, rest: string, folders: Folders)
    requires FromFile(search, c, e) && '>' !in name && FolderNamed(name, folders) != ""
    requires PatternOf(c, e) == Tagged(TAG, name) + rest && ResolvedOf(c, e) == ResolvePath(PatternOf(c, e), folders)
    requires var k := FolderNamed(name, folders); Find(k + rest, rest) == Some(|k|) && k <= PathOf(e)
    ensures UnresolvedPathOf(e) == Tagged(TAG, name) + PathOf(e)[|FolderNamed(name, folders)|..]
    ensures ResolvePath(UnresolvedPathOf(e), folders) == PathOf(e)
  {
    EntryReported(search, c, e);
    var info := FolderOf(PatternOf(c, e), ResolvedOf(c, e), TAG).value;
    ReportResolvesBack(name, rest, folders, PathOf(e), info, UnresolvedPathOf(e));
  }

  /** For a pattern that resolving did not change, an entry's two paths are the same. */
  lemma EntryAsFound(search: Search, c: Configurable, e: ConfigInfo)
    requires FromFile(search, c, e) && PatternOf(c, e) == ResolvedOf(c, e)
    ensures UnresolvedPathOf(e) == PathOf(e)
  {
    EntryReported(search, c, e);
  }
}
