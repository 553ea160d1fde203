/** Building the package inventory: first discovery that finds something, then each package's configuration files. */
module PackageInventory {
  import opened Options
  import opened Msi
  import opened RegistryKeys
  import opened DiscoveryMethods
  import opened KnownFolders

  // ----- which discovery method wins -----

  datatype Rules = Rules(product: string, upgradeCodes: seq<UpgradeCodeRule>, msi: seq<MsiRule>,
                         registry: seq<RegistryRule>, configurables: seq<Configurable>) {
    function Count(): nat { |upgradeCodes| + |msi| + |registry| }
  }

  function ByUpgradeCode(api: MsiApi, product: string, rule: UpgradeCodeRule): seq<Package> {
    if rule.isUpgradeCode then Installed(product, AllOf(api.related(rule.upgradeCode).items, api.byCode)) else []
  }

  /** What the j-th rule finds, upgrade codes before MSI rules before registry rules. */
  function Outcome(api: MsiApi, registry: Registry, rules: Rules, j: nat): seq<Package>
    requires j < rules.Count()
  {
    var u, m := |rules.upgradeCodes|, |rules.upgradeCodes| + |rules.msi|;
    if j < u then ByUpgradeCode(api, rules.product, rules.upgradeCodes[j])
    else if j < m then Cached(rules.product, rules.msi[j - u], api.all.items)
    else ByRegistry(registry, rules.product, rules.registry[j - m])
  }

  function Outcomes(api: MsiApi, registry: Registry, rules: Rules): seq<seq<Package>> {
    seq(rules.Count(), j requires 0 <= j < rules.Count() => Outcome(api, registry, rules, j))
  }

  /** The first n rules find nothing. */
  ghost predicate Dry(api: MsiApi, registry: Registry, rules: Rules, n: nat)
    requires n <= rules.Count()
  {
    forall j | 0 <= j < n :: Outcome(api, registry, rules, j) == []
  }

  /** The first of the lists that is not empty. */
  function FirstNonEmpty<T>(lists: seq<seq<T>>): (r: seq<T>)
    ensures r == [] <==> forall k | 0 <= k < |lists| :: lists[k] == []
    ensures r != [] ==> exists k | 0 <= k < |lists| :: lists[k] == r && forall j | 0 <= j < k :: lists[j] == []
  {
    if lists == [] then []
    else if lists[0] != [] then lists[0]
    else
      var later := FirstNonEmpty(lists[1..]);
      assert forall k | 0 < k < |lists| :: lists[k] == lists[1..][k - 1];
      assert forall k | 0 <= k < |lists| - 1 :: lists[1..][k] == lists[k + 1];
      later
  }

  lemma FirstAt<T>(lists: seq<seq<T>>, k: nat)
    requires k < |lists| && lists[k] != [] && forall j | 0 <= j < k :: lists[j] == []
    ensures FirstNonEmpty(lists) == lists[k]
  {
    var r := FirstNonEmpty(lists);
    var i :| 0 <= i < |lists| && lists[i] == r && forall j | 0 <= j < i :: lists[j] == [];
    assert i == k;
  }

  lemma DryMore(api: MsiApi, registry: Registry, rules: Rules, n: nat)
    requires n < rules.Count() && Dry(api, registry, rules, n) && Outcome(api, registry, rules, n) == []
    ensures Dry(api, registry, rules, n + 1)
  {
  }

  lemma FirstHit(api: MsiApi, registry: Registry, rules: Rules, k: nat)
    requires k < rules.Count() && Dry(api, registry, rules, k) && Outcome(api, registry, rules, k) != []
    ensures FirstNonEmpty(Outcomes(api, registry, rules)) == Outcome(api, registry, rules, k)
  {
    FirstAt(Outcomes(api, registry, rules), k);
  }

  lemma NoHit(api: MsiApi, registry: Registry, rules: Rules)
    requires Dry(api, registry, rules, rules.Count())
    ensures FirstNonEmpty(Outcomes(api, registry, rules)) == []
  {
    var outcomes := Outcomes(api, registry, rules);
    assert forall k | 0 <= k < |outcomes| :: outcomes[k] == Outcome(api, registry, rules, k);
  }

  // ----- configuration files -----

  /** A discovered file always has a name. */
  type FilePath = s: string | s != "" witness "f"

  /** The wildcard search, followed by the removal of paths that are not proper UTF-8. */
  type Search = string -> seq<FilePath>

  datatype Configurable = Configurable(deployPath: string, unresolvedDeployPath: string,
                                       cfgPath: string, unresolvedCfgPath: string, maxInstances: nat)

  datatype ConfigInfo = ConfigInfo(deployPath: string, unresolvedDeployPath: string,
                                   cfgPath: string, unresolvedCfgPath: string, atDeployPath: bool)

  datatype Discovered = Discovered(info: FolderInfo, files: seq<FilePath>)

  const NOTHING := Discovered(FolderInfo("", ""), [])

  /** ResolveAndDiscover: the folder information and the files; None stands for std::out_of_range. */
  function Discover(search: Search, unresolved: string, resolved: string): Option<Discovered> {
    var info := FolderOf(unresolved, resolved, TAG);
    if info.Some? then Some(Discovered(info.value, search(resolved))) else None
  }

  /**
   * What is discovered for a pattern with a known folder in front: the files of the resolved pattern, each of them
   * reported so that resolving the report gives the file back.
   */
  lemma DiscoveredResolveBack(search: Search, name: string, rest: string, folders: Folders, s: string)
    requires '>' !in name && folders(IdOf(TAG, name)) != ""
    requires var k := folders(IdOf(TAG, name)); Find(k + rest, rest) == Some(|k|)
    ensures var k, pattern := folders(IdOf(TAG, name)), Tagged(TAG, name) + rest;
      var r := Discover(search, pattern, ResolvePath(pattern, folders));
      && r.Some? && r.value.files == search(k + rest)
      && var reported := Reported(k + s, r.value.info);
         reported == Some(Tagged(TAG, name) + s) && ResolvePath(reported.value, folders) == k + s
  {
    ResolveUnresolve(name, rest, s, folders);
  }

  /** A path that resolving changed although it holds no tag. */
  ghost predicate Unresolvable(unresolved: string, resolved: string) {
    unresolved != resolved && forall i: nat | i <= |unresolved| :: !OccursAt(unresolved, TAG, i)
  }

  /** The deploy path's files if there are any, else the configuration path's. */
  function Chosen(search: Search, c: Configurable): (r: Option<(bool, Discovered)>) {
    var deploy := if c.deployPath == "" then Some(NOTHING) else Discover(search, c.unresolvedDeployPath, c.deployPath);
    if deploy.None? then None
    else if deploy.value.files != [] then Some((true, deploy.value))
    else
      var cfg := Discover(search, c.unresolvedCfgPath, c.cfgPath);
      if cfg.Some? then Some((false, cfg.value)) else None
  }

  function Least(a: nat, b: nat): nat { if a <= b then a else b }

  function Limit(c: Configurable, files: seq<FilePath>): seq<FilePath> {
    files[..Least(|files|, if c.maxInstances == 0 then 1 else c.maxInstances)]
  }

  function Info(c: Configurable, atDeploy: bool, file: FilePath, reported: string): ConfigInfo {
    if atDeploy then ConfigInfo(file, reported, "", c.unresolvedCfgPath, true)
    else ConfigInfo("", "", file, reported, false)
  }

  /** One entry a file; None when one of the files cannot be reported. */
  function Infos(c: Configurable, atDeploy: bool, info: FolderInfo, files: seq<FilePath>): Option<seq<ConfigInfo>> {
    if files == [] then Some([])
    else
      var n := |files| - 1;
      var front, last := Infos(c, atDeploy, info, files[..n]), Reported(files[n], info);
      if front.None? || last.None? then None else Some(front.value + [Info(c, atDeploy, files[n], last.value)])
  }

  function CandidatesOf(search: Search, c: Configurable): Option<seq<ConfigInfo>> {
    var chosen := Chosen(search, c);
    if chosen.None? then None
    else Infos(c, chosen.value.0, chosen.value.1.info, Limit(c, chosen.value.1.files))
  }

  /** The candidates of all configurables, in order. */
  function Candidates(search: Search, cs: seq<Configurable>): Option<seq<ConfigInfo>> {
    if cs == [] then Some([])
    else
      var front, last := Candidates(search, cs[..|cs| - 1]), CandidatesOf(search, cs[|cs| - 1]);
      if front.None? || last.None? then None else Some(front.value + last.value)
  }

  function PathOf(c: ConfigInfo): string {
    if c.atDeployPath then c.deployPath else c.cfgPath
  }

  /** A candidate carries exactly one path, a file's, where its flag says. */
  predicate Candidate(c: ConfigInfo) {
    PathOf(c) != "" && (if c.atDeployPath then c.cfgPath else c.deployPath) == ""
  }

  ghost predicate AreCandidates(cs: seq<ConfigInfo>) {
    forall k | 0 <= k < |cs| :: Candidate(cs[k])
  }

  /**
   * The entry of one file: the file as its path and its report as the unresolved path, on the side the file was found;
   * on the other side no path, and the configurable's own unresolved configuration path or none.
   */
  predicate EntryOf(c: Configurable, atDeploy: bool, info: FolderInfo, file: FilePath, e: ConfigInfo) {
    && e.atDeployPath == atDeploy
    && if atDeploy then
         && e.deployPath == file && Reported(file, info) == Some(e.unresolvedDeployPath)
         && e.cfgPath == "" && e.unresolvedCfgPath == c.unresolvedCfgPath
       else
         && e.cfgPath == file && Reported(file, info) == Some(e.unresolvedCfgPath)
         && e.deployPath == "" && e.unresolvedDeployPath == ""
  }

  lemma {:induction false} InfosAreEntries(c: Configurable, atDeploy: bool, info: FolderInfo, files: seq<FilePath>)
    ensures var r := Infos(c, atDeploy, info, files);
      && (r.Some? <==> forall k | 0 <= k < |files| :: Reported(files[k], info).Some?)
      && (r.Some? ==>
            |r.value| == |files| && forall k | 0 <= k < |files| :: EntryOf(c, atDeploy, info, files[k], r.value[k]))
  {
    if files != [] {
      InfosAreEntries(c, atDeploy, info, files[..|files| - 1]);
    }
  }

  lemma InfosAreCandidates(c: Configurable, atDeploy: bool, info: FolderInfo, files: seq<FilePath>)
    ensures var r := Infos(c, atDeploy, info, files); r.Some? ==> AreCandidates(r.value)
  {
    InfosAreEntries(c, atDeploy, info, files);
    var r := Infos(c, atDeploy, info, files);
    if r.Some? {
      forall k | 0 <= k < |r.value| ensures Candidate(r.value[k]) {
        assert EntryOf(c, atDeploy, info, files[k], r.value[k]);
      }
    }
  }

  lemma {:induction false} AllCandidates(search: Search, cs: seq<Configurable>)
    ensures var r := Candidates(search, cs); r.Some? ==> AreCandidates(r.value)
  {
    if cs != [] {
      var c := cs[|cs| - 1];
      AllCandidates(search, cs[..|cs| - 1]);
      if Chosen(search, c).Some? {
        var (atDeploy, found) := Chosen(search, c).value;
        InfosAreCandidates(c, atDeploy, found.info, Limit(c, found.files));
      }
    }
  }

  predicate Mentions(c: ConfigInfo, path: string) {
    c.deployPath == path || c.cfgPath == path
  }

  /** No entry of the old list and no earlier candidate has the path of the k-th candidate. */
  ghost predicate Fresh(existing: seq<ConfigInfo>, cs: seq<ConfigInfo>, k: nat)
    requires k < |cs|
  {
    && (forall e <- existing :: !Mentions(e, PathOf(cs[k])))
    && (forall j | 0 <= j < k :: PathOf(cs[j]) != PathOf(cs[k]))
  }

  /** The old list followed by those of the first n candidates that are fresh. */
  ghost function Kept(existing: seq<ConfigInfo>, cs: seq<ConfigInfo>, n: nat): seq<ConfigInfo>
    requires n <= |cs|
  {
    if n == 0 then existing else Kept(existing, cs, n - 1) + if Fresh(existing, cs, n - 1) then [cs[n - 1]] else []
  }

  /** The comparisons made against one entry of the list built so far. */
  predicate Clashes(c: ConfigInfo, it: ConfigInfo) {
    || (c.atDeployPath && c.deployPath == it.deployPath)
    || (c.cfgPath != "" && c.cfgPath == it.cfgPath)
    || (c.atDeployPath && c.deployPath == it.cfgPath)
    || (c.cfgPath != "" && c.cfgPath == it.deployPath)
  }

  ghost predicate UniqueIn(c: ConfigInfo, list: seq<ConfigInfo>) {
    forall it <- list :: !Clashes(c, it)
  }

  lemma ClashesMeans(c: ConfigInfo, it: ConfigInfo)
    requires Candidate(c)
    ensures Clashes(c, it) <==> Mentions(it, PathOf(c))
  {
  }

  lemma MentionsSnoc(list: seq<ConfigInfo>, c: ConfigInfo, path: string)
    ensures (exists e <- list + [c] :: Mentions(e, path)) <==> (exists e <- list :: Mentions(e, path)) || Mentions(c, path)
  {
    assert c in list + [c] && forall e <- list :: e in list + [c];
  }

  /** A path is in the list built so far exactly when the old list or a candidate seen so far has it. */
  lemma {:induction false} KeptMentions(existing: seq<ConfigInfo>, cs: seq<ConfigInfo>, n: nat, path: string)
    requires n <= |cs| && path != "" && AreCandidates(cs)
    ensures (exists e <- Kept(existing, cs, n) :: Mentions(e, path)) <==>
            (exists e <- existing :: Mentions(e, path)) || (exists k | 0 <= k < n :: PathOf(cs[k]) == path)
  {
    if n > 0 {
      KeptMentions(existing, cs, n - 1, path);
      var c := cs[n - 1];
      assert Mentions(c, path) <==> PathOf(c) == path;
      if Fresh(existing, cs, n - 1) {
        MentionsSnoc(Kept(existing, cs, n - 1), c, path);
      }
    }
  }

  /** The source's test against the list built so far decides freshness. */
  lemma UniqueMeansFresh(existing: seq<ConfigInfo>, cs: seq<ConfigInfo>, n: nat)
    requires n < |cs| && AreCandidates(cs)
    ensures UniqueIn(cs[n], Kept(existing, cs, n)) <==> Fresh(existing, cs, n)
  {
    KeptMentions(existing, cs, n, PathOf(cs[n]));
    forall it <- Kept(existing, cs, n) ensures Clashes(cs[n], it) <==> Mentions(it, PathOf(cs[n])) {
      ClashesMeans(cs[n], it);
    }
  }

  /** Every entry has exactly one path, and all paths are different. */
  ghost predicate DistinctPaths(r: seq<ConfigInfo>) {
    && AreCandidates(r)
    && (forall j, k | 0 <= j < k < |r| :: !Mentions(r[j], PathOf(r[k])))
  }

  lemma DistinctSnoc(r: seq<ConfigInfo>, c: ConfigInfo)
    requires DistinctPaths(r) && Candidate(c) && forall k | 0 <= k < |r| :: !Mentions(r[k], PathOf(c))
    ensures DistinctPaths(r + [c])
  {
  }

  lemma NotMentioned(existing: seq<ConfigInfo>, cs: seq<ConfigInfo>, n: nat)
    requires n < |cs| && AreCandidates(cs) && Fresh(existing, cs, n)
    ensures forall k | 0 <= k < |Kept(existing, cs, n)| :: !Mentions(Kept(existing, cs, n)[k], PathOf(cs[n]))
  {
    KeptMentions(existing, cs, n, PathOf(cs[n]));
  }

  /**
   * Deduplication: deploy and configuration paths taken together stay pairwise distinct, and each entry carries
   * exactly one of them.
   */
  lemma {:induction false} KeptDistinct(existing: seq<ConfigInfo>, cs: seq<ConfigInfo>, n: nat)
    requires n <= |cs| && DistinctPaths(existing) && AreCandidates(cs)
    ensures DistinctPaths(Kept(existing, cs, n))
  {
    if n > 0 {
      KeptDistinct(existing, cs, n - 1);
      if Fresh(existing, cs, n - 1) {
        NotMentioned(existing, cs, n - 1);
        DistinctSnoc(Kept(existing, cs, n - 1), cs[n - 1]);
      }
    }
  }

  lemma {:induction false} KeptExtends(existing: seq<ConfigInfo>, cs: seq<ConfigInfo>, n: nat)
    requires n <= |cs|
    ensures existing <= Kept(existing, cs, n)
  {
    if n > 0 {
      KeptExtends(existing, cs, n - 1);
    }
  }

  /** No candidate's path is lost. */
  lemma NothingLost(existing: seq<ConfigInfo>, cs: seq<ConfigInfo>, k: nat)
    requires k < |cs| && AreCandidates(cs)
    ensures exists e <- Kept(existing, cs, |cs|) :: Mentions(e, PathOf(cs[k]))
  {
    KeptMentions(existing, cs, |cs|, PathOf(cs[k]));
  }

  // ----- the inventory -----

  datatype Item = Item(package: Package, configs: seq<ConfigInfo>)

  /** Each package found for a product carries the product's deduplicated configuration files. */
  ghost function ItemsOf(search: Search, detected: seq<Package>, configurables: seq<Configurable>): Option<seq<Item>> {
    if detected == [] then Some([])
    else
      var front, cs := ItemsOf(search, detected[..|detected| - 1], configurables), Candidates(search, configurables);
      if front.None? || cs.None? then None
      else Some(front.value + [Item(detected[|detected| - 1], Kept([], cs.value, |cs.value|))])
  }

  ghost function Inventory(api: MsiApi, registry: Registry, search: Search, catalog: seq<Rules>): Option<seq<Item>> {
    if catalog == [] then Some([])
    else
      var rules := catalog[|catalog| - 1];
      var front := Inventory(api, registry, search, catalog[..|catalog| - 1]);
      var last := ItemsOf(search, FirstNonEmpty(Outcomes(api, registry, rules)), rules.configurables);
      if front.None? || last.None? then None else Some(front.value + last.value)
  }

  // ----- the discovery object -----

  lemma {:induction false} KeptPrefix(existing: seq<ConfigInfo>, cs: seq<ConfigInfo>, c: ConfigInfo, n: nat)
    requires n <= |cs|
    ensures Kept(existing, cs + [c], n) == Kept(existing, cs, n)
  {
    if n > 0 {
      KeptPrefix(existing, cs, c, n - 1);
      assert forall j | 0 <= j < n :: (cs + [c])[j] == cs[j];
      assert Fresh(existing, cs + [c], n - 1) <==> Fresh(existing, cs, n - 1);
    }
  }

  lemma KeptMore(existing: seq<ConfigInfo>, cs: seq<ConfigInfo>, c: ConfigInfo)
    requires Candidate(c) && AreCandidates(cs)
    ensures AreCandidates(cs + [c])
    ensures Kept(existing, cs + [c], |cs| + 1) ==
            Kept(existing, cs, |cs|) + if UniqueIn(c, Kept(existing, cs, |cs|)) then [c] else []
  {
    var more, before := cs + [c], Kept(existing, cs, |cs|);
    KeptPrefix(existing, cs, c, |cs|);
    assert more[|cs|] == c && AreCandidates(more);
    UniqueMeansFresh(existing, more, |cs|);
    assert Kept(existing, more, |more|) == before + if Fresh(existing, more, |cs|) then [c] else [];
  }

  lemma InfosSnoc(c: Configurable, atDeploy: bool, info: FolderInfo, files: seq<FilePath>, i: nat)
    requires i < |files|
    ensures var front, last := Infos(c, atDeploy, info, files[..i]), Reported(files[i], info);
      Infos(c, atDeploy, info, files[..i + 1]) ==
      if front.None? || last.None? then None else Some(front.value + [Info(c, atDeploy, files[i], last.value)])
  {
    assert files[..i + 1][..i] == files[..i];
  }

  /** A file that cannot be reported spoils every longer list. */
  lemma {:induction false} InfosPrefix(c: Configurable, atDeploy: bool, info: FolderInfo, files: seq<FilePath>, i: nat)
    requires i <= |files| && Infos(c, atDeploy, info, files[..i]).None?
    ensures Infos(c, atDeploy, info, files).None?
    decreases |files| - i
  {
    if i == |files| {
      assert files[..i] == files;
    } else {
      InfosSnoc(c, atDeploy, info, files, i);
      InfosPrefix(c, atDeploy, info, files, i + 1);
    }
  }

  lemma CandidatesSnoc(search: Search, cs: seq<Configurable>, i: nat)
    requires i < |cs|
    ensures var front, last := Candidates(search, cs[..i]), CandidatesOf(search, cs[i]);
      Candidates(search, cs[..i + 1]) == if front.None? || last.None? then None else Some(front.value + last.value)
  {
    assert cs[..i + 1][..i] == cs[..i];
  }

  lemma {:induction false} CandidatesPrefix(search: Search, cs: seq<Configurable>, i: nat)
    requires i <= |cs| && Candidates(search, cs[..i]).None?
    ensures Candidates(search, cs).None?
    decreases |cs| - i
  {
    if i == |cs| {
      assert cs[..i] == cs;
    } else {
      CandidatesSnoc(search, cs, i);
      CandidatesPrefix(search, cs, i + 1);
    }
  }

  lemma ItemsSnoc(search: Search, detected: seq<Package>, configurables: seq<Configurable>, i: nat)
    requires i < |detected|
    ensures var front, cs := ItemsOf(search, detected[..i], configurables), Candidates(search, configurables);
      ItemsOf(search, detected[..i + 1], configurables) ==
      if front.None? || cs.None? then None
      else Some(front.value + [Item(detected[i], Kept([], cs.value, |cs.value|))])
  {
    assert detected[..i + 1][..i] == detected[..i];
  }

  lemma {:induction false} ItemsPrefix(search: Search, detected: seq<Package>, configurables: seq<Configurable>, i: nat)
    requires i <= |detected| && ItemsOf(search, detected[..i], configurables).None?
    ensures ItemsOf(search, detected, configurables).None?
    decreases |detected| - i
  {
    if i == |detected| {
      assert detected[..i] == detected;
    } else {
      ItemsSnoc(search, detected, configurables, i);
      ItemsPrefix(search, detected, configurables, i + 1);
    }
  }

  lemma InventorySnoc(api: MsiApi, registry: Registry, search: Search, catalog: seq<Rules>, i: nat)
    requires i < |catalog|
    ensures var front := Inventory(api, registry, search, catalog[..i]);
      var last := ItemsOf(search, FirstNonEmpty(Outcomes(api, registry, catalog[i])), catalog[i].configurables);
      Inventory(api, registry, search, catalog[..i + 1]) ==
      if front.None? || last.None? then None else Some(front.value + last.value)
  {
    assert catalog[..i + 1][..i] == catalog[..i];
  }

  lemma {:induction false} InventoryPrefix(api: MsiApi, registry: Registry, search: Search, catalog: seq<Rules>, i: nat)
    requires i <= |catalog| && Inventory(api, registry, search, catalog[..i]).None?
    ensures Inventory(api, registry, search, catalog).None?
    decreases |catalog| - i
  {
    if i == |catalog| {
      assert catalog[..i] == catalog;
    } else {
      InventorySnoc(api, registry, search, catalog, i);
      InventoryPrefix(api, registry, search, catalog, i + 1);
    }
  }

  class PackageDiscovery {
    const m_methods: PackageDiscoveryMethods
    const search: Search
    var m_lastDetectedPackages: seq<Item>

    constructor (methods: PackageDiscoveryMethods, search: Search)
      ensures m_methods == methods && this.search == search
      ensures m_lastDetectedPackages == []
    {
      m_methods, this.search, m_lastDetectedPackages := methods, search, [];
    }

    /** The loop over upgrade codes: the index of the rule that found something, or the number of rules. */
    method TryUpgradeCodes(rules: Rules) returns (i: nat, detected: seq<Package>)
      requires m_methods.m_msiApi.Valid()
      ensures i <= |rules.upgradeCodes| && Dry(m_methods.m_msiApi, m_methods.registry, rules, i)
      ensures if i == |rules.upgradeCodes| then detected == []
              else detected == Outcome(m_methods.m_msiApi, m_methods.registry, rules, i) != []
    {
      detected, i := [], 0;
      while i < |rules.upgradeCodes|
        invariant i <= |rules.upgradeCodes| && detected == [] && Dry(m_methods.m_msiApi, m_methods.registry, rules, i)
      {
        detected := m_methods.DiscoverByMsiUpgradeCode(rules.product, rules.upgradeCodes[i], detected);
        assert detected == Outcome(m_methods.m_msiApi, m_methods.registry, rules, i);
        if detected != [] {
          return;
        }
        DryMore(m_methods.m_msiApi, m_methods.registry, rules, i);
        i := i + 1;
      }
    }

    /** The loop over MSI rules, in the cached list of products. */
    method TryMsi(rules: Rules, productCache: seq<Product>) returns (i: nat, detected: seq<Package>)
      requires productCache == m_methods.m_msiApi.all.items
      requires Dry(m_methods.m_msiApi, m_methods.registry, rules, |rules.upgradeCodes|)
      ensures i <= |rules.msi| && Dry(m_methods.m_msiApi, m_methods.registry, rules, |rules.upgradeCodes| + i)
      ensures if i == |rules.msi| then detected == []
              else detected == Outcome(m_methods.m_msiApi, m_methods.registry, rules, |rules.upgradeCodes| + i) != []
    {
      detected, i := [], 0;
      while i < |rules.msi|
        invariant i <= |rules.msi| && detected == []
        invariant Dry(m_methods.m_msiApi, m_methods.registry, rules, |rules.upgradeCodes| + i)
      {
        detected := m_methods.DiscoverByMsiRules(rules.product, rules.msi[i], detected, productCache);
        assert detected == Outcome(m_methods.m_msiApi, m_methods.registry, rules, |rules.upgradeCodes| + i);
        if detected != [] {
          return;
        }
        DryMore(m_methods.m_msiApi, m_methods.registry, rules, |rules.upgradeCodes| + i);
        i := i + 1;
      }
    }

    /** The loop over registry rules. */
    method TryRegistry(rules: Rules) returns (i: nat, detected: seq<Package>)
      requires Dry(m_methods.m_msiApi, m_methods.registry, rules, |rules.upgradeCodes| + |rules.msi|)
      ensures i <= |rules.registry| && Dry(m_methods.m_msiApi, m_methods.registry, rules, |rules.upgradeCodes| + |rules.msi| + i)
      ensures if i == |rules.registry| then detected == []
              else detected == Outcome(m_methods.m_msiApi, m_methods.registry, rules, |rules.upgradeCodes| + |rules.msi| + i) != []
    {
      detected, i := [], 0;
      while i < |rules.registry|
        invariant i <= |rules.registry| && detected == []
        invariant Dry(m_methods.m_msiApi, m_methods.registry, rules, |rules.upgradeCodes| + |rules.msi| + i)
      {
        detected := m_methods.DiscoverByRegistry(rules.product, rules.registry[i], detected);
        assert detected == Outcome(m_methods.m_msiApi, m_methods.registry, rules, |rules.upgradeCodes| + |rules.msi| + i);
        if detected != [] {
          return;
        }
        DryMore(m_methods.m_msiApi, m_methods.registry, rules, |rules.upgradeCodes| + |rules.msi| + i);
        i := i + 1;
      }
    }

    /** Rules are tried in order until one finds something. */
    method ApplyDiscoveryMethods(rules: Rules, productCache: seq<Product>) returns (detected: seq<Package>)
      requires m_methods.m_msiApi.Valid() && productCache == m_methods.m_msiApi.all.items
      ensures detected == FirstNonEmpty(Outcomes(m_methods.m_msiApi, m_methods.registry, rules))
    {
      var i;
      i, detected := TryUpgradeCodes(rules);
      if detected != [] {
        FirstHit(m_methods.m_msiApi, m_methods.registry, rules, i);
        return;
      }
      i, detected := TryMsi(rules, productCache);
      if detected != [] {
        FirstHit(m_methods.m_msiApi, m_methods.registry, rules, |rules.upgradeCodes| + i);
        return;
      }
      i, detected := TryRegistry(rules);
      if detected != [] {
        FirstHit(m_methods.m_msiApi, m_methods.registry, rules, |rules.upgradeCodes| + |rules.msi| + i);
        return;
      }
      NoHit(m_methods.m_msiApi, m_methods.registry, rules);
    }

    /**
     * Fails exactly when the path was changed by resolving and has no tag. The files are those of the resolved path,
     * and a path that was not changed has them reported as they are.
     */
    method ResolveAndDiscover(unresolved: string, resolved: string) returns (r: Option<Discovered>)
      ensures r == Discover(search, unresolved, resolved)
      ensures r.None? <==> Unresolvable(unresolved, resolved)
      ensures r.Some? ==> r.value.files == search(resolved)
      ensures r.Some? && unresolved == resolved ==> forall f: FilePath :: Reported(f, r.value.info) == Some(f)
    {
      var info := FolderOf(unresolved, resolved, TAG);
      if info.None? {
        return None;
      }
      var files := search(resolved);
      r := Some(Discovered(info.value, files));
    }

    /** The files of one configurable, from its deploy path or from its configuration path. */
    method Choose(c: Configurable) returns (ok: bool, usingDeployPath: bool, found: Discovered)
      ensures ok <==> Chosen(search, c).Some?
      ensures ok ==> Chosen(search, c) == Some((usingDeployPath, found))
      ensures ok && usingDeployPath ==> c.deployPath != "" && found.files == search(c.deployPath) != []
      ensures ok && !usingDeployPath ==> found.files == search(c.cfgPath) && (c.deployPath == "" || search(c.deployPath) == [])
      ensures !ok ==> Unresolvable(c.unresolvedDeployPath, c.deployPath) || Unresolvable(c.unresolvedCfgPath, c.cfgPath)
    {
      ok, usingDeployPath, found := true, false, NOTHING;
      if c.deployPath != "" {
        var deploy := ResolveAndDiscover(c.unresolvedDeployPath, c.deployPath);
        if deploy.None? {
          return false, false, NOTHING;
        }
        found := deploy.value;
        usingDeployPath := |found.files| > 0;
      }
      if !usingDeployPath {
        var cfg := ResolveAndDiscover(c.unresolvedCfgPath, c.cfgPath);
        if cfg.None? {
          return false, false, NOTHING;
        }
        found := cfg.value;
      }
    }

    /** Compares a candidate with the list built so far. */
    method IsUnique(configInfo: ConfigInfo, packageConfigs: seq<ConfigInfo>) returns (unique: bool)
      ensures unique <==> UniqueIn(configInfo, packageConfigs)
    {
      for i := 0 to |packageConfigs|
        invariant forall k | 0 <= k < i :: !Clashes(configInfo, packageConfigs[k])
      {
        var it := packageConfigs[i];
        unique := true;
        if configInfo.atDeployPath && configInfo.deployPath == it.deployPath {
          unique := false;
        } else if configInfo.cfgPath != "" && configInfo.cfgPath == it.cfgPath {
          unique := false;
        } else if configInfo.atDeployPath && configInfo.deployPath == it.cfgPath {
          unique := false;
        } else if configInfo.cfgPath != "" && configInfo.cfgPath == it.deployPath {
          unique := false;
        }
        assert unique <==> !Clashes(configInfo, it);
        if !unique {
          return;
        }
      }
      return true;
    }

    /** The path a file is reported under, with the folder's text replaced by its tag. */
    method Unresolve(file: FilePath, info: FolderInfo) returns (tempPath: Option<string>)
      ensures tempPath == Reported(file, info)
    {
      if info.id == "" {
        return Some(file);
      }
      if |info.conversion| > |file| {
        return None;
      }
      return Some(info.id + file[|info.conversion|..]);
    }

    /** Adds one file; false when it cannot be reported. */
    method AddFile(c: Configurable, usingDeployPath: bool, info: FolderInfo, file: FilePath,
                   packageConfigs: seq<ConfigInfo>, ghost first: seq<ConfigInfo>, ghost seen: seq<ConfigInfo>)
      returns (ok: bool, list: seq<ConfigInfo>)
      requires packageConfigs == Kept(first, seen, |seen|) && AreCandidates(seen)
      ensures ok <==> Reported(file, info).Some?
      ensures ok ==> var now := seen + [Info(c, usingDeployPath, file, Reported(file, info).value)];
        list == Kept(first, now, |now|) && AreCandidates(now)
    {
      var tempPath := Unresolve(file, info);
      if tempPath.None? {
        return false, packageConfigs;
      }
      var configInfo := Info(c, usingDeployPath, file, tempPath.value);
      var unique := IsUnique(configInfo, packageConfigs);
      KeptMore(first, seen, configInfo);
      return true, if unique then packageConfigs + [configInfo] else packageConfigs;
    }

    /** The loop over the files of one configurable; false when one cannot be reported. */
    method AddFiles(c: Configurable, usingDeployPath: bool, info: FolderInfo, files: seq<FilePath>,
                    packageConfigs: seq<ConfigInfo>, ghost first: seq<ConfigInfo>, ghost seen: seq<ConfigInfo>)
      returns (ok: bool, list: seq<ConfigInfo>)
      requires packageConfigs == Kept(first, seen, |seen|) && AreCandidates(seen)
      ensures ok <==> Infos(c, usingDeployPath, info, files).Some?
      ensures ok ==> var now := seen + Infos(c, usingDeployPath, info, files).value; list == Kept(first, now, |now|)
    {
      ok, list := true, packageConfigs;
      ghost var part: seq<ConfigInfo> := [];
      assert seen + part == seen;
      for i := 0 to |files|
        invariant ok && list == Kept(first, seen + part, |seen + part|)
        invariant Infos(c, usingDeployPath, info, files[..i]) == Some(part) && AreCandidates(seen + part)
      {
        InfosSnoc(c, usingDeployPath, info, files, i);
        ok, list := AddFile(c, usingDeployPath, info, files[i], list, first, seen + part);
        if !ok {
          InfosPrefix(c, usingDeployPath, info, files, i + 1);
          return;
        }
        ghost var next := Info(c, usingDeployPath, files[i], Reported(files[i], info).value);
        assert seen + (part + [next]) == seen + part + [next];
        part := part + [next];
      }
      assert files[..|files|] == files;
    }

    /** Adds the files of one configurable; false when something cannot be resolved or reported. */
    method AddConfigurable(c: Configurable, packageConfigs: seq<ConfigInfo>,
                           ghost first: seq<ConfigInfo>, ghost seen: seq<ConfigInfo>)
      returns (ok: bool, list: seq<ConfigInfo>)
      requires packageConfigs == Kept(first, seen, |seen|) && AreCandidates(seen)
      ensures ok <==> CandidatesOf(search, c).Some?
      ensures ok ==> var now := seen + CandidatesOf(search, c).value; list == Kept(first, now, |now|)
    {
      var usingDeployPath, found;
      ok, usingDeployPath, found := Choose(c);
      if !ok {
        return ok, packageConfigs;
      }
      var files := found.files;
      if |files| > c.maxInstances {
        files := if c.maxInstances == 0 then files[..1] else files[..c.maxInstances];
      }
      assert files == Limit(c, found.files);
      ok, list := AddFiles(c, usingDeployPath, found.info, files, packageConfigs, first, seen);
    }

    /**
     * The configuration files of all configurables, deduplicated behind the given list.
     * None stands for an exception, which leaves no list.
     */
    method DiscoverPackageConfigurables(configurables: seq<Configurable>, packageConfigs: seq<ConfigInfo>)
      returns (r: Option<seq<ConfigInfo>>)
      ensures r.Some? <==> Candidates(search, configurables).Some?
      ensures r.Some? ==>
        var cs := Candidates(search, configurables).value; r.value == Kept(packageConfigs, cs, |cs|)
    {
      var list := packageConfigs;
      ghost var seen: seq<ConfigInfo> := [];
      for i := 0 to |configurables|
        invariant Candidates(search, configurables[..i]) == Some(seen)
        invariant list == Kept(packageConfigs, seen, |seen|)
      {
        AllCandidates(search, configurables[..i]);
        CandidatesSnoc(search, configurables, i);
        var ok;
        ok, list := AddConfigurable(configurables[i], list, packageConfigs, seen);
        if !ok {
          CandidatesPrefix(search, configurables, i + 1);
          return None;
        }
        seen := seen + CandidatesOf(search, configurables[i]).value;
      }
      assert configurables[..|configurables|] == configurables;
      r := Some(list);
    }

    /** The packages of one product, with their configuration files, appended to the inventory. */
    method AddItems(detected: seq<Package>, configurables: seq<Configurable>, inventory: seq<Item>)
      returns (r: Option<seq<Item>>)
      ensures r.Some? <==> ItemsOf(search, detected, configurables).Some?
      ensures r.Some? ==> r.value == inventory + ItemsOf(search, detected, configurables).value
    {
      var items := inventory;
      ghost var part: seq<Item> := [];
      for i := 0 to |detected|
        invariant ItemsOf(search, detected[..i], configurables) == Some(part) && items == inventory + part
      {
        ItemsSnoc(search, detected, configurables, i);
        var configs := DiscoverPackageConfigurables(configurables, []);
        if configs.None? {
          ItemsPrefix(search, detected, configurables, i + 1);
          return None;
        }
        items := items + [Item(detected[i], configs.value)];
        part := part + [Item(detected[i], configs.value)];
      }
      assert detected[..|detected|] == detected;
      r := Some(items);
    }

    /**
     * The whole inventory, remembered as the last one; an exception on the way leaves the remembered one alone.
     */
    method DiscoverInstalledPackages(catalog: seq<Rules>) returns (r: Option<seq<Item>>)
      requires m_methods.m_msiApi.Valid()
      modifies this`m_lastDetectedPackages
      ensures r == Inventory(m_methods.m_msiApi, m_methods.registry, search, catalog)
      ensures m_lastDetectedPackages == if r.Some? then r.value else old(m_lastDetectedPackages)
    {
      var code, productCache := m_methods.m_msiApi.QueryAllProducts([]);
      assert productCache == m_methods.m_msiApi.all.items;
      var inventory := [];
      for i := 0 to |catalog|
        invariant Inventory(m_methods.m_msiApi, m_methods.registry, search, catalog[..i]) == Some(inventory)
        invariant m_lastDetectedPackages == old(m_lastDetectedPackages)
      {
        InventorySnoc(m_methods.m_msiApi, m_methods.registry, search, catalog, i);
        var detected := ApplyDiscoveryMethods(catalog[i], productCache);
        var items := AddItems(detected, catalog[i].configurables, inventory);
        if items.None? {
          InventoryPrefix(m_methods.m_msiApi, m_methods.registry, search, catalog, i + 1);
          return None;
        }
        inventory := items.value;
      }
      assert catalog[..|catalog|] == catalog;
      m_lastDetectedPackages := inventory;
      r := Some(inventory);
    }

    method CachedInventory() returns (r: seq<Item>)
      ensures r == m_lastDetectedPackages
    {
      r := m_lastDetectedPackages;
    }
  }

  /** In an inventory no package lists the same file twice, whether at its deploy path or at its configuration path. */
  lemma {:induction false} ItemsDistinct(search: Search, detected: seq<Package>, configurables: seq<Configurable>)
    ensures var r := ItemsOf(search, detected, configurables);
      r.Some? ==> forall k | 0 <= k < |r.value| :: DistinctPaths(r.value[k].configs)
  {
    if detected != [] {
      ItemsDistinct(search, detected[..|detected| - 1], configurables);
      var cs := Candidates(search, configurables);
      if cs.Some? {
        AllCandidates(search, configurables);
        KeptDistinct([], cs.value, |cs.value|);
      }
    }
  }

  lemma {:induction false} InventoryDistinct(api: MsiApi, registry: Registry, search: Search, catalog: seq<Rules>)
    ensures var r := Inventory(api, registry, search, catalog);
      r.Some? ==> forall k | 0 <= k < |r.value| :: DistinctPaths(r.value[k].configs)
  {
    if catalog != [] {
      var rules := catalog[|catalog| - 1];
      InventoryDistinct(api, registry, search, catalog[..|catalog| - 1]);
      ItemsDistinct(search, FirstNonEmpty(Outcomes(api, registry, rules)), rules.configurables);
    }
  }
}
