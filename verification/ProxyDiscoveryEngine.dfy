/** The discovery engine: four methods in order, a cancel check before each, then normalisation in place. */
module ProxyDiscoveryEngines {
  import opened Options
  import opened ProxyInfoModel

  datatype FindMethod = REG | PAC | WPAD_DHCP | WPAD_DNS

  const DISCOVERY_ORDER: seq<FindMethod> := [REG, PAC, WPAD_DHCP, WPAD_DNS]

  /** What each method contributes: the WinHTTP calls and the parsing of their strings, seen from outside. */
  type Findings = FindMethod -> seq<ProxyInfo>

  function Gathered(find: Findings, n: nat): seq<ProxyInfo>
    requires n <= |DISCOVERY_ORDER|
  {
    if n == 0 then [] else Gathered(find, n - 1) + find(DISCOVERY_ORDER[n - 1])
  }

  lemma AllGathered(find: Findings)
    ensures Gathered(find, 4) == find(REG) + find(PAC) + find(WPAD_DHCP) + find(WPAD_DNS)
  {
    assert Gathered(find, 1) == [] + find(REG) == find(REG);
    assert Gathered(find, 2) == Gathered(find, 1) + find(PAC);
    assert Gathered(find, 3) == Gathered(find, 2) + find(WPAD_DHCP);
  }

  /** No "http" is left, some type is set, and everything else is kept. */
  ghost predicate Normalized(p: ProxyInfo, q: ProxyInfo) {
    && q.accessType == (if p.accessType == "http" then "http_proxy" else p.accessType)
    && q.proxyType == (if p.proxyType == "http" || (p.proxyType == "" && p.accessType == "") then "http_proxy" else p.proxyType)
    && (q.server, q.port, q.mode) == (p.server, p.port, p.mode)
  }

  ghost predicate NormalizedAll(ps: seq<ProxyInfo>, qs: seq<ProxyInfo>) {
    |ps| == |qs| && forall i | 0 <= i < |ps| :: Normalized(ps[i], qs[i])
  }

  /** Which fields are rewritten, and to what: an entry with neither type is one of type http_proxy. */
  lemma NormalizedExactly(p: ProxyInfo, q: ProxyInfo)
    requires Normalized(p, q)
    ensures p.accessType == "" && p.proxyType == "" ==> q == p.(proxyType := "http_proxy")
    ensures p.accessType == "http" && p.proxyType == "http" ==> q == p.(accessType := "http_proxy", proxyType := "http_proxy")
    ensures p.accessType == "http" && p.proxyType != "http" ==> q == p.(accessType := "http_proxy")
    ensures p.accessType != "http" && p.proxyType == "http" ==> q == p.(proxyType := "http_proxy")
    ensures p.accessType != "http" && p.proxyType != "http" && (p.accessType != "" || p.proxyType != "") ==> q == p
  {
  }

  lemma NormalizedShape(p: ProxyInfo, q: ProxyInfo)
    requires Normalized(p, q)
    ensures q.accessType != "http" && q.proxyType != "http"
    ensures q.accessType != "" || q.proxyType != ""
    ensures Normalized(q, q)
  {
    assert |"http"| != |"http_proxy"|;
  }

  /** One turn of the normalising loop, as a function. */
  function NormalizeOne(p: ProxyInfo): (q: ProxyInfo)
    ensures Normalized(p, q)
  {
    var q := if p.accessType == "http" then p.(accessType := "http_proxy") else p;
    if q.proxyType == "http" || (q.proxyType == "" && q.accessType == "") then q.(proxyType := "http_proxy") else q
  }

  /** Successive answers of the cancel callback; None when there is no callback. */
  type Cancel = Option<nat -> bool>

  ghost predicate CancelledWithin(cancel: Cancel, calls: nat) {
    cancel.Some? && exists k: nat | k < calls :: cancel.value(k)
  }

  lemma NormalizedSnoc(ps: seq<ProxyInfo>, qs: seq<ProxyInfo>, j: nat, q: ProxyInfo)
    requires |ps| == |qs| && j < |ps| && NormalizedAll(ps[..j], qs[..j]) && qs[j..] == ps[j..]
    requires Normalized(ps[j], q)
    ensures NormalizedAll(ps[..j + 1], qs[j := q][..j + 1]) && qs[j := q][j + 1..] == ps[j + 1..]
  {
    forall i | 0 <= i < j ensures Normalized(ps[i], qs[i]) {
      assert Normalized(ps[..j][i], qs[..j][i]);
    }
    assert qs[j + 1..] == qs[j..][1..];
  }

  class ProxyDiscoveryEngine {
    var m_proxyList: seq<ProxyInfo>

    constructor ()
      ensures m_proxyList == []
    {
      m_proxyList := [];
    }

    /** The rewriting of one entry. */
    method Normalize(entry: ProxyInfo) returns (it: ProxyInfo)
      ensures Normalized(entry, it)
    {
      it := entry;
      if it.accessType == "http" {
        it := it.(accessType := "http_proxy");
      }
      if it.proxyType == "http" {
        it := it.(proxyType := "http_proxy");
      }
      if it.proxyType == "" && it.accessType == "" {
        it := it.(proxyType := "http_proxy");
      }
    }

    /** The loop over the entries, in place, with a check of the cancel callback before each. */
    method NormalizeList(cancel: Cancel) returns (aborted: bool)
      requires !CancelledWithin(cancel, 4)
      modifies this
      ensures aborted <==> CancelledWithin(cancel, 4 + |old(m_proxyList)|)
      ensures !aborted ==> NormalizedAll(old(m_proxyList), m_proxyList)
    {
      ghost var all := m_proxyList;
      var j := 0;
      while j < |m_proxyList|
        invariant 0 <= j <= |m_proxyList| == |all|
        invariant NormalizedAll(all[..j], m_proxyList[..j]) && m_proxyList[j..] == all[j..]
        invariant !CancelledWithin(cancel, 4 + j)
      {
        if cancel.Some? && cancel.value(4 + j) {
          return true;
        }
        assert m_proxyList[j] == all[j..][0];
        var it := Normalize(m_proxyList[j]);
        NormalizedSnoc(all, m_proxyList, j, it);
        m_proxyList := m_proxyList[j := it];
        j := j + 1;
      }
      assert all[..j] == all && m_proxyList[..j] == m_proxyList;
      return false;
    }

    /**
     * All or nothing: the list ends as the normalised concatenation of the four methods, in order,
     * exactly when none of the checks (one a method, one an entry) was answered by a cancel; else it is empty.
     * Nothing of the previous list survives.
     */
    method Init(find: Findings, cancel: Cancel)
      modifies this
      ensures var all := find(REG) + find(PAC) + find(WPAD_DHCP) + find(WPAD_DNS);
        if CancelledWithin(cancel, 4 + |all|) then m_proxyList == []
        else NormalizedAll(all, m_proxyList)
    {
      m_proxyList := [];
      AllGathered(find);
      var i := 0;
      while i < |DISCOVERY_ORDER|
        invariant 0 <= i <= 4 && m_proxyList == Gathered(find, i)
        invariant !CancelledWithin(cancel, i)
      {
        if cancel.Some? && cancel.value(i) {
          m_proxyList := [];
          return;
        }
        m_proxyList := m_proxyList + find(DISCOVERY_ORDER[i]);
        i := i + 1;
      }
      var aborted := NormalizeList(cancel);
      if aborted {
        m_proxyList := [];
      }
    }

    /** An empty list is not copied out: the caller keeps what it passed in. */
    method GetProxyInfo(proxyList: seq<ProxyInfo>) returns (found: bool, list: seq<ProxyInfo>)
      ensures found <==> m_proxyList != []
      ensures list == if found then m_proxyList else proxyList
    {
      if m_proxyList == [] {
        return false, proxyList;
      }
      return true, m_proxyList;
    }
  }

  /** Normalisation is a function of the gathered list: two results of it are equal. */
  lemma NormalizedUnique(ps: seq<ProxyInfo>, qs: seq<ProxyInfo>, rs: seq<ProxyInfo>)
    requires NormalizedAll(ps, qs) && NormalizedAll(ps, rs)
    ensures qs == rs
  {
    forall i | 0 <= i < |ps| ensures qs[i] == rs[i] {
      assert Normalized(ps[i], qs[i]) && Normalized(ps[i], rs[i]);
    }
  }
}
