/** The string helpers that derive the marketplace web domain and the
    inventory-import URL from the grid the viewer is connected to. */
module MarketplaceDomain {

  const LoginPrefix: string := "login."
  const ProductionDomain: string := "secondlife.com"
  const StagingGridDomain: string := "damballah.lindenlab.com"
  const StagingDomain: string := "secondlife-staging.com"
  const LindenLabSuffix: string := ".lindenlab.com"

  /** `std::string::substr(pos, len)`: at most `len` characters from `pos`. */
  function Substr(s: string, pos: nat, len: nat): (r: string)
    requires pos <= |s|
    ensures |r| == if pos + len <= |s| then len else |s| - pos
    ensures r == s[pos..pos + |r|]
  {
    if pos + len <= |s| then s[pos..pos + len] else s[pos..]
  }

  predicate StartsWith(s: string, prefix: string)
  {
    |prefix| <= |s| && s[..|prefix|] == prefix
  }

  /** The login host name with a leading "login." removed. */
  function LoginUriDomain(hostname: string): (d: string)
    ensures StartsWith(hostname, LoginPrefix) ==> hostname == LoginPrefix + d
    ensures !StartsWith(hostname, LoginPrefix) ==> d == hostname
  {
    if Substr(hostname, 0, 6) == LoginPrefix then hostname[6..] else hostname
  }

  /** Prefixing "login." and stripping it again gives back the domain. */
  lemma StripLoginPrefix(domain: string)
    ensures LoginUriDomain(LoginPrefix + domain) == domain
  {
    assert (LoginPrefix + domain)[..6] == LoginPrefix;
  }

  function LowerChar(c: char): (l: char)
  {
    if IsUpperChar(c) then (c as int + 32) as char else c
  }

  predicate IsUpperChar(c: char)
  {
    'A' <= c <= 'Z'
  }

  predicate IsLower(s: string)
  {
    forall i :: 0 <= i < |s| ==> !IsUpperChar(s[i])
  }

  /** Lower-casing, character by character (ASCII letters only). */
  function ToLower(s: string): (r: string)
    ensures |r| == |s|
    ensures forall i :: 0 <= i < |s| ==> r[i] == LowerChar(s[i])
  {
    if s == [] then [] else [LowerChar(s[0])] + ToLower(s[1..])
  }

  lemma {:induction false} ToLowerIdempotent(s: string)
    ensures ToLower(ToLower(s)) == ToLower(s)
  {
    var t := ToLower(s);
    assert forall i :: 0 <= i < |t| ==> LowerChar(t[i]) == t[i];
  }

  /** What the grid manager reports about the current and the connected
      grid: whether the current grid is Second Life, whether the connected
      grid is its production grid, and the host name of its login URI. */
  datatype GridInfo = GridInfo(currentIsSecondLife: bool, connectedIsProduction: bool, loginHost: string)

  function MarketplaceDomain(g: GridInfo): (d: string)
    ensures g.currentIsSecondLife && g.connectedIsProduction ==> d == ProductionDomain
    ensures g.currentIsSecondLife && !g.connectedIsProduction ==>
      d == (if ToLower(LoginUriDomain(g.loginHost)) == StagingGridDomain then StagingDomain
            else ToLower(LoginUriDomain(g.loginHost)))
    ensures !g.currentIsSecondLife ==> d == LoginUriDomain(g.loginHost)
  {
    if g.currentIsSecondLife then
      if g.connectedIsProduction then ProductionDomain
      else
        var domain := ToLower(LoginUriDomain(g.loginHost));
        if domain == StagingGridDomain then StagingDomain else domain
    else
      LoginUriDomain(g.loginHost)
  }

  /** On a Second Life grid the domain is always lower case; elsewhere the
      login domain's case is kept. */
  lemma SecondLifeDomainIsLower(g: GridInfo)
    requires g.currentIsSecondLife
    ensures IsLower(MarketplaceDomain(g))
  {
    assert IsLower(StagingDomain);
    assert IsLower(ProductionDomain);
  }

  /** A beta grid's login host maps to "<gridid>.lindenlab.com" in lower case. */
  lemma BetaGridDomain(g: GridInfo, gridId: string)
    requires g.currentIsSecondLife && !g.connectedIsProduction
    requires g.loginHost == LoginPrefix + gridId + LindenLabSuffix
    requires ToLower(gridId) != "damballah"
    ensures MarketplaceDomain(g) == ToLower(gridId) + LindenLabSuffix
  {
    var rest := gridId + LindenLabSuffix;
    assert g.loginHost == LoginPrefix + rest;
    StripLoginPrefix(rest);
    assert LoginUriDomain(g.loginHost) == rest;
    ToLowerAppend(gridId, LindenLabSuffix);
    SuffixIsLower();
    LowerIsFixed(LindenLabSuffix);
    var lowered := ToLower(gridId) + LindenLabSuffix;
    assert ToLower(rest) == lowered;
    NotStagingGrid(ToLower(gridId));
    assert lowered != StagingGridDomain;
  }

  lemma SuffixIsLower()
    ensures IsLower(LindenLabSuffix)
  {
    assert LindenLabSuffix == ['.', 'l', 'i', 'n', 'd', 'e', 'n', 'l', 'a', 'b', '.', 'c', 'o', 'm'];
  }

  lemma NotStagingGrid(x: string)
    requires x != "damballah"
    ensures x + LindenLabSuffix != StagingGridDomain
  {
    if |x| == 9 {
      assert (x + LindenLabSuffix)[..9] == x;
      assert StagingGridDomain[..9] == "damballah";
    }
  }

  lemma {:induction false} LowerIsFixed(s: string)
    requires IsLower(s)
    ensures ToLower(s) == s
  {
    if s != [] {
      LowerIsFixed(s[1..]);
    }
  }

  lemma ToLowerAppend(a: string, b: string)
    ensures ToLower(a + b) == ToLower(a) + ToLower(b)
  {
    var l, r := ToLower(a + b), ToLower(a) + ToLower(b);
    forall i | 0 <= i < |l|
      ensures l[i] == r[i]
    {
      if i < |a| {
        assert (a + b)[i] == a[i];
      } else {
        assert (a + b)[i] == b[i - |a|];
      }
    }
  }

  /** The damballah grid is recognised whatever the case of its login host. */
  lemma StagingGridRecognised(g: GridInfo)
    requires g.currentIsSecondLife && !g.connectedIsProduction
    requires ToLower(LoginUriDomain(g.loginHost)) == StagingGridDomain
    ensures MarketplaceDomain(g) == StagingDomain
  {
  }

  /** The inventory-import endpoint under a marketplace URL for one agent. */
  function InventoryImportUrl(marketplaceUrl: string, agentId: string): (url: string)
    ensures |url| == |marketplaceUrl| + |agentId| + 24
    ensures StartsWith(url, marketplaceUrl + "api/1/")
    ensures url[|marketplaceUrl| + 6..|url| - 18] == agentId
    ensures url[|url| - 18..] == "/inventory/import/"
  {
    marketplaceUrl + "api/1/" + agentId + "/inventory/import/"
  }

  /** Two import URLs under one marketplace URL are equal only for the same agent. */
  lemma ImportUrlInjective(marketplaceUrl: string, a: string, b: string)
    requires InventoryImportUrl(marketplaceUrl, a) == InventoryImportUrl(marketplaceUrl, b)
    ensures a == b
  {
    var ua := InventoryImportUrl(marketplaceUrl, a);
    assert ua[|marketplaceUrl| + 6..|ua| - 18] == a;
  }
}
