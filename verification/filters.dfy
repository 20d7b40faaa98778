/** The three filter stages that run before enrichment: by country flag, by
    category (standard and P2P) and by required feature. */
module Filters {
  import opened Seqs
  import opened Records

  const StandardCategory: string := "Standard VPN servers"
  const P2PCategory: string := "P2P"

  /** The features every selected server must have, with the value each must
      be set to. Iterated in insertion order, as the source's dict is. */
  const RequiredFeatures: seq<(string, bool)> := [("openvpn_udp", true)]

  /** The country test of the first comprehension: the flag equals the
      requested country exactly. */
  function InCountry(country: string): Server -> bool {
    (s: Server) => s.flag == country
  }

  /** Country filter: exactly the records flagged with `country`, in their
      original relative order. */
  function ByCountry(servers: seq<Server>, country: string): (r: seq<Server>)
    ensures forall s | s in r :: s in servers && s.flag == country
    ensures forall s | s in servers && s.flag == country :: s in r
    ensures IsSubsequence(r, servers)
    ensures forall s | s in servers :: multiset(r)[s] == if s.flag == country then multiset(servers)[s] else 0
  {
    Filter(servers, InCountry(country))
  }

  /** Some entry of the category list is named `name`. */
  predicate HasCategory(s: Server, name: string) {
    exists k :: 0 <= k < |s.categories| && s.categories[k].name == name
  }

  /** The category test: both a standard and a P2P category are listed. */
  predicate IsStandardP2P(s: Server) {
    HasCategory(s, StandardCategory) && HasCategory(s, P2PCategory)
  }

  /** Category filter: scans each record's categories, remembering whether a
      standard and a P2P category were seen, and keeps the record when both
      were. */
  method FilterCategories(servers: seq<Server>) returns (standardServers: seq<Server>)
    ensures standardServers == Filter(servers, IsStandardP2P)
    ensures forall s | s in standardServers ::
      s in servers && HasCategory(s, StandardCategory) && HasCategory(s, P2PCategory)
    ensures forall s | s in servers && HasCategory(s, StandardCategory) && HasCategory(s, P2PCategory) ::
      s in standardServers
    ensures IsSubsequence(standardServers, servers)
  {
    standardServers := [];
    for idx := 0 to |servers|
      invariant standardServers == Filter(servers[..idx], IsStandardP2P)
    {
      var srv := servers[idx];
      var standard, p2p := false, false;
      for j := 0 to |srv.categories|
        invariant standard <==> exists k :: 0 <= k < j && srv.categories[k].name == StandardCategory
        invariant p2p <==> exists k :: 0 <= k < j && srv.categories[k].name == P2PCategory
      {
        var cat := srv.categories[j];
        if cat.name == StandardCategory {
          standard := true;
        } else if cat.name == P2PCategory {
          p2p := true;
        }
      }
      FilterExtend(servers, idx, IsStandardP2P);
      if standard && p2p {
        standardServers := standardServers + [srv];
      }
    }
    assert servers[..|servers|] == servers;
  }

  /** The feature map holds `name`, set to `value`; a missing key does not
      match. */
  predicate HasFeature(s: Server, name: string, value: bool) {
    name in s.features && s.features[name] == value
  }

  /** The test one pass of the feature loop applies. */
  function MatchesFeature(name: string, value: bool): Server -> bool {
    (s: Server) => HasFeature(s, name, value)
  }

  /** The feature test for a list of requirements: every one of them holds. */
  function HasFeatures(required: seq<(string, bool)>): Server -> bool {
    (s: Server) => forall i | 0 <= i < |required| :: HasFeature(s, required[i].0, required[i].1)
  }

  /** Feature filter: one filtering pass per required feature, each pass
      replacing the working list. */
  method FilterFeatures(servers: seq<Server>, required: seq<(string, bool)>) returns (filtered: seq<Server>)
    ensures filtered == Filter(servers, HasFeatures(required))
    ensures forall s | s in filtered :: s in servers && forall i | 0 <= i < |required| :: HasFeature(s, required[i].0, required[i].1)
    ensures forall s | s in servers && (forall i | 0 <= i < |required| :: HasFeature(s, required[i].0, required[i].1)) :: s in filtered
    ensures IsSubsequence(filtered, servers)
  {
    filtered := servers;
    FilterAll(servers, HasFeatures(required[..0]));
    for i := 0 to |required|
      invariant filtered == Filter(servers, HasFeatures(required[..i]))
    {
      var (featureName, featureValue) := required[i];
      HasFeaturesStep(required, i);
      FilterTwice(servers, HasFeatures(required[..i]), MatchesFeature(featureName, featureValue), HasFeatures(required[..i + 1]));
      filtered := Filter(filtered, MatchesFeature(featureName, featureValue));
    }
    assert required[..|required|] == required;
  }

  /** Meeting the first `i + 1` requirements is meeting the first `i` and
      requirement `i`. */
  lemma HasFeaturesStep(required: seq<(string, bool)>, i: nat)
    requires i < |required|
    ensures forall s :: (HasFeatures(required[..i + 1])(s) <==>
                         HasFeatures(required[..i])(s) && MatchesFeature(required[i].0, required[i].1)(s))
  {
    assert required[..i + 1] == required[..i] + [required[i]];
  }
}
