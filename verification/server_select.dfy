/** The server selection pipeline: country, category and feature filters,
    distance and load enrichment, then ranking. */
module ServerSelect {
  import opened Seqs
  import opened Records
  import opened Filters
  import opened Enrichment
  import opened Ranking

  /** The validated arguments of a selection. */
  datatype Criteria = Criteria(
    location: Coord,
    country: string,
    maxDistance: int,
    maxLoad: int,
    count: int)

  /** What argument validation guarantees before the pipeline runs: a
      non-empty country and positive ceilings and count. */
  predicate ValidCriteria(c: Criteria) {
    c.country != "" && c.maxDistance > 0 && c.maxLoad > 0 && c.count > 0
  }

  /** The records that survive the three filters, in input order. */
  function Candidates(servers: seq<Server>, country: string): seq<Server> {
    Filter(Filter(Filter(servers, InCountry(country)), IsStandardP2P), HasFeatures(RequiredFeatures))
  }

  /** The candidates, enriched and sorted by (load, distance). */
  function RankedCandidates(servers: seq<Server>, stats: Stats, c: Criteria, geodesic: (Coord, Coord) -> real): seq<Server>
  {
    var e := Enrich(Candidates(servers, c.country), stats, c.location, geodesic);
    EnrichKeepsRecords(Candidates(servers, c.country), stats, c.location, geodesic);
    SortByRank(e)
  }

  /** The candidates that are within both ceilings, best first. */
  function Eligible(servers: seq<Server>, stats: Stats, c: Criteria, geodesic: (Coord, Coord) -> real): seq<Server> {
    Filter(Filter(RankedCandidates(servers, stats, c, geodesic), CloserThan(c.maxDistance)), LighterThan(c.maxLoad))
  }

  /** The whole selection, as a function of its inputs. */
  function Selection(servers: seq<Server>, stats: Stats, c: Criteria, geodesic: (Coord, Coord) -> real): seq<Server>
    requires ValidCriteria(c)
  {
    Truncate(Eligible(servers, stats, c, geodesic), c.count)
  }

  /** The selection, stage by stage, as the source runs it: comprehensions and
      loops over a working list, with the enrichment done in place. */
  method Select(servers: seq<Server>, stats: Stats, c: Criteria, geodesic: (Coord, Coord) -> real)
    returns (selected: seq<Server>)
    requires ValidCriteria(c)
    ensures selected == Selection(servers, stats, c, geodesic)
  {
    var filtered := ByCountry(servers, c.country);
    filtered := FilterCategories(filtered);
    filtered := FilterFeatures(filtered, RequiredFeatures);
    assert filtered == Candidates(servers, c.country);

    var working := new Server[|filtered|](i requires 0 <= i < |filtered| => filtered[i]);
    assert working[..] == filtered;
    AnnotateDistances(working, c.location, geodesic);
    AnnotateLoads(working, stats);
    var enriched := working[..];
    assert enriched == Enrich(filtered, stats, c.location, geodesic);
    EnrichKeepsRecords(filtered, stats, c.location, geodesic);

    filtered := SortByRank(enriched);
    assert filtered == RankedCandidates(servers, stats, c, geodesic);
    filtered := Filter(filtered, CloserThan(c.maxDistance));
    filtered := Filter(filtered, LighterThan(c.maxLoad));
    selected := Truncate(filtered, c.count);
  }

  /** An input record passes every filter and, once enriched, both ceilings. */
  predicate Qualifies(o: Server, stats: Stats, c: Criteria, geodesic: (Coord, Coord) -> real) {
    && o.flag == c.country
    && IsStandardP2P(o)
    && HasFeatures(RequiredFeatures)(o)
    && geodesic(c.location, Coord(o.location.lat, o.location.long)) < c.maxDistance as real
    && LoadFor(o, stats) < c.maxLoad
  }

  /** A candidate is an input record that passes the three filters, and every
      such input record is a candidate. */
  lemma CandidatesMembers(servers: seq<Server>, country: string)
    ensures forall s | s in Candidates(servers, country) ::
      s in servers && s.flag == country && IsStandardP2P(s) && HasFeatures(RequiredFeatures)(s)
    ensures forall s | s in servers && s.flag == country && IsStandardP2P(s) && HasFeatures(RequiredFeatures)(s) ::
      s in Candidates(servers, country)
  {
  }

  /** Every ranked candidate is the enrichment of some candidate. */
  lemma RankedFromCandidate(servers: seq<Server>, stats: Stats, c: Criteria, geodesic: (Coord, Coord) -> real, s: Server)
    requires s in RankedCandidates(servers, stats, c, geodesic)
    ensures exists o | o in Candidates(servers, c.country) :: s == WithLoad(WithDistance(o, c.location, geodesic), stats)
  {
    var cands := Candidates(servers, c.country);
    var e := Enrich(cands, stats, c.location, geodesic);
    EnrichKeepsRecords(cands, stats, c.location, geodesic);
    assert s in multiset(SortByRank(e));
    var i :| 0 <= i < |e| && e[i] == s;
    assert cands[i] in cands;
  }

  /** Soundness: every selected record is an input record that passes the
      country, category and feature filters, carrying its geodesic distance and
      its statistics load (or 999), both strictly below their ceilings. */
  lemma {:induction false} SelectionSound(servers: seq<Server>, stats: Stats, c: Criteria, geodesic: (Coord, Coord) -> real)
    requires ValidCriteria(c)
    ensures forall s | s in Selection(servers, stats, c, geodesic) ::
      && Enriched(s)
      && s.flag == c.country
      && IsStandardP2P(s)
      && HasFeatures(RequiredFeatures)(s)
      && Distance(s) < c.maxDistance as real
      && Load(s) < c.maxLoad
      && exists o | o in servers :: s == WithLoad(WithDistance(o, c.location, geodesic), stats)
  {
    var r := Selection(servers, stats, c, geodesic);
    var ranked := RankedCandidates(servers, stats, c, geodesic);
    var near := Filter(ranked, CloserThan(c.maxDistance));
    var eligible := Filter(near, LighterThan(c.maxLoad));
    forall s | s in r
      ensures Enriched(s) && s.flag == c.country && IsStandardP2P(s) && HasFeatures(RequiredFeatures)(s)
      ensures Distance(s) < c.maxDistance as real && Load(s) < c.maxLoad
      ensures exists o | o in servers :: s == WithLoad(WithDistance(o, c.location, geodesic), stats)
    {
      assert s in eligible;
      assert s in near && s in ranked;
      RankedFromCandidate(servers, stats, c, geodesic, s);
      var o :| o in Candidates(servers, c.country) && s == WithLoad(WithDistance(o, c.location, geodesic), stats);
      CandidatesMembers(servers, c.country);
      assert HasFeatures(RequiredFeatures)(o);
    }
  }

  /** The selection is ordered by (load, distance), ascending. */
  lemma SelectionSorted(servers: seq<Server>, stats: Stats, c: Criteria, geodesic: (Coord, Coord) -> real)
    requires ValidCriteria(c)
    ensures AllEnriched(Selection(servers, stats, c, geodesic))
    ensures Sorted(Selection(servers, stats, c, geodesic))
  {
    var ranked := RankedCandidates(servers, stats, c, geodesic);
    FilterSorted(ranked, CloserThan(c.maxDistance));
    FilterSorted(Filter(ranked, CloserThan(c.maxDistance)), LighterThan(c.maxLoad));
  }

  /** The selection keeps the relative order of the sorted, enriched
      candidates: it only deletes records from that list. */
  lemma SelectionSubsequence(servers: seq<Server>, stats: Stats, c: Criteria, geodesic: (Coord, Coord) -> real)
    requires ValidCriteria(c)
    ensures IsSubsequence(Selection(servers, stats, c, geodesic), RankedCandidates(servers, stats, c, geodesic))
  {
    var ranked := RankedCandidates(servers, stats, c, geodesic);
    var near := Filter(ranked, CloserThan(c.maxDistance));
    var eligible := Filter(near, LighterThan(c.maxLoad));
    var r := Selection(servers, stats, c, geodesic);
    assert r == eligible[..|r|];
    PrefixIsSubsequence(eligible, |r|);
    SubsequenceTransitive(r, eligible, near);
    SubsequenceTransitive(r, near, ranked);
  }

  /** The selection is the first `count` eligible records, or all of them
      when fewer qualify; it never holds more than `count` records. */
  lemma SelectionIsPrefix(servers: seq<Server>, stats: Stats, c: Criteria, geodesic: (Coord, Coord) -> real)
    requires ValidCriteria(c)
    ensures var r := Selection(servers, stats, c, geodesic);
            var eligible := Eligible(servers, stats, c, geodesic);
            && |r| <= c.count
            && |r| == (if |eligible| < c.count then |eligible| else c.count)
            && r == eligible[..|r|]
  {
  }

  /** Every candidate, enriched, is among the ranked candidates. */
  lemma CandidateIsRanked(servers: seq<Server>, stats: Stats, c: Criteria, geodesic: (Coord, Coord) -> real, o: Server)
    requires o in Candidates(servers, c.country)
    ensures WithLoad(WithDistance(o, c.location, geodesic), stats) in RankedCandidates(servers, stats, c, geodesic)
  {
    var cands := Candidates(servers, c.country);
    var e := Enrich(cands, stats, c.location, geodesic);
    var s := WithLoad(WithDistance(o, c.location, geodesic), stats);
    var i :| 0 <= i < |cands| && cands[i] == o;
    assert e[i] == s;
    assert s in multiset(e);
    assert s in multiset(RankedCandidates(servers, stats, c, geodesic));
  }

  /** Completeness: when the count does not cut the selection short, every
      input record that qualifies is selected, enriched. */
  lemma {:induction false} SelectionComplete(servers: seq<Server>, stats: Stats, c: Criteria, geodesic: (Coord, Coord) -> real)
    requires ValidCriteria(c)
    requires |Selection(servers, stats, c, geodesic)| < c.count
    ensures forall o | o in servers && Qualifies(o, stats, c, geodesic) ::
      WithLoad(WithDistance(o, c.location, geodesic), stats) in Selection(servers, stats, c, geodesic)
  {
    var ranked := RankedCandidates(servers, stats, c, geodesic);
    var eligible := Eligible(servers, stats, c, geodesic);
    assert Selection(servers, stats, c, geodesic) == eligible;
    CandidatesMembers(servers, c.country);
    forall o | o in servers && Qualifies(o, stats, c, geodesic)
      ensures WithLoad(WithDistance(o, c.location, geodesic), stats) in eligible
    {
      var s := WithLoad(WithDistance(o, c.location, geodesic), stats);
      CandidateIsRanked(servers, stats, c, geodesic, o);
      assert CloserThan(c.maxDistance)(s) && LighterThan(c.maxLoad)(s);
      assert s in Filter(ranked, CloserThan(c.maxDistance));
    }
  }

  /** A server without a statistics entry gets load 999, so under any load
      ceiling up to 999 it is never selected. */
  lemma UnknownLoadExcluded(servers: seq<Server>, stats: Stats, c: Criteria, geodesic: (Coord, Coord) -> real)
    requires ValidCriteria(c) && c.maxLoad <= UnknownLoad
    ensures forall s | s in Selection(servers, stats, c, geodesic) :: s.domain in stats
  {
    SelectionSound(servers, stats, c, geodesic);
  }

  /** An empty server list selects nothing, without failing. */
  lemma EmptyInputSelectsNothing(stats: Stats, c: Criteria, geodesic: (Coord, Coord) -> real)
    requires ValidCriteria(c)
    ensures Selection([], stats, c, geodesic) == []
  {
  }
}
