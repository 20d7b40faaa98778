/** Concrete selections worked through the model. */
module Scenarios {
  import opened Seqs
  import opened Records
  import opened Filters
  import opened Enrichment
  import opened Ranking
  import opened ServerSelect

  function UsServer(domain: string, lat: real): Server {
    Server("US", [Category(StandardCategory), Category(P2PCategory)], map["openvpn_udp" := true],
           domain, Location(lat, 0.0, None), None)
  }

  /** Distances of 50, 80 and 10 miles to the servers at latitudes 1, 2 and 3. */
  function ToyGeodesic(from: Coord, to: Coord): real {
    if to.lat == 1.0 then 50.0 else if to.lat == 2.0 then 80.0 else 10.0
  }

  const A: Server := UsServer("a", 1.0)
  const B: Server := UsServer("b", 2.0)
  const C: Server := UsServer("c", 3.0)
  const ToyStats: Stats := map["a" := 10, "b" := 5, "c" := 20]
  const ToyCriteria: Criteria := Criteria(Coord(0.0, 0.0), "US", 100, 50, 2)

  /** `s` with the given distance and load attached. */
  function Annotated(s: Server, distance: real, load: int): Server {
    s.(location := s.location.(distance := Some(distance)), load := Some(load))
  }

  lemma ToyCandidates()
    ensures Candidates([A, B, C], "US") == [A, B, C]
  {
    forall s | s in [A, B, C] ensures IsStandardP2P(s) && HasFeatures(RequiredFeatures)(s) {
      assert s.categories[0].name == StandardCategory && s.categories[1].name == P2PCategory;
    }
    FilterAll([A, B, C], InCountry("US"));
    FilterAll([A, B, C], IsStandardP2P);
    FilterAll([A, B, C], HasFeatures(RequiredFeatures));
  }

  lemma ToyEnrich()
    ensures Enrich([A, B, C], ToyStats, ToyCriteria.location, ToyGeodesic) ==
            [Annotated(A, 50.0, 10), Annotated(B, 80.0, 5), Annotated(C, 10.0, 20)]
  {
  }

  lemma ToySort()
    ensures
      var ea, eb, ec := Annotated(A, 50.0, 10), Annotated(B, 80.0, 5), Annotated(C, 10.0, 20);
      AllEnriched([ea, eb, ec]) && SortByRank([ea, eb, ec]) == [eb, ea, ec]
  {
    var ea, eb, ec := Annotated(A, 50.0, 10), Annotated(B, 80.0, 5), Annotated(C, 10.0, 20);
    assert [ea, eb, ec][1..] == [eb, ec];
    assert [eb, ec][1..] == [ec];
    assert [ec][1..] == [];
    assert SortByRank([ec]) == [ec];
    assert SortByRank([eb, ec]) == [eb, ec];
  }

  /** The expected order: by load 5, 10, 20, whatever the distances. */
  function ToyRanking(): seq<Server> {
    [Annotated(B, 80.0, 5), Annotated(A, 50.0, 10), Annotated(C, 10.0, 20)]
  }

  lemma ToyRanked()
    ensures RankedCandidates([A, B, C], ToyStats, ToyCriteria, ToyGeodesic) == ToyRanking()
  {
    ToyCandidates();
    ToyEnrich();
    ToySort();
  }

  lemma ToyWithinCeilings()
    ensures ValidCriteria(ToyCriteria)
    ensures forall x | x in ToyRanking() :: CloserThan(ToyCriteria.maxDistance)(x) && LighterThan(ToyCriteria.maxLoad)(x)
  {
  }

  lemma ToyTruncated()
    ensures Truncate(ToyRanking(), ToyCriteria.count) == [Annotated(B, 80.0, 5), Annotated(A, 50.0, 10)]
  {
    assert ToyRanking()[..2] == [Annotated(B, 80.0, 5), Annotated(A, 50.0, 10)];
  }

  /** When every ranked candidate is within both ceilings, the selection is
      the ranked candidates cut to the count. */
  lemma SelectionOfEligible(servers: seq<Server>, stats: Stats, c: Criteria, geodesic: (Coord, Coord) -> real, ranked: seq<Server>)
    requires ValidCriteria(c)
    requires RankedCandidates(servers, stats, c, geodesic) == ranked
    requires forall x | x in ranked :: CloserThan(c.maxDistance)(x) && LighterThan(c.maxLoad)(x)
    ensures Selection(servers, stats, c, geodesic) == Truncate(ranked, c.count)
  {
    FilterAll(ranked, CloserThan(c.maxDistance));
    FilterAll(ranked, LighterThan(c.maxLoad));
  }

  /** Three qualifying servers with loads 10, 5 and 20 and distances 50, 80 and
      10 miles: with a count of 2 the load-5 server comes first, the load-10
      server second, and the third is cut by the count. */
  lemma LoadOutranksDistance(servers: seq<Server>, stats: Stats, c: Criteria)
    requires servers == [A, B, C] && stats == ToyStats && c == ToyCriteria
    ensures ValidCriteria(c)
    ensures Selection(servers, stats, c, ToyGeodesic) == [Annotated(B, 80.0, 5), Annotated(A, 50.0, 10)]
  {
    ToyRanked();
    ToyWithinCeilings();
    ToyTruncated();
    SelectionOfEligible(servers, stats, c, ToyGeodesic, ToyRanking());
  }

  /** A server whose domain has no statistics entry gets load 999 and is
      dropped under a load ceiling of 50. */
  lemma MissingStatsDropped()
    ensures
      var a := UsServer("a", 1.0);
      var c := Criteria(Coord(0.0, 0.0), "US", 100, 50, 2);
      && ValidCriteria(c)
      && Selection([a], map[], c, ToyGeodesic) == []
  {
    var a := UsServer("a", 1.0);
    var c := Criteria(Coord(0.0, 0.0), "US", 100, 50, 2);
    UnknownLoadExcluded([a], map[], c, ToyGeodesic);
  }
}
