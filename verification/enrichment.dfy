/** The enrichment stage: each surviving record gets its distance from the
    caller's position and its load from the statistics. The working list is
    an array whose records are rewritten in place, one loop per field. */
module Enrichment {
  import opened Records

  /** The load given to a server that has no statistics entry. */
  const UnknownLoad: int := 999

  /** The load the statistics report for `s`, or `UnknownLoad` when its domain
      has no entry. */
  function LoadFor(s: Server, stats: Stats): (load: int)
    ensures s.domain in stats ==> load == stats[s.domain]
    ensures s.domain !in stats ==> load == UnknownLoad
  {
    if s.domain in stats then stats[s.domain] else UnknownLoad
  }

  /** `s` with its location's distance set to the geodesic distance (in miles)
      from `origin`. */
  function WithDistance(s: Server, origin: Coord, geodesic: (Coord, Coord) -> real): Server {
    s.(location := s.location.(distance := Some(geodesic(origin, Coord(s.location.lat, s.location.long)))))
  }

  /** `s` with its load set from the statistics. */
  function WithLoad(s: Server, stats: Stats): Server {
    s.(load := Some(LoadFor(s, stats)))
  }

  function WithDistances(l: seq<Server>, origin: Coord, geodesic: (Coord, Coord) -> real): (r: seq<Server>)
    ensures |r| == |l|
  {
    seq(|l|, i requires 0 <= i < |l| => WithDistance(l[i], origin, geodesic))
  }

  function WithLoads(l: seq<Server>, stats: Stats): (r: seq<Server>)
    ensures |r| == |l|
  {
    seq(|l|, i requires 0 <= i < |l| => WithLoad(l[i], stats))
  }

  /** The whole stage: distances first, then loads. */
  function Enrich(l: seq<Server>, stats: Stats, origin: Coord, geodesic: (Coord, Coord) -> real): seq<Server> {
    WithLoads(WithDistances(l, origin, geodesic), stats)
  }

  /** The distance loop: sets the distance of every record in place. */
  method AnnotateDistances(a: array<Server>, origin: Coord, geodesic: (Coord, Coord) -> real)
    modifies a
    ensures a[..] == WithDistances(old(a[..]), origin, geodesic)
  {
    for i := 0 to a.Length
      invariant a[..i] == WithDistances(old(a[..]), origin, geodesic)[..i]
      invariant a[i..] == old(a[..])[i..]
    {
      assert a[i] == old(a[..])[i];
      a[i] := WithDistance(a[i], origin, geodesic);
    }
  }

  /** The load loop: sets the load of every record in place, to the
      statistics' percentage or to `UnknownLoad`. */
  method AnnotateLoads(a: array<Server>, stats: Stats)
    modifies a
    ensures a[..] == WithLoads(old(a[..]), stats)
  {
    for i := 0 to a.Length
      invariant a[..i] == WithLoads(old(a[..]), stats)[..i]
      invariant a[i..] == old(a[..])[i..]
    {
      assert a[i] == old(a[..])[i];
      var load := UnknownLoad;
      if a[i].domain in stats {
        load := stats[a[i].domain];
      }
      a[i] := a[i].(load := Some(load));
    }
  }

  /** Enrichment neither adds nor removes records: record `i` of the result is
      record `i` of the input with both derived fields attached, the load
      coming from the statistics or being `UnknownLoad`. */
  lemma EnrichKeepsRecords(l: seq<Server>, stats: Stats, origin: Coord, geodesic: (Coord, Coord) -> real)
    ensures |Enrich(l, stats, origin, geodesic)| == |l|
    ensures AllEnriched(Enrich(l, stats, origin, geodesic))
    ensures forall i | 0 <= i < |l| ::
      var e := Enrich(l, stats, origin, geodesic)[i];
      && SameRecord(e, l[i])
      && e.location.distance == Some(geodesic(origin, Coord(l[i].location.lat, l[i].location.long)))
      && e.load == Some(if l[i].domain in stats then stats[l[i].domain] else UnknownLoad)
  {
  }
}
