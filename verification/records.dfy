/** The data the selection works on: server records as the server list
    describes them, plus the two fields that the enrichment stage attaches
    (the distance, stored inside the location, and the load). */
module Records {

  datatype Option<T> = None | Some(value: T)

  /** A GPS position (latitude, longitude). */
  datatype Coord = Coord(lat: real, long: real)

  /** A server's position; `distance` (miles from the caller's position) is
      absent until the enrichment stage sets it. */
  datatype Location = Location(lat: real, long: real, distance: Option<real>)

  /** One entry of a server's category list; only its name is consulted. */
  datatype Category = Category(name: string)

  /** One server record. `load` is absent until the enrichment stage sets it
      (when the server list already carries one, enrichment overwrites it). */
  datatype Server = Server(
    flag: string,
    categories: seq<Category>,
    features: map<string, bool>,
    domain: string,
    location: Location,
    load: Option<int>)

  /** The load statistics: the load percentage of each server, keyed by domain. */
  type Stats = map<string, int>

  /** Both derived fields are present. */
  predicate Enriched(s: Server) {
    s.location.distance.Some? && s.load.Some?
  }

  predicate AllEnriched(l: seq<Server>) {
    forall s | s in l :: Enriched(s)
  }

  function Distance(s: Server): real
    requires Enriched(s)
  {
    s.location.distance.value
  }

  function Load(s: Server): int
    requires Enriched(s)
  {
    s.load.value
  }

  /** `s` and `t` are the same server record, apart from the derived fields. */
  predicate SameRecord(s: Server, t: Server) {
    && s.flag == t.flag
    && s.categories == t.categories
    && s.features == t.features
    && s.domain == t.domain
    && s.location.lat == t.location.lat
    && s.location.long == t.location.long
  }
}
