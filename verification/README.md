# NordVPN server selection, modelled in Dafny

This project models the selection pipeline of `select` in `server_select.py`. The pipeline
takes the NordVPN server list and the per-server load statistics and picks the servers to
recommend. It runs these stages in order:

1. Country filter: keep the records whose `flag` equals the requested country.
2. Category filter: keep the records listing both a "Standard VPN servers" and a "P2P" category.
3. Feature filter: keep the records whose `features` map has `openvpn_udp` set to true.
4. Enrichment: give every survivor its geodesic distance, in miles, from the caller's
   position. Then give it a load: the statistics' `percent` for its domain, or 999 when the
   domain has no entry.
5. Ranking: stable sort ascending by `(load, distance)`. Then drop every record with
   `distance >= max_distance` and every record with `load >= max_load`. Then keep the first
   `count` records.

Modules:

- `Seqs` (`seqs.dfy`) is the Python list comprehension with a condition, `Filter`. It also
  holds the subsequence relation that describes what `Filter` keeps.
- `Records` (`records.dfy`) holds the server record.
  - The two fields that enrichment attaches, `location.distance` and `load`, are `Option`s.
    Stage 4 sets them, overwriting any value the input record already carries.
  - The statistics are a map from domain to load percentage.
- `Filters` (`filters.dfy`) holds stages 1 to 3.
  - The country filter is a function, because the source uses a comprehension.
  - The category filter is a method with the source's nested index loops and flag variables.
  - The feature filter is a method. Like the source, it makes one filtering pass per entry of
    the required-features table and replaces the working list each time.
- `Enrichment` (`enrichment.dfy`) holds stage 4.
  - The working list is an `array` of records.
  - Two loops rewrite the records in place: the distance loop, then the load loop.
  - Each loop is proved against a function of the old array contents.
- `Ranking` (`ranking.dfy`) holds stage 5.
  - The sort is a stable insertion sort.
  - It is proved sorted, a permutation and stable. It is also proved to be the only sequence
    with those three properties, so it gives the same order as Python's `sorted`.
- `ServerSelect` (`server_select.dfy`) holds the pipeline.
  - `Select` is the method that runs the stages in the source's order.
  - `Selection` is the same computation as a function.
  - The lemmas about `Selection` state what a caller can rely on: soundness, order, the count
    bound, completeness, and that servers without statistics are excluded.
- `Scenarios` (`scenarios.dfy`) holds two concrete selections worked through the model.

The geodesic distance (geopy) is a parameter, `geodesic: (Coord, Coord) -> real`. Nothing is
assumed about it beyond being a function.

Argument validation (the decorator at `server_select.py:16-25`) becomes the precondition
`ValidCriteria`: a non-empty country, and positive `max_distance`, `max_load` and `count`.

## Model

| member | source | states |
|---|---|---|
| Seqs.Filter | server_select.py:97 | The comprehension keeps exactly the elements that pass the test, each as many times as it occurs in the input, and drops every occurrence of the others. It keeps them in their original relative order, as a subsequence. It never returns more elements than it was given. |
| Seqs.FilterTwice | server_select.py:75-76 | Two successive filtering passes keep exactly what one pass with the conjunction of both tests keeps. |
| Filters.ByCountry | server_select.py:46 | The country filter keeps a record iff its `flag` equals the country, with the multiplicity it has in the input. Survivors stay in their original relative order. |
| Filters.FilterCategories | server_select.py:51-66 | The index loop keeps a record iff some category is named "Standard VPN servers" AND some category is named "P2P". Either one alone, or an empty list, is rejected. Order is preserved. |
| Filters.FilterFeatures | server_select.py:70-77 | The feature loop keeps a record iff every required feature is a key of `features` with the required value. A missing key is a non-match. Order is preserved. |
| Filters.HasFeaturesStep | server_select.py:75-76 | Meeting the first i+1 requirements means meeting the first i requirements and requirement i. One pass of the loop therefore adds exactly one requirement. |
| Enrichment.LoadFor | server_select.py:87-90 | The load is the statistics' percentage when the domain is a key of the statistics. Otherwise it is the sentinel 999. |
| Enrichment.AnnotateDistances | server_select.py:80-84 | The distance loop rewrites the array in place. Every record gets the geodesic distance from the caller's position to its own latitude and longitude. |
| Enrichment.AnnotateLoads | server_select.py:86-90 | The load loop rewrites the array in place. Every record gets its statistics load, or 999. |
| Enrichment.EnrichKeepsRecords | server_select.py:80-90 | Enrichment adds and removes no records. Record i keeps every source field. It gains its geodesic distance, and its load from the statistics or 999. |
| Ranking.Insert | server_select.py:93 | Inserting a record yields a permutation of the old sequence plus that record. |
| Ranking.InsertSorted | server_select.py:93 | Inserting into a sequence sorted by (load, distance) keeps it sorted. |
| Ranking.SortByRank | server_select.py:93 | The sorted list is a permutation of its input. It is ordered ascending by (load, distance), compared lexicographically. |
| Ranking.InsertStable | server_select.py:93 | An inserted record goes in front of the records with its key. Records with other keys keep their order. |
| Ranking.SortStable | server_select.py:93 | The sort is stable: for every key, the records with that key keep their input order. |
| Ranking.SortedStableUnique | server_select.py:93 | Take two sorted sequences that list every key's records in the same order. They are equal. |
| Ranking.StableSortIsUnique | server_select.py:93 | Any sorted sequence that keeps every key's records in input order equals `SortByRank`. So the model's sort gives the same order as any stable sort, including Python's `sorted`. |
| Ranking.FilterSorted | server_select.py:95-105 | The distance and load filters keep the list sorted. |
| Ranking.Truncate | server_select.py:108 | The slice `[:count]` is a prefix of at most `count` records. It is the whole list when fewer than `count` records remain. |
| ServerSelect.Select | server_select.py:44-108 | The staged method computes exactly `Selection`: three filters, in-place enrichment, sort, the two strict ceilings, and truncation. |
| ServerSelect.CandidatesMembers | server_select.py:44-78 | After the three filters, a record is present iff it is an input record with the country's flag, both categories and the required feature. |
| ServerSelect.RankedFromCandidate | server_select.py:80-93 | Every sorted, enriched record is the enrichment of a record that passed the three filters. |
| ServerSelect.CandidateIsRanked | server_select.py:80-93 | Every record that passed the three filters appears, enriched, in the sorted list. Enrichment and sorting lose nothing. |
| ServerSelect.SelectionSound | server_select.py:44-108 | Every output record is enriched, has the country's flag, both categories and `openvpn_udp` set to true. Its distance is strictly below `max_distance` and its load strictly below `max_load`. It is the enrichment of some input record. |
| ServerSelect.SelectionSorted | server_select.py:93-108 | The output is ordered ascending by (load, distance). |
| ServerSelect.SelectionSubsequence | server_select.py:93-108 | The output is a subsequence of the sorted, enriched list. |
| ServerSelect.SelectionIsPrefix | server_select.py:95-108 | The output is the first min(count, n) records of the sorted, threshold-filtered list, where n is that list's length. Its length is at most `count`. |
| ServerSelect.SelectionComplete | server_select.py:44-108 | When the output is shorter than `count`, every qualifying input record appears in it, enriched. No qualifying server is lost except to the count. |
| ServerSelect.UnknownLoadExcluded | server_select.py:86-105 | Take any `max_load` of at most 999. Every output record's domain has a statistics entry: the sentinel load keeps the other servers out. |
| ServerSelect.EmptyInputSelectsNothing | server_select.py:44-108 | An empty server list yields an empty selection, with no error. |
| Scenarios.LoadOutranksDistance | server_select.py:93-108 | Loads 10, 5, 20, distances 50, 80, 10 miles, ceilings 100 and 50, count 2. The output is the load-5 server, then the load-10 server. |
| Scenarios.MissingStatsDropped | server_select.py:86-105 | A server whose domain has no statistics entry is dropped under `max_load` 50. |

## Left out

- Loading the server list and the statistics from files, or downloading them over HTTP into
  temporary files (`server_select.py:29-42`). This is I/O and network access. The pipeline
  takes both as already-parsed values.
- JSON parsing, and the JSON serialisation and printing or writing of the result
  (`server_select.py:110-115`). The result is returned as a sequence of records.
- The geodesic distance computed by geopy (`server_select.py:83`). It is foreign
  floating-point code, so it is a function parameter. Distances are `real`: rounding, NaN and
  infinities are not modelled.
- The validating decorator and its configured defaults (`server_select.py:16-25`), argument
  parsing, the "both or neither" file-option check, and application start-up
  (`server_select.py:118-138`). Only their effect on the pipeline is kept, as the
  precondition `ValidCriteria`.
- All logging calls. They do not affect the result.
- Untyped JSON. Records are typed, so a record with no `flag`, `categories`, `features`,
  `domain` or `location` key cannot be built. In the source, such a record makes the pipeline
  raise `KeyError` at the first access (for example `srv["categories"]` at line 59). It is not
  silently excluded. The model follows the code here, not the description that such records
  are filtered out. Python equalities such as `1 == True` for a non-boolean feature value are
  not modelled either: feature values are `bool` and loads are `int`.
- Only the `percent` field of a statistics entry is read. The statistics are modelled as a map
  from domain to that percentage.
- Record fields that the pipeline never reads are not modelled. The source passes them
  through to the output unchanged.
- Aliasing. The source's enrichment mutates the dictionaries that the original server list
  also holds. That list is never read again, so nothing observable depends on it. The model
  copies the filtered records into a fresh array and rewrites that array.
- Idempotence has no lemma. `Selection` is a function, so equal inputs give equal outputs by
  construction.
