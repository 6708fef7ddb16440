# RandomActivityGen core, modelled in Dafny

RandomActivityGen prepares the statistics file that SUMO's ActivityGen reads
for a road network. It takes a SUMO network and an ElementTree statistics
document and fills the document in:

- `verify_stats` checks that the root is a `<city>` with a `<general>`
  section. It then adds a default `<population>` and a default `<workHours>`
  section where they are missing.
- `setup_city_gates` tops `<cityGates>` up to the requested number of
  `<entrance>` records. Each new gate is the dead end that reaches furthest
  in one of n evenly spread directions. Its traffic weights follow its
  private-vehicle lanes.
- `setup_schools` tops `<schools>` up to a target. The target is given
  outright or derived from the number of inhabitants. `find_school_edges`
  sorts the edges by centroid and cuts them into districts. It then keeps the
  edge of highest population number in each district. Each school's ages,
  capacity and hours are drawn at random.
- `main` draws two distinct noise bases.
- `Perlin.py` holds the helpers:
  - `drange`;
  - the vertex-mean centroid of an edge shape;
  - the rescaling of noise into [0, 1];
  - `calculate_network_population`, which writes each edge's population
    number onto its street records.

The network and the document are values:
- `Network.Net` for the network;
- `StatsTree.Element` for an element, with its tag, attributes and children.

State that the code changes in place is held by two classes:
- `StatsTree.Stats` holds the document root, which its methods replace.
- `Random.Rng` holds Python's shared random generator. It has a stream of
  uniform values and the number already drawn.

Each procedure that works step by step is a method with loops. Its
postcondition ties its outcome, the new root and the generator's new
position to a specification function, such as `CityGatesRun`, `SchoolsRun`,
`NetworkPopulation` or `WithDefaults`. The properties the code promises are
lemmas about those functions. A raised exception is modelled as a `Fail`
outcome carrying a `Common.Error`.

Where the code and its own comments or documentation differ, the model
follows the code:

- The edges are sorted by the mean of the centroid's x and y (`np.mean` of
  the pair), not by one coordinate.
- District size is `ceil(E / k)`, so there are `ceil(E / ceil(E / k))`
  districts, which can be fewer than the k schools asked for. Ten edges for
  six schools give five (`SchoolDistricts.TenEdgesSixSchools`).
- The end age is drawn from `[hi, hi]` or `[begin + 1, hi]`, where `hi` is the
  upper bound of `--schools.end-age`. The lower bound is never read, so a
  successful draw always gives `hi`.
- `verify_stats` only checks that the `inhabitants` and `households` keys
  exist, because `attrib[...] is not None` cannot be false once the key is
  found.
- `setup_schools` with no edges in the network raises on `range(0, 0, 0)`
  inside `find_school_edges`. It does not place zero schools.

## Model

| member | source | states |
|---|---|---|
| Common.Ceil | randomActivityGen.py:151 | `math.ceil`: the least integer at or above x |
| Common.Trunc | randomActivityGen.py:169 | `int()` of a float truncates toward zero, for either sign |
| Common.FloorDiv | randomActivityGen.py:190-191 | Python's `//` floors for either sign of the divisor |
| Common.CeilDiv | randomActivityGen.py:123 | `int(np.ceil(a / b))`: the least c with a <= c * b |
| Network.Neighbours | randomActivityGen.py:71 | the neighbouring nodes; DeadEndsMembers states the dead-end test on it |
| Network.PrivateLanes | randomActivityGen.py:96-99 | the count of lanes allowing private vehicles is positive exactly when one lane allows them |
| Network.PrivateLaneSum | randomActivityGen.py:96-99 | the summed private lanes of a gate's edges are positive exactly when one of its edges has a private lane |
| StatsTree.FindChild | randomActivityGen.py:58 | `find(tag)` returns the first child with the tag, and None exactly when no child has it |
| StatsTree.CountTag | randomActivityGen.py:61 | `len(findall(tag))` never exceeds the number of children |
| StatsTree.CountTagAppend | randomActivityGen.py:61 | counting over appended records adds their own count |
| StatsTree.CountTagAll | randomActivityGen.py:61 | records that all carry the tag are all counted |
| StatsTree.ParseInt | randomActivityGen.py:151 | `int(text)` only succeeds on a non-empty text; ParseIntRendered fixes its value |
| StatsTree.ParseDigits | randomActivityGen.py:151 | an unsigned `int(text)` succeeds exactly on a non-empty run of decimal digits |
| StatsTree.ParseDigitsRendered | randomActivityGen.py:151 | reading back the decimal digits of a natural number gives that number |
| StatsTree.ParseIntRendered | randomActivityGen.py:151 | `int(str(i)) == i` for every integer, negative ones included |
| StatsTree.IntOf | randomActivityGen.py:150-151 | `int()` of an attribute: a text is parsed by ParseInt, a number written by the model is read as itself; TargetFromInhabitants uses it |
| StatsTree.EnsureSection | randomActivityGen.py:58-60 | after the lookup-or-create, a section with the tag is at the returned index |
| StatsTree.EnsureSectionFinds | randomActivityGen.py:58-60 | a later `find` gives that index; a present section leaves the root as it was; a missing one is appended empty after the others |
| StatsTree.AppendRecords | randomActivityGen.py:108-113 | appending records to one section changes only that section's records, which gain them at the end |
| StatsTree.AppendRecordsTwice | randomActivityGen.py:108-113 | two successive appends equal one append of both lists in order |
| StatsTree.ReplaceSection | Perlin.py:104-106 | setting attributes inside one section changes no other section |
| StatsTree.FindChildByTags | Perlin.py:103 | `find` depends on tags only, so setting attributes does not move a section |
| StatsTree.Stats.FindOrCreate | randomActivityGen.py:58-60 | the lookup-or-create on the document, stated by EnsureSection |
| StatsTree.Stats.Append | randomActivityGen.py:108-113 | `SubElement` appends one record to the section and changes nothing else |
| StatsTree.Stats.SetRecord | Perlin.py:106 | `street.set` replaces one record in place |
| StatsTree.Stats.AppendSection | randomActivityGen.py:218 | `SubElement(city, ...)` appends a section after the others |
| Random.Below | randomActivityGen.py:177-191 | randbelow(n) gives an integer in [0, n) |
| Random.DrawRange | randomActivityGen.py:190-191 | `randrange` succeeds exactly on a non-empty range; a zero step or an empty range raises; a result is on the start + k * step grid within the range |
| Random.DrawUp | randomActivityGen.py:190-191 | the positive-step case of randrange, with the same properties |
| Random.DrawDown | randomActivityGen.py:190-191 | the negative-step case of randrange, with the same properties |
| Random.DrawInt | randomActivityGen.py:177-181 | `randint(a, b)` succeeds exactly when a <= b, with a result in [a, b] |
| Random.Rng.Random | randomActivityGen.py:83 | `random()` yields the next uniform and advances by one |
| Random.Rng.RandInt | randomActivityGen.py:177-189 | `randint` on the generator: DrawInt on the next value; it advances only on success |
| Random.Rng.RandRange | randomActivityGen.py:190-191 | `randrange` on the generator: DrawRange on the next value; it advances only on success |
| Sorting.InsertPermutes | randomActivityGen.py:120 | insertion adds exactly the inserted element |
| Sorting.InsertSorted | randomActivityGen.py:120 | insertion into a sorted list keeps it sorted |
| Sorting.Insert | randomActivityGen.py:120 | one insertion step of the sort; InsertPermutes, InsertSorted and InsertStable state its properties |
| Sorting.SortBy | randomActivityGen.py:120 | the sort `list.sort(key=...)` as insertion sort; SortByCorrect, SortByStable and SortedLastIsLastMax state its properties |
| Sorting.SortByCorrect | randomActivityGen.py:120 | `list.sort(key=...)` gives a permutation of its input in ascending key order |
| Sorting.InsertStable | randomActivityGen.py:120 | inserting after equal keys: the elements with any one key keep their order, the new one last |
| Sorting.SortByStable | randomActivityGen.py:120 | the sort is stable: the elements with any one key appear in their input order |
| Sorting.LastMaxBy | randomActivityGen.py:131-132 | the last index whose key is maximal: no key exceeds it and every later key is smaller |
| Sorting.SortedLastIsLastMax | randomActivityGen.py:131-132 | sorting then taking `[-1]` picks the last element of maximal key |
| Perlin.DRange | Perlin.py:20-23 | `drange` yields nothing exactly when x >= y; an exact start yields x + i * jump for i = 0, 1, ... while below y, increasing, and the next value would reach y; a float start below y yields x and then raises a TypeError, since a float plus a Decimal is unsupported |
| Perlin.GridIncreasing | Perlin.py:20-23 | the yielded values strictly increase for a positive jump |
| Perlin.Mean | Perlin.py:50-51 | `np.mean` lies between the smallest and the largest value, and is the value itself for one value |
| Perlin.Centroid | Perlin.py:43-52 | each centroid coordinate lies between the shape's extreme coordinates; a one-point shape is its own centroid |
| Perlin.ScaleNoise | Perlin.py:55-61 | the inverse of n = 2r - 1; it maps [-1, 1] into [0, 1] |
| Perlin.ScaleNoiseMonotone | Perlin.py:55-61 | the rescaling keeps the order of noise values |
| Perlin.ScaleNoiseEnds | Perlin.py:55-61 | -1, 0 and 1 go to 0, 0.5 and 1 |
| Perlin.PopulationNumber | Perlin.py:74-82 | the population number lies in [0, 1] when the noise at the centroid lies in [-1, 1] |
| Perlin.MarkStreet | Perlin.py:104-106 | one record: `population` is set on a street whose `edge` names the edge, anything else is left alone; PopulateOneMatch and PopulateOneNoMatch state the effect of applying it for every edge |
| Perlin.MarkStreets | Perlin.py:104-106 | the inner loop over the street records, as MarkStreetsStep and MarkedAll state it, one record at a time |
| Perlin.PopulateOne | Perlin.py:101-106 | the passes for all edges applied to one record; PopulateOneMatch and PopulateOneNoMatch state the result |
| Perlin.PopulateStreets | Perlin.py:101-106 | the passes for all edges over the street records, as PopulateStep states it edge by edge |
| Perlin.NetworkPopulation | Perlin.py:94-106 | the outcome and tree of calculate_network_population; NetworkPopulationWrites and NetworkPopulationKeeps state them |
| Perlin.FirstUnkeyed | Perlin.py:105 | finds the first street without an `edge` attribute, where `attrib["edge"]` raises |
| Perlin.MarkStreetsPass | Perlin.py:104-106 | one edge's inner loop: it marks every street on success, or raises at the first unkeyed street after marking those before it |
| Perlin.MarkRecord | Perlin.py:105-106 | one iteration marks the next record |
| Perlin.CalculateNetworkPopulation | Perlin.py:94-106 | the nested loop leaves the outcome and tree that NetworkPopulation states |
| Perlin.PopulateStep | Perlin.py:101-106 | the pass for edge k follows the passes for the edges before it |
| Perlin.MarkedStaysKeyed | Perlin.py:101-106 | setting `population` never removes an `edge` attribute, so later passes do not raise |
| Perlin.PopulateOneMatch | Perlin.py:101-106 | a street naming an edge ends with that edge's population number |
| Perlin.PopulateOneNoMatch | Perlin.py:101-106 | a record naming no edge is untouched |
| Perlin.NetworkPopulationWrites | Perlin.py:94-106 | on success, every street naming a network edge carries that edge's population number, and no record or section is added, removed or otherwise changed |
| Perlin.NetworkPopulationKeeps | Perlin.py:94-106 | on success, records naming no network edge keep every attribute |
| CityGates.IsDeadEnd | randomActivityGen.py:71-73 | the dead-end test; DeadEndsMembers states it as one neighbour and a private lane |
| CityGates.DeadEnds | randomActivityGen.py:71-73 | the dead ends keep node order and each has an edge |
| CityGates.DeadEndsMembers | randomActivityGen.py:71-73 | a node is kept exactly when it has one neighbour and an edge with a private lane |
| CityGates.DeadEndsAppend | randomActivityGen.py:71-73 | the filter distributes over concatenation |
| CityGates.DeadEndHasEdge | randomActivityGen.py:104 | a dead end has an incoming or an outgoing edge, so `[0]` does not raise |
| CityGates.Turn | randomActivityGen.py:83-84 | each direction, as a fraction of a turn, lies in [0, 1) |
| CityGates.TurnOffset | randomActivityGen.py:84 | direction i is i / n of a turn past the base, wrapped |
| CityGates.TurnsDistinct | randomActivityGen.py:84 | the n directions are pairwise different |
| CityGates.GateFor | randomActivityGen.py:90-91 | `argmax` gives the first dead end of largest dot product |
| CityGates.Weight | randomActivityGen.py:100-101 | a weight `(1 + random()) * lanes` lies in [lanes, 2 * lanes), and is 0 without lanes |
| CityGates.GateEntrance | randomActivityGen.py:96-104 | the entrance is on the first outgoing edge, else the first incoming one; its incoming weight follows the outgoing lanes and its outgoing weight the incoming lanes |
| CityGates.EntranceRecord | randomActivityGen.py:108-113 | the appended record is a childless `entrance` |
| CityGates.EntranceRecordAttributes | randomActivityGen.py:108-113 | the record has exactly edge, incoming, outgoing and pos, with pos the integer 0 |
| CityGates.Directions | randomActivityGen.py:84-85 | the list of directions; TurnOffset, TurnsDistinct and EntrancesChosen state what it gives |
| CityGates.GateAt | randomActivityGen.py:87-104 | the entrance for direction j, from draws 2j and 2j + 1; EntrancesAt and EntrancesChosen state it |
| CityGates.Entrances | randomActivityGen.py:87-104 | one entrance per direction |
| CityGates.EntrancesAt | randomActivityGen.py:87-104 | entrance j is the one for direction j, with its two draws |
| CityGates.EntranceRecords | randomActivityGen.py:108-113 | one record per entrance |
| CityGates.EntranceRecordsTags | randomActivityGen.py:108-113 | every appended record is an entrance |
| CityGates.WithGates | randomActivityGen.py:87-113 | the section after the loop over the first directions; AppendGate and TopUpAppends state it |
| CityGates.TopUp | randomActivityGen.py:61-113 | the call after the lookup; TopUpKeeps, TopUpCount and TopUpAppends state it |
| CityGates.CityGatesRun | randomActivityGen.py:55-113 | the outcome, root and generator position of setup_city_gates; CityGatesSection, CityGatesCount and CityGatesAppends state them |
| CityGates.SetupCityGates | randomActivityGen.py:55-113 | the procedure leaves the outcome, root and generator position that CityGatesRun states |
| CityGates.AddMissingGates | randomActivityGen.py:61-113 | the part after the lookup, as TopUp states |
| CityGates.PlaceGates | randomActivityGen.py:87-113 | the loop appends the entrance for each direction and draws two values per gate |
| CityGates.AddGate | randomActivityGen.py:88-113 | one pass of the loop appends the next entrance |
| CityGates.AppendGate | randomActivityGen.py:108-113 | appending entrance k after the first k gives the first k + 1 |
| CityGates.CityGatesSection | randomActivityGen.py:56-60 | with a non-negative count, a cityGates section exists afterwards |
| CityGates.TopUpKeeps | randomActivityGen.py:61-113 | the root, the other sections and the existing entrances are kept; records are only appended |
| CityGates.TopUpCount | randomActivityGen.py:61-113 | nothing is added when enough entrances exist; on success exactly gateCount entrances remain; the only failure is the argmax over no dead ends, which leaves the root unchanged |
| CityGates.CityGatesCount | randomActivityGen.py:55-113 | the count properties for the whole call, including the created section |
| CityGates.EntrancesChosen | randomActivityGen.py:87-104 | each entrance sits at the first dead end reaching furthest in its direction |
| CityGates.TopUpAppends | randomActivityGen.py:82-113 | on success the section holds its old records and then one entrance per direction, after 1 + 2n draws |
| CityGates.CityGatesAppends | randomActivityGen.py:55-113 | the same for the whole call |
| SchoolDistricts.CentroidKey | randomActivityGen.py:120 | the sort key is the mean of the centroid's x and y |
| SchoolDistricts.Districts | randomActivityGen.py:123-124 | the slicing into districts; DistrictsCount, DistrictsSizes and DistrictsConcat state it |
| SchoolDistricts.DistrictsCount | randomActivityGen.py:123-124 | the slicing gives ceil(E / d) districts |
| SchoolDistricts.DistrictsSizes | randomActivityGen.py:124 | every district is non-empty with at most d edges, and all but the last have exactly d |
| SchoolDistricts.DistrictsConcat | randomActivityGen.py:124 | the districts joined in order give back the sorted edges |
| SchoolDistricts.DistrictCount | randomActivityGen.py:123-124 | with E > 0 edges there are between 1 and k districts |
| SchoolDistricts.TenEdgesSixSchools | randomActivityGen.py:116-134 | for any ten edges and any population key, `find_school_edges(..., 6)` succeeds with five edges |
| SchoolDistricts.Picks | randomActivityGen.py:130-132 | one pick per district |
| SchoolDistricts.PicksAt | randomActivityGen.py:130-132 | pick j is the last edge of maximal population number in district j |
| SchoolDistricts.SchoolEdges | randomActivityGen.py:116-134 | the result of find_school_edges; SchoolEdgesCount, SchoolEdgesPick and TenEdgesSixSchools state it |
| SchoolDistricts.SchoolEdgesCount | randomActivityGen.py:116-134 | `find_school_edges` fails exactly on no edges, with a zero step; otherwise it returns one edge per district, between 1 and k |
| SchoolDistricts.SchoolEdgesPick | randomActivityGen.py:116-134 | the districts cover a permutation of the edges sorted by centroid key; pick j lies in district j, and no edge there has a higher population number |
| SchoolDistricts.FindSchoolEdges | randomActivityGen.py:116-134 | the loop over districts returns SchoolEdges |
| Schools.Target | randomActivityGen.py:143-157 | the number of schools wanted: the given count, or one derived from the inhabitants, raising when the general section or its inhabitants attribute is missing or not an integer; TargetFromInhabitants and SchoolsCount state it |
| Schools.Step | randomActivityGen.py:169 | the step of the opening and closing grids; DrawSchoolValid and DrawSchoolSucceeds state the draws on it |
| Schools.TargetFromInhabitants | randomActivityGen.py:143-151 | without a count, the target is ceil(inhabitants * ratio / 1000) |
| Schools.TenThousandInhabitants | randomActivityGen.py:144-151 | 10000 inhabitants at 0.2 per 1000 ask for 2 schools |
| Schools.DrawSchool | randomActivityGen.py:176-191 | the six draws for one school; DrawSchoolValid, DrawSchoolSucceeds and EndAgeRangeEmpty state them |
| Schools.DrawSchoolValid | randomActivityGen.py:176-191 | a drawn school is on its edge, with every attribute in its configured range and on the step grid, after six draws |
| Schools.EndAgeRangeEmpty | randomActivityGen.py:179-181 | a begin age with no room below the end-age bound makes the second draw raise |
| Schools.DrawSchoolSucceeds | randomActivityGen.py:176-191 | a school is drawn exactly when every range it draws from is non-empty |
| Schools.PlacedBy | randomActivityGen.py:176-192 | the loop over the school edges for any per-edge draw; PlacedByRecords states it |
| Schools.Placed | randomActivityGen.py:176-192 | the loop with setup_schools' own draws; PlacedRecords, PlacedTags, PlacedStops and PlacedStep state it |
| Schools.DrawerDrawsSchools | randomActivityGen.py:176-191 | setup_schools' draw yields a valid school after six values whenever it succeeds |
| Schools.PlacedByRecords | randomActivityGen.py:176-192 | for a draw yielding valid schools after six values: every record is a valid school on the edge at its place, never more than one per edge, and on success one per edge after six draws each |
| Schools.PlacedRecords | randomActivityGen.py:176-192 | every appended record is a valid school on its edge, in edge order; at most one per edge, and on success exactly one per edge after six draws each |
| Schools.PlacedTags | randomActivityGen.py:183 | every appended record is a school |
| Schools.PlacedStops | randomActivityGen.py:176-191 | after a raise, later edges change nothing |
| Schools.SchoolsRun | randomActivityGen.py:137-192 | the outcome, root and generator position of setup_schools; SchoolsSection and SchoolsCount state them |
| Schools.TopUpSchools | randomActivityGen.py:154-192 | the call once the target is known; TopUpSchoolsKeeps and TopUpSchoolsCases state it |
| Schools.NewSchools | randomActivityGen.py:172-192 | find_school_edges and then the loop; TopUpSchoolsCases states it |
| Schools.SetupSchools | randomActivityGen.py:137-192 | the procedure leaves the outcome, root and generator position that SchoolsRun states |
| Schools.AddMissingSchools | randomActivityGen.py:154-192 | the part after the target is known, as TopUpSchools states |
| Schools.AddNewSchools | randomActivityGen.py:172-192 | `find_school_edges`, then the loop |
| Schools.PlaceSchools | randomActivityGen.py:176-192 | the loop over the school edges, stopping at the first raise |
| Schools.AddSchool | randomActivityGen.py:177-192 | one pass of the loop |
| Schools.PlacedStep | randomActivityGen.py:176-192 | the loop after k + 1 edges is the loop after k edges, then edge k's draws |
| Schools.DrawSchoolRecord | randomActivityGen.py:177-191 | the six draws in the code's order, each raising before it draws |
| Schools.TopUpSchoolsKeeps | randomActivityGen.py:154-192 | the root, the other sections and the existing schools are kept; records are only appended |
| Schools.PlaceRunAppends | randomActivityGen.py:176-192 | the old records stay in front, followed by valid schools on the edges in order, even after a raise part way |
| Schools.AppendedSchools | randomActivityGen.py:183-192 | valid schools appended after existing records keep those in front and stay on their edges |
| Schools.PlaceRunCount | randomActivityGen.py:176-192 | on success the section gains one school per edge, after six draws each |
| Schools.TopUpSchoolsCases | randomActivityGen.py:154-173 | with the target met nothing happens; with no edges the call raises and nothing changes; otherwise between 1 and n edges are placed |
| Schools.SchoolsSection | randomActivityGen.py:140-142 | the schools section exists afterwards whatever the outcome, and keeps its records |
| Schools.SchoolsCount | randomActivityGen.py:140-192 | new = target - existing; nothing is appended when new <= 0, and on success between 1 and new schools are added |
| Defaults.DefaultPopulation | randomActivityGen.py:218-221 | the default population section; DefaultPopulationComplete states it |
| Defaults.DefaultWorkHours | randomActivityGen.py:228-233 | the default work-hours section; DefaultWorkHoursComplete states it |
| Defaults.StatsCheck | randomActivityGen.py:202-211 | the assertions of verify_stats; StatsCheckPasses and StatsCheckKept state them |
| Defaults.WithDefaults | randomActivityGen.py:213-233 | the root with the missing defaults added; WithDefaultsSections, WithDefaultsKeeps, WithDefaultsIdempotent and WithDefaultsTail state it |
| Defaults.DefaultPopulationComplete | randomActivityGen.py:214-221 | the default population is three brackets, consecutive from 0 to 90, whose shares sum to 100 |
| Defaults.DefaultWorkHoursComplete | randomActivityGen.py:224-233 | the default work hours are two openings and three closings, each group summing to 100 at increasing hours |
| Defaults.StatsCheckPasses | randomActivityGen.py:202-211 | the checks pass exactly when the root is a city whose first general section has both attributes |
| Defaults.WithSection | randomActivityGen.py:214-228 | a missing section is appended; a present one leaves the root unchanged |
| Defaults.FindChildAppend | randomActivityGen.py:214-228 | appending sections does not move a found one |
| Defaults.WithDefaultsSections | randomActivityGen.py:213-233 | afterwards both sections exist; the old sections stay in place; a missing one is exactly its default |
| Defaults.WithDefaultsKeeps | randomActivityGen.py:213-233 | a present section stays where it was, unchanged |
| Defaults.WithDefaultsIdempotent | randomActivityGen.py:213-233 | a second verify_stats adds nothing |
| Defaults.StatsCheckKept | randomActivityGen.py:202-233 | the added defaults do not change the outcome of the checks |
| Defaults.WithDefaultsTail | randomActivityGen.py:213-233 | the only sections added are population and workHours |
| Defaults.VerifyStats | randomActivityGen.py:195-233 | raises on a failed check before changing anything; otherwise adds the missing defaults |
| NoiseBases.Base | randomActivityGen.py:274-277 | a noise base lies in [0, 65536] |
| NoiseBases.BaseDrawn | randomActivityGen.py:274-277 | `randint(0, 65536)` never raises and gives the base |
| NoiseBases.DrawBases | randomActivityGen.py:274-277 | the population base is the first draw; the industry base is the first later draw that differs from it, after at least two draws |
| NoiseBases.DrawBase | randomActivityGen.py:274-277 | one `randint(0, 65536)` uses one value |

## Left out

- Reading the network and the statistics file, and writing the result, are
  not modelled. This includes the `xml.write` at Perlin.py:108. Logging and
  the warning `print` are not modelled either.
- `docopt` parsing is not modelled. The school options arrive already split
  and converted as `Schools.SchoolConfig`, and the counts arrive as
  parameters. An option text that `int()` or `float()` rejects is not
  modelled.
- Seeding and Python's Mersenne Twister are not modelled. The generator is a
  stream of uniform values in [0, 1).
- `Random.Below`: each randbelow uses one value, as `floor(u * n)`. CPython
  instead draws bits and rejects some of them, so the model fixes the order
  of draws but not their exact values or how many bits they use.
- `math.cos`/`math.sin` become the `heading` parameter, so floating-point
  rounding in the directions is not modelled.
- The `noise` library becomes a function parameter:
  - `noise` in `Perlin.PopulationNumber`;
  - the population-number key `pop` in `find_school_edges`.

  That key comes from another `perlin` module, together with
  `find_city_centre` and `radius_of_network`. That module is not part of
  this model. Only its values are used: the key the districts are sorted by.
- Floats are exact reals. An attribute written with `str()` is kept as the
  number it renders (`Int`, `Num`), not as its text. An attribute read from
  the file stays `Text`. So `Text("30")` and `Int(30)` stand for the same
  XML text, and equality of `StatsTree.Value`s is not equality of texts.
  The model writes every integer it adds as `Int`; `StatsTree.IntOf` reads
  both forms.
- `StatsTree.ParseInt` accepts only an optional sign and decimal digits.
  Python's `int()` also accepts surrounding whitespace and underscores
  between digits.
- `list.sort` is a stable insertion-sort function on a copy, not an in-place
  sort. If sumolib's `getEdges()` returns the network's own list,
  `find_school_edges` reorders it in place; that effect on the network is not
  modelled.
- `Perlin.DRange`: for an int or Decimal start the model requires
  `jump > 0` or `x >= y`. Otherwise the generator never ends. A float start
  is not restricted: it yields its first value and then raises. `Decimal`
  accumulation is exact addition of reals, and the float value of the start
  is taken as exact.
- `NoiseBases.DrawBases`: the model requires that the stream eventually
  gives a different base. Without that, the loop in `main` does not end.
- The rest of `main` is not modelled, and neither are
  `get_shape_of_edge_name`, `get_edge_ids_in_network` (the network's edge
  list is used directly) and `test_perlin_noise`. `statistics.py` and the
  test scripts are not part of this model.
