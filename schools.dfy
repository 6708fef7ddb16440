/**
 * setup_schools: tops the schools section up to a target number of school
 * records, the target given outright or derived from the number of
 * inhabitants. One school is placed on each edge find_school_edges returns,
 * with its ages, capacity and opening and closing times drawn at random.
 */
module Schools {
  import opened Common
  import opened Network
  import opened StatsTree
  import opened Random
  import opened SchoolDistricts

  /** The --schools.* options, already split at the comma and converted. */
  datatype SchoolConfig = SchoolConfig(
    ratio: real,                                // --schools.ratio: schools per 1000 inhabitants
    openEarliest: int, openLatest: int,         // --schools.open, in hours
    closeEarliest: int, closeLatest: int,       // --schools.close, in hours
    stepHours: real,                            // --schools.stepsize, in hours
    beginAgeLo: int, beginAgeHi: int,           // --schools.begin-age
    endAgeLo: int, endAgeHi: int,               // --schools.end-age; the code reads only the upper bound
    capacityLo: int, capacityHi: int)           // --schools.capacity

  /** stepsize = int(float(stepsize) * 3600), in seconds. */
  function Step(cfg: SchoolConfig): int {
    Trunc(cfg.stepHours * 3600.0)
  }

  /**
   * The number of schools wanted: school_count when given, otherwise
   * ceil(int(inhabitants) * ratio / 1000) from the general section, which
   * raises when the section or the attribute is missing or not an integer.
   */
  function Target(e: Element, schoolCount: Option<int>, ratio: real): Result<int> {
    match schoolCount
    case Some(c) => Ok(c)
    case None =>
      match FindChild(e.children, "general")
      case None => Err(MissingSection("general"))
      case Some(g) =>
        if "inhabitants" !in e.children[g].attrib then Err(MissingAttribute("inhabitants"))
        else
          match IntOf(e.children[g].attrib["inhabitants"])
          case None => Err(NotAnInteger("inhabitants"))
          case Some(n) => Ok(Ceil(n as real * ratio / 1000.0))
  }

  /** With no explicit count, the target is the least integer at or above inhabitants * ratio / 1000. */
  lemma TargetFromInhabitants(e: Element, ratio: real, g: nat, n: int)
    requires FindChild(e.children, "general") == Some(g)
    requires "inhabitants" in e.children[g].attrib && IntOf(e.children[g].attrib["inhabitants"]) == Some(n)
    ensures Target(e, None, ratio).Ok?
    ensures var t := Target(e, None, ratio).value;
      (t - 1) as real < n as real * ratio / 1000.0 <= t as real
  {
  }

  /** 10000 inhabitants at 0.2 schools per 1000 inhabitants ask for 2 schools. */
  lemma TenThousandInhabitants(e: Element)
    requires FindChild(e.children, "general").Some?
    requires e.children[FindChild(e.children, "general").value].attrib == map["inhabitants" := Text("10000")]
    ensures Target(e, None, 0.2) == Ok(2)
  {
    assert ParseDigits("1") == Some(1);
    assert ParseDigits("10") == Some(10) by { assert "10"[..1] == "1"; }
    assert ParseDigits("100") == Some(100) by { assert "100"[..2] == "10"; }
    assert ParseDigits("1000") == Some(1000) by { assert "1000"[..3] == "100"; }
    assert ParseDigits("10000") == Some(10000) by { assert "10000"[..4] == "1000"; }
    assert 10000 as real * 0.2 / 1000.0 == 2.0;
  }

  /** The school record appended to the schools section. */
  function SchoolRecord(site: Edge, at: int, beginAge: int, endAge: int, capacity: int, opening: int, closing: int): Element {
    Element("school", map[
      "edge" := Text(site.id), "pos" := Int(at), "beginAge" := Int(beginAge), "endAge" := Int(endAge),
      "capacity" := Int(capacity), "opening" := Int(opening), "closing" := Int(closing)], [])
  }

  /** The outcome of drawing one school's attributes, and the generator's position afterwards. */
  datatype SchoolDraw = SchoolDraw(record: Result<Element>, pos: nat)

  /**
   * The draws for one school, in the order the code makes them: begin age,
   * end age, position, capacity, opening and closing time. The end age is
   * drawn from [endAgeHi, endAgeHi] when begin + 1 <= endAgeHi and from the
   * empty [begin + 1, endAgeHi] otherwise. A failing draw stops there.
   */
  function DrawSchool(site: Edge, cfg: SchoolConfig, stream: UnitStream, pos: nat): SchoolDraw {
    var begin := DrawInt(stream(pos), cfg.beginAgeLo, cfg.beginAgeHi);
    if begin.Err? then SchoolDraw(Err(begin.error), pos)
    else
      var b := begin.value;
      var end := DrawInt(stream(pos + 1), if b + 1 <= cfg.endAgeHi then cfg.endAgeHi else b + 1, cfg.endAgeHi);
      if end.Err? then SchoolDraw(Err(end.error), pos + 1)
      else
        var at := DrawInt(stream(pos + 2), 0, 100);
        var cap := DrawInt(stream(pos + 3), cfg.capacityLo, cfg.capacityHi);
        if cap.Err? then SchoolDraw(Err(cap.error), pos + 3)
        else
          var opening := DrawRange(stream(pos + 4), cfg.openEarliest * 3600, cfg.openLatest * 3600, Step(cfg));
          if opening.Err? then SchoolDraw(Err(opening.error), pos + 4)
          else
            var closing := DrawRange(stream(pos + 5), cfg.closeEarliest * 3600, cfg.closeLatest * 3600, Step(cfg));
            if closing.Err? then SchoolDraw(Err(closing.error), pos + 5)
            else SchoolDraw(Ok(SchoolRecord(site, at.value, b, end.value, cap.value, opening.value, closing.value)), pos + 6)
  }

  predicate IntWithin(v: Value, lo: int, hi: int) {
    v.Int? && lo <= v.i <= hi
  }

  /** v is a value randrange(start, stop, step) can return. */
  predicate OnGrid(v: Value, start: int, stop: int, step: int) {
    v.Int? && InRange(v.i, start, stop, step)
  }

  /**
   * rec is a school on site within the configured bounds: position in
   * [0, 100], begin age and capacity within their ranges, end age equal to
   * the end-age upper bound and above the begin age, and opening and closing
   * times in [earliest, latest) hours on the step grid.
   */
  predicate SchoolFor(rec: Element, site: Edge, cfg: SchoolConfig) {
    && rec.tag == "school" && rec.children == []
    && "edge" in rec.attrib && rec.attrib["edge"] == Text(site.id)
    && "pos" in rec.attrib && IntWithin(rec.attrib["pos"], 0, 100)
    && "beginAge" in rec.attrib && IntWithin(rec.attrib["beginAge"], cfg.beginAgeLo, cfg.beginAgeHi)
    && "endAge" in rec.attrib && rec.attrib["endAge"] == Int(cfg.endAgeHi)
    && rec.attrib["beginAge"].i < cfg.endAgeHi
    && "capacity" in rec.attrib && IntWithin(rec.attrib["capacity"], cfg.capacityLo, cfg.capacityHi)
    && "opening" in rec.attrib && OnGrid(rec.attrib["opening"], cfg.openEarliest * 3600, cfg.openLatest * 3600, Step(cfg))
    && "closing" in rec.attrib && OnGrid(rec.attrib["closing"], cfg.closeEarliest * 3600, cfg.closeLatest * 3600, Step(cfg))
  }

  /** A successful draw yields a school within bounds and uses six values. */
  lemma DrawSchoolValid(site: Edge, cfg: SchoolConfig, stream: UnitStream, pos: nat)
    ensures DrawSchool(site, cfg, stream, pos).record.Ok? ==>
      && SchoolFor(DrawSchool(site, cfg, stream, pos).record.value, site, cfg)
      && DrawSchool(site, cfg, stream, pos).pos == pos + 6
  {
  }

  /**
   * When the drawn begin age leaves no room below the end-age bound, the
   * end-age draw fails on its empty range after one value was drawn.
   */
  lemma EndAgeRangeEmpty(site: Edge, cfg: SchoolConfig, stream: UnitStream, pos: nat)
    requires DrawInt(stream(pos), cfg.beginAgeLo, cfg.beginAgeHi).Ok?
    requires DrawInt(stream(pos), cfg.beginAgeLo, cfg.beginAgeHi).value + 1 > cfg.endAgeHi
    ensures DrawSchool(site, cfg, stream, pos) == SchoolDraw(Err(EmptyRange), pos + 1)
  {
  }

  predicate NonEmptyRange(start: int, stop: int, step: int) {
    (step > 0 && start < stop) || (step < 0 && stop < start)
  }

  /**
   * A school is drawn exactly when every range it draws from is non-empty:
   * the begin ages, the end ages above the drawn begin age, the capacities
   * and the opening and closing grids.
   */
  lemma DrawSchoolSucceeds(site: Edge, cfg: SchoolConfig, stream: UnitStream, pos: nat)
    ensures DrawSchool(site, cfg, stream, pos).record.Ok? <==>
      && cfg.beginAgeLo <= cfg.beginAgeHi
      && DrawInt(stream(pos), cfg.beginAgeLo, cfg.beginAgeHi).value + 1 <= cfg.endAgeHi
      && cfg.capacityLo <= cfg.capacityHi
      && NonEmptyRange(cfg.openEarliest * 3600, cfg.openLatest * 3600, Step(cfg))
      && NonEmptyRange(cfg.closeEarliest * 3600, cfg.closeLatest * 3600, Step(cfg))
  {
  }

  /** The records appended so far, the outcome and the generator's position. */
  datatype Batch = Batch(outcome: Outcome, records: seq<Element>, pos: nat)

  /**
   * The loop over the school edges for a given draw per edge: one record
   * per edge, in edge order, stopping at the first draw that raises.
   */
  function PlacedBy(sites: seq<Edge>, draw: (Edge, nat) -> SchoolDraw, pos: nat): Batch {
    if sites == [] then Batch(Pass, [], pos)
    else
      var b := PlacedBy(sites[..|sites| - 1], draw, pos);
      if b.outcome.Fail? then b
      else
        var d := draw(sites[|sites| - 1], b.pos);
        match d.record
        case Err(err) => Batch(Fail(err), b.records, d.pos)
        case Ok(rec) => Batch(Pass, b.records + [rec], d.pos)
  }

  /** The draw setup_schools makes for one edge, reading the stream from a position. */
  function Drawer(cfg: SchoolConfig, stream: UnitStream): (Edge, nat) -> SchoolDraw {
    (site: Edge, p: nat) => DrawSchool(site, cfg, stream, p)
  }

  /** The loop over the school edges: one drawn record per edge, stopping at the first failing draw. */
  function Placed(sites: seq<Edge>, cfg: SchoolConfig, stream: UnitStream, pos: nat): Batch {
    PlacedBy(sites, Drawer(cfg, stream), pos)
  }

  /** Every successful draw yields a school within bounds on its edge after six values. */
  ghost predicate DrawsSchools(draw: (Edge, nat) -> SchoolDraw, cfg: SchoolConfig) {
    forall site: Edge, p: nat :: draw(site, p).record.Ok? ==>
      SchoolFor(draw(site, p).record.value, site, cfg) && draw(site, p).pos == p + 6
  }

  lemma DrawerDrawsSchools(cfg: SchoolConfig, stream: UnitStream)
    ensures DrawsSchools(Drawer(cfg, stream), cfg)
  {
    forall site: Edge, p: nat | Drawer(cfg, stream)(site, p).record.Ok?
      ensures SchoolFor(Drawer(cfg, stream)(site, p).record.value, site, cfg)
      ensures Drawer(cfg, stream)(site, p).pos == p + 6
    {
      DrawSchoolValid(site, cfg, stream, p);
    }
  }

  /**
   * For a draw that yields schools after six values: each record is a school
   * on the edge at its place, never more records than edges, and on success
   * one per edge with six values drawn for each.
   */
  lemma {:induction false} PlacedByRecords(sites: seq<Edge>, draw: (Edge, nat) -> SchoolDraw, cfg: SchoolConfig, pos: nat)
    requires DrawsSchools(draw, cfg)
    ensures |PlacedBy(sites, draw, pos).records| <= |sites|
    ensures forall j :: 0 <= j < |PlacedBy(sites, draw, pos).records| ==>
      SchoolFor(PlacedBy(sites, draw, pos).records[j], sites[j], cfg)
    ensures PlacedBy(sites, draw, pos).outcome == Pass ==>
      |PlacedBy(sites, draw, pos).records| == |sites| && PlacedBy(sites, draw, pos).pos == pos + 6 * |sites|
    decreases |sites|
  {
    if sites != [] {
      var front := sites[..|sites| - 1];
      PlacedByRecords(front, draw, cfg, pos);
      var b := PlacedBy(front, draw, pos);
      if b.outcome == Pass {
        var d := draw(sites[|sites| - 1], b.pos);
        if d.record.Ok? {
          var recs := b.records + [d.record.value];
          assert PlacedBy(sites, draw, pos).records == recs;
          forall j | 0 <= j < |recs|
            ensures SchoolFor(recs[j], sites[j], cfg)
          {
            if j < |b.records| {
              assert recs[j] == b.records[j] && sites[j] == front[j];
            }
          }
        }
      }
    }
  }

  /**
   * Each record appended is a school within bounds on its edge, in edge
   * order; on success there is one per edge and six values were drawn for
   * each.
   */
  lemma PlacedRecords(sites: seq<Edge>, cfg: SchoolConfig, stream: UnitStream, pos: nat)
    ensures |Placed(sites, cfg, stream, pos).records| <= |sites|
    ensures forall j :: 0 <= j < |Placed(sites, cfg, stream, pos).records| ==>
      SchoolFor(Placed(sites, cfg, stream, pos).records[j], sites[j], cfg)
    ensures Placed(sites, cfg, stream, pos).outcome == Pass ==>
      |Placed(sites, cfg, stream, pos).records| == |sites| && Placed(sites, cfg, stream, pos).pos == pos + 6 * |sites|
  {
    DrawerDrawsSchools(cfg, stream);
    PlacedByRecords(sites, Drawer(cfg, stream), cfg, pos);
  }

  /** Every appended record carries the school tag. */
  lemma PlacedTags(sites: seq<Edge>, cfg: SchoolConfig, stream: UnitStream, pos: nat)
    ensures forall j :: 0 <= j < |Placed(sites, cfg, stream, pos).records| ==>
      Placed(sites, cfg, stream, pos).records[j].tag == "school"
  {
    PlacedRecords(sites, cfg, stream, pos);
  }

  /** Once a draw has failed, the later edges change nothing. */
  lemma {:induction false} PlacedStops(sites: seq<Edge>, m: nat, cfg: SchoolConfig, stream: UnitStream, pos: nat)
    requires m <= |sites| && Placed(sites[..m], cfg, stream, pos).outcome.Fail?
    ensures Placed(sites, cfg, stream, pos) == Placed(sites[..m], cfg, stream, pos)
    decreases |sites|
  {
    if m == |sites| {
      assert sites[..m] == sites;
    } else {
      var front := sites[..|sites| - 1];
      assert front[..m] == sites[..m];
      PlacedStops(front, m, cfg, stream, pos);
    }
  }

  /** The root after the loop appended its records to section i, the outcome and the position. */
  function PlaceRun(e: Element, i: nat, sites: seq<Edge>, cfg: SchoolConfig, stream: UnitStream, pos: nat): Run
    requires i < |e.children|
  {
    var b := Placed(sites, cfg, stream, pos);
    Run(b.outcome, AppendRecords(e, i, b.records), b.pos)
  }

  /**
   * setup_schools as a whole: the section is created when missing, the
   * target worked out (which can raise), and the missing schools added.
   */
  function SchoolsRun(root: Element, edges: seq<Edge>, schoolCount: Option<int>, cfg: SchoolConfig,
                      pop: Edge -> real, stream: UnitStream, pos: nat): Run {
    var e, i := EnsureSection(root, "schools").0, EnsureSection(root, "schools").1;
    match Target(e, schoolCount, cfg.ratio)
    case Err(err) => Run(Fail(err), e, pos)
    case Ok(t) => TopUpSchools(e, i, edges, t, cfg, pop, stream, pos)
  }

  /**
   * The rest of the call once the section is at index i of e: nothing when
   * the target is already met (or exceeded, which only warns), the error of
   * find_school_edges, or one school per returned edge.
   */
  function TopUpSchools(e: Element, i: nat, edges: seq<Edge>, target: int, cfg: SchoolConfig,
                        pop: Edge -> real, stream: UnitStream, pos: nat): Run
    requires i < |e.children|
  {
    var n := NewSchoolCount(e, i, target);
    if n <= 0 then Run(Pass, e, pos) else NewSchools(e, i, edges, n, cfg, pop, stream, pos)
  }

  /** number_new_schools: the target less the school records the section already holds. */
  function NewSchoolCount(e: Element, i: nat, target: int): int
    requires i < |e.children|
  {
    target - CountTag(e.children[i].children, "school")
  }

  /** n > 0 schools missing: the edges for them, then the loop over those edges. */
  function NewSchools(e: Element, i: nat, edges: seq<Edge>, n: int, cfg: SchoolConfig,
                      pop: Edge -> real, stream: UnitStream, pos: nat): Run
    requires i < |e.children| && n > 0
  {
    match SchoolEdges(edges, n, pop)
    case Err(err) => Run(Fail(err), e, pos)
    case Ok(sites) => PlaceRun(e, i, sites, cfg, stream, pos)
  }

  method SetupSchools(net: Net, doc: Stats, rng: Rng, schoolCount: Option<int>, cfg: SchoolConfig, pop: Edge -> real)
    returns (r: Outcome)
    modifies doc, rng
    ensures Run(r, doc.root, rng.pos) == SchoolsRun(old(doc.root), net.edges, schoolCount, cfg, pop, rng.stream, old(rng.pos))
  {
    var i := doc.FindOrCreate("schools");
    var target := Target(doc.root, schoolCount, cfg.ratio);
    if target.Err? {
      return Fail(target.error);
    }
    r := AddMissingSchools(net, doc, rng, i, target.value, cfg, pop);
  }

  /** The part after the target is known: nothing to do, no edges, or the loop over the school edges. */
  method AddMissingSchools(net: Net, doc: Stats, rng: Rng, i: nat, target: int, cfg: SchoolConfig, pop: Edge -> real)
    returns (r: Outcome)
    requires i < |doc.root.children|
    modifies doc, rng
    ensures Run(r, doc.root, rng.pos) == TopUpSchools(old(doc.root), i, net.edges, target, cfg, pop, rng.stream, old(rng.pos))
  {
    ghost var e, p := doc.root, rng.pos;
    var n := target - CountTag(doc.root.children[i].children, "school");
    // zero returns at once; a negative number prints a warning, then returns
    if n <= 0 {
      r := Pass;
      assert TopUpSchools(e, i, net.edges, target, cfg, pop, rng.stream, p) == Run(Pass, e, p);
    } else {
      assert TopUpSchools(e, i, net.edges, target, cfg, pop, rng.stream, p) == NewSchools(e, i, net.edges, n, cfg, pop, rng.stream, p);
      r := AddNewSchools(net, doc, rng, i, n, cfg, pop);
    }
  }

  /** find_school_edges for the n missing schools, then a school on each edge it returns. */
  method AddNewSchools(net: Net, doc: Stats, rng: Rng, i: nat, n: int, cfg: SchoolConfig, pop: Edge -> real)
    returns (r: Outcome)
    requires i < |doc.root.children| && n > 0
    modifies doc, rng
    ensures Run(r, doc.root, rng.pos) == NewSchools(old(doc.root), i, net.edges, n, cfg, pop, rng.stream, old(rng.pos))
  {
    var sites := FindSchoolEdges(net, n, pop);
    if sites.Err? {
      return Fail(sites.error);
    }
    r := PlaceSchools(doc, rng, i, sites.value, cfg);
  }

  /** The loop over the school edges, which ends early when a draw raises. */
  method PlaceSchools(doc: Stats, rng: Rng, i: nat, sites: seq<Edge>, cfg: SchoolConfig) returns (r: Outcome)
    requires i < |doc.root.children|
    modifies doc, rng
    ensures Run(r, doc.root, rng.pos) == PlaceRun(old(doc.root), i, sites, cfg, rng.stream, old(rng.pos))
  {
    ghost var e, p0, stream := doc.root, rng.pos, rng.stream;
    AppendRecordsNone(e, i);
    assert sites[..0] == [];
    for k := 0 to |sites|
      invariant Placed(sites[..k], cfg, stream, p0).outcome == Pass
      invariant Run(Pass, doc.root, rng.pos) == PlaceRun(e, i, sites[..k], cfg, stream, p0)
    {
      r := AddSchool(doc, rng, i, sites, k, cfg, e, p0);
      if r.Fail? {
        PlacedStops(sites, k + 1, cfg, stream, p0);
        return;
      }
    }
    assert sites[..|sites|] == sites;
    return Pass;
  }

  /** One pass of the loop: the draws for edge k and, when they succeed, its appended record. */
  method AddSchool(doc: Stats, rng: Rng, i: nat, sites: seq<Edge>, k: nat, cfg: SchoolConfig, ghost e: Element, ghost p0: nat)
    returns (r: Outcome)
    requires i < |e.children| && k < |sites|
    requires Placed(sites[..k], cfg, rng.stream, p0).outcome == Pass
    requires Run(Pass, doc.root, rng.pos) == PlaceRun(e, i, sites[..k], cfg, rng.stream, p0)
    modifies doc, rng
    ensures Run(r, doc.root, rng.pos) == PlaceRun(e, i, sites[..k + 1], cfg, rng.stream, p0)
  {
    ghost var b := Placed(sites[..k], cfg, rng.stream, p0);
    var rec := DrawSchoolRecord(rng, sites[k], cfg);
    PlacedStep(sites, k, cfg, rng.stream, p0);
    if rec.Err? {
      return Fail(rec.error);
    }
    AppendRecordsTwice(e, i, b.records, [rec.value]);
    doc.Append(i, rec.value);
    return Pass;
  }

  /** The loop after k + 1 edges is the loop after k edges followed by the draws for edge k. */
  lemma PlacedStep(sites: seq<Edge>, k: nat, cfg: SchoolConfig, stream: UnitStream, pos: nat)
    requires k < |sites| && Placed(sites[..k], cfg, stream, pos).outcome == Pass
    ensures var b := Placed(sites[..k], cfg, stream, pos);
      var d := DrawSchool(sites[k], cfg, stream, b.pos);
      Placed(sites[..k + 1], cfg, stream, pos) ==
        match d.record
        case Err(err) => Batch(Fail(err), b.records, d.pos)
        case Ok(rec) => Batch(Pass, b.records + [rec], d.pos)
  {
    assert sites[..k + 1][..k] == sites[..k];
  }

  /** The six draws for one school, each raising on an empty range before it draws. */
  method DrawSchoolRecord(rng: Rng, site: Edge, cfg: SchoolConfig) returns (rec: Result<Element>)
    modifies rng
    ensures SchoolDraw(rec, rng.pos) == DrawSchool(site, cfg, rng.stream, old(rng.pos))
  {
    var begin := rng.RandInt(cfg.beginAgeLo, cfg.beginAgeHi);
    if begin.Err? {
      return Err(begin.error);
    }
    var end := rng.RandInt(if begin.value + 1 <= cfg.endAgeHi then cfg.endAgeHi else begin.value + 1, cfg.endAgeHi);
    if end.Err? {
      return Err(end.error);
    }
    var at := rng.RandInt(0, 100);
    var capacity := rng.RandInt(cfg.capacityLo, cfg.capacityHi);
    if capacity.Err? {
      return Err(capacity.error);
    }
    var opening := rng.RandRange(cfg.openEarliest * 3600, cfg.openLatest * 3600, Step(cfg));
    if opening.Err? {
      return Err(opening.error);
    }
    var closing := rng.RandRange(cfg.closeEarliest * 3600, cfg.closeLatest * 3600, Step(cfg));
    if closing.Err? {
      return Err(closing.error);
    }
    return Ok(SchoolRecord(site, at.value, begin.value, end.value, capacity.value, opening.value, closing.value));
  }

  /**
   * What the rest of the call keeps: the root's tag, attributes and
   * sections, every other section, and the section's tag, attributes and
   * existing schools, to which it only appends.
   */
  lemma TopUpSchoolsKeeps(e: Element, i: nat, edges: seq<Edge>, target: int, cfg: SchoolConfig,
                          pop: Edge -> real, stream: UnitStream, pos: nat)
    requires i < |e.children|
    ensures var after := TopUpSchools(e, i, edges, target, cfg, pop, stream, pos).root;
      && after.tag == e.tag && after.attrib == e.attrib && |after.children| == |e.children|
      && (forall j :: 0 <= j < |e.children| ==> after.children[j].tag == e.children[j].tag)
      && (forall j :: 0 <= j < |e.children| && j != i ==> after.children[j] == e.children[j])
      && after.children[i].attrib == e.children[i].attrib
      && e.children[i].children <= after.children[i].children
  {
  }

  /**
   * The loop's effect on the section: its old records stay in front, and
   * after them come the records drawn so far, each a school within bounds on
   * the edge at the same place in sites, also when a draw raised part way.
   */
  lemma PlaceRunAppends(e: Element, i: nat, sites: seq<Edge>, cfg: SchoolConfig, stream: UnitStream, pos: nat)
    requires i < |e.children|
    ensures var before, after := e.children[i].children, PlaceRun(e, i, sites, cfg, stream, pos).root.children[i].children;
      && |before| <= |after| <= |before| + |sites|
      && after[..|before|] == before
      && forall j :: |before| <= j < |after| ==> SchoolFor(after[j], sites[j - |before|], cfg)
  {
    var before, recs := e.children[i].children, Placed(sites, cfg, stream, pos).records;
    PlacedRecords(sites, cfg, stream, pos);
    assert PlaceRun(e, i, sites, cfg, stream, pos).root.children[i].children == before + recs;
    AppendedSchools(before, recs, sites, cfg);
  }

  /** Schools on the first edges of sites, appended after before, keep before in front. */
  lemma AppendedSchools(before: seq<Element>, recs: seq<Element>, sites: seq<Edge>, cfg: SchoolConfig)
    requires |recs| <= |sites| && forall j :: 0 <= j < |recs| ==> SchoolFor(recs[j], sites[j], cfg)
    ensures |before| <= |before + recs| <= |before| + |sites|
    ensures (before + recs)[..|before|] == before
    ensures forall j :: |before| <= j < |before + recs| ==> SchoolFor((before + recs)[j], sites[j - |before|], cfg)
  {
    var after := before + recs;
    assert after[..|before|] == before;
    forall j | |before| <= j < |after|
      ensures SchoolFor(after[j], sites[j - |before|], cfg)
    {
      assert after[j] == recs[j - |before|];
    }
  }

  /** On success the section gains exactly one school record per edge, and six values were drawn for each. */
  lemma PlaceRunCount(e: Element, i: nat, sites: seq<Edge>, cfg: SchoolConfig, stream: UnitStream, pos: nat)
    requires i < |e.children| && PlaceRun(e, i, sites, cfg, stream, pos).outcome == Pass
    ensures |PlaceRun(e, i, sites, cfg, stream, pos).root.children[i].children| == |e.children[i].children| + |sites|
    ensures PlaceRun(e, i, sites, cfg, stream, pos).pos == pos + 6 * |sites|
    ensures CountTag(PlaceRun(e, i, sites, cfg, stream, pos).root.children[i].children, "school")
      == CountTag(e.children[i].children, "school") + |sites|
  {
    var recs := Placed(sites, cfg, stream, pos).records;
    PlacedRecords(sites, cfg, stream, pos);
    PlacedTags(sites, cfg, stream, pos);
    CountTagAppend(e.children[i].children, recs, "school");
    CountTagAll(recs, "school");
  }

  /**
   * The three ways the rest of the call goes: with the target met nothing is
   * appended and nothing drawn; without edges find_school_edges raises and
   * nothing changes; on success the loop ran over the picked edges, between
   * one and the number missing.
   */
  lemma TopUpSchoolsCases(e: Element, i: nat, edges: seq<Edge>, target: int, cfg: SchoolConfig,
                          pop: Edge -> real, stream: UnitStream, pos: nat)
    requires i < |e.children|
    ensures NewSchoolCount(e, i, target) <= 0 ==> TopUpSchools(e, i, edges, target, cfg, pop, stream, pos) == Run(Pass, e, pos)
    ensures NewSchoolCount(e, i, target) > 0 && edges == [] ==>
      TopUpSchools(e, i, edges, target, cfg, pop, stream, pos) == Run(Fail(ZeroStep), e, pos)
    ensures NewSchoolCount(e, i, target) > 0 && edges != [] ==>
      && SchoolEdges(edges, NewSchoolCount(e, i, target), pop).Ok?
      && 0 < |SchoolEdges(edges, NewSchoolCount(e, i, target), pop).value| <= NewSchoolCount(e, i, target)
      && TopUpSchools(e, i, edges, target, cfg, pop, stream, pos)
         == PlaceRun(e, i, SchoolEdges(edges, NewSchoolCount(e, i, target), pop).value, cfg, stream, pos)
  {
    if NewSchoolCount(e, i, target) > 0 {
      SchoolEdgesCount(edges, NewSchoolCount(e, i, target), pop);
    }
  }

  /**
   * For the whole call: the schools section exists afterwards whatever the
   * outcome, the root keeps its tag and attributes, and the section keeps
   * its existing records.
   */
  lemma SchoolsSection(root: Element, edges: seq<Edge>, schoolCount: Option<int>, cfg: SchoolConfig,
                       pop: Edge -> real, stream: UnitStream, pos: nat)
    ensures var e, i := EnsureSection(root, "schools").0, EnsureSection(root, "schools").1;
      var run := SchoolsRun(root, edges, schoolCount, cfg, pop, stream, pos);
      && run.root.tag == root.tag && run.root.attrib == root.attrib
      && FindChild(run.root.children, "schools") == Some(i)
      && e.children[i].children <= run.root.children[i].children
  {
    var e, i := EnsureSection(root, "schools").0, EnsureSection(root, "schools").1;
    EnsureSectionFinds(root, "schools");
    match Target(e, schoolCount, cfg.ratio)
    case Err(_) =>
    case Ok(t) =>
      TopUpSchoolsKeeps(e, i, edges, t, cfg, pop, stream, pos);
      FindChildByTags(e.children, TopUpSchools(e, i, edges, t, cfg, pop, stream, pos).root.children, "schools");
  }

  /**
   * The school count for the whole call: new = target - existing, where the
   * target comes from Target; nothing is appended when new <= 0, and on
   * success with new > 0 the section gains between one and new schools.
   */
  lemma SchoolsCount(root: Element, edges: seq<Edge>, schoolCount: Option<int>, cfg: SchoolConfig,
                     pop: Edge -> real, stream: UnitStream, pos: nat)
    requires Target(EnsureSection(root, "schools").0, schoolCount, cfg.ratio).Ok?
    ensures var e, i := EnsureSection(root, "schools").0, EnsureSection(root, "schools").1;
      var run := SchoolsRun(root, edges, schoolCount, cfg, pop, stream, pos);
      var existing := CountTag(e.children[i].children, "school");
      var n := Target(e, schoolCount, cfg.ratio).value - existing;
      && (n <= 0 ==> run == Run(Pass, e, pos))
      && (n > 0 && run.outcome == Pass ==>
            existing < CountTag(run.root.children[i].children, "school") <= existing + n)
  {
    var e, i := EnsureSection(root, "schools").0, EnsureSection(root, "schools").1;
    var t := Target(e, schoolCount, cfg.ratio).value;
    TopUpSchoolsCases(e, i, edges, t, cfg, pop, stream, pos);
    var n := NewSchoolCount(e, i, t);
    if n > 0 && edges != [] && TopUpSchools(e, i, edges, t, cfg, pop, stream, pos).outcome == Pass {
      PlaceRunCount(e, i, SchoolEdges(edges, n, pop).value, cfg, stream, pos);
    }
  }
}
