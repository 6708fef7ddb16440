/**
 * verify_stats: the statistics document must have a city root and a general
 * section with inhabitants and households; a missing population section and
 * a missing workHours section are then added with fixed default records.
 */
module Defaults {
  import opened Common
  import opened StatsTree

  /** A population bracket: people percent of the inhabitants are aged beginAge to endAge. */
  datatype Bracket = Bracket(beginAge: int, endAge: int, people: int)

  /** An opening or closing time: proportion percent of the work starts or ends at hour (in seconds). */
  datatype Share = Share(hour: int, proportion: int)

  const DefaultBrackets: seq<Bracket> := [Bracket(0, 30, 30), Bracket(30, 60, 40), Bracket(60, 90, 30)]
  /** 70% at 8.00 and 30% at 8.30. */
  const DefaultOpenings: seq<Share> := [Share(28800, 70), Share(30600, 30)]
  /** 10% at 12.00, 30% at 17.00 and 60% at 17.30. */
  const DefaultClosings: seq<Share> := [Share(43200, 10), Share(61200, 30), Share(63000, 60)]

  function BracketRecord(b: Bracket): Element {
    Element("bracket", map["beginAge" := Int(b.beginAge), "endAge" := Int(b.endAge), "peopleNbr" := Int(b.people)], [])
  }

  function ShareRecord(tag: string, h: Share): Element {
    Element(tag, map["hour" := Int(h.hour), "proportion" := Int(h.proportion)], [])
  }

  /** The default population section: one bracket record per default bracket. */
  function DefaultPopulation(): Element {
    Element("population", map[], [BracketRecord(DefaultBrackets[0]), BracketRecord(DefaultBrackets[1]), BracketRecord(DefaultBrackets[2])])
  }

  /** The default workHours section: the opening records, then the closing records. */
  function DefaultWorkHours(): Element {
    Element("workHours", map[], [
      ShareRecord("opening", DefaultOpenings[0]), ShareRecord("opening", DefaultOpenings[1]),
      ShareRecord("closing", DefaultClosings[0]), ShareRecord("closing", DefaultClosings[1]),
      ShareRecord("closing", DefaultClosings[2])])
  }

  function People(bs: seq<Bracket>): int {
    if bs == [] then 0 else People(bs[..|bs| - 1]) + bs[|bs| - 1].people
  }

  function Proportions(hs: seq<Share>): int {
    if hs == [] then 0 else Proportions(hs[..|hs| - 1]) + hs[|hs| - 1].proportion
  }

  /**
   * The default population is three bracket records, consecutive from age 0
   * to 90, whose shares add up to 100 percent.
   */
  lemma DefaultPopulationComplete()
    ensures var cs := DefaultPopulation().children;
      && |cs| == |DefaultBrackets| == 3 && CountTag(cs, "bracket") == 3
      && (forall k :: 0 <= k < 3 ==> cs[k] == BracketRecord(DefaultBrackets[k]))
    ensures DefaultBrackets[0].beginAge == 0 && DefaultBrackets[2].endAge == 90
    ensures forall k :: 0 <= k < 2 ==> DefaultBrackets[k].endAge == DefaultBrackets[k + 1].beginAge
    ensures People(DefaultBrackets) == 100
  {
    var cs := DefaultPopulation().children;
    CountTagAll(cs, "bracket");
    var bs := DefaultBrackets;
    assert bs[..1][..0] == [] && bs[..2][..1] == bs[..1] && bs[..3][..2] == bs[..2] && bs[..3] == bs;
    assert People(bs[..1]) == 30;
    assert People(bs[..2]) == 70;
  }

  /**
   * The default work hours are two opening records and three closing
   * records, the openings and the closings each adding up to 100 percent at
   * increasing hours.
   */
  lemma DefaultWorkHoursComplete()
    ensures var cs := DefaultWorkHours().children;
      && |cs| == |DefaultOpenings| + |DefaultClosings| == 5
      && (forall k :: 0 <= k < 2 ==> cs[k] == ShareRecord("opening", DefaultOpenings[k]))
      && (forall k :: 0 <= k < 3 ==> cs[2 + k] == ShareRecord("closing", DefaultClosings[k]))
    ensures Proportions(DefaultOpenings) == 100 && Proportions(DefaultClosings) == 100
    ensures forall k :: 0 <= k < 1 ==> DefaultOpenings[k].hour < DefaultOpenings[k + 1].hour
    ensures forall k :: 0 <= k < 2 ==> DefaultClosings[k].hour < DefaultClosings[k + 1].hour
  {
    var os, cl := DefaultOpenings, DefaultClosings;
    assert os[..1][..0] == [] && os[..2][..1] == os[..1] && os[..2] == os;
    assert Proportions(os[..1]) == 70;
    assert cl[..1][..0] == [] && cl[..2][..1] == cl[..1] && cl[..3][..2] == cl[..2] && cl[..3] == cl;
    assert Proportions(cl[..1]) == 10;
    assert Proportions(cl[..2]) == 40;
  }

  /**
   * The checks verify_stats makes before it changes anything: the root is a
   * city, there is a general section, and it has the inhabitants and
   * households attributes (a missing one raises a KeyError).
   */
  function StatsCheck(root: Element): Outcome {
    if root.tag != "city" then Fail(NotCity)
    else
      match FindChild(root.children, "general")
      case None => Fail(MissingSection("general"))
      case Some(g) =>
        if "inhabitants" !in root.children[g].attrib then Fail(MissingAttribute("inhabitants"))
        else if "households" !in root.children[g].attrib then Fail(MissingAttribute("households"))
        else Pass
  }

  /** The checks pass exactly when the root is a city whose general section has both attributes. */
  lemma StatsCheckPasses(root: Element)
    ensures StatsCheck(root) == Pass <==>
      && root.tag == "city"
      && (exists g :: 0 <= g < |root.children| && root.children[g].tag == "general"
            && (forall j :: 0 <= j < g ==> root.children[j].tag != "general")
            && "inhabitants" in root.children[g].attrib && "households" in root.children[g].attrib)
  {
    if root.tag == "city" && FindChild(root.children, "general").Some? {
      var g := FindChild(root.children, "general").value;
      if StatsCheck(root) == Pass {
        assert root.children[g].tag == "general";
      }
    }
  }

  /** The root with sec appended as a new section, unless a section with its tag is already there. */
  function WithSection(root: Element, sec: Element): (r: Element)
    ensures r.tag == root.tag && r.attrib == root.attrib && root.children <= r.children
    ensures FindChild(r.children, sec.tag).Some?
    ensures FindChild(root.children, sec.tag).Some? ==> r == root
    ensures FindChild(root.children, sec.tag).None? ==>
      r.children[FindChild(r.children, sec.tag).value] == sec && |r.children| == |root.children| + 1
  {
    if FindChild(root.children, sec.tag).Some? then root
    else
      var cs := root.children + [sec];
      assert cs[|root.children|] == sec;
      assert forall j :: 0 <= j < |root.children| ==> cs[j] == root.children[j];
      root.(children := cs)
  }

  /** The root after verify_stats has added the default sections that were missing. */
  function WithDefaults(root: Element): Element {
    WithSection(WithSection(root, DefaultPopulation()), DefaultWorkHours())
  }

  /** Appending sections does not move a section find() already finds. */
  lemma {:induction false} FindChildAppend(cs: seq<Element>, more: seq<Element>, tag: string)
    requires FindChild(cs, tag).Some?
    ensures FindChild(cs + more, tag) == FindChild(cs, tag)
  {
    var k := FindChild(cs, tag).value;
    var r := FindChild(cs + more, tag);
    assert (cs + more)[k] == cs[k];
    assert forall j :: 0 <= j < k ==> (cs + more)[j] == cs[j];
  }

  /**
   * After the defaults: both sections exist; the root keeps its tag,
   * attributes and existing sections in place, a section that was there is
   * untouched, and a missing one is exactly the default.
   */
  lemma WithDefaultsSections(root: Element)
    ensures var r := WithDefaults(root);
      && r.tag == root.tag && r.attrib == root.attrib && root.children <= r.children
      && FindChild(r.children, "population").Some? && FindChild(r.children, "workHours").Some?
      && (FindChild(root.children, "population").None? ==>
            r.children[FindChild(r.children, "population").value] == DefaultPopulation())
      && (FindChild(root.children, "workHours").None? ==>
            r.children[FindChild(r.children, "workHours").value] == DefaultWorkHours())
      && |r.children| == |root.children|
           + (if FindChild(root.children, "population").None? then 1 else 0)
           + (if FindChild(root.children, "workHours").None? then 1 else 0)
  {
    var p := WithSection(root, DefaultPopulation());
    var r := WithSection(p, DefaultWorkHours());
    if FindChild(root.children, "workHours").Some? {
      FindChildAppend(root.children, p.children[|root.children|..], "workHours");
      assert root.children + p.children[|root.children|..] == p.children;
    }
    FindChildAppend(p.children, r.children[|p.children|..], "population");
    assert p.children + r.children[|p.children|..] == r.children;
  }

  /** A section already present is found in the same place and left as it was. */
  lemma WithDefaultsKeeps(root: Element, tag: string)
    requires FindChild(root.children, tag).Some?
    ensures FindChild(WithDefaults(root).children, tag) == FindChild(root.children, tag)
    ensures WithDefaults(root).children[FindChild(root.children, tag).value]
         == root.children[FindChild(root.children, tag).value]
  {
    var p := WithSection(root, DefaultPopulation());
    var r := WithSection(p, DefaultWorkHours());
    FindChildAppend(root.children, p.children[|root.children|..], tag);
    assert root.children + p.children[|root.children|..] == p.children;
    FindChildAppend(p.children, r.children[|p.children|..], tag);
    assert p.children + r.children[|p.children|..] == r.children;
  }

  /** Running verify_stats a second time adds nothing. */
  lemma WithDefaultsIdempotent(root: Element)
    ensures WithDefaults(WithDefaults(root)) == WithDefaults(root)
  {
    var r := WithDefaults(root);
    WithDefaultsSections(root);
    assert WithSection(r, DefaultPopulation()) == r;
  }

  /** The checks give the same outcome on the document with its defaults added. */
  lemma StatsCheckKept(root: Element)
    ensures StatsCheck(WithDefaults(root)) == StatsCheck(root)
  {
    var r := WithDefaults(root);
    if FindChild(root.children, "general").Some? {
      WithDefaultsKeeps(root, "general");
    } else {
      WithDefaultsTail(root);
      assert forall j :: 0 <= j < |root.children| ==> r.children[j] == root.children[j];
      assert forall j :: 0 <= j < |r.children| ==> r.children[j].tag != "general";
    }
  }

  /** The sections verify_stats adds are population and workHours only. */
  lemma WithDefaultsTail(root: Element)
    ensures var r := WithDefaults(root);
      |root.children| <= |r.children| &&
      forall j :: |root.children| <= j < |r.children| ==>
        r.children[j].tag == "population" || r.children[j].tag == "workHours"
  {
    var p := WithSection(root, DefaultPopulation());
    var r := WithSection(p, DefaultWorkHours());
    assert |p.children| <= |root.children| + 1 && |r.children| <= |p.children| + 1;
    assert forall j :: |root.children| <= j < |p.children| ==> p.children[j] == DefaultPopulation();
    assert forall j :: |p.children| <= j < |r.children| ==> r.children[j] == DefaultWorkHours();
    assert forall j :: 0 <= j < |p.children| ==> r.children[j] == p.children[j];
  }

  /**
   * verify_stats: raises when a check fails, before anything is added;
   * otherwise adds the default population and work hours where missing.
   */
  method VerifyStats(doc: Stats) returns (r: Outcome)
    modifies doc
    ensures r == StatsCheck(old(doc.root))
    ensures doc.root == if r == Pass then WithDefaults(old(doc.root)) else old(doc.root)
  {
    if doc.root.tag != "city" {
      return Fail(NotCity);
    }
    var general := FindChild(doc.root.children, "general");
    if general.None? {
      return Fail(MissingSection("general"));
    }
    if "inhabitants" !in doc.root.children[general.value].attrib {
      return Fail(MissingAttribute("inhabitants"));
    }
    if "households" !in doc.root.children[general.value].attrib {
      return Fail(MissingAttribute("households"));
    }
    var population := FindChild(doc.root.children, "population");
    if population.None? {
      doc.AppendSection(DefaultPopulation());
    }
    var workHours := FindChild(doc.root.children, "workHours");
    if workHours.None? {
      doc.AppendSection(DefaultWorkHours());
    }
    return Pass;
  }
}
