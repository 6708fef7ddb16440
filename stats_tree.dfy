/**
 * The statistics document as an in-memory ElementTree: a root element whose
 * children are the sections (general, population, workHours, streets,
 * cityGates, schools, ...), each holding its records.
 */
module StatsTree {
  import opened Common

  /**
   * The text of an attribute. Text is any text as read or written literally;
   * Int(i) is the text str(i) and Num(r) the text str(r) of a float, kept as
   * the number they render.
   */
  datatype Value = Text(s: string) | Int(i: int) | Num(r: real)

  datatype Element = Element(tag: string, attrib: map<string, Value>, children: seq<Element>)

  /** Index of the first child with the given tag (element.find(tag)), or None. */
  function FindChild(cs: seq<Element>, tag: string): (r: Option<nat>)
    ensures r.Some? ==> r.value < |cs| && cs[r.value].tag == tag
    ensures r.Some? ==> forall j :: 0 <= j < r.value ==> cs[j].tag != tag
    ensures r.None? <==> forall j :: 0 <= j < |cs| ==> cs[j].tag != tag
  {
    if cs == [] then None
    else if cs[0].tag == tag then Some(0)
    else
      match FindChild(cs[1..], tag)
      case None =>
        assert forall j :: 1 <= j < |cs| ==> cs[j] == cs[1..][j - 1];
        None
      case Some(k) => Some(k + 1)
  }

  /** len(element.findall(tag)): the number of children with the tag. */
  function CountTag(cs: seq<Element>, tag: string): (c: nat)
    ensures c <= |cs|
  {
    if cs == [] then 0
    else CountTag(cs[..|cs| - 1], tag) + (if cs[|cs| - 1].tag == tag then 1 else 0)
  }

  lemma {:induction false} CountTagAppend(cs: seq<Element>, more: seq<Element>, tag: string)
    ensures CountTag(cs + more, tag) == CountTag(cs, tag) + CountTag(more, tag)
    decreases |more|
  {
    if more == [] {
      assert cs + more == cs;
    } else {
      var last := |more| - 1;
      assert (cs + more)[..|cs + more| - 1] == cs + more[..last];
      CountTagAppend(cs, more[..last], tag);
    }
  }

  /** Every element of rs carries the tag. */
  lemma {:induction false} CountTagAll(rs: seq<Element>, tag: string)
    requires forall j :: 0 <= j < |rs| ==> rs[j].tag == tag
    ensures CountTag(rs, tag) == |rs|
    decreases |rs|
  {
    if rs != [] {
      CountTagAll(rs[..|rs| - 1], tag);
    }
  }

  /** int(text) for a decimal text with an optional sign. */
  function ParseInt(s: string): (r: Option<int>)
    ensures r.Some? ==> |s| > 0
  {
    if |s| > 0 && (s[0] == '-' || s[0] == '+') then
      match ParseDigits(s[1..])
      case None => None
      case Some(n) =>
        var v: int := if s[0] == '-' then -(n as int) else n;
        Some(v)
    else ParseDigits(s)
  }

  /** int(text) for unsigned decimal digits: it succeeds exactly on a non-empty run of digits. */
  function ParseDigits(s: string): (r: Option<nat>)
    ensures r.Some? <==> |s| > 0 && forall k :: 0 <= k < |s| ==> '0' <= s[k] <= '9'
  {
    if s == [] || !('0' <= s[|s| - 1] <= '9') then None
    else if |s| == 1 then Some((s[0] - '0') as nat)
    else
      match ParseDigits(s[..|s| - 1])
      case None => None
      case Some(n) => Some(n * 10 + (s[|s| - 1] - '0') as nat)
  }

  /** The digit character for d. */
  function DigitChar(d: nat): (c: char)
    requires d < 10
    ensures '0' <= c <= '9' && (c - '0') as nat == d
  {
    (48 + d) as char
  }

  /** str(n) for a natural number: its decimal digits, without leading zeros. */
  function Digits(n: nat): string
    decreases n
  {
    if n < 10 then [DigitChar(n)] else Digits(n / 10) + [DigitChar(n % 10)]
  }

  /** str(i): a minus sign before the digits of a negative number. */
  function Render(i: int): string {
    if i < 0 then "-" + Digits(-i) else Digits(i)
  }

  /** int() reads back the digits str() writes for a natural number; they start with a digit. */
  lemma {:induction false} ParseDigitsRendered(n: nat)
    ensures ParseDigits(Digits(n)) == Some(n)
    ensures |Digits(n)| > 0 && '0' <= Digits(n)[0] <= '9'
    decreases n
  {
    if n >= 10 {
      var front := Digits(n / 10);
      ParseDigitsRendered(n / 10);
      var s := front + [DigitChar(n % 10)];
      assert s[..|s| - 1] == front;
    }
  }

  /** int(str(i)) == i for every integer. */
  lemma ParseIntRendered(i: int)
    ensures ParseInt(Render(i)) == Some(i)
  {
    if i < 0 {
      ParseDigitsRendered(-i);
      assert Render(i)[1..] == Digits(-i);
    } else {
      ParseDigitsRendered(i);
    }
  }

  /** int() applied to an attribute's text. */
  function IntOf(v: Value): Option<int> {
    match v
    case Text(s) => ParseInt(s)
    case Int(i) => Some(i)
    case Num(_) => None
  }

  /**
   * The root after looking a section up and creating it when absent
   * (find(tag), then SubElement(root, tag) if that gave None), and the
   * section's index.
   */
  function EnsureSection(e: Element, tag: string): (r: (Element, nat))
    ensures r.1 < |r.0.children| && r.0.children[r.1].tag == tag
  {
    match FindChild(e.children, tag)
    case Some(i) => (e, i)
    case None =>
      var cs := e.children + [Element(tag, map[], [])];
      assert cs[|e.children|].tag == tag;
      (e.(children := cs), |e.children|)
  }

  /**
   * find(tag) then finds the section at the returned index; an existing
   * section leaves the root as it was, a missing one is appended empty
   * after the other sections.
   */
  lemma EnsureSectionFinds(e: Element, tag: string)
    ensures var (r, i) := EnsureSection(e, tag);
      && FindChild(r.children, tag) == Some(i)
      && r.tag == e.tag && r.attrib == e.attrib
      && (FindChild(e.children, tag).Some? ==> r == e)
      && (FindChild(e.children, tag).None? ==> r.children == e.children + [Element(tag, map[], [])])
  {
    if FindChild(e.children, tag).None? {
      var cs := e.children + [Element(tag, map[], [])];
      assert forall j :: 0 <= j < |e.children| ==> cs[j] == e.children[j];
    }
  }

  /** The root after appending recs, in order, to the section at index i. */
  function AppendRecords(e: Element, i: nat, recs: seq<Element>): (r: Element)
    requires i < |e.children|
    ensures r.tag == e.tag && r.attrib == e.attrib && |r.children| == |e.children|
    ensures r.children[i] == e.children[i].(children := e.children[i].children + recs)
    ensures forall j :: 0 <= j < |e.children| && j != i ==> r.children[j] == e.children[j]
  {
    e.(children := e.children[i := e.children[i].(children := e.children[i].children + recs)])
  }

  lemma AppendRecordsNone(e: Element, i: nat)
    requires i < |e.children|
    ensures AppendRecords(e, i, []) == e
  {
    assert e.children[i].children + [] == e.children[i].children;
    assert e.children[i := e.children[i]] == e.children;
  }

  lemma AppendRecordsTwice(e: Element, i: nat, a: seq<Element>, b: seq<Element>)
    requires i < |e.children|
    ensures AppendRecords(AppendRecords(e, i, a), i, b) == AppendRecords(e, i, a + b)
  {
    assert e.children[i].children + a + b == e.children[i].children + (a + b);
  }

  /** The root with the children of the section at index i replaced by cs. */
  function ReplaceSection(e: Element, i: nat, cs: seq<Element>): (r: Element)
    requires i < |e.children|
    ensures r.tag == e.tag && r.attrib == e.attrib && |r.children| == |e.children|
    ensures r.children[i] == e.children[i].(children := cs)
    ensures forall j :: 0 <= j < |e.children| && j != i ==> r.children[j] == e.children[j]
  {
    e.(children := e.children[i := e.children[i].(children := cs)])
  }

  lemma ReplaceSectionSame(e: Element, i: nat)
    requires i < |e.children|
    ensures ReplaceSection(e, i, e.children[i].children) == e
  {
    assert e.children[i := e.children[i]] == e.children;
  }

  lemma ReplaceSectionTwice(e: Element, i: nat, a: seq<Element>, b: seq<Element>)
    requires i < |e.children|
    ensures ReplaceSection(ReplaceSection(e, i, a), i, b) == ReplaceSection(e, i, b)
  {
  }

  /** find() only looks at tags: two child lists with the same tags find the same index. */
  lemma {:induction false} FindChildByTags(a: seq<Element>, b: seq<Element>, tag: string)
    requires |a| == |b| && forall j :: 0 <= j < |a| ==> a[j].tag == b[j].tag
    ensures FindChild(a, tag) == FindChild(b, tag)
    decreases |a|
  {
    if a != [] && a[0].tag != tag {
      FindChildByTags(a[1..], b[1..], tag);
    }
  }

  /**
   * What a placement engine leaves behind: its outcome, the root of the
   * document and the position of the random generator afterwards.
   */
  datatype Run = Run(outcome: Outcome, root: Element, pos: nat)

  /** The document: an ElementTree whose root is replaced as the engines append to it. */
  class Stats {
    var root: Element

    constructor (root: Element)
      ensures this.root == root
    {
      this.root := root;
    }

    /** find(tag) on the root, creating the section when it is missing. */
    method FindOrCreate(tag: string) returns (i: nat)
      modifies this
      ensures root == EnsureSection(old(root), tag).0 && i == EnsureSection(old(root), tag).1
    {
      var found := FindChild(root.children, tag);
      match found {
        case Some(k) =>
          i := k;
        case None =>
          i := |root.children|;
          root := root.(children := root.children + [Element(tag, map[], [])]);
      }
    }

    /** SubElement(section, ...): appends one record to the section at index i. */
    method Append(i: nat, rec: Element)
      requires i < |root.children|
      modifies this
      ensures root == AppendRecords(old(root), i, [rec])
    {
      var section := root.children[i];
      root := root.(children := root.children[i := section.(children := section.children + [rec])]);
    }

    /** Replaces record j of the section at index i, as element.set(...) does in place. */
    method SetRecord(i: nat, j: nat, rec: Element)
      requires i < |root.children| && j < |root.children[i].children|
      modifies this
      ensures root == ReplaceSection(old(root), i, old(root).children[i].children[j := rec])
    {
      var section := root.children[i];
      root := root.(children := root.children[i := section.(children := section.children[j := rec])]);
    }

    /** SubElement(root, ...) with the record already filled in. */
    method AppendSection(section: Element)
      modifies this
      ensures root == old(root).(children := old(root).children + [section])
    {
      root := root.(children := root.children + [section]);
    }
  }
}
