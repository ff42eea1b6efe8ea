/** The navigation bar: the topic catalog grouped by learning type, one
    dropdown per listed section (Supervised, Unsupervised), a section
    highlighted when it holds the active topic, and per topic a sub-menu of
    in-page anchors (overview, visualisation, one per maths section, use cases). */
module TopNav {

  datatype LearningType = Supervised | Unsupervised | General

  /** The `type` of a topic's visualisation config; `NoViz` is 'none'. */
  datatype VizType = LinearRegressionViz | LogisticRegressionViz | KMeansViz | NeuralNetworkViz | PcaViz | NoViz

  datatype Option<T> = None | Some(value: T)

  datatype MathSection = MathSection(title: string, content: string, formula: Option<string>)

  datatype Topic = Topic(
    id: string,
    title: string,
    ltype: LearningType,
    description: string,
    content: string,
    math: seq<MathSection>,
    useCases: seq<string>,
    viz: VizType)

  // ---------------------------------------------------------------------------
  // Grouping the catalog

  /** The topics of type `t`, in catalog order: what the reduce pushes under key `t`. */
  function Group(ts: seq<Topic>, t: LearningType): (r: seq<Topic>)
    ensures |r| <= |ts|
  {
    if ts == [] then []
    else
      var init, last := ts[..|ts| - 1], ts[|ts| - 1];
      assert ts == init + [last];
      Group(init, t) + (if last.ltype == t then [last] else [])
  }

  /** One more topic at the end of the catalog is pushed onto its own group only. */
  lemma GroupSnoc(ts: seq<Topic>, topic: Topic, t: LearningType)
    ensures Group(ts + [topic], t) == Group(ts, t) + (if topic.ltype == t then [topic] else [])
  {
    assert (ts + [topic])[..|ts|] == ts;
  }

  /** A group holds exactly the catalog's topics of its type. */
  lemma {:induction false} GroupMembers(ts: seq<Topic>, t: LearningType)
    ensures forall x :: x in Group(ts, t) <==> x in ts && x.ltype == t
  {
    if ts != [] {
      var init, last := ts[..|ts| - 1], ts[|ts| - 1];
      assert ts == init + [last];
      GroupMembers(init, t);
      GroupSnoc(init, last, t);
    }
  }

  /** A group holds each topic as often as the catalog does if the type matches, and never otherwise. */
  lemma {:induction false} GroupCount(ts: seq<Topic>, t: LearningType, x: Topic)
    ensures multiset(Group(ts, t))[x] == if x.ltype == t then multiset(ts)[x] else 0
  {
    if ts != [] {
      var init, last := ts[..|ts| - 1], ts[|ts| - 1];
      assert ts == init + [last];
      GroupCount(init, t, x);
      GroupSnoc(init, last, t);
    }
  }

  /** What the reduce leaves in its accumulator: a key for every type that some
      topic has, and under it that type's topics in catalog order. */
  ghost predicate Grouped(topics: seq<Topic>, groups: map<LearningType, seq<Topic>>) {
    forall t :: (t in groups <==> Group(topics, t) != []) && (t in groups ==> groups[t] == Group(topics, t))
  }

  /** The `topics.reduce` that builds `groupedTopics`: a key is created on the
      first topic of its type, and every topic is pushed under its own type. */
  method GroupTopics(topics: seq<Topic>) returns (groups: map<LearningType, seq<Topic>>)
    ensures Grouped(topics, groups)
  {
    groups := map[];
    for i := 0 to |topics|
      invariant Grouped(topics[..i], groups)
    {
      var topic := topics[i];
      assert topics[..i + 1] == topics[..i] + [topic];
      forall t ensures Group(topics[..i + 1], t) == Group(topics[..i], t) + (if topic.ltype == t then [topic] else []) {
        GroupSnoc(topics[..i], topic, t);
      }
      if topic.ltype !in groups {
        groups := groups[topic.ltype := []];
      }
      groups := groups[topic.ltype := groups[topic.ltype] + [topic]];
    }
    assert topics[..|topics|] == topics;
  }

  /** `groupedTopics[section.type] || []`. */
  function SectionTopics(groups: map<LearningType, seq<Topic>>, t: LearningType): seq<Topic> {
    if t in groups then groups[t] else []
  }

  /** The lookup with its empty default gives exactly the topics of that type,
      and the empty list for a type no topic has. */
  lemma SectionTopicsIsGroup(topics: seq<Topic>, groups: map<LearningType, seq<Topic>>, t: LearningType)
    requires Grouped(topics, groups)
    ensures SectionTopics(groups, t) == Group(topics, t)
    ensures SectionTopics(groups, t) == [] <==> forall i :: 0 <= i < |topics| ==> topics[i].ltype != t
  {
    GroupMembers(topics, t);
    if Group(topics, t) != [] {
      assert Group(topics, t)[0] in topics;
    } else {
      forall i | 0 <= i < |topics| ensures topics[i].ltype != t {
        assert topics[i] in topics;
      }
    }
  }

  /** Grouping a catalog made of two parts groups each part and concatenates,
      so within a group the topics keep their catalog order. */
  lemma {:induction false} GroupAppend(a: seq<Topic>, b: seq<Topic>, t: LearningType)
    ensures Group(a + b, t) == Group(a, t) + Group(b, t)
    decreases |b|
  {
    if b == [] {
      assert a + b == a;
    } else {
      var init, last := b[..|b| - 1], b[|b| - 1];
      assert b == init + [last];
      var tail := if last.ltype == t then [last] else [];
      assert a + b == (a + init) + [last];
      GroupAppend(a, init, t);
      GroupSnoc(a + init, last, t);
      GroupSnoc(init, last, t);
      calc {
        Group(a + b, t);
        Group(a + init, t) + tail;
        (Group(a, t) + Group(init, t)) + tail;
        Group(a, t) + (Group(init, t) + tail);
        Group(a, t) + Group(b, t);
      }
    }
  }

  /** Every topic is in the group of its own type. */
  lemma TopicInOwnGroup(topics: seq<Topic>, i: int)
    requires 0 <= i < |topics|
    ensures topics[i] in Group(topics, topics[i].ltype)
  {
    GroupMembers(topics, topics[i].ltype);
    assert topics[i] in topics;
  }

  /** The three groups together hold every topic exactly as often as the catalog
      does: nothing is dropped and nothing is duplicated across groups. */
  lemma GroupsPartitionCatalog(topics: seq<Topic>)
    ensures multiset(Group(topics, Supervised)) + multiset(Group(topics, Unsupervised))
      + multiset(Group(topics, General)) == multiset(topics)
  {
    var whole := multiset(Group(topics, Supervised)) + multiset(Group(topics, Unsupervised))
      + multiset(Group(topics, General));
    forall x ensures whole[x] == multiset(topics)[x] {
      GroupCount(topics, Supervised, x);
      GroupCount(topics, Unsupervised, x);
      GroupCount(topics, General, x);
    }
  }

  // ---------------------------------------------------------------------------
  // Sections and the active highlight

  /** A top-level dropdown of the bar. */
  datatype Section = Section(ltype: LearningType, caption: string)

  /** Only the two learning families are listed as sections. */
  const Sections: seq<Section> := [Section(Supervised, "Supervised Learning"), Section(Unsupervised, "Unsupervised Learning")]

  /** The topic the brand button selects. */
  const BrandTarget: string := "intro"

  /** `sectionTopics.some(t => t.id === activeTopicId)`, scanning left to right. */
  function IsSectionActive(sectionTopics: seq<Topic>, activeTopicId: string): (r: bool)
    ensures r <==> exists k :: 0 <= k < |sectionTopics| && sectionTopics[k].id == activeTopicId
  {
    if sectionTopics == [] then false
    else sectionTopics[0].id == activeTopicId || IsSectionActive(sectionTopics[1..], activeTopicId)
  }

  /** A section is highlighted exactly when some topic of its type in the
      catalog has the active id. */
  lemma SectionActiveIff(topics: seq<Topic>, groups: map<LearningType, seq<Topic>>, t: LearningType, activeTopicId: string)
    requires Grouped(topics, groups)
    ensures IsSectionActive(SectionTopics(groups, t), activeTopicId) <==>
      exists i :: 0 <= i < |topics| && topics[i].ltype == t && topics[i].id == activeTopicId
  {
    SectionTopicsIsGroup(topics, groups, t);
    if IsSectionActive(Group(topics, t), activeTopicId) {
      ActiveGroupHasTopic(topics, t, activeTopicId);
    }
    if exists i :: 0 <= i < |topics| && topics[i].ltype == t && topics[i].id == activeTopicId {
      var i :| 0 <= i < |topics| && topics[i].ltype == t && topics[i].id == activeTopicId;
      TopicMakesGroupActive(topics, i, activeTopicId);
    }
  }

  /** A highlighted section holds a catalog topic of its type with the active id. */
  lemma ActiveGroupHasTopic(topics: seq<Topic>, t: LearningType, activeTopicId: string)
    requires IsSectionActive(Group(topics, t), activeTopicId)
    ensures exists i :: 0 <= i < |topics| && topics[i].ltype == t && topics[i].id == activeTopicId
  {
    var g := Group(topics, t);
    var k :| 0 <= k < |g| && g[k].id == activeTopicId;
    GroupMembers(topics, t);
    assert g[k] in topics;
    var i :| 0 <= i < |topics| && topics[i] == g[k];
  }

  /** The active topic highlights the section of its own type. */
  lemma TopicMakesGroupActive(topics: seq<Topic>, i: int, activeTopicId: string)
    requires 0 <= i < |topics| && topics[i].id == activeTopicId
    ensures IsSectionActive(Group(topics, topics[i].ltype), activeTopicId)
  {
    var g := Group(topics, topics[i].ltype);
    TopicInOwnGroup(topics, i);
    var k :| 0 <= k < |g| && g[k] == topics[i];
  }

  /** A General topic appears in no section's dropdown. */
  lemma GeneralTopicsInNoSection(topics: seq<Topic>, groups: map<LearningType, seq<Topic>>, i: int)
    requires Grouped(topics, groups)
    requires 0 <= i < |topics| && topics[i].ltype == General
    ensures forall s :: s in Sections ==> topics[i] !in SectionTopics(groups, s.ltype)
  {
    SectionTopicsIsGroup(topics, groups, Supervised);
    SectionTopicsIsGroup(topics, groups, Unsupervised);
    GroupMembers(topics, Supervised);
    GroupMembers(topics, Unsupervised);
  }

  /** One line of a section's dropdown. */
  datatype DropdownItem = ComingSoon | TopicItem(id: string, title: string, active: bool)

  /** The dropdown body: "Coming Soon" for an empty section, otherwise one
      item per topic, the active one marked. */
  function Dropdown(sectionTopics: seq<Topic>, activeTopicId: string): (r: seq<DropdownItem>)
    ensures sectionTopics == [] <==> r == [ComingSoon]
    ensures sectionTopics != [] ==> |r| == |sectionTopics|
    ensures sectionTopics != [] ==> forall k :: 0 <= k < |r| ==>
      r[k].TopicItem? && r[k].id == sectionTopics[k].id && r[k].title == sectionTopics[k].title
    ensures sectionTopics != [] ==> forall k :: 0 <= k < |r| ==>
      r[k].active == (sectionTopics[k].id == activeTopicId)
  {
    if sectionTopics == [] then [ComingSoon]
    else
      var items := seq(|sectionTopics|, k requires 0 <= k < |sectionTopics| =>
        TopicItem(sectionTopics[k].id, sectionTopics[k].title, sectionTopics[k].id == activeTopicId));
      assert items[0].TopicItem?;
      items
  }

  /** The section button is highlighted exactly when one of its dropdown items is. */
  lemma DropdownHighlightAgrees(sectionTopics: seq<Topic>, activeTopicId: string)
    ensures IsSectionActive(sectionTopics, activeTopicId) <==>
      exists k :: 0 <= k < |Dropdown(sectionTopics, activeTopicId)| &&
        Dropdown(sectionTopics, activeTopicId)[k].TopicItem? && Dropdown(sectionTopics, activeTopicId)[k].active
  {
    var r := Dropdown(sectionTopics, activeTopicId);
    if IsSectionActive(sectionTopics, activeTopicId) {
      var k :| 0 <= k < |sectionTopics| && sectionTopics[k].id == activeTopicId;
      assert r[k].active;
    }
  }

  /** Some topic item of the dropdown carries `id`. */
  ghost predicate InDropdown(items: seq<DropdownItem>, id: string) {
    exists k :: 0 <= k < |items| && items[k].TopicItem? && items[k].id == id
  }

  /** The ids a click on the bar can select: the brand button's, and that of
      any topic item in the dropdown of a listed section. */
  ghost predicate Selectable(groups: map<LearningType, seq<Topic>>, activeTopicId: string, id: string) {
    id == BrandTarget ||
    exists n :: 0 <= n < |Sections| && InDropdown(Dropdown(SectionTopics(groups, Sections[n].ltype), activeTopicId), id)
  }

  /** Every topic item of a section's dropdown carries the id of a catalog topic of that type. */
  lemma DropdownItemFromCatalog(topics: seq<Topic>, groups: map<LearningType, seq<Topic>>, t: LearningType,
                                activeTopicId: string, id: string)
    requires Grouped(topics, groups)
    requires InDropdown(Dropdown(SectionTopics(groups, t), activeTopicId), id)
    ensures exists j :: 0 <= j < |topics| && topics[j].ltype == t && topics[j].id == id
  {
    SectionTopicsIsGroup(topics, groups, t);
    var g := Group(topics, t);
    var items := Dropdown(g, activeTopicId);
    var k :| 0 <= k < |items| && items[k].TopicItem? && items[k].id == id;
    assert g != [];
    assert items[k].id == g[k].id;
    GroupMembers(topics, t);
    assert g[k] in topics;
    var j :| 0 <= j < |topics| && topics[j] == g[k];
  }

  /** With distinct topic ids, a topic's id is in no dropdown of another type's section. */
  lemma NotInOtherDropdown(topics: seq<Topic>, groups: map<LearningType, seq<Topic>>, t: LearningType,
                           activeTopicId: string, i: int)
    requires Grouped(topics, groups)
    requires forall a, b :: 0 <= a < b < |topics| ==> topics[a].id != topics[b].id
    requires 0 <= i < |topics| && topics[i].ltype != t
    ensures !InDropdown(Dropdown(SectionTopics(groups, t), activeTopicId), topics[i].id)
  {
    if InDropdown(Dropdown(SectionTopics(groups, t), activeTopicId), topics[i].id) {
      DropdownItemFromCatalog(topics, groups, t, activeTopicId, topics[i].id);
    }
  }

  /** With distinct topic ids, the bar can select a General topic only when
      its id is the brand button's target. */
  lemma GeneralTopicSelectableOnlyByBrand(topics: seq<Topic>, groups: map<LearningType, seq<Topic>>,
                                          activeTopicId: string, i: int)
    requires Grouped(topics, groups)
    requires forall a, b :: 0 <= a < b < |topics| ==> topics[a].id != topics[b].id
    requires 0 <= i < |topics| && topics[i].ltype == General
    ensures Selectable(groups, activeTopicId, topics[i].id) <==> topics[i].id == BrandTarget
  {
    if topics[i].id != BrandTarget && Selectable(groups, activeTopicId, topics[i].id) {
      var n :| 0 <= n < |Sections| && InDropdown(Dropdown(SectionTopics(groups, Sections[n].ltype), activeTopicId), topics[i].id);
      var t := Sections[n].ltype;
      assert t != General by { assert n == 0 || n == 1; }
      NotInOtherDropdown(topics, groups, t, activeTopicId, i);
      assert false;
    }
  }

  // ---------------------------------------------------------------------------
  // The per-topic sub-menu

  /** The decimal digit `d`. */
  function Digit(d: nat): (c: char)
    requires d < 10
    ensures '0' <= c <= '9' && c as int - '0' as int == d
  {
    (d + '0' as int) as char
  }

  /** `${n}` for a natural number: its decimal digits, no leading zeros. */
  function Decimal(n: nat): (s: string)
    ensures 1 <= |s|
    ensures forall k :: 0 <= k < |s| ==> '0' <= s[k] <= '9'
    decreases n
  {
    if n < 10 then [Digit(n)] else Decimal(n / 10) + [Digit(n % 10)]
  }

  /** Reads a string of decimal digits back as a number. */
  function DecimalValue(s: string): nat {
    if s == [] then 0
    else
      var c := s[|s| - 1];
      var d := if '0' <= c <= '9' then c as int - '0' as int else 0;
      DecimalValue(s[..|s| - 1]) * 10 + d
  }

  lemma {:induction false} DecimalRoundTrip(n: nat)
    ensures DecimalValue(Decimal(n)) == n
    decreases n
  {
    if n >= 10 {
      var s := Decimal(n);
      assert s[..|s| - 1] == Decimal(n / 10);
      DecimalRoundTrip(n / 10);
    }
  }

  /** Different indices give different anchors. */
  lemma DecimalInjective(a: nat, b: nat)
    requires Decimal(a) == Decimal(b)
    ensures a == b
  {
    DecimalRoundTrip(a);
    DecimalRoundTrip(b);
  }

  /** One entry of a topic's "Topic Contents" sub-menu. */
  datatype SubMenuEntry = Overview | InteractiveViz | MathEntry(index: nat, title: string) | UseCases

  /** The id an entry passes as its scroll target. */
  function AnchorOf(e: SubMenuEntry): (a: string)
    ensures |a| > 0 && (a[0] == 'm' <==> e.MathEntry?)
    ensures e.MathEntry? ==> |a| > 5 && a[..5] == "math-" && a[5..] == Decimal(e.index)
  {
    match e
    case Overview => "overview"
    case InteractiveViz => "viz"
    case MathEntry(index, _) => "math-" + Decimal(index)
    case UseCases => "usecases"
  }

  /** `topic.math.map((m, idx) => …)`: one entry per maths section, indexed from 0. */
  function MathEntries(math: seq<MathSection>): (r: seq<SubMenuEntry>)
    ensures |r| == |math|
  {
    seq(|math|, k requires 0 <= k < |math| => MathEntry(k, math[k].title))
  }

  /** Where the maths entries start: after the overview, and after the
      visualisation entry when there is one. */
  function MathOffset(topic: Topic): nat {
    if topic.viz != NoViz then 2 else 1
  }

  /** The sub-menu: overview, the visualisation if the topic has one, the maths
      sections in order, then use cases. */
  function SubMenu(topic: Topic): (r: seq<SubMenuEntry>)
    ensures |r| == MathOffset(topic) + |topic.math| + 1
    ensures r[0] == Overview && r[|r| - 1] == UseCases
    ensures InteractiveViz in r <==> topic.viz != NoViz
    ensures forall k :: 0 <= k < |topic.math| ==>
      r[MathOffset(topic) + k] == MathEntry(k, topic.math[k].title)
  {
    var vizEntries := if topic.viz != NoViz then [InteractiveViz] else [];
    var r := [Overview] + vizEntries + MathEntries(topic.math) + [UseCases];
    assert forall k :: 0 <= k < |topic.math| ==> r[MathOffset(topic) + k] == MathEntries(topic.math)[k];
    r
  }

  /** The maths anchors are `math-0` … `math-(n-1)` in order. */
  lemma MathAnchorsInOrder(topic: Topic, k: nat)
    requires k < |topic.math|
    ensures AnchorOf(SubMenu(topic)[MathOffset(topic) + k]) == "math-" + Decimal(k)
  {
  }

  /** Equal anchors come from entries of the same kind, and two maths entries
      with equal anchors have the same index. */
  lemma AnchorDetermined(e1: SubMenuEntry, e2: SubMenuEntry)
    requires AnchorOf(e1) == AnchorOf(e2)
    ensures e1.MathEntry? <==> e2.MathEntry?
    ensures e1.MathEntry? ==> e1.index == e2.index
    ensures !e1.MathEntry? ==> e1 == e2
  {
    if e1.MathEntry? && e2.MathEntry? {
      DecimalInjective(e1.index, e2.index);
    }
  }

  /** The entry at each position of the sub-menu. */
  lemma SubMenuEntryAt(topic: Topic, i: int)
    requires 0 <= i < |SubMenu(topic)|
    ensures i == 0 ==> SubMenu(topic)[i] == Overview
    ensures 0 < i < MathOffset(topic) ==> SubMenu(topic)[i] == InteractiveViz
    ensures MathOffset(topic) <= i < MathOffset(topic) + |topic.math| ==>
      SubMenu(topic)[i] == MathEntry(i - MathOffset(topic), topic.math[i - MathOffset(topic)].title)
    ensures i == MathOffset(topic) + |topic.math| ==> SubMenu(topic)[i] == UseCases
  {
    if MathOffset(topic) <= i < MathOffset(topic) + |topic.math| {
      var k := i - MathOffset(topic);
      assert SubMenu(topic)[MathOffset(topic) + k] == MathEntry(k, topic.math[k].title);
    }
  }

  /** No two entries of a sub-menu pass the same scroll target id. */
  lemma SubMenuAnchorsDistinct(topic: Topic)
    ensures forall i, j :: 0 <= i < j < |SubMenu(topic)| ==> AnchorOf(SubMenu(topic)[i]) != AnchorOf(SubMenu(topic)[j])
  {
    var r := SubMenu(topic);
    forall i, j | 0 <= i < j < |r| ensures AnchorOf(r[i]) != AnchorOf(r[j]) {
      SubMenuEntryAt(topic, i);
      SubMenuEntryAt(topic, j);
      if AnchorOf(r[i]) == AnchorOf(r[j]) {
        AnchorDetermined(r[i], r[j]);
        assert false;
      }
    }
  }
}
