/**
  `agents/preprocessing_agent.py`: page structure analysis, the three-way
  segmentation policy with its whole-page fallback, entity matching, the
  sliding-window word chunker with its quality score and citation, and the
  per-strategy driver `process_all_strategies`.

  The regular expressions of the agent enter as the abstract functions of a
  `Regexes` value; everything done with their matches is modelled.
*/
module Preprocessing {
  import opened Wrappers
  import opened Strings
  import opened Sorting
  import opened Metadata

  // ---------------------------------------------------------------- entities

  /** The five lists `_extract_entities` returns. */
  datatype EntitySet = EntitySet(
    wells: seq<string>, depths: seq<string>, dates: seq<string>,
    temperatures: seq<string>, pressures: seq<string>)

  /** A Python dict from entity class to its values, in insertion order. */
  type Entities = seq<(string, seq<string>)>

  /** The dict `_extract_entities` builds, keys in its order. */
  function AsDict(e: EntitySet): Entities {
    [("wells", e.wells), ("depths", e.depths), ("dates", e.dates),
     ("temperatures", e.temperatures), ("pressures", e.pressures)]
  }

  function Keys(d: Entities): seq<string> {
    seq(|d|, k requires 0 <= k < |d| => d[k].0)
  }

  /** `d.get(key, [])` */
  function Lookup(d: Entities, key: string): seq<string>
    decreases |d|
  {
    if d == [] then [] else if d[0].0 == key then d[0].1 else Lookup(d[1..], key)
  }

  /** The regular expressions of the agent, as abstract functions of the text they scan. */
  datatype Pattern = TableOfContents | SectionHeading(level: nat) | TableLayout | FigureReference

  datatype Regexes = Regexes(
    /** `re.search(pattern, text)` succeeds */
    search: (Pattern, string) -> bool,
    /** start offsets of the `re.finditer` matches of the level-n heading pattern */
    headingStarts: (nat, string) -> seq<nat>,
    /** the text of each match of the markdown-table pattern, in order */
    tables: string -> seq<string>,
    /** `_extract_entities` */
    entities: string -> EntitySet)

  /** The in-order sublist of `xs` whose members occur in `text`. */
  function Occurring(xs: seq<string>, text: string): (r: seq<string>)
    ensures |r| <= |xs|
    ensures forall x :: x in r <==> x in xs && Contains(text, x)
    decreases |xs|
  {
    if xs == [] then []
    else (if Contains(text, xs[0]) then [xs[0]] else []) + Occurring(xs[1..], text)
  }

  /** The dict `_match_entities_to_text` returns. */
  function MatchSpec(text: string, all: Entities): Entities {
    seq(|all|, k requires 0 <= k < |all| => (all[k].0, Occurring(all[k].1, text)))
  }

  /** The matched entities keep the keys in order, each list cut down to the entities found in `text`. */
  lemma MatchSpecShape(text: string, all: Entities)
    ensures Keys(MatchSpec(text, all)) == Keys(all)
    ensures forall k :: 0 <= k < |all| ==> MatchSpec(text, all)[k].1 == Occurring(all[k].1, text)
    ensures forall k, x :: 0 <= k < |all| && x in MatchSpec(text, all)[k].1 ==> x in all[k].1 && Contains(text, x)
  {
  }

  /** The list comprehension of `_match_entities_to_text`, for one entity type. */
  method MatchList(list: seq<string>, text: string) returns (found: seq<string>)
    ensures found == Occurring(list, text)
  {
    found := [];
    var j := 0;
    while j < |list|
      invariant 0 <= j <= |list|
      invariant found + Occurring(list[j..], text) == Occurring(list, text)
    {
      assert list[j..] == [list[j]] + list[j + 1..];
      if Contains(text, list[j]) {
        found := found + [list[j]];
      }
      j := j + 1;
    }
    assert list[j..] == [];
  }

  /** `_match_entities_to_text` */
  method MatchEntitiesToText(text: string, all: Entities) returns (matched: Entities)
    ensures matched == MatchSpec(text, all)
  {
    matched := [];
    var t := 0;
    while t < |all|
      invariant 0 <= t <= |all|
      invariant matched == MatchSpec(text, all[..t])
    {
      var found := MatchList(all[t].1, text);
      assert MatchSpec(text, all[..t + 1]) == MatchSpec(text, all[..t]) + [(all[t].0, found)];
      matched := matched + [(all[t].0, found)];
      t := t + 1;
    }
    assert all[..t] == all;
  }

  // ---------------------------------------------------------------- structure

  datatype Structure = Structure(
    hasToc: bool, hasSections: bool, hasTables: bool, hasFigures: bool, sectionDepth: nat)

  /** The deepest of heading levels 1..n whose pattern matches somewhere, or 0. */
  function DeepestLevel(content: string, rx: Regexes, n: nat): (d: nat)
    ensures d <= n
  {
    if n == 0 then 0
    else if rx.search(SectionHeading(n), content) then n
    else DeepestLevel(content, rx, n - 1)
  }

  /** The structure flags of a page. */
  function StructureOf(content: string, rx: Regexes): Structure {
    var depth := DeepestLevel(content, rx, 3);
    Structure(rx.search(TableOfContents, Take(content, 500)), depth > 0,
              rx.search(TableLayout, content), rx.search(FigureReference, content), depth)
  }

  /**
    `_analyze_document_structure`: the section depth is the deepest of the three
    heading levels whose pattern matches somewhere (levels are tested
    independently), or 0.
  */
  method AnalyzeDocumentStructure(content: string, rx: Regexes) returns (st: Structure)
    ensures st == StructureOf(content, rx)
    ensures st.hasToc == rx.search(TableOfContents, Take(content, 500))
    ensures st.hasTables == rx.search(TableLayout, content)
    ensures st.hasFigures == rx.search(FigureReference, content)
    ensures st.sectionDepth <= 3
    ensures st.sectionDepth > 0 ==> rx.search(SectionHeading(st.sectionDepth), content)
    ensures forall l :: st.sectionDepth < l <= 3 ==> !rx.search(SectionHeading(l), content)
    ensures st.hasSections <==> st.sectionDepth > 0
  {
    var hasToc := rx.search(TableOfContents, Take(content, 500));
    var hasSections := false;
    var maxDepth := 0;
    var i := 0;
    while i < 3
      invariant 0 <= i <= 3 && maxDepth <= i
      invariant maxDepth > 0 ==> rx.search(SectionHeading(maxDepth), content)
      invariant forall l :: maxDepth < l <= i ==> !rx.search(SectionHeading(l), content)
      invariant hasSections <==> maxDepth > 0
      invariant maxDepth == DeepestLevel(content, rx, i)
    {
      if rx.search(SectionHeading(i + 1), content) {
        maxDepth := i + 1;
        hasSections := true;
      }
      i := i + 1;
    }
    st := Structure(hasToc, hasSections, rx.search(TableLayout, content),
                    rx.search(FigureReference, content), maxDepth);
  }

  // ---------------------------------------------------------------- sections

  datatype Section = Section(content: string, level: nat)

  /** `s[lo:hi]` with Python's clamping of out-of-range bounds. */
  function Slice(s: string, lo: nat, hi: nat): (r: string)
    ensures |r| <= |s|
  {
    var h := if hi <= |s| then hi else |s|;
    var l := if lo <= h then lo else h;
    s[l..h]
  }

  lemma {:induction false} InfixContained(s: string, lo: nat, hi: nat)
    requires lo <= hi <= |s|
    ensures Contains(s, s[lo..hi])
    decreases lo
  {
    if lo == 0 {
      assert s[lo..hi] <= s;
    } else {
      InfixContained(s[1..], lo - 1, hi - 1);
      assert s[1..][lo - 1..hi - 1] == s[lo..hi];
    }
  }

  /** The sections one heading level yields: each runs to the next heading of that level. */
  function LevelSections(content: string, starts: seq<nat>, level: nat): seq<Section> {
    seq(|starts|, i requires 0 <= i < |starts| =>
      Section(Slice(content, starts[i], if i + 1 < |starts| then starts[i + 1] else |content|), level))
  }

  /** The sections of levels 1..n, grouped by level. */
  function Levels(content: string, rx: Regexes, n: nat): seq<Section> {
    if n == 0 then [] else Levels(content, rx, n - 1) + LevelSections(content, rx.headingStarts(n, content), n)
  }

  /** The sort key of `_extract_hierarchical_sections`: where the section's text first occurs. */
  function FirstOffset(content: string): Section -> real {
    (s: Section) => Find(content, s.content) as real
  }

  /** Every section is a piece of the page, so the sort key always finds it. */
  lemma {:induction false} LevelsOccur(content: string, rx: Regexes, n: nat)
    ensures forall s :: s in Levels(content, rx, n) ==> Contains(content, s.content) && 1 <= s.level <= n
  {
    if n > 0 {
      LevelsOccur(content, rx, n - 1);
      LevelSectionsOccur(content, rx.headingStarts(n, content), n);
    }
  }

  lemma LevelSectionsOccur(content: string, starts: seq<nat>, level: nat)
    ensures forall s :: s in LevelSections(content, starts, level) ==> Contains(content, s.content) && s.level == level
  {
    forall s | s in LevelSections(content, starts, level)
      ensures Contains(content, s.content) && s.level == level
    {
      var i :| 0 <= i < |starts| && LevelSections(content, starts, level)[i] == s;
      var hi := if i + 1 < |starts| then starts[i + 1] else |content|;
      var h := if hi <= |content| then hi else |content|;
      var l := if starts[i] <= h then starts[i] else h;
      assert s.content == content[l..h];
      InfixContained(content, l, h);
    }
  }

  /** The sections of the first `maxDepth` levels, stably sorted by first occurrence. */
  function HierarchicalSections(content: string, maxDepth: nat, rx: Regexes): seq<Section> {
    SortBy(Levels(content, rx, Min(maxDepth, 3)), FirstOffset(content))
  }

  /**
    `_extract_hierarchical_sections`: the sections of the first `maxDepth`
    heading levels (at most three), stably sorted by where their text first
    occurs in the page.
  */
  method ExtractHierarchicalSections(content: string, maxDepth: nat, rx: Regexes)
    returns (sections: seq<Section>)
    ensures sections == HierarchicalSections(content, maxDepth, rx)
  {
    var raw := [];
    var level := 1;
    while level <= Min(maxDepth, 3)
      invariant 1 <= level <= Min(maxDepth, 3) + 1
      invariant raw == Levels(content, rx, level - 1)
    {
      var starts := rx.headingStarts(level, content);
      ghost var expected := LevelSections(content, starts, level);
      var i := 0;
      var these := [];
      while i < |starts|
        invariant 0 <= i <= |starts|
        invariant |these| == i
        invariant forall j :: 0 <= j < i ==> these[j] == expected[j]
      {
        var end := if i + 1 < |starts| then starts[i + 1] else |content|;
        these := these + [Section(Slice(content, starts[i], end), level)];
        i := i + 1;
      }
      assert these == expected;
      raw := raw + these;
      level := level + 1;
    }
    sections := SortBy(raw, FirstOffset(content));
  }

  /**
    Every section is a piece of the page from one of the first `maxDepth`
    heading levels, the sections come in order of first occurrence, and they
    are the per-level sections rearranged.
  */
  lemma HierarchicalSectionsShape(content: string, maxDepth: nat, rx: Regexes)
    ensures var sections := HierarchicalSections(content, maxDepth, rx);
      && (forall s :: s in sections ==> Contains(content, s.content) && 1 <= s.level <= Min(maxDepth, 3))
      && SortedBy(sections, FirstOffset(content))
      && multiset(sections) == multiset(Levels(content, rx, Min(maxDepth, 3)))
  {
    var raw := Levels(content, rx, Min(maxDepth, 3));
    LevelsOccur(content, rx, Min(maxDepth, 3));
    var sections := SortBy(raw, FirstOffset(content));
    forall s | s in sections
      ensures Contains(content, s.content) && 1 <= s.level <= Min(maxDepth, 3)
    {
      assert s in multiset(sections);
      assert s in raw;
    }
  }

  // ---------------------------------------------------------------- tables

  const TableMarker := "---TABLE---"

  /** The text after each table has been replaced, in turn, by a marker line. */
  function ReplaceTables(content: string, tables: seq<string>): string
    decreases |tables|
  {
    if tables == [] then content
    else ReplaceTables(Replace(content, tables[0], "\n" + TableMarker + "\n"), tables[1..])
  }

  /** The blocks with more than 50 characters once stripped, in order. */
  function LongBlocks(blocks: seq<string>): (r: seq<string>)
    ensures |r| <= |blocks|
    ensures forall b :: b in r <==> b in blocks && |Strip(b)| > 50
    decreases |blocks|
  {
    if blocks == [] then []
    else (if |Strip(blocks[0])| > 50 then [blocks[0]] else []) + LongBlocks(blocks[1..])
  }

  /**
    `_extract_non_table_text`: the pieces of the page between tables with more
    than 50 non-blank characters. Before the length filter, the pieces join
    back (with the marker) into the text with its tables replaced.
  */
  method ExtractNonTableText(content: string, tables: seq<string>) returns (blocks: seq<string>)
    ensures blocks == LongBlocks(Split(ReplaceTables(content, tables), TableMarker))
  {
    var text := content;
    var i := 0;
    while i < |tables|
      invariant 0 <= i <= |tables|
      invariant ReplaceTables(text, tables[i..]) == ReplaceTables(content, tables)
    {
      assert tables[i..][1..] == tables[i + 1..];
      text := Replace(text, tables[i], "\n" + TableMarker + "\n");
      i := i + 1;
    }
    assert tables[i..] == [];
    blocks := LongBlocks(Split(text, TableMarker));
  }

  /**
    The text blocks are the pieces between table markers with more than 50
    non-blank characters; the pieces, re-joined with the marker, give back
    the text with its tables replaced.
  */
  lemma NonTableTextShape(content: string, tables: seq<string>)
    ensures var pieces := Split(ReplaceTables(content, tables), TableMarker);
      && Join(TableMarker, pieces) == ReplaceTables(content, tables)
      && forall b :: b in LongBlocks(pieces) <==> b in pieces && |Strip(b)| > 50
  {
    JoinSplit(ReplaceTables(content, tables), TableMarker);
  }

  // ---------------------------------------------------------------- paragraphs

  const ParagraphBreak := "\n\n"

  predicate IsShort(para: string) {
    |Strip(para)| < 100
  }

  function Last<T>(s: seq<T>): T
    requires s != []
  {
    s[|s| - 1]
  }

  function Init<T>(s: seq<T>): seq<T>
    requires s != []
  {
    s[..|s| - 1]
  }

  /**
    The units `_intelligent_paragraph_split` builds from the rough paragraphs,
    one paragraph at a time: a short paragraph is appended to the unit being
    built, any other paragraph starts a new unit, and while no unit has been
    started an empty paragraph is dropped.
  */
  function Units(ps: seq<string>): seq<string>
    decreases |ps|
  {
    if ps == [] then []
    else
      var us := Units(Init(ps));
      var x := Last(ps);
      if us == [] then (if x == "" then [] else [x])
      else if IsShort(x) then Init(us) + [Last(us) + ParagraphBreak + x]
      else us + [x]
  }

  /** The rough paragraphs without the empty ones in front of the first non-empty one. */
  function DropLeadingEmpty(ps: seq<string>): (r: seq<string>)
    ensures r == [] || r[0] != ""
    decreases |ps|
  {
    if ps != [] && ps[0] == "" then DropLeadingEmpty(ps[1..]) else ps
  }

  /** The number of paragraphs that are not short. */
  function LongCount(ps: seq<string>): nat
    decreases |ps|
  {
    if ps == [] then 0 else LongCount(Init(ps)) + (if IsShort(Last(ps)) then 0 else 1)
  }

  lemma {:induction false} DropLeadingEmptySnoc(ps: seq<string>, x: string)
    ensures DropLeadingEmpty(ps + [x]) ==
      (if DropLeadingEmpty(ps) == [] then (if x == "" then [] else [x]) else DropLeadingEmpty(ps) + [x])
    decreases |ps|
  {
    if ps == [] {
      assert [x][1..] == [];
    } else {
      assert (ps + [x])[1..] == ps[1..] + [x];
      if ps[0] == "" { DropLeadingEmptySnoc(ps[1..], x); }
    }
  }

  /** Extending the last part is extending the joined text. */
  lemma JoinExtendLast(sep: string, us: seq<string>, x: string)
    requires us != []
    ensures Join(sep, Init(us) + [Last(us) + sep + x]) == Join(sep, us) + sep + x
  {
    if |us| == 1 {
      assert Init(us) + [Last(us) + sep + x] == [us[0] + sep + x];
    } else {
      assert us == Init(us) + [Last(us)];
      JoinSnoc(sep, Init(us), Last(us));
      JoinSnoc(sep, Init(us), Last(us) + sep + x);
    }
  }

  /**
    Nothing is lost or reordered: the units, joined with the paragraph break,
    are the rough paragraphs after the leading empty ones, joined the same way;
    and there are no units exactly when there is no non-empty paragraph.
  */
  lemma {:induction false} UnitsCover(ps: seq<string>)
    ensures Join(ParagraphBreak, Units(ps)) == Join(ParagraphBreak, DropLeadingEmpty(ps))
    ensures Units(ps) == [] <==> DropLeadingEmpty(ps) == []
    decreases |ps|
  {
    if ps != [] {
      var init, x := Init(ps), Last(ps);
      assert ps == init + [x];
      UnitsCover(init);
      DropLeadingEmptySnoc(init, x);
      var us := Units(init);
      var d := DropLeadingEmpty(init);
      if us != [] {
        JoinSnoc(ParagraphBreak, d, x);
        if IsShort(x) {
          JoinExtendLast(ParagraphBreak, us, x);
        } else {
          JoinSnoc(ParagraphBreak, us, x);
        }
      }
    }
  }

  /**
    There is one unit for the first non-empty paragraph and one for every
    later paragraph that is not short.
  */
  lemma {:induction false} UnitsCount(ps: seq<string>)
    ensures |Units(ps)| == if DropLeadingEmpty(ps) == [] then 0 else 1 + LongCount(DropLeadingEmpty(ps)[1..])
    decreases |ps|
  {
    if ps != [] {
      var init, x := Init(ps), Last(ps);
      UnitsCount(init);
      UnitsCover(init);
      DropLeadingEmptySnoc(init, x);
      var d := DropLeadingEmpty(init);
      var us := Units(init);
      assert DropLeadingEmpty(ps) == DropLeadingEmpty(init + [x]) by {
        assert ps == init + [x];
      }
      if d != [] {
        assert |Units(ps)| == |us| + (if IsShort(x) then 0 else 1);
        assert (d + [x])[1..] == d[1..] + [x];
        assert Init(d[1..] + [x]) == d[1..];
        assert LongCount(d[1..] + [x]) == LongCount(d[1..]) + (if IsShort(x) then 0 else 1);
      } else if x != "" {
        assert Units(ps) == [x];
        assert [x][1..] == [];
      }
    }
  }

  /**
    `_intelligent_paragraph_split`: the units of the blank-line-separated rough
    paragraphs of the page.
  */
  method IntelligentParagraphSplit(content: string) returns (refined: seq<string>)
    ensures refined == Units(Split(content, ParagraphBreak))
  {
    var rough := Split(content, ParagraphBreak);
    refined := [];
    var buffer := "";
    var i := 0;
    while i < |rough|
      invariant 0 <= i <= |rough|
      invariant buffer == "" ==> refined == [] && Units(rough[..i]) == []
      invariant buffer != "" ==> refined + [buffer] == Units(rough[..i])
    {
      var para := rough[i];
      assert Init(rough[..i + 1]) == rough[..i];
      if IsShort(para) && buffer != "" {
        buffer := buffer + ParagraphBreak + para;
      } else if buffer != "" {
        refined := refined + [buffer];
        buffer := para;
      } else {
        buffer := para;
      }
      i := i + 1;
    }
    assert rough[..i] == rough;
    if buffer != "" {
      refined := refined + [buffer];
    }
  }
}
