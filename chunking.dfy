/**
  The second half of `agents/preprocessing_agent.py`: the segmentation policy
  of `_ultra_semantic_segmentation`, the sliding-window chunker `_ultra_chunk`
  with its quality score and citation, and the driver `process_all_strategies`
  that chunks every page of every document once per embedding strategy.
*/
module Chunking {
  import opened Wrappers
  import opened Strings
  import opened Metadata
  import opened Sorting
  import opened Preprocessing

  // ---------------------------------------------------------------- segments

  datatype Kind = SectionLevel(level: nat) | Table | TextBlock | Paragraph | WholePage {
    /** The `type` field of the segment. */
    function Name(): string {
      match this
      case SectionLevel(l) => "section_L" + NatToString(l)
      case Table => "table"
      case TextBlock => "text_block"
      case Paragraph => "paragraph"
      case WholePage => "page"
    }
  }

  /**
    A segment of a page with the entities of the page found in its text. Its
    `id`, its flags and its entity density are derived from its kind, its
    page number, its ordinal among the candidates of its kind and those
    entities.
  */
  datatype Segment = Segment(content: string, kind: Kind, page: int, ordinal: nat, entities: Entities)
  {
    /** The `id` field: `p<page>_s<i>_L<level>`, `p<page>_tbl<i>`, `p<page>_txt<i>`, `p<page>_par<i>` or `p<page>`. */
    function Id(): string {
      var p := "p" + IntToString(page);
      match kind
      case SectionLevel(l) => p + "_s" + NatToString(ordinal) + "_L" + NatToString(l)
      case Table => p + "_tbl" + NatToString(ordinal)
      case TextBlock => p + "_txt" + NatToString(ordinal)
      case Paragraph => p + "_par" + NatToString(ordinal)
      case WholePage => p
    }

    function Count(key: string): nat {
      |Lookup(entities, key)|
    }

    /** `has_numbers`: a table always, any other text segment when a depth was found in it. */
    predicate HasNumbers() {
      kind.Table? || (!kind.WholePage? && Count("depths") > 0)
    }

    /** `has_dates`: never for a table or the whole page. */
    predicate HasDates() {
      !kind.Table? && !kind.WholePage? && Count("dates") > 0
    }

    predicate HasWells() {
      !kind.WholePage? && Count("wells") > 0
    }

    /** `entity_density`: twice the depths of a table; wells and depths of a text block; wells, depths and dates of a section or paragraph. */
    function EntityDensity(): nat {
      match kind
      case Table => Count("depths") * 2
      case TextBlock => Count("wells") + Count("depths")
      case WholePage => 0
      case _ => Count("wells") + Count("depths") + Count("dates")
    }

    /** `section_depth`: the heading level of a section, else 0. */
    function SectionDepth(): nat {
      if kind.SectionLevel? then kind.level else 0
    }
  }

  /** The segment built from `text` with the page's entities that occur in it. */
  function MakeSegment(kind: Kind, page: int, ordinal: nat, text: string, entities: Entities): Segment {
    Segment(text, kind, page, ordinal, MatchSpec(text, entities))
  }

  /** The whole-page fallback segment. */
  function PageSegment(content: string, page: int): Segment {
    Segment(content, WholePage, page, 0, [])
  }

  /** The segments of the first `n` sections, numbered from 1. */
  function SectionSegments(page: int, sections: seq<Section>, n: nat, entities: Entities): seq<Segment>
    requires n <= |sections|
  {
    if n == 0 then []
    else
      SectionSegments(page, sections, n - 1, entities)
      + [MakeSegment(SectionLevel(sections[n - 1].level), page, n, sections[n - 1].content, entities)]
  }

  /** The segments of the first `n` tables, numbered from 1. */
  function TableSegments(page: int, tables: seq<string>, n: nat, entities: Entities): seq<Segment>
    requires n <= |tables|
  {
    if n == 0 then []
    else TableSegments(page, tables, n - 1, entities) + [MakeSegment(Table, page, n, tables[n - 1], entities)]
  }

  /**
    The segments of the first `n` parts that are longer than `threshold` once
    stripped; a part keeps its position among all parts as its ordinal.
  */
  function Kept(kind: Kind, page: int, parts: seq<string>, n: nat, threshold: nat, entities: Entities): seq<Segment>
    requires n <= |parts|
  {
    if n == 0 then []
    else
      Kept(kind, page, parts, n - 1, threshold, entities)
      + (if |Strip(parts[n - 1])| > threshold then [MakeSegment(kind, page, n, parts[n - 1], entities)] else [])
  }

  /** What the branch chosen by the page structure yields, before the fallback. */
  function Candidates(content: string, page: int, st: Structure, entities: Entities, rx: Regexes): seq<Segment> {
    if st.sectionDepth >= 2 then
      var sections := HierarchicalSections(content, st.sectionDepth, rx);
      SectionSegments(page, sections, |sections|, entities)
    else if st.hasTables then
      var tables := rx.tables(content);
      TableSegments(page, tables, |tables|, entities)
      + var blocks := LongBlocks(Split(ReplaceTables(content, tables), TableMarker));
        Kept(TextBlock, page, blocks, |blocks|, 50, entities)
    else
      var paragraphs := Units(Split(content, ParagraphBreak));
      Kept(Paragraph, page, paragraphs, |paragraphs|, 30, entities)
  }

  /** The segments of a page: the chosen branch's, or the whole page when it yields none. */
  function Segmentation(content: string, page: int, st: Structure, entities: Entities, rx: Regexes): (r: seq<Segment>)
    ensures |r| >= 1
  {
    var segs := Candidates(content, page, st, entities, rx);
    if segs == [] then [PageSegment(content, page)] else segs
  }

  /** Keeps the parts longer than `threshold`, numbering every part. */
  method KeepLongParts(kind: Kind, page: int, parts: seq<string>, threshold: nat, entities: Entities)
    returns (segs: seq<Segment>)
    ensures segs == Kept(kind, page, parts, |parts|, threshold, entities)
  {
    segs := [];
    var i := 0;
    while i < |parts|
      invariant 0 <= i <= |parts|
      invariant segs == Kept(kind, page, parts, i, threshold, entities)
    {
      if |Strip(parts[i])| > threshold {
        var m := MatchEntitiesToText(parts[i], entities);
        segs := segs + [Segment(parts[i], kind, page, i + 1, m)];
      }
      i := i + 1;
    }
  }

  /** The branch for a page with two or more heading levels: one segment per section. */
  method SectionBranch(content: string, page: int, depth: nat, entities: Entities, rx: Regexes)
    returns (segs: seq<Segment>)
    ensures var sections := HierarchicalSections(content, depth, rx);
      segs == SectionSegments(page, sections, |sections|, entities)
  {
    var sections := ExtractHierarchicalSections(content, depth, rx);
    segs := [];
    var i := 0;
    while i < |sections|
      invariant 0 <= i <= |sections|
      invariant segs == SectionSegments(page, sections, i, entities)
    {
      var m := MatchEntitiesToText(sections[i].content, entities);
      segs := segs + [Segment(sections[i].content, SectionLevel(sections[i].level), page, i + 1, m)];
      i := i + 1;
    }
  }

  /** The branch for a page with a table layout: its tables, then its long text blocks. */
  method TableBranch(content: string, page: int, entities: Entities, rx: Regexes)
    returns (segs: seq<Segment>)
    ensures var blocks := LongBlocks(Split(ReplaceTables(content, rx.tables(content)), TableMarker));
      var tables := rx.tables(content);
      segs == TableSegments(page, tables, |tables|, entities) + Kept(TextBlock, page, blocks, |blocks|, 50, entities)
  {
    var tables := rx.tables(content);
    var blocks := ExtractNonTableText(content, tables);
    segs := [];
    var i := 0;
    while i < |tables|
      invariant 0 <= i <= |tables|
      invariant segs == TableSegments(page, tables, i, entities)
    {
      var m := MatchEntitiesToText(tables[i], entities);
      segs := segs + [Segment(tables[i], Table, page, i + 1, m)];
      i := i + 1;
    }
    var texts := KeepLongParts(TextBlock, page, blocks, 50, entities);
    segs := segs + texts;
  }

  /**
    `_ultra_semantic_segmentation`: section segments for a page with at least
    two heading levels; else, for a page with a table layout, its tables
    followed by its long text blocks; else its long paragraph units; and the
    whole page as one segment when the branch yields nothing.
  */
  method UltraSemanticSegmentation(content: string, page: int, st: Structure, entities: Entities, rx: Regexes)
    returns (segs: seq<Segment>)
    ensures segs == Segmentation(content, page, st, entities, rx)
    ensures |segs| >= 1
  {
    if st.sectionDepth >= 2 {
      segs := SectionBranch(content, page, st.sectionDepth, entities, rx);
    } else if st.hasTables {
      segs := TableBranch(content, page, entities, rx);
    } else {
      var paragraphs := IntelligentParagraphSplit(content);
      segs := KeepLongParts(Paragraph, page, paragraphs, 30, entities);
    }
    if segs == [] {
      segs := [PageSegment(content, page)];
    }
  }

  // ---------------------------------------------------------------- segment properties

  /** Every entity a segment carries occurs in the segment's text. */
  ghost predicate EntitiesOccur(seg: Segment) {
    forall j, x :: 0 <= j < |seg.entities| && x in seg.entities[j].1 ==> Contains(seg.content, x)
  }

  lemma {:induction false} LookupMatch(text: string, all: Entities, key: string)
    ensures Lookup(MatchSpec(text, all), key) == Occurring(Lookup(all, key), text)
    decreases |all|
  {
    if all != [] {
      assert MatchSpec(text, all)[1..] == MatchSpec(text, all[1..]);
      LookupMatch(text, all[1..], key);
    }
  }

  /**
    A segment other than the whole-page fallback carries exactly the page's
    entities that occur in its text, and it is flagged as naming a well
    exactly when one of the page's wells occurs in its text.
  */
  lemma MakeSegmentEntities(kind: Kind, page: int, ordinal: nat, text: string, entities: Entities)
    requires !kind.WholePage?
    ensures EntitiesOccur(MakeSegment(kind, page, ordinal, text, entities))
    ensures MakeSegment(kind, page, ordinal, text, entities).HasWells()
        <==> exists x :: x in Lookup(entities, "wells") && Contains(text, x)
  {
    var m := MatchSpec(text, entities);
    LookupMatch(text, entities, "wells");
    var seg := MakeSegment(kind, page, ordinal, text, entities);
    if seg.HasWells() {
      assert Lookup(m, "wells")[0] in Lookup(m, "wells");
    }
    if exists x :: x in Lookup(entities, "wells") && Contains(text, x) {
      var x :| x in Lookup(entities, "wells") && Contains(text, x);
      assert x in Lookup(m, "wells");
    }
  }

  lemma {:induction false} KeptEntities(kind: Kind, page: int, parts: seq<string>, n: nat, threshold: nat, entities: Entities)
    requires !kind.WholePage? && n <= |parts|
    ensures forall s :: s in Kept(kind, page, parts, n, threshold, entities) ==> EntitiesOccur(s) && s.kind == kind
  {
    if n > 0 {
      MakeSegmentEntities(kind, page, n, parts[n - 1], entities);
      KeptEntities(kind, page, parts, n - 1, threshold, entities);
    }
  }

  lemma {:induction false} SectionSegmentsEntities(page: int, sections: seq<Section>, n: nat, entities: Entities)
    requires n <= |sections|
    ensures forall s :: s in SectionSegments(page, sections, n, entities) ==>
      && EntitiesOccur(s) && s.kind.SectionLevel?
      && exists j :: 0 <= j < n && s.kind.level == sections[j].level
  {
    if n > 0 {
      MakeSegmentEntities(SectionLevel(sections[n - 1].level), page, n, sections[n - 1].content, entities);
      SectionSegmentsEntities(page, sections, n - 1, entities);
    }
  }

  lemma {:induction false} TableSegmentsEntities(page: int, tables: seq<string>, n: nat, entities: Entities)
    requires n <= |tables|
    ensures forall s :: s in TableSegments(page, tables, n, entities) ==> EntitiesOccur(s) && s.kind == Table
  {
    if n > 0 {
      MakeSegmentEntities(Table, page, n, tables[n - 1], entities);
      TableSegmentsEntities(page, tables, n - 1, entities);
    }
  }

  /** Every segment of a page carries only entities that occur in its own text. */
  lemma SegmentationEntities(content: string, page: int, st: Structure, entities: Entities, rx: Regexes)
    ensures forall s :: s in Segmentation(content, page, st, entities, rx) ==> EntitiesOccur(s)
  {
    if st.sectionDepth >= 2 {
      var sections := HierarchicalSections(content, st.sectionDepth, rx);
      SectionSegmentsEntities(page, sections, |sections|, entities);
    } else if st.hasTables {
      var tables := rx.tables(content);
      TableSegmentsEntities(page, tables, |tables|, entities);
      var blocks := LongBlocks(Split(ReplaceTables(content, tables), TableMarker));
      KeptEntities(TextBlock, page, blocks, |blocks|, 50, entities);
    } else {
      var paragraphs := Units(Split(content, ParagraphBreak));
      KeptEntities(Paragraph, page, paragraphs, |paragraphs|, 30, entities);
    }
  }

  /**
    The branch order: a page with two or more heading levels yields only
    section segments, a page with tables and fewer levels only table and
    text-block segments, any other page only paragraph segments, unless the
    branch yields nothing and the single whole-page segment stands in.
  */
  lemma SegmentationKinds(content: string, page: int, st: Structure, entities: Entities, rx: Regexes)
    ensures var r := Segmentation(content, page, st, entities, rx);
      (r == [PageSegment(content, page)]) ||
      (forall s :: s in r ==>
        if st.sectionDepth >= 2 then s.kind.SectionLevel? && 1 <= s.kind.level <= 3
        else if st.hasTables then s.kind == Table || s.kind == TextBlock
        else s.kind == Paragraph)
  {
    if st.sectionDepth >= 2 {
      var sections := HierarchicalSections(content, st.sectionDepth, rx);
      HierarchicalSectionsShape(content, st.sectionDepth, rx);
      SectionSegmentsEntities(page, sections, |sections|, entities);
      assert forall j :: 0 <= j < |sections| ==> sections[j] in sections;
    } else if st.hasTables {
      var tables := rx.tables(content);
      TableSegmentsEntities(page, tables, |tables|, entities);
      var blocks := LongBlocks(Split(ReplaceTables(content, rx.tables(content)), TableMarker));
      KeptEntities(TextBlock, page, blocks, |blocks|, 50, entities);
    } else {
      var paragraphs := Units(Split(content, ParagraphBreak));
      KeptEntities(Paragraph, page, paragraphs, |paragraphs|, 30, entities);
    }
  }

  // ---------------------------------------------------------------- chunks

  /**
    A chunk: its text, the metadata of its segment and the window fields
    `_ultra_chunk` adds to it. `Metadata()` is the chunk's metadata dict and
    `Citation()` its `citation` field.
  */
  datatype Chunk = Chunk(
    content: string, base: Meta,
    chunkIndex: nat, wordStart: nat, wordEnd: nat, chunkLength: nat,
    matched: Entities)
  {
    /** `quality_score`, from the entities found in the chunk's text */
    function QualityScore(): nat {
      Quality(matched)
    }

    /** `contains_wells`: the wells found in the chunk's text, comma-joined */
    function ContainsWells(): string {
      Join(",", Lookup(matched, "wells"))
    }

    function Metadata(): Meta {
      base + map[
        "chunk_index" := Int(chunkIndex),
        "word_start" := Int(wordStart),
        "word_end" := Int(wordEnd),
        "chunk_length" := Int(chunkLength),
        "quality_score" := Int(QualityScore()),
        "contains_wells" := Str(ContainsWells())]
    }

    function Citation(): string {
      CitationOf(Metadata())
    }
  }

  /** `_build_precise_citation` */
  function CitationOf(meta: Meta): string {
    var file := Get(meta, "source_file", Str("Unknown"));
    var page := Get(meta, "page_number", Str("?"));
    var paraId := Get(meta, "paragraph_id", Str(""));
    var segType := Get(meta, "segment_type", Str("text"));
    ToStr(file) + ", p." + ToStr(page) + (if Truthy(paraId) then ", " + ToStr(segType) + " " + ToStr(paraId) else "")
  }

  /** A window of fewer words than this ends the chunking of a segment. */
  const MinWords := 30

  /** The loop of `_ultra_chunk` ends: it cannot stand still on a full window. */
  predicate Terminates(n: nat, size: nat, overlap: int) {
    size < MinWords || n < MinWords || overlap < size
  }

  /** The number of windows that fit when `room` words lie beyond the first window's 30. */
  function Windows(room: nat, stride: int): (w: nat)
    requires stride > 0
    ensures w >= 1
    decreases room
  {
    if room >= stride then 1 + Windows(room - stride, stride) else 1
  }

  /** The number of windows of `_ultra_chunk` over `n` words. */
  function ChunkCount(n: nat, size: nat, overlap: int): nat
    requires Terminates(n, size, overlap)
  {
    if size < MinWords || n < MinWords then 0 else Windows(n - MinWords, size - overlap)
  }

  /** Where window `k` starts: `k` strides of `size - overlap` words in. */
  function Start(size: nat, overlap: int, k: nat): int {
    if k == 0 then 0 else Start(size, overlap, k - 1) + (size - overlap)
  }

  lemma {:induction false} StartIsProduct(size: nat, overlap: int, k: nat)
    ensures Start(size, overlap, k) == k * (size - overlap)
  {
    if k > 0 {
      StartIsProduct(size, overlap, k - 1);
      assert (k - 1) * (size - overlap) + (size - overlap) == k * (size - overlap);
    }
  }

  /** With a forward stride no window starts before the text. */
  lemma {:induction false} StartNonNegative(size: nat, overlap: int, k: nat)
    requires overlap < size
    ensures Start(size, overlap, k) >= 0
  {
    if k > 0 { StartNonNegative(size, overlap, k - 1); }
  }

  lemma {:induction false} WindowsMeaning(room: nat, size: nat, overlap: int, c: nat)
    requires overlap < size
    ensures c < Windows(room, size - overlap) <==> Start(size, overlap, c) <= room
    decreases c
  {
    if c > 0 {
      StartNonNegative(size, overlap, c - 1);
      if room >= size - overlap {
        WindowsMeaning(room - (size - overlap), size, overlap, c - 1);
      }
    }
  }

  /** Window `c` exists exactly when it starts at least 30 words before the end. */
  lemma CountMeaning(n: nat, size: nat, overlap: int, c: nat)
    requires MinWords <= size && MinWords <= n && overlap < size
    ensures c < ChunkCount(n, size, overlap) <==> Start(size, overlap, c) <= n - MinWords
  {
    WindowsMeaning(n - MinWords, size, overlap, c);
  }

  /** Euclidean division is determined by its quotient-remainder equation. */
  lemma DivUnique(a: int, d: int, q: int, r: int)
    requires d > 0 && 0 <= r < d && a == q * d + r
    ensures a / d == q
  {
    var q', r' := a / d, a % d;
    assert (q - q') * d == r' - r;
    if q > q' {
      MulAtLeast(q - q', d);
    } else if q < q' {
      MulAtLeast(q' - q, d);
    }
  }

  lemma {:induction false} MulAtLeast(x: nat, d: nat)
    requires x >= 1
    ensures x * d >= d
  {
    if x > 1 {
      MulAtLeast(x - 1, d);
      assert x * d == (x - 1) * d + d;
    }
  }

  lemma {:induction false} WindowsClosedForm(room: nat, stride: int)
    requires stride > 0
    ensures Windows(room, stride) == room / stride + 1
    decreases room
  {
    if room >= stride {
      WindowsClosedForm(room - stride, stride);
      var q, r := (room - stride) / stride, (room - stride) % stride;
      assert room == (q + 1) * stride + r;
      DivUnique(room, stride, q + 1, r);
    } else {
      DivUnique(room, stride, 0, room);
    }
  }

  /**
    A segment of `n` words yields floor((n - 30) / (size - overlap)) + 1
    chunks when both it and the window hold at least 30 words, and none
    otherwise.
  */
  lemma ChunkCountClosedForm(n: nat, size: nat, overlap: int)
    requires Terminates(n, size, overlap)
    ensures ChunkCount(n, size, overlap) ==
      if size < MinWords || n < MinWords then 0 else (n - MinWords) / (size - overlap) + 1
  {
    if MinWords <= size && MinWords <= n {
      WindowsClosedForm(n - MinWords, size - overlap);
    }
  }

  // ---------------------------------------------------------------- the loop guard as written

  /** A Python slice bound over `n` items: a negative one counts from the end; both are clamped. */
  function SliceIndex(n: nat, x: int): (r: nat)
    ensures r <= n
  {
    if x < 0 then (if n + x < 0 then 0 else n + x) else if x < n then x else n
  }

  /** How many of `n` items `items[i:j]` holds. */
  function SliceLength(n: nat, i: int, j: int): nat {
    var a, b := SliceIndex(n, i), SliceIndex(n, j);
    if a <= b then b - a else 0
  }

  /**
    The `while` of `_ultra_chunk` goes on past word `i`: `i < len(words)` and
    `words[i:i + chunk_size]` holds at least 30 words.
  */
  predicate LoopContinues(n: nat, size: nat, i: int) {
    i < n && SliceLength(n, i, i + size) >= MinWords
  }

  /**
    With a forward stride, window `c` is emitted exactly when the loop goes on
    at its start; without 30 words in the text or the window the loop stops
    at once and there are no windows.
  */
  lemma LoopGuardMeaning(n: nat, size: nat, overlap: int, c: nat)
    requires Terminates(n, size, overlap)
    ensures (size < MinWords || n < MinWords) ==> ChunkCount(n, size, overlap) == 0 && !LoopContinues(n, size, 0)
    ensures overlap < size ==> (c < ChunkCount(n, size, overlap) <==> LoopContinues(n, size, Start(size, overlap, c)))
  {
    if overlap < size {
      StartNonNegative(size, overlap, c);
      if MinWords <= size && MinWords <= n {
        CountMeaning(n, size, overlap, c);
      }
    }
  }

  /**
    With `overlap == chunk_size` the stride is 0: from 30 words of text and
    window on, every pass of the loop starts at word 0 and goes on, so the
    loop never ends.
  */
  lemma {:induction false} EqualOverlapStalls(n: nat, size: nat, k: nat)
    requires MinWords <= size && MinWords <= n
    ensures Start(size, size, k) == 0 && LoopContinues(n, size, Start(size, size, k))
  {
    if k > 0 {
      EqualOverlapStalls(n, size, k - 1);
    }
  }

  /** The quality score: wells count three, depths and dates two, temperatures and pressures one. */
  function Quality(m: Entities): nat {
    3 * |Lookup(m, "wells")| + 2 * |Lookup(m, "depths")| + 2 * |Lookup(m, "dates")|
    + |Lookup(m, "temperatures")| + |Lookup(m, "pressures")|
  }

  /** The chunk made of `len` words from `start`. */
  function ChunkAt(words: seq<string>, start: nat, len: nat, k: nat, base: Meta, entities: Entities): Chunk
    requires start + len <= |words|
  {
    var text := Join(" ", words[start..start + len]);
    var m := MatchSpec(text, entities);
    Chunk(text, base, k, start, start + len, len, m)
  }

  /** Window `k` of `n` words: its start and its length. */
  function Window(n: nat, size: nat, overlap: int, k: nat): (w: (nat, nat))
    requires Terminates(n, size, overlap) && k < ChunkCount(n, size, overlap)
    ensures w.0 == Start(size, overlap, k) && w.0 + MinWords <= n
    ensures w.0 + w.1 <= n
  {
    CountMeaning(n, size, overlap, k);
    StartNonNegative(size, overlap, k);
    var start := Start(size, overlap, k);
    (start, Min(size, n - start))
  }

  /** A window holds `size` words, or fewer at the end, and never fewer than 30. */
  lemma WindowLength(n: nat, size: nat, overlap: int, k: nat)
    requires Terminates(n, size, overlap) && k < ChunkCount(n, size, overlap)
    ensures var w := Window(n, size, overlap, k);
      w.1 == Min(size, n - w.0) && MinWords <= w.1 <= size
  {
  }

  /** The first `m` chunks of `_ultra_chunk` over `words`. */
  function ChunksUpTo(words: seq<string>, size: nat, overlap: int, base: Meta, entities: Entities, m: nat): (r: seq<Chunk>)
    requires Terminates(|words|, size, overlap) && m <= ChunkCount(|words|, size, overlap)
    ensures |r| == m
  {
    if m == 0 then []
    else
      var w := Window(|words|, size, overlap, m - 1);
      ChunksUpTo(words, size, overlap, base, entities, m - 1) + [ChunkAt(words, w.0, w.1, m - 1, base, entities)]
  }

  /** The chunks of `_ultra_chunk`: one per window, each window `size` words long or cut at the end. */
  function Chunks(text: string, size: nat, overlap: int, base: Meta, entities: Entities): seq<Chunk>
    requires Terminates(|Words(text)|, size, overlap)
  {
    var words := Words(text);
    ChunksUpTo(words, size, overlap, base, entities, ChunkCount(|words|, size, overlap))
  }

  lemma {:induction false} ChunksUpToIndex(words: seq<string>, size: nat, overlap: int, base: Meta, entities: Entities, m: nat, k: nat)
    requires Terminates(|words|, size, overlap) && k < m <= ChunkCount(|words|, size, overlap)
    ensures |ChunksUpTo(words, size, overlap, base, entities, m)| == m
    ensures var w := Window(|words|, size, overlap, k);
      ChunksUpTo(words, size, overlap, base, entities, m)[k] == ChunkAt(words, w.0, w.1, k, base, entities)
    decreases m
  {
    if k < m - 1 {
      ChunksUpToIndex(words, size, overlap, base, entities, m - 1, k);
    } else if m > 1 {
      ChunksUpToIndex(words, size, overlap, base, entities, m - 1, 0);
    }
  }

  /** The body of the `_ultra_chunk` loop: the chunk of `len` words from `start`, with its metadata. */
  method BuildChunk(words: seq<string>, start: nat, len: nat, chunkIdx: nat, base: Meta, entities: Entities)
    returns (chunk: Chunk)
    requires start + len <= |words|
    ensures chunk == ChunkAt(words, start, len, chunkIdx, base, entities)
  {
    var chunkText := Join(" ", words[start..start + len]);
    var chunkEntities := MatchEntitiesToText(chunkText, entities);
    chunk := Chunk(chunkText, base, chunkIdx, start, start + len, len, chunkEntities);
  }

  /**
    `_ultra_chunk`: slides a window of `size` words forward by `size - overlap`
    words until the window holds fewer than 30 words.
  */
  method UltraChunk(text: string, size: nat, overlap: int, base: Meta, entities: Entities) returns (chunks: seq<Chunk>)
    requires Terminates(|Words(text)|, size, overlap)
    ensures chunks == Chunks(text, size, overlap, base, entities)
  {
    var words := Words(text);
    chunks := SlideWindows(words, size, overlap, base, entities);
  }

  /** The window loop of `_ultra_chunk` over the words of the segment. */
  method SlideWindows(words: seq<string>, size: nat, overlap: int, base: Meta, entities: Entities) returns (chunks: seq<Chunk>)
    requires Terminates(|words|, size, overlap)
    ensures chunks == ChunksUpTo(words, size, overlap, base, entities, ChunkCount(|words|, size, overlap))
  {
    var n := |words|;
    chunks := [];
    var i: int := 0;
    var chunkIdx: nat := 0;
    while i < n
      invariant 0 <= i && chunkIdx <= ChunkCount(n, size, overlap)
      invariant i == Start(size, overlap, chunkIdx)
      invariant chunks == ChunksUpTo(words, size, overlap, base, entities, chunkIdx)
      decreases n - i
    {
      var end := if i + size <= n then i + size else n;
      assert end - i == Min(size, n - i);
      if end - i < MinWords {
        LastWindow(n, size, overlap, chunkIdx);
        break;
      }
      NextWindow(words, size, overlap, base, entities, chunkIdx);
      var chunk := BuildChunk(words, i, end - i, chunkIdx, base, entities);
      chunks := chunks + [chunk];
      i := i + (size - overlap);
      chunkIdx := chunkIdx + 1;
    }
    if i >= n {
      LastWindow(n, size, overlap, chunkIdx);
    }
  }

  /** A window that does not fit 30 words, or starts past the end, is the end of the chunks. */
  lemma LastWindow(n: nat, size: nat, overlap: int, k: nat)
    requires Terminates(n, size, overlap) && k <= ChunkCount(n, size, overlap)
    requires var i := Start(size, overlap, k); i >= n || Min(size, n - i) < MinWords
    ensures k == ChunkCount(n, size, overlap)
  {
    if MinWords <= size && MinWords <= n {
      CountMeaning(n, size, overlap, k);
    }
  }

  /** A window of at least 30 words is the next chunk, and the following window starts one stride on. */
  lemma NextWindow(words: seq<string>, size: nat, overlap: int, base: Meta, entities: Entities, k: nat)
    requires Terminates(|words|, size, overlap) && k <= ChunkCount(|words|, size, overlap)
    requires var i := Start(size, overlap, k); 0 <= i < |words| && Min(size, |words| - i) >= MinWords
    ensures k < ChunkCount(|words|, size, overlap)
    ensures var i := Start(size, overlap, k);
      && Window(|words|, size, overlap, k) == (i, Min(size, |words| - i))
      && ChunksUpTo(words, size, overlap, base, entities, k + 1)
         == ChunksUpTo(words, size, overlap, base, entities, k) + [ChunkAt(words, i, Min(size, |words| - i), k, base, entities)]
  {
    CountMeaning(|words|, size, overlap, k);
  }

  /**
    Window `k` exists exactly when `size` is at least 30, the window moves
    forward, and it starts at least 30 words before the end of the segment.
  */
  lemma ChunkExists(text: string, size: nat, overlap: int, base: Meta, entities: Entities, k: nat)
    requires Terminates(|Words(text)|, size, overlap)
    ensures k < |Chunks(text, size, overlap, base, entities)|
        <==> MinWords <= size && overlap < size && Start(size, overlap, k) + MinWords <= |Words(text)|
  {
    var words := Words(text);
    var n := |words|;
    var count := ChunkCount(n, size, overlap);
    if count > 0 {
      ChunksUpToIndex(words, size, overlap, base, entities, count, 0);
    }
    if MinWords <= size && MinWords <= n {
      CountMeaning(n, size, overlap, k);
    } else if overlap < size {
      StartNonNegative(size, overlap, k);
    }
  }

  /**
    Chunk `k` is `k` strides in and holds `size` words, or the rest of the
    segment when fewer remain, and never fewer than 30; its metadata records
    its index, its word range and its length.
  */
  lemma ChunkWindow(text: string, size: nat, overlap: int, base: Meta, entities: Entities, k: nat)
    requires Terminates(|Words(text)|, size, overlap) && k < |Chunks(text, size, overlap, base, entities)|
    ensures var c := Chunks(text, size, overlap, base, entities)[k];
      var start := Start(size, overlap, k);
      && c.chunkIndex == k && c.wordStart == start && c.wordEnd == start + c.chunkLength
      && MinWords <= c.chunkLength <= size && start + c.chunkLength <= |Words(text)|
      && (c.chunkLength == size || start + c.chunkLength == |Words(text)|)
  {
    var words := Words(text);
    ChunksUpToIndex(words, size, overlap, base, entities, ChunkCount(|words|, size, overlap), k);
    WindowLength(|words|, size, overlap, k);
  }

  /** Re-splitting a chunk's text gives back exactly the words of its window. */
  lemma ChunkWords(text: string, size: nat, overlap: int, base: Meta, entities: Entities, k: nat)
    requires Terminates(|Words(text)|, size, overlap) && k < |Chunks(text, size, overlap, base, entities)|
    ensures var c := Chunks(text, size, overlap, base, entities)[k];
      c.wordStart <= c.wordEnd <= |Words(text)| && Words(c.content) == Words(text)[c.wordStart..c.wordEnd]
  {
    var words := Words(text);
    ChunksUpToIndex(words, size, overlap, base, entities, ChunkCount(|words|, size, overlap), k);
    var w := Window(|words|, size, overlap, k);
    ChunkAtWords(words, w.0, w.1, k, base, entities);
  }

  lemma ChunkAtWords(words: seq<string>, start: nat, len: nat, k: nat, base: Meta, entities: Entities)
    requires start + len <= |words| && forall i :: 0 <= i < |words| ==> IsWord(words[i])
    ensures var c := ChunkAt(words, start, len, k, base, entities);
      c.wordStart == start && c.wordEnd == start + len && Words(c.content) == words[start..start + len]
  {
    WordsOfSlice(words, start, start + len);
  }

  lemma WordsOfSlice(words: seq<string>, lo: nat, hi: nat)
    requires lo <= hi <= |words| && forall i :: 0 <= i < |words| ==> IsWord(words[i])
    ensures Words(Join(" ", words[lo..hi])) == words[lo..hi]
  {
    var window := words[lo..hi];
    forall j | 0 <= j < |window| ensures IsWord(window[j]) {
      assert window[j] == words[lo + j];
    }
    WordsOfJoin(window);
  }

  /**
    With a non-negative overlap the windows leave no gap: each starts no later
    than the previous one ends, and fewer than 30 words are left after the last.
  */
  lemma ChunksCover(text: string, size: nat, overlap: int, base: Meta, entities: Entities)
    requires Terminates(|Words(text)|, size, overlap) && 0 <= overlap
    ensures var cs := Chunks(text, size, overlap, base, entities);
      && (forall k :: 0 <= k < |cs| - 1 ==> cs[k + 1].wordStart <= cs[k].wordEnd)
      && (|cs| > 0 ==> |Words(text)| - cs[|cs| - 1].wordEnd < MinWords)
  {
    WindowsCover(Words(text), size, overlap, base, entities);
  }

  lemma WindowsCover(words: seq<string>, size: nat, overlap: int, base: Meta, entities: Entities)
    requires Terminates(|words|, size, overlap) && 0 <= overlap
    ensures var cs := ChunksUpTo(words, size, overlap, base, entities, ChunkCount(|words|, size, overlap));
      && (forall k :: 0 <= k < |cs| - 1 ==> cs[k + 1].wordStart <= cs[k].wordEnd)
      && (|cs| > 0 ==> |words| - cs[|cs| - 1].wordEnd < MinWords)
  {
    var n := |words|;
    var count := ChunkCount(n, size, overlap);
    var cs := ChunksUpTo(words, size, overlap, base, entities, count);
    forall k: nat | k + 1 < count
      ensures cs[k + 1].wordStart <= cs[k].wordEnd
    {
      ChunksUpToIndex(words, size, overlap, base, entities, count, k);
      ChunksUpToIndex(words, size, overlap, base, entities, count, k + 1);
    }
    if count > 0 {
      ChunksUpToIndex(words, size, overlap, base, entities, count, count - 1);
      CountMeaning(n, size, overlap, count);
    }
  }

  /**
    A chunk's quality score and well list come from the entities of its
    segment that occur in the chunk's own text: the score never exceeds the
    segment's, and the listed wells are exactly those found in the chunk.
  */
  lemma ChunkQuality(text: string, size: nat, overlap: int, base: Meta, entities: Entities, k: nat)
    requires Terminates(|Words(text)|, size, overlap) && k < |Chunks(text, size, overlap, base, entities)|
    ensures var c := Chunks(text, size, overlap, base, entities)[k];
      && c.QualityScore() <= Quality(entities)
      && c.ContainsWells() == Join(",", Occurring(Lookup(entities, "wells"), c.content))
  {
    var words := Words(text);
    ChunksUpToIndex(words, size, overlap, base, entities, ChunkCount(|words|, size, overlap), k);
    var c := Chunks(text, size, overlap, base, entities)[k];
    LookupMatch(c.content, entities, "wells");
    LookupMatch(c.content, entities, "depths");
    LookupMatch(c.content, entities, "dates");
    LookupMatch(c.content, entities, "temperatures");
    LookupMatch(c.content, entities, "pressures");
  }

  /** A citation always opens with the file and the page; the segment follows exactly when the metadata has a paragraph id. */
  lemma CitationShape(meta: Meta)
    ensures var head := ToStr(Get(meta, "source_file", Str("Unknown"))) + ", p." + ToStr(Get(meta, "page_number", Str("?")));
      && head <= CitationOf(meta)
      && (|CitationOf(meta)| == |head| <==> !Truthy(Get(meta, "paragraph_id", Str(""))))
  {
  }
}
