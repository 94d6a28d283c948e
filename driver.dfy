/**
  `PreprocessingAgent.process_all_strategies`: every page of every document
  with at least 50 non-blank characters is analysed, segmented and chunked
  once per embedding strategy, and each strategy's chunks are collected in
  document, page and segment order.
*/
module Driver {
  import opened Strings
  import opened Metadata
  import opened Preprocessing
  import opened Chunking

  /** A page of an ingested document; an absent key stands for its default (`''`, `0`). */
  datatype Page = Page(content: string, number: int)

  /** An ingested document; an absent `source_file` stands as `Str("Unknown")`. */
  datatype Document = Document(pages: seq<Page>, metadata: Meta, sourceFile: Value)

  /** One entry of `config['embedding_strategies']`. */
  datatype Strategy = Strategy(name: string, chunkSize: nat, overlap: int)

  /** A strategy whose chunking ends on every segment: a window under 30 words, or a forward stride. */
  predicate ValidStrategy(s: Strategy) {
    s.chunkSize < MinWords || s.overlap < s.chunkSize
  }

  predicate AllValid(strategies: seq<Strategy>) {
    forall i :: 0 <= i < |strategies| ==> ValidStrategy(strategies[i])
  }

  /** The strategies of a config: one per name, as in a dict. */
  predicate ValidConfig(strategies: seq<Strategy>) {
    && (forall i, j :: 0 <= i < j < |strategies| ==> strategies[i].name != strategies[j].name)
    && AllValid(strategies)
  }

  function Names(strategies: seq<Strategy>): set<string> {
    set s | s in strategies :: s.name
  }

  /** The metadata a segment passes to `_ultra_chunk`: the cleaned document metadata under the segment's fields. */
  function SegmentMeta(clean: Meta, page: int, sourceFile: Value, seg: Segment): Meta {
    Overlay(clean, SegmentFields(page, sourceFile, seg))
  }

  /** The fields a segment sets over the document metadata, in the order of the dict display. */
  function SegmentFields(page: int, sourceFile: Value, seg: Segment): seq<(string, Value)> {
    [("page_number", Int(page)),
     ("source_file", sourceFile),
     ("segment_type", Str(seg.kind.Name())),
     ("paragraph_id", Str(seg.Id())),
     ("has_numbers", Bool(seg.HasNumbers())),
     ("has_dates", Bool(seg.HasDates())),
     ("has_wells", Bool(seg.HasWells())),
     ("entity_density", Int(seg.EntityDensity())),
     ("section_depth", Int(seg.SectionDepth()))]
  }

  /** The chunks of one segment under one strategy. */
  function SegmentChunks(seg: Segment, meta: Meta, s: Strategy): seq<Chunk>
    requires ValidStrategy(s)
  {
    Chunks(seg.content, s.chunkSize, s.overlap, meta, seg.entities)
  }

  /** The chunks of the first `n` segments of a page under one strategy. */
  function SegmentsChunks(segs: seq<Segment>, n: nat, clean: Meta, page: int, sourceFile: Value, s: Strategy): seq<Chunk>
    requires n <= |segs| && ValidStrategy(s)
  {
    if n == 0 then []
    else
      SegmentsChunks(segs, n - 1, clean, page, sourceFile, s)
      + SegmentChunks(segs[n - 1], SegmentMeta(clean, page, sourceFile, segs[n - 1]), s)
  }

  /** A page is chunked when it has at least 50 non-blank characters. */
  predicate Substantial(page: Page) {
    |Strip(page.content)| >= 50
  }

  /** The segments of a page, from its structure and its entities. */
  function PageSegments(page: Page, rx: Regexes): (r: seq<Segment>)
    ensures |r| >= 1
  {
    var st := StructureOf(page.content, rx);
    var entities := AsDict(rx.entities(page.content));
    Segmentation(page.content, page.number, st, entities, rx)
  }

  /** The chunks of one page under one strategy. */
  function PageChunks(page: Page, clean: Meta, sourceFile: Value, s: Strategy, rx: Regexes): seq<Chunk>
    requires ValidStrategy(s)
  {
    if !Substantial(page) then []
    else
      var segs := PageSegments(page, rx);
      SegmentsChunks(segs, |segs|, clean, page.number, sourceFile, s)
  }

  /** The chunks of the first `n` pages of a document under one strategy. */
  function PagesChunks(doc: Document, n: nat, s: Strategy, rx: Regexes): seq<Chunk>
    requires n <= |doc.pages| && ValidStrategy(s)
  {
    if n == 0 then []
    else PagesChunks(doc, n - 1, s, rx) + PageChunks(doc.pages[n - 1], Cleaned(doc.metadata), doc.sourceFile, s, rx)
  }

  /** The chunks of the first `n` documents under one strategy. */
  function AllChunks(docs: seq<Document>, n: nat, s: Strategy, rx: Regexes): seq<Chunk>
    requires n <= |docs| && ValidStrategy(s)
  {
    if n == 0 then []
    else AllChunks(docs, n - 1, s, rx) + PagesChunks(docs[n - 1], |docs[n - 1].pages|, s, rx)
  }

  // ---------------------------------------------------------------- one list per strategy

  // The driver keeps one list of chunks per strategy, in the order of the
  // strategies, and keys them by name at the end. Each loop extends every
  // list by the chunks of one more segment, page or document.

  /** Each list extended by its counterpart. */
  function Plus(a: seq<seq<Chunk>>, b: seq<seq<Chunk>>): (r: seq<seq<Chunk>>)
    requires |a| == |b|
    ensures |r| == |a|
  {
    seq(|a|, i requires 0 <= i < |a| => a[i] + b[i])
  }

  function SegmentLists(seg: Segment, meta: Meta, strategies: seq<Strategy>): (r: seq<seq<Chunk>>)
    requires AllValid(strategies)
    ensures |r| == |strategies|
  {
    seq(|strategies|, i requires 0 <= i < |strategies| => SegmentChunks(seg, meta, strategies[i]))
  }

  function SegmentsLists(segs: seq<Segment>, n: nat, clean: Meta, page: int, sourceFile: Value, strategies: seq<Strategy>)
    : (r: seq<seq<Chunk>>)
    requires n <= |segs| && AllValid(strategies)
    ensures |r| == |strategies|
  {
    seq(|strategies|, i requires 0 <= i < |strategies| => SegmentsChunks(segs, n, clean, page, sourceFile, strategies[i]))
  }

  function PageLists(page: Page, clean: Meta, sourceFile: Value, strategies: seq<Strategy>, rx: Regexes): (r: seq<seq<Chunk>>)
    requires AllValid(strategies)
    ensures |r| == |strategies|
  {
    seq(|strategies|, i requires 0 <= i < |strategies| => PageChunks(page, clean, sourceFile, strategies[i], rx))
  }

  function PagesLists(doc: Document, n: nat, strategies: seq<Strategy>, rx: Regexes): (r: seq<seq<Chunk>>)
    requires n <= |doc.pages| && AllValid(strategies)
    ensures |r| == |strategies|
  {
    seq(|strategies|, i requires 0 <= i < |strategies| => PagesChunks(doc, n, strategies[i], rx))
  }

  function AllLists(docs: seq<Document>, n: nat, strategies: seq<Strategy>, rx: Regexes): (r: seq<seq<Chunk>>)
    requires n <= |docs| && AllValid(strategies)
    ensures |r| == |strategies|
  {
    seq(|strategies|, i requires 0 <= i < |strategies| => AllChunks(docs, n, strategies[i], rx))
  }

  lemma NoSegmentsLists(segs: seq<Segment>, clean: Meta, page: int, sourceFile: Value, strategies: seq<Strategy>,
                        lists: seq<seq<Chunk>>)
    requires AllValid(strategies) && |lists| == |strategies|
    ensures Plus(lists, SegmentsLists(segs, 0, clean, page, sourceFile, strategies)) == lists
  {
    forall i | 0 <= i < |lists| ensures Plus(lists, SegmentsLists(segs, 0, clean, page, sourceFile, strategies))[i] == lists[i] {
      assert lists[i] + [] == lists[i];
    }
  }

  lemma NoPagesLists(doc: Document, strategies: seq<Strategy>, rx: Regexes, lists: seq<seq<Chunk>>)
    requires AllValid(strategies) && |lists| == |strategies|
    ensures Plus(lists, PagesLists(doc, 0, strategies, rx)) == lists
  {
    forall i | 0 <= i < |lists| ensures Plus(lists, PagesLists(doc, 0, strategies, rx))[i] == lists[i] {
      assert lists[i] + [] == lists[i];
    }
  }

  lemma SegmentsListsStep(segs: seq<Segment>, k: nat, clean: Meta, page: int, sourceFile: Value, strategies: seq<Strategy>,
                          lists: seq<seq<Chunk>>)
    requires k < |segs| && AllValid(strategies) && |lists| == |strategies|
    ensures Plus(Plus(lists, SegmentsLists(segs, k, clean, page, sourceFile, strategies)),
                 SegmentLists(segs[k], SegmentMeta(clean, page, sourceFile, segs[k]), strategies))
         == Plus(lists, SegmentsLists(segs, k + 1, clean, page, sourceFile, strategies))
  {
    var meta := SegmentMeta(clean, page, sourceFile, segs[k]);
    forall i | 0 <= i < |strategies|
      ensures Plus(Plus(lists, SegmentsLists(segs, k, clean, page, sourceFile, strategies)), SegmentLists(segs[k], meta, strategies))[i]
           == Plus(lists, SegmentsLists(segs, k + 1, clean, page, sourceFile, strategies))[i]
    {
      var s := strategies[i];
      assert lists[i] + SegmentsChunks(segs, k, clean, page, sourceFile, s) + SegmentChunks(segs[k], meta, s)
          == lists[i] + (SegmentsChunks(segs, k, clean, page, sourceFile, s) + SegmentChunks(segs[k], meta, s));
    }
  }

  lemma PagesListsStep(doc: Document, j: nat, strategies: seq<Strategy>, rx: Regexes, lists: seq<seq<Chunk>>)
    requires j < |doc.pages| && AllValid(strategies) && |lists| == |strategies|
    ensures Plus(Plus(lists, PagesLists(doc, j, strategies, rx)),
                 PageLists(doc.pages[j], Cleaned(doc.metadata), doc.sourceFile, strategies, rx))
         == Plus(lists, PagesLists(doc, j + 1, strategies, rx))
  {
    var clean := Cleaned(doc.metadata);
    forall i | 0 <= i < |strategies|
      ensures Plus(Plus(lists, PagesLists(doc, j, strategies, rx)), PageLists(doc.pages[j], clean, doc.sourceFile, strategies, rx))[i]
           == Plus(lists, PagesLists(doc, j + 1, strategies, rx))[i]
    {
      var s := strategies[i];
      assert lists[i] + PagesChunks(doc, j, s, rx) + PageChunks(doc.pages[j], clean, doc.sourceFile, s, rx)
          == lists[i] + (PagesChunks(doc, j, s, rx) + PageChunks(doc.pages[j], clean, doc.sourceFile, s, rx));
    }
  }

  lemma AllListsStep(docs: seq<Document>, d: nat, strategies: seq<Strategy>, rx: Regexes)
    requires d < |docs| && AllValid(strategies)
    ensures Plus(AllLists(docs, d, strategies, rx), PagesLists(docs[d], |docs[d].pages|, strategies, rx))
         == AllLists(docs, d + 1, strategies, rx)
  {
  }

  /** The innermost loop: one segment chunked under every strategy, each list extended by its chunks. */
  method ChunkSegmentAll(seg: Segment, meta: Meta, strategies: seq<Strategy>, lists: seq<seq<Chunk>>)
    returns (lists': seq<seq<Chunk>>)
    requires AllValid(strategies) && |lists| == |strategies|
    ensures lists' == Plus(lists, SegmentLists(seg, meta, strategies))
  {
    lists' := lists;
    var t := 0;
    while t < |strategies|
      invariant 0 <= t <= |strategies| && |lists'| == |strategies|
      invariant forall i :: 0 <= i < t ==> lists'[i] == lists[i] + SegmentChunks(seg, meta, strategies[i])
      invariant forall i :: t <= i < |strategies| ==> lists'[i] == lists[i]
    {
      var s := strategies[t];
      var chunks := UltraChunk(seg.content, s.chunkSize, s.overlap, meta, seg.entities);
      lists' := lists'[t := lists'[t] + chunks];
      t := t + 1;
    }
  }

  /** The segment loop of one page. */
  method ProcessSegments(segs: seq<Segment>, clean: Meta, page: int, sourceFile: Value, strategies: seq<Strategy>,
                         lists: seq<seq<Chunk>>)
    returns (lists': seq<seq<Chunk>>)
    requires AllValid(strategies) && |lists| == |strategies|
    ensures lists' == Plus(lists, SegmentsLists(segs, |segs|, clean, page, sourceFile, strategies))
  {
    NoSegmentsLists(segs, clean, page, sourceFile, strategies, lists);
    lists' := lists;
    var k := 0;
    while k < |segs|
      invariant 0 <= k <= |segs|
      invariant lists' == Plus(lists, SegmentsLists(segs, k, clean, page, sourceFile, strategies))
    {
      var meta := SegmentMeta(clean, page, sourceFile, segs[k]);
      lists' := ChunkSegmentAll(segs[k], meta, strategies, lists');
      SegmentsListsStep(segs, k, clean, page, sourceFile, strategies, lists);
      k := k + 1;
    }
  }

  /** One page: skipped when nearly blank, else analysed, segmented and chunked. */
  method ProcessPage(page: Page, clean: Meta, sourceFile: Value, strategies: seq<Strategy>, rx: Regexes,
                     lists: seq<seq<Chunk>>)
    returns (lists': seq<seq<Chunk>>)
    requires AllValid(strategies) && |lists| == |strategies|
    ensures lists' == Plus(lists, PageLists(page, clean, sourceFile, strategies, rx))
  {
    if |Strip(page.content)| < 50 {
      assert Plus(lists, PageLists(page, clean, sourceFile, strategies, rx)) == lists by {
        forall i | 0 <= i < |lists| ensures Plus(lists, PageLists(page, clean, sourceFile, strategies, rx))[i] == lists[i] {
          assert lists[i] + [] == lists[i];
        }
      }
      return lists;
    }
    var structure := AnalyzeDocumentStructure(page.content, rx);
    var entities := AsDict(rx.entities(page.content));
    var segs := UltraSemanticSegmentation(page.content, page.number, structure, entities, rx);
    lists' := ProcessSegments(segs, clean, page.number, sourceFile, strategies, lists);
    assert SegmentsLists(segs, |segs|, clean, page.number, sourceFile, strategies) == PageLists(page, clean, sourceFile, strategies, rx);
  }

  /** One document: its metadata cleaned once, then its pages in order. */
  method ProcessDocument(doc: Document, strategies: seq<Strategy>, rx: Regexes, lists: seq<seq<Chunk>>)
    returns (lists': seq<seq<Chunk>>)
    requires AllValid(strategies) && |lists| == |strategies|
    ensures lists' == Plus(lists, PagesLists(doc, |doc.pages|, strategies, rx))
  {
    var clean := CleanMetadata(doc.metadata);
    lists' := ProcessPages(doc, clean, strategies, rx, lists);
  }

  /** The page loop of one document. */
  method ProcessPages(doc: Document, clean: Meta, strategies: seq<Strategy>, rx: Regexes, lists: seq<seq<Chunk>>)
    returns (lists': seq<seq<Chunk>>)
    requires clean == Cleaned(doc.metadata) && AllValid(strategies) && |lists| == |strategies|
    ensures lists' == Plus(lists, PagesLists(doc, |doc.pages|, strategies, rx))
  {
    NoPagesLists(doc, strategies, rx, lists);
    lists' := lists;
    var j := 0;
    while j < |doc.pages|
      invariant 0 <= j <= |doc.pages|
      invariant lists' == Plus(lists, PagesLists(doc, j, strategies, rx))
    {
      lists' := ProcessNextPage(doc, j, clean, strategies, rx, lists, lists');
      j := j + 1;
    }
  }

  /** One pass of the page loop: page `j` appended to the lists that hold the first `j` pages. */
  method ProcessNextPage(doc: Document, j: nat, clean: Meta, strategies: seq<Strategy>, rx: Regexes,
                         lists: seq<seq<Chunk>>, acc: seq<seq<Chunk>>)
    returns (acc': seq<seq<Chunk>>)
    requires j < |doc.pages| && clean == Cleaned(doc.metadata) && AllValid(strategies) && |lists| == |strategies|
    requires acc == Plus(lists, PagesLists(doc, j, strategies, rx))
    ensures acc' == Plus(lists, PagesLists(doc, j + 1, strategies, rx))
  {
    acc' := ProcessPage(doc.pages[j], clean, doc.sourceFile, strategies, rx, acc);
    PagesListsStep(doc, j, strategies, rx, lists);
  }

  /**
    `process_all_strategies`: one list per strategy name, holding that
    strategy's chunks of every document in order.
  */
  method ProcessAllStrategies(docs: seq<Document>, strategies: seq<Strategy>, rx: Regexes)
    returns (all: map<string, seq<Chunk>>)
    requires ValidConfig(strategies)
    ensures all.Keys == Names(strategies)
    ensures forall i :: 0 <= i < |strategies| ==> all[strategies[i].name] == AllChunks(docs, |docs|, strategies[i], rx)
  {
    var lists := ProcessDocuments(docs, strategies, rx);
    all := Keyed(strategies, lists);
  }

  /** The outermost loop: every document in turn, each list extended by its chunks. */
  method ProcessDocuments(docs: seq<Document>, strategies: seq<Strategy>, rx: Regexes)
    returns (lists: seq<seq<Chunk>>)
    requires AllValid(strategies)
    ensures lists == AllLists(docs, |docs|, strategies, rx)
  {
    lists := seq(|strategies|, _ => []);
    assert lists == AllLists(docs, 0, strategies, rx);
    var d := 0;
    while d < |docs|
      invariant 0 <= d <= |docs|
      invariant lists == AllLists(docs, d, strategies, rx)
    {
      lists := ProcessDocument(docs[d], strategies, rx, lists);
      AllListsStep(docs, d, strategies, rx);
      d := d + 1;
    }
  }

  /** The dict of the lists, keyed by strategy name. */
  function Keyed(strategies: seq<Strategy>, lists: seq<seq<Chunk>>): (all: map<string, seq<Chunk>>)
    requires ValidConfig(strategies) && |lists| == |strategies|
    ensures all.Keys == Names(strategies)
    ensures forall i :: 0 <= i < |strategies| ==> all[strategies[i].name] == lists[i]
  {
    map i | 0 <= i < |strategies| :: strategies[i].name := lists[i]
  }
}
