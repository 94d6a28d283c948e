/**
  `IngestionAgent`: reads each file's pages, numbers them from 1, collects
  the well names of the whole text and records them in the document's
  metadata. A file that cannot be read is skipped.

  The PDF reader enters as the page texts of each file (`None` for a file
  the reader fails on), the three well-name patterns as `find` (their
  matches in a text) and `Path(fp).name` as `basename`.
*/
module Ingestion {
  import opened Wrappers
  import opened Strings
  import opened Sorting
  import opened Metadata
  import opened Driver

  /** A match of pattern 1 or 2: the letters, the two digits after `-GT-`, and any `-S1`/`-02` suffix. */
  datatype WellId = WellId(letters: string, digits: string, suffix: string)

  function Name(w: WellId): string {
    w.letters + "-GT-" + w.digits + w.suffix
  }

  /** Pattern 3's `HAG GT 01`, written `HAG-GT-01`. */
  function SpacedName(letters: string, digits: string): string {
    letters + "-GT-" + digits
  }

  /** The matches of the three patterns: standard, Naaldwijk style, and spaced (its two groups). */
  datatype WellMatches = WellMatches(standard: seq<WellId>, naaldwijk: seq<WellId>, spaced: seq<(string, string)>)

  function StandardNames(m: WellMatches): seq<string> {
    seq(|m.standard|, i requires 0 <= i < |m.standard| => Name(m.standard[i]))
  }

  function NaaldwijkNames(m: WellMatches): seq<string> {
    seq(|m.naaldwijk|, i requires 0 <= i < |m.naaldwijk| => Name(m.naaldwijk[i]))
  }

  function SpacedNames(m: WellMatches): seq<string> {
    seq(|m.spaced|, i requires 0 <= i < |m.spaced| => SpacedName(m.spaced[i].0, m.spaced[i].1))
  }

  /** Every name the patterns produce, in the order they are added to the set. */
  function NameList(m: WellMatches): seq<string> {
    StandardNames(m) + NaaldwijkNames(m) + SpacedNames(m)
  }

  /** `_extract_well_names(text)` */
  function WellNames(text: string, find: string -> WellMatches): seq<string> {
    SortedUnique(NameList(find(text)))
  }

  /** `well_names.update(names)` */
  method AddAll(wellNames0: set<string>, names: seq<string>) returns (wellNames: set<string>)
    ensures wellNames == wellNames0 + Elems(names)
  {
    wellNames := wellNames0;
    var i := 0;
    while i < |names|
      invariant 0 <= i <= |names|
      invariant wellNames == wellNames0 + Elems(names[..i])
    {
      assert names[..i + 1] == names[..i] + [names[i]];
      wellNames := wellNames + {names[i]};
      i := i + 1;
    }
    assert names[..i] == names;
  }

  method ExtractWellNames(text: string, find: string -> WellMatches) returns (names: seq<string>)
    ensures names == WellNames(text, find)
  {
    var m := find(text);
    var wellNames: set<string> := {};
    wellNames := AddAll(wellNames, StandardNames(m));
    wellNames := AddAll(wellNames, NaaldwijkNames(m));
    var i := 0;
    while i < |m.spaced|
      invariant 0 <= i <= |m.spaced|
      invariant wellNames == Elems(StandardNames(m)) + Elems(NaaldwijkNames(m)) + Elems(SpacedNames(m)[..i])
    {
      assert SpacedNames(m)[..i + 1] == SpacedNames(m)[..i] + [SpacedNames(m)[i]];
      var wellName := m.spaced[i].0 + "-GT-" + m.spaced[i].1;
      wellNames := wellNames + {wellName};
      i := i + 1;
    }
    assert SpacedNames(m)[..i] == SpacedNames(m);
    assert Elems(NameList(m)) == wellNames by {
      assert forall x :: x in NameList(m) <==> x in StandardNames(m) || x in NaaldwijkNames(m) || x in SpacedNames(m);
    }
    names := SortedSet(wellNames);
    StrictlySortedUnique(names, WellNames(text, find));
  }

  // ---------------------------------------------------------------- documents

  /** The pages of a file, numbered from 1. */
  function PagesOf(texts: seq<string>): seq<Page> {
    seq(|texts|, i requires 0 <= i < |texts| => Page(texts[i], i + 1))
  }

  /** `full_text`: the page texts one after another. */
  function Concat(texts: seq<string>): string {
    if texts == [] then "" else Concat(texts[..|texts| - 1]) + texts[|texts| - 1]
  }

  /** A file to ingest: its path and page texts, `None` when the reader fails on it. */
  datatype SourceFile = SourceFile(path: string, pages: Option<seq<string>>)

  /** The document made of a readable file. */
  function DocumentOf(name: string, texts: seq<string>, find: string -> WellMatches): Document {
    Document(PagesOf(texts),
             map["source_file" := Str(name), "well_names" := Str(Join(", ", WellNames(Concat(texts), find)))],
             Str(name))
  }

  /** The documents of one file: none when it cannot be read. */
  function DocumentsOf(file: SourceFile, basename: string -> string, find: string -> WellMatches): seq<Document> {
    match file.pages
    case None => []
    case Some(texts) => [DocumentOf(basename(file.path), texts, find)]
  }

  /** `process(file_paths)['documents']` */
  function Processed(files: seq<SourceFile>, basename: string -> string, find: string -> WellMatches): seq<Document> {
    if files == [] then []
    else Processed(files[..|files| - 1], basename, find) + DocumentsOf(files[|files| - 1], basename, find)
  }

  /** The page loop: pages numbered from 1 and the text of the whole file. */
  method ReadPages(texts: seq<string>) returns (pages: seq<Page>, fullText: string)
    ensures |pages| == |texts|
    ensures forall i :: 0 <= i < |texts| ==> pages[i] == Page(texts[i], i + 1)
    ensures fullText == Concat(texts)
  {
    pages := [];
    fullText := "";
    var i := 0;
    while i < |texts|
      invariant 0 <= i <= |texts|
      invariant |pages| == i
      invariant forall j :: 0 <= j < i ==> pages[j] == Page(texts[j], j + 1)
      invariant fullText == Concat(texts[..i])
    {
      assert texts[..i + 1][..i] == texts[..i];
      pages := pages + [Page(texts[i], i + 1)];
      fullText := fullText + texts[i];
      i := i + 1;
    }
    assert texts[..i] == texts;
  }

  method Process(files: seq<SourceFile>, basename: string -> string, find: string -> WellMatches)
    returns (documents: seq<Document>)
    ensures documents == Processed(files, basename, find)
  {
    documents := [];
    var f := 0;
    while f < |files|
      invariant 0 <= f <= |files|
      invariant documents == Processed(files[..f], basename, find)
    {
      assert files[..f + 1][..f] == files[..f];
      match files[f].pages {
        case None =>
        case Some(texts) =>
          var pages, fullText := ReadPages(texts);
          var wells := ExtractWellNames(fullText, find);
          var name := basename(files[f].path);
          assert pages == PagesOf(texts);
          documents := documents + [Document(pages, map["source_file" := Str(name), "well_names" := Str(Join(", ", wells))], Str(name))];
      }
      f := f + 1;
    }
    assert files[..f] == files;
  }

  // ---------------------------------------------------------------- properties

  /** The name of a match holds `-GT-`. */
  lemma NameHasGT(w: WellId)
    ensures Contains(Name(w), "-GT-")
  {
    ContainsMiddle(w.letters, "-GT-", w.digits + w.suffix);
    assert Name(w) == w.letters + "-GT-" + (w.digits + w.suffix);
  }

  /**
    The well names are sorted without duplicates; they are exactly the names
    the three patterns match, the spaced form rewritten with hyphens; and
    each holds `-GT-`.
  */
  lemma WellNamesMeaning(text: string, find: string -> WellMatches)
    ensures var names := WellNames(text, find);
      && StrictlySorted(names)
      && (forall i, j :: 0 <= i < j < |names| ==> names[i] != names[j])
      && forall x :: x in names <==>
           || (exists i :: 0 <= i < |find(text).standard| && x == Name(find(text).standard[i]))
           || (exists i :: 0 <= i < |find(text).naaldwijk| && x == Name(find(text).naaldwijk[i]))
           || (exists i :: 0 <= i < |find(text).spaced| && x == SpacedName(find(text).spaced[i].0, find(text).spaced[i].1))
  {
    var names := WellNames(text, find);
    var m := find(text);
    assert Elems(names) == Elems(NameList(m));
    forall i, j | 0 <= i < j < |names| ensures names[i] != names[j] {
      StrLessIrreflexive(names[i]);
    }
    forall x ensures x in names <==> x in StandardNames(m) || x in NaaldwijkNames(m) || x in SpacedNames(m) {
      assert x in names <==> x in Elems(NameList(m));
    }
    forall x ensures x in StandardNames(m) <==> exists i :: 0 <= i < |m.standard| && x == Name(m.standard[i]) {
      if exists i :: 0 <= i < |m.standard| && x == Name(m.standard[i]) {
        var i :| 0 <= i < |m.standard| && x == Name(m.standard[i]);
        assert StandardNames(m)[i] == x;
      }
    }
    forall x ensures x in NaaldwijkNames(m) <==> exists i :: 0 <= i < |m.naaldwijk| && x == Name(m.naaldwijk[i]) {
      if exists i :: 0 <= i < |m.naaldwijk| && x == Name(m.naaldwijk[i]) {
        var i :| 0 <= i < |m.naaldwijk| && x == Name(m.naaldwijk[i]);
        assert NaaldwijkNames(m)[i] == x;
      }
    }
    forall x ensures x in SpacedNames(m) <==> exists i :: 0 <= i < |m.spaced| && x == SpacedName(m.spaced[i].0, m.spaced[i].1) {
      if exists i :: 0 <= i < |m.spaced| && x == SpacedName(m.spaced[i].0, m.spaced[i].1) {
        var i :| 0 <= i < |m.spaced| && x == SpacedName(m.spaced[i].0, m.spaced[i].1);
        assert SpacedNames(m)[i] == x;
      }
    }
  }

  /** Every returned name holds `-GT-`. */
  lemma WellNamesHaveGT(text: string, find: string -> WellMatches)
    ensures forall x :: x in WellNames(text, find) ==> Contains(x, "-GT-")
  {
    var m := find(text);
    WellNamesMeaning(text, find);
    forall x | x in WellNames(text, find) ensures Contains(x, "-GT-") {
      if exists i :: 0 <= i < |m.standard| && x == Name(m.standard[i]) {
        var i :| 0 <= i < |m.standard| && x == Name(m.standard[i]);
        NameHasGT(m.standard[i]);
      } else if exists i :: 0 <= i < |m.naaldwijk| && x == Name(m.naaldwijk[i]) {
        var i :| 0 <= i < |m.naaldwijk| && x == Name(m.naaldwijk[i]);
        NameHasGT(m.naaldwijk[i]);
      } else {
        var i :| 0 <= i < |m.spaced| && x == SpacedName(m.spaced[i].0, m.spaced[i].1);
        NameHasGT(WellId(m.spaced[i].0, m.spaced[i].1, ""));
        assert Name(WellId(m.spaced[i].0, m.spaced[i].1, "")) == x;
      }
    }
  }

  /** `full_text` is the page texts joined with nothing between them. */
  lemma {:induction false} ConcatIsJoin(texts: seq<string>)
    ensures Concat(texts) == Join("", texts)
    decreases |texts|
  {
    if texts != [] {
      var init := texts[..|texts| - 1];
      ConcatIsJoin(init);
      JoinSnoc("", init, texts[|texts| - 1]);
      assert texts == init + [texts[|texts| - 1]];
    }
  }

  /**
    A document keeps its file's pages in order, numbered 1 to n; its
    metadata holds exactly the file's name and the ", "-joined well names
    of its whole text.
  */
  lemma DocumentMeaning(name: string, texts: seq<string>, find: string -> WellMatches)
    ensures var d := DocumentOf(name, texts, find);
      && |d.pages| == |texts|
      && (forall i :: 0 <= i < |texts| ==> d.pages[i].content == texts[i] && d.pages[i].number == i + 1)
      && d.metadata.Keys == {"source_file", "well_names"}
      && d.metadata["source_file"] == d.sourceFile == Str(name)
      && d.metadata["well_names"] == Str(Join(", ", WellNames(Join("", texts), find)))
  {
    ConcatIsJoin(texts);
  }

  /** Files are processed independently, in order: the documents of a list are those of its parts. */
  lemma {:induction false} ProcessedAppend(a: seq<SourceFile>, b: seq<SourceFile>, basename: string -> string, find: string -> WellMatches)
    ensures Processed(a + b, basename, find) == Processed(a, basename, find) + Processed(b, basename, find)
    decreases |b|
  {
    if b != [] {
      var b' := b[..|b| - 1];
      var last := DocumentsOf(b[|b| - 1], basename, find);
      assert (a + b)[..|a + b| - 1] == a + b';
      assert (a + b)[|a + b| - 1] == b[|b| - 1];
      calc {
        Processed(a + b, basename, find);
        Processed(a + b', basename, find) + last;
        { ProcessedAppend(a, b', basename, find); }
        Processed(a, basename, find) + Processed(b', basename, find) + last;
        Processed(a, basename, find) + Processed(b, basename, find);
      }
    } else {
      assert a + b == a;
    }
  }

  /** A file that cannot be read gives no document. */
  lemma FailedFileNoDocument(path: string, basename: string -> string, find: string -> WellMatches)
    ensures Processed([SourceFile(path, None)], basename, find) == []
  {
    assert [SourceFile(path, None)][..0] == [];
  }

  /** A file that cannot be read adds no document and does not stop the others. */
  lemma FailedFileSkipped(a: seq<SourceFile>, path: string, b: seq<SourceFile>, basename: string -> string, find: string -> WellMatches)
    ensures Processed(a + [SourceFile(path, None)] + b, basename, find) == Processed(a + b, basename, find)
  {
    var f := [SourceFile(path, None)];
    ProcessedAppend(a + f, b, basename, find);
    ProcessedAppend(a, f, basename, find);
    ProcessedAppend(a, b, basename, find);
    FailedFileNoDocument(path, basename, find);
  }

  /** The number of files the reader can read. */
  function Readable(files: seq<SourceFile>): nat {
    if files == [] then 0 else Readable(files[..|files| - 1]) + (if files[|files| - 1].pages.Some? then 1 else 0)
  }

  /** One document per readable file. */
  lemma {:induction false} ProcessedCount(files: seq<SourceFile>, basename: string -> string, find: string -> WellMatches)
    ensures |Processed(files, basename, find)| == Readable(files)
    decreases |files|
  {
    if files != [] {
      ProcessedCount(files[..|files| - 1], basename, find);
    }
  }

  /** Every document comes from one readable file. */
  lemma {:induction false} ProcessedFrom(files: seq<SourceFile>, basename: string -> string, find: string -> WellMatches)
    ensures forall d :: d in Processed(files, basename, find) ==>
      exists i :: 0 <= i < |files| && files[i].pages.Some? && d in DocumentsOf(files[i], basename, find)
    decreases |files|
  {
    if files != [] {
      var init := files[..|files| - 1];
      ProcessedFrom(init, basename, find);
      forall d | d in Processed(files, basename, find)
        ensures exists i :: 0 <= i < |files| && files[i].pages.Some? && d in DocumentsOf(files[i], basename, find)
      {
        if d in Processed(init, basename, find) {
          var i :| 0 <= i < |init| && init[i].pages.Some? && d in DocumentsOf(init[i], basename, find);
          assert files[i] == init[i];
        } else {
          assert d in DocumentsOf(files[|files| - 1], basename, find);
        }
      }
    }
  }
}
