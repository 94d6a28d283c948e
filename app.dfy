/**
  The application layer (`app_working.py`): the log window, query routing,
  the document store's bookkeeping when files are uploaded, the retried
  answer generation and the text the user is shown.

  The outside world enters as parameters: the clock as a timestamp, the
  PDF reader and the well patterns as in `Ingestion`, the retriever, the
  trajectory extractor, the chat model (`ask`), the judge (`validate`),
  `Path(...).stem` and the number formats.
*/
module App {
  import opened Wrappers
  import opened Strings
  import opened Sorting
  import opened Metadata
  import opened Driver
  import Ingestion
  import Retrieval
  import Trajectory

  // ---------------------------------------------------------------- log window

  const LogWindow := 50

  /** One log line. */
  function Entry(timestamp: string, level: string, message: string): string {
    "[" + timestamp + "] [" + level + "] " + message
  }

  /** `"\n".join(logs[-50:])` */
  function Recent(logs: seq<string>): string {
    Join("\n", Tail(logs, LogWindow))
  }

  class LogCapture {
    var logs: seq<string>

    constructor()
      ensures logs == []
    {
      logs := [];
    }

    /** `add(message, level)`: records the line and returns the window. */
    method Add(message: string, level: string, timestamp: string) returns (shown: string)
      modifies this
      ensures logs == old(logs) + [Entry(timestamp, level, message)]
      ensures shown == Recent(logs)
    {
      logs := logs + [Entry(timestamp, level, message)];
      shown := Join("\n", Tail(logs, LogWindow));
    }
  }

  /** The window shows the last 50 lines at most, oldest first, and ends with the line just added. */
  lemma RecentMeaning(logs: seq<string>, e: string)
    ensures var shown := Tail(logs + [e], LogWindow);
      && |shown| == Min(|logs| + 1, LogWindow)
      && shown[|shown| - 1] == e
      && forall i :: 0 <= i < |shown| ==> shown[i] == (logs + [e])[|logs| + 1 - |shown| + i]
    ensures EndsWith(Recent(logs + [e]), e)
  {
    var all := logs + [e];
    var shown := Tail(all, LogWindow);
    assert |all| == |logs| + 1;
    assert |shown| == Min(|all|, LogWindow);
    assert shown[|shown| - 1] == all[|all| - 1] == e;
    var init := shown[..|shown| - 1];
    assert shown == init + [e];
    JoinSnoc("\n", init, e);
    assert Recent(all) == Join("\n", shown);
  }

  // ---------------------------------------------------------------- routing

  datatype Mode = Extract | Summary | Qa

  predicate ExtractWords(q: string) {
    Contains(q, "extract") || Contains(q, "trajectory")
  }

  predicate SummaryWords(q: string) {
    Contains(q, "summary") || Contains(q, "summarize")
  }

  /** The mode of a query, from its lower-cased text. */
  function ModeOf(query: string): Mode {
    var q := Lower(query);
    if ExtractWords(q) then Extract else if SummaryWords(q) then Summary else Qa
  }

  /**
    The routing priority of the `if`/`elif` chain: an extraction word wins
    even when a summary word is present; a summary needs summary words and
    no extraction word; anything else is a question.
  */
  lemma ModeMeaning(query: string)
    ensures ModeOf(query) == Extract <==> ExtractWords(Lower(query))
    ensures ModeOf(query) == Summary <==> !ExtractWords(Lower(query)) && SummaryWords(Lower(query))
    ensures ModeOf(query) == Qa <==> !ExtractWords(Lower(query)) && !SummaryWords(Lower(query))
  {
  }

  /**
    `next(w for w in wells if w.upper() in query.upper())`, over the wells in
    the order the set yields them.
  */
  function TargetWell(order: seq<string>, query: string): Option<string>
    decreases |order|
  {
    if order == [] then None
    else if Contains(Upper(query), Upper(order[0])) then Some(order[0])
    else TargetWell(order[1..], query)
  }

  /** The target is the first well the query names, ignoring case, and there is none when it names none. */
  lemma {:induction false} TargetWellMeaning(order: seq<string>, query: string)
    ensures TargetWell(order, query).None? <==> forall i :: 0 <= i < |order| ==> !Contains(Upper(query), Upper(order[i]))
    ensures TargetWell(order, query).Some? ==>
      exists i :: 0 <= i < |order| && order[i] == TargetWell(order, query).value
        && Contains(Upper(query), Upper(order[i]))
        && forall j :: 0 <= j < i ==> !Contains(Upper(query), Upper(order[j]))
    decreases |order|
  {
    if order != [] && !Contains(Upper(query), Upper(order[0])) {
      TargetWellMeaning(order[1..], query);
      if TargetWell(order, query).Some? {
        var i :| 0 <= i < |order[1..]| && order[1..][i] == TargetWell(order, query).value
          && Contains(Upper(query), Upper(order[1..][i]))
          && forall j :: 0 <= j < i ==> !Contains(Upper(query), Upper(order[1..][j]));
        assert order[i + 1] == order[1..][i];
        forall j | 0 <= j < i + 1 ensures !Contains(Upper(query), Upper(order[j])) {
          if j > 0 {
            assert order[j] == order[1..][j - 1];
          }
        }
      }
      forall i | 0 < i < |order| ensures order[i] == order[1..][i - 1] {
      }
    }
  }

  // ---------------------------------------------------------------- the store

  /** The uploads whose basename is not indexed yet, in upload order. */
  function NewFiles(paths: seq<string>, indexed: set<string>, basename: string -> string): seq<string> {
    if paths == [] then []
    else
      NewFiles(paths[..|paths| - 1], indexed, basename)
      + (if basename(paths[|paths| - 1]) !in indexed then [paths[|paths| - 1]] else [])
  }

  function Basenames(paths: seq<string>, basename: string -> string): set<string> {
    set p | p in paths :: basename(p)
  }

  /** The files handed to ingestion, each with what the reader makes of it. */
  function SourceFiles(paths: seq<string>, read: string -> Option<seq<string>>): seq<Ingestion.SourceFile> {
    seq(|paths|, i requires 0 <= i < |paths| => Ingestion.SourceFile(paths[i], read(paths[i])))
  }

  /** `w.strip() for w in wells.split(',') if w.strip()`, for a string value, and nothing otherwise. */
  function WellSet(v: Value): set<string> {
    if v.Str? then set w | w in Split(v.s, ",") && Strip(w) != "" :: Strip(w) else {}
  }

  function WellsOfDocument(d: Document): set<string> {
    WellSet(Get(d.metadata, "well_names", Str("")))
  }

  /** The wells the store learns from some documents. */
  function DocsWells(docs: seq<Document>): set<string> {
    if docs == [] then {} else DocsWells(docs[..|docs| - 1]) + WellsOfDocument(docs[|docs| - 1])
  }

  datatype IndexOutcome = NoFiles | AlreadyIndexed | Indexed(files: nat) | IndexFailed

  class DocumentStore {
    var documents: seq<Document>
    var indexedFiles: set<string>
    var wells: set<string>
    /** `last_trajectory`: the points of the last extraction that found any (`None` is `[]`). */
    var lastTrajectory: seq<Trajectory.Point>

    /** Every stored document was uploaded under a recorded name, and its wells are known. */
    ghost predicate Valid()
      reads this
    {
      && (forall d :: d in documents ==> d.sourceFile.Str? && d.sourceFile.s in indexedFiles)
      && DocsWells(documents) <= wells
    }

    constructor()
      ensures Valid()
      ensures documents == [] && indexedFiles == {} && wells == {} && lastTrajectory == []
    {
      documents := [];
      indexedFiles := {};
      wells := {};
      lastTrajectory := [];
    }

    /** The loop that adds each document's wells. */
    method AddWells(docs: seq<Document>)
      modifies this
      ensures wells == old(wells) + DocsWells(docs)
      ensures documents == old(documents) && indexedFiles == old(indexedFiles) && lastTrajectory == old(lastTrajectory)
    {
      var i := 0;
      while i < |docs|
        invariant 0 <= i <= |docs|
        invariant wells == old(wells) + DocsWells(docs[..i])
        invariant documents == old(documents) && indexedFiles == old(indexedFiles) && lastTrajectory == old(lastTrajectory)
      {
        assert docs[..i + 1][..i] == docs[..i];
        var v := Get(docs[i].metadata, "well_names", Str(""));
        if v.Str? {
          wells := wells + (set w | w in Split(v.s, ",") && Strip(w) != "" :: Strip(w));
        }
        i := i + 1;
      }
      assert docs[..i] == docs;
    }

    /**
      `index_documents(files)`: the documents, indexed files and wells stay
      as they were without files, without new ones, or when preprocessing or
      the vector store fails (`storeOk` is false); otherwise the ingested
      documents are added, every new basename is recorded (also of a file the
      reader failed on) and their wells are learnt.
    */
    method IndexDocuments(paths: seq<string>, basename: string -> string, read: string -> Option<seq<string>>,
                          find: string -> Ingestion.WellMatches, storeOk: bool) returns (outcome: IndexOutcome)
      requires Valid()
      modifies this
      ensures Valid()
      ensures paths == [] ==> outcome == NoFiles
      ensures paths != [] && NewFiles(paths, old(indexedFiles), basename) == [] ==> outcome == AlreadyIndexed
      ensures outcome.Indexed? <==> paths != [] && NewFiles(paths, old(indexedFiles), basename) != [] && storeOk
      ensures !outcome.Indexed? ==> documents == old(documents) && indexedFiles == old(indexedFiles) && wells == old(wells)
      ensures lastTrajectory == old(lastTrajectory)
      ensures outcome.Indexed? ==>
        var newFiles := NewFiles(paths, old(indexedFiles), basename);
        var docs := Ingestion.Processed(SourceFiles(newFiles, read), basename, find);
        && outcome.files == |newFiles|
        && documents == old(documents) + docs
        && indexedFiles == old(indexedFiles) + Basenames(newFiles, basename)
        && wells == old(wells) + DocsWells(docs)
    {
      if paths == [] {
        return NoFiles;
      }
      var newFiles := NewFiles(paths, indexedFiles, basename);
      if newFiles == [] {
        return AlreadyIndexed;
      }
      var files := SourceFiles(newFiles, read);
      var docs := Ingestion.Process(files, basename, find);
      if !storeOk {
        return IndexFailed;
      }
      ghost var before := documents;
      var names := Basenames(newFiles, basename);
      documents := documents + docs;
      indexedFiles := indexedFiles + names;
      AddWells(docs);
      StoredDocumentsNamed(newFiles, read, basename, find);
      DocsWellsAppend(before, docs);
      outcome := Indexed(|newFiles|);
    }

    /**
      `query(user_query)`: the answer is `QueryAnswer` over the stored
      documents, with the store's wells in the order the set yields them;
      an extraction that finds points replaces `last_trajectory`, and
      nothing else in the store changes.
    */
    method Query(query: string, memoryContext: string, wellOrder: seq<string>,
                 retrieve: (string, Mode, Option<string>) -> seq<Retrieval.Retrieved>,
                 extract: seq<Retrieval.Retrieved> -> Trajectory.Extraction,
                 ask: (Prompt, nat, nat) -> GenReply,
                 validate: (string, seq<Retrieval.Retrieved>, string) -> Assessment,
                 fmt: Formats) returns (answer: string)
      requires Valid()
      requires forall w :: w in wellOrder <==> w in wells
      modifies this
      ensures Valid()
      ensures answer == QueryAnswer(documents, query, memoryContext, wellOrder, retrieve, extract, ask, validate, fmt)
      ensures documents == old(documents) && indexedFiles == old(indexedFiles) && wells == old(wells)
      ensures var e := extract(retrieve(query, Extract, TargetWell(wellOrder, query)));
        lastTrajectory == if documents != [] && ModeOf(query) == Extract && e.trajectory != [] then e.trajectory else old(lastTrajectory)
      ensures old(lastTrajectory) != [] ==> lastTrajectory != []
    {
      answer := QueryAnswer(documents, query, memoryContext, wellOrder, retrieve, extract, ask, validate, fmt);
      if documents != [] && ModeOf(query) == Extract {
        var e := extract(retrieve(query, Extract, TargetWell(wellOrder, query)));
        if e.trajectory != [] {
          lastTrajectory := e.trajectory;
        }
      }
    }
  }

  /** The wells of stored documents are those of each batch. */
  lemma {:induction false} DocsWellsAppend(a: seq<Document>, b: seq<Document>)
    ensures DocsWells(a + b) == DocsWells(a) + DocsWells(b)
    decreases |b|
  {
    if b == [] {
      assert a + b == a;
    } else {
      assert (a + b)[..|a + b| - 1] == a + b[..|b| - 1];
      DocsWellsAppend(a, b[..|b| - 1]);
    }
  }

  /** Every ingested document carries a name recorded for its batch. */
  lemma StoredDocumentsNamed(newFiles: seq<string>, read: string -> Option<seq<string>>, basename: string -> string,
                             find: string -> Ingestion.WellMatches)
    ensures forall d :: d in Ingestion.Processed(SourceFiles(newFiles, read), basename, find) ==>
      d.sourceFile.Str? && d.sourceFile.s in Basenames(newFiles, basename)
  {
    var files := SourceFiles(newFiles, read);
    Ingestion.ProcessedFrom(files, basename, find);
    forall d | d in Ingestion.Processed(files, basename, find)
      ensures d.sourceFile.Str? && d.sourceFile.s in Basenames(newFiles, basename)
    {
      var i :| 0 <= i < |files| && files[i].pages.Some? && d in Ingestion.DocumentsOf(files[i], basename, find);
      assert newFiles[i] in newFiles;
    }
  }

  /** The new files are the uploads not indexed yet, in order; there are none exactly when all are indexed. */
  lemma {:induction false} NewFilesMeaning(paths: seq<string>, indexed: set<string>, basename: string -> string)
    ensures var newFiles := NewFiles(paths, indexed, basename);
      && |newFiles| <= |paths|
      && (forall p :: p in newFiles <==> p in paths && basename(p) !in indexed)
      && (newFiles == [] <==> forall i :: 0 <= i < |paths| ==> basename(paths[i]) in indexed)
    decreases |paths|
  {
    if paths != [] {
      var init := paths[..|paths| - 1];
      NewFilesMeaning(init, indexed, basename);
      assert paths == init + [paths[|paths| - 1]];
      forall i | 0 <= i < |init| ensures init[i] == paths[i] {
      }
    }
  }

  // ---------------------------------------------------------------- wells round trip

  /** A name as the well patterns produce it: no comma, and no blank at either end. */
  predicate CleanName(n: string) {
    n != [] && ',' !in n && !IsSpace(n[0]) && !IsSpace(n[|n| - 1])
  }

  function Spaced(xs: seq<string>): seq<string> {
    seq(|xs|, i requires 0 <= i < |xs| => " " + xs[i])
  }

  lemma {:induction false} JoinSpaced(xs: seq<string>)
    requires xs != []
    ensures Join(",", Spaced(xs)) == " " + Join(", ", xs)
    decreases |xs|
  {
    if |xs| > 1 {
      JoinSpaced(xs[1..]);
      assert Spaced(xs) == [" " + xs[0]] + Spaced(xs[1..]);
      JoinCons(",", " " + xs[0], Spaced(xs[1..]));
      assert xs == [xs[0]] + xs[1..];
      JoinCons(", ", xs[0], xs[1..]);
    }
  }

  lemma StripSpaced(n: string)
    requires CleanName(n)
    ensures Strip(" " + n) == n
  {
    assert (" " + n)[1..] == n;
    StripUnchanged(n);
  }

  /** The pieces `Join(", ", names)` splits into at each comma. */
  function Parts(names: seq<string>): seq<string>
    requires names != []
  {
    [names[0]] + Spaced(names[1..])
  }

  lemma JoinParts(names: seq<string>)
    requires names != []
    ensures Join(", ", names) == Join([','], Parts(names))
  {
    if |names| > 1 {
      JoinSpaced(names[1..]);
      assert names == [names[0]] + names[1..];
      JoinCons(", ", names[0], names[1..]);
      JoinCons(",", names[0], Spaced(names[1..]));
    }
  }

  lemma PartsStrip(names: seq<string>)
    requires names != []
    requires forall i :: 0 <= i < |names| ==> CleanName(names[i])
    ensures |Parts(names)| == |names|
    ensures forall i :: 0 <= i < |names| ==> ',' !in Parts(names)[i] && Strip(Parts(names)[i]) == names[i]
  {
    var parts := Parts(names);
    forall i | 0 <= i < |names| ensures ',' !in parts[i] && Strip(parts[i]) == names[i] {
      if i == 0 {
        StripUnchanged(names[0]);
      } else {
        assert parts[i] == " " + names[i];
        StripSpaced(names[i]);
      }
    }
  }

  /**
    Reading back a document's `well_names` (split on commas, stripped, blanks
    dropped) gives exactly the names ingestion joined with ", ".
  */
  lemma IngestedWells(names: seq<string>)
    requires forall i :: 0 <= i < |names| ==> CleanName(names[i])
    ensures WellSet(Str(Join(", ", names))) == Elems(names)
  {
    if names == [] {
      assert Split("", ",") == [""];
    } else {
      var parts := Parts(names);
      JoinParts(names);
      PartsStrip(names);
      SplitJoin(parts, ',');
      assert Split(Join(", ", names), ",") == parts;
      StrippedParts(parts, names);
    }
  }

  lemma StrippedParts(parts: seq<string>, names: seq<string>)
    requires |parts| == |names|
    requires forall i :: 0 <= i < |names| ==> Strip(parts[i]) == names[i] && names[i] != ""
    ensures (set w | w in parts && Strip(w) != "" :: Strip(w)) == Elems(names)
  {
    forall x ensures x in (set w | w in parts && Strip(w) != "" :: Strip(w)) <==> x in names {
      if x in names {
        var i :| 0 <= i < |names| && names[i] == x;
        assert parts[i] in parts;
      }
    }
  }

  /** A stored document teaches the store exactly its well names, when they are clean. */
  lemma DocumentWells(name: string, texts: seq<string>, find: string -> Ingestion.WellMatches)
    requires forall n :: n in Ingestion.WellNames(Ingestion.Concat(texts), find) ==> CleanName(n)
    ensures WellsOfDocument(Ingestion.DocumentOf(name, texts, find)) == Elems(Ingestion.WellNames(Ingestion.Concat(texts), find))
  {
    IngestedWells(Ingestion.WellNames(Ingestion.Concat(texts), find));
  }

  // ---------------------------------------------------------------- generation

  /** What the chat model's endpoint does with a request: its `response` field (if any), a timeout, or another failure. */
  datatype GenReply = Generated(response: Option<string>) | GenTimeout | GenFailed(message: string)

  datatype Generation = Got(answer: string) | AllTimedOut | Crashed(message: string)

  /** The varying parts of the prompt. */
  datatype Prompt = Prompt(mode: Mode, memory: string, query: string, context: string)

  const MaxRetries := 2
  const RetryExtra := 300

  function InitialTimeout(mode: Mode): nat {
    if mode == Summary then 900 else 300
  }

  function MaxTokens(mode: Mode): nat {
    if mode == Summary then 450 else 300
  }

  /** The retry loop from attempt `attempt` on, whose request will wait `timeout` seconds. */
  function GenerateFrom(p: Prompt, ask: (Prompt, nat, nat) -> GenReply, attempt: nat, timeout: nat): Generation
    decreases MaxRetries - attempt
  {
    if attempt >= MaxRetries then AllTimedOut
    else match ask(p, attempt, timeout)
      case Generated(r) => Got(Strip(r.GetOr("No response")))
      case GenFailed(m) => Crashed(m)
      case GenTimeout =>
        if attempt < MaxRetries - 1 then GenerateFrom(p, ask, attempt + 1, timeout + RetryExtra) else AllTimedOut
  }

  /** The timeouts of the requests the retry loop makes, in order. */
  function Timeouts(p: Prompt, ask: (Prompt, nat, nat) -> GenReply, attempt: nat, timeout: nat): seq<nat>
    decreases MaxRetries - attempt
  {
    if attempt >= MaxRetries then []
    else [timeout] + (if ask(p, attempt, timeout).GenTimeout? && attempt < MaxRetries - 1
                      then Timeouts(p, ask, attempt + 1, timeout + RetryExtra) else [])
  }

  method Generate(p: Prompt, ask: (Prompt, nat, nat) -> GenReply) returns (g: Generation, timeouts: seq<nat>)
    ensures g == GenerateFrom(p, ask, 0, InitialTimeout(p.mode))
    ensures timeouts == Timeouts(p, ask, 0, InitialTimeout(p.mode))
  {
    var timeout := InitialTimeout(p.mode);
    timeouts := [];
    var attempt := 0;
    while attempt < MaxRetries
      invariant 0 <= attempt <= MaxRetries
      invariant GenerateFrom(p, ask, 0, InitialTimeout(p.mode)) == GenerateFrom(p, ask, attempt, timeout)
      invariant Timeouts(p, ask, 0, InitialTimeout(p.mode)) == timeouts + Timeouts(p, ask, attempt, timeout)
    {
      timeouts := timeouts + [timeout];
      var reply := ask(p, attempt, timeout);
      match reply {
        case Generated(response) =>
          g := Got(Strip(response.GetOr("No response")));
          return;
        case GenFailed(message) =>
          g := Crashed(message);
          return;
        case GenTimeout =>
          if attempt < MaxRetries - 1 {
            timeout := timeout + RetryExtra;
            attempt := attempt + 1;
          } else {
            g := AllTimedOut;
            return;
          }
      }
    }
    g := AllTimedOut;
  }

  /**
    At most two requests: the first waits the mode's timeout, a second one
    is made only after a timeout and waits 300 seconds longer, and the loop
    gives up exactly when both time out.
  */
  lemma RetryBudget(p: Prompt, ask: (Prompt, nat, nat) -> GenReply, t0: nat)
    ensures var ts := Timeouts(p, ask, 0, t0);
      && 1 <= |ts| <= MaxRetries
      && ts[0] == t0
      && (|ts| == 2 <==> ask(p, 0, t0).GenTimeout?)
      && (|ts| == 2 ==> ts[1] == t0 + RetryExtra)
    ensures GenerateFrom(p, ask, 0, t0) == AllTimedOut <==> ask(p, 0, t0).GenTimeout? && ask(p, 1, t0 + RetryExtra).GenTimeout?
  {
  }

  // ---------------------------------------------------------------- answers

  const UploadFirst := "Please upload documents first."
  const Warning := "\U{26A0}\U{FE0F}"
  const TimeoutMessage := Warning + " Timed out. Try simpler query or specify well name."
  const NoAnswerMessage := Warning + " No answer generated"
  const NoTrajectoryMessage := Warning + " No trajectory found in retrieved chunks.\n\nTry:\n\U{2022} More specific query: 'Extract trajectory table from HAG-GT-01'\n\U{2022} Check if document contains trajectory data"

  /** The formats `:.1f`, `:.3f` and `:.0%`, and `Path(x).stem`. */
  datatype Formats = Formats(fixed1: real -> string, fixed3: real -> string, percent: real -> string, stem: Value -> string)

  /** What the judge says of an answer: `is_valid`, `confidence`, `flagged_issues`. */
  datatype Assessment = Assessment(isValid: bool, confidence: real, flagged: seq<string>)

  const MaxRows := 20

  function Row(pt: Trajectory.Point, fmt: Formats): string {
    "| " + fmt.fixed1(pt.md) + " | " + fmt.fixed1(pt.tvd) + " | " + fmt.fixed3(pt.id) + " |\n"
  }

  /** The table rows: the first 20 points. */
  function Rows(points: seq<Trajectory.Point>, fmt: Formats): (rows: seq<string>)
    ensures |rows| == Min(|points|, MaxRows)
  {
    seq(Min(|points|, MaxRows), i requires 0 <= i < Min(|points|, MaxRows) => Row(points[i], fmt))
  }

  /** `traj.get('source_chunks', 0)`: an absent count shows as 0. */
  function SourcesText(n: Option<nat>): string {
    match n
    case Some(k) => NatToString(k)
    case None => "0"
  }

  function TableHead(e: Trajectory.Extraction, fmt: Formats): string {
    "**Trajectory Extracted:** " + NatToString(|e.trajectory|) + " points\n\n"
    + "**Confidence:** " + fmt.percent(e.confidence) + "\n"
    + "**Sources:** " + SourcesText(e.sourceChunks) + " chunks analyzed\n\n"
    + "| MD (m) | TVD (m) | ID (m) |\n|--------|---------|--------|\n"
  }

  function Note(n: nat): string {
    if n > MaxRows then "\n*Showing 20 of " + NatToString(n) + " points*" else ""
  }

  function TableText(e: Trajectory.Extraction, fmt: Formats): string {
    TableHead(e, fmt) + Join("", Rows(e.trajectory, fmt)) + Note(|e.trajectory|)
  }

  /** The extract-mode answer. */
  function ExtractAnswer(e: Trajectory.Extraction, fmt: Formats): string {
    if e.trajectory != [] then TableText(e, fmt) else NoTrajectoryMessage
  }

  /** The loop over the first 20 points. */
  method RenderRows(points: seq<Trajectory.Point>, fmt: Formats) returns (body: string)
    ensures body == Join("", Rows(points, fmt))
  {
    ghost var rows := Rows(points, fmt);
    var shown := Take(points, MaxRows);
    body := "";
    var i := 0;
    while i < |shown|
      invariant 0 <= i <= |shown| == |rows|
      invariant body == Join("", rows[..i])
    {
      JoinSnoc("", rows[..i], rows[i]);
      assert rows[..i + 1] == rows[..i] + [rows[i]];
      body := body + Row(shown[i], fmt);
      i := i + 1;
    }
    assert rows[..i] == rows;
  }

  method RenderTable(e: Trajectory.Extraction, fmt: Formats) returns (answer: string)
    ensures answer == TableText(e, fmt)
  {
    var body := RenderRows(e.trajectory, fmt);
    answer := TableHead(e, fmt) + body;
    if |e.trajectory| > MaxRows {
      answer := answer + "\n*Showing 20 of " + NatToString(|e.trajectory|) + " points*";
    }
  }

  /** The last of the rows ends the row text. */
  lemma RowsEnd(rows: seq<string>)
    requires rows != []
    ensures EndsWith(Join("", rows), rows[|rows| - 1])
  {
    var init := rows[..|rows| - 1];
    var last := rows[|rows| - 1];
    assert rows == init + [last];
    JoinSnoc("", init, last);
    if init == [] {
      assert Join("", rows) == last;
      EndsWithAppend([], last);
    } else {
      assert Join("", rows) == (Join("", init) + "") + last;
      EndsWithAppend(Join("", init) + "", last);
    }
  }

  /** The table of a trajectory ends with the "Showing 20 of N points" note exactly when it has more than 20 points. */
  lemma TableNote(e: Trajectory.Extraction, fmt: Formats)
    requires e.trajectory != []
    ensures EndsWith(TableText(e, fmt), " points*") <==> |e.trajectory| > MaxRows
  {
    var t := TableText(e, fmt);
    if |e.trajectory| <= MaxRows {
      var rows := Rows(e.trajectory, fmt);
      RowsEnd(rows);
      var last := rows[|rows| - 1];
      assert last[|last| - 1] == '\n';
      assert t == TableHead(e, fmt) + Join("", rows);
      assert t[|t| - 1] == '\n';
    }
  }

  /** `answer` with the judge's note: unchanged when valid, otherwise followed by the confidence and the first two issues. */
  function Annotated(answer: string, v: Assessment, fmt: Formats): string {
    if v.isValid then answer
    else
      answer + "\n\n### " + Warning + " Validation\n" + "Confidence: " + fmt.percent(v.confidence) + "\n"
      + (if v.flagged != [] then "Issues: " + Join(", ", Take(v.flagged, 2)) else "")
  }

  /** A valid answer is shown as it is; an invalid one is extended, listing at most two issues. */
  lemma AnnotatedMeaning(answer: string, v: Assessment, fmt: Formats)
    ensures v.isValid ==> Annotated(answer, v, fmt) == answer
    ensures !v.isValid ==> answer < Annotated(answer, v, fmt)
    ensures !v.isValid && v.flagged != [] ==> EndsWith(Annotated(answer, v, fmt), "Issues: " + Join(", ", Take(v.flagged, 2)))
    ensures !v.isValid && v.flagged == [] ==> EndsWith(Annotated(answer, v, fmt), "\n")
  {
  }

  /** The context block of one retrieved chunk. */
  function ChunkBlock(c: Retrieval.Retrieved, width: nat, fmt: Formats): string {
    "[" + fmt.stem(Get(c.metadata, "source_file", Str("Unknown"))) + ", p."
    + ToStr(Get(c.metadata, "page_number", Str("?"))) + "]\n" + Take(c.content, width)
  }

  /** Summaries read the first 15 chunks, 400 characters each; answers the first 10, 700 each. */
  function ModeContext(mode: Mode, chunks: seq<Retrieval.Retrieved>, fmt: Formats): string {
    var n := if mode == Summary then 15 else 10;
    var width := if mode == Summary then 400 else 700;
    Join("\n\n", seq(Min(|chunks|, n), i requires 0 <= i < Min(|chunks|, n) => ChunkBlock(chunks[i], width, fmt)))
  }

  /**
    `query(user_query)`, the answer text: the mode decides between the
    trajectory table and a generated answer checked by the judge.
    `wellOrder` is the store's wells in the order the set yields them.
  */
  function QueryAnswer(documents: seq<Document>, query: string, memoryContext: string, wellOrder: seq<string>,
                       retrieve: (string, Mode, Option<string>) -> seq<Retrieval.Retrieved>,
                       extract: seq<Retrieval.Retrieved> -> Trajectory.Extraction,
                       ask: (Prompt, nat, nat) -> GenReply,
                       validate: (string, seq<Retrieval.Retrieved>, string) -> Assessment,
                       fmt: Formats): string
  {
    if documents == [] then UploadFirst
    else
      var mode := ModeOf(query);
      var chunks := retrieve(query, mode, TargetWell(wellOrder, query));
      if mode == Extract then ExtractAnswer(extract(chunks), fmt)
      else
        var p := Prompt(mode, Take(memoryContext, 300), query, ModeContext(mode, chunks, fmt));
        match GenerateFrom(p, ask, 0, InitialTimeout(mode))
        case AllTimedOut => TimeoutMessage
        case Crashed(m) => "Error: " + m
        case Got(a) => if a == "" then NoAnswerMessage else Annotated(a, validate(a, chunks, query), fmt)
  }

  /** With no documents the answer asks for an upload, whatever the retriever, model or judge would do. */
  lemma NoDocumentsNoRetrieval(query: string, memoryContext: string, wellOrder: seq<string>,
                               retrieve1: (string, Mode, Option<string>) -> seq<Retrieval.Retrieved>,
                               retrieve2: (string, Mode, Option<string>) -> seq<Retrieval.Retrieved>,
                               extract: seq<Retrieval.Retrieved> -> Trajectory.Extraction,
                               ask: (Prompt, nat, nat) -> GenReply,
                               validate: (string, seq<Retrieval.Retrieved>, string) -> Assessment, fmt: Formats)
    ensures QueryAnswer([], query, memoryContext, wellOrder, retrieve1, extract, ask, validate, fmt) == UploadFirst
    ensures QueryAnswer([], query, memoryContext, wellOrder, retrieve1, extract, ask, validate, fmt)
         == QueryAnswer([], query, memoryContext, wellOrder, retrieve2, extract, ask, validate, fmt)
  {
  }

  /** An extraction query is answered with the table of what the extractor finds, without the chat model or the judge. */
  lemma ExtractNeverGenerates(documents: seq<Document>, query: string, memoryContext: string, wellOrder: seq<string>,
                              retrieve: (string, Mode, Option<string>) -> seq<Retrieval.Retrieved>,
                              extract: seq<Retrieval.Retrieved> -> Trajectory.Extraction,
                              ask1: (Prompt, nat, nat) -> GenReply, ask2: (Prompt, nat, nat) -> GenReply,
                              validate1: (string, seq<Retrieval.Retrieved>, string) -> Assessment,
                              validate2: (string, seq<Retrieval.Retrieved>, string) -> Assessment, fmt: Formats)
    requires documents != [] && ExtractWords(Lower(query))
    ensures QueryAnswer(documents, query, memoryContext, wellOrder, retrieve, extract, ask1, validate1, fmt)
         == QueryAnswer(documents, query, memoryContext, wellOrder, retrieve, extract, ask2, validate2, fmt)
         == ExtractAnswer(extract(retrieve(query, Extract, TargetWell(wellOrder, query))), fmt)
  {
  }

  /** A question whose two requests both time out is answered with the timeout message. */
  lemma TimeoutAnswer(documents: seq<Document>, query: string, memoryContext: string, wellOrder: seq<string>,
                      retrieve: (string, Mode, Option<string>) -> seq<Retrieval.Retrieved>,
                      extract: seq<Retrieval.Retrieved> -> Trajectory.Extraction,
                      ask: (Prompt, nat, nat) -> GenReply,
                      validate: (string, seq<Retrieval.Retrieved>, string) -> Assessment, fmt: Formats)
    requires documents != [] && !ExtractWords(Lower(query))
    requires forall p: Prompt, a: nat, t: nat :: ask(p, a, t).GenTimeout?
    ensures QueryAnswer(documents, query, memoryContext, wellOrder, retrieve, extract, ask, validate, fmt) == TimeoutMessage
  {
    var mode := ModeOf(query);
    var chunks := retrieve(query, mode, TargetWell(wellOrder, query));
    var p := Prompt(mode, Take(memoryContext, 300), query, ModeContext(mode, chunks, fmt));
    RetryBudget(p, ask, InitialTimeout(mode));
  }
}
