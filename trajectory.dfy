/**
  `ParameterExtractionAgent`: finds the chunks that look like a well
  trajectory table, harvests (MD, TVD, ID) triples from them, falls back to
  asking a language model for comma-separated triples, and cleans the result
  into a strictly deepening path of at most 100 points.

  Regular-expression searches and `findall` results enter as function
  parameters (`search`, `pairs`, `matches`), and so do `float()` of a field
  (`parse`), `round(x, 1)` (`roundKey`) and the model (`ask`).
*/
module Trajectory {
  import opened Wrappers
  import opened Strings
  import opened Sorting
  import opened Validation

  /** A trajectory point: measured depth, true vertical depth, inner diameter. */
  datatype Point = Point(md: real, tvd: real, id: real)

  // ---------------------------------------------------------------- table detection

  /** The five cue patterns, in the order the agent tries them. */
  datatype Cue =
    | DepthCue          // measured depth, `MD` or `depth (m)`, any case
    | VerticalDepthCue  // true vertical depth or `TVD`, any case
    | AngleCue          // inclination, azimuth or angle, any case
    | HeaderCue         // an `MD TVD Incl` header
    | TripleCue         // three decimals in a row, such as `1000.5 950.2 15.3`

  const Cues: seq<Cue> := [DepthCue, VerticalDepthCue, AngleCue, HeaderCue, TripleCue]

  /** The most chunks the detector returns. */
  const MaxCandidates := 15

  /** The number of the first `n` cues that `search` finds in the chunk. */
  function CueCount(content: string, search: (Cue, string) -> bool, n: nat): nat
    requires n <= |Cues|
  {
    if n == 0 then 0
    else CueCount(content, search, n - 1) + (if search(Cues[n - 1], content) then 1 else 0)
  }

  /** Two points for a chunk with table structure: a `|` or a tab. */
  function TableBonus(content: string): nat {
    if '|' in content || '\t' in content then 2 else 0
  }

  /**
    The score of a chunk: one per cue found, the table bonus, and the number
    of numeric pairs (`pairs`, the length of a `findall`) up to 5.
  */
  function Score(content: string, search: (Cue, string) -> bool, pairs: string -> nat): nat {
    CueCount(content, search, |Cues|) + TableBonus(content) + Min(pairs(content), 5)
  }

  /** The score loop of `_detect_trajectory_tables` for one chunk. */
  method ScoreChunk(content: string, search: (Cue, string) -> bool, pairs: string -> nat) returns (score: nat)
    ensures score == Score(content, search, pairs)
  {
    score := 0;
    var k := 0;
    while k < |Cues|
      invariant 0 <= k <= |Cues|
      invariant score == CueCount(content, search, k)
    {
      if search(Cues[k], content) {
        score := score + 1;
      }
      k := k + 1;
    }
    if '|' in content || '\t' in content {
      score := score + 2;
    }
    score := score + Min(pairs(content), 5);
  }

  /** A chunk that scored at least 3, with its score. */
  datatype Candidate = Candidate(content: string, score: nat)

  /** The candidates among the first `n` chunks, in chunk order. */
  function Scored(contents: seq<string>, n: nat, search: (Cue, string) -> bool, pairs: string -> nat): seq<Candidate>
    requires n <= |contents|
  {
    if n == 0 then []
    else
      var s := Score(contents[n - 1], search, pairs);
      Scored(contents, n - 1, search, pairs) + (if s >= 3 then [Candidate(contents[n - 1], s)] else [])
  }

  /** The sort key of `sort(key=score, reverse=True)`. */
  function NegScore(c: Candidate): real {
    -(c.score as real)
  }

  /** The first 15 candidates after a stable sort by descending score. */
  function Ranked(contents: seq<string>, search: (Cue, string) -> bool, pairs: string -> nat): seq<Candidate> {
    Take(SortBy(Scored(contents, |contents|, search, pairs), NegScore), MaxCandidates)
  }

  function ContentsOf(cs: seq<Candidate>): (r: seq<string>)
    ensures |r| == |cs|
    ensures forall i :: 0 <= i < |r| ==> r[i] == cs[i].content
  {
    seq(|cs|, i requires 0 <= i < |cs| => cs[i].content)
  }

  /** `_detect_trajectory_tables`: the chunks (by content) of the ranked candidates. */
  function Detect(contents: seq<string>, search: (Cue, string) -> bool, pairs: string -> nat): seq<string> {
    ContentsOf(Ranked(contents, search, pairs))
  }

  method DetectTrajectoryTables(contents: seq<string>, search: (Cue, string) -> bool, pairs: string -> nat)
    returns (r: seq<string>)
    ensures r == Detect(contents, search, pairs)
  {
    var scored: seq<Candidate> := [];
    var i := 0;
    while i < |contents|
      invariant 0 <= i <= |contents|
      invariant scored == Scored(contents, i, search, pairs)
    {
      var score := ScoreChunk(contents[i], search, pairs);
      if score >= 3 {
        scored := scored + [Candidate(contents[i], score)];
      }
      i := i + 1;
    }
    var sorted := SortBy(scored, NegScore);
    r := ContentsOf(Take(sorted, MaxCandidates));
  }

  // ---------------------------------------------------------------- harvesting triples

  /** One `findall` match of three numbers: MD, TVD, and an inclination or diameter. */
  datatype Triple = Triple(md: Decimal, tvd: Decimal, third: Decimal)

  /** The matches of the `|`-separated pattern and of the line-start, space-separated pattern. */
  datatype PointMatches = PointMatches(table: seq<Triple>, spaced: seq<Triple>)

  /** A third number of 90 or more is an inclination, not a diameter: it becomes 0. */
  function IdOf(third: real): real {
    if third < 90.0 then third else 0.0
  }

  function PointOf(t: Triple): Point {
    Point(t.md, t.tvd, IdOf(t.third))
  }

  /** Space-separated matches need TVD ≤ MD and MD below 5000; table matches need nothing. */
  predicate Admits(t: Triple, guarded: bool) {
    !guarded || (t.tvd <= t.md && t.md < 5000.0)
  }

  /** The points of the first `n` matches. */
  function Harvest(ts: seq<Triple>, n: nat, guarded: bool): seq<Point>
    requires n <= |ts|
  {
    if n == 0 then []
    else Harvest(ts, n - 1, guarded) + (if Admits(ts[n - 1], guarded) then [PointOf(ts[n - 1])] else [])
  }

  /** `_extract_trajectory_points`: the table points, then the space-separated ones. */
  function PointsOf(m: PointMatches): seq<Point> {
    Harvest(m.table, |m.table|, false) + Harvest(m.spaced, |m.spaced|, true)
  }

  /** One of the two `for md, tvd, inc_or_id in matches` loops. */
  method HarvestMatches(ts: seq<Triple>, guarded: bool) returns (points: seq<Point>)
    ensures points == Harvest(ts, |ts|, guarded)
  {
    points := [];
    var i := 0;
    while i < |ts|
      invariant 0 <= i <= |ts|
      invariant points == Harvest(ts, i, guarded)
    {
      var t := ts[i];
      if !guarded || (t.tvd <= t.md && t.md < 5000.0) {
        points := points + [Point(t.md, t.tvd, if t.third < 90.0 then t.third else 0.0)];
      }
      i := i + 1;
    }
  }

  method ExtractTrajectoryPoints(m: PointMatches) returns (points: seq<Point>)
    ensures points == PointsOf(m)
  {
    points := HarvestMatches(m.table, false);
    var spaced := HarvestMatches(m.spaced, true);
    points := points + spaced;
  }

  // ---------------------------------------------------------------- the language-model fallback

  /** The default inner diameter of a line with two fields. */
  const DefaultId := 0.216

  /** The parts of the fallback prompt that vary: the model and the context. */
  datatype LlmRequest = LlmRequest(model: string, context: string)

  /** The prompt context: the first 800 characters of each of the first 3 chunks, blank-line separated. */
  function LlmContext(contents: seq<string>): string {
    var shown := Take(contents, 3);
    Join("\n\n", seq(|shown|, i requires 0 <= i < |shown| => Take(shown[i], 800)))
  }

  /**
    The point of one reply line, if any: the line must have a comma, and its
    first two comma-separated fields (and the third, when there is one) must
    parse as numbers.
  */
  function LinePoint(line: string, parse: string -> Option<real>): Option<Point> {
    if ',' !in line then None
    else
      var parts := Split(Strip(line), ",");
      if |parts| < 2 then None
      else
        var md := parse(parts[0]);
        var tvd := parse(parts[1]);
        var id := if |parts| > 2 then parse(parts[2]) else Some(DefaultId);
        if md.Some? && tvd.Some? && id.Some? then Some(Point(md.value, tvd.value, id.value)) else None
  }

  /** What each reply line yields. */
  function LinePoints(lines: seq<string>, parse: string -> Option<real>): seq<Option<Point>> {
    seq(|lines|, i requires 0 <= i < |lines| => LinePoint(lines[i], parse))
  }

  /** The values present among the first `n` options, in order. */
  function Present<T>(opts: seq<Option<T>>, n: nat): seq<T>
    requires n <= |opts|
  {
    if n == 0 then [] else Present(opts, n - 1) + (if opts[n - 1].Some? then [opts[n - 1].value] else [])
  }

  /** The points of the first `n` lines. */
  function Parsed(lines: seq<string>, n: nat, parse: string -> Option<real>): seq<Point>
    requires n <= |lines|
  {
    Present(LinePoints(lines, parse), n)
  }

  /** The points of a reply; a timeout or any other failure gives none. The status is not looked at. */
  function ReplyPoints(reply: Reply, parse: string -> Option<real>): seq<Point> {
    match reply
    case Answered(_, response) => Parsed(Lines(response), |Lines(response)|, parse)
    case _ => []
  }

  /** The parsing loop of `_llm_extract_trajectory`. */
  method ParseReply(reply: Reply, parse: string -> Option<real>) returns (points: seq<Point>)
    ensures points == ReplyPoints(reply, parse)
  {
    points := [];
    if reply.Answered? {
      var lines := Lines(reply.response);
      var i := 0;
      while i < |lines|
        invariant 0 <= i <= |lines|
        invariant points == Parsed(lines, i, parse)
      {
        var p := LinePoint(lines[i], parse);
        if p.Some? {
          points := points + [p.value];
        }
        i := i + 1;
      }
    }
  }

  // ---------------------------------------------------------------- cleaning

  /** The most points a trajectory keeps. */
  const MaxPoints := 100

  /** The duplicate key `(round(MD, 1), round(TVD, 1))`. */
  function Key(p: Point, roundKey: real -> real): (real, real) {
    (roundKey(p.md), roundKey(p.tvd))
  }

  /** No point before index `i` has the key of `ps[i]`. */
  predicate FirstOfKey(ps: seq<Point>, i: nat, roundKey: real -> real)
    requires i < |ps|
  {
    forall j :: 0 <= j < i ==> Key(ps[j], roundKey) != Key(ps[i], roundKey)
  }

  /** The first point of each key among the first `n`, in input order. */
  function Dedup(ps: seq<Point>, n: nat, roundKey: real -> real): seq<Point>
    requires n <= |ps|
  {
    if n == 0 then []
    else Dedup(ps, n - 1, roundKey) + (if FirstOfKey(ps, n - 1, roundKey) then [ps[n - 1]] else [])
  }

  function Md(p: Point): real {
    p.md
  }

  /**
    The points kept by the walk in MD order: a point is kept when it is
    deeper than the last kept one (`prev` at first) and its TVD is at most its MD.
  */
  function Ascending(s: seq<Point>, prev: real): seq<Point>
    decreases |s|
  {
    if s == [] then []
    else if s[0].md > prev && s[0].tvd <= s[0].md then [s[0]] + Ascending(s[1..], s[0].md)
    else Ascending(s[1..], prev)
  }

  /** `_clean_trajectory` */
  function Clean(ps: seq<Point>, roundKey: real -> real): seq<Point> {
    Take(Ascending(SortBy(Dedup(ps, |ps|, roundKey), Md), 0.0), MaxPoints)
  }

  /** The `seen` pass: the first point of each key, in input order. */
  method DedupPass(ps: seq<Point>, roundKey: real -> real) returns (cleaned: seq<Point>)
    ensures cleaned == Dedup(ps, |ps|, roundKey)
  {
    var seen: set<(real, real)> := {};
    cleaned := [];
    var i := 0;
    while i < |ps|
      invariant 0 <= i <= |ps|
      invariant seen == set j | 0 <= j < i :: Key(ps[j], roundKey)
      invariant cleaned == Dedup(ps, i, roundKey)
    {
      var key := (roundKey(ps[i].md), roundKey(ps[i].tvd));
      assert key !in seen <==> FirstOfKey(ps, i, roundKey);
      if key !in seen {
        seen := seen + {key};
        cleaned := cleaned + [ps[i]];
      }
      assert (set j | 0 <= j < i + 1 :: Key(ps[j], roundKey)) == (set j | 0 <= j < i :: Key(ps[j], roundKey)) + {key};
      i := i + 1;
    }
  }

  /** The `prev_md` pass over the points in MD order. */
  method AscendPass(sorted: seq<Point>) returns (final: seq<Point>)
    ensures final == Ascending(sorted, 0.0)
  {
    final := [];
    var prev := 0.0;
    var k := 0;
    while k < |sorted|
      invariant 0 <= k <= |sorted|
      invariant final + Ascending(sorted[k..], prev) == Ascending(sorted, 0.0)
    {
      var p := sorted[k];
      assert sorted[k..][1..] == sorted[k + 1..];
      if p.md > prev && p.tvd <= p.md {
        final := final + [p];
        prev := p.md;
      }
      k := k + 1;
    }
    assert sorted[k..] == [];
  }

  method CleanTrajectory(ps: seq<Point>, roundKey: real -> real) returns (r: seq<Point>)
    ensures r == Clean(ps, roundKey)
  {
    var cleaned := DedupPass(ps, roundKey);
    // `cleaned.sort(key=MD)`
    var sorted := SortBy(cleaned, Md);
    var final := AscendPass(sorted);
    r := Take(final, MaxPoints);
  }

  // ---------------------------------------------------------------- extract

  /** The result of `extract`; `sourceChunks` is absent when no table was detected. */
  datatype Extraction = Extraction(trajectory: seq<Point>, confidence: real, sourceChunks: Option<nat>)

  /** `min(0.9, n / 50)` */
  function Confidence(n: nat): real {
    if 0.9 <= n as real / 50.0 then 0.9 else n as real / 50.0
  }

  /** The regex harvest of the first `n` chunks, in chunk order. */
  function HarvestAll(contents: seq<string>, n: nat, matches: string -> PointMatches): seq<Point>
    requires n <= |contents|
  {
    if n == 0 then [] else HarvestAll(contents, n - 1, matches) + PointsOf(matches(contents[n - 1]))
  }

  /** The regex pass over the top 10 candidates. */
  function RegexPoints(candidates: seq<string>, matches: string -> PointMatches): seq<Point> {
    HarvestAll(Take(candidates, 10), |Take(candidates, 10)|, matches)
  }

  /** The points before cleaning: the regex harvest, or the model's when that is empty. */
  function RawPoints(candidates: seq<string>, matches: string -> PointMatches, model: string,
                     ask: LlmRequest -> Reply, parse: string -> Option<real>): seq<Point>
  {
    var harvested := RegexPoints(candidates, matches);
    if harvested != [] then harvested
    else ReplyPoints(ask(LlmRequest(model, LlmContext(Take(candidates, 5)))), parse)
  }

  /** `extract(chunks)`, the chunks given by their contents. */
  function Extracted(contents: seq<string>, search: (Cue, string) -> bool, pairs: string -> nat,
                     matches: string -> PointMatches, model: string, ask: LlmRequest -> Reply,
                     parse: string -> Option<real>, roundKey: real -> real): Extraction
  {
    var candidates := Detect(contents, search, pairs);
    if candidates == [] then Extraction([], 0.0, None)
    else
      var t := Clean(RawPoints(candidates, matches, model, ask, parse), roundKey);
      Extraction(t, Confidence(|t|), Some(|candidates|))
  }

  /** The regex loop over the candidate chunks. */
  method HarvestChunks(top: seq<string>, matches: string -> PointMatches) returns (points: seq<Point>)
    ensures points == HarvestAll(top, |top|, matches)
  {
    points := [];
    var i := 0;
    while i < |top|
      invariant 0 <= i <= |top|
      invariant points == HarvestAll(top, i, matches)
    {
      var found := ExtractTrajectoryPoints(matches(top[i]));
      points := points + found;
      i := i + 1;
    }
  }

  method Extract(contents: seq<string>, search: (Cue, string) -> bool, pairs: string -> nat,
                 matches: string -> PointMatches, model: string, ask: LlmRequest -> Reply,
                 parse: string -> Option<real>, roundKey: real -> real) returns (e: Extraction)
    ensures e == Extracted(contents, search, pairs, matches, model, ask, parse, roundKey)
  {
    var candidates := DetectTrajectoryTables(contents, search, pairs);
    if candidates == [] {
      return Extraction([], 0.0, None);
    }
    var points := HarvestChunks(Take(candidates, 10), matches);
    if points == [] {
      points := ParseReply(ask(LlmRequest(model, LlmContext(Take(candidates, 5)))), parse);
    }
    var t := CleanTrajectory(points, roundKey);
    e := Extraction(t, Confidence(|t|), Some(|candidates|));
  }

  // ---------------------------------------------------------------- properties: detection

  /** The cue count is the number of cues found. */
  lemma {:induction false} CueCountMeaning(content: string, search: (Cue, string) -> bool, n: nat)
    requires n <= |Cues|
    ensures CueCount(content, search, n) == |set k | 0 <= k < n && search(Cues[k], content)|
    decreases n
  {
    if n > 0 {
      CueCountMeaning(content, search, n - 1);
      var before := set k | 0 <= k < n - 1 && search(Cues[k], content);
      var after := set k | 0 <= k < n && search(Cues[k], content);
      assert n - 1 !in before;
      if search(Cues[n - 1], content) {
        assert after == before + {n - 1};
        assert |after| == |before| + 1;
      } else {
        assert after == before;
      }
    }
  }

  /** A score is at most 12; a table chunk with one numeric pair always qualifies. */
  lemma ScoreBounds(content: string, search: (Cue, string) -> bool, pairs: string -> nat)
    ensures Score(content, search, pairs) <= 12
    ensures ('|' in content || '\t' in content) && pairs(content) >= 1 ==> Score(content, search, pairs) >= 3
    ensures !('|' in content || '\t' in content) && pairs(content) == 0 ==>
      Score(content, search, pairs) == |set k | 0 <= k < |Cues| && search(Cues[k], content)|
  {
    CueCountMeaning(content, search, |Cues|);
    CueCountAtMost(content, search, |Cues|);
  }

  lemma {:induction false} CueCountAtMost(content: string, search: (Cue, string) -> bool, n: nat)
    requires n <= |Cues|
    ensures CueCount(content, search, n) <= n
    decreases n
  {
    if n > 0 {
      CueCountAtMost(content, search, n - 1);
    }
  }

  /** The candidates are the chunks scoring at least 3, each with its score. */
  lemma {:induction false} ScoredMeaning(contents: seq<string>, n: nat, search: (Cue, string) -> bool, pairs: string -> nat)
    requires n <= |contents|
    ensures var r := Scored(contents, n, search, pairs);
      && (forall x :: x in r ==> x.content in contents && x.score == Score(x.content, search, pairs) && x.score >= 3)
      && (forall i :: 0 <= i < n && Score(contents[i], search, pairs) >= 3 ==>
            Candidate(contents[i], Score(contents[i], search, pairs)) in r)
    decreases n
  {
    if n > 0 {
      ScoredMeaning(contents, n - 1, search, pairs);
      assert contents[n - 1] in contents;
    }
  }

  /** A candidate outside the first 15 of the sorted ones follows 15 that score at least as much. */
  /**
    The first 15 of the sorted candidates are in non-increasing score order,
    and a candidate is left out only behind 15 that score at least as much.
  */
  lemma RankedOrder(s: seq<Candidate>)
    ensures var ranked := Take(SortBy(s, NegScore), MaxCandidates);
      && (forall x :: x in ranked ==> x in s)
      && (forall i, j :: 0 <= i < j < |ranked| ==> ranked[i].score >= ranked[j].score)
      && (forall x :: x in s && x !in ranked ==>
            |ranked| == MaxCandidates && forall i :: 0 <= i < |ranked| ==> ranked[i].score >= x.score)
  {
    RankedMembers(s);
    RankedDescending(s);
    var ranked := Take(SortBy(s, NegScore), MaxCandidates);
    forall x | x in s && x !in ranked
      ensures |ranked| == MaxCandidates && forall i :: 0 <= i < |ranked| ==> ranked[i].score >= x.score
    {
      TakeSortedTop(s, NegScore, MaxCandidates, x);
    }
  }

  lemma RankedMembers(s: seq<Candidate>)
    ensures forall x :: x in Take(SortBy(s, NegScore), MaxCandidates) ==> x in s
  {
    var sorted := SortBy(s, NegScore);
    forall x | x in Take(sorted, MaxCandidates) ensures x in s {
      assert x in multiset(sorted);
    }
  }

  lemma RankedDescending(s: seq<Candidate>)
    ensures var ranked := Take(SortBy(s, NegScore), MaxCandidates);
      forall i, j :: 0 <= i < j < |ranked| ==> ranked[i].score >= ranked[j].score
  {
    var sorted := SortBy(s, NegScore);
    var ranked := Take(sorted, MaxCandidates);
    forall i, j | 0 <= i < j < |ranked| ensures ranked[i].score >= ranked[j].score {
      assert NegScore(sorted[i]) <= NegScore(sorted[j]);
    }
  }

  /** Each detected chunk is one of the contents with its candidate among the ranked ones. */
  lemma DetectedRanked(contents: seq<string>, search: (Cue, string) -> bool, pairs: string -> nat, c: string)
    requires c in contents && Score(c, search, pairs) >= 3
    ensures c in Detect(contents, search, pairs) <==> Candidate(c, Score(c, search, pairs)) in Ranked(contents, search, pairs)
  {
    var ranked := Ranked(contents, search, pairs);
    var r := Detect(contents, search, pairs);
    var x := Candidate(c, Score(c, search, pairs));
    if x in ranked {
      var k :| 0 <= k < |ranked| && ranked[k] == x;
      assert r[k] == c;
    }
    if c in r {
      var k :| 0 <= k < |r| && r[k] == c;
      ScoredMeaning(contents, |contents|, search, pairs);
      RankedOrder(Scored(contents, |contents|, search, pairs));
      assert ranked[k] in ranked;
      assert ranked[k] == x;
    }
  }

  /**
    The detector returns at most 15 chunks, each scoring at least 3, in
    non-increasing score order; a qualifying chunk is left out only when 15
    chunks that score at least as much are returned.
  */
  lemma DetectMeaning(contents: seq<string>, search: (Cue, string) -> bool, pairs: string -> nat)
    ensures var r := Detect(contents, search, pairs);
      && |r| <= MaxCandidates
      && (forall i :: 0 <= i < |r| ==> r[i] in contents && Score(r[i], search, pairs) >= 3)
      && (forall i, j :: 0 <= i < j < |r| ==> Score(r[i], search, pairs) >= Score(r[j], search, pairs))
      && (forall c :: c in contents && Score(c, search, pairs) >= 3 && c !in r ==>
            |r| == MaxCandidates && forall i :: 0 <= i < |r| ==> Score(r[i], search, pairs) >= Score(c, search, pairs))
  {
    var scored := Scored(contents, |contents|, search, pairs);
    var ranked := Ranked(contents, search, pairs);
    var r := Detect(contents, search, pairs);
    ScoredMeaning(contents, |contents|, search, pairs);
    RankedOrder(scored);
    forall i | 0 <= i < |r| ensures r[i] in contents && Score(r[i], search, pairs) == ranked[i].score >= 3 {
      assert ranked[i] in ranked;
    }
    forall c | c in contents && Score(c, search, pairs) >= 3 && c !in r
      ensures |r| == MaxCandidates && forall i :: 0 <= i < |r| ==> Score(r[i], search, pairs) >= Score(c, search, pairs)
    {
      DetectedRanked(contents, search, pairs, c);
      var m :| 0 <= m < |contents| && contents[m] == c;
      assert Candidate(c, Score(c, search, pairs)) in scored;
    }
  }

  /** Candidates with equal scores are ranked in chunk order. */
  lemma DetectStable(contents: seq<string>, search: (Cue, string) -> bool, pairs: string -> nat, negScore: real)
    ensures WithKey(Ranked(contents, search, pairs), NegScore, negScore)
         <= WithKey(Scored(contents, |contents|, search, pairs), NegScore, negScore)
  {
    TakeSortedStable(Scored(contents, |contents|, search, pairs), NegScore, negScore, MaxCandidates);
  }

  // ---------------------------------------------------------------- properties: harvesting

  /**
    A harvested point is the point of an admitted match and every admitted
    match gives one; its ID is below 90 and never negative; space-separated
    points have TVD ≤ MD < 5000; table matches are all kept.
  */
  lemma {:induction false} HarvestMeaning(ts: seq<Triple>, n: nat, guarded: bool)
    requires n <= |ts|
    ensures var r := Harvest(ts, n, guarded);
      && |r| <= n
      && (!guarded ==> |r| == n)
      && (forall x :: x in r <==> exists i :: 0 <= i < n && Admits(ts[i], guarded) && x == PointOf(ts[i]))
      && (forall x :: x in r ==> 0.0 <= x.id < 90.0 && x.md >= 0.0 && x.tvd >= 0.0)
      && (guarded ==> forall x :: x in r ==> x.tvd <= x.md < 5000.0)
    decreases n
  {
    if n > 0 {
      HarvestMeaning(ts, n - 1, guarded);
    }
  }

  /** The regex pass yields the points of the chunks' matches, chunk by chunk. */
  lemma {:induction false} HarvestAllMeaning(contents: seq<string>, n: nat, matches: string -> PointMatches)
    requires n <= |contents|
    ensures forall x :: x in HarvestAll(contents, n, matches) <==>
      exists i :: 0 <= i < n && x in PointsOf(matches(contents[i]))
    decreases n
  {
    if n > 0 {
      HarvestAllMeaning(contents, n - 1, matches);
    }
  }

  // ---------------------------------------------------------------- properties: the fallback parser

  /** A field `float()` reads back as `x`, holding no comma, newline or surrounding whitespace. */
  predicate Printed(text: string, x: real, parse: string -> Option<real>) {
    && parse(text) == Some(x)
    && text != [] && ',' !in text && '\n' !in text
    && !IsSpace(text[0]) && !IsSpace(text[|text| - 1])
  }

  function CsvLine(p: Point, show: real -> string): string {
    show(p.md) + "," + show(p.tvd) + "," + show(p.id)
  }

  /** A line `MD,TVD,ID` in the requested format parses back to its point. */
  lemma CsvLineRoundTrip(p: Point, show: real -> string, parse: string -> Option<real>)
    requires Printed(show(p.md), p.md, parse) && Printed(show(p.tvd), p.tvd, parse) && Printed(show(p.id), p.id, parse)
    ensures LinePoint(CsvLine(p, show), parse) == Some(p)
  {
    var a, b, c := show(p.md), show(p.tvd), show(p.id);
    var line := CsvLine(p, show);
    CsvJoin(a, b, c);
    assert line[|line| - 1] == c[|c| - 1];
    StripUnchanged(line);
    SplitJoin([a, b, c], ',');
    assert ',' in line by { assert line[|a|] == ','; }
  }

  lemma CsvJoin(a: string, b: string, c: string)
    ensures a + "," + b + "," + c == Join([','], [a, b, c])
  {
    assert [a, b, c][1..] == [b, c];
    assert Join([','], [b, c]) == b + [','] + c;
  }

  /** A line `MD,TVD` gets the default inner diameter 0.216. */
  lemma TwoFieldLine(a: string, b: string, md: real, tvd: real, parse: string -> Option<real>)
    requires Printed(a, md, parse) && Printed(b, tvd, parse)
    ensures LinePoint(a + "," + b, parse) == Some(Point(md, tvd, DefaultId))
  {
    var line := a + "," + b;
    assert line == Join([','], [a, b]);
    assert line[|line| - 1] == b[|b| - 1];
    StripUnchanged(line);
    SplitJoin([a, b], ',');
    assert ',' in line by { assert line[|a|] == ','; }
  }

  /** The parser keeps the point of every line that has one, in line order. */
  lemma {:induction false} ParsedMeaning(lines: seq<string>, n: nat, parse: string -> Option<real>)
    requires n <= |lines|
    ensures var r := Parsed(lines, n, parse);
      && |r| <= n
      && forall x :: x in r <==> exists i :: 0 <= i < n && LinePoint(lines[i], parse) == Some(x)
  {
    var opts := LinePoints(lines, parse);
    PresentMeaning(opts, n);
    forall x ensures (exists i :: 0 <= i < n && opts[i] == Some(x)) <==> exists i :: 0 <= i < n && LinePoint(lines[i], parse) == Some(x) {
      if exists i :: 0 <= i < n && LinePoint(lines[i], parse) == Some(x) {
        var i :| 0 <= i < n && LinePoint(lines[i], parse) == Some(x);
        assert opts[i] == Some(x);
      }
    }
  }

  lemma {:induction false} PresentMeaning<T>(opts: seq<Option<T>>, n: nat)
    requires n <= |opts|
    ensures |Present(opts, n)| <= n
    ensures forall x :: x in Present(opts, n) <==> exists i :: 0 <= i < n && opts[i] == Some(x)
    decreases n
  {
    if n > 0 {
      PresentMeaning(opts, n - 1);
    }
  }

  lemma {:induction false} PresentAll<T>(opts: seq<Option<T>>, n: nat, xs: seq<T>)
    requires n <= |opts| && n <= |xs|
    requires forall i :: 0 <= i < n ==> opts[i] == Some(xs[i])
    ensures Present(opts, n) == xs[..n]
    decreases n
  {
    if n > 0 {
      PresentAll(opts, n - 1, xs);
      assert xs[..n] == xs[..n - 1] + [xs[n - 1]];
    }
  }

  lemma ParsedAll(lines: seq<string>, ps: seq<Point>, parse: string -> Option<real>)
    requires |lines| == |ps|
    requires forall i :: 0 <= i < |lines| ==> LinePoint(lines[i], parse) == Some(ps[i])
    ensures Parsed(lines, |lines|, parse) == ps
  {
    PresentAll(LinePoints(lines, parse), |lines|, ps);
    assert ps[..|ps|] == ps;
  }

  /** A reply written in the requested format, one `MD,TVD,ID` line per point, parses back to the points. */
  lemma ReplyRoundTrip(ps: seq<Point>, show: real -> string, parse: string -> Option<real>, status: int)
    requires forall i :: 0 <= i < |ps| ==>
      Printed(show(ps[i].md), ps[i].md, parse) && Printed(show(ps[i].tvd), ps[i].tvd, parse) && Printed(show(ps[i].id), ps[i].id, parse)
    ensures ReplyPoints(Answered(status, Join("\n", seq(|ps|, i requires 0 <= i < |ps| => CsvLine(ps[i], show)))), parse) == ps
  {
    var lines := seq(|ps|, i requires 0 <= i < |ps| => CsvLine(ps[i], show));
    if ps == [] {
      assert Lines(Join("\n", lines)) == [""];
      assert LinePoints([""], parse)[0] == LinePoint("", parse) == None;
      assert Present(LinePoints([""], parse), 1) == [];
    } else {
      forall i | 0 <= i < |lines| ensures '\n' !in lines[i] && LinePoint(lines[i], parse) == Some(ps[i]) {
        CsvLineRoundTrip(ps[i], show, parse);
      }
      SplitJoin(lines, '\n');
      assert Lines(Join("\n", lines)) == lines;
      ParsedAll(lines, ps, parse);
      assert Parsed(lines, |lines|, parse) == ps;
    }
  }

  /** A timeout or a failed request yields no points. */
  lemma FailedReplyNoPoints(reply: Reply, parse: string -> Option<real>)
    requires !reply.Answered?
    ensures ReplyPoints(reply, parse) == []
  {
  }

  // ---------------------------------------------------------------- properties: cleaning

  /** The kept points are exactly the first points of their keys, in input order. */
  lemma {:induction false} DedupMembers(ps: seq<Point>, n: nat, roundKey: real -> real)
    requires n <= |ps|
    ensures forall x :: x in Dedup(ps, n, roundKey) <==> exists i :: 0 <= i < n && ps[i] == x && FirstOfKey(ps, i, roundKey)
    decreases n
  {
    if n > 0 {
      DedupMembers(ps, n - 1, roundKey);
    }
  }

  /** Every key has a first point. */
  lemma {:induction false} FirstOfKeyExists(ps: seq<Point>, i: nat, roundKey: real -> real)
    requires i < |ps|
    ensures exists j :: 0 <= j <= i && FirstOfKey(ps, j, roundKey) && Key(ps[j], roundKey) == Key(ps[i], roundKey)
    decreases i
  {
    if !FirstOfKey(ps, i, roundKey) {
      var j :| 0 <= j < i && Key(ps[j], roundKey) == Key(ps[i], roundKey);
      FirstOfKeyExists(ps, j, roundKey);
    }
  }

  /**
    Deduplication keeps exactly the first point of each key, in input order:
    no two kept points share a key and every input key is kept.
  */
  lemma DedupMeaning(ps: seq<Point>, n: nat, roundKey: real -> real)
    requires n <= |ps|
    ensures var r := Dedup(ps, n, roundKey);
      && (forall x :: x in r <==> exists i :: 0 <= i < n && ps[i] == x && FirstOfKey(ps, i, roundKey))
      && (forall x, y :: x in r && y in r && Key(x, roundKey) == Key(y, roundKey) ==> x == y)
      && (forall i :: 0 <= i < n ==> exists x :: x in r && Key(x, roundKey) == Key(ps[i], roundKey))
  {
    var r := Dedup(ps, n, roundKey);
    DedupMembers(ps, n, roundKey);
    forall x, y | x in r && y in r && Key(x, roundKey) == Key(y, roundKey) ensures x == y {
      var i :| 0 <= i < n && ps[i] == x && FirstOfKey(ps, i, roundKey);
      var j :| 0 <= j < n && ps[j] == y && FirstOfKey(ps, j, roundKey);
      assert !(i < j) && !(j < i);
    }
    forall i | 0 <= i < n ensures exists x :: x in r && Key(x, roundKey) == Key(ps[i], roundKey) {
      FirstOfKeyExists(ps, i, roundKey);
      var j :| 0 <= j <= i && FirstOfKey(ps, j, roundKey) && Key(ps[j], roundKey) == Key(ps[i], roundKey);
      assert ps[j] in r;
    }
  }

  /**
    The walk keeps points of its input, each deeper than `prev` and than every
    earlier kept one, with TVD ≤ MD. Over input in MD order it loses no depth:
    every eligible point has a kept point at its MD.
  */
  lemma AscendingMeaning(s: seq<Point>, prev: real)
    ensures var r := Ascending(s, prev);
      && |r| <= |s|
      && (forall x :: x in r ==> x in s && x.md > prev && x.tvd <= x.md)
      && (forall i, j :: 0 <= i < j < |r| ==> r[i].md < r[j].md)
      && (SortedBy(s, Md) ==>
            forall x :: x in s && x.md > prev && x.tvd <= x.md ==> exists y :: y in r && y.md == x.md)
  {
    AscendingSound(s, prev);
    if SortedBy(s, Md) {
      AscendingCovers(s, prev);
    }
  }

  lemma {:induction false} AscendingSound(s: seq<Point>, prev: real)
    ensures var r := Ascending(s, prev);
      && |r| <= |s|
      && (forall x :: x in r ==> x in s && x.md > prev && x.tvd <= x.md)
      && (forall i, j :: 0 <= i < j < |r| ==> r[i].md < r[j].md)
    decreases |s|
  {
    if s != [] {
      AscendingSound(s[1..], prev);
      AscendingSound(s[1..], s[0].md);
      var r := Ascending(s, prev);
      if s[0].md > prev && s[0].tvd <= s[0].md {
        var t := Ascending(s[1..], s[0].md);
        assert r == [s[0]] + t;
        forall i, j | 0 <= i < j < |r| ensures r[i].md < r[j].md {
          if i > 0 {
            assert r[i] == t[i - 1] && r[j] == t[j - 1];
          } else {
            assert r[j] == t[j - 1] && r[j] in t;
          }
        }
      }
    }
  }

  /** Over input in MD order, every eligible point has a kept point at its MD. */
  lemma {:induction false} AscendingCovers(s: seq<Point>, prev: real)
    requires SortedBy(s, Md)
    ensures forall x :: x in s && x.md > prev && x.tvd <= x.md ==> exists y :: y in Ascending(s, prev) && y.md == x.md
    decreases |s|
  {
    if s != [] {
      var r := Ascending(s, prev);
      assert SortedBy(s[1..], Md) by {
        forall i, j | 0 <= i < j < |s[1..]| ensures Md(s[1..][i]) <= Md(s[1..][j]) {
          assert s[1..][i] == s[i + 1] && s[1..][j] == s[j + 1];
        }
      }
      var kept := s[0].md > prev && s[0].tvd <= s[0].md;
      if kept {
        AscendingCovers(s[1..], s[0].md);
        assert r == [s[0]] + Ascending(s[1..], s[0].md);
      } else {
        AscendingCovers(s[1..], prev);
      }
      forall x | x in s && x.md > prev && x.tvd <= x.md ensures exists y :: y in r && y.md == x.md {
        if x == s[0] {
          assert s[0] in r;
        } else {
          assert x in s[1..];
          var k :| 0 <= k < |s[1..]| && s[1..][k] == x;
          assert Md(s[0]) <= Md(s[k + 1]);
          if kept && x.md == s[0].md {
            assert s[0] in r;
          } else {
            var y :| y in Ascending(s[1..], if kept then s[0].md else prev) && y.md == x.md;
            assert y in r;
          }
        }
      }
    }
  }

  /** The first point of its key, below the surface, with TVD ≤ MD: a point cleaning does not drop on its own account. */
  predicate Eligible(ps: seq<Point>, i: nat, roundKey: real -> real)
    requires i < |ps|
  {
    FirstOfKey(ps, i, roundKey) && 0.0 < ps[i].md && ps[i].tvd <= ps[i].md
  }

  /** Short of the 100-point cap, cleaning loses no depth of an eligible point. */
  lemma CleanCovers(ps: seq<Point>, roundKey: real -> real)
    ensures var r := Clean(ps, roundKey);
      |r| < MaxPoints ==> forall i :: 0 <= i < |ps| && Eligible(ps, i, roundKey) ==> exists y :: y in r && y.md == ps[i].md
  {
    var d := Dedup(ps, |ps|, roundKey);
    var sorted := SortBy(d, Md);
    var a := Ascending(sorted, 0.0);
    var r := Clean(ps, roundKey);
    if |r| < MaxPoints {
      assert r == a;
      DedupMeaning(ps, |ps|, roundKey);
      AscendingCovers(sorted, 0.0);
      forall i | 0 <= i < |ps| && Eligible(ps, i, roundKey) ensures exists y :: y in r && y.md == ps[i].md {
        assert ps[i] in d;
        assert ps[i] in multiset(sorted);
      }
    }
  }

  /**
    A cleaned trajectory: at most 100 points of the input, strictly deepening,
    starting below the surface, with TVD ≤ MD throughout, at most one per key,
    each the first input point with its key.
  */
  lemma CleanMeaning(ps: seq<Point>, roundKey: real -> real)
    ensures var r := Clean(ps, roundKey);
      && |r| <= MaxPoints
      && (forall i, j :: 0 <= i < j < |r| ==> r[i].md < r[j].md)
      && (forall i :: 0 <= i < |r| ==> 0.0 < r[i].md && r[i].tvd <= r[i].md)
      && (forall x :: x in r ==> x in ps)
      && (forall x, y :: x in r && y in r && Key(x, roundKey) == Key(y, roundKey) ==> x == y)
      && (forall x :: x in r ==> exists i :: 0 <= i < |ps| && ps[i] == x && FirstOfKey(ps, i, roundKey))
      && (|r| < MaxPoints ==> forall i :: 0 <= i < |ps| && Eligible(ps, i, roundKey) ==> exists y :: y in r && y.md == ps[i].md)
  {
    CleanSound(ps, roundKey);
    CleanCovers(ps, roundKey);
  }

  lemma CleanSound(ps: seq<Point>, roundKey: real -> real)
    ensures var r := Clean(ps, roundKey);
      && |r| <= MaxPoints
      && (forall i, j :: 0 <= i < j < |r| ==> r[i].md < r[j].md)
      && (forall i :: 0 <= i < |r| ==> 0.0 < r[i].md && r[i].tvd <= r[i].md)
      && (forall x :: x in r ==> x in ps)
      && (forall x, y :: x in r && y in r && Key(x, roundKey) == Key(y, roundKey) ==> x == y)
      && (forall x :: x in r ==> exists i :: 0 <= i < |ps| && ps[i] == x && FirstOfKey(ps, i, roundKey))
  {
    var d := Dedup(ps, |ps|, roundKey);
    var sorted := SortBy(d, Md);
    var a := Ascending(sorted, 0.0);
    var r := Clean(ps, roundKey);
    DedupMeaning(ps, |ps|, roundKey);
    AscendingSound(sorted, 0.0);
    assert r <= a;
    forall x | x in r ensures x in d {
      assert x in a;
      assert x in multiset(sorted);
    }
    forall i | 0 <= i < |r| ensures 0.0 < r[i].md && r[i].tvd <= r[i].md {
      assert r[i] in a;
    }
    forall x | x in r ensures x in ps {
      var i :| 0 <= i < |ps| && ps[i] == x && FirstOfKey(ps, i, roundKey);
    }
  }

  // ---------------------------------------------------------------- properties: extract

  /** The confidence saturates at 0.9 from 45 points; below that it is n / 50. */
  lemma ConfidenceMeaning(n: nat)
    ensures 0.0 <= Confidence(n) <= 0.9
    ensures Confidence(n) == 0.9 <==> n >= 45
    ensures n < 45 ==> Confidence(n) * 50.0 == n as real
  {
  }

  /** Without a candidate chunk, the trajectory is empty with confidence 0. */
  lemma NoCandidatesNoTrajectory(contents: seq<string>, search: (Cue, string) -> bool, pairs: string -> nat,
                                 matches: string -> PointMatches, model: string, ask: LlmRequest -> Reply,
                                 parse: string -> Option<real>, roundKey: real -> real)
    requires Detect(contents, search, pairs) == []
    ensures Extracted(contents, search, pairs, matches, model, ask, parse, roundKey) == Extraction([], 0.0, None)
  {
  }

  /** The model is asked only when the regex pass over the top 10 candidates finds nothing. */
  lemma AskedOnlyOnEmptyHarvest(candidates: seq<string>, matches: string -> PointMatches, model: string,
                                ask1: LlmRequest -> Reply, ask2: LlmRequest -> Reply, parse: string -> Option<real>)
    requires RegexPoints(candidates, matches) != []
    ensures RawPoints(candidates, matches, model, ask1, parse) == RawPoints(candidates, matches, model, ask2, parse)
    ensures forall x :: x in RawPoints(candidates, matches, model, ask1, parse) <==>
      exists i :: 0 <= i < |candidates| && i < 10 && x in PointsOf(matches(candidates[i]))
  {
    HarvestAllMeaning(Take(candidates, 10), |Take(candidates, 10)|, matches);
  }

  /**
    With candidates, the trajectory is a cleaned one of the raw points,
    the confidence is that of its length, and the candidates are counted.
  */
  lemma ExtractedMeaning(contents: seq<string>, search: (Cue, string) -> bool, pairs: string -> nat,
                         matches: string -> PointMatches, model: string, ask: LlmRequest -> Reply,
                         parse: string -> Option<real>, roundKey: real -> real)
    requires Detect(contents, search, pairs) != []
    ensures var e := Extracted(contents, search, pairs, matches, model, ask, parse, roundKey);
      var raw := RawPoints(Detect(contents, search, pairs), matches, model, ask, parse);
      && |e.trajectory| <= MaxPoints
      && (forall i, j :: 0 <= i < j < |e.trajectory| ==> e.trajectory[i].md < e.trajectory[j].md)
      && (forall x :: x in e.trajectory ==> x in raw && 0.0 < x.md && x.tvd <= x.md)
      && (|e.trajectory| < MaxPoints ==>
            forall i :: 0 <= i < |raw| && Eligible(raw, i, roundKey) ==> exists y :: y in e.trajectory && y.md == raw[i].md)
      && 0.0 <= e.confidence <= 0.9
      && (e.confidence == 0.9 <==> |e.trajectory| >= 45)
      && e.sourceChunks == Some(|Detect(contents, search, pairs)|)
      && 1 <= |Detect(contents, search, pairs)| <= MaxCandidates
  {
    var candidates := Detect(contents, search, pairs);
    var raw := RawPoints(candidates, matches, model, ask, parse);
    var t := Clean(raw, roundKey);
    assert Extracted(contents, search, pairs, matches, model, ask, parse, roundKey).trajectory == t;
    CleanSound(raw, roundKey);
    CleanCovers(raw, roundKey);
    forall x | x in t ensures 0.0 < x.md && x.tvd <= x.md {
      var i :| 0 <= i < |t| && t[i] == x;
    }
    ConfidenceMeaning(|t|);
    DetectMeaning(contents, search, pairs);
  }
}
