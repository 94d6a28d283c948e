/**
  What the two judges share: the claims they look for in an answer, the
  context they show the judge model, the tags they count in its reply and
  the lines of that reply they report as issues.

  Claim matching is a regular-expression search and enters as a
  `ClaimMatches` value; the judge model's HTTP reply enters as a `Reply`.
*/
module Validation {
  import opened Wrappers
  import opened Strings

  /** The `re.findall` results an answer yields, one list per claim pattern, each in text order. */
  datatype ClaimMatches = ClaimMatches(
    /** a number with a unit (m, meters, bar, °C, kg/m³, TVD, MD) */
    numeric: seq<string>,
    /** a date such as `March 5, 2021` */
    monthDates: seq<string>,
    /** a date such as `2021-03-05` */
    isoDates: seq<string>,
    /** a well id such as `ABC-GT-01-S2` */
    wells: seq<string>)

  /** The outcome of one request to the judge model. */
  datatype Reply =
    /** an HTTP reply: its status and the `response` field of its JSON body (`''` when absent) */
    | Answered(status: int, response: string)
    /** `requests.exceptions.Timeout` */
    | TimedOut
    /** any other exception, such as a refused connection or a body that is not JSON */
    | Failed(message: string)

  /** The most claims either judge keeps, and the most it shows the model. */
  const MaxClaims := 15
  const PromptClaims := 10

  /** The claims shown to the model, `' | '`-joined. */
  function ClaimLine(claims: seq<string>): string {
    Join(" | ", Take(claims, PromptClaims))
  }

  /** One context block: `[Chunk <i+1>] ` and the first `width` characters of the chunk. */
  function ContextBlock(i: nat, content: string, width: nat): string {
    "[Chunk " + NatToString(i + 1) + "] " + Take(content, width)
  }

  /** The context blocks of the first `count` chunks. */
  function ContextBlocks(contents: seq<string>, count: nat, width: nat): (r: seq<string>)
    ensures |r| == if count <= |contents| then count else |contents|
    ensures forall i :: 0 <= i < |r| ==> r[i] == ContextBlock(i, contents[i], width)
  {
    var shown := Take(contents, count);
    seq(|shown|, i requires 0 <= i < |shown| => ContextBlock(i, shown[i], width))
  }

  /** The context of the prompt: the blocks separated by blank lines. */
  function Context(contents: seq<string>, count: nat, width: nat): string {
    Join("\n\n", ContextBlocks(contents, count, width))
  }

  // ---------------------------------------------------------------- tags

  /** The tag counts of a reply, after upper-casing it. */
  datatype Tally = Tally(valid: nat, invalid: nat, uncertain: nat) {
    function Total(): nat {
      valid + invalid + uncertain
    }
  }

  function Tags(text: string): Tally {
    var up := Upper(text);
    Tally(Occurrences(up, "VALID:"), Occurrences(up, "INVALID:"), Occurrences(up, "UNCERTAIN:"))
  }

  /** Every `INVALID:` ends in `VALID:`, so it is counted as that too. */
  lemma TagsValidAtLeastInvalid(text: string)
    ensures Tags(text).valid >= Tags(text).invalid
  {
    assert EndsWith("INVALID:", "VALID:");
    OccurrencesOfSuffix(Upper(text), "INVALID:", "VALID:");
  }

  /** The confidence a reply earns: `fallback` when untagged, else `(valid + uncertain / 2) / total`. */
  function TagConfidence(text: string, fallback: real): (c: real) {
    var t := Tags(text);
    if t.Total() == 0 then fallback
    else (t.valid as real + 0.5 * t.uncertain as real) / t.Total() as real
  }

  /** A tagged reply scores between one half and one; an untagged one scores the fallback. */
  lemma TagConfidenceBounds(text: string, fallback: real)
    ensures Tags(text).Total() == 0 ==> TagConfidence(text, fallback) == fallback
    ensures Tags(text).Total() > 0 ==> 0.5 <= TagConfidence(text, fallback) <= 1.0
  {
    var t := Tags(text);
    if t.Total() > 0 {
      TagsValidAtLeastInvalid(text);
      var num := t.valid as real + 0.5 * t.uncertain as real;
      var tot := t.Total() as real;
      assert 0.5 * tot <= num <= tot;
      DivBetween(num, tot);
    }
  }

  lemma DivBetween(num: real, tot: real)
    requires tot > 0.0 && 0.5 * tot <= num <= tot
    ensures 0.5 <= num / tot <= 1.0
  {
    var c := num / tot;
    assert c * tot == num;
  }

  // ---------------------------------------------------------------- issues

  /** A line of the reply that mentions `INVALID`, in any case. */
  predicate MentionsInvalid(line: string) {
    Contains(Upper(line), "INVALID")
  }

  /** The lines of a reply. */
  function Lines(text: string): (r: seq<string>)
    ensures |r| >= 1
  {
    Split(text, "\n")
  }

  /**
    The issue lines among the first `n` lines: each one stripped and cut to
    `width` characters when a width is given.
  */
  function IssueLines(lines: seq<string>, n: nat, width: Option<nat>): seq<string>
    requires n <= |lines|
  {
    if n == 0 then []
    else
      IssueLines(lines, n - 1, width)
      + (if MentionsInvalid(lines[n - 1]) then [Cut(Strip(lines[n - 1]), width)] else [])
  }

  function Cut(s: string, width: Option<nat>): string {
    if width.Some? then Take(s, width.value) else s
  }

  /**
    There is one issue per line that mentions `INVALID`, in line order: the
    issues are a subsequence of the lines, each stripped and cut.
  */
  lemma {:induction false} IssueLinesMeaning(lines: seq<string>, n: nat, width: Option<nat>)
    requires n <= |lines|
    ensures var r := IssueLines(lines, n, width);
      && |r| <= n
      && (forall x :: x in r <==> exists i :: 0 <= i < n && MentionsInvalid(lines[i]) && x == Cut(Strip(lines[i]), width))
      && (width.Some? ==> forall x :: x in r ==> |x| <= width.value)
    decreases n
  {
    if n > 0 {
      IssueLinesMeaning(lines, n - 1, width);
      var before := IssueLines(lines, n - 1, width);
      var line := lines[n - 1];
      var added := if MentionsInvalid(line) then [Cut(Strip(line), width)] else [];
      assert IssueLines(lines, n, width) == before + added;
    }
  }

  /** The number of issues is the number of lines that mention `INVALID`. */
  lemma {:induction false} IssueLinesCount(lines: seq<string>, n: nat, width: Option<nat>)
    requires n <= |lines|
    ensures |IssueLines(lines, n, width)| == |set i | 0 <= i < n && MentionsInvalid(lines[i])|
    decreases n
  {
    if n > 0 {
      IssueLinesCount(lines, n - 1, width);
      var before := set i | 0 <= i < n - 1 && MentionsInvalid(lines[i]);
      if MentionsInvalid(lines[n - 1]) {
        assert (set i | 0 <= i < n && MentionsInvalid(lines[i])) == before + {n - 1};
      } else {
        assert (set i | 0 <= i < n && MentionsInvalid(lines[i])) == before;
      }
    }
  }

  /** `_extract_issues`' loop: the issue line of every line of the reply, in order. */
  method ExtractIssueLines(text: string, width: Option<nat>) returns (issues: seq<string>)
    ensures issues == IssueLines(Lines(text), |Lines(text)|, width)
  {
    var lines := Lines(text);
    issues := [];
    var i := 0;
    while i < |lines|
      invariant 0 <= i <= |lines|
      invariant issues == IssueLines(lines, i, width)
    {
      if MentionsInvalid(lines[i]) {
        issues := issues + [Cut(Strip(lines[i]), width)];
      }
      i := i + 1;
    }
  }
}
