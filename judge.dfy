/**
  `JudgeAgent`: one judge model checks the claims of an answer against the
  retrieved chunks. Without claims there is nothing to ask; every failure of
  the request is forgiven as a valid verdict.
*/
module Judge {
  import opened Wrappers
  import opened Strings
  import opened Validation

  /** The verdict `validate` returns. */
  datatype Verdict = Verdict(isValid: bool, confidence: real, text: string, flagged: seq<string>)

  /** The parts of the prompt that vary: model, query, claims line and context. */
  datatype Request = Request(model: string, query: string, claims: string, context: string)

  /** The judge shows the first 10 chunks, 600 characters of each. */
  const ContextChunks := 10
  const ContextWidth := 600

  /** `_extract_claims`: numbers with units, month dates, ISO dates, then well ids; at most 15. */
  function Claims(found: ClaimMatches): seq<string> {
    Take(found.numeric + found.monthDates + found.isoDates + found.wells, MaxClaims)
  }

  /** `_extract_issues`: the stripped lines mentioning `INVALID`, the first 3 only. */
  function Issues(text: string): seq<string> {
    Take(IssueLines(Lines(text), |Lines(text)|, None), 3)
  }

  method ExtractIssues(text: string) returns (issues: seq<string>)
    ensures issues == Issues(text)
  {
    var all := ExtractIssueLines(text, None);
    issues := Take(all, 3);
  }

  /** The request sent for an answer with these claims. */
  function RequestFor(model: string, query: string, claims: seq<string>, contents: seq<string>): Request {
    Request(model, query, ClaimLine(claims), Context(contents, ContextChunks, ContextWidth))
  }

  /** The verdict for a reply of the judge model. */
  function Judged(reply: Reply, minConfidence: real): Verdict {
    match reply
    case Answered(status, response) =>
      if status != 200 then
        Verdict(true, 0.8, "Judge unavailable (HTTP " + IntToString(status) + ")", ["Judge service error"])
      else
        var c := TagConfidence(response, 0.85);
        Verdict(c >= minConfidence, c, Take(response, 500), Issues(response))
    case TimedOut => Verdict(true, 0.8, "Judge timeout - assuming valid", [])
    case Failed(message) => Verdict(true, 0.8, "Judge error: " + message, [])
  }

  /**
    `validate(answer, source_chunks, query)`: `found` holds the claim matches
    in the answer, `contents` the chunks' texts and `ask` the judge model.
  */
  function Validate(found: ClaimMatches, contents: seq<string>, query: string, model: string,
                    ask: Request -> Reply, minConfidence: real): Verdict
  {
    var claims := Claims(found);
    if claims == [] then Verdict(true, 0.95, "No specific factual claims to validate", [])
    else Judged(ask(RequestFor(model, query, claims, contents)), minConfidence)
  }

  // ---------------------------------------------------------------- properties

  /** The claims are the matches in category order, at most 15 of them. */
  lemma ClaimsOrder(found: ClaimMatches)
    ensures var all := found.numeric + found.monthDates + found.isoDates + found.wells;
      && Claims(found) <= all
      && |Claims(found)| == (if |all| <= MaxClaims then |all| else MaxClaims)
      && (Claims(found) == [] <==> all == [])
  {
  }

  /**
    The request depends only on the first 10 claims and on the first 600
    characters of each of the first 10 chunks: answers and chunks that agree
    there get the same request.
  */
  lemma RequestShows(model: string, query: string, claims: seq<string>, claims': seq<string>,
                     contents: seq<string>, contents': seq<string>)
    requires Take(claims, PromptClaims) == Take(claims', PromptClaims)
    requires |Take(contents, ContextChunks)| == |Take(contents', ContextChunks)|
    requires forall i :: 0 <= i < |Take(contents, ContextChunks)| ==>
      Take(contents[i], ContextWidth) == Take(contents'[i], ContextWidth)
    ensures RequestFor(model, query, claims, contents) == RequestFor(model, query, claims', contents')
  {
    var b := ContextBlocks(contents, ContextChunks, ContextWidth);
    var b' := ContextBlocks(contents', ContextChunks, ContextWidth);
    assert |b| == |b'|;
    forall i | 0 <= i < |b| ensures b[i] == b'[i] {
      assert Take(contents[i], ContextWidth) == Take(contents'[i], ContextWidth);
    }
    assert b == b';
  }

  /** However long the chunks, the context shown to the judge is at most 10 blocks of 611 characters. */
  lemma RequestBounded(model: string, query: string, claims: seq<string>, contents: seq<string>)
    ensures |RequestFor(model, query, claims, contents).context| <= ContextChunks * (611 + 2)
  {
    var b := ContextBlocks(contents, ContextChunks, ContextWidth);
    forall i | 0 <= i < |b| ensures |b[i]| <= 611 {
      assert |NatToString(i + 1)| <= 2;
    }
    JoinBound("\n\n", b, 611);
  }

  /** An answer without claims is valid with confidence 0.95, whatever the judge would have said. */
  lemma NoClaimsNoCall(found: ClaimMatches, contents: seq<string>, query: string, model: string,
                       ask1: Request -> Reply, ask2: Request -> Reply, minConfidence: real)
    requires Claims(found) == []
    ensures Validate(found, contents, query, model, ask1, minConfidence) == Validate(found, contents, query, model, ask2, minConfidence)
    ensures var v := Validate(found, contents, query, model, ask1, minConfidence);
      v.isValid && v.confidence == 0.95 && v.flagged == []
  {
  }

  /** Every failure is forgiven: a valid verdict at 0.8, flagging a service error only for an HTTP error. */
  lemma FailuresForgiven(reply: Reply, minConfidence: real)
    requires !reply.Answered? || reply.status != 200
    ensures var v := Judged(reply, minConfidence);
      && v.isValid && v.confidence == 0.8
      && (v.flagged == ["Judge service error"] <==> reply.Answered?)
      && (v.flagged == [] <==> !reply.Answered?)
  {
  }

  /** At most 3 issues, each a stripped line of the reply that mentions `INVALID`, in line order. */
  lemma IssuesMeaning(text: string)
    ensures |Issues(text)| <= 3
    ensures Issues(text) <= IssueLines(Lines(text), |Lines(text)|, None)
    ensures forall x :: x in Issues(text) ==> exists l :: l in Lines(text) && MentionsInvalid(l) && x == Strip(l)
  {
    var lines := Lines(text);
    IssueLinesMeaning(lines, |lines|, None);
    forall x | x in Issues(text) ensures exists l :: l in lines && MentionsInvalid(l) && x == Strip(l) {
      assert x in IssueLines(lines, |lines|, None);
      var i :| 0 <= i < |lines| && MentionsInvalid(lines[i]) && x == Cut(Strip(lines[i]), None);
      assert lines[i] in lines;
    }
  }

  /**
    A judged reply is valid exactly when its confidence reaches the
    threshold; the confidence is 0.85 untagged and within [0.5, 1] tagged;
    its issues are those of the reply and its text the first 500 characters.
  */
  lemma JudgedReply(response: string, minConfidence: real)
    ensures var v := Judged(Answered(200, response), minConfidence);
      && (v.isValid <==> v.confidence >= minConfidence)
      && (Tags(response).Total() == 0 ==> v.confidence == 0.85)
      && (Tags(response).Total() > 0 ==> 0.5 <= v.confidence <= 1.0)
      && v.flagged == Issues(response)
      && v.text == Take(response, 500)
  {
    TagConfidenceBounds(response, 0.85);
  }
}
