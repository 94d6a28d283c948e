/**
  `EnsembleJudgeAgent`: several judge models each rate the claims of an
  answer; the verdict takes the mean of their confidences and flags the
  issues that at least half of them raise.
*/
module EnsembleJudge {
  import opened Wrappers
  import opened Strings
  import opened Validation

  /** The parts of the prompt that vary: model, claims line and context. */
  datatype Request = Request(model: string, claims: string, context: string)

  /** One successful judge: its model, its confidence and its reply. */
  datatype Vote = Vote(model: string, confidence: real, validation: string)

  /** The verdict `validate` returns; `votes` holds each model with its confidence. */
  datatype Verdict = Verdict(isValid: bool, confidence: real, text: string, flagged: seq<string>,
                             votes: seq<(string, real)>)

  /** The ensemble shows the first 8 chunks, 500 characters of each; an issue line keeps 80 characters. */
  const ContextChunks := 8
  const ContextWidth := 500
  const IssueWidth := 80

  /** `_extract_claims`: numbers with units, month dates, then well ids; at most 15. */
  function Claims(found: ClaimMatches): seq<string> {
    Take(found.numeric + found.monthDates + found.wells, MaxClaims)
  }

  /** `_calculate_confidence` */
  function Confidence(text: string): real {
    TagConfidence(text, 0.8)
  }

  /** `_extract_issues`: each line mentioning `INVALID`, stripped and cut to 80 characters. */
  function Issues(text: string): seq<string> {
    IssueLines(Lines(text), |Lines(text)|, Some(IssueWidth))
  }

  /** The vote a reply makes: only an HTTP 200 reply votes. */
  function VoteOf(model: string, reply: Reply): Option<Vote> {
    if reply.Answered? && reply.status == 200 then Some(Vote(model, Confidence(reply.response), reply.response))
    else None
  }

  /** The votes of the first `n` models, in configured order. */
  function Votes(models: seq<string>, n: nat, ask: Request -> Reply, claims: string, context: string): seq<Vote>
    requires n <= |models|
  {
    if n == 0 then []
    else
      var v := VoteOf(models[n - 1], ask(Request(models[n - 1], claims, context)));
      Votes(models, n - 1, ask, claims, context) + (if v.Some? then [v.value] else [])
  }

  /** The sum of the first `n` vote confidences. */
  function SumConfidence(votes: seq<Vote>, n: nat): real
    requires n <= |votes|
  {
    if n == 0 then 0.0 else SumConfidence(votes, n - 1) + votes[n - 1].confidence
  }

  /** `statistics.mean` of the vote confidences. */
  function Mean(votes: seq<Vote>): real
    requires votes != []
  {
    SumConfidence(votes, |votes|) / |votes| as real
  }

  /** The issues of the first `n` votes, in order. */
  function AllIssues(votes: seq<Vote>, n: nat): seq<string>
    requires n <= |votes|
  {
    if n == 0 then [] else AllIssues(votes, n - 1) + Issues(votes[n - 1].validation)
  }

  /** How often an issue was raised. */
  function Count(issues: seq<string>, x: string): nat {
    multiset(issues)[x]
  }

  /** The distinct issues among the first `n`, in order of first occurrence (the order of a `Counter`). */
  function Distinct(issues: seq<string>, n: nat): seq<string>
    requires n <= |issues|
  {
    if n == 0 then []
    else
      var d := Distinct(issues, n - 1);
      if issues[n - 1] in d then d else d + [issues[n - 1]]
  }

  /** The issues of `distinct` raised at least `voters / 2` times. */
  function Majority(distinct: seq<string>, all: seq<string>, voters: nat): seq<string> {
    if distinct == [] then []
    else (if 2 * Count(all, distinct[0]) >= voters then [distinct[0]] else []) + Majority(distinct[1..], all, voters)
  }

  /** The flagged issues of a set of votes: the majority ones, at most 3. */
  function Flagged(votes: seq<Vote>): seq<string> {
    var all := AllIssues(votes, |votes|);
    Take(Majority(Distinct(all, |all|), all, |votes|), 3)
  }

  /** The model and confidence of every vote. */
  function Ballots(votes: seq<Vote>): (r: seq<(string, real)>)
    ensures |r| == |votes|
    ensures forall i :: 0 <= i < |r| ==> r[i] == (votes[i].model, votes[i].confidence)
  {
    seq(|votes|, i requires 0 <= i < |votes| => (votes[i].model, votes[i].confidence))
  }

  /** The verdict of a non-empty set of votes. */
  function Decide(votes: seq<Vote>, minConfidence: real): Verdict
    requires votes != []
  {
    var mean := Mean(votes);
    Verdict(mean >= minConfidence, mean, "Ensemble: " + NatToString(|votes|) + " models", Flagged(votes), Ballots(votes))
  }

  /** What `validate` returns. */
  function Outcome(found: ClaimMatches, contents: seq<string>, models: seq<string>,
                      ask: Request -> Reply, minConfidence: real): Verdict
  {
    var claims := Claims(found);
    if claims == [] then Verdict(true, 0.95, "No specific claims", [], [])
    else
      var votes := Votes(models, |models|, ask, ClaimLine(claims), Context(contents, ContextChunks, ContextWidth));
      if votes == [] then Verdict(true, 0.75, "Ensemble unavailable", [], [])
      else Decide(votes, minConfidence)
  }

  // ---------------------------------------------------------------- the loops of validate

  /** The model loop: one request per model, the successful replies kept as votes. */
  method CollectVotes(models: seq<string>, ask: Request -> Reply, claims: string, context: string)
    returns (votes: seq<Vote>)
    ensures votes == Votes(models, |models|, ask, claims, context)
  {
    votes := [];
    var i := 0;
    while i < |models|
      invariant 0 <= i <= |models|
      invariant votes == Votes(models, i, ask, claims, context)
    {
      var reply := ask(Request(models[i], claims, context));
      if reply.Answered? && reply.status == 200 {
        var validation := reply.response;
        votes := votes + [Vote(models[i], Confidence(validation), validation)];
      }
      i := i + 1;
    }
  }

  /** `all_issues`: every vote's issues, in vote order. */
  method GatherIssues(votes: seq<Vote>) returns (all: seq<string>)
    ensures all == AllIssues(votes, |votes|)
  {
    all := [];
    var i := 0;
    while i < |votes|
      invariant 0 <= i <= |votes|
      invariant all == AllIssues(votes, i)
    {
      var issues := ExtractIssueLines(votes[i].validation, Some(IssueWidth));
      all := all + issues;
      i := i + 1;
    }
  }

  /** `validate(answer, source_chunks, query)` over the claim matches of the answer and the chunks' texts. */
  method Validate(found: ClaimMatches, contents: seq<string>, models: seq<string>,
                  ask: Request -> Reply, minConfidence: real)
    returns (v: Verdict)
    ensures v == Outcome(found, contents, models, ask, minConfidence)
  {
    var claims := Claims(found);
    if claims == [] {
      return Verdict(true, 0.95, "No specific claims", [], []);
    }
    var votes := CollectVotes(models, ask, ClaimLine(claims), Context(contents, ContextChunks, ContextWidth));
    if votes == [] {
      return Verdict(true, 0.75, "Ensemble unavailable", [], []);
    }
    var all := GatherIssues(votes);
    var mean := SumConfidence(votes, |votes|) / |votes| as real;
    v := Verdict(mean >= minConfidence, mean, "Ensemble: " + NatToString(|votes|) + " models",
                 Take(Majority(Distinct(all, |all|), all, |votes|), 3), Ballots(votes));
  }

  // ---------------------------------------------------------------- properties

  /** The claims are the matches in category order, at most 15 of them. */
  lemma ClaimsOrder(found: ClaimMatches)
    ensures var all := found.numeric + found.monthDates + found.wells;
      && Claims(found) <= all
      && |Claims(found)| == (if |all| <= MaxClaims then |all| else MaxClaims)
      && (Claims(found) == [] <==> all == [])
  {
  }

  /** Each vote is a model that answered with HTTP 200, in configured order, scored by its reply. */
  lemma {:induction false} VotesMeaning(models: seq<string>, n: nat, ask: Request -> Reply, claims: string, context: string)
    requires n <= |models|
    ensures var votes := Votes(models, n, ask, claims, context);
      && |votes| <= n
      && (forall v :: v in votes ==> exists j :: (0 <= j < n && v.model == models[j]
            && ask(Request(models[j], claims, context)) == Answered(200, v.validation)
            && v.confidence == Confidence(v.validation)))
      && (forall j :: (0 <= j < n && ask(Request(models[j], claims, context)).Answered?
            && ask(Request(models[j], claims, context)).status == 200) ==>
            Vote(models[j], Confidence(ask(Request(models[j], claims, context)).response),
                 ask(Request(models[j], claims, context)).response) in votes)
    decreases n
  {
    if n > 0 {
      VotesMeaning(models, n - 1, ask, claims, context);
      var prev := Votes(models, n - 1, ask, claims, context);
      var reply := ask(Request(models[n - 1], claims, context));
      var votes := Votes(models, n, ask, claims, context);
      if reply.Answered? && reply.status == 200 {
        var v := Vote(models[n - 1], Confidence(reply.response), reply.response);
        assert votes == prev + [v];
        forall w | w in votes
          ensures exists j :: (0 <= j < n && w.model == models[j]
            && ask(Request(models[j], claims, context)) == Answered(200, w.validation)
            && w.confidence == Confidence(w.validation))
        {
          if w !in prev {
            assert w == v;
          }
        }
      } else {
        assert votes == prev;
      }
    }
  }

  /** Every vote's confidence lies in [0.5, 1]: 0.8 untagged, else the tag score. */
  lemma VoteConfidenceBounds(text: string)
    ensures 0.5 <= Confidence(text) <= 1.0
  {
    TagConfidenceBounds(text, 0.8);
  }

  lemma {:induction false} SumBounds(votes: seq<Vote>, n: nat)
    requires n <= |votes|
    requires forall i :: 0 <= i < |votes| ==> 0.5 <= votes[i].confidence <= 1.0
    ensures 0.5 * n as real <= SumConfidence(votes, n) <= n as real
    decreases n
  {
    if n > 0 {
      SumBounds(votes, n - 1);
    }
  }

  /** The mean of confidences in [0.5, 1] lies in [0.5, 1]. */
  lemma MeanBounds(votes: seq<Vote>)
    requires votes != []
    requires forall i :: 0 <= i < |votes| ==> 0.5 <= votes[i].confidence <= 1.0
    ensures 0.5 <= Mean(votes) <= 1.0
  {
    SumBounds(votes, |votes|);
    DivBetween(SumConfidence(votes, |votes|), |votes| as real);
  }

  /** The index of the first mention of `x`, `|issues|` when there is none. */
  function FirstMention(issues: seq<string>, x: string): (k: nat)
    ensures k <= |issues|
    ensures k < |issues| ==> issues[k] == x
    decreases |issues|
  {
    if issues == [] then 0
    else if issues[0] == x then 0
    else 1 + FirstMention(issues[1..], x)
  }

  /** No mention of `x` comes before its first one. */
  lemma {:induction false} FirstMentionFirst(issues: seq<string>, x: string, p: nat)
    requires p < |issues| && issues[p] == x
    ensures FirstMention(issues, x) <= p
    decreases |issues|
  {
    if issues[0] != x {
      FirstMentionFirst(issues[1..], x, p - 1);
    }
  }

  /** Extending the issues does not move the first mention of an issue already raised. */
  lemma {:induction false} FirstMentionPrefix(s: seq<string>, t: seq<string>, x: string)
    requires s <= t && x in s
    ensures FirstMention(t, x) == FirstMention(s, x) < |s|
  {
    var i :| 0 <= i < |s| && s[i] == x;
    FirstMentionFirst(s, x, i);
    var a := FirstMention(s, x);
    assert t[a] == s[a];
    FirstMentionFirst(t, x, a);
    var b := FirstMention(t, x);
    assert t[b] == s[b];
    FirstMentionFirst(s, x, b);
  }

  /**
    The distinct issues: each issue raised once, in order of first
    occurrence (an issue listed earlier was raised before any mention of a
    later one).
  */
  lemma DistinctMeaning(issues: seq<string>, n: nat)
    requires n <= |issues|
    ensures forall x :: x in Distinct(issues, n) <==> x in issues[..n]
    ensures forall i, j :: 0 <= i < j < |Distinct(issues, n)| ==> Distinct(issues, n)[i] != Distinct(issues, n)[j]
    ensures MentionOrdered(Distinct(issues, n), issues[..n])
  {
    DistinctSound(issues, n);
    DistinctOrder(issues, n);
  }

  lemma {:induction false} DistinctSound(issues: seq<string>, n: nat)
    requires n <= |issues|
    ensures forall x :: x in Distinct(issues, n) <==> x in issues[..n]
    ensures forall i, j :: 0 <= i < j < |Distinct(issues, n)| ==> Distinct(issues, n)[i] != Distinct(issues, n)[j]
    decreases n
  {
    if n > 0 {
      DistinctSound(issues, n - 1);
      assert issues[..n] == issues[..n - 1] + [issues[n - 1]];
      var d := Distinct(issues, n - 1);
      if issues[n - 1] !in d {
        var d' := d + [issues[n - 1]];
        forall i, j | 0 <= i < j < |d'| ensures d'[i] != d'[j] {
          if j == |d| {
            assert d'[i] == d[i] && d[i] in d;
          } else {
            assert d'[i] == d[i] && d'[j] == d[j];
          }
        }
      }
    }
  }

  lemma {:induction false} DistinctOrder(issues: seq<string>, n: nat)
    requires n <= |issues|
    ensures MentionOrdered(Distinct(issues, n), issues[..n])
    decreases n
  {
    if n > 0 {
      DistinctOrder(issues, n - 1);
      DistinctSound(issues, n - 1);
      var d' := Distinct(issues, n - 1);
      var d := Distinct(issues, n);
      var s', s := issues[..n - 1], issues[..n];
      assert s == s' + [issues[n - 1]];
      forall x | x in d' ensures FirstMention(s, x) == FirstMention(s', x) < n - 1 {
        FirstMentionPrefix(s', s, x);
      }
      if issues[n - 1] !in d' {
        // the new issue is first mentioned last
        var x := issues[n - 1];
        assert FirstMention(s, x) == n - 1 by {
          FirstMentionFirst(s, x, n - 1);
          assert s[n - 1] == x && x !in s';
        }
        forall i, j | 0 <= i < j < |d| ensures FirstMention(s, d[i]) < FirstMention(s, d[j]) {
          assert d[i] == d'[i] && d'[i] in d';
          if j < |d'| {
            assert d[j] == d'[j] && d'[j] in d';
          }
        }
      } else {
        forall i, j | 0 <= i < j < |d| ensures FirstMention(s, d[i]) < FirstMention(s, d[j]) {
          assert d[i] == d'[i] && d'[i] in d';
          assert d[j] == d'[j] && d'[j] in d';
        }
      }
    }
  }

  /** The majority filter keeps, in order, exactly the issues raised at least `voters / 2` times. */
  lemma {:induction false} MajorityMeaning(distinct: seq<string>, all: seq<string>, voters: nat)
    ensures var m := Majority(distinct, all, voters);
      && |m| <= |distinct|
      && (forall x :: x in m <==> x in distinct && 2 * Count(all, x) >= voters)
    decreases |distinct|
  {
    if distinct != [] {
      MajorityMeaning(distinct[1..], all, voters);
      assert forall x :: x in distinct <==> x == distinct[0] || x in distinct[1..];
    }
  }

  lemma {:induction false} MajorityDistinct(distinct: seq<string>, all: seq<string>, voters: nat)
    requires forall i, j :: 0 <= i < j < |distinct| ==> distinct[i] != distinct[j]
    ensures var m := Majority(distinct, all, voters);
      forall i, j :: 0 <= i < j < |m| ==> m[i] != m[j]
    decreases |distinct|
  {
    if distinct != [] {
      MajorityDistinct(distinct[1..], all, voters);
      MajorityMeaning(distinct[1..], all, voters);
      assert distinct[0] !in distinct[1..];
    }
  }

  /** Issues listed in order of first mention. */
  predicate MentionOrdered(issues: seq<string>, all: seq<string>) {
    forall i, j {:trigger FirstMention(all, issues[i]), FirstMention(all, issues[j])} ::
      0 <= i < j < |issues| ==> FirstMention(all, issues[i]) < FirstMention(all, issues[j])
  }

  /** The majority filter keeps the order of the issues it keeps. */
  lemma {:induction false} MajorityOrder(distinct: seq<string>, all: seq<string>, voters: nat)
    requires MentionOrdered(distinct, all)
    ensures MentionOrdered(Majority(distinct, all, voters), all)
    decreases |distinct|
  {
    if distinct != [] {
      var tail := distinct[1..];
      OrderedTail(distinct, all);
      MajorityOrder(tail, all, voters);
      if 2 * Count(all, distinct[0]) >= voters {
        var rest := Majority(tail, all, voters);
        forall j | 0 <= j < |rest| ensures FirstMention(all, distinct[0]) < FirstMention(all, rest[j]) {
          MajorityHeadFirst(distinct, all, voters, j);
        }
        ConsOrdered(distinct[0], rest, all);
      }
    }
  }

  lemma {:induction false} OrderedTail(distinct: seq<string>, all: seq<string>)
    requires distinct != [] && MentionOrdered(distinct, all)
    ensures MentionOrdered(distinct[1..], all)
  {
    var tail := distinct[1..];
    forall i, j | 0 <= i < j < |tail| ensures FirstMention(all, tail[i]) < FirstMention(all, tail[j]) {
      assert tail[i] == distinct[i + 1] && tail[j] == distinct[j + 1];
    }
  }

  lemma {:induction false} ConsOrdered(x: string, rest: seq<string>, all: seq<string>)
    requires MentionOrdered(rest, all)
    requires forall j :: 0 <= j < |rest| ==> FirstMention(all, x) < FirstMention(all, rest[j])
    ensures MentionOrdered([x] + rest, all)
  {
    var m := [x] + rest;
    forall i, j | 0 <= i < j < |m| ensures FirstMention(all, m[i]) < FirstMention(all, m[j]) {
      var b := rest[j - 1];
      assert m[j] == b;
      if i == 0 {
        assert m[i] == x;
      } else {
        var a := rest[i - 1];
        assert m[i] == a;
        assert FirstMention(all, a) < FirstMention(all, b);
      }
    }
  }

  /** The first issue is mentioned before each majority issue of the rest. */
  lemma {:induction false} MajorityHeadFirst(distinct: seq<string>, all: seq<string>, voters: nat, j: nat)
    requires distinct != [] && MentionOrdered(distinct, all)
    requires j < |Majority(distinct[1..], all, voters)|
    ensures FirstMention(all, distinct[0]) < FirstMention(all, Majority(distinct[1..], all, voters)[j])
  {
    var y := Majority(distinct[1..], all, voters)[j];
    MajorityMeaning(distinct[1..], all, voters);
    assert y in Majority(distinct[1..], all, voters);
    var k :| 0 <= k < |distinct[1..]| && distinct[1..][k] == y;
    assert distinct[k + 1] == y;
  }

  /** A prefix of an ordered list is ordered, and what it leaves out comes after all of it. */
  lemma {:induction false} TakeOrdered(m: seq<string>, all: seq<string>, n: nat)
    requires MentionOrdered(m, all)
    ensures MentionOrdered(Take(m, n), all)
    ensures forall x :: x in m && x !in Take(m, n) ==>
      |Take(m, n)| == n && forall i :: 0 <= i < n ==> FirstMention(all, Take(m, n)[i]) < FirstMention(all, x)
  {
    var f := Take(m, n);
    assert forall i :: 0 <= i < |f| ==> f[i] == m[i];
    forall x | x in m && x !in f
      ensures |f| == n && forall i :: 0 <= i < n ==> FirstMention(all, f[i]) < FirstMention(all, x)
    {
      var k :| 0 <= k < |m| && m[k] == x;
      assert |f| <= k;
    }
  }

  /**
    The flagged issues are distinct, at most 3, each raised by the votes at
    least half as many times as there are votes, in order of first mention;
    a majority issue is left out only behind 3 flagged ones raised before it.
  */
  lemma FlaggedMeaning(votes: seq<Vote>)
    ensures var all := AllIssues(votes, |votes|);
      var f := Flagged(votes);
      && |f| <= 3
      && (forall i, j :: 0 <= i < j < |f| ==> f[i] != f[j])
      && (forall x :: x in f ==> x in all && 2 * Count(all, x) >= |votes|)
      && (forall i, j :: 0 <= i < j < |f| ==> FirstMention(all, f[i]) < FirstMention(all, f[j]))
      && (forall x :: x in all && 2 * Count(all, x) >= |votes| && x !in f ==>
            |f| == 3 && forall i :: 0 <= i < |f| ==> FirstMention(all, f[i]) < FirstMention(all, x))
  {
    var all := AllIssues(votes, |votes|);
    var d := Distinct(all, |all|);
    DistinctMeaning(all, |all|);
    assert all[..|all|] == all;
    MajorityMeaning(d, all, |votes|);
    MajorityDistinct(d, all, |votes|);
    MajorityOrder(d, all, |votes|);
    var m := Majority(d, all, |votes|);
    TakeOrdered(m, all, 3);
    var f := Take(m, 3);
    assert forall i :: 0 <= i < |f| ==> f[i] == m[i];
  }

  /**
    With claims, the verdict is "unavailable" iff no model answered; else
    its confidence is the mean of the votes, within [0.5, 1], and it is valid
    exactly when that mean reaches the threshold; it lists every vote.
  */
  lemma ValidationVerdict(found: ClaimMatches, contents: seq<string>, models: seq<string>,
                          ask: Request -> Reply, minConfidence: real)
    requires Claims(found) != []
    ensures var votes := Votes(models, |models|, ask, ClaimLine(Claims(found)), Context(contents, ContextChunks, ContextWidth));
      var v := Outcome(found, contents, models, ask, minConfidence);
      && (votes == [] ==> v.isValid && v.confidence == 0.75 && v.flagged == [] && v.votes == [])
      && (votes != [] ==>
            && v.confidence == Mean(votes)
            && 0.5 <= v.confidence <= 1.0
            && (v.isValid <==> v.confidence >= minConfidence)
            && v.flagged == Flagged(votes)
            && v.votes == Ballots(votes))
  {
    var votes := Votes(models, |models|, ask, ClaimLine(Claims(found)), Context(contents, ContextChunks, ContextWidth));
    if votes != [] {
      forall i | 0 <= i < |votes| ensures 0.5 <= votes[i].confidence <= 1.0 {
        VotesMeaning(models, |models|, ask, ClaimLine(Claims(found)), Context(contents, ContextChunks, ContextWidth));
        assert votes[i] in votes;
        VoteConfidenceBounds(votes[i].validation);
      }
      MeanBounds(votes);
    }
  }

  /** An answer without claims is valid at 0.95, whatever the judges would have said. */
  lemma NoClaimsNoCall(found: ClaimMatches, contents: seq<string>, models: seq<string>,
                       ask1: Request -> Reply, ask2: Request -> Reply, minConfidence: real)
    requires Claims(found) == []
    ensures Outcome(found, contents, models, ask1, minConfidence) == Outcome(found, contents, models, ask2, minConfidence)
    ensures var v := Outcome(found, contents, models, ask1, minConfidence);
      v.isValid && v.confidence == 0.95 && v.flagged == [] && v.votes == []
  {
  }

  /** With 3 votes an issue needs 2 mentions; with 2 votes one mention is enough. */
  lemma MajorityThresholds(distinct: seq<string>, all: seq<string>)
    ensures forall x :: x in Majority(distinct, all, 3) <==> x in distinct && Count(all, x) >= 2
    ensures forall x :: x in Majority(distinct, all, 2) <==> x in distinct && x in all
  {
    MajorityMeaning(distinct, all, 3);
    MajorityMeaning(distinct, all, 2);
  }
}
