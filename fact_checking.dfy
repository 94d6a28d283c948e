/**
  `FactCheckingAgent.validate_facts`: gathers the numbers in a set of answers
  by unit, flags those more than 20 % away from their group's mean and
  reports each group's median.

  The number search enters as `numbers` (the `findall` matches of an answer,
  each a value and its unit, `""` when there is none), and `str()` and the
  `:.2f` format of a float as `show` and `fixed2`.
*/
module FactChecking {
  import opened Wrappers
  import opened Strings
  import opened Sorting
  import opened Metadata

  /** One match: a number and the unit after it. */
  datatype Reading = Reading(value: Decimal, unit: string)

  /** The group of a reading: its lower-cased unit, or `number`. */
  function UnitKey(r: Reading): string {
    if r.unit == "" then "number" else Lower(r.unit)
  }

  /** The readings of the first `n` answers, answer by answer. */
  function ReadingsOf(answers: seq<string>, n: nat, numbers: string -> seq<Reading>): seq<Reading>
    requires n <= |answers|
  {
    if n == 0 then [] else ReadingsOf(answers, n - 1, numbers) + numbers(answers[n - 1])
  }

  /** `consolidated`: its keys in insertion order and the list of each key. */
  datatype Groups = Groups(keys: seq<string>, values: map<string, seq<real>>)

  /** The groups of the first `n` readings. */
  function Consolidate(rs: seq<Reading>, n: nat): Groups
    requires n <= |rs|
  {
    if n == 0 then Groups([], map[])
    else
      var g := Consolidate(rs, n - 1);
      var k := UnitKey(rs[n - 1]);
      if k in g.values then Groups(g.keys, g.values[k := g.values[k] + [rs[n - 1].value]])
      else Groups(g.keys + [k], g.values[k := [rs[n - 1].value]])
  }

  /** The values of the first `n` readings whose group is `k`, in reading order. */
  function ValuesOf(rs: seq<Reading>, n: nat, k: string): seq<real>
    requires n <= |rs|
  {
    if n == 0 then []
    else ValuesOf(rs, n - 1, k) + (if UnitKey(rs[n - 1]) == k then [rs[n - 1].value as real] else [])
  }

  /** Every key has a non-empty list. */
  predicate WellFormed(g: Groups) {
    forall k :: k in g.keys ==> k in g.values && g.values[k] != []
  }

  /** Every value is zero. */
  predicate AllZero(vals: seq<real>) {
    forall i :: 0 <= i < |vals| ==> vals[i] == 0.0
  }

  function Sum(vals: seq<real>): real {
    if vals == [] then 0.0 else Sum(vals[..|vals| - 1]) + vals[|vals| - 1]
  }

  /** `statistics.mean` */
  function Mean(vals: seq<real>): real
    requires vals != []
  {
    Sum(vals) / |vals| as real
  }

  function Abs(x: real): real {
    if x < 0.0 then -x else x
  }

  /** More than 20 % away from the mean. */
  predicate Anomalous(v: real, mean: real)
    requires mean != 0.0
  {
    Abs(v - mean) / mean > 0.2
  }

  function Identity(x: real): real {
    x
  }

  /** `statistics.median`: the middle value, or the mean of the two middle ones. */
  function Median(vals: seq<real>): real
    requires vals != []
  {
    var s := SortBy(vals, Identity);
    var m := |s| / 2;
    if |s| % 2 == 1 then s[m] else (s[m - 1] + s[m]) / 2.0
  }

  function AnomalyLine(v: real, key: string, mean: real, show: real -> string, fixed2: real -> string): string {
    "Fact anomaly: " + show(v) + " " + key + " deviates from mean " + fixed2(mean) + " " + key
  }

  function MedianLine(key: string, median: real, show: real -> string): string {
    "Verified median " + key + ": " + show(median)
  }

  /** The anomaly lines of the first `n` values of a group. */
  function AnomalyLines(key: string, vals: seq<real>, n: nat, mean: real, show: real -> string, fixed2: real -> string): seq<string>
    requires n <= |vals| && mean != 0.0
  {
    if n == 0 then []
    else
      AnomalyLines(key, vals, n - 1, mean, show, fixed2)
      + (if Anomalous(vals[n - 1], mean) then [AnomalyLine(vals[n - 1], key, mean, show, fixed2)] else [])
  }

  /** What checking one group gives: the division error, or its anomaly lines and median line. */
  datatype Outcome = ZeroMean | Checks(issues: seq<string>, final: string)

  function OutcomeOf(key: string, vals: seq<real>, show: real -> string, fixed2: real -> string): Outcome
    requires vals != []
  {
    var mean := Mean(vals);
    if mean == 0.0 then ZeroMean
    else Checks(AnomalyLines(key, vals, |vals|, mean, show, fixed2), MedianLine(key, Median(vals), show))
  }

  /** The outcome of each group, in key order. */
  function Outcomes(g: Groups, show: real -> string, fixed2: real -> string): (os: seq<Outcome>)
    requires WellFormed(g)
    ensures |os| == |g.keys|
  {
    seq(|g.keys|, i requires 0 <= i < |g.keys| => OutcomeOf(g.keys[i], g.values[g.keys[i]], show, fixed2))
  }

  /**
    The issues and median lines of the first `n` outcomes, or the division
    error of the first group whose mean is 0.
  */
  function Checked(os: seq<Outcome>, n: nat): Result<(seq<string>, seq<string>)>
    requires n <= |os|
  {
    if n == 0 then Ok(([], []))
    else
      var prior := Checked(os, n - 1);
      if prior.Err? then prior
      else match os[n - 1]
        case ZeroMean => Err(ZeroDivisionError)
        case Checks(issues, final) => Ok((prior.value.0 + issues, prior.value.1 + [final]))
  }

  /** The report text. */
  function Report(issues: seq<string>, finals: seq<string>): string {
    "Fact Checking Report:\n"
    + (if issues != [] then "Issues detected:\n" + Join("\n", issues) + "\n" else "No fact anomalies detected.\n")
    + "Final verified facts:\n" + Join("\n", finals)
  }

  /** The groups of the paired answers; the metadata is only counted. */
  function GroupsOf(answers: seq<string>, metadata: seq<Meta>, numbers: string -> seq<Reading>): (g: Groups)
    ensures WellFormed(g)
  {
    var rs := ReadingsOf(answers, Min(|answers|, |metadata|), numbers);
    ConsolidateKeys(rs, |rs|);
    Consolidate(rs, |rs|)
  }

  /** `validate_facts(answers, metadata)` */
  function FactReport(answers: seq<string>, metadata: seq<Meta>, numbers: string -> seq<Reading>,
                      show: real -> string, fixed2: real -> string): Result<string>
  {
    var g := GroupsOf(answers, metadata, numbers);
    var c := Checked(Outcomes(g, show, fixed2), |g.keys|);
    if c.Err? then Err(c.error) else Ok(Report(c.value.0, c.value.1))
  }

  // ---------------------------------------------------------------- the method

  /** The inner grouping loop: adds the readings of one answer. */
  method AddReadings(ghost before: seq<Reading>, found: seq<Reading>, keys0: seq<string>, consolidated0: map<string, seq<real>>)
    returns (keys: seq<string>, consolidated: map<string, seq<real>>)
    requires Groups(keys0, consolidated0) == Consolidate(before + found, |before|)
    ensures Groups(keys, consolidated) == Consolidate(before + found, |before + found|)
  {
    keys, consolidated := keys0, consolidated0;
    ghost var rs := before + found;
    var b := 0;
    while b < |found|
      invariant 0 <= b <= |found|
      invariant Groups(keys, consolidated) == Consolidate(rs, |before| + b)
    {
      var reading := found[b];
      assert rs[|before| + b] == reading;
      var key := if reading.unit == "" then "number" else Lower(reading.unit);
      if key !in consolidated {
        consolidated := consolidated[key := [reading.value]];
        keys := keys + [key];
      } else {
        consolidated := consolidated[key := consolidated[key] + [reading.value]];
      }
      b := b + 1;
    }
  }

  /** The grouping loops of `validate_facts`. */
  method ConsolidateReadings(answers: seq<string>, pairs: nat, numbers: string -> seq<Reading>)
    returns (keys: seq<string>, consolidated: map<string, seq<real>>)
    requires pairs <= |answers|
    ensures Groups(keys, consolidated) == Consolidate(ReadingsOf(answers, pairs, numbers), |ReadingsOf(answers, pairs, numbers)|)
  {
    keys := [];
    consolidated := map[];
    var a := 0;
    while a < pairs
      invariant 0 <= a <= pairs
      invariant Groups(keys, consolidated) == Consolidate(ReadingsOf(answers, a, numbers), |ReadingsOf(answers, a, numbers)|)
    {
      ghost var before := ReadingsOf(answers, a, numbers);
      var found := numbers(answers[a]);
      ConsolidatePrefix(before + found, |before|);
      assert (before + found)[..|before|] == before;
      keys, consolidated := AddReadings(before, found, keys, consolidated);
      assert ReadingsOf(answers, a + 1, numbers) == before + found;
      a := a + 1;
    }
  }

  /** The anomaly test of one group. */
  method GroupAnomalies(key: string, vals: seq<real>, mean: real, show: real -> string, fixed2: real -> string)
    returns (issues: seq<string>)
    requires mean != 0.0
    ensures issues == AnomalyLines(key, vals, |vals|, mean, show, fixed2)
  {
    issues := [];
    var i := 0;
    while i < |vals|
      invariant 0 <= i <= |vals|
      invariant issues == AnomalyLines(key, vals, i, mean, show, fixed2)
    {
      var v := vals[i];
      if Abs(v - mean) / mean > 0.2 {
        issues := issues + [AnomalyLine(v, key, mean, show, fixed2)];
      }
      i := i + 1;
    }
  }

  /** The loop over the groups: their anomaly lines and median lines, or the division error. */
  method CheckGroups(keys: seq<string>, consolidated: map<string, seq<real>>, show: real -> string, fixed2: real -> string)
    returns (c: Result<(seq<string>, seq<string>)>)
    requires WellFormed(Groups(keys, consolidated))
    ensures c == Checked(Outcomes(Groups(keys, consolidated), show, fixed2), |keys|)
  {
    ghost var os := Outcomes(Groups(keys, consolidated), show, fixed2);
    var issues: seq<string> := [];
    var finals: seq<string> := [];
    var i := 0;
    while i < |keys|
      invariant 0 <= i <= |keys|
      invariant Checked(os, i) == Ok((issues, finals))
    {
      var key := keys[i];
      var vals := consolidated[key];
      assert os[i] == OutcomeOf(key, vals, show, fixed2);
      var mean := Mean(vals);
      if mean == 0.0 {
        CheckedErrStays(os, i + 1, |keys|);
        return Err(ZeroDivisionError);
      }
      var found := GroupAnomalies(key, vals, mean, show, fixed2);
      issues := issues + found;
      finals := finals + [MedianLine(key, Median(vals), show)];
      i := i + 1;
    }
    c := Ok((issues, finals));
  }

  method ValidateFacts(answers: seq<string>, metadata: seq<Meta>, numbers: string -> seq<Reading>,
                       show: real -> string, fixed2: real -> string) returns (r: Result<string>)
    ensures r == FactReport(answers, metadata, numbers, show, fixed2)
  {
    var keys, consolidated := ConsolidateReadings(answers, Min(|answers|, |metadata|), numbers);
    assert GroupsOf(answers, metadata, numbers) == Groups(keys, consolidated);
    var c := CheckGroups(keys, consolidated, show, fixed2);
    if c.Err? {
      return Err(c.error);
    }
    r := Ok(Report(c.value.0, c.value.1));
  }

  // ---------------------------------------------------------------- grouping

  /** `Consolidate` only reads the readings before `n`. */
  lemma {:induction false} ConsolidatePrefix(rs: seq<Reading>, n: nat)
    requires n <= |rs|
    ensures Consolidate(rs, n) == Consolidate(rs[..n], n)
    decreases n
  {
    if n > 0 {
      ConsolidatePrefix(rs, n - 1);
      ConsolidatePrefix(rs[..n], n - 1);
      assert rs[..n][..n - 1] == rs[..n - 1];
    }
  }

  /** The keys: distinct, exactly the groups of the readings, each with a list. */
  lemma {:induction false} ConsolidateKeys(rs: seq<Reading>, n: nat)
    requires n <= |rs|
    ensures var g := Consolidate(rs, n);
      && WellFormed(g)
      && Elems(g.keys) == g.values.Keys
      && (forall i, j :: 0 <= i < j < |g.keys| ==> g.keys[i] != g.keys[j])
      && (forall k :: k in g.values <==> exists i :: 0 <= i < n && UnitKey(rs[i]) == k)
    decreases n
  {
    if n > 0 {
      ConsolidateKeys(rs, n - 1);
      var g := Consolidate(rs, n - 1);
      var k := UnitKey(rs[n - 1]);
      if k !in g.values {
        var keys := g.keys + [k];
        forall i, j | 0 <= i < j < |keys| ensures keys[i] != keys[j] {
          if j == |g.keys| {
            assert keys[i] in Elems(g.keys);
          }
        }
      }
    }
  }

  /** A group that is absent has no values, and each list holds its readings' values in order. */
  lemma {:induction false} ConsolidateValues(rs: seq<Reading>, n: nat)
    requires n <= |rs|
    ensures var g := Consolidate(rs, n);
      && (forall k :: k in g.values ==> g.values[k] == ValuesOf(rs, n, k))
      && (forall k :: k !in g.values ==> ValuesOf(rs, n, k) == [])
    decreases n
  {
    if n > 0 {
      ConsolidateValues(rs, n - 1);
    }
  }

  /**
    Each reading goes to its group: the keys are distinct, they are exactly
    the groups of the readings, and each list holds exactly the values of
    its group's readings, in reading order.
  */
  lemma ConsolidateMeaning(rs: seq<Reading>, n: nat)
    requires n <= |rs|
    ensures var g := Consolidate(rs, n);
      && Elems(g.keys) == g.values.Keys
      && (forall i, j :: 0 <= i < j < |g.keys| ==> g.keys[i] != g.keys[j])
      && (forall k :: k in g.values <==> exists i :: 0 <= i < n && UnitKey(rs[i]) == k)
      && (forall k :: k in g.values ==> g.values[k] == ValuesOf(rs, n, k) && g.values[k] != [])
  {
    ConsolidateKeys(rs, n);
    ConsolidateValues(rs, n);
  }

  /** The keys come in the order their first reading appears. */
  lemma {:induction false} ConsolidateOrder(rs: seq<Reading>, n: nat)
    requires n <= |rs|
    ensures var g := Consolidate(rs, n);
      forall i, j, b :: 0 <= i < j < |g.keys| && 0 <= b < n && UnitKey(rs[b]) == g.keys[j] ==>
        exists a :: 0 <= a < b && UnitKey(rs[a]) == g.keys[i]
    decreases n, 1
  {
    var g := Consolidate(rs, n);
    forall i, j, b | 0 <= i < j < |g.keys| && 0 <= b < n && UnitKey(rs[b]) == g.keys[j]
      ensures exists a :: 0 <= a < b && UnitKey(rs[a]) == g.keys[i]
    {
      OrderStep(rs, n, i, j, b);
    }
  }

  /** One instance of `ConsolidateOrder`, from the order of the first `n - 1` readings. */
  lemma {:induction false} OrderStep(rs: seq<Reading>, n: nat, i: nat, j: nat, b: nat)
    requires n <= |rs|
    requires i < j < |Consolidate(rs, n).keys| && b < n && UnitKey(rs[b]) == Consolidate(rs, n).keys[j]
    ensures exists a :: 0 <= a < b && UnitKey(rs[a]) == Consolidate(rs, n).keys[i]
    decreases n, 0
  {
    ConsolidateKeys(rs, n - 1);
    var g := Consolidate(rs, n - 1);
    var g' := Consolidate(rs, n);
    var k := UnitKey(rs[n - 1]);
    assert g'.keys[i] == g.keys[i] && g.keys[i] in Elems(g.keys);
    if j < |g.keys| {
      assert g'.keys[j] == g.keys[j];
      if b < n - 1 {
        ConsolidateOrder(rs, n - 1);
      } else {
        var a :| 0 <= a < n - 1 && UnitKey(rs[a]) == g.keys[i];
      }
    } else {
      // a new key: no earlier reading has it, so `b` is the last one
      assert g'.keys[j] == k && k !in g.values;
      var a :| 0 <= a < n - 1 && UnitKey(rs[a]) == g.keys[i];
    }
  }

  lemma {:induction false} ValuesOfNonNegative(rs: seq<Reading>, n: nat, k: string)
    requires n <= |rs|
    ensures forall i :: 0 <= i < |ValuesOf(rs, n, k)| ==> ValuesOf(rs, n, k)[i] >= 0.0
    decreases n
  {
    if n > 0 {
      ValuesOfNonNegative(rs, n - 1, k);
    }
  }

  // ---------------------------------------------------------------- statistics

  lemma DivideAbove(x: real, m: real)
    requires m > 0.0
    ensures x / m > 0.2 <==> x > 0.2 * m
  {
    var q := x / m;
    assert q * m == x;
    if q > 0.2 {
      assert q * m > 0.2 * m;
    } else {
      assert q * m <= 0.2 * m;
    }
  }

  /** With a positive mean, a value is flagged exactly when it is above 120 % or below 80 % of it. */
  lemma AnomalousMeaning(v: real, mean: real)
    requires mean > 0.0
    ensures Anomalous(v, mean) <==> v > 1.2 * mean || v < 0.8 * mean
  {
    DivideAbove(Abs(v - mean), mean);
  }

  /** The anomaly lines of a group are those of its flagged values, in order. */
  lemma {:induction false} AnomalyLinesMeaning(key: string, vals: seq<real>, n: nat, mean: real, show: real -> string, fixed2: real -> string)
    requires n <= |vals| && mean != 0.0
    ensures var r := AnomalyLines(key, vals, n, mean, show, fixed2);
      && |r| <= n
      && forall x :: x in r <==> exists i :: 0 <= i < n && Anomalous(vals[i], mean) && x == AnomalyLine(vals[i], key, mean, show, fixed2)
    decreases n
  {
    if n > 0 {
      AnomalyLinesMeaning(key, vals, n - 1, mean, show, fixed2);
    }
  }

  lemma {:induction false} SumNonNegative(vals: seq<real>)
    requires forall i :: 0 <= i < |vals| ==> vals[i] >= 0.0
    ensures Sum(vals) >= 0.0
    ensures Sum(vals) == 0.0 <==> AllZero(vals)
    decreases |vals|
  {
    if vals != [] {
      SumNonNegative(vals[..|vals| - 1]);
    }
  }

  /** Readings are never negative, so a group's mean is 0 exactly when all its values are. */
  lemma MeanZero(vals: seq<real>)
    requires vals != [] && forall i :: 0 <= i < |vals| ==> vals[i] >= 0.0
    ensures Mean(vals) >= 0.0
    ensures Mean(vals) == 0.0 <==> AllZero(vals)
  {
    SumNonNegative(vals);
  }

  /** A position of a reordering holds a value of the original. */
  lemma FromOriginal(vals: seq<real>, s: seq<real>, m: nat)
    requires multiset(s) == multiset(vals) && m < |s|
    ensures exists j :: 0 <= j < |vals| && vals[j] == s[m]
  {
    assert s[m] in multiset(vals);
  }

  /** The median lies between two of the values, and is one of them for an odd count. */
  lemma MedianBetween(vals: seq<real>)
    requires vals != []
    ensures exists i, j :: 0 <= i < |vals| && 0 <= j < |vals| && vals[i] <= Median(vals) <= vals[j]
    ensures |vals| % 2 == 1 ==> Median(vals) in vals
  {
    var s := SortBy(vals, Identity);
    var m := |s| / 2;
    FromOriginal(vals, s, m);
    var j :| 0 <= j < |vals| && vals[j] == s[m];
    if |s| % 2 == 1 {
      assert vals[j] <= Median(vals) <= vals[j];
    } else {
      FromOriginal(vals, s, m - 1);
      var i :| 0 <= i < |vals| && vals[i] == s[m - 1];
      assert Identity(s[m - 1]) <= Identity(s[m]);
      assert vals[i] <= Median(vals) <= vals[j];
    }
  }

  // ---------------------------------------------------------------- the report

  /** A division error stays an error as more groups are checked. */
  lemma {:induction false} CheckedErrStays(os: seq<Outcome>, n: nat, m: nat)
    requires n <= m <= |os|
    requires Checked(os, n).Err?
    ensures Checked(os, m) == Err(ZeroDivisionError)
    decreases m - n
  {
    CheckedMeaning(os, n);
    if n < m {
      CheckedErrStays(os, n + 1, m);
    }
  }

  /**
    The check fails, with a division error, exactly when some group's mean
    is 0; otherwise there is one median line per group, in key order, and
    the issues are the anomaly lines of the groups, in key order.
  */
  lemma {:induction false} CheckedMeaning(os: seq<Outcome>, n: nat)
    requires n <= |os|
    ensures Checked(os, n).Err? <==> exists i :: 0 <= i < n && os[i] == ZeroMean
    ensures Checked(os, n).Err? ==> Checked(os, n) == Err(ZeroDivisionError)
    ensures Checked(os, n).Ok? ==>
      var finals := Checked(os, n).value.1;
      && |finals| == n
      && forall i :: 0 <= i < n ==> finals[i] == os[i].final
    ensures Checked(os, n).Ok? ==>
      forall x :: x in Checked(os, n).value.0 <==> exists i :: 0 <= i < n && x in os[i].issues
    decreases n
  {
    if n > 0 {
      CheckedMeaning(os, n - 1);
    }
  }

  /** A group fails the check exactly when all its values are 0; otherwise its lines are its anomalies and its median. */
  lemma OutcomeMeaning(key: string, vals: seq<real>, show: real -> string, fixed2: real -> string)
    requires vals != [] && forall i :: 0 <= i < |vals| ==> vals[i] >= 0.0
    ensures OutcomeOf(key, vals, show, fixed2) == ZeroMean <==> AllZero(vals)
    ensures OutcomeOf(key, vals, show, fixed2).Checks? ==>
      && Mean(vals) > 0.0
      && OutcomeOf(key, vals, show, fixed2).final == MedianLine(key, Median(vals), show)
      && forall x :: x in OutcomeOf(key, vals, show, fixed2).issues <==>
           exists i :: 0 <= i < |vals| && (vals[i] > 1.2 * Mean(vals) || vals[i] < 0.8 * Mean(vals))
             && x == AnomalyLine(vals[i], key, Mean(vals), show, fixed2)
  {
    MeanZero(vals);
    if Mean(vals) != 0.0 {
      AnomalyLinesMeaning(key, vals, |vals|, Mean(vals), show, fixed2);
      forall i | 0 <= i < |vals| ensures Anomalous(vals[i], Mean(vals)) <==> vals[i] > 1.2 * Mean(vals) || vals[i] < 0.8 * Mean(vals) {
        AnomalousMeaning(vals[i], Mean(vals));
      }
    }
  }

  /** The groups' values are never negative: they are the values of readings. */
  lemma GroupsNonNegative(answers: seq<string>, metadata: seq<Meta>, numbers: string -> seq<Reading>)
    ensures var g := GroupsOf(answers, metadata, numbers);
      && Elems(g.keys) == g.values.Keys
      && forall k, i :: k in g.values && 0 <= i < |g.values[k]| ==> g.values[k][i] >= 0.0
  {
    var rs := ReadingsOf(answers, Min(|answers|, |metadata|), numbers);
    ConsolidateMeaning(rs, |rs|);
    forall k | k in Consolidate(rs, |rs|).values {
      ValuesOfNonNegative(rs, |rs|, k);
    }
  }

  /** Checking groups of non-negative values fails exactly when some group holds only zeros. */
  lemma ChecksFail(g: Groups, show: real -> string, fixed2: real -> string)
    requires WellFormed(g) && Elems(g.keys) == g.values.Keys
    requires forall k, i :: k in g.values && 0 <= i < |g.values[k]| ==> g.values[k][i] >= 0.0
    ensures Checked(Outcomes(g, show, fixed2), |g.keys|).Err? <==>
      exists k :: k in g.values && AllZero(g.values[k])
  {
    var os := Outcomes(g, show, fixed2);
    CheckedMeaning(os, |g.keys|);
    forall i | 0 <= i < |g.keys|
      ensures os[i] == ZeroMean <==> AllZero(g.values[g.keys[i]])
    {
      OutcomeMeaning(g.keys[i], g.values[g.keys[i]], show, fixed2);
    }
    if exists k :: k in g.values && AllZero(g.values[k]) {
      var k :| k in g.values && AllZero(g.values[k]);
      assert k in Elems(g.keys);
      var i :| 0 <= i < |g.keys| && g.keys[i] == k;
      assert os[i] == ZeroMean;
    }
  }

  /**
    `validate_facts` raises the division error exactly when, among the
    numbers of the paired answers, some unit has only zeros.
  */
  lemma FactReportFails(answers: seq<string>, metadata: seq<Meta>, numbers: string -> seq<Reading>,
                        show: real -> string, fixed2: real -> string)
    ensures var g := GroupsOf(answers, metadata, numbers);
      FactReport(answers, metadata, numbers, show, fixed2).Err? <==>
        exists k :: k in g.values && AllZero(g.values[k])
    ensures FactReport(answers, metadata, numbers, show, fixed2).Err? ==>
      FactReport(answers, metadata, numbers, show, fixed2) == Err(ZeroDivisionError)
  {
    var g := GroupsOf(answers, metadata, numbers);
    GroupsNonNegative(answers, metadata, numbers);
    ChecksFail(g, show, fixed2);
    CheckedMeaning(Outcomes(g, show, fixed2), |g.keys|);
  }

  /** Without issues the report says so right after its title. */
  lemma ReportClean(finals: seq<string>)
    ensures "Fact Checking Report:\nNo fact anomalies detected.\n" <= Report([], finals)
  {
  }

  /** With issues the report lists them after its title, and does not claim there are none. */
  lemma ReportIssues(issues: seq<string>, finals: seq<string>)
    requires issues != []
    ensures "Fact Checking Report:\nIssues detected:\n" + Join("\n", issues) + "\n" <= Report(issues, finals)
    ensures !("Fact Checking Report:\nNo fact anomalies detected.\n" <= Report(issues, finals))
  {
    var r := Report(issues, finals);
    assert r[22] == 'I';
    assert ("Fact Checking Report:\nNo fact anomalies detected.\n")[22] == 'N';
  }

  /** The report ends with the median lines. */
  lemma ReportFinals(issues: seq<string>, finals: seq<string>)
    ensures EndsWith(Report(issues, finals), "Final verified facts:\n" + Join("\n", finals))
  {
  }
}
