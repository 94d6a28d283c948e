/**
  The parts of Python's `str` that the pipeline relies on, over `seq<char>`:
  `in`, `find`, `count`, `split`, `join`, `replace`, `strip`, `lower`, `upper`,
  slicing and `str()` of an integer.
  Case mapping covers ASCII letters only; whitespace is the set Python's
  `str.isspace` accepts.
*/
module Strings {

  /** The characters `str.split()` and `str.strip()` treat as whitespace. */
  predicate IsSpace(c: char) {
    || ('\t' <= c <= '\r')
    || ('\U{1c}' <= c <= ' ')
    || c == '\U{85}' || c == '\U{a0}' || c == '\U{1680}'
    || ('\U{2000}' <= c <= '\U{200a}')
    || c == '\U{2028}' || c == '\U{2029}' || c == '\U{202f}' || c == '\U{205f}' || c == '\U{3000}'
  }

  function LowerChar(c: char): char {
    if 'A' <= c <= 'Z' then (c as int + 32) as char else c
  }

  function UpperChar(c: char): char {
    if 'a' <= c <= 'z' then (c as int - 32) as char else c
  }

  /** `s.lower()` */
  function Lower(s: string): (r: string)
    ensures |r| == |s|
  {
    seq(|s|, i requires 0 <= i < |s| => LowerChar(s[i]))
  }

  /** `s.upper()` */
  function Upper(s: string): (r: string)
    ensures |r| == |s|
  {
    seq(|s|, i requires 0 <= i < |s| => UpperChar(s[i]))
  }

  /** `p in s` */
  predicate Contains(s: string, p: string)
    decreases |s|
  {
    p <= s || (s != [] && Contains(s[1..], p))
  }

  /** `s.find(p)`: the first index at which `p` occurs in `s`, or -1. */
  function Find(s: string, p: string): (r: int)
    ensures -1 <= r <= |s|
    ensures r >= 0 <==> Contains(s, p)
    ensures r >= 0 ==> r + |p| <= |s|
    decreases |s|
  {
    if p <= s then 0
    else if s == [] then -1
    else
      var r := Find(s[1..], p);
      if r < 0 then -1 else r + 1
  }

  /** Where `find` succeeds, the pattern is there. */
  lemma {:induction false} FindOccurs(s: string, p: string)
    ensures Find(s, p) >= 0 ==> s[Find(s, p)..Find(s, p) + |p|] == p
    decreases |s|
  {
    if p <= s {
      assert s[..|p|] == p;
    } else if s != [] {
      FindOccurs(s[1..], p);
      var r := Find(s[1..], p);
      if r >= 0 {
        assert s[r + 1..r + 1 + |p|] == s[1..][r..r + |p|];
      }
    }
  }

  predicate EndsWith(s: string, p: string) {
    |p| <= |s| && s[|s| - |p|..] == p
  }

  lemma EndsWithAppend(a: string, b: string)
    ensures EndsWith(a + b, b)
  {
    assert (a + b)[|a + b| - |b|..] == b;
  }

  /**
    The number of positions at which `p` ends inside `s`. For a pattern that
    cannot overlap itself (every tag the judges count) this is `s.count(p)`.
  */
  function Occurrences(s: string, p: string): nat
    decreases |s|
  {
    (if EndsWith(s, p) then 1 else 0) + (if s == [] then 0 else Occurrences(s[..|s| - 1], p))
  }

  lemma EndsWithTrans(s: string, p: string, q: string)
    requires EndsWith(s, p) && EndsWith(p, q)
    ensures EndsWith(s, q)
  {
    assert s[|s| - |q|..] == s[|s| - |p|..][|p| - |q|..];
  }

  /** `p in a + p + b` */
  lemma {:induction false} ContainsMiddle(a: string, p: string, b: string)
    ensures Contains(a + p + b, p)
    decreases |a|
  {
    if a == [] {
      assert a + p + b == p + b;
    } else {
      ContainsMiddle(a[1..], p, b);
      assert (a + p + b)[1..] == a[1..] + p + b;
    }
  }

  /** Every occurrence of `p` ends with an occurrence of its suffix `q`. */
  lemma {:induction false} OccurrencesOfSuffix(s: string, p: string, q: string)
    requires EndsWith(p, q)
    ensures Occurrences(s, p) <= Occurrences(s, q)
    decreases |s|
  {
    if EndsWith(s, p) {
      EndsWithTrans(s, p, q);
    }
    if s != [] {
      OccurrencesOfSuffix(s[..|s| - 1], p, q);
    }
  }

  /** `sep.join(parts)` */
  function Join(sep: string, parts: seq<string>): string
    decreases |parts|
  {
    if |parts| == 0 then ""
    else if |parts| == 1 then parts[0]
    else parts[0] + sep + Join(sep, parts[1..])
  }

  lemma JoinCons(sep: string, x: string, parts: seq<string>)
    requires parts != []
    ensures Join(sep, [x] + parts) == x + sep + Join(sep, parts)
  {
    assert ([x] + parts)[1..] == parts;
  }

  /** Joining one more part puts the separator before it, unless it is the only part. */
  lemma {:induction false} JoinSnoc(sep: string, parts: seq<string>, x: string)
    ensures Join(sep, parts + [x]) == if parts == [] then x else Join(sep, parts) + sep + x
    decreases |parts|
  {
    if parts != [] {
      JoinSnoc(sep, parts[1..], x);
      assert parts + [x] == [parts[0]] + (parts[1..] + [x]);
      JoinCons(sep, parts[0], parts[1..] + [x]);
      if parts[1..] != [] {
        JoinCons(sep, parts[0], parts[1..]);
        assert parts == [parts[0]] + parts[1..];
      }
    }
  }

  /** Parts of at most `w` characters join into at most `|parts| * (w + |sep|)` characters. */
  lemma {:induction false} JoinBound(sep: string, parts: seq<string>, w: nat)
    requires forall i :: 0 <= i < |parts| ==> |parts[i]| <= w
    ensures |Join(sep, parts)| <= |parts| * (w + |sep|)
    decreases |parts|
  {
    if |parts| > 1 {
      JoinBound(sep, parts[1..], w);
    }
  }

  /** `s.split(sep)` for a non-empty separator. */
  function Split(s: string, sep: string): (parts: seq<string>)
    requires |sep| > 0
    ensures |parts| >= 1
    decreases |s|
  {
    var i := Find(s, sep);
    if i < 0 then [s] else [s[..i]] + Split(s[i + |sep|..], sep)
  }

  /** One step of `Split`: the text before the first separator, then the split of the rest. */
  lemma {:induction false} SplitStep(s: string, sep: string, i: int)
    requires |sep| > 0 && i == Find(s, sep)
    ensures i < 0 ==> Split(s, sep) == [s]
    ensures i >= 0 ==> Split(s, sep) == [s[..i]] + Split(s[i + |sep|..], sep)
  {
  }

  /** A text is what comes before an occurrence, the occurrence, and what follows it. */
  lemma Around(s: string, i: nat, sep: string)
    requires i + |sep| <= |s| && s[i..i + |sep|] == sep
    ensures s[..i] + sep + s[i + |sep|..] == s
  {
    assert s[..i] + s[i..i + |sep|] == s[..i + |sep|];
  }

  /** Splitting and re-joining with the same separator gives back the text. */
  lemma {:induction false} JoinSplit(s: string, sep: string)
    requires |sep| > 0
    ensures Join(sep, Split(s, sep)) == s
    decreases |s|
  {
    var i := Find(s, sep);
    SplitStep(s, sep, i);
    if i >= 0 {
      var rest := s[i + |sep|..];
      var parts := Split(rest, sep);
      JoinSplit(rest, sep);
      JoinCons(sep, s[..i], parts);
      assert Join(sep, Split(s, sep)) == s[..i] + sep + rest;
      FindOccurs(s, sep);
      Around(s, i, sep);
    }
  }

  /** The first one-character separator in `a + [c] + rest` is the one after `a` when `a` has none. */
  lemma {:induction false} FindFirstSeparator(a: string, c: char, rest: string)
    requires c !in a
    ensures Find(a + [c] + rest, [c]) == |a|
    decreases |a|
  {
    if a != [] {
      var s := a + [c] + rest;
      assert s[0] == a[0] && s[1..] == a[1..] + [c] + rest;
      FindFirstSeparator(a[1..], c, rest);
    }
  }

  /** Splitting on a one-character separator the text lacks gives the text itself. */
  lemma SplitWithout(a: string, c: char)
    requires c !in a
    ensures Split(a, [c]) == [a]
  {
    ContainsChar(a, c);
  }

  /** A text contains a one-character string exactly when it holds that character. */
  lemma {:induction false} ContainsChar(a: string, c: char)
    ensures Contains(a, [c]) <==> c in a
    decreases |a|
  {
    if a != [] {
      ContainsChar(a[1..], c);
      assert a == [a[0]] + a[1..];
      assert [c] <= a <==> a[0] == c;
    }
  }

  /** Splitting a join on a one-character separator that no part contains gives back the parts. */
  lemma {:induction false} SplitJoin(parts: seq<string>, c: char)
    requires parts != []
    requires forall i :: 0 <= i < |parts| ==> c !in parts[i]
    ensures Split(Join([c], parts), [c]) == parts
    decreases |parts|
  {
    if |parts| == 1 {
      SplitWithout(parts[0], c);
    } else {
      var rest := Join([c], parts[1..]);
      var s := parts[0] + [c] + rest;
      assert Join([c], parts) == s;
      FindFirstSeparator(parts[0], c, rest);
      assert s[..|parts[0]|] == parts[0] && s[|parts[0]| + 1..] == rest;
      SplitJoin(parts[1..], c);
      assert Split(s, [c]) == [parts[0]] + Split(rest, [c]);
    }
  }

  /** A text that neither starts nor ends with whitespace is its own `strip()`. */
  lemma StripUnchanged(s: string)
    requires s != [] && !IsSpace(s[0]) && !IsSpace(s[|s| - 1])
    ensures Strip(s) == s
  {
  }

  /** `s.replace(pat, repl)` */
  function Replace(s: string, pat: string, repl: string): string
  {
    if pat == [] then ReplaceEmpty(s, repl) else ReplaceAll(s, pat, repl)
  }

  /** An empty pattern matches before every character and at the end. */
  function ReplaceEmpty(s: string, repl: string): string
    decreases |s|
  {
    if s == [] then repl else repl + [s[0]] + ReplaceEmpty(s[1..], repl)
  }

  /** A non-empty pattern: every non-overlapping occurrence, left to right. */
  function ReplaceAll(s: string, pat: string, repl: string): string
    requires |pat| > 0
    decreases |s|
  {
    var i := Find(s, pat);
    if i < 0 then s else s[..i] + repl + ReplaceAll(s[i + |pat|..], pat, repl)
  }

  /** Replacing a non-empty pattern is splitting on it and joining with the replacement. */
  lemma {:induction false} ReplaceIsJoinSplit(s: string, pat: string, repl: string)
    requires |pat| > 0
    ensures Replace(s, pat, repl) == Join(repl, Split(s, pat))
    decreases |s|
  {
    var i := Find(s, pat);
    SplitStep(s, pat, i);
    if i >= 0 {
      var rest := s[i + |pat|..];
      var parts := Split(rest, pat);
      ReplaceIsJoinSplit(rest, pat, repl);
      JoinCons(repl, s[..i], parts);
      assert ReplaceAll(s, pat, repl) == s[..i] + repl + ReplaceAll(rest, pat, repl);
    }
  }

  function LStrip(s: string): string
    decreases |s|
  {
    if s != [] && IsSpace(s[0]) then LStrip(s[1..]) else s
  }

  function RStrip(s: string): string
    decreases |s|
  {
    if s != [] && IsSpace(s[|s| - 1]) then RStrip(s[..|s| - 1]) else s
  }

  /** `s.strip()` */
  function Strip(s: string): string {
    RStrip(LStrip(s))
  }

  /** `s[:n]` */
  function Take<T>(s: seq<T>, n: nat): (r: seq<T>)
    ensures |r| == if n <= |s| then n else |s|
    ensures r <= s
  {
    if n <= |s| then s[..n] else s
  }

  /** `s[-n:]` (note that `s[-0:]` is the whole of `s`). */
  function Tail<T>(s: seq<T>, n: nat): (r: seq<T>)
    ensures n > 0 ==> |r| == if n <= |s| then n else |s|
    ensures n == 0 ==> r == s
    ensures forall i :: 0 <= i < |r| ==> r[i] == s[|s| - |r| + i]
  {
    if n == 0 || n >= |s| then s else s[|s| - n..]
  }

  predicate IsWord(w: string) {
    |w| > 0 && forall i :: 0 <= i < |w| ==> !IsSpace(w[i])
  }

  function NonSpaceRun(s: string): (n: nat)
    ensures n <= |s|
    ensures forall i :: 0 <= i < n ==> !IsSpace(s[i])
    ensures n < |s| ==> IsSpace(s[n])
  {
    if s == [] || IsSpace(s[0]) then 0 else 1 + NonSpaceRun(s[1..])
  }

  /** `s.split()`: the maximal runs of non-whitespace characters. */
  function Words(s: string): (ws: seq<string>)
    ensures forall i :: 0 <= i < |ws| ==> IsWord(ws[i])
    decreases |s|
  {
    if s == [] then []
    else if IsSpace(s[0]) then Words(s[1..])
    else
      var n := NonSpaceRun(s);
      [s[..n]] + Words(s[n..])
  }

  lemma RunOfWord(w: string, t: string)
    requires IsWord(w) && (t == [] || IsSpace(t[0]))
    ensures NonSpaceRun(w + t) == |w|
    decreases |w|
  {
    if |w| > 1 {
      assert IsWord(w[1..]);
      RunOfWord(w[1..], t);
      assert (w + t)[1..] == w[1..] + t;
    } else {
      assert (w + t)[1..] == t;
    }
  }

  /** Re-splitting a space-joined list of words gives back the words. */
  lemma {:induction false} WordsOfJoin(ws: seq<string>)
    requires forall i :: 0 <= i < |ws| ==> IsWord(ws[i])
    ensures Words(Join(" ", ws)) == ws
    decreases |ws|
  {
    if |ws| == 1 {
      var w := ws[0];
      RunOfWord(w, "");
      assert w + "" == w;
      assert w[|w|..] == [];
    } else if |ws| > 1 {
      var w, rest := ws[0], Join(" ", ws[1..]);
      var j := Join(" ", ws);
      assert j == w + (" " + rest);
      RunOfWord(w, " " + rest);
      assert j[..|w|] == w;
      assert j[|w|..] == " " + rest;
      assert (" " + rest)[1..] == rest;
      WordsOfJoin(ws[1..]);
      assert ws == [w] + ws[1..];
    }
  }

  /** `float()` of a run of digits with at most one decimal point (`\d+\.?\d*`): never negative. */
  type Decimal = r: real | r >= 0.0

  /** `min(a, b)` on counts */
  function Min(a: nat, b: nat): nat {
    if a <= b then a else b
  }

  function DigitChar(d: nat): char
    requires d < 10
  {
    ('0' as int + d) as char
  }

  function NatToString(n: nat): (r: string)
    ensures |r| > 0
    ensures n < 10 ==> |r| == 1
    ensures 10 <= n < 100 ==> |r| == 2
  {
    if n < 10 then [DigitChar(n)] else NatToString(n / 10) + [DigitChar(n % 10)]
  }

  /** `str(i)` for an integer */
  function IntToString(i: int): string {
    if i < 0 then "-" + NatToString(-i) else NatToString(i)
  }
}
