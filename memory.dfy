/**
  `ChatMemory`: the recent turns of the conversation, kept to `buffer_size`,
  and an append-only map of facts learnt about each well.

  The clock (`datetime.now().isoformat()`) enters as the parameter `now`, the
  depth search `(\d{3,4})\s*m` as `depthOf` and the well-id search of a query
  as `wellsIn`.
*/
module Memory {
  import opened Wrappers
  import opened Strings
  import opened Metadata

  /** One stored turn. */
  datatype Turn = Turn(timestamp: string, query: string, answer: string, metadata: Meta)

  /** The facts kept about a well: the answers only ever record a depth. */
  datatype Facts = Facts(depth: Option<string>)

  /** A stored answer keeps its first 500 characters. */
  const MaxAnswer := 500

  /** The context shows the last 3 turns, 100 characters of a query and 200 of an answer. */
  const ShownTurns := 3
  const ShownQuery := 100
  const ShownAnswer := 200

  /** The turn `add_turn` stores; `metadata or {}` is the empty dict for `None` and for `{}`. */
  function TurnOf(now: string, query: string, answer: string, metadata: Option<Meta>): Turn {
    Turn(now, query, Take(answer, MaxAnswer), metadata.GetOr(map[]))
  }

  /** `str(facts)`: the dict display of the facts of a well. */
  function FactsText(f: Facts): string {
    match f.depth
    case None => "{}"
    case Some(d) => "{'depth': '" + d + "'}"
  }

  /** The well key a truthy metadata dict names, if any. */
  function WellKey(enabled: bool, metadata: Option<Meta>): Option<Value> {
    if !enabled || metadata.None? || metadata.value == map[] then None
    else
      var w := Get(metadata.value, "well_name", NoneValue);
      if Truthy(w) then Some(w) else None
  }

  /**
    The well facts after a turn: a well named by the metadata gains an entry,
    and its depth is the answer's when the answer talks about depth and one
    is found. A list, a dict or a set is not a valid dict key.
  */
  function Remember(ctx: map<Value, Facts>, enabled: bool, metadata: Option<Meta>, answer: string,
                    depthOf: string -> Option<string>): Result<map<Value, Facts>>
  {
    var key := WellKey(enabled, metadata);
    if key.None? then Ok(ctx)
    else if !Hashable(key.value) then Err(TypeError("unhashable type: '" + TypeName(key.value) + "'"))
    else
      var w := key.value;
      var facts := if w in ctx then ctx[w] else Facts(None);
      var depth := if Contains(Lower(answer), "depth") then depthOf(answer) else None;
      Ok(ctx[w := if depth.Some? then Facts(depth) else facts])
  }

  /** The context line of one turn. */
  function TurnLine(t: Turn): string {
    "Previous Q: " + Take(t.query, ShownQuery) + "\nA: " + Take(t.answer, ShownAnswer)
  }

  function TurnLines(turns: seq<Turn>): (r: seq<string>)
    ensures |r| == |turns|
    ensures forall i :: 0 <= i < |r| ==> r[i] == TurnLine(turns[i])
  {
    seq(|turns|, i requires 0 <= i < |turns| => TurnLine(turns[i]))
  }

  function FactLine(well: string, f: Facts): string {
    "\nKnown facts about " + well + ": " + FactsText(f)
  }

  /** The fact lines of the first `n` well ids of the query that the memory knows. */
  function FactLines(wells: seq<string>, n: nat, ctx: map<Value, Facts>): seq<string>
    requires n <= |wells|
  {
    if n == 0 then []
    else
      var w := wells[n - 1];
      FactLines(wells, n - 1, ctx) + (if Str(w) in ctx then [FactLine(w, ctx[Str(w)])] else [])
  }

  /** The parts of the context: the last turns, then the known wells of the query. */
  function ContextParts(buffer: seq<Turn>, ctx: map<Value, Facts>, wells: seq<string>): seq<string> {
    TurnLines(Tail(buffer, ShownTurns)) + FactLines(wells, |wells|, ctx)
  }

  /** `get_context(query)` over a given buffer and well map. */
  function ContextText(buffer: seq<Turn>, ctx: map<Value, Facts>, query: string, wellsIn: string -> seq<string>): string {
    if buffer == [] then "" else Join("\n\n", ContextParts(buffer, ctx, wellsIn(query)))
  }

  class ChatMemory {
    const bufferSize: nat
    const enableWellContext: bool
    var buffer: seq<Turn>
    var wellContext: map<Value, Facts>
    /** Every turn added since the memory was created or cleared. */
    ghost var history: seq<Turn>

    /** The buffer is the last `buffer_size` turns of the history (all of it when that is 0). */
    ghost predicate Valid()
      reads this
    {
      buffer == Tail(history, bufferSize)
    }

    constructor (bufferSize: nat, enableWellContext: bool)
      ensures Valid()
      ensures this.bufferSize == bufferSize && this.enableWellContext == enableWellContext
      ensures buffer == [] && wellContext == map[] && history == []
    {
      this.bufferSize := bufferSize;
      this.enableWellContext := enableWellContext;
      buffer := [];
      wellContext := map[];
      history := [];
    }

    /** `add_turn(query, answer, metadata)` */
    method AddTurn(query: string, answer: string, metadata: Option<Meta>, now: string,
                   depthOf: string -> Option<string>) returns (r: Result<()>)
      requires Valid()
      modifies this
      ensures Valid()
      ensures history == old(history) + [TurnOf(now, query, answer, metadata)]
      ensures buffer == Tail(old(buffer) + [TurnOf(now, query, answer, metadata)], bufferSize)
      ensures var m := Remember(old(wellContext), enableWellContext, metadata, answer, depthOf);
        && (m.Ok? ==> r == Ok(()) && wellContext == m.value)
        && (m.Err? ==> r == Err(m.error) && wellContext == old(wellContext))
    {
      var turn := Turn(now, query, Take(answer, MaxAnswer), if metadata.Some? then metadata.value else map[]);
      TailSnoc(history, turn, bufferSize);
      buffer := buffer + [turn];
      history := history + [turn];
      if |buffer| > bufferSize {
        // `self.buffer[-self.buffer_size:]`, where `-0` keeps the whole list
        buffer := if bufferSize == 0 then buffer else buffer[|buffer| - bufferSize..];
      }
      r := RememberWell(metadata, answer, depthOf);
    }

    /** The well-fact part of `add_turn`. */
    method RememberWell(metadata: Option<Meta>, answer: string, depthOf: string -> Option<string>) returns (r: Result<()>)
      modifies this
      ensures buffer == old(buffer) && history == old(history)
      ensures var m := Remember(old(wellContext), enableWellContext, metadata, answer, depthOf);
        && (m.Ok? ==> r == Ok(()) && wellContext == m.value)
        && (m.Err? ==> r == Err(m.error) && wellContext == old(wellContext))
    {
      r := Ok(());
      if enableWellContext && metadata.Some? && metadata.value != map[] {
        var wellName := if "well_name" in metadata.value then metadata.value["well_name"] else NoneValue;
        if Truthy(wellName) {
          if !Hashable(wellName) {
            return Err(TypeError("unhashable type: '" + TypeName(wellName) + "'"));
          }
          if wellName !in wellContext {
            wellContext := wellContext[wellName := Facts(None)];
          }
          if Contains(Lower(answer), "depth") {
            var depth := depthOf(answer);
            if depth.Some? {
              wellContext := wellContext[wellName := Facts(depth)];
            }
          }
        }
      }
    }

    /** `get_context(query)` */
    method GetContext(query: string, wellsIn: string -> seq<string>) returns (s: string)
      ensures s == ContextText(buffer, wellContext, query, wellsIn)
    {
      if buffer == [] {
        return "";
      }
      var recent := Tail(buffer, ShownTurns);
      var wells := wellsIn(query);
      var turnParts := RenderTurns(recent);
      var parts := AppendFacts(turnParts, wells, wellContext);
      s := Join("\n\n", parts);
      assert parts == ContextParts(buffer, wellContext, wells);
    }

    /** `clear()` */
    method Clear()
      modifies this
      ensures Valid()
      ensures buffer == [] && wellContext == map[] && history == []
    {
      buffer := [];
      wellContext := map[];
      history := [];
    }
  }

  /** The loop over the recent turns of `get_context`. */
  method RenderTurns(recent: seq<Turn>) returns (parts: seq<string>)
    ensures parts == TurnLines(recent)
  {
    parts := [];
    var i := 0;
    while i < |recent|
      invariant 0 <= i <= |recent|
      invariant parts == TurnLines(recent[..i])
    {
      assert recent[..i + 1] == recent[..i] + [recent[i]];
      parts := parts + [TurnLine(recent[i])];
      i := i + 1;
    }
    assert recent[..|recent|] == recent;
  }

  /** The loop over the query's well ids of `get_context`: the facts of each known one. */
  method AppendFacts(init: seq<string>, wells: seq<string>, ctx: map<Value, Facts>) returns (parts: seq<string>)
    ensures parts == init + FactLines(wells, |wells|, ctx)
  {
    parts := init;
    var k := 0;
    while k < |wells|
      invariant 0 <= k <= |wells|
      invariant parts == init + FactLines(wells, k, ctx)
    {
      if Str(wells[k]) in ctx {
        parts := parts + [FactLine(wells[k], ctx[Str(wells[k])])];
      }
      k := k + 1;
    }
  }

  // ---------------------------------------------------------------- properties

  /** Trimming before or after appending a turn keeps the same last turns. */
  lemma TailSnoc(h: seq<Turn>, t: Turn, n: nat)
    ensures Tail(Tail(h, n) + [t], n) == Tail(h + [t], n)
  {
    if n > 0 && n < |h| {
      var a := Tail(h, n) + [t];
      var b := h + [t];
      assert Tail(a, n) == a[1..];
      forall i | 0 <= i < n ensures Tail(a, n)[i] == Tail(b, n)[i] {
      }
    }
  }

  /**
    The buffer slides: a new turn goes last, and the oldest turn leaves only
    when a buffer of positive size is already full.
  */
  lemma {:induction false} BufferSlides(history: seq<Turn>, t: Turn, n: nat)
    ensures var before := Tail(history, n);
      Tail(history + [t], n) == (if n > 0 && |before| == n then before[1..] else before) + [t]
  {
    var before := Tail(history, n);
    var after := Tail(history + [t], n);
    var expected := (if n > 0 && |before| == n then before[1..] else before) + [t];
    assert |after| == |expected|;
    forall i | 0 <= i < |after| ensures after[i] == expected[i] {
      if i < |after| - 1 {
        assert (history + [t])[|history + [t]| - |after| + i] == history[|history| - |after| + 1 + i];
      }
    }
  }

  /**
    The well map only grows: no well is forgotten, a recorded depth stays
    recorded, and facts change only for the well of the turn, and then only
    when the answer mentions depth.
  */
  lemma RememberGrows(ctx: map<Value, Facts>, enabled: bool, metadata: Option<Meta>, answer: string,
                      depthOf: string -> Option<string>)
    requires Remember(ctx, enabled, metadata, answer, depthOf).Ok?
    ensures var m := Remember(ctx, enabled, metadata, answer, depthOf).value;
      && ctx.Keys <= m.Keys
      && (forall w :: w in ctx && ctx[w].depth.Some? ==> m[w].depth.Some?)
      && (forall w :: w in ctx && Some(w) != WellKey(enabled, metadata) ==> m[w] == ctx[w])
      && (!Contains(Lower(answer), "depth") ==> forall w :: w in ctx ==> m[w] == ctx[w])
  {
  }

  /**
    A truthy `well_name` (with the feature on and metadata given) gets an
    entry even without a depth; an unhashable one (a list, a dict) raises; otherwise nothing changes.
  */
  lemma RememberMeaning(ctx: map<Value, Facts>, enabled: bool, metadata: Option<Meta>, answer: string,
                     depthOf: string -> Option<string>)
    ensures var key := WellKey(enabled, metadata);
      var m := Remember(ctx, enabled, metadata, answer, depthOf);
      && (key.None? ==> m == Ok(ctx))
      && (key.Some? && !Hashable(key.value) ==> m.Err?)
      && (key.Some? && Hashable(key.value) ==>
            && m.Ok? && m.value.Keys == ctx.Keys + {key.value}
            && (Contains(Lower(answer), "depth") && depthOf(answer).Some? ==> m.value[key.value] == Facts(depthOf(answer))))
    ensures WellKey(enabled, metadata).Some? <==>
      enabled && metadata.Some? && "well_name" in metadata.value && Truthy(metadata.value["well_name"])
  {
  }

  /** The fact lines are those of the well ids of the query the memory knows, in query order. */
  lemma {:induction false} FactLinesMeaning(wells: seq<string>, n: nat, ctx: map<Value, Facts>)
    requires n <= |wells|
    ensures var r := FactLines(wells, n, ctx);
      && |r| <= n
      && forall x :: x in r <==> exists i :: 0 <= i < n && Str(wells[i]) in ctx && x == FactLine(wells[i], ctx[Str(wells[i])])
    decreases n
  {
    if n > 0 {
      FactLinesMeaning(wells, n - 1, ctx);
    }
  }

  /**
    The context of a non-empty memory is made of the lines of its last 3
    turns (fewer when it holds fewer), oldest first, then one line per well
    id of the query that the memory knows.
  */
  lemma ContextPartsMeaning(buffer: seq<Turn>, ctx: map<Value, Facts>, wells: seq<string>)
    ensures var parts := ContextParts(buffer, ctx, wells);
      var k := Min(|buffer|, ShownTurns);
      && k <= |parts| <= k + |wells|
      && (forall i :: 0 <= i < k ==> parts[i] == TurnLine(buffer[|buffer| - k + i]))
      && parts[k..] == FactLines(wells, |wells|, ctx)
  {
    FactLinesMeaning(wells, |wells|, ctx);
    var recent := Tail(buffer, ShownTurns);
    var k := Min(|buffer|, ShownTurns);
    var lines := TurnLines(recent);
    var facts := FactLines(wells, |wells|, ctx);
    var parts := lines + facts;
    assert ContextParts(buffer, ctx, wells) == parts;
    assert |recent| == k == |lines|;
    assert parts[k..] == facts;
    forall i | 0 <= i < k ensures parts[i] == TurnLine(buffer[|buffer| - k + i]) {
      assert parts[i] == lines[i];
      assert recent[i] == buffer[|buffer| - k + i];
    }
  }

  /** A turn's context line is at most 316 characters long. */
  lemma TurnLineLength(t: Turn)
    ensures |TurnLine(t)| <= 12 + ShownQuery + 4 + ShownAnswer
  {
  }

  /** A stored turn keeps the query, the first 500 characters of the answer, and `{}` for missing metadata. */
  lemma StoredTurn(now: string, query: string, answer: string, metadata: Option<Meta>)
    ensures var t := TurnOf(now, query, answer, metadata);
      && t.query == query && t.answer <= answer && |t.answer| == Min(|answer|, MaxAnswer)
      && (metadata.None? ==> t.metadata == map[])
      && (metadata.Some? ==> t.metadata == metadata.value)
  {
  }
}
