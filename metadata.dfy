/**
  Python values that appear in chunk and document metadata dictionaries, and
  `PreprocessingAgent._clean_metadata`, which flattens them before they go to
  the vector store (the store accepts scalars only).
*/
module Metadata {
  import opened Strings

  datatype Value =
    | Str(s: string)
    | Int(i: int)
    /** a float, with its value and the text `str()` gives for it */
    | Float(x: real, text: string)
    | Bool(b: bool)
    | NoneValue
    | List(items: seq<Value>)
    /**
      any other object (a dict, a set, a tuple, ...), known by the text
      `str()` gives for it, its type name, whether it is truthy and whether
      it can be a dict key
    */
    | Other(text: string, typeName: string, truthy: bool, hashable: bool)

  type Meta = map<string, Value>

  /** `str(v)` */
  function ToStr(v: Value): string
    decreases v, 0
  {
    match v
    case Str(s) => s
    case Int(i) => IntToString(i)
    case Float(_, t) => t
    case Bool(b) => if b then "True" else "False"
    case NoneValue => "None"
    case List(items) => "[" + Join(", ", seq(|items|, k requires 0 <= k < |items| => Repr(items[k]))) + "]"
    case Other(t, _, _, _) => t
  }

  /** `repr(v)` as it appears inside a list's `str()` (quotes are not escaped in this model). */
  function Repr(v: Value): string
    decreases v, 1
  {
    if v.Str? then "'" + v.s + "'" else ToStr(v)
  }

  /** The dict display `{**m, k1: v1, k2: v2, ...}`: each field set in turn, later ones winning. */
  function Overlay(m: Meta, fields: seq<(string, Value)>): Meta
    decreases |fields|
  {
    if fields == [] then m else Overlay(m[fields[0].0 := fields[0].1], fields[1..])
  }

  /** A key no field sets keeps its value from `m`. */
  lemma {:induction false} OverlayKeeps(m: Meta, fields: seq<(string, Value)>, k: string)
    requires forall j :: 0 <= j < |fields| ==> fields[j].0 != k
    ensures k in Overlay(m, fields) <==> k in m
    ensures k in m ==> Overlay(m, fields)[k] == m[k]
    decreases |fields|
  {
    if fields != [] {
      OverlayKeeps(m[fields[0].0 := fields[0].1], fields[1..], k);
    }
  }

  /** A field that no later field overrides gives the key its value. */
  lemma {:induction false} OverlaySets(m: Meta, fields: seq<(string, Value)>, j: nat)
    requires j < |fields|
    requires forall i :: j < i < |fields| ==> fields[i].0 != fields[j].0
    ensures fields[j].0 in Overlay(m, fields) && Overlay(m, fields)[fields[j].0] == fields[j].1
    decreases |fields|
  {
    var m' := m[fields[0].0 := fields[0].1];
    if j == 0 {
      OverlayKeeps(m', fields[1..], fields[0].0);
    } else {
      OverlaySets(m', fields[1..], j - 1);
    }
  }

  /** Python truthiness. */
  predicate Truthy(v: Value) {
    match v
    case Str(s) => s != ""
    case Int(i) => i != 0
    case Float(x, _) => x != 0.0
    case Bool(b) => b
    case NoneValue => false
    case List(items) => items != []
    case Other(_, _, t, _) => t
  }

  /** Whether `hash(v)` succeeds: lists and some other objects cannot be dict keys. */
  predicate Hashable(v: Value) {
    match v
    case List(_) => false
    case Other(_, _, _, h) => h
    case _ => true
  }

  /** The name Python gives the type of `v` in its error messages. */
  function TypeName(v: Value): string {
    match v
    case Str(_) => "str"
    case Int(_) => "int"
    case Float(_, _) => "float"
    case Bool(_) => "bool"
    case NoneValue => "NoneType"
    case List(_) => "list"
    case Other(_, n, _, _) => n
  }

  /** `d.get(key, default)` */
  function Get(d: Meta, key: string, default: Value): Value {
    if key in d then d[key] else default
  }

  /** str, int, float, bool and None: the values the store accepts as they are. */
  predicate IsScalar(v: Value) {
    v.Str? || v.Int? || v.Float? || v.Bool? || v.NoneValue?
  }

  /** The per-value rule of `_clean_metadata`. */
  function CleanValue(v: Value): (r: Value)
    ensures IsScalar(r)
    ensures IsScalar(v) ==> r == v
    ensures v.List? ==> r == Str(Join(", ", seq(|v.items|, k requires 0 <= k < |v.items| => ToStr(v.items[k]))))
    ensures v.Other? ==> r == Str(v.text)
  {
    match v
    case List(items) => Str(Join(", ", seq(|items|, k requires 0 <= k < |items| => ToStr(items[k]))))
    case Other(t, _, _, _) => Str(t)
    case _ => v
  }

  /** Cleaning is idempotent: cleaned metadata passes through a second cleaning unchanged. */
  lemma CleanValueIdempotent(v: Value)
    ensures CleanValue(CleanValue(v)) == CleanValue(v)
  {
  }

  /** The dictionary `_clean_metadata` returns. */
  function Cleaned(metadata: Meta): Meta {
    map k | k in metadata :: CleanValue(metadata[k])
  }

  /** The cleaned metadata has the same keys, each value flattened to a scalar, and cleaning it again changes nothing. */
  lemma CleanedShape(metadata: Meta)
    ensures Cleaned(metadata).Keys == metadata.Keys
    ensures forall k :: k in metadata ==> Cleaned(metadata)[k] == CleanValue(metadata[k])
    ensures forall k :: k in Cleaned(metadata) ==> IsScalar(Cleaned(metadata)[k])
    ensures Cleaned(Cleaned(metadata)) == Cleaned(metadata)
  {
  }

  /** `_clean_metadata` */
  method CleanMetadata(metadata: Meta) returns (clean: Meta)
    ensures clean == Cleaned(metadata)
  {
    clean := map[];
    var todo := metadata.Keys;
    while todo != {}
      invariant todo <= metadata.Keys
      invariant clean.Keys == metadata.Keys - todo
      invariant forall k :: k in clean ==> clean[k] == CleanValue(metadata[k])
      decreases todo
    {
      var key :| key in todo;
      var value := metadata[key];
      if value.List? {
        var parts := [];
        var i := 0;
        while i < |value.items|
          invariant 0 <= i <= |value.items|
          invariant parts == seq(i, k requires 0 <= k < i => ToStr(value.items[k]))
        {
          parts := parts + [ToStr(value.items[i])];
          i := i + 1;
        }
        clean := clean[key := Str(Join(", ", parts))];
      } else if IsScalar(value) {
        clean := clean[key := value];
      } else {
        clean := clean[key := Str(ToStr(value))];
      }
      todo := todo - {key};
    }
    assert clean == Cleaned(metadata);
  }
}
