/** Tool input schemas and `MCPHttpClient.ensure_no_additional_properties`
    (api/services/mcp_service.py): a recursive rewrite that closes every
    object schema with `additionalProperties: false`. */
module Schema {
  import opened Wrappers

  /** A JSON value. Floats are not modelled. */
  datatype Json =
    | Null
    | Bool(b: bool)
    | Int(i: int)
    | Str(s: string)
    | Arr(elems: seq<Json>)
    | Obj(fields: map<string, Json>)

  /** The keys whose list values are rewritten element by element. */
  predicate IsCombinator(k: string) {
    k == "oneOf" || k == "anyOf" || k == "allOf"
  }

  /** `schema.get("type") == t`. */
  predicate HasType(f: map<string, Json>, t: string) {
    "type" in f && f["type"] == Str(t)
  }

  /** The normalised schema, or `None` where Python raises: an object schema
      whose `properties` is not a dict has no `.items()`. A non-dict value is
      returned as it is; a dict has each value rewritten by `NormalizeSlot`
      and, when it is an object schema, `additionalProperties` set to false. */
  function Normalize(j: Json): (r: Option<Json>)
    ensures !j.Obj? ==> r == Some(j)
    ensures j.Obj? && r.Some? ==> r.value.Obj? && j.fields.Keys <= r.value.fields.Keys
    ensures j.Obj? && r.Some? && HasType(j.fields, "object") ==>
      "additionalProperties" in r.value.fields && r.value.fields["additionalProperties"] == Bool(false)
    ensures j.Obj? && HasType(j.fields, "object") && "properties" in j.fields && !j.fields["properties"].Obj? ==> r.None?
    decreases j, 1
  {
    match j
    case Obj(f) =>
      var isObject, isArray := HasType(f, "object"), HasType(f, "array");
      if forall k | k in f :: NormalizeSlot(isObject, isArray, k, f[k]).Some? then
        var g := map k | k in f :: NormalizeSlot(isObject, isArray, k, f[k]).value;
        Some(Obj(if isObject then g["additionalProperties" := Bool(false)] else g))
      else None
    case _ => Some(j)
  }

  /** The new value of the value `v` stored under key `k` of a dict whose
      `type` is, or is not, "object" and "array": `properties` of an object
      schema has each of its values normalised, `items` of an array schema is
      normalised, a list under a combinator key is normalised element-wise,
      and anything else is kept. */
  function NormalizeSlot(isObject: bool, isArray: bool, k: string, v: Json): (r: Option<Json>)
    decreases v, 2
  {
    if k == "properties" && isObject then
      match v
      case Obj(p) =>
        var m := NormalizeMembers(p);
        if m.Some? then Some(Obj(m.value)) else None
      case _ => None
    else if k == "items" && isArray then
      Normalize(v)
    else if IsCombinator(k) && v.Arr? then
      var e := NormalizeElems(v.elems);
      if e.Some? then Some(Arr(e.value)) else None
    else Some(v)
  }

  /** The loop body of mcp_service.py:62-64, rewriting each value of
      `properties`. A helper of `Normalize` with no property of its own:
      its ensures only spell out the comprehension for the callers. */
  function NormalizeMembers(p: map<string, Json>): (r: Option<map<string, Json>>)
    ensures r.Some? <==> forall q | q in p :: Normalize(p[q]).Some?
    ensures r.Some? ==> r.value.Keys == p.Keys && forall q | q in p :: Some(r.value[q]) == Normalize(p[q])
    decreases Obj(p), 1
  {
    if forall q | q in p :: Normalize(p[q]).Some? then
      Some(map q | q in p :: Normalize(p[q]).value)
    else None
  }

  /** The list comprehension of mcp_service.py:68-70, rewriting each
      element of a combinator list. A helper of `Normalize` with no
      property of its own: its ensures only spell out the comprehension. */
  function NormalizeElems(s: seq<Json>): (r: Option<seq<Json>>)
    ensures r.Some? <==> forall i | 0 <= i < |s| :: Normalize(s[i]).Some?
    ensures r.Some? ==> |r.value| == |s| && forall i | 0 <= i < |s| :: Some(r.value[i]) == Normalize(s[i])
    decreases Arr(s), 1
  {
    if forall i | 0 <= i < |s| :: Normalize(s[i]).Some? then
      Some(seq(|s|, i requires 0 <= i < |s| => Normalize(s[i]).value))
    else None
  }

  /** A schema in normal form: every object schema reachable through
      `properties`, `items` of an array schema and the combinator lists has
      `additionalProperties: false` and a dict under `properties`. */
  predicate Closed(j: Json)
    decreases j, 1
  {
    match j
    case Obj(f) =>
      var isObject, isArray := HasType(f, "object"), HasType(f, "array");
      && (isObject ==> "additionalProperties" in f && f["additionalProperties"] == Bool(false))
      && forall k | k in f :: SlotClosed(isObject, isArray, k, f[k])
    case _ => true
  }

  predicate SlotClosed(isObject: bool, isArray: bool, k: string, v: Json)
    decreases v, 2
  {
    if k == "properties" && isObject then
      v.Obj? && forall q | q in v.fields :: Closed(v.fields[q])
    else if k == "items" && isArray then
      Closed(v)
    else if IsCombinator(k) && v.Arr? then
      forall i | 0 <= i < |v.elems| :: Closed(v.elems[i])
    else true
  }

  /** The schemas the rewrite accepts: every object schema it visits has a
      dict, or nothing, under `properties`. */
  predicate Normalizable(j: Json)
    decreases j, 1
  {
    match j
    case Obj(f) =>
      var isObject, isArray := HasType(f, "object"), HasType(f, "array");
      forall k | k in f :: SlotNormalizable(isObject, isArray, k, f[k])
    case _ => true
  }

  predicate SlotNormalizable(isObject: bool, isArray: bool, k: string, v: Json)
    decreases v, 2
  {
    if k == "properties" && isObject then
      v.Obj? && forall q | q in v.fields :: Normalizable(v.fields[q])
    else if k == "items" && isArray then
      Normalizable(v)
    else if IsCombinator(k) && v.Arr? then
      forall i | 0 <= i < |v.elems| :: Normalizable(v.elems[i])
    else true
  }

  /** One level of the rewrite on a dict `f` that it accepts: the keys are
      kept, gaining `additionalProperties` (set to false) in an object schema;
      the values under `properties` of an object schema are normalised with
      the same keys; `items` is normalised only in an array schema; a list
      under a combinator key keeps its length and is normalised element-wise,
      a non-list there is kept; every other key keeps its value. */
  lemma NormalizeShape(f: map<string, Json>)
    requires Normalize(Obj(f)).Some?
    ensures var n := Normalize(Obj(f)).value;
      && n.Obj?
      && n.fields.Keys == f.Keys + (if HasType(f, "object") then {"additionalProperties"} else {})
      && (HasType(f, "object") ==> n.fields["additionalProperties"] == Bool(false))
    ensures var n := Normalize(Obj(f)).value.fields;
      forall k | k in f && k != "properties" && k != "items" && !IsCombinator(k)
        && !(HasType(f, "object") && k == "additionalProperties") :: n[k] == f[k]
    ensures var n := Normalize(Obj(f)).value.fields;
      "properties" in f && HasType(f, "object") ==>
        && f["properties"].Obj? && n["properties"].Obj?
        && n["properties"].fields.Keys == f["properties"].fields.Keys
        && forall q | q in f["properties"].fields ::
             Some(n["properties"].fields[q]) == Normalize(f["properties"].fields[q])
    ensures var n := Normalize(Obj(f)).value.fields;
      "properties" in f && !HasType(f, "object") ==> n["properties"] == f["properties"]
    ensures var n := Normalize(Obj(f)).value.fields;
      && ("items" in f && HasType(f, "array") ==> Some(n["items"]) == Normalize(f["items"]))
      && ("items" in f && !HasType(f, "array") ==> n["items"] == f["items"])
    ensures var n := Normalize(Obj(f)).value.fields;
      forall k | k in f && IsCombinator(k) && !f[k].Arr? :: n[k] == f[k]
    ensures var n := Normalize(Obj(f)).value.fields;
      forall k | k in f && IsCombinator(k) && f[k].Arr? ::
        n[k].Arr? && |n[k].elems| == |f[k].elems|
        && forall i | 0 <= i < |f[k].elems| :: Some(n[k].elems[i]) == Normalize(f[k].elems[i])
  {
    NormalizeKeys(f);
    NormalizeSlots(f);
    if "properties" in f && HasType(f, "object") {
      NormalizeProperties(f);
    }
    NormalizeCombinators(f);
  }

  /** An accepted dict keeps its keys, and an object schema gains
      `additionalProperties: false`. */
  lemma NormalizeKeys(f: map<string, Json>)
    requires Normalize(Obj(f)).Some?
    ensures var n := Normalize(Obj(f)).value;
      && n.Obj?
      && n.fields.Keys == f.Keys + (if HasType(f, "object") then {"additionalProperties"} else {})
      && (HasType(f, "object") ==> n.fields["additionalProperties"] == Bool(false))
  {
  }

  /** `properties` of an accepted object schema is a dict whose values are
      all rewritten, with the same keys. */
  lemma NormalizeProperties(f: map<string, Json>)
    requires Normalize(Obj(f)).Some? && "properties" in f && HasType(f, "object")
    ensures var n := Normalize(Obj(f)).value.fields;
      && f["properties"].Obj? && n["properties"].Obj?
      && n["properties"].fields.Keys == f["properties"].fields.Keys
      && forall q | q in f["properties"].fields ::
           Some(n["properties"].fields[q]) == Normalize(f["properties"].fields[q])
  {
    NormalizeSlots(f);
    assert NormalizeSlot(true, HasType(f, "array"), "properties", f["properties"]).Some?;
  }

  /** A list under a combinator key is rewritten element by element. */
  lemma NormalizeCombinators(f: map<string, Json>)
    requires Normalize(Obj(f)).Some?
    ensures var n := Normalize(Obj(f)).value.fields;
      forall k | k in f && IsCombinator(k) && f[k].Arr? ::
        n[k].Arr? && |n[k].elems| == |f[k].elems|
        && forall i | 0 <= i < |f[k].elems| :: Some(n[k].elems[i]) == Normalize(f[k].elems[i])
  {
    NormalizeSlots(f);
  }

  /** Each kept key of an accepted dict holds the rewrite of its value. */
  lemma NormalizeSlots(f: map<string, Json>)
    requires Normalize(Obj(f)).Some?
    ensures var n := Normalize(Obj(f)).value.fields;
      var isObject, isArray := HasType(f, "object"), HasType(f, "array");
      forall k | k in f && !(isObject && k == "additionalProperties") ::
        k in n && NormalizeSlot(isObject, isArray, k, f[k]) == Some(n[k])
  {
    var n := Normalize(Obj(f)).value.fields;
    var isObject, isArray := HasType(f, "object"), HasType(f, "array");
    forall k | k in f && !(isObject && k == "additionalProperties")
      ensures k in n && NormalizeSlot(isObject, isArray, k, f[k]) == Some(n[k])
    {
      assert NormalizeSlot(isObject, isArray, k, f[k]).Some?;
    }
  }

  /** Every object schema the rewrite reaches in its output is closed. */
  lemma {:induction false} NormalizeClosed(j: Json)
    requires Normalize(j).Some?
    ensures Closed(Normalize(j).value)
    decreases j, 1
  {
    match j
    case Obj(f) =>
      var isObject, isArray := HasType(f, "object"), HasType(f, "array");
      var n := Normalize(j).value.fields;
      assert HasType(n, "object") == isObject && HasType(n, "array") == isArray;
      forall k | k in n ensures SlotClosed(isObject, isArray, k, n[k]) {
        if k in f && !(isObject && k == "additionalProperties") {
          assert NormalizeSlot(isObject, isArray, k, f[k]).Some?;
          SlotNormalizeClosed(isObject, isArray, k, f[k]);
        }
      }
    case _ =>
  }

  lemma {:induction false} SlotNormalizeClosed(isObject: bool, isArray: bool, k: string, v: Json)
    requires NormalizeSlot(isObject, isArray, k, v).Some?
    ensures SlotClosed(isObject, isArray, k, NormalizeSlot(isObject, isArray, k, v).value)
    decreases v, 2
  {
    if k == "properties" && isObject {
      var p := v.fields;
      forall q | q in p ensures Closed(Normalize(p[q]).value) {
        NormalizeClosed(p[q]);
      }
    } else if k == "items" && isArray {
      NormalizeClosed(v);
    } else if IsCombinator(k) && v.Arr? {
      var s := v.elems;
      forall i | 0 <= i < |s| ensures Closed(Normalize(s[i]).value) {
        NormalizeClosed(s[i]);
      }
    }
  }

  /** A closed schema is left exactly as it is. */
  lemma {:induction false} ClosedFixpoint(j: Json)
    requires Closed(j)
    ensures Normalize(j) == Some(j)
    decreases j, 1
  {
    match j
    case Obj(f) =>
      var isObject, isArray := HasType(f, "object"), HasType(f, "array");
      forall k | k in f ensures NormalizeSlot(isObject, isArray, k, f[k]) == Some(f[k]) {
        SlotClosedFixpoint(isObject, isArray, k, f[k]);
      }
      var g := map k | k in f :: NormalizeSlot(isObject, isArray, k, f[k]).value;
      assert g == f;
      if isObject {
        assert g["additionalProperties" := Bool(false)] == f;
      }
    case _ =>
  }

  lemma {:induction false} SlotClosedFixpoint(isObject: bool, isArray: bool, k: string, v: Json)
    requires SlotClosed(isObject, isArray, k, v)
    ensures NormalizeSlot(isObject, isArray, k, v) == Some(v)
    decreases v, 2
  {
    if k == "properties" && isObject {
      var p := v.fields;
      forall q | q in p ensures Normalize(p[q]) == Some(p[q]) {
        ClosedFixpoint(p[q]);
      }
      assert NormalizeMembers(p).value == p;
    } else if k == "items" && isArray {
      ClosedFixpoint(v);
    } else if IsCombinator(k) && v.Arr? {
      var s := v.elems;
      forall i | 0 <= i < |s| ensures Normalize(s[i]) == Some(s[i]) {
        ClosedFixpoint(s[i]);
      }
      assert NormalizeElems(s).value == s;
    }
  }

  /** Normalising twice is normalising once. */
  lemma NormalizeIdempotent(j: Json)
    requires Normalize(j).Some?
    ensures Normalize(Normalize(j).value) == Normalize(j)
  {
    NormalizeClosed(j);
    ClosedFixpoint(Normalize(j).value);
  }

  /** The schemas the rewrite leaves unchanged are exactly the closed ones. */
  lemma FixpointIffClosed(j: Json)
    ensures Normalize(j) == Some(j) <==> Closed(j)
  {
    if Normalize(j) == Some(j) {
      NormalizeClosed(j);
    }
    if Closed(j) {
      ClosedFixpoint(j);
    }
  }

  /** The rewrite fails exactly on the schemas that are not normalisable. */
  lemma {:induction false} NormalizeDefined(j: Json)
    ensures Normalize(j).Some? <==> Normalizable(j)
    decreases j, 1
  {
    match j
    case Obj(f) =>
      var isObject, isArray := HasType(f, "object"), HasType(f, "array");
      forall k | k in f
        ensures NormalizeSlot(isObject, isArray, k, f[k]).Some? <==> SlotNormalizable(isObject, isArray, k, f[k])
      {
        SlotNormalizeDefined(isObject, isArray, k, f[k]);
      }
    case _ =>
  }

  lemma {:induction false} SlotNormalizeDefined(isObject: bool, isArray: bool, k: string, v: Json)
    ensures NormalizeSlot(isObject, isArray, k, v).Some? <==> SlotNormalizable(isObject, isArray, k, v)
    decreases v, 2
  {
    if k == "properties" && isObject {
      if v.Obj? {
        var p := v.fields;
        forall q | q in p ensures Normalize(p[q]).Some? <==> Normalizable(p[q]) {
          NormalizeDefined(p[q]);
        }
      }
    } else if k == "items" && isArray {
      NormalizeDefined(v);
    } else if IsCombinator(k) && v.Arr? {
      var s := v.elems;
      forall i | 0 <= i < |s| ensures Normalize(s[i]).Some? <==> Normalizable(s[i]) {
        NormalizeDefined(s[i]);
      }
    }
  }
}
