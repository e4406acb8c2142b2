/**
 Reading a bootstrap configuration object: where its machine configuration or its
 strategic patches are found, and the patch list two such objects give rise to.
 */
module Bootstrap {
  import opened Wrappers
  import opened Json
  import opened ConfigTree
  import opened PatchList

  /**
   The text formats, as deterministic partial functions: JSON decoding and encoding,
   parsing a machine configuration, loading one strategic patch, and whether a merged
   configuration can be written out again.
   */
  datatype Codec = Codec(
    decode: string -> Option<Json>,
    encode: Json -> string,
    parseConfig: string -> Option<Document>,
    loadPatch: string -> Option<Patch>,
    encodable: Document -> bool)

  /** The object's `spec`, when it is itself an object. */
  function SpecOf(codec: Codec, raw: string): Option<map<string, Json>> {
    var obj := codec.decode(raw);
    if obj.Some? && obj.value.Obj? && "spec" in obj.value.fields && obj.value.fields["spec"].Obj?
    then Some(obj.value.fields["spec"].fields)
    else None
  }

  predicate HasText(spec: map<string, Json>, field: string) {
    field in spec && spec[field].Str? && spec[field].s != ""
  }

  /** The machine configuration text: three known fields in turn, or the spec itself. */
  function ExtractConfig(codec: Codec, raw: string): Option<string> {
    if raw == "" then None
    else
      var spec := SpecOf(codec, raw);
      if spec.None? then None
      else if HasText(spec.value, "talosConfig") then Some(spec.value["talosConfig"].s)
      else if HasText(spec.value, "data") then Some(spec.value["data"].s)
      else if HasText(spec.value, "machineConfig") then Some(spec.value["machineConfig"].s)
      else if "machine" in spec.value then Some(codec.encode(Obj(spec.value)))
      else None
  }

  // ---------------------------------------------------------------- where a configuration is found

  /** The text decodes to an object whose `spec` is this object, whatever else it holds. */
  predicate SpecIs(codec: Codec, raw: string, spec: map<string, Json>) {
    && raw != ""
    && codec.decode(raw).Some? && codec.decode(raw).value.Obj?
    && Get(codec.decode(raw).value.fields, "spec") == Some(Obj(spec))
  }

  /** There is no text under this name: nothing, something else, or the empty text. */
  ghost predicate NoText(spec: map<string, Json>, field: string) {
    forall s :: s != "" ==> Get(spec, field) != Some(Str(s))
  }

  /** The configuration text of a `spec`, by its order of precedence. */
  ghost predicate ConfigTextIs(codec: Codec, spec: map<string, Json>, text: string) {
    || (Get(spec, "talosConfig") == Some(Str(text)) && text != "")
    || (NoText(spec, "talosConfig") && Get(spec, "data") == Some(Str(text)) && text != "")
    || (NoText(spec, "talosConfig") && NoText(spec, "data")
        && Get(spec, "machineConfig") == Some(Str(text)) && text != "")
    || (NoText(spec, "talosConfig") && NoText(spec, "data") && NoText(spec, "machineConfig")
        && "machine" in spec && text == codec.encode(Obj(spec)))
  }

  /** Exactly these texts are found, for all raw text; without an object `spec` there is none. */
  lemma ExtractConfigExactlyWhen(codec: Codec, raw: string, text: string)
    ensures ExtractConfig(codec, raw) == Some(text)
       <==> exists spec :: SpecIs(codec, raw, spec) && ConfigTextIs(codec, spec, text)
  {
    var found := SpecOf(codec, raw);
    assert forall spec :: SpecIs(codec, raw, spec) ==> found == Some(spec);
    if raw != "" && found.Some? {
      var spec := found.value;
      assert SpecIs(codec, raw, spec);
      HasTextExactlyWhen(spec, "talosConfig");
      HasTextExactlyWhen(spec, "data");
      HasTextExactlyWhen(spec, "machineConfig");
      hide SpecIs, SpecOf, HasText, NoText;
      assert ExtractConfig(codec, raw) == Some(text) <==> ConfigTextIs(codec, spec, text);
    }
  }

  lemma HasTextExactlyWhen(spec: map<string, Json>, field: string)
    ensures HasText(spec, field) <==> !NoText(spec, field)
    ensures HasText(spec, field) ==> spec[field].s != "" && Get(spec, field) == Some(Str(spec[field].s))
  {
  }

  function ParsedConfig(codec: Codec, raw: string): Option<Document> {
    var text := ExtractConfig(codec, raw);
    if text.Some? then codec.parseConfig(text.value) else None
  }

  /** The template change between two bootstrap objects, when both carry a full configuration. */
  function Derive(codec: Codec, current: string, desired: string): Option<seq<Patch>> {
    var cur, des := ParsedConfig(codec, current), ParsedConfig(codec, desired);
    if cur.Some? && des.Some? then Some(DiffList(cur.value, des.value)) else None
  }

  /** The raw text carries this configuration. */
  ghost predicate ConfigIs(codec: Codec, raw: string, doc: Document) {
    exists spec, text ::
      SpecIs(codec, raw, spec) && ConfigTextIs(codec, spec, text) && codec.parseConfig(text) == Some(doc)
  }

  lemma ParsedConfigExactlyWhen(codec: Codec, raw: string, doc: Document)
    ensures ParsedConfig(codec, raw) == Some(doc) <==> ConfigIs(codec, raw, doc)
  {
    hide ExtractConfig, ConfigTextIs, SpecIs;
    if ConfigIs(codec, raw, doc) {
      var spec, text :|
        SpecIs(codec, raw, spec) && ConfigTextIs(codec, spec, text) && codec.parseConfig(text) == Some(doc);
      ExtractConfigExactlyWhen(codec, raw, text);
    }
    if ExtractConfig(codec, raw).Some? {
      ExtractConfigExactlyWhen(codec, raw, ExtractConfig(codec, raw).value);
    }
  }

  /** A change is derived exactly from two texts that both carry a configuration, and it is their difference. */
  lemma DeriveExactlyWhen(codec: Codec, current: string, desired: string, ps: seq<Patch>)
    ensures Derive(codec, current, desired) == Some(ps)
       <==> exists cur, des ::
              ConfigIs(codec, current, cur) && ConfigIs(codec, desired, des) && ps == DiffList(cur, des)
  {
    hide ParsedConfig, ConfigIs, DiffList;
    forall doc
      ensures ParsedConfig(codec, current) == Some(doc) <==> ConfigIs(codec, current, doc)
      ensures ParsedConfig(codec, desired) == Some(doc) <==> ConfigIs(codec, desired, doc)
    {
      ParsedConfigExactlyWhen(codec, current, doc);
      ParsedConfigExactlyWhen(codec, desired, doc);
    }
  }

  // ---------------------------------------------------------------- strategic patches

  datatype ExtractError = NotAnObject | NoSpec | NotAnArray

  /** The string elements of an array, in order; anything else is skipped. */
  function Strings(items: seq<Json>): seq<string> {
    if items == [] then []
    else if items[|items| - 1].Str? then Strings(items[..|items| - 1]) + [items[|items| - 1].s]
    else Strings(items[..|items| - 1])
  }

  /** Exactly the positions that hold strings, in increasing order, give the result. */
  lemma {:induction false} StringsPositions(items: seq<Json>) returns (at: seq<nat>)
    ensures |at| == |Strings(items)|
    ensures forall i :: 0 <= i < |at| ==> at[i] < |items| && items[at[i]] == Str(Strings(items)[i])
    ensures forall i, j :: 0 <= i < j < |at| ==> at[i] < at[j]
    ensures forall n :: 0 <= n < |items| && items[n].Str? ==> n in at
    decreases |items|
  {
    if items == [] {
      return [];
    }
    var last := |items| - 1;
    at := StringsPositions(items[..last]);
    if items[last].Str? {
      at := at + [last];
    }
  }

  function StrategicPatches(codec: Codec, raw: string): Result<seq<string>, ExtractError> {
    if raw == "" then Ok([])
    else
      var obj := codec.decode(raw);
      if obj.None? || !(obj.value.Obj? || obj.value.Null?) then Err(NotAnObject)
      else
        var spec := SpecOf(codec, raw);
        if spec.None? then Err(NoSpec)
        else if "strategicPatches" !in spec.value then Ok([])
        else if !spec.value["strategicPatches"].Arr? then Err(NotAnArray)
        else Ok(Strings(spec.value["strategicPatches"].items))
  }

  /** What is read from the raw text: its errors, nothing, or the string elements of `spec.strategicPatches`. */
  lemma StrategicPatchesCases(codec: Codec, raw: string)
    ensures var r, decoded := StrategicPatches(codec, raw), codec.decode(raw);
      && (raw == "" ==> r == Ok([]))
      && (raw != "" && (decoded.None? || !(decoded.value.Obj? || decoded.value.Null?)) ==> r == Err(NotAnObject))
      && (raw != "" && decoded.Some? && (decoded.value.Obj? || decoded.value.Null?) ==>
            r == Err(NoSpec) || exists spec :: SpecIs(codec, raw, spec))
      && forall spec: map<string, Json> :: SpecIs(codec, raw, spec) ==>
           && ("strategicPatches" !in spec ==> r == Ok([]))
           && ("strategicPatches" in spec && !spec["strategicPatches"].Arr? ==> r == Err(NotAnArray))
           && (forall items :: Get(spec, "strategicPatches") == Some(Arr(items)) ==> r == Ok(Strings(items)))
  {
    hide Strings;
    assert SpecOf(codec, raw).Some? && raw != "" ==> SpecIs(codec, raw, SpecOf(codec, raw).value);
  }

  /** Loading stops at the first text that is not a patch, and reports its position. */
  function LoadAll(codec: Codec, texts: seq<string>): Result<seq<Patch>, nat> {
    if texts == [] then Ok([])
    else
      var n := |texts| - 1;
      var earlier := LoadAll(codec, texts[..n]);
      if earlier.Err? then earlier
      else
        var last := codec.loadPatch(texts[n]);
        if last.None? then Err(n) else Ok(earlier.value + [last.value])
  }

  /** Collects the string elements one by one, as the handler does. */
  method ExtractStrategicPatches(codec: Codec, raw: string) returns (r: Result<seq<string>, ExtractError>)
    ensures r == StrategicPatches(codec, raw)
  {
    if raw == "" {
      return Ok([]);
    }
    var obj := codec.decode(raw);
    if obj.None? || !(obj.value.Obj? || obj.value.Null?) {
      return Err(NotAnObject);
    }
    if obj.value.Null? || "spec" !in obj.value.fields || !obj.value.fields["spec"].Obj? {
      return Err(NoSpec);
    }
    var spec := obj.value.fields["spec"].fields;
    if "strategicPatches" !in spec {
      return Ok([]);
    }
    if !spec["strategicPatches"].Arr? {
      return Err(NotAnArray);
    }
    var items := spec["strategicPatches"].items;
    var patches := [];
    for i := 0 to |items|
      invariant patches == Strings(items[..i])
    {
      assert items[..i + 1][..i] == items[..i];
      if items[i].Str? {
        patches := patches + [items[i].s];
      }
    }
    assert items[..|items|] == items;
    return Ok(patches);
  }

  method LoadPatches(codec: Codec, texts: seq<string>) returns (r: Result<seq<Patch>, nat>)
    ensures r == LoadAll(codec, texts)
  {
    var patches := [];
    for i := 0 to |texts|
      invariant LoadAll(codec, texts[..i]) == Ok(patches)
    {
      assert texts[..i + 1][..i] == texts[..i];
      var p := codec.loadPatch(texts[i]);
      if p.None? {
        LoadStopsAt(codec, texts, i);
        return Err(i);
      }
      patches := patches + [p.value];
    }
    assert texts[..|texts|] == texts;
    return Ok(patches);
  }

  /** An element that does not load fails the whole list, whatever comes after it. */
  lemma {:induction false} LoadStopsAt(codec: Codec, texts: seq<string>, i: nat)
    requires i < |texts| && LoadAll(codec, texts[..i]).Ok? && codec.loadPatch(texts[i]).None?
    ensures LoadAll(codec, texts) == Err(i)
    decreases |texts|
  {
    var n := |texts| - 1;
    if i < n {
      assert texts[..n][..i] == texts[..i];
      LoadStopsAt(codec, texts[..n], i);
    }
  }

  /** A list loads exactly when every element does, and then element by element in order. */
  lemma {:induction false} LoadAllElementwise(codec: Codec, texts: seq<string>)
    ensures LoadAll(codec, texts).Ok? <==> forall i :: 0 <= i < |texts| ==> codec.loadPatch(texts[i]).Some?
    ensures LoadAll(codec, texts).Ok? ==>
      var ps := LoadAll(codec, texts).value;
      |ps| == |texts| && forall i :: 0 <= i < |texts| ==> codec.loadPatch(texts[i]) == Some(ps[i])
    ensures LoadAll(codec, texts).Err? ==>
      var i := LoadAll(codec, texts).error;
      i < |texts| && codec.loadPatch(texts[i]).None? && forall j :: 0 <= j < i ==> codec.loadPatch(texts[j]).Some?
    decreases |texts|
  {
    if texts != [] {
      LoadAllElementwise(codec, texts[..|texts| - 1]);
    }
  }
}
