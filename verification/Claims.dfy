/**
 What the CanUpdate hooks claim: for the typed object, its version and failure domain;
 for the raw bootstrap and infrastructure objects, their whole `spec`.
 */
module Claims {
  import opened Wrappers
  import opened Json
  import opened JsonPatch
  import opened Bootstrap

  // ---------------------------------------------------------------- typed objects

  /** A machine spec; the fields no hook touches are kept as they are written in JSON. */
  datatype SpecValue = SpecValue(version: string, failureDomain: string, other: map<string, Json>)

  type MachineSpec = s: SpecValue | "version" !in s.other && "failureDomain" !in s.other
    witness SpecValue("", "", map[])

  /** An empty text field is left out. */
  function TextField(name: string, text: string): map<string, Json> {
    if text == "" then map[] else map[name := Str(text)]
  }

  function MarshalSpec(s: MachineSpec): Json {
    Obj(s.other + TextField("version", s.version) + TextField("failureDomain", s.failureDomain))
  }

  function TextOf(fields: map<string, Json>, name: string): string {
    if name in fields && fields[name].Str? then fields[name].s else ""
  }

  function UnmarshalSpec(j: Json): Option<MachineSpec> {
    if j.Obj? then
      Some(SpecValue(TextOf(j.fields, "version"), TextOf(j.fields, "failureDomain"),
                     j.fields - {"version", "failureDomain"}))
    else None
  }

  lemma SpecRoundTrip(s: MachineSpec)
    ensures UnmarshalSpec(MarshalSpec(s)) == Some(s)
  {
    var fields := MarshalSpec(s).fields;
    assert fields - {"version", "failureDomain"} == s.other;
  }

  /** Where the spec sits: directly in a Machine, under spec.template in a MachineSet. */
  datatype Holder =
    | InMachine(rest: map<string, Json>)
    | InMachineSet(rest: map<string, Json>, setSpec: map<string, Json>, template: map<string, Json>)

  predicate HolderIsPlain(h: Holder) {
    && "spec" !in h.rest
    && (h.InMachineSet? ==> "template" !in h.setSpec && "spec" !in h.template)
  }

  datatype Object = Object(holder: Holder, spec: MachineSpec)

  type ApiObject = o: Object | HolderIsPlain(o.holder)
    witness Object(InMachine(map[]), SpecValue("", "", map[]))

  function Marshal(o: ApiObject): Json {
    match o.holder
    case InMachine(rest) => Obj(rest["spec" := MarshalSpec(o.spec)])
    case InMachineSet(rest, setSpec, template) =>
      Obj(rest["spec" := Obj(setSpec["template" := Obj(template["spec" := MarshalSpec(o.spec)])])])
  }

  /** Two objects of the same kind with the same JSON are the same. */
  lemma MarshalIsInjective(a: ApiObject, b: ApiObject)
    requires Marshal(a) == Marshal(b) && a.holder.InMachine? == b.holder.InMachine?
    ensures a == b
  {
    SpecRoundTrip(a.spec);
    SpecRoundTrip(b.spec);
    hide MarshalSpec, UnmarshalSpec;
    var x, y := Marshal(a).fields, Marshal(b).fields;
    assert x["spec"] == y["spec"];
    assert a.holder.rest == x - {"spec"} && b.holder.rest == y - {"spec"};
    if a.holder.InMachineSet? {
      var s, t := x["spec"].fields, y["spec"].fields;
      assert s["template"] == t["template"];
      assert a.holder.setSpec == s - {"template"} && b.holder.setSpec == t - {"template"};
      var p, q := s["template"].fields, t["template"].fields;
      assert p["spec"] == q["spec"];
      assert a.holder.template == p - {"spec"} && b.holder.template == q - {"spec"};
    }
  }

  /** The object with the two claimed fields as desired and everything else as it is. */
  function Claimed(cur: ApiObject, des: ApiObject): ApiObject {
    cur.(spec := cur.spec.(version := des.spec.version, failureDomain := des.spec.failureDomain))
  }

  /** The claim reaches the desired object exactly when nothing else differs. */
  lemma ClaimReachesDesiredExactlyWhen(cur: ApiObject, des: ApiObject)
    requires cur.holder.InMachine? == des.holder.InMachine?
    ensures Marshal(Claimed(cur, des)) == Marshal(des)
       <==> cur.holder == des.holder && cur.spec.other == des.spec.other
  {
    if Marshal(Claimed(cur, des)) == Marshal(des) {
      MarshalIsInjective(Claimed(cur, des), des);
    }
  }

  // ---------------------------------------------------------------- the claim, in the JSON

  /** The value under a path of keys. */
  function At(j: Json, path: seq<string>): Option<Json>
    decreases |path|
  {
    if path == [] then Some(j)
    else if j.Obj? && path[0] in j.fields then At(j.fields[path[0]], path[1..])
    else None
  }

  /** Where the machine spec stands in the JSON of a Machine, and of a MachineSet. */
  function SpecPath(o: ApiObject): seq<string> {
    if o.holder.InMachine? then ["spec"] else ["spec", "template", "spec"]
  }

  /** The two claimed fields are as in the desired JSON, and everything else as in the current one. */
  ghost predicate OnlyTwoFieldsTaken(cur: ApiObject, des: ApiObject, after: Json) {
    forall path: seq<string> :: FieldTaken(cur, des, after, path)
  }

  predicate FieldTaken(cur: ApiObject, des: ApiObject, after: Json, path: seq<string>) {
    var own, below := SpecPath(cur), if |path| > |SpecPath(cur)| then path[|SpecPath(cur)|..] else [];
    if own < path && (below[0] == "version" || below[0] == "failureDomain") then
      At(after, path) == At(Marshal(des), SpecPath(des) + below)
    else path <= own || At(after, path) == At(Marshal(cur), path)
  }

  lemma AtMember(fields: map<string, Json>, k: string, v: Json, path: seq<string>)
    requires path != []
    ensures At(Obj(fields[k := v]), path) == if path[0] == k then At(v, path[1..]) else At(Obj(fields), path)
  {
  }

  /** An empty text field is not written. */
  lemma SpecFieldsInJson(s: MachineSpec, k: string)
    ensures MarshalSpec(s).Obj?
    ensures Get(MarshalSpec(s).fields, k) ==
      if k == "version" then (if s.version == "" then None else Some(Str(s.version)))
      else if k == "failureDomain" then (if s.failureDomain == "" then None else Some(Str(s.failureDomain)))
      else Get(s.other, k)
  {
  }

  lemma AtSpec(o: ApiObject, below: seq<string>)
    ensures At(Marshal(o), SpecPath(o) + below) == At(MarshalSpec(o.spec), below)
  {
    hide MarshalSpec;
    var path := SpecPath(o) + below;
    if o.holder.InMachine? {
      AtMember(o.holder.rest, "spec", MarshalSpec(o.spec), path);
      assert path[1..] == below;
    } else {
      var spec := Obj(o.holder.template["spec" := MarshalSpec(o.spec)]);
      AtMember(o.holder.rest, "spec", Obj(o.holder.setSpec["template" := spec]), path);
      AtMember(o.holder.setSpec, "template", spec, path[1..]);
      AtMember(o.holder.template, "spec", MarshalSpec(o.spec), path[1..][1..]);
      assert path[1..][1..][1..] == below;
    }
  }

  /** Outside the machine spec the JSON does not depend on it. */
  lemma AtOutsideSpec(o: ApiObject, s: MachineSpec, path: seq<string>)
    requires !(path <= SpecPath(o)) && !(SpecPath(o) <= path)
    ensures At(Marshal(o), path) == At(Marshal(o.(spec := s)), path)
  {
    hide MarshalSpec;
    var x, y := MarshalSpec(o.spec), MarshalSpec(s);
    if o.holder.InMachine? {
      AtMember(o.holder.rest, "spec", x, path);
      AtMember(o.holder.rest, "spec", y, path);
      assert path[0] == "spec" ==> ["spec"] <= path;
    } else {
      var h := o.holder;
      var p, q := Obj(h.template["spec" := x]), Obj(h.template["spec" := y]);
      AtMember(h.rest, "spec", Obj(h.setSpec["template" := p]), path);
      AtMember(h.rest, "spec", Obj(h.setSpec["template" := q]), path);
      if path[0] == "spec" && |path| > 1 {
        AtMember(h.setSpec, "template", p, path[1..]);
        AtMember(h.setSpec, "template", q, path[1..]);
        if path[1] == "template" && |path| > 2 {
          AtMember(h.template, "spec", x, path[1..][1..]);
          AtMember(h.template, "spec", y, path[1..][1..]);
        }
      }
    }
  }

  /** What the claim means for the JSON of the object, for any current and desired object. */
  lemma ClaimedTakesTwoFields(cur: ApiObject, des: ApiObject)
    ensures OnlyTwoFieldsTaken(cur, des, Marshal(Claimed(cur, des)))
  {
    forall path: seq<string> ensures FieldTaken(cur, des, Marshal(Claimed(cur, des)), path) {
      var own, claimed := SpecPath(cur), Claimed(cur, des);
      if own < path {
        var below := path[|own|..];
        assert own + below == path;
        AtSpec(claimed, below);
        AtSpec(cur, below);
        AtSpec(des, below);
        SpecFieldsInJson(claimed.spec, below[0]);
        SpecFieldsInJson(cur.spec, below[0]);
        SpecFieldsInJson(des.spec, below[0]);
        hide Marshal, MarshalSpec;
      } else if !(path <= own) {
        AtOutsideSpec(cur, claimed.spec, path);
      }
    }
  }

  /** The deep copy of a spec that the hook edits in place. */
  class SpecCopy {
    var version: string
    var failureDomain: string
    const other: map<string, Json>

    constructor (s: MachineSpec)
      ensures Value() == s
    {
      version, failureDomain, other := s.version, s.failureDomain, s.other;
    }

    function Value(): SpecValue
      reads this
    {
      SpecValue(version, failureDomain, other)
    }
  }

  method CanUpdateTalosMachineSpec(current: SpecCopy, desired: SpecCopy)
    modifies current
    ensures current.Value()
         == old(current.Value()).(version := old(desired.version), failureDomain := old(desired.failureDomain))
    ensures current != desired ==> desired.Value() == old(desired.Value())
  {
    if current.version != desired.version {
      current.version := desired.version;
    }
    if current.failureDomain != desired.failureDomain {
      current.failureDomain := desired.failureDomain;
    }
  }

  /** The patch for the typed object. */
  method CreateObjectPatch(cur: ApiObject, des: ApiObject) returns (ops: seq<Op>)
    ensures ApplyPatch(Marshal(cur), ops) == Some(Marshal(Claimed(cur, des)))
    ensures OnlyTwoFieldsTaken(cur, des, ApplyPatch(Marshal(cur), ops).value)
  {
    ClaimedTakesTwoFields(cur, des);
    var current := new SpecCopy(cur.spec);
    var desired := new SpecCopy(des.spec);
    CanUpdateTalosMachineSpec(current, desired);
    ops := CreatePatch(Marshal(cur), Marshal(cur.(spec := current.Value())));
  }

  // ---------------------------------------------------------------- raw objects

  datatype ClaimError =
    | NotJsonObject
    | NilMapAssignment // storing into the nil map that the text `null` decodes to: the call panics

  /** The text decodes neither to an object nor to null, which Go takes for the nil map. */
  predicate Unreadable(codec: Codec, raw: string) {
    var j := codec.decode(raw);
    j.None? || !(j.value.Obj? || j.value.Null?)
  }

  /** The text decodes to an object with this `spec`, of whatever kind. */
  predicate HasSpec(codec: Codec, raw: string) {
    var j := codec.decode(raw);
    j.Some? && j.value.Obj? && "spec" in j.value.fields
  }

  /** With text on both sides, one of the two cannot be read. */
  predicate Rejects(codec: Codec, currentRaw: string, desiredRaw: string) {
    currentRaw != "" && desiredRaw != "" && (Unreadable(codec, currentRaw) || Unreadable(codec, desiredRaw))
  }

  /** There is a desired spec to store and only a nil map to store it in. */
  predicate Panics(codec: Codec, currentRaw: string, desiredRaw: string) {
    currentRaw != "" && codec.decode(currentRaw) == Some(Null) && desiredRaw != "" && HasSpec(codec, desiredRaw)
  }

  /** The operations replace the whole spec by the desired one, and touch nothing else. */
  ghost predicate SpecTaken(codec: Codec, currentRaw: string, desiredRaw: string, ops: seq<Op>) {
    && (currentRaw == "" || desiredRaw == "" || !HasSpec(codec, desiredRaw) ==> ops == [])
    && (currentRaw != "" && desiredRaw != "" && HasSpec(codec, desiredRaw) ==>
          var current := codec.decode(currentRaw);
          && current.Some? && current.value.Obj?
          && ApplyPatch(current.value, ops)
             == Some(Obj(current.value.fields["spec" := codec.decode(desiredRaw).value.fields["spec"]])))
    && (forall op :: op in ops ==> op.path != [] && op.path[0] == Key("spec"))
  }

  /** Serves the bootstrap and the infrastructure objects alike, in both hooks. */
  method CreateSpecPatch(codec: Codec, currentRaw: string, desiredRaw: string) returns (r: Result<seq<Op>, ClaimError>)
    ensures r == Err(NotJsonObject) <==> Rejects(codec, currentRaw, desiredRaw)
    ensures r == Err(NilMapAssignment) <==> Panics(codec, currentRaw, desiredRaw)
    ensures r.Ok? ==> SpecTaken(codec, currentRaw, desiredRaw, r.value)
  {
    if currentRaw == "" || desiredRaw == "" {
      return Ok([]);
    }
    var current := codec.decode(currentRaw);
    if current.None? || !(current.value.Obj? || current.value.Null?) {
      return Err(NotJsonObject);
    }
    var desired := codec.decode(desiredRaw);
    if desired.None? || !(desired.value.Obj? || desired.value.Null?) {
      return Err(NotJsonObject);
    }
    var currentObj := current.value;
    if desired.value.Obj? && "spec" in desired.value.fields {
      if currentObj.Null? {
        return Err(NilMapAssignment);
      }
      currentObj := Obj(currentObj.fields["spec" := desired.value.fields["spec"]]);
    }
    var ops := CreatePatch(current.value, currentObj);
    return Ok(ops);
  }

  /** For a raw object the claim is the desired object exactly when the two agree outside their specs. */
  lemma SpecClaimIsDesiredExactlyWhen(codec: Codec, currentRaw: string, desiredRaw: string, ops: seq<Op>)
    requires currentRaw != "" && desiredRaw != ""
    requires codec.decode(currentRaw).Some? && codec.decode(currentRaw).value.Obj?
    requires HasSpec(codec, desiredRaw) && SpecTaken(codec, currentRaw, desiredRaw, ops)
    ensures var cur, des := codec.decode(currentRaw).value, codec.decode(desiredRaw).value;
      ApplyPatch(cur, ops) == Some(des) <==> cur.fields - {"spec"} == des.fields - {"spec"}
  {
    hide ApplyPatch;
    var m, n := codec.decode(currentRaw).value.fields, codec.decode(desiredRaw).value.fields;
    var after := m["spec" := n["spec"]];
    assert after - {"spec"} == m - {"spec"};
    if m - {"spec"} == n - {"spec"} {
      assert (n - {"spec"})["spec" := n["spec"]] == n;
      assert (m - {"spec"})["spec" := n["spec"]] == after;
    }
  }
}
