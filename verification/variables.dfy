/**
 * The variable codec of flowable/ExternalWorkerClient.go: decoding the
 * "variables" element of a job document into a flat list of variables
 * (`ExtractVariablesFromBody`) and looking one up as display text (`GetVar`).
 */
module Variables {
  import opened Wrappers
  import opened Json
  import opened Decimal
  import opened Types

  /** The Go type the job document is decoded into. */
  const DocumentType := "map[string]interface {}"

  /** Object shape: the variable that the entry `name: v` of "variables" stands for. */
  function ObjectEntry(name: string, v: Json): (e: HandlerVariable)
    ensures e.name == name
    ensures !v.JObj? ==> e.typ == "" && e.value == v
    ensures e.typ != "" ==> v.JObj? && "type" in v.fields && v.fields["type"] == JStr(e.typ)
    ensures v.JObj? && "type" in v.fields && v.fields["type"].JStr? ==> e.typ == v.fields["type"].s
    ensures v.JObj? ==> e.value == (if "value" in v.fields then v.fields["value"] else JNull)
  {
    match v
    case JObj(f) =>
      HandlerVariable(name, StringField(f, "type").GetOr(""), if "value" in f then f["value"] else JNull)
    case _ => HandlerVariable(name, "", v)
  }

  /** Array shape: the variable an object element stands for; an empty name falls back to a string `id`. */
  function ArrayEntry(f: map<string, Json>): (e: HandlerVariable)
    ensures "name" in f && f["name"].JStr? && f["name"].s != "" ==> e.name == f["name"].s
    ensures e.name != "" ==> ("name" in f && f["name"] == JStr(e.name)) || ("id" in f && f["id"] == JStr(e.name))
    ensures !("name" in f && f["name"].JStr? && f["name"].s != "") && "id" in f && f["id"].JStr? ==> e.name == f["id"].s
    ensures !("name" in f && f["name"].JStr? && f["name"].s != "") && !("id" in f && f["id"].JStr?) ==> e.name == ""
    ensures e.typ != "" ==> "type" in f && f["type"] == JStr(e.typ)
    ensures "type" in f && f["type"].JStr? ==> e.typ == f["type"].s
    ensures e.value == (if "value" in f then f["value"] else JNull)
  {
    var name := StringField(f, "name").GetOr("");
    HandlerVariable(if name == "" then StringField(f, "id").GetOr(name) else name,
                    StringField(f, "type").GetOr(""),
                    if "value" in f then f["value"] else JNull)
  }

  /** Array shape: one variable per object element, in order; other elements are skipped. */
  function ArrayEntries(items: seq<Json>): (r: seq<HandlerVariable>)
    ensures forall v :: v in r ==> exists i :: 0 <= i < |items| && items[i].JObj? && v == ArrayEntry(items[i].fields)
  {
    if items == [] then []
    else
      var last := items[|items| - 1];
      var front := items[..|items| - 1];
      assert forall i :: 0 <= i < |front| ==> front[i] == items[i];
      ArrayEntries(front) + (if last.JObj? then [ArrayEntry(last.fields)] else [])
  }

  predicate DistinctNames(vs: seq<HandlerVariable>) {
    forall i, j :: 0 <= i < j < |vs| ==> vs[i].name != vs[j].name
  }

  /** `r` lists each entry of the object `vm` exactly once, in some order. */
  ghost predicate ObjectDecoded(vm: map<string, Json>, r: seq<HandlerVariable>) {
    && DistinctNames(r)
    && (forall i :: 0 <= i < |r| ==> r[i].name in vm && r[i] == ObjectEntry(r[i].name, vm[r[i].name]))
    && (forall k :: k in vm ==> exists i :: 0 <= i < |r| && r[i].name == k)
  }

  /** What decoding `body` may give, shape by shape. */
  ghost predicate Decoded(codec: JsonCodec, body: string, r: Result<seq<HandlerVariable>>) {
    match codec.parse(body)
    case Failure(e) => r == Failure(e)
    case Success(JNull) => r == Success([])
    case Success(JObj(data)) =>
      if "variables" !in data then r == Success([])
      else (
        match data["variables"]
        case JObj(vm) => r.Success? && ObjectDecoded(vm, r.value)
        case JArr(items) => r == Success(ArrayEntries(items))
        case raw => r == Success([HandlerVariable("variables", "json", raw)]))
    case Success(other) => r == Failure(UnmarshalTypeError(other, DocumentType))
  }

  /** `ExtractVariablesFromBody`: Go's map iteration order is left open (`:|`). */
  method ExtractVariablesFromBody(codec: JsonCodec, body: string) returns (r: Result<seq<HandlerVariable>>)
    ensures Decoded(codec, body, r)
  {
    var parsed := codec.parse(body);
    if parsed.Failure? {
      return Failure(parsed.error);
    }
    var data := parsed.value;
    if !(data.JObj? || data.JNull?) {
      return Failure(UnmarshalTypeError(data, DocumentType));
    }
    var result: seq<HandlerVariable> := [];
    if data.JObj? && "variables" in data.fields {
      var varsRaw := data.fields["variables"];
      match varsRaw {
        case JObj(vars) =>
          var pending := vars.Keys;
          while pending != {}
            invariant pending <= vars.Keys
            invariant DistinctNames(result)
            invariant forall i :: 0 <= i < |result| ==>
                        result[i].name in vars && result[i].name !in pending
                        && result[i] == ObjectEntry(result[i].name, vars[result[i].name])
            invariant forall k :: k in vars && k !in pending ==> exists i :: 0 <= i < |result| && result[i].name == k
            decreases pending
          {
            var name :| name in pending;
            ghost var before := result;
            result := result + [ObjectEntry(name, vars[name])];
            pending := pending - {name};
            forall k | k in vars && k !in pending
              ensures exists i :: 0 <= i < |result| && result[i].name == k
            {
              if k == name {
                assert result[|result| - 1].name == k;
              } else {
                var i :| 0 <= i < |before| && before[i].name == k;
                assert result[i].name == k;
              }
            }
          }
        case JArr(items) =>
          var i := 0;
          while i < |items|
            invariant 0 <= i <= |items|
            invariant result == ArrayEntries(items[..i])
          {
            if items[i].JObj? {
              result := result + [ArrayEntry(items[i].fields)];
            }
            assert items[..i + 1][..i] == items[..i];
            i := i + 1;
          }
          assert items[..|items|] == items;
        case _ =>
          assert result == [];
          result := result + [HandlerVariable("variables", "json", varsRaw)];
          assert result == [HandlerVariable("variables", "json", data.fields["variables"])];
      }
    }
    return Success(result);
  }

  /**
   * How `GetVar` renders a value: strings as they are, integral numbers without
   * decimals, other numbers as `%v`, booleans as true/false, anything else as
   * its JSON text, or "" when it cannot be marshalled.
   */
  function Display(codec: JsonCodec, v: Json): (s: string)
    ensures v.JStr? ==> s == v.s
    ensures v.JNum? && v.n.Integral? ==> ParseInt(s) == Some(v.n.value) && '.' !in s && Canonical(s)
    ensures v.JNum? && v.n.NonIntegral? ==> s == v.n.shown
    ensures v.JBool? ==> (s == "true" <==> v.b) && (s == "false" <==> !v.b)
    ensures !(v.JStr? || v.JNum? || v.JBool?) ==>
              s == (if codec.marshal(v).Success? then codec.marshal(v).value else "")
  {
    match v
    case JStr(str) => str
    case JNum(Integral(k)) => IntToDecimalRoundTrip(k); IntToDecimal(k)
    case JNum(NonIntegral(_, shown)) => shown
    case JBool(b) => if b then "true" else "false"
    case _ =>
      match codec.marshal(v)
      case Success(text) => text
      case Failure(_) => ""
  }

  /** `GetVar`: the first variable called `name`, rendered by `Display`; "" when there is none. */
  method GetVar(codec: JsonCodec, vars: seq<HandlerVariable>, name: string) returns (s: string)
    ensures (forall i :: 0 <= i < |vars| ==> vars[i].name != name) ==> s == ""
    ensures forall i :: (0 <= i < |vars| && vars[i].name == name && forall j :: 0 <= j < i ==> vars[j].name != name)
                        ==> s == Display(codec, vars[i].value)
  {
    var i := 0;
    while i < |vars|
      invariant 0 <= i <= |vars|
      invariant forall j :: 0 <= j < i ==> vars[j].name != name
    {
      if vars[i].name == name {
        return Display(codec, vars[i].value);
      }
      i := i + 1;
    }
    return "";
  }

  /** The names a list of variables uses. */
  function NameSet(vs: seq<HandlerVariable>): (names: set<string>)
    ensures forall k :: k in names <==> exists i :: 0 <= i < |vs| && vs[i].name == k
  {
    if vs == [] then {}
    else
      var names := NameSet(vs[..|vs| - 1]) + {vs[|vs| - 1].name};
      assert forall i :: 0 <= i < |vs| - 1 ==> vs[..|vs| - 1][i] == vs[i];
      names
  }

  lemma {:induction false} DistinctNamesCount(vs: seq<HandlerVariable>)
    requires DistinctNames(vs)
    ensures |NameSet(vs)| == |vs|
  {
    if vs != [] {
      var front := vs[..|vs| - 1];
      assert DistinctNames(front);
      DistinctNamesCount(front);
      assert vs[|vs| - 1].name !in NameSet(front);
    }
  }

  /** Object shape gives exactly one variable per key of "variables". */
  lemma ObjectDecodedLength(vm: map<string, Json>, r: seq<HandlerVariable>)
    requires ObjectDecoded(vm, r)
    ensures |r| == |vm|
  {
    assert NameSet(r) == vm.Keys;
    DistinctNamesCount(r);
  }

  /** In array shape every element that is not an object is skipped, so there are at most as many variables as elements. */
  lemma {:induction false} ArrayEntriesBound(items: seq<Json>)
    ensures |ArrayEntries(items)| <= |items|
    ensures (forall i :: 0 <= i < |items| ==> !items[i].JObj?) ==> ArrayEntries(items) == []
  {
    if items != [] {
      ArrayEntriesBound(items[..|items| - 1]);
    }
  }

  /** The triples `vs` written in object shape: `{name: {"type": t, "value": v}, ...}`. */
  function ObjectShape(vs: seq<HandlerVariable>): map<string, Json>
    requires DistinctNames(vs)
  {
    map i | 0 <= i < |vs| :: vs[i].name := JObj(map["type" := JStr(vs[i].typ), "value" := vs[i].value])
  }

  /** The same triples written in array shape: `[{"name": n, "type": t, "value": v}, ...]`. */
  function ArrayShape(vs: seq<HandlerVariable>): seq<Json> {
    seq(|vs|, i requires 0 <= i < |vs| =>
      JObj(map["name" := JStr(vs[i].name), "type" := JStr(vs[i].typ), "value" := vs[i].value]))
  }

  /** Array shape decodes back to exactly the triples it was written from, in order. */
  lemma {:induction false} ArrayShapeDecodes(vs: seq<HandlerVariable>)
    ensures ArrayEntries(ArrayShape(vs)) == vs
  {
    if vs != [] {
      var front := vs[..|vs| - 1];
      assert ArrayShape(vs)[..|vs| - 1] == ArrayShape(front);
      ArrayShapeDecodes(front);
      var last := ArrayShape(vs)[|vs| - 1];
      assert ArrayEntry(last.fields) == vs[|vs| - 1];
      assert vs == front + [vs[|vs| - 1]];
    }
  }

  /** The object-shape entry written for one triple. */
  function ShapeEntry(v: HandlerVariable): Json {
    JObj(map["type" := JStr(v.typ), "value" := v.value])
  }

  lemma ObjectShapeAt(vs: seq<HandlerVariable>, j: nat)
    requires DistinctNames(vs) && j < |vs|
    ensures vs[j].name in ObjectShape(vs)
    ensures ObjectShape(vs)[vs[j].name] == ShapeEntry(vs[j])
    ensures ObjectEntry(vs[j].name, ObjectShape(vs)[vs[j].name]) == vs[j]
  {
  }

  lemma ObjectShapeKeys(vs: seq<HandlerVariable>)
    requires DistinctNames(vs)
    ensures ObjectShape(vs).Keys == NameSet(vs)
  {
  }

  /**
   * Object shape and array shape carrying the same distinct-named triples decode
   * to the same variables: the object decoding is the array decoding up to order.
   */
  lemma ShapesAgree(vs: seq<HandlerVariable>, r: seq<HandlerVariable>)
    requires DistinctNames(vs)
    requires ObjectDecoded(ObjectShape(vs), r)
    ensures |r| == |ArrayEntries(ArrayShape(vs))|
    ensures forall v :: v in r <==> v in ArrayEntries(ArrayShape(vs))
  {
    ArrayShapeDecodes(vs);
    var vm := ObjectShape(vs);
    ObjectShapeKeys(vs);
    DistinctNamesCount(vs);
    ObjectDecodedLength(vm, r);
    forall v | v in r ensures v in vs {
      var i :| 0 <= i < |r| && r[i] == v;
      var j :| 0 <= j < |vs| && vs[j].name == v.name;
      ObjectShapeAt(vs, j);
    }
    forall v | v in vs ensures v in r {
      var j :| 0 <= j < |vs| && vs[j] == v;
      ObjectShapeAt(vs, j);
      var i :| 0 <= i < |r| && r[i].name == vs[j].name;
    }
  }

  /**
   * Renderings the GetVar tests expect: 5.0 as "5", true as "true", a string as
   * itself. (A non-integral number shows its own decimal text by construction.)
   */
  lemma DisplayExamples(codec: JsonCodec)
    ensures Display(codec, JNum(Integral(5))) == "5"
    ensures Display(codec, JBool(true)) == "true"
    ensures Display(codec, JStr("hello")) == "hello"
  {
    assert NatToDecimal(5) == [DigitChar(5)];
  }
}
