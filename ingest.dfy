/**
 * The parameter tuple `add_transmission` hands to its INSERT: ten fields
 * read with subscripts, which fail on a missing key, and two read with
 * defaults.
 */
module Ingest {
  import opened Common

  /** A decoded JSON request body. */
  datatype Json =
    | JNull
    | JBool(b: bool)
    | JNumber(n: real)
    | JString(s: string)
    | JArray(items: seq<Json>)
    | JObject(fields: map<string, Json>)

  /** Why the handler answers 400 before reaching the database. */
  datatype IngestError =
    | NotAnObject          // the body is not a JSON object, so subscripting it fails
    | MissingKey(key: string)

  /** The subscripted keys, in the order the tuple evaluates them. */
  const Required: seq<string> :=
    ["type", "data", "sf", "bw", "cr", "rssi", "snr", "delay", "datarate", "latency"]

  const DefaultCompressionRatio: real := 1.0

  /** Reads `keys` in order; the first one missing is the error. */
  function Lookup(fields: map<string, Json>, keys: seq<string>): (r: Result<seq<Json>, IngestError>)
    ensures r.Ok? <==> forall i :: 0 <= i < |keys| ==> keys[i] in fields
    ensures r.Ok? ==> |r.value| == |keys| && forall i :: 0 <= i < |keys| ==> r.value[i] == fields[keys[i]]
    ensures r.Err? ==> exists i :: 0 <= i < |keys| && r.error == MissingKey(keys[i]) && keys[i] !in fields
                                   && forall j :: 0 <= j < i ==> keys[j] in fields
    decreases |keys|
  {
    if |keys| == 0 then Ok([])
    else if keys[0] !in fields then Err(MissingKey(keys[0]))
    else
      match Lookup(fields, keys[1..])
      case Err(e) =>
        assert forall j :: 0 <= j < |keys| - 1 ==> keys[1..][j] == keys[j + 1];
        Err(e)
      case Ok(vs) => Ok([fields[keys[0]]] + vs)
  }

  /** Python's `data.get(key, default)`. */
  function Get(fields: map<string, Json>, key: string, default: Json): Json {
    if key in fields then fields[key] else default
  }

  /** The parameter tuple for the subscripted `keys` followed by the two defaulted fields. */
  function Parameters(body: Json, keys: seq<string>): (r: Result<seq<Json>, IngestError>)
    ensures !body.JObject? ==> r == Err(NotAnObject)
    ensures r.Ok? <==> body.JObject? && forall i :: 0 <= i < |keys| ==> keys[i] in body.fields
    ensures r.Ok? ==> |r.value| == |keys| + 2
    ensures r.Ok? ==> forall i :: 0 <= i < |keys| ==> r.value[i] == body.fields[keys[i]]
    ensures r.Ok? && "source" in body.fields ==> r.value[|keys|] == body.fields["source"]
    ensures r.Ok? && "source" !in body.fields ==> r.value[|keys|] == JString(StandardSource)
    ensures r.Ok? && "compressionRatio" in body.fields ==> r.value[|keys| + 1] == body.fields["compressionRatio"]
    ensures r.Ok? && "compressionRatio" !in body.fields ==> r.value[|keys| + 1] == JNumber(DefaultCompressionRatio)
    ensures r.Err? && body.JObject? ==>
      exists i :: 0 <= i < |keys| && r.error == MissingKey(keys[i]) && keys[i] !in body.fields
                  && forall j :: 0 <= j < i ==> keys[j] in body.fields
  {
    if !body.JObject? then Err(NotAnObject)
    else
      var lookup := Lookup(body.fields, keys);
      if lookup.Err? then Err(lookup.error)
      else
        Ok(lookup.value + [Get(body.fields, "source", JString(StandardSource)),
                           Get(body.fields, "compressionRatio", JNumber(DefaultCompressionRatio))])
  }

  /**
   * The twelve INSERT parameters: the ten required fields, then `source`
   * (default `standard`) and `compression_ratio` (default 1.0). A key that
   * is present with value null is passed through as null. A missing key
   * is reported by the first key of the tuple that is absent.
   */
  function InsertParameters(body: Json): (r: Result<seq<Json>, IngestError>)
    ensures !body.JObject? ==> r == Err(NotAnObject)
    ensures r.Ok? <==> body.JObject? && forall i :: 0 <= i < |Required| ==> Required[i] in body.fields
    ensures r.Ok? ==> |r.value| == |Required| + 2
    ensures r.Ok? ==> forall i :: 0 <= i < |Required| ==> r.value[i] == body.fields[Required[i]]
    ensures r.Ok? && "source" in body.fields ==> r.value[|Required|] == body.fields["source"]
    ensures r.Ok? && "source" !in body.fields ==> r.value[|Required|] == JString(StandardSource)
    ensures r.Ok? && "compressionRatio" in body.fields ==> r.value[|Required| + 1] == body.fields["compressionRatio"]
    ensures r.Ok? && "compressionRatio" !in body.fields ==> r.value[|Required| + 1] == JNumber(DefaultCompressionRatio)
    ensures r.Err? && body.JObject? ==>
      exists i :: 0 <= i < |Required| && r.error == MissingKey(Required[i]) && Required[i] !in body.fields
                  && forall j :: 0 <= j < i ==> Required[j] in body.fields
  {
    Parameters(body, Required)
  }

  /** A body holding exactly the required keys is stored as standard with ratio 1.0. */
  lemma DefaultsExample()
    ensures var r := InsertParameters(JObject(map k | k in Required :: JNumber(0.0)));
            r.Ok? && r.value[10] == JString("standard") && r.value[11] == JNumber(1.0)
  {
    var fields := map k | k in Required :: JNumber(0.0);
    assert forall i :: 0 <= i < |Required| ==> Required[i] in fields;
    assert |"source"| == 6 && |"compressionRatio"| == 16;
    assert "source" !in fields && "compressionRatio" !in fields;
  }

  /** A body lacking only `latency` is refused with that key. */
  lemma MissingKeyExample()
    ensures InsertParameters(JObject((map k | k in Required :: JNumber(0.0)) - {"latency"})) == Err(MissingKey("latency"))
  {
    var fields := (map k | k in Required :: JNumber(0.0)) - {"latency"};
    assert forall i :: 0 <= i < 9 ==> |Required[i]| != 7 && Required[i] in fields;
    assert Required[9] == "latency" && "latency" !in fields;
  }
}
