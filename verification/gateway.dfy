/**
 One request through the worker's two processing routes: build the script the
 engine runs (always ending in the `{debug}` block), run the engine, rebuild
 its actions with the "embed" action made plain, and answer with a three-key
 object whose body is transport-encoded. The template engine and the embed's
 `to_dict` are not part of this model; they are parameters of every operation.
 */
module Gateway {
  import opened Outcomes
  import opened Values
  import opened Codec
  import opened Members

  /** The block appended to every script so that the engine reports debug information in its extras. */
  const DebugDirective: string := "{debug}"
  const EmbedKey: string := "embed"
  const TagscriptHeader: string := "tagscript"

  const BodyKey: string := "body"
  const ActionsKey: string := "actions"
  const ExtrasKey: string := "extras"

  /** What the engine's `process` returns. */
  datatype EngineOutput = EngineOutput(body: string, actions: map<string, Value>, extras: map<string, Value>)

  /** The engine's `process(script, seeds)`; `None` stands for a call that passes no seeds. */
  type Engine = (string, Option<SeedSet>) -> EngineOutput

  /** The embed's `to_dict()`, from the engine's structured embed to a plain mapping. */
  type ToDict = Value -> Value

  /** One action after rebuilding: the embed goes through `to_dict`, anything else is kept. */
  function ShapeAction(key: string, v: Value, toDict: ToDict): Value {
    if key == EmbedKey then toDict(v) else v
  }

  /** The rebuilt actions mapping, as a whole. */
  function ShapeActions(actions: map<string, Value>, toDict: ToDict): (r: map<string, Value>)
    ensures r.Keys == actions.Keys
    ensures forall k :: k in actions && k != EmbedKey ==> r[k] == actions[k]
    ensures EmbedKey in actions ==> r[EmbedKey] == toDict(actions[EmbedKey])
  {
    map k | k in actions :: ShapeAction(k, actions[k], toDict)
  }

  /**
   The rebuild loop of both routes: start from an empty mapping and copy the
   engine's actions one at a time, converting the embed. Mappings are unordered,
   so the loop takes the keys in any order; the result does not depend on it.
   */
  method RebuildActions(actions: map<string, Value>, toDict: ToDict) returns (rebuilt: map<string, Value>)
    ensures rebuilt == ShapeActions(actions, toDict)
  {
    rebuilt := map[];
    var pending := actions.Keys;
    while pending != {}
      invariant pending <= actions.Keys
      invariant rebuilt.Keys == actions.Keys - pending
      invariant forall k :: k in rebuilt ==> rebuilt[k] == ShapeAction(k, actions[k], toDict)
      decreases pending
    {
      var k :| k in pending;
      if k == EmbedKey {
        rebuilt := rebuilt[k := toDict(actions[k])];
      } else {
        rebuilt := rebuilt[k := actions[k]];
      }
      pending := pending - {k};
    }
  }

  /** Without an embed, the actions pass through unchanged. */
  lemma ActionsWithoutEmbedUnchanged(actions: map<string, Value>, toDict: ToDict)
    requires EmbedKey !in actions
    ensures ShapeActions(actions, toDict) == actions
  {
  }

  /** The response object: the encoded body, the rebuilt actions and the engine's extras. */
  function Respond(out: EngineOutput, toDict: ToDict): (r: map<string, Value>)
    ensures r.Keys == {BodyKey, ActionsKey, ExtrasKey}
    ensures r[BodyKey].Str? && |r[BodyKey].s| == |out.body| && NoPlain(r[BodyKey].s)
    ensures r[BodyKey] == Str(Encode(out.body))
    ensures r[ActionsKey] == Obj(ShapeActions(out.actions, toDict))
    ensures r[ExtrasKey] == Obj(out.extras)
  {
    EncodeShape(out.body);
    map[BodyKey := Str(Encode(out.body)),
        ActionsKey := Obj(ShapeActions(out.actions, toDict)),
        ExtrasKey := Obj(out.extras)]
  }

  /** A caller that cleans the response body gets the engine's body back, unless the engine produced a marker. */
  lemma ResponseBodyDecodes(out: EngineOutput, toDict: ToDict)
    ensures Clean(Respond(out, toDict)[BodyKey].s) == out.body <==> NoMarkers(out.body)
  {
    CleanEncodeRoundTrip(out.body);
  }

  /** The v1 script: the cleaned path segment followed by the debug block. */
  function V1Script(segment: string): (script: string)
    ensures |script| == |segment| + |DebugDirective|
    ensures script[|segment|..] == DebugDirective
    ensures script[..|segment|] == Clean(segment)
    ensures NoMarkers(script[..|segment|])
  {
    CleanShape(segment);
    Clean(segment) + DebugDirective
  }

  /** The v2 script: the raw `tagscript` header, "" when absent, followed by the debug block; no decoding. */
  function V2Script(headers: map<string, string>): (script: string)
    ensures |script| >= |DebugDirective|
    ensures script[|script| - |DebugDirective|..] == DebugDirective
    ensures TagscriptHeader in headers ==> script[..|script| - |DebugDirective|] == headers[TagscriptHeader]
    ensures TagscriptHeader !in headers ==> script == DebugDirective
  {
    (if TagscriptHeader in headers then headers[TagscriptHeader] else "") + DebugDirective
  }

  /** `v1_process`: the already-unquoted path segment in, the response object out. */
  function V1Process(segment: string, engine: Engine, toDict: ToDict): (r: map<string, Value>)
    ensures r.Keys == {BodyKey, ActionsKey, ExtrasKey}
    ensures r[BodyKey].Str? && NoPlain(r[BodyKey].s)
    ensures r[BodyKey] == Str(Encode(engine(V1Script(segment), None).body))
    ensures r[ActionsKey].Obj? && r[ActionsKey].fields.Keys == engine(V1Script(segment), None).actions.Keys
    ensures r == Respond(engine(V1Script(segment), None), toDict)
  {
    Respond(engine(V1Script(segment), None), toDict)
  }

  /** `v2_process`: the request headers in, the response object out; the seeds are always empty. */
  function V2Process(headers: map<string, string>, engine: Engine, toDict: ToDict): (r: map<string, Value>)
    ensures r.Keys == {BodyKey, ActionsKey, ExtrasKey}
    ensures r[BodyKey].Str? && NoPlain(r[BodyKey].s)
    ensures r[BodyKey] == Str(Encode(engine(V2Script(headers), Some(map[])).body))
    ensures r[ActionsKey].Obj? && r[ActionsKey].fields.Keys == engine(V2Script(headers), Some(map[])).actions.Keys
    ensures r == Respond(engine(V2Script(headers), Some(map[])), toDict)
  {
    Respond(engine(V2Script(headers), Some(map[])), toDict)
  }

  /**
   A client that encodes a marker-free script before putting it in the v1 path
   has exactly that script run, followed by the debug block.
   */
  lemma V1DeliversEncodedScript(t: string)
    requires NoMarkers(t)
    ensures V1Script(Encode(t)) == t + DebugDirective
  {
    CleanEncodeRoundTrip(t);
    EncodeShape(t);
  }

  /** The v2 route does not decode: an encoded script arrives at the engine still encoded. */
  lemma V2KeepsEncoding(t: string)
    requires !NoPlain(t)
    ensures V2Script(map[TagscriptHeader := Encode(t)]) != t + DebugDirective
  {
    EncodeShape(t);
    var i :| 0 <= i < |t| && IsPlain(t[i]);
    var script := V2Script(map[TagscriptHeader := Encode(t)]);
    assert script[i] == Encode(t)[i];
    assert (t + DebugDirective)[i] == t[i];
  }

  /** v1 on a path segment is v2 on a header that already holds the cleaned segment, up to the seeds passed. */
  lemma V1IsV2AfterCleaning(segment: string)
    ensures V1Script(segment) == V2Script(map[TagscriptHeader := Clean(segment)])
  {
  }
}
