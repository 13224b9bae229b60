/**
 Line 73 of the client passes the stored `headers` object itself as the
 target of `Object.assign`, so a JSON run writes `Content-Type` into the
 options of the client that ran, against the store's promise that no builder
 state is ever mutated. This module models that side effect as written and
 states the property the copy-on-write model keeps instead.
 */
module HeaderAliasing {
  import opened JsValues
  import opened ClientConfig
  import opened ClientConfigLaws
  import opened Dispatch

  /** The stored request options after `run`, as the code leaves them: with a
      truthy `json_body` and a stored headers object, that object gains the
      JSON content type in place. */
  function StoredOptionsAfterRunAsWritten(opts: Val): (after: Val)
    requires !Nullish(opts)
    ensures !Nullish(after)
    ensures !Truthy(Prop(opts, "json_body")) ==> after == opts
    ensures Truthy(Prop(opts, "json_body")) && !Prop(opts, "headers").Obj? ==> after == opts
    ensures Truthy(Prop(opts, "json_body")) && Prop(opts, "headers").Obj? ==>
      && after.Obj?
      && OwnProps(after) - {"headers"} == OwnProps(opts) - {"headers"}
      && Prop(after, "headers").Obj?
      && Prop(after, "headers").props == Prop(opts, "headers").props[ContentTypeHeader := Str(JsonContentType)]
  {
    var h := Prop(opts, "headers");
    if Truthy(Prop(opts, "json_body")) && h.Obj? then
      Obj(OwnProps(opts)["headers" := Obj(h.props[ContentTypeHeader := Str(JsonContentType)])])
    else
      opts
  }

  /** The client after `run`, as the code leaves it. */
  function ClientAfterRunAsWritten(c: Client): Client {
    if HasOverride(c, Name(RequestOptions)) then
      NewWithValue(c, Name(RequestOptions), StoredOptionsAfterRunAsWritten(c.values[Name(RequestOptions)]))
    else
      c
  }

  /** As written: after a JSON run, a later request from the same client
      whose own `json_body` is `null` sends the mutated headers. */
  lemma LaterRequestSeesMutatedHeaders(c: Client, u: Val, g: Global, ser: Val -> string)
    requires HasOverride(c, Name(RequestOptions))
    requires Truthy(Prop(c.values[Name(RequestOptions)], "json_body"))
    requires Prop(c.values[Name(RequestOptions)], "headers").Obj?
    ensures var h := Prop(c.values[Name(RequestOptions)], "headers").props;
            var later := Request(ClientAfterRunAsWritten(c), u, Obj(map["json_body" := Null]), g);
            var sent := SendOptions(Resolve(later, RequestOptions, g), ser);
            && "headers" in sent
            && sent["headers"] == Obj(h[ContentTypeHeader := Str(JsonContentType)])
  {
    var stored := c.values[Name(RequestOptions)];
    var c' := ClientAfterRunAsWritten(c);
    var after := StoredOptionsAfterRunAsWritten(stored);
    assert Resolve(c', RequestOptions, g) == after;
    var plain := Obj(map["json_body" := Null]);
    var later := Request(c', u, plain, g);
    var opts := Resolve(later, RequestOptions, g);
    assert OwnProps(opts) == OwnProps(after) + map["json_body" := Null] by {
      RequestSetsUrlAndMergesOptions(c', u, plain, g);
    }
    assert Prop(opts, "json_body") == Null;
    assert "headers" in OwnProps(after);
  }

  /** The stored options of the concrete input: `{headers: {Accept: 'text/plain'}, json_body: 1}`. */
  const LeakyOptions: Val := Obj(map["headers" := Obj(map["Accept" := Str("text/plain")]), "json_body" := Num(1)])

  /** The concrete input: a client holding `LeakyOptions` runs, then sends a
      request whose own `json_body` is `null`; that request carries the JSON
      content type that the stored headers never had. */
  lemma RunLeaksContentTypeAsWritten(g: Global, ser: Val -> string)
    ensures var c := Client(map["requestOptions" := LeakyOptions]);
            var later := Request(ClientAfterRunAsWritten(c), Str("/b"), Obj(map["json_body" := Null]), g);
            var sent := SendOptions(Resolve(later, RequestOptions, g), ser);
            && ContentTypeHeader !in LeakyOptions.props["headers"].props
            && "headers" in sent
            && sent["headers"] == Obj(map["Accept" := Str("text/plain"), ContentTypeHeader := Str(JsonContentType)])
  {
    var c := Client(map["requestOptions" := LeakyOptions]);
    assert Name(RequestOptions) == "requestOptions";
    assert HasOverride(c, Name(RequestOptions));
    assert Prop(LeakyOptions, "json_body") == Num(1);
    assert Prop(LeakyOptions, "headers") == Obj(map["Accept" := Str("text/plain")]);
    LaterRequestSeesMutatedHeaders(c, Str("/b"), g, ser);
  }

  /** Corrected (the model's `run`, which builds a fresh headers object): a
      request whose options have no truthy `json_body` sends exactly the
      stored headers, whatever JSON requests ran before. */
  lemma PlainRequestSendsStoredHeaders(c: Client, u: Val, o: Val, g: Global, ser: Val -> string)
    requires !Truthy(Prop(Resolve(Request(c, u, o, g), RequestOptions, g), "json_body"))
    ensures var merged := OwnProps(Resolve(c, RequestOptions, g)) + OwnProps(o);
            var sent := SendOptions(Resolve(Request(c, u, o, g), RequestOptions, g), ser);
            && ("headers" in sent <==> "headers" in merged)
            && ("headers" in sent ==> sent["headers"] == merged["headers"])
  {
    RequestSetsUrlAndMergesOptions(c, u, o, g);
  }
}
