/** Concrete chains of builder calls, each with the outcome the client's
    behaviour promises for it. */
module Scenarios {
  import opened Wrappers
  import opened JsValues
  import opened ClientConfig
  import opened ClientConfigLaws
  import opened Dispatch
  import opened DispatchLaws

  const OnResponseHandler: Val := Fn(Opaque(1))
  const ErrorHandler: Val := Fn(Opaque(2))
  const NotFoundHandler: Val := Fn(Opaque(3))
  const SuccessHandler: Val := Fn(Opaque(4))
  const ConnectionHandler: Val := Fn(Opaque(5))

  /** A 404 with `onResponse`, `onErrorResponse` and `onStatus(404, h)` all set goes to `h`. */
  lemma NotFoundGoesToStatusCallback(g: Global)
    ensures var c := OnStatus(Set(Set(Base, OnResponse, OnResponseHandler, g), OnErrorResponse, ErrorHandler, g), 404, NotFoundHandler, g);
            var r := Response(404, false, "");
            Settle(c, g, Delivered(r)) == HandedTo(3, Resp(r))
  {
    var c0 := Set(Set(Base, OnResponse, OnResponseHandler, g), OnErrorResponse, ErrorHandler, g);
    StatusCallbackWins(c0, NotFoundHandler, Response(404, false, ""), g);
  }

  /** A 200 goes to `onSuccess` when it is set and to `onResponse` otherwise. */
  lemma SuccessBeatsOnResponse(g: Global)
    ensures var r := Response(200, true, "");
            var c := Set(Base, OnResponse, OnResponseHandler, g);
            && Settle(Set(c, OnSuccess, SuccessHandler, g), g, Delivered(r)) == HandedTo(4, Resp(r))
            && Settle(c, g, Delivered(r)) == HandedTo(1, Resp(r))
  {
    var r := Response(200, true, "");
    var c := Set(Base, OnResponse, OnResponseHandler, g);
    SetFrame(Base, OnResponse, OnStatusCallbacks, OnResponseHandler, g);
    SetFrame(Base, OnResponse, OnSuccess, OnResponseHandler, g);
    assert StatusEntry(c, 200, g) == Undefined;
    SlotBeatsOnResponse(c, SuccessHandler, r, g);
  }

  /** `onStatus(200, h).onStatus(200, null)` on a 200 reaches `onSuccess`, never `h`. */
  lemma ClearedCallbackFallsThrough(g: Global)
    ensures var r := Response(200, true, "");
            var c := Set(Base, OnSuccess, SuccessHandler, g);
            Settle(OnStatus(OnStatus(c, 200, NotFoundHandler, g), 200, Null, g), g, Delivered(r)) == HandedTo(4, Resp(r))
  {
    var r := Response(200, true, "");
    var c := Set(Base, OnSuccess, SuccessHandler, g);
    ClearingStatusCallback(c, NotFoundHandler, r, g);
    SetReadBack(Base, OnSuccess, SuccessHandler, g);
  }

  /** The rewrite of options that carry a truthy `json_body` and no headers. */
  lemma JsonRewriteWithoutHeaders(m: map<string, Val>, ser: Val -> string)
    requires "json_body" in m && Truthy(m["json_body"]) && "headers" !in m
    ensures SendOptions(Obj(m), ser)
         == (m - {"json_body"})["body" := Str(ser(m["json_body"]))]["headers" := Obj(map[ContentTypeHeader := Str(JsonContentType)])]
  {
    assert Assign(Undefined, Obj(map[ContentTypeHeader := Str(JsonContentType)])) == map[ContentTypeHeader := Str(JsonContentType)];
  }

  /** A request built on the unconfigured client sends its own options. */
  lemma RequestOnBaseSends(u: Val, o: Val, g: Global, ser: Val -> string)
    requires g.fetch.Fn? && o.Obj?
    ensures var call := Prepare(Request(Base, u, o, g), g, ser);
            && call.Success?
            && call.value.url == (if Truthy(u) then u else Null)
            && call.value.options == SendOptions(o, ser)
  {
    var call := Prepare(Request(Base, u, o, g), g, ser);
    var merged := Obj(OwnProps(Resolve(Base, RequestOptions, g)) + OwnProps(o));
    assert call.Success? && call.value.url == (if Truthy(u) then u else Null) && call.value.options == SendOptions(merged, ser) by {
      RunRequestCall(Base, u, o, g, ser);
    }
    assert merged == o by {
      assert OwnProps(Resolve(Base, RequestOptions, g)) == map[];
      assert map[] + o.props == o.props;
    }
  }

  /** A request on the unconfigured client whose options carry a truthy
      `json_body` and no headers sends their JSON rewrite to the url. */
  lemma JsonRequestOnBaseSends(url: Val, m: map<string, Val>, g: Global, ser: Val -> string)
    requires g.fetch.Fn? && Truthy(url)
    requires "json_body" in m && Truthy(m["json_body"]) && "headers" !in m
    ensures var call := Prepare(Request(Base, url, Obj(m), g), g, ser);
            && call.Success?
            && call.value.url == url
            && call.value.options
               == (m - {"json_body"})["body" := Str(ser(m["json_body"]))]["headers" := Obj(map[ContentTypeHeader := Str(JsonContentType)])]
  {
    RequestOnBaseSends(url, Obj(m), g, ser);
    JsonRewriteWithoutHeaders(m, ser);
  }

  /** `runRequest(url, {method: 'POST', json_body: b})`, for the example's
      `'/post'` and `b = {a: 1}` as for any truthy url and body, sends the serialised body with a
      JSON content type and without `json_body`. */
  lemma JsonPostIsEncoded(g: Global, ser: Val -> string, url: Val, jsonBody: Val)
    requires g.fetch.Fn? && Truthy(url) && Truthy(jsonBody)
    ensures var opts := Obj(map["method" := Str("POST"), "json_body" := jsonBody]);
            var call := Prepare(Request(Base, url, opts, g), g, ser);
            && call.Success?
            && call.value.url == url
            && call.value.options == map["method" := Str("POST"), "body" := Str(ser(jsonBody)),
                                         "headers" := Obj(map[ContentTypeHeader := Str(JsonContentType)])]
  {
    var m := map["method" := Str("POST"), "json_body" := jsonBody];
    JsonRequestOnBaseSends(url, m, g, ser);
    PostRewrite(jsonBody, Str(ser(jsonBody)), Obj(map[ContentTypeHeader := Str(JsonContentType)]));
  }

  /** The rewrite of `{method: 'POST', json_body: b}`, as a map display. */
  lemma PostRewrite(jsonBody: Val, body: Val, headers: Val)
    ensures (map["method" := Str("POST"), "json_body" := jsonBody] - {"json_body"})["body" := body]["headers" := headers]
         == map["method" := Str("POST"), "body" := body, "headers" := headers]
  {
    assert map["method" := Str("POST"), "json_body" := jsonBody] - {"json_body"} == map["method" := Str("POST")];
  }

  /** The example's own body. */
  lemma JsonPostExample(g: Global, ser: Val -> string)
    requires g.fetch.Fn?
    ensures var call := Prepare(Request(Base, Str("/post"), Obj(map["method" := Str("POST"), "json_body" := Obj(map["a" := Num(1)])]), g), g, ser);
            call.Success? && "body" in call.value.options && call.value.options["body"] == Str(ser(Obj(map["a" := Num(1)])))
  {
    JsonPostIsEncoded(g, ser, Str("/post"), Obj(map["a" := Num(1)]));
  }

  /** A transport that fails with "X": without `onConnectionError` the promise
      fulfils with "X"; with one, that handler receives "X". */
  lemma ConnectionErrorScenario(g: Global)
    ensures var e := Str("X");
            && Settle(Request(Base, Str("/test"), Undefined, g), g, Failed(e)) == Fulfilled(e)
            && Settle(Set(Base, OnConnectionError, ConnectionHandler, g), g, Failed(e)) == HandedTo(5, e)
  {
    RequestSetsUrlAndMergesOptions(Base, Str("/test"), Undefined, g);
    FailureRouting(Base, Str("X"), g);
  }

  /** `onSuccess` and `onConnectionError` both set: a 200 settles as `onSuccess`
      does, including its throw; `onConnectionError` is not called. */
  lemma CallbackErrorIsolation(g: Global)
    ensures var r := Response(200, true, "");
            var c := Set(Set(Base, OnConnectionError, ConnectionHandler, g), OnSuccess, SuccessHandler, g);
            Settle(c, g, Delivered(r)) == HandedTo(4, Resp(r))
  {
    var r := Response(200, true, "");
    var c1 := Set(Base, OnConnectionError, ConnectionHandler, g);
    var c := Set(c1, OnSuccess, SuccessHandler, g);
    SetFrame(Base, OnConnectionError, OnStatusCallbacks, ConnectionHandler, g);
    assert StatusEntry(c1, 200, g) == Undefined;
    SlotBeatsOnResponse(c1, SuccessHandler, r, g);
  }

  /** A mock transport answering `/test` with status 200 and body "Hello":
      `runRequest('/test')` fulfils with that response through the default
      identity `onResponse`. */
  lemma EndToEnd(fetchId: nat, ser: Val -> string)
    ensures var g := Global(Fn(Opaque(fetchId)));
            var r := Response(200, true, "Hello");
            RunRequest(Base, Str("/test"), Undefined, g, ser, (call: TransportCall) => Returned(Delivered(r))) == Success(Fulfilled(Resp(r)))
  {
    var g := Global(Fn(Opaque(fetchId)));
    var r := Response(200, true, "Hello");
    var c := Request(Base, Str("/test"), Undefined, g);
    assert Prepare(c, g, ser).Success? by {
      RunRequestCall(Base, Str("/test"), Undefined, g, ser);
    }
    assert Settle(c, g, Delivered(r)) == Fulfilled(Resp(r)) by {
      RequestKeepsRouting(Base, Str("/test"), Undefined, g, Delivered(r));
      UnconfiguredReturnsResponse(r, g);
    }
  }

  /** Building a client with its own fetch leaves the original on `global.fetch`. */
  lemma FetchOverrideLeavesOriginal(globalFetch: nat, ownFetch: nat, ser: Val -> string)
    ensures var g := Global(Fn(Opaque(globalFetch)));
            var derived := Set(Base, Fetch, Fn(Opaque(ownFetch)), g);
            var own := Prepare(Request(derived, Str("https://example.com"), Undefined, g), g, ser);
            var original := Prepare(Request(Base, Str("https://example.com"), Undefined, g), g, ser);
            && own.Success? && own.value.fetch == Opaque(ownFetch)
            && original.Success? && original.value.fetch == Opaque(globalFetch)
  {
    var g := Global(Fn(Opaque(globalFetch)));
    var derived := Set(Base, Fetch, Fn(Opaque(ownFetch)), g);
    var own := Prepare(Request(derived, Str("https://example.com"), Undefined, g), g, ser);
    var original := Prepare(Request(Base, Str("https://example.com"), Undefined, g), g, ser);
    assert Resolve(derived, Fetch, g) == Fn(Opaque(ownFetch)) by {
      SetReadBack(Base, Fetch, Fn(Opaque(ownFetch)), g);
    }
    assert own.Success? && own.value.fetch == Opaque(ownFetch) by {
      RunRequestCall(derived, Str("https://example.com"), Undefined, g, ser);
    }
    assert original.Success? && original.value.fetch == Opaque(globalFetch) by {
      RunRequestCall(Base, Str("https://example.com"), Undefined, g, ser);
    }
  }
}
