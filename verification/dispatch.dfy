/**
 Running a configured request: the JSON-body rewrite of the options, the
 single transport call, and the routing of its outcome to exactly one handler.
 The promise plumbing is replaced by the transport's outcome as an input and
 the settlement of the returned promise as the output.
 */
module Dispatch {
  import opened Wrappers
  import opened JsValues
  import opened ClientConfig
  import opened PropertyKeys

  const ContentTypeHeader: string := "Content-Type"
  const JsonContentType: string := "application/json; charset=utf-8"

  /** The one call made to the transport: which function, with which url and options. */
  datatype TransportCall = TransportCall(fetch: Func, url: Val, options: map<string, Val>)

  /** How the transport's promise settled. */
  datatype TransportOutcome = Delivered(response: Response) | Failed(error: Val)

  /** What calling the transport did: it returned a promise that settled with
      `outcome`, or it threw before returning anything. */
  datatype TransportResult = Returned(outcome: TransportOutcome) | Threw(thrown: Val)

  /** How the promise returned by `run` settles. `HandedTo(id, arg)` settles
      exactly as the opaque handler `id` does when called with `arg`, whether it
      returns or throws; `NotAFunction` is the TypeError of calling a non-function. */
  datatype Settlement =
    | Fulfilled(value: Val)
    | HandedTo(handler: nat, arg: Val)
    | RejectedWith(reason: Val)
    | NotAFunction(callee: Val)

  /** `run` throws synchronously when the transport is not a function, or when
      calling it throws (line 80 runs before any `then` is attached). */
  datatype RunError = FetchNotCallable(fetch: Val) | TransportThrew(thrown: Val)

  /** JavaScript's `a || b`. */
  function Or(a: Val, b: Val): Val {
    if Truthy(a) then a else b
  }

  /** `findCallbackByStatus(resp)`. */
  function FindCallbackByStatus(c: Client, r: Response, g: Global): (h: Val)
    ensures !HasOverride(c, Name(OnStatusCallbacks)) ==> h == Undefined
    ensures var t := OwnProps(Resolve(c, OnStatusCallbacks, g));
            && (IntToString(r.status) in t ==> h == t[IntToString(r.status)])
            && (IntToString(r.status) !in t ==> h == Undefined)
  {
    StatusEntry(c, r.status, g)
  }

  /** `findCallbackBySuccess(resp)`. */
  function FindCallbackBySuccess(c: Client, r: Response, g: Global): (h: Val)
    ensures !Truthy(h) ==> h == Null
    ensures Truthy(h) ==> var slot := Name(if r.ok then OnSuccess else OnErrorResponse);
                          HasOverride(c, slot) && h == c.values[slot]
    ensures var slot := Name(if r.ok then OnSuccess else OnErrorResponse);
            HasOverride(c, slot) ==> h == c.values[slot]
  {
    if r.ok then Resolve(c, OnSuccess, g) else Resolve(c, OnErrorResponse, g)
  }

  /** The handler chosen for a delivered response (lines 82-85). */
  function SelectHandler(c: Client, r: Response, g: Global): (h: Val)
    ensures Truthy(h)
  {
    Or(Or(FindCallbackByStatus(c, r, g), FindCallbackBySuccess(c, r, g)), Resolve(c, OnResponse, g))
  }

  /** The options handed to the transport. With a truthy `json_body` they are
      rewritten to carry its serialisation as `body` and a JSON content type;
      otherwise they are a copy of the stored options. */
  function SendOptions(opts: Val, ser: Val -> string): (sent: map<string, Val>)
    requires !Nullish(opts)
    ensures !Truthy(Prop(opts, "json_body")) ==> sent == OwnProps(opts)
    ensures Truthy(Prop(opts, "json_body")) ==> sent == JsonOptions(opts, ser)
  {
    if Truthy(Prop(opts, "json_body")) then JsonOptions(opts, ser) else Assign(Obj(map[]), opts)
  }

  /** The JSON rewrite of the stored options (lines 69-78): `body` is the
      serialised `json_body`, `headers` are the stored ones plus the JSON
      content type, `json_body` is dropped and every other option is kept. */
  function JsonOptions(opts: Val, ser: Val -> string): (sent: map<string, Val>)
    requires !Nullish(opts) && Truthy(Prop(opts, "json_body"))
    ensures var stored := OwnProps(opts);
      && "json_body" !in sent
      && sent.Keys == stored.Keys - {"json_body"} + {"body", "headers"}
      && sent["body"] == Str(ser(stored["json_body"]))
      && sent["headers"].Obj?
      && ContentTypeHeader in sent["headers"].props
      && sent["headers"].props[ContentTypeHeader] == Str(JsonContentType)
      && sent["headers"].props - {ContentTypeHeader} == OwnProps(Prop(opts, "headers")) - {ContentTypeHeader}
      && (forall p :: p in stored && p != "json_body" && p != "body" && p != "headers" ==> sent[p] == stored[p])
  {
    var fetchOpts := Assign(Obj(map[]), opts);
    var body := Str(ser(fetchOpts["json_body"]));
    var headers := Obj(Assign(Prop(opts, "headers"), Obj(map[ContentTypeHeader := Str(JsonContentType)])));
    fetchOpts["body" := body]["headers" := headers] - {"json_body"}
  }

  /** The synchronous part of `run`: resolve url, options and transport, rewrite
      the options, and call the transport (a TypeError if it is not a function). */
  function Prepare(c: Client, g: Global, ser: Val -> string): (r: Result<TransportCall, RunError>)
    ensures r.Failure? ==> r.error == FetchNotCallable(Resolve(c, Fetch, g)) && !r.error.fetch.Fn?
    ensures r.Success? ==> Truthy(r.value.url) || r.value.url == Null
    ensures r.Success? && "json_body" in r.value.options ==> !Truthy(r.value.options["json_body"])
  {
    var url := Resolve(c, Url, g);
    var opts := Resolve(c, RequestOptions, g);
    var fetch := Resolve(c, Fetch, g);
    var fetchOpts := SendOptions(opts, ser);
    if fetch.Fn? then Success(TransportCall(fetch.f, url, fetchOpts))
    else Failure(FetchNotCallable(fetch))
  }

  /** Calling a handler with one argument, as the body of a `then` callback. */
  function Invoke(h: Val, arg: Val): (s: Settlement)
    ensures s.NotAFunction? <==> !h.Fn?
    ensures !s.RejectedWith?
  {
    match h
    case Fn(Identity) => Fulfilled(arg)
    case Fn(Opaque(id)) => HandedTo(id, arg)
    case _ => NotAFunction(h)
  }

  /** The rejection argument of `then`: a non-function is ignored and the
      rejection passes through. */
  function OnRejected(h: Val, e: Val): (s: Settlement)
    ensures !s.NotAFunction?
    ensures !h.Fn? ==> s == RejectedWith(e)
  {
    if h.Fn? then Invoke(h, e) else RejectedWith(e)
  }

  /** How the promise returned by `run` settles once the transport has settled. */
  function Settle(c: Client, g: Global, outcome: TransportOutcome): (s: Settlement)
    ensures s.RejectedWith? ==> outcome.Failed? && s.reason == outcome.error
    ensures s.NotAFunction? ==> outcome.Delivered?
  {
    match outcome
    case Delivered(r) => Invoke(SelectHandler(c, r, g), Resp(r))
    case Failed(e) => OnRejected(Resolve(c, OnConnectionError, g), e)
  }

  /** `run()`: a synchronous throw, or the settlement of the returned promise
      given what the transport does with the call it receives. */
  function Run(c: Client, g: Global, ser: Val -> string, transport: TransportCall -> TransportResult): (r: Result<Settlement, RunError>)
    ensures r.Failure? && r.error.FetchNotCallable? <==> !Resolve(c, Fetch, g).Fn?
    ensures r.Failure? && r.error.TransportThrew? ==> transport(Prepare(c, g, ser).value) == Threw(r.error.thrown)
  {
    var call :- Prepare(c, g, ser);
    match transport(call)
    case Threw(e) => Failure(TransportThrew(e))
    case Returned(outcome) => Success(Settle(c, g, outcome))
  }

  /** `runRequest(url, opts)`. */
  function RunRequest(c: Client, url: Val, opts: Val, g: Global, ser: Val -> string,
                      transport: TransportCall -> TransportResult): (r: Result<Settlement, RunError>)
    ensures r.Failure? && r.error.FetchNotCallable? <==> !Resolve(c, Fetch, g).Fn?
  {
    var c' := Request(c, url, opts, g);
    assert Resolve(c', Fetch, g) == Resolve(c, Fetch, g) by {
      var rest := {Name(Url), Name(RequestOptions)};
      assert Name(Fetch) !in rest;
      assert (Name(Fetch) in c'.values) == (Name(Fetch) in c'.values - rest);
      assert (Name(Fetch) in c.values) == (Name(Fetch) in c.values - rest);
    }
    Run(c', g, ser, transport)
  }
}
