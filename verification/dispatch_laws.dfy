/** Properties of dispatch: handler precedence, clearing a status callback,
    connection-error routing and the options the transport receives. */
module DispatchLaws {
  import opened Wrappers
  import opened JsValues
  import opened ClientConfig
  import opened ClientConfigLaws
  import opened Dispatch

  /** The handler chosen when no status callback applies. */
  function Fallback(c: Client, r: Response, g: Global): Val {
    Or(FindCallbackBySuccess(c, r, g), Resolve(c, OnResponse, g))
  }

  /** The success/error slot consulted for a response. */
  function SlotFor(r: Response): Key {
    if r.ok then OnSuccess else OnErrorResponse
  }

  /** Precedence: a truthy status callback, else a truthy success/error slot,
      else `onResponse`. */
  lemma SelectionPrecedence(c: Client, r: Response, g: Global)
    ensures Truthy(StatusEntry(c, r.status, g)) ==> SelectHandler(c, r, g) == StatusEntry(c, r.status, g)
    ensures !Truthy(StatusEntry(c, r.status, g)) && Truthy(Resolve(c, SlotFor(r), g))
            ==> SelectHandler(c, r, g) == Resolve(c, SlotFor(r), g)
    ensures !Truthy(StatusEntry(c, r.status, g)) && !Truthy(Resolve(c, SlotFor(r), g))
            ==> SelectHandler(c, r, g) == Resolve(c, OnResponse, g)
  {
  }

  /** A status callback beats the success/error slot and `onResponse`,
      whatever they hold. */
  lemma StatusCallbackWins(c: Client, h: Val, r: Response, g: Global)
    requires Truthy(h)
    ensures SelectHandler(OnStatus(c, r.status, h, g), r, g) == h
    ensures Settle(OnStatus(c, r.status, h, g), g, Delivered(r)) == Invoke(h, Resp(r))
  {
    OnStatusTouchesOneStatus(c, r.status, h, g);
  }

  /** With no status callback for the response, a set success (or error) slot
      beats `onResponse`. */
  lemma SlotBeatsOnResponse(c: Client, h: Val, r: Response, g: Global)
    requires Truthy(h)
    requires !Truthy(StatusEntry(c, r.status, g))
    ensures SelectHandler(Set(c, SlotFor(r), h, g), r, g) == h
  {
    SetFrame(c, SlotFor(r), OnStatusCallbacks, h, g);
    SetReadBack(c, SlotFor(r), h, g);
  }

  /** A client with nothing configured fulfils with the response itself. */
  lemma UnconfiguredReturnsResponse(r: Response, g: Global)
    ensures SelectHandler(Base, r, g) == Fn(Identity)
    ensures Settle(Base, g, Delivered(r)) == Fulfilled(Resp(r))
  {
    assert StatusEntry(Base, r.status, g) == Undefined;
  }

  /** `onStatus(s, h)` then `onStatus(s, null)`: the stored `null` is falsy, so
      a response with status `s` goes to the slot or `onResponse` the client
      had before, and never to `h` unless that is what it had. */
  lemma ClearingStatusCallback(c: Client, h: Val, r: Response, g: Global)
    ensures var cleared := OnStatus(OnStatus(c, r.status, h, g), r.status, Null, g);
            && StatusEntry(cleared, r.status, g) == Null
            && SelectHandler(cleared, r, g) == Fallback(c, r, g)
            && (h != Fallback(c, r, g) ==> SelectHandler(cleared, r, g) != h)
  {
    var c1 := OnStatus(c, r.status, h, g);
    OnStatusTouchesOneStatus(c, r.status, h, g);
    OnStatusTouchesOneStatus(c1, r.status, Null, g);
  }

  /** A transport failure goes to `onConnectionError` alone. */
  lemma FailureRouting(c: Client, e: Val, g: Global)
    ensures !HasOverride(c, Name(OnConnectionError)) ==> Settle(c, g, Failed(e)) == Fulfilled(e)
    ensures forall id: nat :: Settle(Set(c, OnConnectionError, Fn(Opaque(id)), g), g, Failed(e)) == HandedTo(id, e)
    ensures forall k, v :: k != OnConnectionError ==> Settle(Set(c, k, v, g), g, Failed(e)) == Settle(c, g, Failed(e))
  {
    forall id: nat
      ensures Settle(Set(c, OnConnectionError, Fn(Opaque(id)), g), g, Failed(e)) == HandedTo(id, e)
    {
      SetReadBack(c, OnConnectionError, Fn(Opaque(id)), g);
    }
    forall k, v | k != OnConnectionError
      ensures Settle(Set(c, k, v, g), g, Failed(e)) == Settle(c, g, Failed(e))
    {
      SetFrame(c, k, OnConnectionError, v, g);
    }
  }

  /** `then` ignores a rejection argument that is not a function: a transport
      failure under a non-function `onConnectionError` rejects the returned
      promise with the transport's error, never with a TypeError. */
  lemma NonFunctionConnectionHandlerPassesThrough(c: Client, v: Val, e: Val, g: Global)
    requires !v.Fn?
    ensures Truthy(v) ==> Settle(Set(c, OnConnectionError, v, g), g, Failed(e)) == RejectedWith(e)
    ensures !Settle(Set(c, OnConnectionError, v, g), g, Failed(e)).NotAFunction?
  {
    SetReadBack(c, OnConnectionError, v, g);
  }

  /** A delivered response never reaches `onConnectionError`: changing it does
      not change the settlement, a delivered response never settles as a
      pass-through rejection, and what an opaque handler throws is the outcome. */
  lemma DeliveredIgnoresConnectionHandler(c: Client, v: Val, r: Response, g: Global)
    ensures Settle(Set(c, OnConnectionError, v, g), g, Delivered(r)) == Settle(c, g, Delivered(r))
    ensures !Settle(c, g, Delivered(r)).RejectedWith?
    ensures forall id: nat :: SelectHandler(c, r, g) == Fn(Opaque(id)) ==> Settle(c, g, Delivered(r)) == HandedTo(id, Resp(r))
  {
    SetFrame(c, OnConnectionError, OnStatusCallbacks, v, g);
    SetFrame(c, OnConnectionError, OnSuccess, v, g);
    SetFrame(c, OnConnectionError, OnErrorResponse, v, g);
    SetFrame(c, OnConnectionError, OnResponse, v, g);
  }

  /** `SendOptions` reads only the own properties of the stored options. */
  lemma SendOptionsOwnProps(a: Val, b: Val, ser: Val -> string)
    requires !Nullish(a) && !Nullish(b)
    requires OwnProps(a) == OwnProps(b)
    ensures SendOptions(a, ser) == SendOptions(b, ser)
  {
  }

  /** `run()` makes one transport call: two transports that answer that one
      call alike give the same run, whatever they would do with other calls. */
  lemma RunMakesOneCall(c: Client, g: Global, ser: Val -> string,
                        t1: TransportCall -> TransportResult, t2: TransportCall -> TransportResult)
    requires Prepare(c, g, ser).Success?
    requires t1(Prepare(c, g, ser).value) == t2(Prepare(c, g, ser).value)
    ensures Run(c, g, ser, t1) == Run(c, g, ser, t2)
  {
  }

  /** A transport that throws instead of returning a promise makes `run` throw
      that value synchronously; `onConnectionError` never sees it. */
  lemma SyncThrowBypassesConnectionHandler(c: Client, v: Val, e: Val, g: Global, ser: Val -> string,
                                           transport: TransportCall -> TransportResult)
    requires Prepare(c, g, ser).Success?
    requires transport(Prepare(c, g, ser).value) == Threw(e)
    ensures Run(c, g, ser, transport) == Failure(TransportThrew(e))
    ensures Prepare(Set(c, OnConnectionError, v, g), g, ser) == Prepare(c, g, ser)
    ensures Run(Set(c, OnConnectionError, v, g), g, ser, transport) == Failure(TransportThrew(e))
  {
    SetFrame(c, OnConnectionError, Fetch, v, g);
    SetFrame(c, OnConnectionError, Url, v, g);
    SetFrame(c, OnConnectionError, RequestOptions, v, g);
  }

  /** The transport defaults to `global.fetch`; a fetch override is used instead. */
  lemma TransportChoice(c: Client, f: Func, g: Global, ser: Val -> string)
    ensures !HasOverride(c, Name(Fetch)) ==> (Prepare(c, g, ser).Success? <==> g.fetch.Fn?)
    ensures !HasOverride(c, Name(Fetch)) && g.fetch.Fn? ==> Prepare(c, g, ser).value.fetch == g.fetch.f
    ensures Prepare(Set(c, Fetch, Fn(f), g), g, ser).Success?
    ensures Prepare(Set(c, Fetch, Fn(f), g), g, ser).value.fetch == f
  {
    SetReadBack(c, Fetch, Fn(f), g);
  }

  /** `runRequest(u, o)` calls the transport with url `u` (or `null` when falsy)
      and the rewrite of the stored options merged with `o`. */
  lemma RunRequestCall(c: Client, u: Val, o: Val, g: Global, ser: Val -> string)
    requires Resolve(c, Fetch, g).Fn?
    ensures var call := Prepare(Request(c, u, o, g), g, ser);
            && call.Success?
            && call.value.fetch == Resolve(c, Fetch, g).f
            && call.value.url == (if Truthy(u) then u else Null)
            && call.value.options == SendOptions(Obj(OwnProps(Resolve(c, RequestOptions, g)) + OwnProps(o)), ser)
  {
    var c' := Request(c, u, o, g);
    RequestSetsUrlAndMergesOptions(c, u, o, g);
    SendOptionsOwnProps(Resolve(c', RequestOptions, g), Obj(OwnProps(Resolve(c, RequestOptions, g)) + OwnProps(o)), ser);
  }

  /** `request(u, o)` touches only the url and the options, so it never changes
      how a transport outcome is routed. */
  lemma RequestKeepsRouting(c: Client, u: Val, o: Val, g: Global, outcome: TransportOutcome)
    ensures Settle(Request(c, u, o, g), g, outcome) == Settle(c, g, outcome)
  {
    var c' := Request(c, u, o, g);
    RequestSetsUrlAndMergesOptions(c, u, o, g);
    match outcome
    case Delivered(r) =>
      assert Resolve(c', OnStatusCallbacks, g) == Resolve(c, OnStatusCallbacks, g);
      assert Resolve(c', SlotFor(r), g) == Resolve(c, SlotFor(r), g);
      assert Resolve(c', OnResponse, g) == Resolve(c, OnResponse, g);
      assert SelectHandler(c', r, g) == SelectHandler(c, r, g);
    case Failed(e) =>
      assert Resolve(c', OnConnectionError, g) == Resolve(c, OnConnectionError, g);
  }
}
