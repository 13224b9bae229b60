/**
 The configuration store of the HTTP client: an immutable record of
 overrides (`values`) in front of a fixed table of default factories, with
 one chainable setter per key. Scalar keys are replaced on set; merge keys
 (`onStatusCallbacks`, `requestOptions`) are shallow-merged.
 */
module ClientConfig {
  import opened Wrappers
  import opened JsValues
  import opened PropertyKeys

  /** The vocabulary registered when the module is loaded. */
  datatype Key =
    | Fetch
    | OnResponse
    | OnSuccess
    | OnErrorResponse
    | OnConnectionError
    | OnStatusCallbacks
    | RequestOptions
    | Url

  /** The registered key, if any, spelled `name`. */
  function KeyOf(name: string): Option<Key> {
    if name == "fetch" then Some(Fetch)
    else if name == "onResponse" then Some(OnResponse)
    else if name == "onSuccess" then Some(OnSuccess)
    else if name == "onErrorResponse" then Some(OnErrorResponse)
    else if name == "onConnectionError" then Some(OnConnectionError)
    else if name == "onStatusCallbacks" then Some(OnStatusCallbacks)
    else if name == "requestOptions" then Some(RequestOptions)
    else if name == "url" then Some(Url)
    else None
  }

  /** The property name under which a key is stored and its setter is installed. */
  function Name(k: Key): (n: string)
    ensures KeyOf(n) == Some(k)
  {
    match k
    case Fetch => "fetch"
    case OnResponse => "onResponse"
    case OnSuccess => "onSuccess"
    case OnErrorResponse => "onErrorResponse"
    case OnConnectionError => "onConnectionError"
    case OnStatusCallbacks => "onStatusCallbacks"
    case RequestOptions => "requestOptions"
    case Url => "url"
  }

  /** Keys registered with `defineMergedValue`: their setters merge. */
  predicate IsMerge(k: Key) {
    k == OnStatusCallbacks || k == RequestOptions
  }

  /** The part of the JavaScript global environment that the defaults read. */
  datatype Global = Global(fetch: Val)

  /** What each key's default factory returns: `global.fetch` for the transport,
      an identity function for `onResponse` and `onConnectionError`, `{}` for
      merge keys and `null` for keys registered without a factory. */
  function Default(k: Key, g: Global): (v: Val)
    ensures k == Fetch ==> v == g.fetch
    ensures k != Fetch ==> (Truthy(v) <==> k !in {OnSuccess, OnErrorResponse, Url})
    ensures IsMerge(k) ==> v.Obj? && OwnProps(v) == map[]
  {
    match k
    case Fetch => g.fetch
    case OnResponse => Fn(Identity)
    case OnConnectionError => Fn(Identity)
    case OnStatusCallbacks => Obj(map[])
    case RequestOptions => Obj(map[])
    case _ => Null
  }

  /** A client: the overrides set so far, keyed by property name. */
  datatype Client = Client(values: map<string, Val>)

  /** The exported `httpClient`, with no overrides. */
  const Base: Client := Client(map[])

  /** `if (this.values[name])`: an override counts only when it is truthy. */
  predicate HasOverride(c: Client, name: string) {
    name in c.values && Truthy(c.values[name])
  }

  /** `value(name)`: the truthy override, else the registered default, else a throw. */
  function Value(c: Client, name: string, g: Global): (r: Result<Val, string>)
    ensures r.Failure? <==> !HasOverride(c, name) && KeyOf(name).None?
    ensures HasOverride(c, name) ==> r == Success(c.values[name])
    ensures !HasOverride(c, name) && KeyOf(name).Some? ==> r == Success(Default(KeyOf(name).value, g))
    ensures r.Failure? ==> r.error == "value " + name + " not found"
  {
    if HasOverride(c, name) then Success(c.values[name])
    else match KeyOf(name)
      case Some(k) => Success(Default(k, g))
      case None => Failure("value " + name + " not found")
  }

  /** The value of a registered key, which never throws. */
  function Resolve(c: Client, k: Key, g: Global): (v: Val)
    ensures Value(c, Name(k), g) == Success(v)
    ensures !HasOverride(c, Name(k)) ==> v == Default(k, g)
    ensures Truthy(Default(k, g)) ==> Truthy(v)
  {
    if HasOverride(c, Name(k)) then c.values[Name(k)] else Default(k, g)
  }

  /** `newWithValue(key, value)`: a copy of the client with one override replaced. */
  function NewWithValue(c: Client, name: string, v: Val): (c': Client)
    ensures name in c'.values && c'.values[name] == v
    ensures c'.values - {name} == c.values - {name}
  {
    Client(c.values[name := v])
  }

  /** `newWithMergedValue(key, object)`: the current value of `name` shallow-merged
      with `partial`, stored as the new override. Throws where `value` throws. */
  function NewWithMergedValue(c: Client, name: string, partial: Val, g: Global): (r: Result<Client, string>)
    ensures r.Failure? <==> Value(c, name, g).Failure?
    ensures r.Success? ==> r.value.values - {name} == c.values - {name}
    ensures r.Success? ==>
      var prior := Value(c, name, g).value;
      && name in r.value.values
      && r.value.values[name].Obj?
      && r.value.values[name].props.Keys == OwnProps(prior).Keys + OwnProps(partial).Keys
      && (forall p :: p in OwnProps(partial) ==> r.value.values[name].props[p] == OwnProps(partial)[p])
      && (forall p :: p in OwnProps(prior) && p !in OwnProps(partial) ==> r.value.values[name].props[p] == OwnProps(prior)[p])
  {
    var prior :- Value(c, name, g);
    Success(NewWithValue(c, name, Obj(Assign(prior, partial))))
  }

  /** The setter that `defineValue` / `defineMergedValue` installs for key `k`. */
  function Set(c: Client, k: Key, v: Val, g: Global): (c': Client)
    ensures c'.values - {Name(k)} == c.values - {Name(k)}
    ensures Name(k) in c'.values
    ensures !IsMerge(k) ==> c'.values[Name(k)] == v
    ensures IsMerge(k) ==> c'.values[Name(k)] == Obj(Assign(Resolve(c, k, g), v))
  {
    if IsMerge(k) then
      NewWithMergedValue(c, Name(k), v, g).value
    else
      NewWithValue(c, Name(k), v)
  }

  /** `onStatus(status, callback)`: merges `{[status]: callback}` into the status table. */
  function OnStatus(c: Client, status: int, callback: Val, g: Global): (c': Client)
    ensures c'.values - {Name(OnStatusCallbacks)} == c.values - {Name(OnStatusCallbacks)}
    ensures StatusEntry(c', status, g) == callback
  {
    Set(c, OnStatusCallbacks, Obj(map[IntToString(status) := callback]), g)
  }

  /** `request(url, opts)`: sets the url and merges `opts` into the request options. */
  function Request(c: Client, url: Val, opts: Val, g: Global): (c': Client)
    ensures c'.values - {Name(Url), Name(RequestOptions)} == c.values - {Name(Url), Name(RequestOptions)}
    ensures Name(Url) in c'.values && c'.values[Name(Url)] == url
    ensures OwnProps(Resolve(c', RequestOptions, g)) == OwnProps(Resolve(c, RequestOptions, g)) + OwnProps(opts)
  {
    Set(Set(c, Url, url, g), RequestOptions, opts, g)
  }

  /** The callback registered for `status`, `undefined` when there is none. */
  function StatusEntry(c: Client, status: int, g: Global): (cb: Val)
    ensures !HasOverride(c, Name(OnStatusCallbacks)) ==> cb == Undefined
    ensures cb != Undefined ==> IntToString(status) in OwnProps(Resolve(c, OnStatusCallbacks, g))
    ensures var t := OwnProps(Resolve(c, OnStatusCallbacks, g));
            IntToString(status) in t ==> cb == t[IntToString(status)]
  {
    Prop(Resolve(c, OnStatusCallbacks, g), IntToString(status))
  }
}
