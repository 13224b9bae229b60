/** Properties of the configuration store: resolution, framing of the
    setters, merge semantics and the algebra of chained builder calls. */
module ClientConfigLaws {
  import opened Wrappers
  import opened JsValues
  import opened PropertyKeys
  import opened ClientConfig

  /** Distinct keys are stored under distinct names. */
  lemma NamesDistinct(k1: Key, k2: Key)
    requires k1 != k2
    ensures Name(k1) != Name(k2)
  {
    assert KeyOf(Name(k1)) == Some(k1);
    assert KeyOf(Name(k2)) == Some(k2);
  }

  /** On a client with no overrides every key reads as its registered default:
      `global.fetch`, identity handlers, `null` slots and url, empty tables. */
  lemma UnconfiguredDefaults(g: Global)
    ensures Resolve(Base, Fetch, g) == g.fetch
    ensures Resolve(Base, OnResponse, g) == Fn(Identity)
    ensures Resolve(Base, OnConnectionError, g) == Fn(Identity)
    ensures Resolve(Base, OnSuccess, g) == Null && Resolve(Base, OnErrorResponse, g) == Null
    ensures Resolve(Base, Url, g) == Null
    ensures Resolve(Base, OnStatusCallbacks, g) == Obj(map[]) && Resolve(Base, RequestOptions, g) == Obj(map[])
  {
  }

  /** Only a truthy override counts: storing a falsy value makes the key read
      as its default, storing a truthy one makes it read as that value. */
  lemma FalsyOverrideIsIgnored(c: Client, k: Key, v: Val, g: Global)
    ensures HasOverride(NewWithValue(c, Name(k), v), Name(k)) <==> Truthy(v)
    ensures !Truthy(v) ==> Resolve(NewWithValue(c, Name(k), v), k, g) == Default(k, g)
    ensures Truthy(v) ==> Resolve(NewWithValue(c, Name(k), v), k, g) == v
  {
  }

  /** Every key registered at load time resolves; an unset url is `null`. */
  lemma RegisteredKeysResolve(c: Client, g: Global)
    ensures forall k: Key :: Value(c, Name(k), g).Success?
    ensures !HasOverride(c, "url") ==> Value(c, "url", g) == Success(Null)
    ensures forall name :: Value(c, name, g).Failure? ==> KeyOf(name).None?
  {
    forall k: Key
      ensures Value(c, Name(k), g).Success?
    {
      var _ := Resolve(c, k, g);
    }
    assert Name(Url) == "url";
  }

  /** After a set, the key reads back as the value set (a falsy scalar reads
      as the default) or as the merge of the previous value with the partial. */
  lemma SetReadBack(c: Client, k: Key, v: Val, g: Global)
    ensures !IsMerge(k) ==> Resolve(Set(c, k, v, g), k, g) == (if Truthy(v) then v else Default(k, g))
    ensures IsMerge(k) ==> Resolve(Set(c, k, v, g), k, g) == Obj(Assign(Resolve(c, k, g), v))
  {
  }

  /** A setter changes no other key's resolved value. */
  lemma SetFrame(c: Client, k: Key, other: Key, v: Val, g: Global)
    requires other != k
    ensures Resolve(Set(c, k, v, g), other, g) == Resolve(c, other, g)
    ensures Name(other) in Set(c, k, v, g).values <==> Name(other) in c.values
  {
    NamesDistinct(k, other);
    var c' := Set(c, k, v, g);
    assert Name(other) in c'.values - {Name(k)} <==> Name(other) in c.values - {Name(k)};
    if Name(other) in c.values {
      assert c'.values[Name(other)] == (c'.values - {Name(k)})[Name(other)];
    }
  }

  /** A merge set: sub-entries named by the partial take its value, even
      `null`, and are present afterwards; the others keep their value. */
  lemma MergeSubEntries(c: Client, k: Key, partial: Val, g: Global, p: string)
    requires IsMerge(k)
    ensures var before := Resolve(c, k, g);
            var after := Resolve(Set(c, k, partial, g), k, g);
            && (p in OwnProps(partial) ==> p in OwnProps(after) && Prop(after, p) == OwnProps(partial)[p])
            && (p !in OwnProps(partial) ==> (p in OwnProps(after) <==> p in OwnProps(before)))
            && (p !in OwnProps(partial) ==> Prop(after, p) == Prop(before, p))
  {
    SetReadBack(c, k, partial, g);
  }

  /** Merging into a key that was never set starts from the default `{}`. */
  lemma MergeIntoUnset(c: Client, k: Key, partial: Val, g: Global)
    requires IsMerge(k) && !HasOverride(c, Name(k))
    ensures Resolve(Set(c, k, partial, g), k, g) == Obj(OwnProps(partial))
  {
    SetReadBack(c, k, partial, g);
    assert OwnProps(Obj(map[])) == map[];
  }

  /** `onStatus(s, cb)` registers `cb` for `s` and touches no other status
      and no other key. */
  lemma OnStatusTouchesOneStatus(c: Client, s: int, cb: Val, g: Global)
    ensures StatusEntry(OnStatus(c, s, cb, g), s, g) == cb
    ensures IntToString(s) in OwnProps(Resolve(OnStatus(c, s, cb, g), OnStatusCallbacks, g))
    ensures forall t :: t != s ==> StatusEntry(OnStatus(c, s, cb, g), t, g) == StatusEntry(c, t, g)
    ensures forall k :: k != OnStatusCallbacks ==> Resolve(OnStatus(c, s, cb, g), k, g) == Resolve(c, k, g)
  {
    var c' := OnStatus(c, s, cb, g);
    var partial := Obj(map[IntToString(s) := cb]);
    MergeSubEntries(c, OnStatusCallbacks, partial, g, IntToString(s));
    forall t | t != s
      ensures StatusEntry(c', t, g) == StatusEntry(c, t, g)
    {
      if IntToString(t) == IntToString(s) {
        IntToStringInjective(t, s);
      }
      MergeSubEntries(c, OnStatusCallbacks, partial, g, IntToString(t));
    }
    forall k | k != OnStatusCallbacks
      ensures Resolve(c', k, g) == Resolve(c, k, g)
    {
      SetFrame(c, OnStatusCallbacks, k, partial, g);
    }
  }

  /** The override a setter stores for its key. */
  function Stored(c: Client, k: Key, v: Val, g: Global): Val {
    if IsMerge(k) then Obj(Assign(Resolve(c, k, g), v)) else v
  }

  lemma SetIsUpdate(c: Client, k: Key, v: Val, g: Global)
    ensures Set(c, k, v, g).values == c.values[Name(k) := Stored(c, k, v, g)]
  {
  }

  lemma UpdatesCommute(m: map<string, Val>, a: string, x: Val, b: string, y: Val)
    requires a != b
    ensures m[a := x][b := y] == m[b := y][a := x]
  {
  }

  /** Setters for different keys commute: registration order does not matter. */
  lemma SettersCommute(c: Client, k1: Key, v1: Val, k2: Key, v2: Val, g: Global)
    requires k1 != k2
    ensures Set(Set(c, k1, v1, g), k2, v2, g) == Set(Set(c, k2, v2, g), k1, v1, g)
  {
    NamesDistinct(k1, k2);
    var c1 := Set(c, k1, v1, g);
    var c2 := Set(c, k2, v2, g);
    var x1, x2 := Stored(c, k1, v1, g), Stored(c, k2, v2, g);
    assert Stored(c1, k2, v2, g) == x2 by {
      SetFrame(c, k1, k2, v1, g);
    }
    assert Stored(c2, k1, v1, g) == x1 by {
      SetFrame(c, k2, k1, v2, g);
    }
    SetIsUpdate(c, k1, v1, g);
    SetIsUpdate(c, k2, v2, g);
    SetIsUpdate(c1, k2, v2, g);
    SetIsUpdate(c2, k1, v1, g);
    UpdatesCommute(c.values, Name(k1), x1, Name(k2), x2);
  }

  /** Repeating a builder call with the same argument changes nothing. */
  lemma SetIdempotent(c: Client, k: Key, v: Val, g: Global)
    ensures Set(Set(c, k, v, g), k, v, g) == Set(c, k, v, g)
  {
    var c1 := Set(c, k, v, g);
    var c2 := Set(c1, k, v, g);
    if IsMerge(k) {
      SetReadBack(c, k, v, g);
      var m := OwnProps(Resolve(c, k, g)) + OwnProps(v);
      assert OwnProps(Resolve(c1, k, g)) == m;
      assert m + OwnProps(v) == m;
    }
    assert c2.values == c1.values by {
      assert c2.values.Keys == c1.values.Keys;
      forall n | n in c2.values
        ensures c2.values[n] == c1.values[n]
      {
        if n != Name(k) {
          assert c2.values[n] == (c2.values - {Name(k)})[n];
        }
      }
    }
  }

  /** For a scalar key the last write wins. */
  lemma ScalarLastWriteWins(c: Client, k: Key, v1: Val, v2: Val, g: Global)
    requires !IsMerge(k)
    ensures Set(Set(c, k, v1, g), k, v2, g) == Set(c, k, v2, g)
  {
    var a := Set(Set(c, k, v1, g), k, v2, g);
    var b := Set(c, k, v2, g);
    assert a.values == b.values by {
      assert a.values.Keys == b.values.Keys;
      forall n | n in a.values
        ensures a.values[n] == b.values[n]
      {
        if n != Name(k) {
          assert a.values[n] == (a.values - {Name(k)})[n];
          assert b.values[n] == (b.values - {Name(k)})[n];
        }
      }
    }
  }

  /** For a merge key two merges equal one merge of the combined partials. */
  lemma MergesCompose(c: Client, k: Key, p1: Val, p2: Val, g: Global)
    requires IsMerge(k)
    ensures Set(Set(c, k, p1, g), k, p2, g) == Set(c, k, Obj(Assign(p1, p2)), g)
  {
    var c1 := Set(c, k, p1, g);
    var base := OwnProps(Resolve(c, k, g));
    SetIsUpdate(c, k, p1, g);
    SetIsUpdate(c1, k, p2, g);
    SetIsUpdate(c, k, Obj(Assign(p1, p2)), g);
    assert Stored(c1, k, p2, g) == Stored(c, k, Obj(Assign(p1, p2)), g) by {
      SetReadBack(c, k, p1, g);
      assert OwnProps(Resolve(c1, k, g)) == base + OwnProps(p1);
      UnionAssociates(base, OwnProps(p1), OwnProps(p2));
    }
    UpdateOverwrites(c.values, Name(k), Stored(c, k, p1, g), Stored(c1, k, p2, g));
  }

  lemma UnionAssociates(a: map<string, Val>, b: map<string, Val>, c: map<string, Val>)
    ensures (a + b) + c == a + (b + c)
  {
  }

  lemma UpdateOverwrites(m: map<string, Val>, a: string, x: Val, y: Val)
    ensures m[a := x][a := y] == m[a := y]
  {
  }

  /** `request(u, o)` sets the url (a falsy url reads as the default `null`),
      merges `o` into the options, and leaves every other key alone; without
      options the sub-entries are unchanged. */
  lemma RequestSetsUrlAndMergesOptions(c: Client, u: Val, o: Val, g: Global)
    ensures Resolve(Request(c, u, o, g), Url, g) == (if Truthy(u) then u else Null)
    ensures OwnProps(Resolve(Request(c, u, o, g), RequestOptions, g))
         == OwnProps(Resolve(c, RequestOptions, g)) + OwnProps(o)
    ensures forall k :: k != Url && k != RequestOptions ==> Resolve(Request(c, u, o, g), k, g) == Resolve(c, k, g)
    ensures Nullish(o) ==> OwnProps(Resolve(Request(c, u, o, g), RequestOptions, g)) == OwnProps(Resolve(c, RequestOptions, g))
  {
    var c1 := Set(c, Url, u, g);
    assert Resolve(Request(c, u, o, g), Url, g) == (if Truthy(u) then u else Null) by {
      SetReadBack(c, Url, u, g);
      SetFrame(c1, RequestOptions, Url, o, g);
    }
    assert OwnProps(Resolve(Request(c, u, o, g), RequestOptions, g))
        == OwnProps(Resolve(c, RequestOptions, g)) + OwnProps(o) by {
      SetFrame(c, Url, RequestOptions, u, g);
      SetReadBack(c1, RequestOptions, o, g);
    }
    forall k | k != Url && k != RequestOptions
      ensures Resolve(Request(c, u, o, g), k, g) == Resolve(c, k, g)
    {
      SetFrame(c, Url, k, u, g);
      SetFrame(c1, RequestOptions, k, o, g);
    }
    assert Nullish(o) ==> OwnProps(Resolve(Request(c, u, o, g), RequestOptions, g)) == OwnProps(Resolve(c, RequestOptions, g)) by {
      assert OwnProps(o) == map[] ==> OwnProps(Resolve(c, RequestOptions, g)) + OwnProps(o) == OwnProps(Resolve(c, RequestOptions, g));
    }
  }
}
