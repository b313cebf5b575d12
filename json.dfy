/** JSON documents as Python's `json` module hands them over: objects keep
    their members in insertion order (Python dicts are ordered), numbers are
    either `int` or `float`, and Python's `None` is `JNull`. */
module Json {
  import opened Wrappers

  datatype Json =
    | JNull
    | JBool(b: bool)
    | JInt(i: int)
    | JFloat(r: real)
    | JString(s: string)
    | JArray(items: seq<Json>)
    | JObject(members: Object)

  /** An object's members in insertion order. A parsed document never holds
      a key twice; lookups take the first member with the key. */
  type Object = seq<(string, Json)>

  const EmptyObject := JObject([])

  /** The exceptions Python raises while navigating a document. */
  datatype Fault =
    | AttributeError   // `.get` on something that is not a dict
    | IndexError       // `[0]` on an empty list or string
    | KeyError(key: string)
    | TypeError        // `[0]` on a number, a bool or None

  /** Python truthiness of a JSON value: `bool(x)`. */
  predicate Truthy(j: Json) {
    match j
    case JNull => false
    case JBool(b) => b
    case JInt(i) => i != 0
    case JFloat(r) => r != 0.0
    case JString(s) => s != []
    case JArray(items) => items != []
    case JObject(members) => members != []
  }

  /** Python truthiness of a value that may be `None`. */
  predicate PyTruthy(o: Option<Json>) {
    o.Some? && Truthy(o.value)
  }

  /** `list(d.keys())`. */
  function Keys<V>(o: seq<(string, V)>): (ks: seq<string>)
    ensures |ks| == |o|
    ensures forall i :: 0 <= i < |o| ==> ks[i] == o[i].0
  {
    seq(|o|, i requires 0 <= i < |o| => o[i].0)
  }

  /** The object with keys `ks` and values `vs`, pairwise, as a dict
      literal builds it. */
  function Zip(ks: seq<string>, vs: seq<Json>): (o: Object)
    requires |ks| == |vs|
    ensures |o| == |ks| && Keys(o) == ks
    ensures forall i :: 0 <= i < |o| ==> o[i].1 == vs[i]
  {
    seq(|ks|, i requires 0 <= i < |ks| => (ks[i], vs[i]))
  }

  /** `k in d`. */
  predicate HasKey(o: Object, k: string) {
    k in Keys(o)
  }

  /** `d[k]` if `k in d`, else nothing. */
  function Lookup(o: Object, k: string): (r: Option<Json>)
    ensures r.Some? <==> HasKey(o, k)
    decreases |o|
  {
    if o == [] then None
    else
      assert Keys(o) == [o[0].0] + Keys(o[1..]);
      if o[0].0 == k then Some(o[0].1) else Lookup(o[1..], k)
  }

  /** `d.get(k, default)` on a dict. */
  function GetOr(o: Object, k: string, default: Json): (r: Json)
    ensures HasKey(o, k) ==> Lookup(o, k) == Some(r)
    ensures !HasKey(o, k) ==> r == default
  {
    match Lookup(o, k)
    case Some(v) => v
    case None => default
  }

  /** `x.get(k, default)` on any value: only a dict has `.get`. */
  function AttrGet(x: Json, k: string, default: Json): (r: Result<Json, Fault>)
    ensures r.Success? <==> x.JObject?
    ensures r.Failure? ==> r.error == AttributeError
    ensures x.JObject? ==> r.value == GetOr(x.members, k, default)
  {
    match x
    case JObject(members) => Success(GetOr(members, k, default))
    case _ => Failure(AttributeError)
  }

  /** `x[0]`: the first item of a list, the first character of a string;
      a dict has no key `0` (JSON keys are strings). */
  function Index0(x: Json): (r: Result<Json, Fault>)
    ensures x.JArray? && x.items != [] ==> r == Success(x.items[0])
  {
    match x
    case JArray(items) => if items == [] then Failure(IndexError) else Success(items[0])
    case JString(s) => if s == [] then Failure(IndexError) else Success(JString([s[0]]))
    case JObject(_) => Failure(KeyError("0"))
    case _ => Failure(TypeError)
  }

  lemma KeysAppend(a: Object, b: Object)
    ensures Keys(a + b) == Keys(a) + Keys(b)
  {
    assert Keys(a + b) == Keys(a) + Keys(b);
  }

  /** A key that occurs once, at the end, is found there. */
  lemma {:induction false} LookupLast(o: Object, k: string, v: Json)
    requires !HasKey(o, k)
    ensures Lookup(o + [(k, v)], k) == Some(v)
    decreases |o|
  {
    if o == [] {
    } else {
      assert Keys(o) == [o[0].0] + Keys(o[1..]);
      assert (o + [(k, v)])[1..] == o[1..] + [(k, v)];
      LookupLast(o[1..], k, v);
    }
  }

  /** Appending members does not change what an earlier key maps to. */
  lemma {:induction false} LookupPrefix(o: Object, tail: Object, k: string)
    requires HasKey(o, k)
    ensures Lookup(o + tail, k) == Lookup(o, k)
    decreases |o|
  {
    assert Keys(o) == [o[0].0] + Keys(o[1..]);
    if o[0].0 != k {
      assert (o + tail)[1..] == o[1..] + tail;
      LookupPrefix(o[1..], tail, k);
    }
  }

  /** The member at index `i` is found when no earlier member has its key. */
  lemma {:induction false} LookupAt(o: Object, i: nat)
    requires i < |o|
    requires forall j :: 0 <= j < i ==> o[j].0 != o[i].0
    ensures Lookup(o, o[i].0) == Some(o[i].1)
    decreases i
  {
    assert Keys(o) == [o[0].0] + Keys(o[1..]);
    if i > 0 {
      LookupAt(o[1..], i - 1);
    }
  }

  /** No key (or column label) occurs twice. */
  predicate UniqueKeys(ks: seq<string>) {
    forall a, b :: 0 <= a < b < |ks| ==> ks[a] != ks[b]
  }

  /** In an object without repeated keys, every member is found. */
  lemma LookupKeyAt(o: Object, i: nat)
    requires i < |o| && UniqueKeys(Keys(o))
    ensures Lookup(o, Keys(o)[i]) == Some(o[i].1)
  {
    LookupAt(o, i);
  }
}
