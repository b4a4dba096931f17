/**
 * Key renaming over JSON trees (`src/utils/map-obj.ts`).
 *
 * In this code base `mapObject` only ever receives the mapper that
 * `transform` builds, `(key, value) => [transformFunc(key), value]`, so the
 * model takes the renaming function itself as the mapper.
 */
module MapObj {
  import opened Wrappers
  import opened JsonValues
  import opened Types

  /** What `mapObject(j, mapper, {deep})` returns. Arrays go through
      `mapArray`; an object gets its entries renamed and assigned, in order,
      to a fresh target. */
  function Mapped(j: Json, rename: string -> string, deep: bool): (r: Json)
    requires IsObject(j)
    ensures r.JArray? == j.JArray? && r.JObject? == j.JObject?
    ensures r.JArray? ==> |r.items| == |j.items|
    ensures r.JArray? ==> forall i :: 0 <= i < |j.items| && !IsObject(j.items[i]) ==> r.items[i] == j.items[i]
    decreases j, 2
  {
    match j
    case JArray(xs) => JArray(seq(|xs|, i requires 0 <= i < |xs| => MapElement(xs[i], rename, deep)))
    case JObject(es) => JObject(Assigned(Pairs(es, rename, deep)))
  }

  /** The entries `[rename(key), value]` an object contributes, with each
      value rewritten when `deep` asks for it. */
  function Pairs(es: Entries, rename: string -> string, deep: bool): (ps: Entries)
    ensures |ps| == |es|
    ensures forall i :: 0 <= i < |es| ==> ps[i].0 == rename(es[i].0)
    decreases JObject(es), 1
  {
    seq(|es|, i requires 0 <= i < |es| => (rename(es[i].0), MapValue(es[i].1, rename, deep)))
  }

  /** The callback of `mapArray`: objects and arrays are mapped, anything else
      is kept. */
  function MapElement(x: Json, rename: string -> string, deep: bool): Json
    decreases x, 3
  {
    if IsObject(x) then Mapped(x, rename, deep) else x
  }

  /** A property value after the `deep` clause of the entry loop. */
  function MapValue(v: Json, rename: string -> string, deep: bool): Json
    decreases v, 3
  {
    if deep && IsObject(v) then Mapped(v, rename, deep) else v
  }

  /** `mapObject`, as the source writes it: an array goes to `mapArray`; an
      object has its entries visited in order and written into a fresh
      target. */
  method MapObject(obj: Json, rename: string -> string, deep: bool) returns (r: Json)
    requires IsObject(obj)
    ensures r == Mapped(obj, rename, deep)
    decreases obj, 1
  {
    if obj.JArray? {
      r := MapArray(obj.items, rename, deep);
    } else {
      var target := MapEntries(obj.entries, rename, deep);
      r := JObject(target);
    }
  }

  /** The `for (const [key, value] of Object.entries(object))` loop of
      `mapObject`. */
  method MapEntries(es: Entries, rename: string -> string, deep: bool) returns (target: Entries)
    ensures target == Assigned(Pairs(es, rename, deep))
    decreases JObject(es), 0
  {
    ghost var ps := Pairs(es, rename, deep);
    target := [];
    var i := 0;
    while i < |es|
      invariant 0 <= i <= |es|
      invariant target == Assigned(ps[..i])
    {
      var key, value := es[i].0, es[i].1;
      var newKey, newValue := rename(key), value;
      if deep && IsObject(newValue) {
        if newValue.JArray? {
          newValue := MapArray(newValue.items, rename, deep);
          assert JArray(value.items) == value;
        } else {
          newValue := MapObject(newValue, rename, deep);
        }
      }
      assert newValue == MapValue(value, rename, deep);
      assert ps[i] == (newKey, newValue);
      AssignedStep(ps, i);
      target := Put(target, newKey, newValue);
      i := i + 1;
    }
    assert ps[..|es|] == ps;
  }

  lemma AssignedStep(ps: Entries, i: nat)
    requires i < |ps|
    ensures Assigned(ps[..i + 1]) == Put(Assigned(ps[..i]), ps[i].0, ps[i].1)
  {
    assert ps[..i + 1][..i] == ps[..i];
  }

  /** `mapArray`: each element is mapped on its own, in order. */
  method MapArray(items: seq<Json>, rename: string -> string, deep: bool) returns (r: Json)
    ensures r == Mapped(JArray(items), rename, deep)
    decreases JArray(items), 0
  {
    var out: seq<Json> := [];
    var k := 0;
    while k < |items|
      invariant 0 <= k <= |items|
      invariant |out| == k
      invariant forall i :: 0 <= i < k ==> out[i] == MapElement(items[i], rename, deep)
    {
      var element := items[k];
      if IsObject(element) {
        element := MapObject(element, rename, deep);
      }
      out := out + [element];
      k := k + 1;
    }
    r := JArray(out);
  }

  /** The `typeof` text of a value that is not an object. */
  function TypeOf(j: Json): string {
    match j
    case JBool(_) => "boolean"
    case JNumber(_) => "number"
    case JString(_) => "string"
    case _ => "object"
  }

  /** The template-literal text of a value that is not an object. */
  function Shown(j: Json): string {
    match j
    case JNull => "null"
    case JBool(b) => if b then "true" else "false"
    case JNumber(n) => IntToString(n)
    case JString(s) => s
    case _ => "[object Object]"
  }

  function NotAnObjectMessage(j: Json): string {
    "Expected an object, got `" + Shown(j) + "` (" + TypeOf(j) + ")"
  }

  /** `mapObj`: refuses anything but a non-null object with a `TypeError`. */
  function MapObj(obj: Json, rename: string -> string, deep: bool): (r: Result<Json, Error>)
    ensures r.Failure? <==> !IsObject(obj)
    ensures r.Failure? ==> r.error.TypeError?
  {
    if !IsObject(obj) then Failure(TypeError(NotAnObjectMessage(obj)))
    else Success(Mapped(obj, rename, deep))
  }

  /** `transform`: `mapObj` with the mapper that renames keys and keeps values. */
  function Transform(input: Json, transformFunc: string -> string, deep: bool): (r: Result<Json, Error>)
    ensures r.Failure? <==> !IsObject(input)
    ensures r.Failure? ==> r.error == TypeError(NotAnObjectMessage(input))
    ensures r.Success? ==> r.value == Mapped(input, transformFunc, deep)
  {
    MapObj(input, transformFunc, deep)
  }

  /** The index of the first element that is not an object, or `|xs|`. */
  function FirstNonObject(xs: seq<Json>): (k: nat)
    ensures k <= |xs|
    ensures forall i :: 0 <= i < k ==> IsObject(xs[i])
    ensures k < |xs| ==> !IsObject(xs[k])
  {
    if xs == [] || !IsObject(xs[0]) then 0 else 1 + FirstNonObject(xs[1..])
  }

  /** The `Object.keys(input).map(...)` branch of `transformObjKeys`: every
      element is transformed on its own, in order, and the first element that
      is not an object throws. */
  function TransformEach(xs: seq<Json>, transformFunc: string -> string, deep: bool): (r: Result<seq<Json>, Error>)
    ensures r.Success? <==> FirstNonObject(xs) == |xs|
    ensures r.Success? ==> |r.value| == |xs|
    ensures r.Success? ==> forall i :: 0 <= i < |xs| ==> IsObject(xs[i]) && r.value[i] == Mapped(xs[i], transformFunc, deep)
    ensures r.Failure? ==> r.error == TypeError(NotAnObjectMessage(xs[FirstNonObject(xs)]))
  {
    if xs == [] then Success([])
    else
      match Transform(xs[0], transformFunc, deep)
      case Failure(e) => Failure(e)
      case Success(y) =>
        match TransformEach(xs[1..], transformFunc, deep)
        case Failure(e) => Failure(e)
        case Success(ys) =>
          assert forall i :: 1 <= i < |xs| ==> xs[i] == xs[1..][i - 1];
          Success([y] + ys)
  }

  /** `transformObjKeys`: an array input is mapped element by element, any
      other input is transformed as a whole. */
  function TransformObjKeys(input: Json, transformFunc: string -> string, deep: bool): (r: Result<Json, Error>)
    ensures r.Success? ==> IsObject(input) && r.value.JArray? == input.JArray?
    ensures !IsObject(input) ==> r == Failure(TypeError(NotAnObjectMessage(input)))
    ensures IsObject(input) && !input.JArray? ==> r == Success(Mapped(input, transformFunc, deep))
    ensures input.JArray? ==> (r.Success? <==> FirstNonObject(input.items) == |input.items|)
    ensures input.JArray? && r.Success? ==>
      && |r.value.items| == |input.items|
      && forall i :: 0 <= i < |input.items| ==> r.value.items[i] == Mapped(input.items[i], transformFunc, deep)
    ensures input.JArray? && r.Failure? ==>
      r.error == TypeError(NotAnObjectMessage(input.items[FirstNonObject(input.items)]))
  {
    if input.JArray? then
      match TransformEach(input.items, transformFunc, deep)
      case Success(ys) => Success(JArray(ys))
      case Failure(e) => Failure(e)
    else Transform(input, transformFunc, deep)
  }

  /** An object or array whose objects never repeat a key, as `JSON.parse`
      builds them. */
  ghost predicate WellFormed(j: Json)
    decreases j
  {
    match j
    case JArray(xs) => forall i :: 0 <= i < |xs| ==> WellFormed(xs[i])
    case JObject(es) => DistinctKeys(es) && forall i :: 0 <= i < |es| ==> WellFormed(es[i].1)
    case _ => true
  }

  /** With `deep=false` and a renaming that merges no keys, only the keys of the
      top level change: the entries keep their order and every value, nested
      objects and arrays included, is the one the mapper received. */
  lemma ShallowRenamesKeysOnly(es: Entries, rename: string -> string)
    requires DistinctKeys(es)
    requires forall a, b :: rename(a) == rename(b) ==> a == b
    ensures Mapped(JObject(es), rename, false) == JObject(seq(|es|, i requires 0 <= i < |es| => (rename(es[i].0), es[i].1)))
  {
    var ps := Pairs(es, rename, false);
    var expected := seq(|es|, i requires 0 <= i < |es| => (rename(es[i].0), es[i].1));
    forall i | 0 <= i < |es| ensures ps[i] == expected[i] {
      assert MapValue(es[i].1, rename, false) == es[i].1;
    }
    assert ps == expected;
    InjectivePairsDistinct(es, rename, false);
    AssignedDistinct(ps);
  }

  /** A renaming that merges no keys keeps the keys distinct. */
  lemma InjectivePairsDistinct(es: Entries, rename: string -> string, deep: bool)
    requires DistinctKeys(es)
    requires forall a, b :: rename(a) == rename(b) ==> a == b
    ensures DistinctKeys(Pairs(es, rename, deep))
  {
    var ps := Pairs(es, rename, deep);
    forall a, b | 0 <= a < b < |ps| ensures ps[a].0 != ps[b].0 {
      assert es[a].0 != es[b].0;
    }
  }

  /** When two keys are renamed to the same key, the entry visited later
      decides the value. */
  lemma LaterEntryWins(es: Entries, rename: string -> string, deep: bool, j: nat)
    requires j < |es|
    requires forall i :: j < i < |es| ==> rename(es[i].0) != rename(es[j].0)
    ensures Get(Mapped(JObject(es), rename, deep).entries, rename(es[j].0)) == Some(MapValue(es[j].1, rename, deep))
  {
    var ps := Pairs(es, rename, deep);
    AssignedGet(ps, rename(es[j].0));
    LastValueAt(ps, j);
  }

  lemma {:induction false} LastValueAt(ps: Entries, j: nat)
    requires j < |ps|
    requires forall i :: j < i < |ps| ==> ps[i].0 != ps[j].0
    ensures LastValue(ps, ps[j].0) == Some(ps[j].1)
  {
    if j < |ps| - 1 {
      var pre := ps[..|ps| - 1];
      assert pre[j] == ps[j];
      LastValueAt(pre, j);
    }
  }

  /** The keys of a mapped object are exactly the renamed input keys. */
  lemma MappedKeys(es: Entries, rename: string -> string, deep: bool, x: string)
    ensures HasKey(Mapped(JObject(es), rename, deep).entries, x) <==> exists i :: 0 <= i < |es| && rename(es[i].0) == x
  {
    var ps := Pairs(es, rename, deep);
    if HasKey(ps, x) {
      var i :| 0 <= i < |ps| && ps[i].0 == x;
      assert rename(es[i].0) == x;
    }
    if exists i :: 0 <= i < |es| && rename(es[i].0) == x {
      var i :| 0 <= i < |es| && rename(es[i].0) == x;
      assert ps[i].0 == x;
    }
  }

  /** The keys of a mapped object come out in the order in which the renamed
      keys first appear among the entries visited. */
  lemma MappedKeyOrder(es: Entries, rename: string -> string, deep: bool, a: nat, b: nat)
    requires a < b < |Mapped(JObject(es), rename, deep).entries|
    ensures var out, ps := Mapped(JObject(es), rename, deep).entries, Pairs(es, rename, deep);
      && HasKey(ps, out[a].0) && HasKey(ps, out[b].0)
      && FirstIndex(ps, out[a].0) < FirstIndex(ps, out[b].0)
  {
    AssignedOrder(Pairs(es, rename, deep), a, b);
  }

  /** Mapping with `rename` and then with an inverse of it gives back the
      original tree: the rewrite changes keys only, at every depth `deep`
      reaches, and keeps every array's length and order. */
  lemma {:induction false} MappedRoundTrip(j: Json, rename: string -> string, restore: string -> string, deep: bool)
    requires IsObject(j) && WellFormed(j)
    requires forall k :: restore(rename(k)) == k
    ensures Mapped(Mapped(j, rename, deep), restore, deep) == j
    decreases j, 2
  {
    match j
    case JArray(xs) =>
      var twice := Mapped(Mapped(j, rename, deep), restore, deep);
      forall i | 0 <= i < |xs|
        ensures twice.items[i] == xs[i]
      {
        ValueRoundTrip(xs[i], rename, restore, deep);
      }
    case JObject(es) =>
      ObjectRoundTrip(es, rename, restore, deep);
  }

  lemma {:induction false} ValueRoundTrip(v: Json, rename: string -> string, restore: string -> string, deep: bool)
    requires WellFormed(v)
    requires forall k :: restore(rename(k)) == k
    ensures MapElement(MapElement(v, rename, deep), restore, deep) == v
    ensures MapValue(MapValue(v, rename, deep), restore, deep) == v
    decreases v, 3
  {
    if IsObject(v) {
      MappedRoundTrip(v, rename, restore, deep);
    }
  }

  lemma {:induction false} ObjectRoundTrip(es: Entries, rename: string -> string, restore: string -> string, deep: bool)
    requires WellFormed(JObject(es))
    requires forall k :: restore(rename(k)) == k
    ensures Mapped(Mapped(JObject(es), rename, deep), restore, deep) == JObject(es)
    decreases JObject(es), 1
  {
    var ps := Pairs(es, rename, deep);
    PairsDistinct(es, rename, restore, deep);
    AssignedDistinct(ps);
    var m := Mapped(JObject(es), rename, deep);
    assert m == JObject(ps);
    assert Mapped(m, restore, deep) == JObject(Assigned(Pairs(ps, restore, deep)));
    PairsInverse(es, rename, restore, deep);
    AssignedDistinct(es);
  }

  /** A renaming with a left inverse merges no keys. */
  lemma PairsDistinct(es: Entries, rename: string -> string, restore: string -> string, deep: bool)
    requires DistinctKeys(es)
    requires forall k :: restore(rename(k)) == k
    ensures DistinctKeys(Pairs(es, rename, deep))
  {
    var ps := Pairs(es, rename, deep);
    forall a, b | 0 <= a < b < |ps| ensures ps[a].0 != ps[b].0 {
      assert restore(ps[a].0) == es[a].0 && restore(ps[b].0) == es[b].0;
    }
  }

  /** Renaming the pairs back undoes the renaming, entry by entry. */
  lemma {:induction false} PairsInverse(es: Entries, rename: string -> string, restore: string -> string, deep: bool)
    requires WellFormed(JObject(es))
    requires forall k :: restore(rename(k)) == k
    ensures Pairs(Pairs(es, rename, deep), restore, deep) == es
    decreases JObject(es), 0
  {
    var qs := Pairs(Pairs(es, rename, deep), restore, deep);
    forall i | 0 <= i < |es| ensures qs[i] == es[i] {
      ValueRoundTrip(es[i].1, rename, restore, deep);
    }
  }
}
