/**
 * JavaScript values as `JSON.parse` produces them: acyclic trees of plain
 * values. An object is the list of its own properties in insertion order,
 * which is the order `Object.entries` and object spread visit them in.
 */
module JsonValues {
  import opened Wrappers

  datatype Json =
    | JNull
    | JBool(b: bool)
    | JNumber(n: int)
    | JString(s: string)
    | JArray(items: seq<Json>)
    | JObject(entries: seq<(string, Json)>)

  /** The own properties of an object, in insertion order. */
  type Entries = seq<(string, Json)>

  /** `typeof v === 'object' && v !== null`: arrays and objects. */
  predicate IsObject(j: Json) {
    j.JArray? || j.JObject?
  }

  predicate HasKey(es: Entries, k: string) {
    exists i :: 0 <= i < |es| && es[i].0 == k
  }

  ghost predicate DistinctKeys(es: Entries) {
    forall i, j :: 0 <= i < j < |es| ==> es[i].0 != es[j].0
  }

  /** What `target[k]` reads. */
  function Get(es: Entries, k: string): Option<Json> {
    if es == [] then None
    else if es[0].0 == k then Some(es[0].1)
    else Get(es[1..], k)
  }

  /** `target[k] = v`: an existing property keeps its place and takes the new
      value; a new property goes last. */
  function Put(es: Entries, k: string, v: Json): (r: Entries)
    ensures forall x :: HasKey(r, x) <==> x == k || HasKey(es, x)
    ensures HasKey(es, k) ==> |r| == |es| && forall i :: 0 <= i < |es| ==> r[i].0 == es[i].0
    ensures !HasKey(es, k) ==> r == es + [(k, v)]
    ensures forall x :: Get(r, x) == if x == k then Some(v) else Get(es, x)
  {
    if es == [] then
      HasKeyCons((k, v), []);
      assert [(k, v)] + [] == [(k, v)];
      [(k, v)]
    else
      HasKeyCons(es[0], es[1..]);
      assert es == [es[0]] + es[1..];
      if es[0].0 == k then
        HasKeyCons((k, v), es[1..]);
        [(k, v)] + es[1..]
      else
        var rest := Put(es[1..], k, v);
        HasKeyCons(es[0], rest);
        [es[0]] + rest
  }

  lemma HasKeyCons(p: (string, Json), es: Entries)
    ensures forall x :: HasKey([p] + es, x) <==> x == p.0 || HasKey(es, x)
  {
    forall x | HasKey([p] + es, x) && x != p.0 ensures HasKey(es, x) {
      var i :| 0 <= i < |[p] + es| && ([p] + es)[i].0 == x;
      assert es[i - 1].0 == x;
    }
    forall x | HasKey(es, x) ensures HasKey([p] + es, x) {
      var i :| 0 <= i < |es| && es[i].0 == x;
      assert ([p] + es)[i + 1].0 == x;
    }
    assert ([p] + es)[0].0 == p.0;
  }

  lemma HasKeySnoc(es: Entries, p: (string, Json))
    ensures forall x :: HasKey(es + [p], x) <==> x == p.0 || HasKey(es, x)
  {
    forall x | HasKey(es + [p], x) && x != p.0 ensures HasKey(es, x) {
      var i :| 0 <= i < |es + [p]| && (es + [p])[i].0 == x;
      assert es[i].0 == x;
    }
    forall x | HasKey(es, x) ensures HasKey(es + [p], x) {
      var i :| 0 <= i < |es| && es[i].0 == x;
      assert (es + [p])[i].0 == x;
    }
    assert (es + [p])[|es|].0 == p.0;
  }

  /** The object obtained by assigning the pairs `ps`, in order, to a fresh `{}`. */
  function Assigned(ps: Entries): (r: Entries)
    ensures DistinctKeys(r)
    ensures forall x :: HasKey(r, x) <==> HasKey(ps, x)
  {
    if ps == [] then []
    else
      var pre := ps[..|ps| - 1];
      var last := ps[|ps| - 1];
      assert ps == pre + [last];
      HasKeySnoc(pre, last);
      Put(Assigned(pre), last.0, last.1)
  }

  /** The value of the last pair of `ps` whose key is `k`. */
  function LastValue(ps: Entries, k: string): Option<Json> {
    if ps == [] then None
    else if ps[|ps| - 1].0 == k then Some(ps[|ps| - 1].1)
    else LastValue(ps[..|ps| - 1], k)
  }

  /** The position at which key `k` first appears in `ps`. */
  function FirstIndex(ps: Entries, k: string): (i: nat)
    requires HasKey(ps, k)
    ensures i < |ps| && ps[i].0 == k
    ensures forall j :: 0 <= j < i ==> ps[j].0 != k
  {
    if ps[0].0 == k then 0
    else
      assert HasKey(ps[1..], k) by {
        var i :| 0 <= i < |ps| && ps[i].0 == k;
        assert ps[1..][i - 1].0 == k;
      }
      1 + FirstIndex(ps[1..], k)
  }

  /** When two assigned pairs share a key, the later value wins. */
  lemma {:induction false} AssignedGet(ps: Entries, k: string)
    ensures Get(Assigned(ps), k) == LastValue(ps, k)
  {
    if ps != [] {
      AssignedGet(ps[..|ps| - 1], k);
    }
  }

  /** With no repeated key, assignment rebuilds the pairs exactly, in order. */
  lemma {:induction false} AssignedDistinct(ps: Entries)
    requires DistinctKeys(ps)
    ensures Assigned(ps) == ps
  {
    if ps != [] {
      var pre := ps[..|ps| - 1];
      AssignedDistinct(pre);
      assert !HasKey(pre, ps[|ps| - 1].0);
      assert pre + [ps[|ps| - 1]] == ps;
    }
  }

  lemma FirstIndexExtend(pre: Entries, p: (string, Json), k: string)
    requires HasKey(pre, k)
    ensures HasKey(pre + [p], k)
    ensures FirstIndex(pre + [p], k) == FirstIndex(pre, k)
  {
    var i := FirstIndex(pre, k);
    assert (pre + [p])[i].0 == k;
    var j := FirstIndex(pre + [p], k);
    assert !(j < i) && !(i < j);
  }

  /** Keys leave the assignment in the order of their first appearance. */
  lemma {:induction false} AssignedOrder(ps: Entries, a: nat, b: nat)
    requires a < b < |Assigned(ps)|
    ensures HasKey(ps, Assigned(ps)[a].0) && HasKey(ps, Assigned(ps)[b].0)
    ensures FirstIndex(ps, Assigned(ps)[a].0) < FirstIndex(ps, Assigned(ps)[b].0)
  {
    var r := Assigned(ps);
    assert HasKey(r, r[a].0) && HasKey(r, r[b].0);
    var pre := ps[..|ps| - 1];
    var last := ps[|ps| - 1];
    var A := Assigned(pre);
    assert ps == pre + [last];
    if HasKey(pre, last.0) {
      assert HasKey(A, last.0);
      assert r[a].0 == A[a].0 && r[b].0 == A[b].0;
      AssignedOrder(pre, a, b);
      FirstIndexExtend(pre, last, A[a].0);
      FirstIndexExtend(pre, last, A[b].0);
    } else {
      assert !HasKey(A, last.0);
      assert r == A + [last];
      if b < |A| {
        AssignedOrder(pre, a, b);
        FirstIndexExtend(pre, last, A[a].0);
        FirstIndexExtend(pre, last, A[b].0);
      } else {
        assert r[b].0 == last.0;
        assert HasKey(A, r[a].0);
        FirstIndexExtend(pre, last, r[a].0);
        var j := FirstIndex(ps, last.0);
        assert j == |pre|;
      }
    }
  }

  /** A property assigned first, whose key no later pair repeats, stays first
      with its value. */
  lemma AssignedKeepsFirst(k: string, v: Json, rest: Entries)
    requires !HasKey(rest, k)
    ensures |Assigned([(k, v)] + rest)| > 0
    ensures Assigned([(k, v)] + rest)[0] == (k, v)
  {
    var ps := [(k, v)] + rest;
    var r := Assigned(ps);
    assert ps[0].0 == k;
    assert HasKey(r, k);
    var i :| 0 <= i < |r| && r[i].0 == k;
    if i > 0 {
      AssignedOrder(ps, 0, i);
    }
    AssignedGet(ps, k);
    assert LastValue(ps, k) == Some(v) by {
      LastValueOnlyFirst(k, v, rest);
    }
    GetAt(r, 0);
  }

  lemma {:induction false} LastValueOnlyFirst(k: string, v: Json, rest: Entries)
    requires !HasKey(rest, k)
    ensures LastValue([(k, v)] + rest, k) == Some(v)
  {
    if rest != [] {
      var ps := [(k, v)] + rest;
      assert ps[..|ps| - 1] == [(k, v)] + rest[..|rest| - 1];
      assert rest[|rest| - 1].0 != k;
      assert rest == rest[..|rest| - 1] + [rest[|rest| - 1]];
      HasKeySnoc(rest[..|rest| - 1], rest[|rest| - 1]);
      LastValueOnlyFirst(k, v, rest[..|rest| - 1]);
    }
  }

  lemma {:induction false} GetAt(es: Entries, i: nat)
    requires DistinctKeys(es) && i < |es|
    ensures Get(es, es[i].0) == Some(es[i].1)
  {
    if i > 0 {
      GetAt(es[1..], i - 1);
    }
  }

  function Digit(d: nat): char
    requires d < 10
  {
    "0123456789"[d]
  }

  /** The decimal text of a natural number, as `String(n)` writes it. */
  function NatToString(n: nat): (s: string)
    ensures |s| > 0
    ensures forall i :: 0 <= i < |s| ==> '0' <= s[i] <= '9'
  {
    if n < 10 then [Digit(n)] else NatToString(n / 10) + [Digit(n % 10)]
  }

  /** The decimal text of an integer, as `String(n)` writes it. */
  function IntToString(n: int): string {
    if n < 0 then "-" + NatToString(-n) else NatToString(n)
  }
}
