/** Environment variables as a map and as "KEY=VALUE" strings. */
module Env {
  /** Everything before the first '='; the whole string when there is none. */
  function Key(e: string): (k: string)
    ensures '=' !in k && |k| <= |e| && k == e[..|k|] && (|k| < |e| ==> e[|k|] == '=')
  {
    if e == "" || e[0] == '=' then "" else [e[0]] + Key(e[1..])
  }

  /** Everything after the first '='; nothing when there is none. */
  function Value(e: string): (v: string)
    ensures '=' in e ==> e == Key(e) + "=" + v
    ensures '=' !in e ==> v == "" && Key(e) == e
  {
    var n := |Key(e)|;
    if n < |e| then e[n + 1..] else ""
  }

  function Entry(k: string, v: string): string {
    k + ("=" + v)
  }

  /** The slice as a map: later entries win. */
  function MapOf(es: seq<string>): map<string, string> {
    if es == [] then map[]
    else
      var n := |es| - 1;
      MapOf(es[..n])[Key(es[n]) := Value(es[n])]
  }

  /** es lists m's entries, one per key, in the order of keys. */
  ghost predicate Lists(es: seq<string>, m: map<string, string>, keys: seq<string>) {
    && |es| == |keys|
    && (forall i, j :: 0 <= i < j < |keys| ==> keys[i] != keys[j])
    && (forall k :: k in keys <==> k in m)
    && (forall i :: 0 <= i < |keys| ==> keys[i] in m && es[i] == Entry(keys[i], m[keys[i]]))
  }

  /** es lists m, in some order. */
  ghost predicate Listing(es: seq<string>, m: map<string, string>) {
    exists keys :: Lists(es, m, keys)
  }

  /** The map as a slice, in whatever order the map is traversed. */
  method EnvSlice(env: map<string, string>) returns (es: seq<string>)
    ensures Listing(es, env)
  {
    es := [];
    ghost var keys: seq<string> := [];
    var left := env.Keys;
    while left != {}
      invariant left <= env.Keys && |es| == |keys|
      invariant forall k :: k in keys <==> k in env && k !in left
      invariant forall i, j :: 0 <= i < j < |keys| ==> keys[i] != keys[j]
      invariant forall i :: 0 <= i < |keys| ==> keys[i] in env && es[i] == Entry(keys[i], env[keys[i]])
      decreases left
    {
      var k :| k in left;
      es, keys := es + [Entry(k, env[k])], keys + [k];
      left := left - {k};
    }
    assert Lists(es, env, keys);
  }

  method EnvMap(es: seq<string>) returns (m: map<string, string>)
    ensures m == MapOf(es)
  {
    m := map[];
    for i := 0 to |es|
      invariant m == MapOf(es[..i])
    {
      assert es[..i + 1][..i] == es[..i];
      m := m[Key(es[i]) := Value(es[i])];
    }
    assert es[..|es|] == es;
  }

  lemma EntryParts(k: string, v: string)
    ensures '=' !in k ==> Key(Entry(k, v)) == k && Value(Entry(k, v)) == v
  {
    var e, r := Entry(k, v), Key(Entry(k, v));
    assert forall i :: 0 <= i < |k| ==> e[i] == k[i];
    assert e[|k|] == '=' && forall i :: 0 <= i < |r| ==> e[i] == r[i] && e[i] != '=';
    if '=' !in k {
      assert forall i :: 0 <= i < |k| ==> e[i] != '=';
      assert |r| == |k|;
      assert e[|k| + 1..] == v;
    }
  }

  /** The position of k's last entry, or -1 when k has none. */
  function Last(es: seq<string>, k: string): (i: int)
    ensures -1 <= i < |es|
    ensures i >= 0 ==> Key(es[i]) == k
    ensures forall j :: i < j < |es| ==> Key(es[j]) != k
  {
    if es == [] then -1
    else
      var n := |es| - 1;
      if Key(es[n]) == k then n else
      var i := Last(es[..n], k);
      assert forall j :: 0 <= j < n ==> es[..n][j] == es[j];
      i
  }

  /** The map holds exactly the entries' keys, each with the value of its last entry. */
  lemma {:induction false} MapOfLast(es: seq<string>, k: string)
    ensures k in MapOf(es) <==> Last(es, k) >= 0
    ensures Last(es, k) >= 0 ==> MapOf(es)[k] == Value(es[Last(es, k)])
  {
    if es != [] {
      var n := |es| - 1;
      MapOfLast(es[..n], k);
    }
  }

  ghost predicate NoEquals(m: map<string, string>) {
    forall k :: k in m ==> '=' !in k
  }

  /** In a listing of a map whose keys have no '=', each key's last entry is its only one. */
  lemma ListedOnce(es: seq<string>, m: map<string, string>, keys: seq<string>, i: nat)
    requires Lists(es, m, keys) && NoEquals(m) && i < |keys|
    ensures Key(es[i]) == keys[i] && Value(es[i]) == m[keys[i]]
    ensures Last(es, keys[i]) == i
  {
    EntryParts(keys[i], m[keys[i]]);
    var j := Last(es, keys[i]);
    assert j >= i;
    EntryParts(keys[j], m[keys[j]]);
  }

  lemma KeyInMap(es: seq<string>, k: string)
    requires k in MapOf(es)
    ensures '=' !in k
  {
    MapOfLast(es, k);
  }

  lemma KeyBack(es: seq<string>, m: map<string, string>, keys: seq<string>, k: string)
    requires Lists(es, m, keys) && NoEquals(m)
    ensures k in MapOf(es) <==> k in m
    ensures k in m ==> MapOf(es)[k] == m[k]
  {
    MapOfLast(es, k);
    if k in m {
      var i :| 0 <= i < |keys| && keys[i] == k;
      ListedOnce(es, m, keys, i);
    } else if Last(es, k) >= 0 {
      ListedOnce(es, m, keys, Last(es, k));
    }
  }

  lemma GivesBack(es: seq<string>, m: map<string, string>, keys: seq<string>)
    requires Lists(es, m, keys) && NoEquals(m)
    ensures MapOf(es).Keys == m.Keys
    ensures forall k :: k in m ==> MapOf(es)[k] == m[k]
  {
    forall k { KeyBack(es, m, keys, k); }
  }

  lemma SameMap(a: map<string, string>, b: map<string, string>)
    requires a.Keys == b.Keys && forall k :: k in b ==> a[k] == b[k]
    ensures a == b
  {}

  /** A listing is turned back into the map it lists exactly when no key contains '='. */
  lemma ListThenMap(es: seq<string>, m: map<string, string>)
    requires Listing(es, m)
    ensures MapOf(es) == m <==> NoEquals(m)
  {
    if NoEquals(m) {
      var keys :| Lists(es, m, keys);
      GivesBack(es, m, keys);
      SameMap(MapOf(es), m);
    } else {
      var k :| k in m && '=' in k;
      if k in MapOf(es) { KeyInMap(es, k); }
    }
  }

  /** out's i-th entry is the only one for its key, and carries the key's last value in es. */
  ghost predicate OnlyAndLast(out: seq<string>, es: seq<string>, i: nat)
    requires i < |out|
  {
    var k := Key(out[i]);
    Last(out, k) == i && Last(es, k) >= 0 && out[i] == Entry(k, Value(es[Last(es, k)]))
  }

  /** From a slice to a map and back: one entry per distinct key, with that key's last value. */
  lemma MapThenList(es: seq<string>, out: seq<string>)
    requires Listing(out, MapOf(es))
    ensures MapOf(out) == MapOf(es)
    ensures forall k :: Last(out, k) >= 0 <==> Last(es, k) >= 0
    ensures forall i :: 0 <= i < |out| ==> OnlyAndLast(out, es, i)
  {
    var m := MapOf(es);
    var keys :| Lists(out, m, keys);
    forall k
      ensures k in m ==> '=' !in k
      ensures k in m <==> Last(es, k) >= 0
    {
      MapOfLast(es, k);
    }
    ListThenMap(out, m);
    forall k
      ensures Last(out, k) >= 0 <==> Last(es, k) >= 0
    {
      MapOfLast(out, k);
    }
    forall i | 0 <= i < |out|
      ensures OnlyAndLast(out, es, i)
    {
      ListedOnce(out, m, keys, i);
      MapOfLast(es, keys[i]);
    }
  }
}
