/**
 * JavaScript plain objects as ordered key/value lists. A property read finds the last entry
 * with the key, an assignment overwrites an existing key in place or appends a new one, and
 * the spread `{...base, ...extra}` assigns extra's entries onto base from left to right.
 */
module Records {
  import opened Wrappers

  /** The keys of an entry list, in order. */
  function Keys<V>(es: seq<(string, V)>): (ks: seq<string>)
    ensures |ks| == |es|
    ensures forall i :: 0 <= i < |es| ==> ks[i] == es[i].0
  {
    if es == [] then [] else [es[0].0] + Keys(es[1..])
  }

  /** `obj[k]`: the value of the last entry with key `k`, or `None` (undefined). */
  function Lookup<V>(es: seq<(string, V)>, k: string): (r: Option<V>)
    ensures r.Some? <==> k in Keys(es)
  {
    if es == [] then None
    else if es[|es| - 1].0 == k then Some(es[|es| - 1].1)
    else
      assert Keys(es) == Keys(es[..|es| - 1]) + [es[|es| - 1].0];
      Lookup(es[..|es| - 1], k)
  }

  /** Reading through a list that has one more entry at the front. */
  lemma {:induction false} LookupCons<V>(e: (string, V), es: seq<(string, V)>, k: string)
    ensures Lookup([e] + es, k) == if Lookup(es, k).Some? then Lookup(es, k) else if e.0 == k then Some(e.1) else None
  {
    if es != [] {
      var all := [e] + es;
      assert all[..|all| - 1] == [e] + es[..|es| - 1];
      if es[|es| - 1].0 != k {
        LookupCons(e, es[..|es| - 1], k);
      }
    }
  }

  /** Every entry with key `k` gets value `v`; every other entry is kept. */
  function Overwrite<V>(es: seq<(string, V)>, k: string, v: V): (r: seq<(string, V)>)
    ensures Keys(r) == Keys(es)
    ensures forall i :: 0 <= i < |es| ==> r[i] == if es[i].0 == k then (k, v) else es[i]
  {
    if es == [] then [] else [if es[0].0 == k then (k, v) else es[0]] + Overwrite(es[1..], k, v)
  }

  /** `obj[k] = v`: an existing key keeps its position, a new key goes last. */
  function Assign<V>(es: seq<(string, V)>, k: string, v: V): seq<(string, V)> {
    if k in Keys(es) then Overwrite(es, k, v) else es + [(k, v)]
  }

  lemma {:induction false} LookupOverwrite<V>(es: seq<(string, V)>, k: string, v: V, j: string)
    ensures Lookup(Overwrite(es, k, v), j) == if j == k && k in Keys(es) then Some(v) else Lookup(es, j)
  {
    if es != [] {
      var e := es[0];
      var e' := if e.0 == k then (k, v) else e;
      var rest := es[1..];
      var r := Overwrite(rest, k, v);
      assert es == [e] + rest;
      assert Overwrite(es, k, v) == [e'] + r;
      assert Keys(es) == [e.0] + Keys(rest);
      LookupCons(e', r, j);
      LookupCons(e, rest, j);
      LookupOverwrite(rest, k, v, j);
    }
  }

  /** After `obj[k] = v`, reading `k` gives `v` and every other key reads as before. */
  lemma LookupAssign<V>(es: seq<(string, V)>, k: string, v: V, j: string)
    ensures Lookup(Assign(es, k, v), j) == if j == k then Some(v) else Lookup(es, j)
  {
    if k in Keys(es) {
      LookupOverwrite(es, k, v, j);
    } else {
      var r := es + [(k, v)];
      assert r[..|r| - 1] == es;
    }
  }

  /** `{...base, ...extra}`. */
  function Spread<V>(base: seq<(string, V)>, extra: seq<(string, V)>): seq<(string, V)>
    decreases |extra|
  {
    if extra == [] then base else Spread(Assign(base, extra[0].0, extra[0].1), extra[1..])
  }

  /** In a spread, a key of `extra` reads as in `extra`, any other key as in `base`. */
  lemma {:induction false} LookupSpread<V>(base: seq<(string, V)>, extra: seq<(string, V)>, k: string)
    ensures Lookup(Spread(base, extra), k) == if Lookup(extra, k).Some? then Lookup(extra, k) else Lookup(base, k)
    decreases |extra|
  {
    if extra != [] {
      var e := extra[0];
      LookupSpread(Assign(base, e.0, e.1), extra[1..], k);
      LookupAssign(base, e.0, e.1, k);
      assert extra == [e] + extra[1..];
      LookupCons(e, extra[1..], k);
    }
  }

  /** A spread keeps base's keys first and in their order (JavaScript's property order). */
  lemma {:induction false} SpreadKeepsBaseOrder<V>(base: seq<(string, V)>, extra: seq<(string, V)>)
    ensures Keys(base) <= Keys(Spread(base, extra))
    decreases |extra|
  {
    if extra != [] {
      var a := Assign(base, extra[0].0, extra[0].1);
      SpreadKeepsBaseOrder(a, extra[1..]);
      if extra[0].0 !in Keys(base) {
        assert Keys(a) == Keys(base) + [extra[0].0];
      }
    }
  }
}
