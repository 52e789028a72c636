/**
 * Insertion-ordered string-keyed maps: the model of a JavaScript object used as a
 * dictionary. Assigning a new key appends it; assigning an existing key replaces
 * its value in place, so keys keep the position of their first assignment.
 */
module OrderedMaps {
  import opened Wrappers

  type OrderedMap<V> = seq<(string, V)>

  function Keys<V>(m: OrderedMap<V>): (ks: seq<string>)
    ensures |ks| == |m|
    ensures forall i :: 0 <= i < |m| ==> ks[i] == m[i].0
  {
    if |m| == 0 then [] else [m[0].0] + Keys(m[1..])
  }

  /** No key occurs twice: every map built by `Put` alone from the empty map has this shape. */
  predicate KeysUnique<V>(m: OrderedMap<V>) {
    forall i, j :: 0 <= i < j < |m| ==> m[i].0 != m[j].0
  }

  /** `m[k]`: the value stored under `k`, or None when `k` was never assigned. */
  function Get<V>(m: OrderedMap<V>, k: string): (r: Option<V>)
    ensures r.Some? <==> k in Keys(m)
    ensures r.Some? ==> (k, r.value) in m
  {
    if |m| == 0 then None
    else if m[0].0 == k then Some(m[0].1)
    else Get(m[1..], k)
  }

  /** `m[k] = v`. */
  function Put<V>(m: OrderedMap<V>, k: string, v: V): (r: OrderedMap<V>)
    ensures |r| == if k in Keys(m) then |m| else |m| + 1
  {
    if |m| == 0 then [(k, v)]
    else if m[0].0 == k then [(k, v)] + m[1..]
    else [m[0]] + Put(m[1..], k, v)
  }

  /** After `m[k] = v`, `k` holds `v` and every other key holds what it held before. */
  lemma {:induction false} PutGet<V>(m: OrderedMap<V>, k: string, v: V, k': string)
    ensures Get(Put(m, k, v), k') == if k' == k then Some(v) else Get(m, k')
    decreases |m|
  {
    if |m| > 0 && m[0].0 != k {
      PutGet(m[1..], k, v, k');
      assert ([m[0]] + Put(m[1..], k, v))[1..] == Put(m[1..], k, v);
    }
  }

  /** Assignment keeps every key where it was and appends a key it has not seen. */
  lemma {:induction false} PutKeys<V>(m: OrderedMap<V>, k: string, v: V)
    ensures Keys(Put(m, k, v)) == if k in Keys(m) then Keys(m) else Keys(m) + [k]
    decreases |m|
  {
    if |m| > 0 {
      assert Keys(m) == [m[0].0] + Keys(m[1..]);
      if m[0].0 == k {
        assert Keys([(k, v)] + m[1..]) == [k] + Keys(m[1..]);
      } else {
        var rest := Put(m[1..], k, v);
        PutKeys(m[1..], k, v);
        assert Keys([m[0]] + rest) == [m[0].0] + Keys(rest);
      }
    }
  }

  /**
   * The one key a JavaScript object assignment does not store: assigning an
   * object to `o["__proto__"]` replaces the prototype of `o` and adds no own key.
   */
  const ProtoKey := "__proto__"

  /** `o[k] = v` for an object value `v`, as JavaScript performs it. */
  function Assign<V>(m: OrderedMap<V>, k: string, v: V): OrderedMap<V> {
    if k == ProtoKey then m else Put(m, k, v)
  }

  /** The entries of `es` assigned into `m` one after the other, as a `forEach` of assignments does. */
  function AssignAll<V>(m: OrderedMap<V>, es: seq<(string, V)>): OrderedMap<V>
    decreases |es|
  {
    if |es| == 0 then m
    else AssignAll(Assign(m, es[0].0, es[0].1), es[1..])
  }

  /** The entries of `es` that create or replace an own key: all but those under `__proto__`. */
  function OwnEntries<V>(es: seq<(string, V)>): (r: seq<(string, V)>)
    ensures |r| <= |es|
  {
    if |es| == 0 then []
    else (if es[0].0 == ProtoKey then [] else [es[0]]) + OwnEntries(es[1..])
  }

  /** The value of the last entry of `es` whose key is `k`. */
  ghost function LastValue<V>(es: seq<(string, V)>, k: string): (v: V)
    requires k in Keys(es)
    ensures exists i :: 0 <= i < |es| && es[i] == (k, v) && forall j :: i < j < |es| ==> es[j].0 != k
  {
    if k in Keys(es[1..]) then
      var v := LastValue(es[1..], k);
      var i :| 0 <= i < |es| - 1 && es[1..][i] == (k, v) && forall j :: i < j < |es| - 1 ==> es[1..][j].0 != k;
      assert es[i + 1] == (k, v);
      v
    else
      assert es[0].0 == k;
      es[0].1
  }

  /** The entries of `es` assigned into `m` one after the other, as a `forEach` of assignments does. */
  function PutAll<V>(m: OrderedMap<V>, es: seq<(string, V)>): (r: OrderedMap<V>)
    decreases |es|
  {
    if |es| == 0 then m
    else PutAll(Put(m, es[0].0, es[0].1), es[1..])
  }

  /** After assigning `es`, a key holds its last assigned value, or its old value when `es` never assigns it. */
  lemma {:induction false} PutAllGet<V>(m: OrderedMap<V>, es: seq<(string, V)>, k: string)
    ensures Get(PutAll(m, es), k) == if k in Keys(es) then Some(LastValue(es, k)) else Get(m, k)
    decreases |es|
  {
    if |es| > 0 {
      PutAllGet(Put(m, es[0].0, es[0].1), es[1..], k);
      PutGet(m, es[0].0, es[0].1, k);
    }
  }

  /** Assignment never creates a duplicate key. */
  lemma PutKeepsUnique<V>(m: OrderedMap<V>, k: string, v: V)
    requires KeysUnique(m)
    ensures KeysUnique(Put(m, k, v))
  {
    var ks := Keys(Put(m, k, v));
    PutKeys(m, k, v);
    if k !in Keys(m) {
      forall i, j | 0 <= i < j < |ks| ensures ks[i] != ks[j] {
        if j == |m| {
          assert ks[i] == Keys(m)[i];
        } else {
          assert ks[i] == Keys(m)[i] && ks[j] == Keys(m)[j];
        }
      }
    }
  }

  lemma {:induction false} PutAllKeepsUnique<V>(m: OrderedMap<V>, es: seq<(string, V)>)
    requires KeysUnique(m)
    ensures KeysUnique(PutAll(m, es))
    decreases |es|
  {
    if |es| > 0 {
      PutKeepsUnique(m, es[0].0, es[0].1);
      PutAllKeepsUnique(Put(m, es[0].0, es[0].1), es[1..]);
    }
  }

  /** Keys already present keep their positions. */
  lemma {:induction false} PutAllKeepsPositions<V>(m: OrderedMap<V>, es: seq<(string, V)>)
    ensures |m| <= |PutAll(m, es)| && Keys(PutAll(m, es))[..|m|] == Keys(m)
    decreases |es|
  {
    if |es| > 0 {
      var m' := Put(m, es[0].0, es[0].1);
      var r := PutAll(m', es[1..]);
      assert |m| <= |m'| && Keys(m')[..|m|] == Keys(m) by {
        PutKeys(m, es[0].0, es[0].1);
      }
      PutAllKeepsPositions(m', es[1..]);
      assert Keys(r)[..|m|] == Keys(r)[..|m'|][..|m|];
    }
  }

  /** The keys of a concatenation are the keys of its two parts. */
  lemma KeysAppend<V>(a: OrderedMap<V>, b: OrderedMap<V>, k: string)
    ensures k in Keys(a + b) <==> k in Keys(a) || k in Keys(b)
  {
    assert Keys(a + b) == Keys(a) + Keys(b);
  }

  /** Two maps without a common key and without duplicates concatenate to a map without duplicates. */
  lemma UniqueAppend<V>(a: OrderedMap<V>, b: OrderedMap<V>)
    requires KeysUnique(a) && KeysUnique(b)
    requires forall i, j :: 0 <= i < |a| && 0 <= j < |b| ==> a[i].0 != b[j].0
    ensures KeysUnique(a + b)
  {
    forall i, j | 0 <= i < j < |a + b| ensures (a + b)[i].0 != (a + b)[j].0 {
      if j < |a| {
        assert (a + b)[i] == a[i] && (a + b)[j] == a[j];
      } else if i < |a| {
        assert (a + b)[i] == a[i] && (a + b)[j] == b[j - |a|];
      } else {
        assert (a + b)[i] == b[i - |a|] && (a + b)[j] == b[j - |a|];
      }
    }
  }

  /** Under unique keys, a stored entry is what `Get` finds. */
  lemma GetUnique<V>(m: OrderedMap<V>, k: string, v: V)
    requires KeysUnique(m)
    requires (k, v) in m
    ensures Get(m, k) == Some(v)
  {
    var i :| 0 <= i < |m| && m[i] == (k, v);
    var j :| 0 <= j < |m| && m[j] == (k, Get(m, k).value);
    assert Keys(m)[i] == Keys(m)[j];
  }

  /** The last assignment of a key is the one that survives. */
  lemma PutAllLastWins<V>(m: OrderedMap<V>, es: seq<(string, V)>, i: nat)
    requires i < |es|
    requires forall j :: i < j < |es| ==> es[j].0 != es[i].0
    ensures Get(PutAll(m, es), es[i].0) == Some(es[i].1)
  {
    var k := es[i].0;
    assert Keys(es)[i] == k;
    PutAllGet(m, es, k);
    var v := LastValue(es, k);
    var i' :| 0 <= i' < |es| && es[i'] == (k, v) && forall j :: i' < j < |es| ==> es[j].0 != k;
    assert i' == i;
  }

  /** The keys after assigning `es` are the old keys and the assigned ones, nothing else. */
  lemma PutAllKeys<V>(m: OrderedMap<V>, es: seq<(string, V)>, k: string)
    ensures k in Keys(PutAll(m, es)) <==> k in Keys(m) || k in Keys(es)
  {
    PutAllGet(m, es, k);
  }

  /** Assigning a fresh key appends it. */
  lemma {:induction false} PutFresh<V>(m: OrderedMap<V>, k: string, v: V)
    requires k !in Keys(m)
    ensures Put(m, k, v) == m + [(k, v)]
    decreases |m|
  {
    if |m| > 0 {
      assert Keys(m) == [m[0].0] + Keys(m[1..]);
      PutFresh(m[1..], k, v);
      assert Put(m, k, v) == [m[0]] + (m[1..] + [(k, v)]);
      assert [m[0]] + (m[1..] + [(k, v)]) == ([m[0]] + m[1..]) + [(k, v)];
      assert [m[0]] + m[1..] == m;
    }
  }

  /** Assigning only fresh, distinct keys appends the entries in order. */
  lemma {:induction false} PutAllFresh<V>(m: OrderedMap<V>, es: seq<(string, V)>)
    requires KeysUnique(m + es)
    ensures PutAll(m, es) == m + es
    decreases |es|
  {
    if |es| > 0 {
      var m' := m + [es[0]];
      assert Put(m, es[0].0, es[0].1) == m' by {
        forall i | 0 <= i < |m| ensures Keys(m)[i] != es[0].0 {
          assert (m + es)[i].0 != (m + es)[|m|].0;
        }
        PutFresh(m, es[0].0, es[0].1);
      }
      assert m' + es[1..] == m + es;
      PutAllFresh(m', es[1..]);
    }
  }

  /** Object assignment is plain insertion of the entries that are not under `__proto__`. */
  lemma {:induction false} AssignAllOwn<V>(m: OrderedMap<V>, es: seq<(string, V)>)
    ensures AssignAll(m, es) == PutAll(m, OwnEntries(es))
    decreases |es|
  {
    if |es| > 0 {
      var rest := OwnEntries(es[1..]);
      AssignAllOwn(Assign(m, es[0].0, es[0].1), es[1..]);
      if es[0].0 == ProtoKey {
        assert OwnEntries(es) == [] + rest == rest;
      } else {
        var own := OwnEntries(es);
        assert own == [es[0]] + rest;
        assert own[0] == es[0] && own[1..] == rest;
      }
    }
  }

  /** The own entries assign every key of `es` except `__proto__`. */
  lemma {:induction false} OwnEntriesKeys<V>(es: seq<(string, V)>, k: string)
    ensures k in Keys(OwnEntries(es)) <==> k in Keys(es) && k != ProtoKey
    decreases |es|
  {
    if |es| > 0 {
      var head: seq<(string, V)> := if es[0].0 == ProtoKey then [] else [es[0]];
      OwnEntriesKeys(es[1..], k);
      assert k in Keys(head) <==> es[0].0 == k && k != ProtoKey;
      assert OwnEntries(es) == head + OwnEntries(es[1..]);
      KeysAppend(head, OwnEntries(es[1..]), k);
      assert es == [es[0]] + es[1..];
      KeysAppend([es[0]], es[1..], k);
    }
  }

  /** Without an entry under `__proto__` every entry is an own entry. */
  lemma {:induction false} OwnEntriesPlain<V>(es: seq<(string, V)>)
    requires ProtoKey !in Keys(es)
    ensures OwnEntries(es) == es
    decreases |es|
  {
    if |es| > 0 {
      assert Keys(es) == [es[0].0] + Keys(es[1..]);
      OwnEntriesPlain(es[1..]);
      assert [es[0]] + es[1..] == es;
    }
  }

  /** Dropping entries keeps keys distinct. */
  lemma {:induction false} OwnEntriesUnique<V>(es: seq<(string, V)>)
    requires KeysUnique(es)
    ensures KeysUnique(OwnEntries(es))
    decreases |es|
  {
    if |es| > 0 {
      var tail := OwnEntries(es[1..]);
      assert KeysUnique(es[1..]) by {
        forall i, j | 0 <= i < j < |es| - 1 ensures es[1..][i].0 != es[1..][j].0 {
          assert es[1..][i] == es[i + 1] && es[1..][j] == es[j + 1];
        }
      }
      OwnEntriesUnique(es[1..]);
      if es[0].0 != ProtoKey {
        assert es[0].0 !in Keys(es[1..]) by {
          forall i | 0 <= i < |es| - 1 ensures Keys(es[1..])[i] != es[0].0 {
            assert es[1..][i] == es[i + 1];
          }
        }
        OwnEntriesKeys(es[1..], es[0].0);
        forall i | 0 <= i < |tail| ensures [es[0]][0].0 != tail[i].0 {
          assert Keys(tail)[i] == tail[i].0;
        }
        UniqueAppend([es[0]], tail);
      }
    }
  }

  /** Entries under `__proto__` never decide the last value of another key. */
  lemma {:induction false} OwnLastValue<V>(es: seq<(string, V)>, k: string)
    requires k in Keys(es) && k != ProtoKey
    ensures k in Keys(OwnEntries(es)) && LastValue(OwnEntries(es), k) == LastValue(es, k)
    decreases |es|
  {
    OwnEntriesKeys(es, k);
    var own := OwnEntries(es);
    var rest := OwnEntries(es[1..]);
    assert Keys(es) == [es[0].0] + Keys(es[1..]);
    if es[0].0 == ProtoKey {
      assert own == [] + rest == rest;
      OwnLastValue(es[1..], k);
    } else {
      assert own == [es[0]] + rest;
      assert own[0] == es[0] && own[1..] == rest;
      OwnEntriesKeys(es[1..], k);
      if k in Keys(es[1..]) {
        OwnLastValue(es[1..], k);
      }
    }
  }

  /** Apart from `__proto__`, object assignment stores what plain insertion stores. */
  lemma AssignAllGet<V>(m: OrderedMap<V>, es: seq<(string, V)>, k: string)
    requires k != ProtoKey
    ensures Get(AssignAll(m, es), k) == Get(PutAll(m, es), k)
  {
    AssignAllOwn(m, es);
    PutAllGet(m, OwnEntries(es), k);
    PutAllGet(m, es, k);
    OwnEntriesKeys(es, k);
    if k in Keys(es) {
      OwnLastValue(es, k);
    }
  }

  /** Object assignment is plain insertion when no entry is under `__proto__`. */
  lemma AssignAllPlain<V>(m: OrderedMap<V>, es: seq<(string, V)>)
    requires ProtoKey !in Keys(es)
    ensures AssignAll(m, es) == PutAll(m, es)
  {
    AssignAllOwn(m, es);
    OwnEntriesPlain(es);
  }

  /** Every value of the map satisfies `P`. */
  ghost predicate AllValues<V>(m: OrderedMap<V>, P: V -> bool) {
    forall i :: 0 <= i < |m| ==> P(m[i].1)
  }

  lemma AllValuesAppend<V>(a: OrderedMap<V>, b: OrderedMap<V>, P: V -> bool)
    requires AllValues(a, P) && AllValues(b, P)
    ensures AllValues(a + b, P)
  {
    forall j | 0 <= j < |a + b| ensures P((a + b)[j].1) {
      if j < |a| { assert (a + b)[j] == a[j]; } else { assert (a + b)[j] == b[j - |a|]; }
    }
  }

  lemma {:induction false} PutPreserves<V>(m: OrderedMap<V>, k: string, v: V, P: V -> bool)
    requires AllValues(m, P) && P(v)
    ensures AllValues(Put(m, k, v), P)
    decreases |m|
  {
    if |m| > 0 && m[0].0 != k {
      PutPreserves(m[1..], k, v, P);
    }
  }

  /** A property of every stored and every assigned value holds of every value of the result. */
  lemma {:induction false} PutAllPreserves<V>(m: OrderedMap<V>, es: seq<(string, V)>, P: V -> bool)
    requires AllValues(m, P) && AllValues(es, P)
    ensures AllValues(PutAll(m, es), P)
    decreases |es|
  {
    if |es| > 0 {
      PutPreserves(m, es[0].0, es[0].1, P);
      PutAllPreserves(Put(m, es[0].0, es[0].1), es[1..], P);
    }
  }
}
