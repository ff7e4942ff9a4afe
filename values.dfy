/**
 * Nested configuration and metadata values: a Python dict is an ordered list of
 * entries with distinct keys (dicts keep insertion order), and a leaf is any
 * non-dict value.
 */
module Values {
  import opened Wrappers

  /** The non-dict values the modelled code stores or reads. */
  datatype Atom =
    | Number(x: real)
    | Text(s: string)
    | Flag(b: bool)
    | Numbers(xs: seq<real>)
    | Nothing

  datatype Value = Leaf(atom: Atom) | Dict(entries: seq<Entry>)

  datatype Entry = Entry(key: string, val: Value)

  /** The keys of a dict, in insertion order. */
  function KeySeq(es: seq<Entry>): (ks: seq<string>)
    ensures |ks| == |es|
    ensures forall i :: 0 <= i < |es| ==> ks[i] == es[i].key
  {
    seq(|es|, i requires 0 <= i < |es| => es[i].key)
  }

  function Keys(es: seq<Entry>): set<string>
  {
    set i | 0 <= i < |es| :: es[i].key
  }

  predicate DistinctKeys(es: seq<Entry>)
  {
    forall i, j :: 0 <= i < j < |es| ==> es[i].key != es[j].key
  }

  /** Every dict in the value, at every depth, has distinct keys. */
  predicate WellFormed(v: Value)
  {
    match v
    case Leaf(_) => true
    case Dict(es) => DistinctKeys(es) && forall i :: 0 <= i < |es| ==> WellFormed(es[i].val)
  }

  /** The position of key `k`, if present (`k in d`). */
  function Find(es: seq<Entry>, k: string): (r: Option<nat>)
    ensures r.Some? ==> r.value < |es| && es[r.value].key == k
    ensures r.Some? ==> forall i :: 0 <= i < r.value ==> es[i].key != k
    ensures r.None? <==> k !in Keys(es)
  {
    if |es| == 0 then None
    else if es[0].key == k then Some(0)
    else
      var r := Find(es[1..], k);
      assert Keys(es) == {es[0].key} + Keys(es[1..]) by {
        forall x | x in Keys(es) ensures x in {es[0].key} + Keys(es[1..]) {
          var i :| 0 <= i < |es| && es[i].key == x;
          if i > 0 { assert es[1..][i - 1].key == x; }
        }
      }
      if r.None? then None else Some(r.value + 1)
  }

  /** `d[k]` when `k in d`. */
  function Get(es: seq<Entry>, k: string): (r: Option<Value>)
    ensures r.Some? <==> k in Keys(es)
  {
    match Find(es, k)
    case None => None
    case Some(i) => Some(es[i].val)
  }

  /** `d[k] = v`: replaces the value in place when `k` is present, appends otherwise. */
  function Put(es: seq<Entry>, k: string, v: Value): (r: seq<Entry>)
    ensures Find(es, k).Some? ==> r == es[Find(es, k).value := Entry(k, v)]
    ensures Find(es, k).None? ==> r == es + [Entry(k, v)]
  {
    match Find(es, k)
    case None => es + [Entry(k, v)]
    case Some(i) => es[i := Entry(k, v)]
  }

  lemma {:induction false} GetAt(es: seq<Entry>, i: nat)
    requires DistinctKeys(es) && i < |es|
    ensures Get(es, es[i].key) == Some(es[i].val)
  {
    var f := Find(es, es[i].key);
    assert es[i].key in Keys(es);
  }

  /** After `d[k] = v`, reading `k` gives `v`, every other key reads as before, and keys stay distinct. */
  lemma {:induction false} PutGet(es: seq<Entry>, k: string, v: Value, k': string)
    requires DistinctKeys(es)
    ensures DistinctKeys(Put(es, k, v))
    ensures Keys(Put(es, k, v)) == Keys(es) + {k}
    ensures Get(Put(es, k, v), k') == if k' == k then Some(v) else Get(es, k')
  {
    var r := Put(es, k, v);
    assert DistinctKeys(r) by {
      forall i, j | 0 <= i < j < |r| ensures r[i].key != r[j].key {
        if Find(es, k).None? {
          if j == |es| { assert es[i].key in Keys(es); }
        }
      }
    }
    assert Keys(r) == Keys(es) + {k} by {
      forall x | x in Keys(es) + {k} ensures x in Keys(r) {
        if x == k {
          if Find(es, k).Some? { assert r[Find(es, k).value].key == k; } else { assert r[|es|].key == k; }
        } else {
          var i :| 0 <= i < |es| && es[i].key == x;
          assert r[i].key == x;
        }
      }
    }
    if k' in Keys(r) {
      var j :| 0 <= j < |r| && r[j].key == k';
      GetAt(r, j);
      if k' != k {
        assert j < |es| && es[j] == r[j];
        GetAt(es, j);
      }
    } else {
      assert k' !in Keys(es);
    }
  }

  /** Storing the value a key already holds changes nothing. */
  lemma {:induction false} PutSame(es: seq<Entry>, k: string)
    requires Get(es, k).Some?
    ensures Put(es, k, Get(es, k).value) == es
  {
  }

  lemma {:induction false} PutWellFormed(es: seq<Entry>, k: string, v: Value)
    requires WellFormed(Dict(es)) && WellFormed(v)
    ensures WellFormed(Dict(Put(es, k, v)))
  {
    PutGet(es, k, v, k);
  }

  /** Two dicts with distinct keys, the same key order and the same value under every key are equal. */
  lemma {:induction false} Extensional(a: seq<Entry>, b: seq<Entry>)
    requires DistinctKeys(a) && DistinctKeys(b)
    requires KeySeq(a) == KeySeq(b)
    requires forall k :: Get(a, k) == Get(b, k)
    ensures a == b
  {
    forall i | 0 <= i < |a| ensures a[i] == b[i] {
      GetAt(a, i);
      GetAt(b, i);
      assert Get(a, a[i].key) == Get(b, a[i].key);
    }
  }
}
