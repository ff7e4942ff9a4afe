/**
 * Recursive completion of a dict from a base dict: the behaviour shared by
 * `complete_dictionary` (sed/core/config.py) and `insert_default_config`
 * (sed/settings.py). They differ only when the base holds a dict where the
 * completed dict holds a non-dict: the first raises ValueError, the second
 * recurses into the non-dict value, which fails with AttributeError unless the
 * base dict is empty (then the loop body never runs and the value is kept).
 */
module Completion {
  import opened Wrappers
  import opened Values

  datatype Policy =
    | Strict   // complete_dictionary
    | Lenient  // insert_default_config

  /** The value stored under a key after processing the base entry `v` against the current value `cur`. */
  function EntryFill(cur: Option<Value>, v: Value, policy: Policy): Result<Value>
    decreases v, 1, 0
  {
    match cur
    case None => Ok(v)
    case Some(dv) =>
      if !v.Dict? then Ok(dv)
      else if dv.Dict? then
        (match FillFrom(dv.entries, v.entries, 0, policy)
         case Err(e) => Err(e)
         case Ok(sub) => Ok(Dict(sub)))
      else if policy == Strict then Err(ValueError)
      else if |v.entries| == 0 then Ok(dv)
      else Err(AttributeError)
  }

  /** The loop over the base entries `base[i..]`, in order, updating `cur` in place. */
  function FillFrom(cur: seq<Entry>, base: seq<Entry>, i: nat, policy: Policy): Result<seq<Entry>>
    requires i <= |base|
    decreases Dict(base), 0, |base| - i
  {
    if i == |base| then Ok(cur)
    else
      match EntryFill(Get(cur, base[i].key), base[i].val, policy)
      case Err(e) => Err(e)
      case Ok(x) => FillFrom(Put(cur, base[i].key, x), base, i + 1, policy)
  }

  /** The dict `d` completed from `base`. */
  function Fill(d: seq<Entry>, base: seq<Entry>, policy: Policy): Result<seq<Entry>>
  {
    FillFrom(d, base, 0, policy)
  }

  /** The value a key ends up with: `cur` when the base does not have it, else the entry rule. */
  function Expected(cur: Option<Value>, b: Option<Value>, policy: Policy): Result<Option<Value>>
  {
    match b
    case None => Ok(cur)
    case Some(v) =>
      match EntryFill(cur, v, policy)
      case Err(e) => Err(e)
      case Ok(x) => Ok(Some(x))
  }

  /** Some key of the base cannot be merged into the dict. */
  ghost predicate Clash(d: seq<Entry>, base: seq<Entry>, policy: Policy)
  {
    exists j :: 0 <= j < |base| && EntryFill(Get(d, base[j].key), base[j].val, policy).Err?
  }

  /** The keys of `base[j..]` that are new to `cur`, in base order. */
  function NewKeys(cur: seq<Entry>, base: seq<Entry>, j: nat): seq<string>
    requires j <= |base|
    decreases |base| - j
  {
    if j == |base| then []
    else if base[j].key in Keys(cur) then NewKeys(cur, base, j + 1)
    else [base[j].key] + NewKeys(cur, base, j + 1)
  }

  // ---------------------------------------------------------------------
  // Key-by-key characterisation of the loop.
  // ---------------------------------------------------------------------

  lemma {:induction false} FillFromGet(cur: seq<Entry>, base: seq<Entry>, i: nat, policy: Policy, k: string)
    requires i <= |base| && DistinctKeys(base) && DistinctKeys(cur)
    requires FillFrom(cur, base, i, policy).Ok?
    ensures DistinctKeys(FillFrom(cur, base, i, policy).value)
    ensures Expected(Get(cur, k), Get(base[i..], k), policy)
         == Ok(Get(FillFrom(cur, base, i, policy).value, k))
    decreases |base| - i
  {
    if i == |base| {
      assert base[i..] == [];
    } else {
      var e := base[i];
      var x := EntryFill(Get(cur, e.key), e.val, policy).value;
      var next := Put(cur, e.key, x);
      PutGet(cur, e.key, x, k);
      FillFromGet(next, base, i + 1, policy, k);
      GetAt(base[i..], 0);
      if k == e.key {
        // k is not among the later keys, so the later steps leave it alone
        var rest := base[i + 1..];
        assert k !in Keys(rest) by {
          forall j | 0 <= j < |rest| ensures rest[j].key != k {
            assert rest[j] == base[i + 1 + j];
          }
        }
      } else {
        TailGet(base, i, k);
      }
    }
  }

  lemma {:induction false} TailGet(base: seq<Entry>, i: nat, k: string)
    requires i < |base| && DistinctKeys(base) && base[i].key != k
    ensures Get(base[i..], k) == Get(base[i + 1..], k)
  {
    var t := base[i..];
    assert t[1..] == base[i + 1..];
    assert DistinctKeys(t);
    if k in Keys(t) {
      var j :| 0 <= j < |t| && t[j].key == k;
      GetAt(t, j);
      GetAt(t[1..], j - 1);
    } else {
      assert k !in Keys(t[1..]) by {
        forall j | 0 <= j < |t[1..]| ensures t[1..][j].key != k { assert t[1..][j] == t[j + 1]; }
      }
    }
  }

  /**
   * Completion, key by key: a key missing from `d` takes the base value; a key
   * present in `d` keeps its value unless both sides hold dicts, which are merged
   * recursively; a key in neither stays absent.
   */
  lemma {:induction false} FillGet(d: seq<Entry>, base: seq<Entry>, policy: Policy, k: string)
    requires DistinctKeys(base) && DistinctKeys(d)
    requires Fill(d, base, policy).Ok?
    ensures DistinctKeys(Fill(d, base, policy).value)
    ensures Expected(Get(d, k), Get(base, k), policy) == Ok(Get(Fill(d, base, policy).value, k))
  {
    assert base[0..] == base;
    FillFromGet(d, base, 0, policy, k);
  }

  /** Keys of the result are the union of both key sets. */
  lemma {:induction false} FillKeys(d: seq<Entry>, base: seq<Entry>, policy: Policy)
    requires DistinctKeys(base) && DistinctKeys(d)
    requires Fill(d, base, policy).Ok?
    ensures Keys(Fill(d, base, policy).value) == Keys(d) + Keys(base)
  {
    var r := Fill(d, base, policy).value;
    forall k ensures k in Keys(r) <==> k in Keys(d) + Keys(base) {
      FillGet(d, base, policy, k);
    }
  }

  /** A value already present and not a dict is never overwritten by the base value. */
  lemma {:induction false} FillKeepsLeaf(d: seq<Entry>, base: seq<Entry>, policy: Policy, k: string, a: Atom)
    requires DistinctKeys(base) && DistinctKeys(d)
    requires Fill(d, base, policy).Ok?
    requires Get(d, k) == Some(Leaf(a))
    ensures Get(Fill(d, base, policy).value, k) == Some(Leaf(a))
  {
    FillGet(d, base, policy, k);
  }

  /** A key missing from the dict takes the base value, whatever it is. */
  lemma {:induction false} FillTakesMissing(d: seq<Entry>, base: seq<Entry>, policy: Policy, k: string)
    requires DistinctKeys(base) && DistinctKeys(d)
    requires Fill(d, base, policy).Ok?
    requires Get(d, k).None?
    ensures Get(Fill(d, base, policy).value, k) == Get(base, k)
  {
    FillGet(d, base, policy, k);
  }

  // ---------------------------------------------------------------------
  // Key order: existing keys keep their places, new keys are appended.
  // ---------------------------------------------------------------------

  lemma {:induction false} FillFromOrder(cur: seq<Entry>, base: seq<Entry>, i: nat, policy: Policy)
    requires i <= |base| && DistinctKeys(base) && DistinctKeys(cur)
    requires FillFrom(cur, base, i, policy).Ok?
    ensures KeySeq(FillFrom(cur, base, i, policy).value) == KeySeq(cur) + NewKeys(cur, base, i)
    decreases |base| - i
  {
    if i < |base| {
      var k := base[i].key;
      var x := EntryFill(Get(cur, k), base[i].val, policy).value;
      var next := Put(cur, k, x);
      StepOk(cur, base, i, policy, x);
      PutGet(cur, k, x, k);
      FillFromOrder(next, base, i + 1, policy);
      NewKeysAfterPut(cur, base, i, x);
      KeySeqPut(cur, k, x);
      OrderGlue(KeySeq(FillFrom(next, base, i + 1, policy).value), KeySeq(cur), KeySeq(next),
                if k in Keys(cur) then [] else [k], NewKeys(cur, base, i), NewKeys(cur, base, i + 1));
    }
  }

  /** The bookkeeping of one step of `FillFromOrder`, on plain key sequences. */
  lemma {:induction false} OrderGlue(r: seq<string>, before: seq<string>, after: seq<string>, added: seq<string>,
                  newKeys: seq<string>, later: seq<string>)
    requires r == after + later && after == before + added && newKeys == added + later
    ensures r == before + newKeys
  {
  }

  lemma {:induction false} KeySeqPut(cur: seq<Entry>, k: string, x: Value)
    ensures KeySeq(Put(cur, k, x)) == KeySeq(cur) + (if k in Keys(cur) then [] else [k])
  {
    var r := Put(cur, k, x);
    if Find(cur, k).Some? {
      assert KeySeq(r) == KeySeq(cur);
    } else {
      assert KeySeq(r) == KeySeq(cur) + [k];
    }
  }

  lemma {:induction false} NewKeysAfterPut(cur: seq<Entry>, base: seq<Entry>, i: nat, x: Value)
    requires i < |base| && DistinctKeys(base) && DistinctKeys(cur)
    ensures NewKeys(Put(cur, base[i].key, x), base, i + 1) == NewKeys(cur, base, i + 1)
  {
    PutGet(cur, base[i].key, x, base[i].key);
    NewKeysAgree(cur, Put(cur, base[i].key, x), base, i + 1, base[i].key);
  }

  lemma {:induction false} NewKeysAgree(a: seq<Entry>, b: seq<Entry>, base: seq<Entry>, j: nat, k: string)
    requires j <= |base| && DistinctKeys(base)
    requires Keys(b) == Keys(a) + {k}
    requires forall m :: j <= m < |base| ==> base[m].key != k
    ensures NewKeys(a, base, j) == NewKeys(b, base, j)
    decreases |base| - j
  {
    if j < |base| { NewKeysAgree(a, b, base, j + 1, k); }
  }

  /** The completed dict lists the original keys first, in their order, then the new base keys in base order. */
  lemma {:induction false} FillOrder(d: seq<Entry>, base: seq<Entry>, policy: Policy)
    requires DistinctKeys(base) && DistinctKeys(d)
    requires Fill(d, base, policy).Ok?
    ensures KeySeq(Fill(d, base, policy).value) == KeySeq(d) + NewKeys(d, base, 0)
  {
    FillFromOrder(d, base, 0, policy);
  }

  // ---------------------------------------------------------------------
  // When completion fails, and with which exception.
  // ---------------------------------------------------------------------

  lemma {:induction false} FillFromErrIff(cur: seq<Entry>, base: seq<Entry>, i: nat, policy: Policy)
    requires i <= |base| && DistinctKeys(base) && DistinctKeys(cur)
    ensures FillFrom(cur, base, i, policy).Err? <==> ClashFrom(cur, base, i, policy)
    decreases |base| - i
  {
    if i < |base| {
      var ef := EntryFill(Get(cur, base[i].key), base[i].val, policy);
      if ef.Ok? {
        var next := Put(cur, base[i].key, ef.value);
        StepOk(cur, base, i, policy, ef.value);
        PutGet(cur, base[i].key, ef.value, base[i].key);
        FillFromErrIff(next, base, i + 1, policy);
        ClashAfterPut(cur, base, i, policy, ef.value);
      } else {
        StepErr(cur, base, i, policy);
        assert ef.Err?;
      }
    }
  }

  /** Some base entry from position `i` on clashes with the value under its key. */
  ghost predicate ClashFrom(cur: seq<Entry>, base: seq<Entry>, i: nat, policy: Policy)
    requires i <= |base|
  {
    exists j :: i <= j < |base| && EntryFill(Get(cur, base[j].key), base[j].val, policy).Err?
  }

  /** A step that succeeds leaves the later entries facing the same values, hence the same clashes. */
  lemma {:induction false} ClashAfterPut(cur: seq<Entry>, base: seq<Entry>, i: nat, policy: Policy, x: Value)
    requires i < |base| && DistinctKeys(base) && DistinctKeys(cur)
    requires EntryFill(Get(cur, base[i].key), base[i].val, policy) == Ok(x)
    ensures ClashFrom(cur, base, i, policy) <==> ClashFrom(Put(cur, base[i].key, x), base, i + 1, policy)
  {
    var next := Put(cur, base[i].key, x);
    if ClashFrom(cur, base, i, policy) {
      var j :| i <= j < |base| && EntryFill(Get(cur, base[j].key), base[j].val, policy).Err?;
      LaterUnchanged(cur, base, i, x, j);
      assert EntryFill(Get(next, base[j].key), base[j].val, policy).Err?;
    }
    if ClashFrom(next, base, i + 1, policy) {
      var j :| i + 1 <= j < |base| && EntryFill(Get(next, base[j].key), base[j].val, policy).Err?;
      LaterUnchanged(cur, base, i, x, j);
      assert EntryFill(Get(cur, base[j].key), base[j].val, policy).Err?;
    }
  }

  /** Storing under the key of entry `i` leaves the value under every later key alone. */
  lemma {:induction false} LaterUnchanged(cur: seq<Entry>, base: seq<Entry>, i: nat, x: Value, j: nat)
    requires i < j < |base| && DistinctKeys(base) && DistinctKeys(cur)
    ensures Get(Put(cur, base[i].key, x), base[j].key) == Get(cur, base[j].key)
  {
    PutGet(cur, base[i].key, x, base[j].key);
  }

  /** One iteration of the completion loop that stores `x`. */
  lemma {:induction false} StepOk(cur: seq<Entry>, base: seq<Entry>, i: nat, policy: Policy, x: Value)
    requires i < |base|
    requires EntryFill(Get(cur, base[i].key), base[i].val, policy) == Ok(x)
    ensures FillFrom(cur, base, i, policy) == FillFrom(Put(cur, base[i].key, x), base, i + 1, policy)
  {
  }

  /** One iteration of the completion loop that raises. */
  lemma {:induction false} StepErr(cur: seq<Entry>, base: seq<Entry>, i: nat, policy: Policy)
    requires i < |base|
    requires EntryFill(Get(cur, base[i].key), base[i].val, policy).Err?
    ensures FillFrom(cur, base, i, policy) == Err(EntryFill(Get(cur, base[i].key), base[i].val, policy).error)
  {
  }

  /** Completion fails exactly when some base entry clashes with the value under its key. */
  lemma {:induction false} FillErrIff(d: seq<Entry>, base: seq<Entry>, policy: Policy)
    requires DistinctKeys(base) && DistinctKeys(d)
    ensures Fill(d, base, policy).Err? <==> Clash(d, base, policy)
  {
    FillFromErrIff(d, base, 0, policy);
    assert Clash(d, base, policy) <==> ClashFrom(d, base, 0, policy);
  }

  /** A dict in the base where the dict holds a non-dict: ValueError when strict; AttributeError when lenient and the base dict is non-empty. */
  lemma {:induction false} MismatchFails(d: seq<Entry>, base: seq<Entry>, policy: Policy, k: string, a: Atom, b: seq<Entry>)
    requires DistinctKeys(base) && DistinctKeys(d)
    requires Get(d, k) == Some(Leaf(a)) && Get(base, k) == Some(Dict(b))
    requires policy == Strict || |b| > 0
    ensures Fill(d, base, policy).Err?
  {
    var j := Find(base, k).value;
    assert EntryFill(Get(d, base[j].key), base[j].val, policy).Err?;
    FillErrIff(d, base, policy);
  }

  lemma {:induction false} EntryFillErrorKind(cur: Option<Value>, v: Value, policy: Policy)
    ensures EntryFill(cur, v, policy).Err? ==>
      EntryFill(cur, v, policy).error == (if policy == Strict then ValueError else AttributeError)
    decreases v, 1, 0
  {
    if cur.Some? && v.Dict? && cur.value.Dict? {
      FillFromErrorKind(cur.value.entries, v.entries, 0, policy);
    }
  }

  lemma {:induction false} FillFromErrorKind(cur: seq<Entry>, base: seq<Entry>, i: nat, policy: Policy)
    requires i <= |base|
    ensures FillFrom(cur, base, i, policy).Err? ==>
      FillFrom(cur, base, i, policy).error == (if policy == Strict then ValueError else AttributeError)
    decreases Dict(base), 0, |base| - i
  {
    if i < |base| {
      var ef := EntryFill(Get(cur, base[i].key), base[i].val, policy);
      EntryFillErrorKind(Get(cur, base[i].key), base[i].val, policy);
      if ef.Ok? {
        FillFromErrorKind(Put(cur, base[i].key, ef.value), base, i + 1, policy);
      }
    }
  }

  // ---------------------------------------------------------------------
  // Well-formedness and idempotence.
  // ---------------------------------------------------------------------

  /** Every entry of `base` is already reflected in `r`: completing `r` from `base` again changes nothing. */
  ghost predicate Covers(r: seq<Entry>, base: seq<Entry>, policy: Policy)
    decreases Dict(base), 0
  {
    forall j :: 0 <= j < |base| ==> CoversEntry(Get(r, base[j].key), base[j].val, policy)
  }

  ghost predicate CoversEntry(cur: Option<Value>, v: Value, policy: Policy)
    decreases v, 1
  {
    && cur.Some?
    && (v.Dict? ==>
          (cur.value.Dict? && Covers(cur.value.entries, v.entries, policy))
          || (policy == Lenient && !cur.value.Dict? && |v.entries| == 0))
  }

  lemma {:induction false} EntryFillWellFormed(cur: Option<Value>, v: Value, policy: Policy)
    requires WellFormed(v) && (cur.Some? ==> WellFormed(cur.value))
    requires EntryFill(cur, v, policy).Ok?
    ensures WellFormed(EntryFill(cur, v, policy).value)
    ensures CoversEntry(Some(EntryFill(cur, v, policy).value), v, policy)
    decreases v, 1, 0
  {
    var x := EntryFill(cur, v, policy).value;
    if cur.None? {
      SelfCovers(v, policy);
    } else if v.Dict? && cur.value.Dict? {
      FillFromWellFormed(cur.value.entries, v.entries, 0, policy);
      assert v.entries[0..] == v.entries;
    }
  }

  lemma {:induction false} FillFromWellFormed(cur: seq<Entry>, base: seq<Entry>, i: nat, policy: Policy)
    requires i <= |base| && WellFormed(Dict(base)) && WellFormed(Dict(cur))
    requires Covers(cur, base[..i], policy)
    requires FillFrom(cur, base, i, policy).Ok?
    ensures WellFormed(Dict(FillFrom(cur, base, i, policy).value))
    ensures Covers(FillFrom(cur, base, i, policy).value, base, policy)
    decreases Dict(base), 0, |base| - i
  {
    if i == |base| {
      assert base[..i] == base;
    } else {
      var e := base[i];
      var cv := Get(cur, e.key);
      if cv.Some? {
        var p := Find(cur, e.key).value;
        assert WellFormed(cur[p].val);
      }
      EntryFillWellFormed(cv, e.val, policy);
      var x := EntryFill(cv, e.val, policy).value;
      var next := Put(cur, e.key, x);
      PutWellFormed(cur, e.key, x);
      CoversAfterPut(cur, base, i, x, policy);
      FillFromWellFormed(next, base, i + 1, policy);
    }
  }

  lemma {:induction false} CoversAfterPut(cur: seq<Entry>, base: seq<Entry>, i: nat, x: Value, policy: Policy)
    requires i < |base| && DistinctKeys(base) && DistinctKeys(cur)
    requires Covers(cur, base[..i], policy)
    requires CoversEntry(Some(x), base[i].val, policy)
    ensures Covers(Put(cur, base[i].key, x), base[..i + 1], policy)
  {
    var next := Put(cur, base[i].key, x);
    var before := base[..i];
    var done := base[..i + 1];
    forall j | 0 <= j < |done|
      ensures CoversEntry(Get(next, done[j].key), done[j].val, policy)
    {
      PutGet(cur, base[i].key, x, base[j].key);
      if j < i {
        assert done[j] == before[j] == base[j];
        assert CoversEntry(Get(cur, before[j].key), before[j].val, policy);
      }
    }
  }

  /** A well-formed value covers itself. */
  lemma {:induction false} SelfCovers(v: Value, policy: Policy)
    requires WellFormed(v)
    ensures CoversEntry(Some(v), v, policy)
    decreases v, 0
  {
    if v.Dict? {
      var es := v.entries;
      forall j | 0 <= j < |es| ensures CoversEntry(Get(es, es[j].key), es[j].val, policy) {
        GetAt(es, j);
        SelfCovers(es[j].val, policy);
      }
    }
  }

  lemma {:induction false} CoveredEntryUnchanged(cur: Option<Value>, v: Value, policy: Policy)
    requires CoversEntry(cur, v, policy) && WellFormed(cur.value)
    ensures EntryFill(cur, v, policy) == Ok(cur.value)
    decreases v, 1, 0
  {
    if v.Dict? && cur.value.Dict? {
      CoveredFromUnchanged(cur.value.entries, v.entries, 0, policy);
    }
  }

  lemma {:induction false} CoveredFromUnchanged(r: seq<Entry>, base: seq<Entry>, i: nat, policy: Policy)
    requires i <= |base| && WellFormed(Dict(r)) && Covers(r, base, policy)
    ensures FillFrom(r, base, i, policy) == Ok(r)
    decreases Dict(base), 0, |base| - i
  {
    if i < |base| {
      var cv := Get(r, base[i].key);
      var p := Find(r, base[i].key).value;
      assert WellFormed(r[p].val);
      assert CoversEntry(cv, base[i].val, policy);
      CoveredEntryUnchanged(cv, base[i].val, policy);
      PutSame(r, base[i].key);
      CoveredFromUnchanged(r, base, i + 1, policy);
    }
  }

  /** Completion keeps every dict well formed (distinct keys at every depth). */
  lemma {:induction false} FillWellFormed(d: seq<Entry>, base: seq<Entry>, policy: Policy)
    requires WellFormed(Dict(d)) && WellFormed(Dict(base))
    requires Fill(d, base, policy).Ok?
    ensures WellFormed(Dict(Fill(d, base, policy).value))
    ensures Covers(Fill(d, base, policy).value, base, policy)
  {
    assert base[..0] == [];
    FillFromWellFormed(d, base, 0, policy);
  }

  /** Completing twice from the same base is the same as completing once. */
  lemma {:induction false} FillIdempotent(d: seq<Entry>, base: seq<Entry>, policy: Policy)
    requires WellFormed(Dict(d)) && WellFormed(Dict(base))
    requires Fill(d, base, policy).Ok?
    ensures Fill(Fill(d, base, policy).value, base, policy) == Fill(d, base, policy)
  {
    var r := Fill(d, base, policy).value;
    FillWellFormed(d, base, policy);
    CoveredFromUnchanged(r, base, 0, policy);
  }
}
