/**
 * sed/core/metadata.py: `MetaHandler`, a dict of metadata sections that grows
 * by `add` under a duplicate policy and records processing steps.
 */
module Metadata {
  import opened Wrappers
  import opened Values
  import opened Completion

  /** The decimal digits of `n`, as an f-string renders an int. */
  function NatToString(n: nat): (s: string)
    ensures |s| >= 1
    ensures forall c :: c in s ==> '0' <= c <= '9'
    ensures n < 10 <==> |s| == 1
    decreases n
  {
    if n < 10 then [Digit(n)] else NatToString(n / 10) + [Digit(n % 10)]
  }

  function Digit(d: nat): (c: char)
    requires d < 10
    ensures '0' <= c <= '9'
  {
    ['0', '1', '2', '3', '4', '5', '6', '7', '8', '9'][d]
  }

  /** Distinct numbers render as distinct strings. */
  lemma {:induction false} NatToStringInjective(a: nat, b: nat)
    requires NatToString(a) == NatToString(b)
    ensures a == b
    decreases a
  {
    var sa, sb := NatToString(a), NatToString(b);
    if a >= 10 && b >= 10 {
      assert sa[|sa| - 1] == sb[|sb| - 1];
      assert Digit(a % 10) == Digit(b % 10);
      assert NatToString(a / 10) == sa[..|sa| - 1] == sb[..|sb| - 1] == NatToString(b / 10);
      NatToStringInjective(a / 10, b / 10);
    } else if a < 10 && b < 10 {
      assert Digit(a) == sa[0] == sb[0] == Digit(b);
    }
  }

  /** The key `f"{name}_{i}"` tried by the append policy. */
  function Suffixed(name: string, i: nat): string
  {
    name + "_" + NatToString(i)
  }

  /** Different counters give different keys. */
  lemma {:induction false} SuffixedInjective(name: string, i: nat, j: nat)
    requires Suffixed(name, i) == Suffixed(name, j)
    ensures i == j
  {
    var si, sj := Suffixed(name, i), Suffixed(name, j);
    assert NatToString(i) == si[|name| + 1..] == sj[|name| + 1..] == NatToString(j);
    NatToStringInjective(i, j);
  }

  /** The counter search of the append policy: the least i >= 1 whose `name_i` is not a key. */
  method FirstFreeSuffix(m: seq<Entry>, name: string) returns (i: nat)
    ensures i >= 1 && Suffixed(name, i) !in Keys(m)
    ensures forall j :: 1 <= j < i ==> Suffixed(name, j) in Keys(m)
  {
    i := 1;
    while Find(m, Suffixed(name, i)).Some?
      invariant i >= 1
      invariant Tried(name, i) <= Keys(m)
      decreases |Keys(m) - Tried(name, i)|
    {
      NotTried(name, i, i);
      FewerUnseen(Keys(m), Tried(name, i), Suffixed(name, i));
      i := i + 1;
    }
    forall j | 1 <= j < i ensures Suffixed(name, j) in Keys(m) {
      WasTried(name, i, j);
    }
  }

  /** The keys the counter search has tried before reaching counter `i`. */
  ghost function Tried(name: string, i: nat): set<string>
    decreases i
  {
    if i <= 1 then {} else Tried(name, i - 1) + {Suffixed(name, i - 1)}
  }

  /** Every counter below `i` has been tried. */
  lemma {:induction false} WasTried(name: string, i: nat, j: nat)
    requires 1 <= j < i
    ensures Suffixed(name, j) in Tried(name, i)
    decreases i
  {
    if j < i - 1 {
      WasTried(name, i - 1, j);
    }
  }

  /** No counter from `i` on has been tried yet. */
  lemma {:induction false} NotTried(name: string, i: nat, k: nat)
    requires k >= i
    ensures Suffixed(name, k) !in Tried(name, i)
    decreases i
  {
    if i > 1 {
      NotTried(name, i - 1, k);
      if Suffixed(name, k) == Suffixed(name, i - 1) {
        SuffixedInjective(name, k, i - 1);
      }
    }
  }

  /** Marking one more existing key as seen leaves fewer unseen keys. */
  lemma {:induction false} FewerUnseen(keys: set<string>, seen: set<string>, s: string)
    requires s in keys && s !in seen
    ensures |keys - (seen + {s})| < |keys - seen|
  {
    assert keys - (seen + {s}) == (keys - seen) - {s};
  }

  /** The duplicate policies, plus any other string the caller passes. */
  datatype DuplicatePolicy = Raise | Overwrite | Append | Merge | Unrecognised(text: string)

  class MetaHandler {
    var m: seq<Entry>

    ghost predicate Valid()
      reads this
    {
      DistinctKeys(m)
    }

    /** `MetaHandler(meta)`: the given dict, or `{}` when none is given. */
    constructor(meta: Option<seq<Entry>>)
      requires meta.Some? ==> DistinctKeys(meta.value)
      ensures Valid()
      ensures m == (if meta.Some? then meta.value else [])
    {
      m := if meta.Some? then meta.value else [];
    }

    /** `handler[key]`: the stored section, or KeyError. */
    function GetItem(key: string): (r: Result<Value>)
      reads this
      requires Valid()
      ensures r.Ok? <==> key in Keys(m)
      ensures r.Err? ==> r.error == KeyError
      ensures r.Ok? ==> exists i :: 0 <= i < |m| && m[i] == Entry(key, r.value)
    {
      match Find(m, key)
      case None => Err(KeyError)
      case Some(i) => Ok(m[i].val)
    }

    /**
     * `add(entry, name, duplicate_policy)`. An absent name, or the overwrite
     * policy, stores the entry under `name`; raise leaves the store unchanged
     * and fails; append stores under `name_i` for the least i >= 1 not yet a
     * key; merge completes the existing section from the entry as
     * `insert_default_config` does; any other policy fails with ValueError.
     */
    method Add(entry: seq<Entry>, name: string, policy: DuplicatePolicy) returns (o: Outcome)
      requires Valid()
      modifies this
      ensures Valid()
      ensures name !in Keys(old(m)) || policy == Overwrite ==>
                o == Pass && m == Put(old(m), name, Dict(entry))
      ensures name in Keys(old(m)) && policy == Raise ==>
                o == Fail(DuplicateEntryError) && m == old(m)
      ensures name in Keys(old(m)) && policy == Append ==>
                o == Pass &&
                exists i: nat {:trigger Suffixed(name, i)} ::
                  && i >= 1
                  && Suffixed(name, i) !in Keys(old(m))
                  && (forall j :: 1 <= j < i ==> Suffixed(name, j) in Keys(old(m)))
                  && m == old(m) + [Entry(Suffixed(name, i), Dict(entry))]
      ensures name in Keys(old(m)) && policy == Merge ==>
                match EntryFill(Get(old(m), name), Dict(entry), Lenient)
                case Err(e) => o == Fail(e) && m == old(m)
                case Ok(x) => o == Pass && m == Put(old(m), name, x)
      ensures name in Keys(old(m)) && policy.Unrecognised? ==>
                o == Fail(ValueError) && m == old(m)
    {
      if Find(m, name).None? || policy == Overwrite {
        PutGet(m, name, Dict(entry), name);
        m := Put(m, name, Dict(entry));
        return Pass;
      } else if policy == Raise {
        return Fail(DuplicateEntryError);
      } else if policy == Append {
        var i := FirstFreeSuffix(m, name);
        var newName := Suffixed(name, i);
        PutGet(m, newName, Dict(entry), newName);
        m := m + [Entry(newName, Dict(entry))];
        return Pass;
      } else if policy == Merge {
        var merged := EntryFill(Get(m, name), Dict(entry), Lenient);
        if merged.Err? {
          return Fail(merged.error);
        }
        PutGet(m, name, merged.value, name);
        m := Put(m, name, merged.value);
        return Pass;
      } else {
        return Fail(ValueError);
      }
    }

    /**
     * `add_processing(method, **kwds)`: stores the keyword dict under `method`
     * inside the "processing" section, which must exist (KeyError) and be a
     * dict (TypeError for any other value).
     */
    method AddProcessing(step: string, kwds: seq<Entry>) returns (o: Outcome)
      requires Valid()
      modifies this
      ensures Valid()
      ensures Get(old(m), "processing").None? ==> o == Fail(KeyError) && m == old(m)
      ensures Get(old(m), "processing").Some? && !Get(old(m), "processing").value.Dict? ==>
                o == Fail(TypeError) && m == old(m)
      ensures Get(old(m), "processing").Some? && Get(old(m), "processing").value.Dict? ==>
                o == Pass &&
                m == Put(old(m), "processing",
                         Dict(Put(Get(old(m), "processing").value.entries, step, Dict(kwds))))
    {
      var p := Get(m, "processing");
      if p.None? {
        return Fail(KeyError);
      }
      if !p.value.Dict? {
        return Fail(TypeError);
      }
      var section := Put(p.value.entries, step, Dict(kwds));
      PutGet(m, "processing", Dict(section), "processing");
      m := Put(m, "processing", Dict(section));
      return Pass;
    }
  }

  /**
   * Merging a section into an existing dict section keeps every key and every
   * non-dict value it had, and gains exactly the keys it lacked.
   */
  lemma {:induction false} MergeKeepsAndGains(existing: seq<Entry>, entry: seq<Entry>, k: string)
    requires DistinctKeys(existing) && DistinctKeys(entry)
    requires EntryFill(Some(Dict(existing)), Dict(entry), Lenient).Ok?
    ensures EntryFill(Some(Dict(existing)), Dict(entry), Lenient).value.Dict?
    ensures Keys(EntryFill(Some(Dict(existing)), Dict(entry), Lenient).value.entries)
         == Keys(existing) + Keys(entry)
    ensures Get(existing, k).Some? && Get(existing, k).value.Leaf? ==>
              Get(EntryFill(Some(Dict(existing)), Dict(entry), Lenient).value.entries, k) == Get(existing, k)
    ensures Get(existing, k).None? ==>
              Get(EntryFill(Some(Dict(existing)), Dict(entry), Lenient).value.entries, k) == Get(entry, k)
  {
    assert EntryFill(Some(Dict(existing)), Dict(entry), Lenient)
        == Ok(Dict(Fill(existing, entry, Lenient).value));
    FillKeys(existing, entry, Lenient);
    FillGet(existing, entry, Lenient, k);
  }
}
