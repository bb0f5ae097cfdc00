/** The state a streaming completions task shares between the producer and the consumer of its stream. */
module CompletionStates {
  import opened Types

  datatype Usage = Usage(promptTokens: nat, completionTokens: nat, totalTokens: nat)

  datatype Metadata = Metadata(id: string, created: int, model: string)

  /** The contents of the state: set-once cells, and the completions of each choice by message index. */
  datatype Store<T> = Store(
    metadata: Option<Metadata>,
    completions: map<nat, map<nat, T>>,
    usage: Option<Usage>)

  function EmptyStore<T>(): Store<T> {
    Store(None, map[], None)
  }

  function WithMetadata<T>(s: Store<T>, metadata: Metadata): Store<T> {
    if s.metadata.Some? then s else s.(metadata := Some(metadata))
  }

  function WithUsage<T>(s: Store<T>, usage: Usage): Store<T> {
    if s.usage.Some? then s else s.(usage := Some(usage))
  }

  /** The completions of a choice; a choice without an entry has none. */
  function Of<T>(s: Store<T>, choice: nat): map<nat, T> {
    if choice in s.completions then s.completions[choice] else map[]
  }

  function WithCompletion<T>(s: Store<T>, choice: nat, index: nat, completion: T): Store<T> {
    s.(completions := s.completions[choice := Of(s, choice)[index := completion]])
  }

  class CompletionState<T> {
    var metadata: Option<Metadata>
    var completions: map<nat, map<nat, T>>
    var usage: Option<Usage>

    ghost function View(): Store<T>
      reads this
    {
      Store(metadata, completions, usage)
    }

    constructor ()
      ensures View() == EmptyStore()
    {
      metadata, completions, usage := None, map[], None;
    }

    /** Only the first call has an effect. */
    method SetMetadata(value: Metadata)
      modifies this
      ensures View() == WithMetadata(old(View()), value)
      ensures metadata == if old(metadata).None? then Some(value) else old(metadata)
    {
      if metadata.None? {
        metadata := Some(value);
      }
    }

    /** Only the first call has an effect. */
    method SetUsage(value: Usage)
      modifies this
      ensures View() == WithUsage(old(View()), value)
      ensures usage == if old(usage).None? then Some(value) else old(usage)
    {
      if usage.None? {
        usage := Some(value);
      }
    }

    method InsertCompletion(choice: nat, index: nat, completion: T)
      modifies this
      ensures View() == WithCompletion(old(View()), choice, index, completion)
      ensures choice in completions && index in completions[choice] && completions[choice][index] == completion
      ensures forall c, i :: c in old(completions) && i in old(completions[c]) && (c != choice || i != index) ==>
                c in completions && i in completions[c] && completions[c][i] == old(completions[c])[i]
    {
      if choice in completions {
        var entry := completions[choice];
        completions := completions[choice := entry[index := completion]];
      } else {
        completions := completions[choice := map[index := completion]];
      }
    }
  }

  // ---------------------------------------------------------------------------------------------
  // Looking completions up by message index

  /** The values at the indices from lo up to but not including hi, in index order. */
  function Range<T>(m: map<nat, T>, lo: nat, hi: nat): seq<T>
    decreases hi
  {
    if hi <= lo then []
    else if hi - 1 in m then Range(m, lo, hi - 1) + [m[hi - 1]]
    else Range(m, lo, hi - 1)
  }

  ghost predicate IsLargest(k: nat, keys: set<nat>) {
    k in keys && forall j :: j in keys ==> j <= k
  }

  lemma {:induction false} LargestKeyExists(keys: set<nat>)
    requires keys != {}
    ensures exists k: nat :: IsLargest(k, keys)
  {
    var x :| x in keys;
    if keys == {x} {
      assert IsLargest(x, keys);
    } else {
      var rest := keys - {x};
      LargestKeyExists(rest);
      var y: nat :| IsLargest(y, rest);
      assert keys == rest + {x};
      assert IsLargest(if x <= y then y else x, keys);
    }
  }

  /** The last key of an index-ordered map. */
  function LastIndex<T>(m: map<nat, T>): (k: nat)
    requires m != map[]
    ensures k in m && forall j :: j in m ==> j <= k
  {
    LargestKeyExists(m.Keys);
    assert exists k :: k in m.Keys && forall j | j in m.Keys :: j <= k by {
      var k: nat :| IsLargest(k, m.Keys);
      assert k in m.Keys;
    }
    var k :| k in m.Keys && forall j | j in m.Keys :: j <= k;
    k
  }

  /** All values in index order. */
  function Values<T>(m: map<nat, T>): seq<T> {
    if m == map[] then [] else Range(m, 0, LastIndex(m) + 1)
  }

  lemma {:induction false} RangeSplits<T>(m: map<nat, T>, lo: nat, mid: nat, hi: nat)
    requires lo <= mid <= hi
    ensures Range(m, lo, hi) == Range(m, lo, mid) + Range(m, mid, hi)
    decreases hi
  {
    if mid < hi {
      RangeSplits(m, lo, mid, hi - 1);
    }
  }

  lemma {:induction false} RangeDependsOnItsIndices<T>(m: map<nat, T>, k: map<nat, T>, lo: nat, hi: nat)
    requires forall i :: lo <= i < hi ==> (i in m <==> i in k) && (i in m ==> m[i] == k[i])
    ensures Range(m, lo, hi) == Range(k, lo, hi)
    decreases hi
  {
    if lo < hi {
      RangeDependsOnItsIndices(m, k, lo, hi - 1);
    }
  }

  lemma {:induction false} RangeWithoutKeys<T>(m: map<nat, T>, lo: nat, hi: nat)
    requires forall i :: lo <= i < hi ==> i !in m
    ensures Range(m, lo, hi) == []
    decreases hi
  {
    if lo < hi {
      RangeWithoutKeys(m, lo, hi - 1);
    }
  }

  ghost predicate IsLastKeyIn<T>(m: map<nat, T>, lo: nat, hi: nat, i: nat) {
    lo <= i < hi && i in m && forall j :: i < j < hi ==> j !in m
  }

  /** A range with a key in it ends with the value of the last such key. */
  lemma {:induction false} RangeEndsAtItsLastKey<T>(m: map<nat, T>, lo: nat, hi: nat, i: nat)
    requires IsLastKeyIn(m, lo, hi, i)
    ensures Range(m, lo, hi) == Range(m, lo, i) + [m[i]]
    decreases hi
  {
    if i < hi - 1 {
      assert hi - 1 !in m;
      RangeEndsAtItsLastKey(m, lo, hi - 1, i);
    }
  }

  /** A range without a last key has no key at all. */
  lemma {:induction false} LastKeyOrNone<T>(m: map<nat, T>, lo: nat, hi: nat)
    ensures (exists i: nat :: IsLastKeyIn(m, lo, hi, i)) || forall i :: lo <= i < hi ==> i !in m
    decreases hi
  {
    if lo < hi {
      if hi - 1 in m {
        assert IsLastKeyIn(m, lo, hi, hi - 1);
      } else {
        var h := hi - 1;
        LastKeyOrNone(m, lo, h);
        if exists i: nat :: IsLastKeyIn(m, lo, h, i) {
          var i: nat :| IsLastKeyIn(m, lo, h, i);
          assert IsLastKeyIn(m, lo, hi, i);
        }
      }
    }
  }

  lemma ValuesAreAnyLongEnoughRange<T>(m: map<nat, T>, bound: nat)
    requires forall i :: i in m ==> i < bound
    ensures Values(m) == Range(m, 0, bound)
  {
    if m == map[] {
      RangeWithoutKeys(m, 0, bound);
    } else {
      RangeSplits(m, 0, LastIndex(m) + 1, bound);
      RangeWithoutKeys(m, LastIndex(m) + 1, bound);
    }
  }

  lemma {:induction false} RangeElements<T>(m: map<nat, T>, lo: nat, hi: nat)
    ensures forall v :: v in Range(m, lo, hi) ==> exists i :: lo <= i < hi && i in m && m[i] == v
    decreases hi
  {
    if lo < hi {
      RangeElements(m, lo, hi - 1);
    }
  }
}
