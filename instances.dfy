/**
 * Removal from the shared `instances` array on `destroy`. The code removes
 * with `instances.splice(instances.indexOf(this), 1)`; when the player is
 * no longer registered, `indexOf` answers -1 and `splice(-1, 1)` removes
 * the LAST registered player instead. `UnregisterAsWritten` is that code;
 * `Unregister` removes the player only when it is registered, and is what
 * the player model uses.
 */
module Instances {
  import opened ArrayOps

  /** `instances.splice(instances.indexOf(p), 1)`, as written. */
  function UnregisterAsWritten<T(==)>(instances: seq<T>, p: T): (r: seq<T>)
    ensures p in instances ==> |r| == |instances| - 1
  {
    SpliceOne(instances, IndexOf(instances, p))
  }

  /** When `p` is not registered, the as-written removal drops the last registered element. */
  lemma AsWrittenDropsLast<T>(instances: seq<T>, p: T)
    requires p !in instances && |instances| > 0
    ensures UnregisterAsWritten(instances, p) == instances[..|instances| - 1]
    ensures |UnregisterAsWritten(instances, p)| == |instances| - 1
  {
    var r := UnregisterAsWritten(instances, p);
    assert SpliceStart(|instances|, -1) == |instances| - 1;
    assert r == instances[..|instances| - 1] + instances[|instances|..];
  }

  /** Concretely: destroying player 2 a second time, with player 1 registered alone, unregisters player 1. */
  lemma SecondDestroyUnregistersAnother()
    ensures UnregisterAsWritten([1], 2) == []
  {
    AsWrittenDropsLast([1], 2);
  }

  /** Remove the first occurrence of `p`, if any. */
  function Unregister<T(==)>(instances: seq<T>, p: T): (r: seq<T>)
    ensures p !in instances ==> r == instances
    ensures p in instances ==> |r| == |instances| - 1
  {
    var i := IndexOf(instances, p);
    if i < 0 then instances
    else
      assert instances == instances[..i] + [p] + instances[i + 1..];
      instances[..i] + instances[i + 1..]
  }

  /** For a registered player the removal as written and the corrected removal agree: they part only on an unregistered one. */
  lemma AsWrittenAgreesWhenRegistered<T>(instances: seq<T>, p: T)
    requires p in instances
    ensures UnregisterAsWritten(instances, p) == Unregister(instances, p)
  {
    var i := IndexOf(instances, p);
    assert SpliceStart(|instances|, i) == i;
  }

  /** Removal takes exactly one copy of `p` out of the registry, if it holds one, and nothing else. */
  lemma UnregisterTakesOneCopy<T>(instances: seq<T>, p: T)
    ensures multiset(Unregister(instances, p)) == multiset(instances) - multiset{p}
  {
    var i := IndexOf(instances, p);
    if i >= 0 {
      assert Unregister(instances, p) == instances[..i] + instances[i + 1..];
      RemoveAtMultiset(instances, i);
    } else {
      assert multiset(instances)[p] == 0;
      assert multiset(instances) - multiset{p} == multiset(instances);
    }
  }

  /** Cutting position `i` out of `s` takes one copy of `s[i]` out of its multiset. */
  lemma RemoveAtMultiset<T>(s: seq<T>, i: nat)
    requires i < |s|
    ensures multiset(s[..i] + s[i + 1..]) == multiset(s) - multiset{s[i]}
  {
    var left, right := s[..i], s[i + 1..];
    assert s == left + [s[i]] + right;
    assert multiset(s) == multiset(left) + multiset{s[i]} + multiset(right);
  }

  /** Removal lets no newcomer in and keeps every other registered element. */
  lemma UnregisterKeepsOthers<T>(instances: seq<T>, p: T)
    ensures forall q :: q in Unregister(instances, p) ==> q in instances
    ensures forall q :: q in instances && q != p ==> q in Unregister(instances, p)
  {
    var r := Unregister(instances, p);
    UnregisterTakesOneCopy(instances, p);
    forall q
      ensures q in r ==> q in instances
      ensures q in instances && q != p ==> q in r
    {
      assert q in r <==> multiset(r)[q] > 0;
      assert q in instances <==> multiset(instances)[q] > 0;
    }
  }

  /** In a registry without repetitions, removal takes the player out and leaves no repetition behind. */
  lemma UnregisterKeepsRegistryDistinct<T>(instances: seq<T>, p: T)
    requires Distinct(instances)
    ensures p !in Unregister(instances, p)
    ensures Distinct(Unregister(instances, p))
  {
    var i := IndexOf(instances, p);
    if i >= 0 {
      var r := Unregister(instances, p);
      forall a | 0 <= a < |r|
        ensures r[a] != p
      {
        UnregisterAt(instances, p, a);
        assert At(instances, Skip(a, i)) != At(instances, i);
      }
      forall a, b | 0 <= a < b < |r|
        ensures At(r, a) != At(r, b)
      {
        UnregisterAt(instances, p, a);
        UnregisterAt(instances, p, b);
        assert At(instances, Skip(a, i)) != At(instances, Skip(b, i));
      }
    }
  }

  /** Positions after the removed one `i` shift down by one. */
  function Skip(a: nat, i: nat): (j: nat)
    ensures j != i && (a < i ==> j == a) && (a >= i ==> j == a + 1)
  {
    if a < i then a else a + 1
  }

  lemma UnregisterAt<T>(instances: seq<T>, p: T, a: nat)
    requires p in instances && a < |instances| - 1
    ensures Unregister(instances, p)[a] == instances[Skip(a, IndexOf(instances, p))]
  {
    var i := IndexOf(instances, p);
    var left, right := instances[..i], instances[i + 1..];
    assert Unregister(instances, p) == left + right;
    if a < i {
      assert (left + right)[a] == left[a];
    } else {
      assert (left + right)[a] == right[a - i];
    }
  }
}
