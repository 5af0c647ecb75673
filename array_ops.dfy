/**
 * The two JavaScript array operations the player relies on, with their
 * built-in semantics written out: `indexOf` (first occurrence, -1 when
 * absent) and `splice(start, 1)` (a negative start counts from the end).
 */
module ArrayOps {

  /** `s.indexOf(x)`: the position of the first occurrence of `x`, or -1. */
  function IndexOf<T(==)>(s: seq<T>, x: T): (r: int)
    ensures -1 <= r < |s|
    ensures r == -1 <==> x !in s
    ensures 0 <= r ==> s[r] == x && forall j :: 0 <= j < r ==> s[j] != x
  {
    IndexFrom(s, x, 0)
  }

  /** The search `indexOf` performs, from position `i` on. */
  function IndexFrom<T(==)>(s: seq<T>, x: T, i: nat): (r: int)
    requires i <= |s|
    ensures r == -1 || i <= r < |s|
    ensures r == -1 ==> forall j :: i <= j < |s| ==> s[j] != x
    ensures r != -1 ==> s[r] == x && forall j :: i <= j < r ==> s[j] != x
    decreases |s| - i
  {
    if i == |s| then -1
    else if s[i] == x then i
    else IndexFrom(s, x, i + 1)
  }

  /** The element at position `i`; distinctness is stated through it so that it is applied only where a proof names it. */
  function At<T>(s: seq<T>, i: nat): T
    requires i < |s|
  {
    s[i]
  }

  /** No element occurs twice in `s`. */
  predicate Distinct<T(==)>(s: seq<T>) {
    forall i, j :: 0 <= i < j < |s| ==> At(s, i) != At(s, j)
  }

  /** In a sequence without repetitions, `indexOf` finds the position an element sits at. */
  lemma IndexOfDistinct<T>(s: seq<T>, j: nat)
    requires j < |s| && Distinct(s)
    ensures IndexOf(s, s[j]) == j
  {
    var r := IndexOf(s, s[j]);
    assert s[j] in s;
    assert At(s, r) == At(s, j);
  }

  /** The index `splice(start, ...)` actually starts at. */
  function SpliceStart(len: nat, start: int): (a: nat)
    ensures a <= len
    ensures 0 <= start <= len ==> a == start
    ensures -(len as int) <= start < 0 ==> a == len + start
    ensures start > len ==> a == len
    ensures start < -(len as int) ==> a == 0
  {
    if start < 0 then (if len + start < 0 then 0 else len + start)
    else if start > len then len
    else start
  }

  /** The contents of `s` after `s.splice(start, 1)`. */
  function SpliceOne<T>(s: seq<T>, start: int): (r: seq<T>)
    ensures var a := SpliceStart(|s|, start);
      if a < |s| then |r| == |s| - 1 && r[..a] == s[..a] && r[a..] == s[a + 1..]
      else r == s
  {
    var a := SpliceStart(|s|, start);
    if a < |s| then s[..a] + s[a + 1..] else s
  }
}
