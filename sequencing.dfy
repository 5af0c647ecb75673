/**
 * Next-track sequencing of the player: the shuffle walk `nextRandomNum`,
 * the successor under each order, and the `ended` handler's decision table
 * combining the loop mode with the order.
 */
module Sequencing {
  import opened ArrayOps

  /** `options.loop`: 'none', 'one' or 'all'. */
  datatype Loop = LoopNone | LoopOne | LoopAll

  /** `options.order`: 'list' (playlist order) or 'random' (the shuffle order). */
  datatype Order = List | Random

  /** `s` lists each of 0, 1, ..., n-1 exactly once (what the shuffle order holds). */
  predicate IsPermutation(s: seq<nat>, n: nat) {
    && |s| == n
    && (forall i :: 0 <= i < n ==> s[i] < n)
    && (forall v :: 0 <= v < n ==> v in s)
    && Distinct(s)
  }

  /** The track index the player starts on: the first shuffle entry in random order, else 0. */
  function StartIndex(order: Order, randomOrder: seq<nat>, len: nat): (r: nat)
    requires IsPermutation(randomOrder, len) && len > 0
    ensures r < len
    ensures order == List ==> r == 0
    ensures order == Random ==> IndexOf(randomOrder, r) == 0
  {
    IndexOfDistinct(randomOrder, 0);
    if order == Random then randomOrder[0] else 0
  }

  /**
   * `nextRandomNum`: the entry that follows the current index in the
   * shuffle order, wrapping from its last entry to its first; 0 for a
   * playlist of at most one track.
   */
  function NextRandomNum(randomOrder: seq<nat>, len: nat, index: nat): (r: nat)
    requires IsPermutation(randomOrder, len)
    ensures len <= 1 ==> r == 0
    ensures len > 0 ==> r < len
  {
    if len > 1 then
      var position := IndexOf(randomOrder, index);
      if position == |randomOrder| - 1 then randomOrder[0]
      else randomOrder[position + 1]
    else 0
  }

  /** Where a track sits in the traversal: its index in list order, its shuffle position in random order. */
  function Position(order: Order, randomOrder: seq<nat>, len: nat, x: nat): (p: nat)
    requires IsPermutation(randomOrder, len) && x < len
    ensures p < len
  {
    if order == List then x else IndexOf(randomOrder, x)
  }

  /** The track at a traversal position; the inverse of Position. */
  function TrackAt(order: Order, randomOrder: seq<nat>, len: nat, p: nat): (x: nat)
    requires IsPermutation(randomOrder, len) && p < len
    ensures x < len
    ensures Position(order, randomOrder, len, x) == p
  {
    if order == List then p
    else
      IndexOfDistinct(randomOrder, p);
      randomOrder[p]
  }

  /**
   * The index the `ended` handler moves to outside loop 'one': in list
   * order `(index + 1) % length`, written here as NextPosition (equal by
   * ListNextIsModulo); in random order `nextRandomNum()`.
   */
  function SourceNext(order: Order, randomOrder: seq<nat>, len: nat, index: nat): (r: nat)
    requires IsPermutation(randomOrder, len) && index < len
    ensures r < len
  {
    match order
    case List => NextPosition(index, len)
    case Random => NextRandomNum(randomOrder, len, index)
  }

  /** What the `ended` handler does: the index it switches to and whether it then plays (true) or pauses (false). */
  datatype Step = Step(next: nat, resume: bool)

  function EndedStep(loop: Loop, order: Order, randomOrder: seq<nat>, len: nat, index: nat): (s: Step)
    requires IsPermutation(randomOrder, len) && index < len
    ensures s.next < len
  {
    match loop
    case LoopNone =>
      (match order
       case List => Step(SourceNext(order, randomOrder, len, index), index < len - 1)
       case Random => Step(SourceNext(order, randomOrder, len, index), IndexOf(randomOrder, index) < |randomOrder| - 1))
    case LoopOne => Step(index, true)
    case LoopAll => Step(SourceNext(order, randomOrder, len, index), true)
  }

  // ---------------------------------------------------------------------
  // The traversal and its successor

  /** One traversal position further on, wrapping from the last position to the first. */
  function NextPosition(p: nat, len: nat): (q: nat)
    requires p < len
    ensures q < len
  {
    if p == len - 1 then 0 else p + 1
  }

  /** The track one traversal position after `index`: the reference the handler's computation is checked against. */
  function Successor(order: Order, randomOrder: seq<nat>, len: nat, index: nat): (r: nat)
    requires IsPermutation(randomOrder, len) && index < len
    ensures r < len
    ensures Position(order, randomOrder, len, r) == NextPosition(Position(order, randomOrder, len, index), len)
  {
    TrackAt(order, randomOrder, len, NextPosition(Position(order, randomOrder, len, index), len))
  }

  /** `nextRandomNum` moves one step forward along the shuffle order, wrapping from its last entry to its first. */
  lemma NextRandomNumAdvances(randomOrder: seq<nat>, len: nat, index: nat)
    requires IsPermutation(randomOrder, len) && index < len
    ensures var p := IndexOf(randomOrder, index);
      && 0 <= p < len
      && NextRandomNum(randomOrder, len, index) == randomOrder[NextPosition(p, len)]
  {
    assert index in randomOrder;
    if len == 1 {
      assert randomOrder[0] < 1;
    }
  }

  /** The entry after the current index's shuffle position, and the first entry after the last one. */
  lemma NextRandomNumWraps(randomOrder: seq<nat>, len: nat, index: nat)
    requires IsPermutation(randomOrder, len) && index < len
    ensures var p := IndexOf(randomOrder, index);
      && (len > 1 && p < len - 1 ==> NextRandomNum(randomOrder, len, index) == randomOrder[p + 1])
      && (p == len - 1 ==> NextRandomNum(randomOrder, len, index) == randomOrder[0])
  {
    NextRandomNumAdvances(randomOrder, len, index);
  }

  /** The handler's `(index + 1) % length` and `nextRandomNum()` both move one traversal position on. */
  lemma SourceNextIsSuccessor(order: Order, randomOrder: seq<nat>, len: nat, index: nat)
    requires IsPermutation(randomOrder, len) && index < len
    ensures SourceNext(order, randomOrder, len, index) == Successor(order, randomOrder, len, index)
  {
    if order == Random {
      NextRandomNumAdvances(randomOrder, len, index);
    } else {
      ListNextIsModulo(index, len);
    }
  }

  /** `(index + 1) % length` is one list position on. */
  lemma ListNextIsModulo(index: nat, len: nat)
    requires index < len
    ensures (index + 1) % len == NextPosition(index, len)
  {
    if index + 1 == len {
      assert (index + 1) % len == (len * 1 + 0) % len;
    }
  }

  /** The track reached after `k` successive advances from `start`. */
  function Advance(order: Order, randomOrder: seq<nat>, len: nat, start: nat, k: nat): (r: nat)
    requires IsPermutation(randomOrder, len) && start < len
    ensures r < len
  {
    if k == 0 then start
    else Successor(order, randomOrder, len, Advance(order, randomOrder, len, start, k - 1))
  }

  /** Position `x` taken modulo `len`, for `x` below `2 * len`. */
  function Wrap(x: nat, len: nat): nat {
    if x < len then x else x - len
  }

  /** Within one round, `k` advances move `k` traversal positions forward, wrapping once past the end. */
  lemma {:induction false} AdvancePosition(order: Order, randomOrder: seq<nat>, len: nat, start: nat, k: nat)
    requires IsPermutation(randomOrder, len) && start < len && k <= len
    ensures Position(order, randomOrder, len, Advance(order, randomOrder, len, start, k))
         == Wrap(Position(order, randomOrder, len, start) + k, len)
  {
    if k > 0 {
      AdvancePosition(order, randomOrder, len, start, k - 1);
      WrapStep(Position(order, randomOrder, len, start), k, len);
    }
  }

  /** One position on from `k - 1` wrapped steps is `k` wrapped steps. */
  lemma WrapStep(p0: nat, k: nat, len: nat)
    requires p0 < len && 0 < k <= len
    ensures NextPosition(Wrap(p0 + (k - 1), len), len) == Wrap(p0 + k, len)
  {
  }

  /** The first `len` tracks visited when advancing from `start`. */
  function Tour(order: Order, randomOrder: seq<nat>, len: nat, start: nat): (t: seq<nat>)
    requires IsPermutation(randomOrder, len) && start < len
    ensures |t| == len
    ensures forall k :: 0 <= k < len ==> t[k] == Advance(order, randomOrder, len, start, k)
  {
    seq(len, k requires 0 <= k < len => Advance(order, randomOrder, len, start, k))
  }

  /**
   * Full cycle: advancing `len` times from any track visits every track
   * exactly once and comes back to where it started, in list order and in
   * random order alike.
   */
  lemma FullCycle(order: Order, randomOrder: seq<nat>, len: nat, start: nat)
    requires IsPermutation(randomOrder, len) && start < len
    ensures IsPermutation(Tour(order, randomOrder, len, start), len)
    ensures Advance(order, randomOrder, len, start, len) == start
  {
    TourDistinct(order, randomOrder, len, start);
    TourCovers(order, randomOrder, len, start);
    AdvancePosition(order, randomOrder, len, start, len);
    PositionInjective(order, randomOrder, len, Advance(order, randomOrder, len, start, len), start);
  }

  /** No track is visited twice within one round. */
  lemma TourDistinct(order: Order, randomOrder: seq<nat>, len: nat, start: nat)
    requires IsPermutation(randomOrder, len) && start < len
    ensures Distinct(Tour(order, randomOrder, len, start))
  {
    var t := Tour(order, randomOrder, len, start);
    forall i, j | 0 <= i < j < len
      ensures At(t, i) != At(t, j)
    {
      AdvancePosition(order, randomOrder, len, start, i);
      AdvancePosition(order, randomOrder, len, start, j);
    }
  }

  /** Every track is visited within one round. */
  lemma TourCovers(order: Order, randomOrder: seq<nat>, len: nat, start: nat)
    requires IsPermutation(randomOrder, len) && start < len
    ensures forall v :: 0 <= v < len ==> v in Tour(order, randomOrder, len, start)
  {
    var t := Tour(order, randomOrder, len, start);
    var p0 := Position(order, randomOrder, len, start);
    forall v | 0 <= v < len
      ensures v in t
    {
      var pv := Position(order, randomOrder, len, v);
      var k := if p0 <= pv then pv - p0 else pv + len - p0;
      AdvancePosition(order, randomOrder, len, start, k);
      PositionInjective(order, randomOrder, len, t[k], v);
    }
  }

  lemma PositionInjective(order: Order, randomOrder: seq<nat>, len: nat, x: nat, y: nat)
    requires IsPermutation(randomOrder, len) && x < len && y < len
    requires Position(order, randomOrder, len, x) == Position(order, randomOrder, len, y)
    ensures x == y
  {
    if order == Random {
      assert x in randomOrder && y in randomOrder;
    }
  }

  // ---------------------------------------------------------------------
  // The `ended` decision table

  /** Loop 'none', order 'list': advance and keep playing, except from the last track: wrap to 0 and pause. */
  lemma EndedNoneList(randomOrder: seq<nat>, len: nat, index: nat)
    requires IsPermutation(randomOrder, len) && index < len
    ensures var s := EndedStep(LoopNone, List, randomOrder, len, index);
      && (index < len - 1 ==> s.next == index + 1 && s.resume)
      && (index == len - 1 ==> s.next == 0 && !s.resume)
  {
    ListNextIsModulo(index, len);
  }

  /** Loop 'none', order 'random': advance along the shuffle; pause iff the current track was the shuffle's last. */
  lemma EndedNoneRandom(randomOrder: seq<nat>, len: nat, index: nat)
    requires IsPermutation(randomOrder, len) && index < len
    ensures var s := EndedStep(LoopNone, Random, randomOrder, len, index);
      && s.next == NextRandomNum(randomOrder, len, index)
      && (!s.resume <==> IndexOf(randomOrder, index) == len - 1)
      && (!s.resume ==> s.next == randomOrder[0])
  {
    NextRandomNumWraps(randomOrder, len, index);
  }

  /** Loop 'one': the same track again, playing, whatever the order. */
  lemma EndedOne(order: Order, randomOrder: seq<nat>, len: nat, index: nat)
    requires IsPermutation(randomOrder, len) && index < len
    ensures EndedStep(LoopOne, order, randomOrder, len, index) == Step(index, true)
  {
  }

  /** Loop 'all': the successor under the order, always playing. */
  lemma EndedAll(order: Order, randomOrder: seq<nat>, len: nat, index: nat)
    requires IsPermutation(randomOrder, len) && index < len
    ensures EndedStep(LoopAll, order, randomOrder, len, index) == Step(Successor(order, randomOrder, len, index), true)
  {
    SourceNextIsSuccessor(order, randomOrder, len, index);
  }

  /** Loop 'none' moves to the same track as loop 'all'; only the decision to keep playing differs. */
  lemma EndedNoneFollowsSuccessor(order: Order, randomOrder: seq<nat>, len: nat, index: nat)
    requires IsPermutation(randomOrder, len) && index < len
    ensures EndedStep(LoopNone, order, randomOrder, len, index).next == Successor(order, randomOrder, len, index)
    ensures !EndedStep(LoopNone, order, randomOrder, len, index).resume
        <==> Position(order, randomOrder, len, index) == len - 1
  {
    SourceNextIsSuccessor(order, randomOrder, len, index);
  }

  /** The track reached after `k` consecutive natural ends from `start`. */
  function EndedRun(loop: Loop, order: Order, randomOrder: seq<nat>, len: nat, start: nat, k: nat): (r: nat)
    requires IsPermutation(randomOrder, len) && start < len
    ensures r < len
  {
    if k == 0 then start
    else EndedStep(loop, order, randomOrder, len, EndedRun(loop, order, randomOrder, len, start, k - 1)).next
  }

  /** With loop 'one', any number of natural ends replays the starting track. */
  lemma {:induction false} LoopOneRepeats(order: Order, randomOrder: seq<nat>, len: nat, start: nat, k: nat)
    requires IsPermutation(randomOrder, len) && start < len
    ensures EndedRun(LoopOne, order, randomOrder, len, start, k) == start
    decreases k
  {
    if k > 0 {
      LoopOneRepeats(order, randomOrder, len, start, k - 1);
    }
  }

  /** With loop 'all' (or 'none', which moves identically), natural ends follow the successor walk. */
  lemma {:induction false} EndedRunAdvances(loop: Loop, order: Order, randomOrder: seq<nat>, len: nat, start: nat, k: nat)
    requires IsPermutation(randomOrder, len) && start < len && loop != LoopOne
    ensures EndedRun(loop, order, randomOrder, len, start, k) == Advance(order, randomOrder, len, start, k)
    decreases k
  {
    if k > 0 {
      var prev := EndedRun(loop, order, randomOrder, len, start, k - 1);
      EndedRunAdvances(loop, order, randomOrder, len, start, k - 1);
      EndedMovesToSuccessor(loop, order, randomOrder, len, prev);
    }
  }

  /** Outside loop 'one', a natural end moves to the successor under the order. */
  lemma EndedMovesToSuccessor(loop: Loop, order: Order, randomOrder: seq<nat>, len: nat, index: nat)
    requires IsPermutation(randomOrder, len) && index < len && loop != LoopOne
    ensures EndedStep(loop, order, randomOrder, len, index).next == Successor(order, randomOrder, len, index)
  {
    SourceNextIsSuccessor(order, randomOrder, len, index);
  }

  /** With loop 'all', `len` natural ends visit every track once and return to the start. */
  lemma LoopAllCycles(order: Order, randomOrder: seq<nat>, len: nat, start: nat)
    requires IsPermutation(randomOrder, len) && start < len
    ensures forall k :: 0 <= k < len ==> Tour(order, randomOrder, len, start)[k] == EndedRun(LoopAll, order, randomOrder, len, start, k)
    ensures IsPermutation(Tour(order, randomOrder, len, start), len)
    ensures EndedRun(LoopAll, order, randomOrder, len, start, len) == start
  {
    FullCycle(order, randomOrder, len, start);
    forall k | 0 <= k <= len
      ensures EndedRun(LoopAll, order, randomOrder, len, start, k) == Advance(order, randomOrder, len, start, k)
    {
      EndedRunAdvances(LoopAll, order, randomOrder, len, start, k);
    }
  }
}
