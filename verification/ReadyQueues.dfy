/** Thirty-two first-in first-out queues with a cached upper bound: what the scheduler computes. */
module ReadyQueues {

  /** The highest non-empty queue at or below `k`, or -1. */
  function Top<T>(qs: seq<seq<T>>, k: int): (r: int)
    requires -1 <= k < |qs|
    ensures -1 <= r <= k
    ensures r >= 0 ==> qs[r] != []
    ensures forall i :: r < i <= k ==> qs[i] == []
  {
    if k < 0 || qs[k] != [] then k else Top(qs, k - 1)
  }

  /** The bound `h` lowered over empty queues, but never below `floor`. */
  function Tighten<T>(qs: seq<seq<T>>, h: nat, floor: nat): (r: nat)
    requires floor <= h < |qs|
    ensures floor <= r <= h
    ensures forall i :: r < i <= h ==> qs[i] == []
    ensures r > floor ==> qs[r] != []
  {
    if floor < h && qs[h] == [] then Tighten(qs, h - 1, floor) else h
  }

  /** The first queue from `k` on that holds `x`, or the number of queues. */
  function Find<T(==)>(qs: seq<seq<T>>, x: T, k: nat): (r: nat)
    requires k <= |qs|
    ensures k <= r <= |qs|
    ensures r < |qs| ==> x in qs[r]
    ensures forall i :: k <= i < r ==> x !in qs[i]
    decreases |qs| - k
  {
    if k == |qs| || x in qs[k] then k else Find(qs, x, k + 1)
  }
}
