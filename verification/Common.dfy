/** Options, and sequences without repetition. */
module Common {

  datatype Option<+T> = None | Some(value: T)

  /** No element occurs twice. */
  ghost predicate Distinct<T>(q: seq<T>) {
    forall i, j :: 0 <= i < j < |q| ==> q[i] != q[j]
  }

  /** The sequence without any occurrence of `x`, in the same order. */
  function Without<T(==)>(q: seq<T>, x: T): (r: seq<T>)
    ensures forall y :: y in r ==> y in q && y != x
    ensures forall y :: y in q && y != x ==> y in r
    ensures x !in q ==> r == q
  {
    if q == [] then []
    else if q[0] == x then Without(q[1..], x)
    else [q[0]] + Without(q[1..], x)
  }

  lemma {:induction false} WithoutDistinct<T>(q: seq<T>, x: T)
    requires Distinct(q)
    ensures Distinct(Without(q, x))
    ensures |Without(q, x)| == |q| - (if x in q then 1 else 0)
  {
    if q != [] {
      assert forall i, j :: 0 <= i < j < |q[1..]| ==> q[1..][i] == q[i + 1] && q[1..][j] == q[j + 1];
      WithoutDistinct(q[1..], x);
      if q[0] == x {
        assert x !in q[1..];
      } else {
        assert q[0] !in q[1..];
      }
    }
  }

  /** Cutting a distinct sequence around position `i` is the same as dropping the element there. */
  lemma {:induction false} WithoutAt<T>(q: seq<T>, i: nat)
    requires Distinct(q) && i < |q|
    ensures Without(q, q[i]) == q[..i] + q[i + 1..]
  {
    if i == 0 {
      assert q[0] !in q[1..];
      assert q[..0] + q[1..] == q[1..];
    } else {
      assert q[i] != q[0];
      assert forall a, b :: 0 <= a < b < |q[1..]| ==> q[1..][a] == q[a + 1] && q[1..][b] == q[b + 1];
      WithoutAt(q[1..], i - 1);
      assert q[1..][i - 1] == q[i];
      assert q[..i] + q[i + 1..] == [q[0]] + (q[1..][..i - 1] + q[1..][i..]);
    }
  }

  lemma DistinctTail<T>(q: seq<T>)
    requires Distinct(q) && q != []
    ensures Distinct(q[1..]) && q[0] !in q[1..]
    ensures forall x :: x in q[1..] <==> x in q && x != q[0]
  {
    assert forall i :: 0 <= i < |q| - 1 ==> q[1..][i] == q[i + 1];
    assert q == [q[0]] + q[1..];
  }
}
