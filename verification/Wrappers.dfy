// A nullable column, instants, and the small helpers shared by every module.
module Wrappers {
  datatype Option<+T> = None | Some(value: T)

  type Time = int

  function Max(a: int, b: int): int {
    if a < b then b else a
  }

  function Min(a: int, b: int): int {
    if a < b then a else b
  }

  function One(condition: bool): nat {
    if condition then 1 else 0
  }

  lemma SubsetSize<T>(a: set<T>, b: set<T>)
    requires a <= b
    ensures |a| <= |b|
  {
    assert b == a + (b - a);
  }

  lemma {:induction false} FreshFor(ids: set<nat>) returns (x: nat)
    ensures forall y :: y in ids ==> y < x
    decreases |ids|
  {
    x := 0;
    if ids != {} {
      var y :| y in ids;
      var z := FreshFor(ids - {y});
      x := if y < z then z else y + 1;
      assert forall i :: i in ids ==> i == y || i in ids - {y};
    }
  }
}
