/** The few datatypes and facts that several components share. */
module Common {
  datatype Option<+T> = None | Some(value: T)

  function Min(a: int, b: int): (m: int)
    ensures m <= a && m <= b && (m == a || m == b)
  {
    if a <= b then a else b
  }

  function Max(a: int, b: int): (m: int)
    ensures a <= m && b <= m && (m == a || m == b)
  {
    if a >= b then a else b
  }

  /** An id outside `ids`: there is always one left to hand out. */
  ghost function Fresh(ids: set<nat>): (n: nat)
    ensures forall i | i in ids :: i < n
  {
    if ids == {} then 0
    else
      var x :| x in ids;
      var n := Max(x + 1, Fresh(ids - {x}));
      assert forall i | i in ids :: i == x || i in ids - {x};
      n
  }
}
