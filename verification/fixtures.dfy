/**
  The networks of the test fixtures: linear chains in which reaction `r`
  turns one molecule of species `r` into one of species `r + 1` (or into
  nothing when `r + 1` is past the last species).
 */
module Fixtures {
  import opened Wrappers
  import opened Arrays
  import opened Pyssa

  /** The row with a single 1 at column `j` (all zeros when `j` is outside `0..n-1`). */
  function UnitRow(n: nat, j: int): seq<int> {
    seq(n, s => if s == j then 1 else 0)
  }

  /** Reaction `r` consumes one molecule of species `r`. */
  function ChainReactants(nr: nat, ns: nat): (m: IntMatrix)
    ensures m.nrows == nr && m.ncols == ns
  {
    Matrix(nr, ns, seq(nr, r => UnitRow(ns, r)))
  }

  /** Reaction `r` produces one molecule of species `r + 1`. */
  function ChainProducts(nr: nat, ns: nat): (m: IntMatrix)
    ensures m.nrows == nr && m.ncols == ns
  {
    Matrix(nr, ns, seq(nr, r => UnitRow(ns, r + 1)))
  }

  /** A unit row sums to 1, and a row without its 1 sums to 0. */
  lemma {:induction false} UnitRowSum(n: nat, j: int)
    ensures RowSum(UnitRow(n, j)) == if 0 <= j < n then 1 else 0
  {
    if n > 0 {
      assert UnitRow(n, j)[1..] == UnitRow(n - 1, j - 1);
      UnitRowSum(n - 1, j - 1);
    }
  }

  /**
    Every linear chain with at least one reaction and no more reactions than
    species passes the constructor's check, given non-negative counts and one
    non-negative rate constant per reaction; each of its reactions has order 1.
   */
  lemma ChainNetworkAccepted(nr: nat, ns: nat, initState: seq<int>, kDet: seq<real>)
    requires 1 <= nr <= ns
    requires forall i :: 0 <= i < |initState| ==> initState[i] >= 0
    requires |kDet| == nr && forall i :: 0 <= i < nr ==> kDet[i] >= 0.0
    ensures CheckConsistency(ChainReactants(nr, ns), ChainProducts(nr, ns), initState, kDet) == None
    ensures forall r :: 0 <= r < nr ==> RowSums(ChainReactants(nr, ns))[r] == 1
  {
    var react, prod := ChainReactants(nr, ns), ChainProducts(nr, ns);
    forall r | 0 <= r < nr ensures RowSum(react.rows[r]) == 1 {
      UnitRowSum(ns, r);
    }
    forall e ensures Holds(e, react, prod, initState, kDet) {
      match e
      case OrderTooHigh =>
      case _ =>
    }
  }

  /** The network of the test fixture `setup_basic` (A to B to C) passes the check. */
  lemma BasicFixtureAccepted()
    ensures CheckConsistency(
      Matrix(2, 3, [[1, 0, 0], [0, 1, 0]]),
      Matrix(2, 3, [[0, 1, 0], [0, 0, 1]]),
      [100, 0, 0],
      [1.0, 1.0]) == None
  {
    assert UnitRow(3, 0) == [1, 0, 0] && UnitRow(3, 1) == [0, 1, 0] && UnitRow(3, 2) == [0, 0, 1];
    assert ChainReactants(2, 3) == Matrix(2, 3, [[1, 0, 0], [0, 1, 0]]);
    assert ChainProducts(2, 3) == Matrix(2, 3, [[0, 1, 0], [0, 0, 1]]);
    ChainNetworkAccepted(2, 3, [100, 0, 0], [1.0, 1.0]);
  }

  /** The network of the test fixture `setup_large` (a chain of five species ending in decay) passes the check. */
  lemma LargeFixtureAccepted()
    ensures CheckConsistency(
      Matrix(5, 5, [[1, 0, 0, 0, 0], [0, 1, 0, 0, 0], [0, 0, 1, 0, 0], [0, 0, 0, 1, 0], [0, 0, 0, 0, 1]]),
      Matrix(5, 5, [[0, 1, 0, 0, 0], [0, 0, 1, 0, 0], [0, 0, 0, 1, 0], [0, 0, 0, 0, 1], [0, 0, 0, 0, 0]]),
      [10, 0, 0, 0, 0],
      [1.0, 1.0, 1.0, 1.0, 1.0]) == None
  {
    assert UnitRow(5, 0) == [1, 0, 0, 0, 0] && UnitRow(5, 1) == [0, 1, 0, 0, 0] && UnitRow(5, 2) == [0, 0, 1, 0, 0];
    assert UnitRow(5, 3) == [0, 0, 0, 1, 0] && UnitRow(5, 4) == [0, 0, 0, 0, 1] && UnitRow(5, 5) == [0, 0, 0, 0, 0];
    assert ChainReactants(5, 5)
        == Matrix(5, 5, [[1, 0, 0, 0, 0], [0, 1, 0, 0, 0], [0, 0, 1, 0, 0], [0, 0, 0, 1, 0], [0, 0, 0, 0, 1]]);
    assert ChainProducts(5, 5)
        == Matrix(5, 5, [[0, 1, 0, 0, 0], [0, 0, 1, 0, 0], [0, 0, 0, 1, 0], [0, 0, 0, 0, 1], [0, 0, 0, 0, 0]]);
    ChainNetworkAccepted(5, 5, [10, 0, 0, 0, 0], [1.0, 1.0, 1.0, 1.0, 1.0]);
  }
}
