/**
  The numpy vocabulary the simulation front end relies on: a two-dimensional
  integer array with its shape, the row sums `np.sum(a, 1)`, the reduction
  `np.any` over an elementwise test and the reduction `np.max`.
 */
module Arrays {

  /** A two-dimensional numpy array of integers, stored row by row with its `shape`. */
  datatype Matrix = Matrix(nrows: nat, ncols: nat, rows: seq<seq<int>>) {
    /** numpy arrays are rectangular: `nrows` rows of `ncols` entries each. */
    predicate WellShaped() {
      |rows| == nrows && forall r :: 0 <= r < |rows| ==> |rows[r]| == ncols
    }
  }

  type IntMatrix = m: Matrix | m.WellShaped() witness Matrix(0, 0, [])

  /** Every entry of `m` is non-negative. */
  ghost predicate NonNegativeEntries(m: IntMatrix) {
    forall r, s :: 0 <= r < m.nrows && 0 <= s < m.ncols ==> m.rows[r][s] >= 0
  }

  /** The sum of one row. */
  function RowSum(row: seq<int>): int {
    if row == [] then 0 else row[0] + RowSum(row[1..])
  }

  /** `np.sum(m, 1)`: one sum per row. */
  function RowSums(m: IntMatrix): (sums: seq<int>)
    ensures |sums| == m.nrows
    ensures forall r :: 0 <= r < m.nrows ==> sums[r] == RowSum(m.rows[r])
  {
    seq(m.nrows, r requires 0 <= r < m.nrows => RowSum(m.rows[r]))
  }

  lemma {:induction false} RowSumNonNegative(row: seq<int>)
    requires forall i :: 0 <= i < |row| ==> row[i] >= 0
    ensures RowSum(row) >= 0
  {
    if row != [] {
      RowSumNonNegative(row[1..]);
    }
  }

  /** In a row without negative entries, no single entry exceeds the row sum. */
  lemma {:induction false} EntryAtMostRowSum(row: seq<int>, k: int)
    requires forall i :: 0 <= i < |row| ==> row[i] >= 0
    requires 0 <= k < |row|
    ensures row[k] <= RowSum(row)
  {
    if k == 0 {
      RowSumNonNegative(row[1..]);
    } else {
      EntryAtMostRowSum(row[1..], k - 1);
    }
  }

  /** `np.any` of the elementwise test `p`: some element passes it. */
  function Any<T>(s: seq<T>, p: T -> bool): (b: bool)
    ensures b <==> exists i :: 0 <= i < |s| && p(s[i])
  {
    if s == [] then false
    else if p(s[0]) then true
    else
      var b' := Any(s[1..], p);
      assert b' ==> exists i :: 0 <= i < |s| && p(s[i]) by {
        if b' {
          var i :| 0 <= i < |s| - 1 && p(s[1..][i]);
          assert p(s[i + 1]);
        }
      }
      assert (exists i :: 0 <= i < |s| && p(s[i])) ==> b' by {
        if exists i :: 0 <= i < |s| && p(s[i]) {
          var i :| 0 <= i < |s| && p(s[i]);
          assert i > 0 && p(s[1..][i - 1]);
        }
      }
      b'
  }

  /** `np.any` of the elementwise test `p` over a two-dimensional array. */
  function AnyEntry(m: IntMatrix, p: int -> bool): (b: bool)
    ensures b <==> exists r, s :: 0 <= r < m.nrows && 0 <= s < m.ncols && p(m.rows[r][s])
  {
    var rowTest := (row: seq<int>) => Any(row, p);
    var b := Any(m.rows, rowTest);
    assert b ==> exists r, s :: 0 <= r < m.nrows && 0 <= s < m.ncols && p(m.rows[r][s]) by {
      if b {
        var r :| 0 <= r < |m.rows| && rowTest(m.rows[r]);
        assert Any(m.rows[r], p);
      }
    }
    assert (exists r, s :: 0 <= r < m.nrows && 0 <= s < m.ncols && p(m.rows[r][s])) ==> b by {
      if exists r, s :: 0 <= r < m.nrows && 0 <= s < m.ncols && p(m.rows[r][s]) {
        var r, s :| 0 <= r < m.nrows && 0 <= s < m.ncols && p(m.rows[r][s]);
        assert Any(m.rows[r], p);
        assert rowTest(m.rows[r]);
      }
    }
    b
  }

  /** `np.max`: an element of `s` that no element exceeds (numpy refuses an empty array). */
  function Max(s: seq<int>): (m: int)
    requires |s| > 0
    ensures forall i :: 0 <= i < |s| ==> s[i] <= m
    ensures exists i :: 0 <= i < |s| && s[i] == m
  {
    if |s| == 1 then s[0]
    else
      var rest := Max(s[1..]);
      assert forall i :: 1 <= i < |s| ==> s[i] == s[1..][i - 1];
      if s[0] >= rest then s[0] else rest
  }
}
