/**
 * Snapshot selection: the snapshot whose redshift is nearest the redshift of
 * the shell's mid-point, taken from the (snapshot id, scale factor) table.
 */
module Snapshots {
  import opened Geometry

  datatype Option<T> = None | Some(value: T)

  /** One row of the scale-factor table: snapshot number and scale factor `a`. */
  datatype SnapRow = SnapRow(id: int, a: real)

  /**
   * `|1/a - 1 - zmid|` in IEEE arithmetic, where `1/0` is an infinity and so is
   * every value computed from it.
   */
  datatype Cost = Finite(v: real) | Infinite

  predicate CostLe(c: Cost, d: Cost)
  {
    d.Infinite? || (c.Finite? && c.v <= d.v)
  }

  function Abs(x: real): (r: real)
    ensures r >= 0.0 && (r == x || r == -x)
  {
    if x < 0.0 then -x else x
  }

  /** Redshift of scale factor `a` (`1/a - 1`), infinite when `a` is zero. */
  function SnapCost(a: real, zmid: real): Cost
  {
    if a == 0.0 then Infinite else Finite(Abs(1.0 / a - 1.0 - zmid))
  }

  function Costs(table: seq<SnapRow>, zmid: real): (c: seq<Cost>)
    ensures |c| == |table|
  {
    seq(|table|, k requires 0 <= k < |table| => SnapCost(table[k].a, zmid))
  }

  /** `k` is a minimum of `c` and every earlier entry is strictly larger. */
  predicate IsFirstMinimum(c: seq<Cost>, k: int)
  {
    0 <= k < |c|
    && (forall j :: 0 <= j < |c| ==> CostLe(c[k], c[j]))
    && (forall j :: 0 <= j < k ==> !CostLe(c[j], c[k]))
  }

  /** Stable argmin (`np.argmin`): the first index of a minimal entry. */
  function ArgMin(c: seq<Cost>): (k: nat)
    requires |c| > 0
    ensures IsFirstMinimum(c, k)
  {
    if |c| == 1 then 0
    else
      var front := c[..|c| - 1];
      var k := ArgMin(front);
      assert forall j :: 0 <= j < |c| - 1 ==> c[j] == front[j];
      if CostLe(c[k], c[|c| - 1]) then k else |c| - 1
  }

  /** The first minimum is unique, so IsFirstMinimum determines ArgMin. */
  lemma FirstMinimumIsUnique(c: seq<Cost>, k: int, j: int)
    requires IsFirstMinimum(c, k) && j != k
    ensures !IsFirstMinimum(c, j)
  {
    if 0 <= j < k {
      assert !CostLe(c[j], c[k]);
    } else if k < j < |c| {
      assert CostLe(c[k], c[j]);
    }
  }

  /**
   * `getnearestsnap`: the id of the first table row whose redshift is nearest
   * `zmid`; an empty table has no minimum (the source's argmin raises).
   */
  function NearestSnap(table: seq<SnapRow>, zmid: real): (r: Option<int>)
    ensures r.None? <==> |table| == 0
    ensures r.Some? ==> exists k :: IsFirstMinimum(Costs(table, zmid), k) && r.value == table[k].id
  {
    if |table| == 0 then None
    else
      var k := ArgMin(Costs(table, zmid));
      Some(table[k].id)
  }

  /**
   * Snapshot used for a shell: the one given (a fixed snapshot for every
   * shell), or else the one nearest the redshift the distance oracle
   * `redshiftAt` gives for the shell's mid-point (in Mpc, hence `/ h`).
   */
  function ResolveSnapshot(given: Option<int>, chilow: int, chiupp: int, h: real,
                           redshiftAt: real -> real, table: seq<SnapRow>): (r: Option<int>)
    requires h != 0.0
    ensures given.Some? ==> r == given
    ensures given.None? ==> (r.Some? <==> |table| > 0)
    ensures given.None? && r.Some? ==>
              exists k :: IsFirstMinimum(Costs(table, redshiftAt(ShellMid(chilow, chiupp) / h)), k)
                          && r.value == table[k].id
  {
    match given
    case Some(_) => given
    case None => NearestSnap(table, redshiftAt(ShellMid(chilow, chiupp) / h))
  }
}
