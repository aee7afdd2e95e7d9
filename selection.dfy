/**
 * Tracer selection: the galaxy-type filter over the catalogue and the strict
 * shell-membership filter over one replica, both in the form of `np.where`.
 */
module Selection {
  import opened Geometry

  /**
   * One catalogue row as the shell uses it: position (columns 0-2, box
   * units), velocity (columns 3-5) and galaxy type (column 9, read as a float).
   */
  datatype Tracer = Tracer(pos: Vec3, vel: Vec3, gtype: real)

  predicate StrictlyIncreasing(idx: seq<nat>)
  {
    forall i, j :: 0 <= i < j < |idx| ==> idx[i] < idx[j]
  }

  /**
   * `np.where(mask)[0]`: the indices of the elements that satisfy `keep`, all
   * of them and nothing else, in increasing order.
   */
  function Where<T>(s: seq<T>, keep: T -> bool): (idx: seq<nat>)
    ensures forall k :: 0 <= k < |idx| ==> idx[k] < |s| && keep(s[idx[k]])
    ensures forall i :: 0 <= i < |s| && keep(s[i]) ==> i in idx
    ensures StrictlyIncreasing(idx)
  {
    if |s| == 0 then []
    else
      var front := s[..|s| - 1];
      var idx := Where(front, keep);
      assert forall i :: 0 <= i < |s| - 1 ==> s[i] == front[i];
      if keep(s[|s| - 1]) then idx + [|s| - 1] else idx
  }

  /** Rows of `cat` at the given indices, in order (`d[idx, ...]`). */
  function Gather(cat: seq<Tracer>, idx: seq<nat>): (box: seq<Tracer>)
    requires forall k :: 0 <= k < |idx| ==> idx[k] < |cat|
    ensures |box| == |idx|
    ensures forall k :: 0 <= k < |idx| ==> box[k] == cat[idx[k]]
  {
    seq(|idx|, k requires 0 <= k < |idx| => cat[idx[k]])
  }

  predicate HasType(t: Tracer, galtype: int)
  {
    t.gtype == galtype as real
  }

  /**
   * Indices of the rows of galaxy type `galtype`: exactly those rows, in
   * catalogue order.
   */
  function GaltypeIndices(cat: seq<Tracer>, galtype: int): (idx: seq<nat>)
    ensures forall k :: 0 <= k < |idx| ==> idx[k] < |cat| && HasType(cat[idx[k]], galtype)
    ensures forall i :: 0 <= i < |cat| && HasType(cat[i], galtype) ==> i in idx
    ensures StrictlyIncreasing(idx)
  {
    Where(cat, (t: Tracer) => HasType(t, galtype))
  }

  /**
   * The box population of one galaxy type: every row of that type, each once,
   * in catalogue order, and no other row.
   */
  function BoxPopulation(cat: seq<Tracer>, galtype: int): (box: seq<Tracer>)
    ensures |box| == |GaltypeIndices(cat, galtype)|
    ensures forall k :: 0 <= k < |box| ==> box[k] == cat[GaltypeIndices(cat, galtype)[k]]
    ensures forall k :: 0 <= k < |box| ==> HasType(box[k], galtype)
    ensures forall i :: 0 <= i < |cat| && HasType(cat[i], galtype) ==> cat[i] in box
  {
    var idx := GaltypeIndices(cat, galtype);
    var box := Gather(cat, idx);
    assert forall i :: 0 <= i < |cat| && HasType(cat[i], galtype) ==> cat[i] in box by {
      forall i | 0 <= i < |cat| && HasType(cat[i], galtype) ensures cat[i] in box {
        var k :| 0 <= k < |idx| && idx[k] == i;
        assert box[k] == cat[i];
      }
    }
    box
  }

  /** Squared distance of tracer `t` from the observer in replica `off`. */
  function ReplicaDist2(t: Tracer, boxL: int, off: Lattice): real
  {
    Norm2(Translate(t.pos, boxL, off))
  }

  /**
   * Indices of the tracers of `box` that lie strictly inside the shell once
   * moved into replica `off`: all of them, in order, and no other.
   */
  function ShellIndices(box: seq<Tracer>, boxL: int, off: Lattice, chilow: int, chiupp: int): (idx: seq<nat>)
    ensures forall k :: 0 <= k < |idx| ==>
              idx[k] < |box| && InShell(chilow, chiupp, ReplicaDist2(box[idx[k]], boxL, off))
    ensures forall i :: 0 <= i < |box| && InShell(chilow, chiupp, ReplicaDist2(box[i], boxL, off)) ==> i in idx
    ensures StrictlyIncreasing(idx)
  {
    Where(box, (t: Tracer) => InShell(chilow, chiupp, ReplicaDist2(t, boxL, off)))
  }

  /** Two increasing index lists with the same members are the same list. */
  lemma {:induction false} IncreasingUnique(a: seq<nat>, b: seq<nat>)
    requires StrictlyIncreasing(a) && StrictlyIncreasing(b)
    requires forall i :: i in a <==> i in b
    ensures a == b
    decreases |a|
  {
    assert |a| > 0 ==> a[0] in b;
    assert |b| > 0 ==> b[0] in a;
    if |a| > 0 && |b| > 0 {
      assert a[0] == b[0];
      assert a == [a[0]] + a[1..] && b == [b[0]] + b[1..];
      forall i ensures i in a[1..] <==> i in b[1..] {
        if i in a[1..] {
          var k :| 1 <= k < |a| && a[k] == i;
          assert i > a[0] && i in b;
        }
        if i in b[1..] {
          var k :| 1 <= k < |b| && b[k] == i;
          assert i > b[0] && i in a;
        }
      }
      IncreasingUnique(a[1..], b[1..]);
    }
  }

  /**
   * The filter is determined by what it selects: any increasing list of
   * exactly the selected indices is Where's result.
   */
  lemma WhereIsUnique<T>(s: seq<T>, keep: T -> bool, idx: seq<nat>)
    requires StrictlyIncreasing(idx)
    requires forall i: nat :: i in idx <==> i < |s| && keep(s[i])
    ensures idx == Where(s, keep)
  {
    var w := Where(s, keep);
    forall i ensures i in w <==> i in idx {
      if i in w {
        var k :| 0 <= k < |w| && w[k] == i;
      }
    }
    IncreasingUnique(w, idx);
  }
}
