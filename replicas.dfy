/**
 * Periodic replicas of the simulation box: the cube of offsets scanned for one
 * shell, in the order of the nested loops, and the corner test that culls
 * replicas lying wholly inside or wholly outside the shell.
 */
module Replicas {
  import opened Geometry

  // ---------------------------------------------------------------------
  // Enumeration of the offsets [-n, n)^3, x-major
  // ---------------------------------------------------------------------

  /** Offsets (x, y, z) for z in [-n, zhi), in increasing z. */
  function ZRun(n: int, x: int, y: int, zhi: int): seq<Lattice>
    decreases zhi + n
  {
    if zhi <= -n then [] else ZRun(n, x, y, zhi - 1) + [Lattice(x, y, zhi - 1)]
  }

  /** Offsets (x, y, z) for y in [-n, yhi) and z in [-n, n), y-major. */
  function YRun(n: int, x: int, yhi: int): seq<Lattice>
    decreases yhi + n
  {
    if yhi <= -n then [] else YRun(n, x, yhi - 1) + ZRun(n, x, yhi - 1, n)
  }

  /** Offsets (x, y, z) for x in [-n, xhi) and y, z in [-n, n), x-major. */
  function XRun(n: int, xhi: int): seq<Lattice>
    decreases xhi + n
  {
    if xhi <= -n then [] else XRun(n, xhi - 1) + YRun(n, xhi - 1, n)
  }

  /** Every replica offset the shell loop visits, in visiting order. */
  function ReplicaOffsets(ntiles: int): seq<Lattice>
  {
    XRun(ntiles, ntiles)
  }

  predicate InCube(n: int, o: Lattice)
  {
    -n <= o.x < n && -n <= o.y < n && -n <= o.z < n
  }

  /** Lexicographic order on offsets, x first. */
  predicate LexLess(a: Lattice, b: Lattice)
  {
    a.x < b.x || (a.x == b.x && (a.y < b.y || (a.y == b.y && a.z < b.z)))
  }

  predicate LexIncreasing(s: seq<Lattice>)
  {
    forall i, j :: 0 <= i < j < |s| ==> LexLess(s[i], s[j])
  }

  lemma ConcatIncreasing(a: seq<Lattice>, b: seq<Lattice>)
    requires LexIncreasing(a) && LexIncreasing(b)
    requires forall i, j :: 0 <= i < |a| && 0 <= j < |b| ==> LexLess(a[i], b[j])
    ensures LexIncreasing(a + b)
  {
    forall i, j | 0 <= i < j < |a + b| ensures LexLess((a + b)[i], (a + b)[j]) {
      if j < |a| {
        assert (a + b)[i] == a[i] && (a + b)[j] == a[j];
      } else if i >= |a| {
        assert (a + b)[i] == b[i - |a|] && (a + b)[j] == b[j - |a|];
      } else {
        assert (a + b)[i] == a[i] && (a + b)[j] == b[j - |a|];
      }
    }
  }

  lemma {:induction false} ZRunFacts(n: int, x: int, y: int, zhi: int)
    ensures forall o :: o in ZRun(n, x, y, zhi) <==> o.x == x && o.y == y && -n <= o.z < zhi
    ensures LexIncreasing(ZRun(n, x, y, zhi))
    decreases zhi + n
  {
    if zhi > -n {
      ZRunFacts(n, x, y, zhi - 1);
      var a := ZRun(n, x, y, zhi - 1);
      assert forall i :: 0 <= i < |a| ==> a[i] in a;
      ConcatIncreasing(a, [Lattice(x, y, zhi - 1)]);
    }
  }

  lemma {:induction false} ZRunLength(n: int, x: int, y: int, zhi: int)
    ensures |ZRun(n, x, y, zhi)| == if zhi <= -n then 0 else zhi + n
    decreases zhi + n
  {
    if zhi > -n {
      ZRunLength(n, x, y, zhi - 1);
    }
  }

  lemma {:induction false} YRunLength(n: int, x: int, yhi: int)
    ensures |YRun(n, x, yhi)| == if yhi <= -n || n <= 0 then 0 else (yhi + n) * (2 * n)
    decreases yhi + n
  {
    if yhi > -n {
      YRunLength(n, x, yhi - 1);
      ZRunLength(n, x, yhi - 1, n);
      if n > 0 {
        var m := 2 * n;
        assert (yhi - 1 + n) * m + m == (yhi + n) * m;
      }
    }
  }

  lemma {:induction false} YRunMember(n: int, x: int, yhi: int, o: Lattice)
    ensures o in YRun(n, x, yhi) <==> o.x == x && -n <= o.y < yhi && -n <= o.z < n
    decreases yhi + n
  {
    if yhi > -n {
      YRunMember(n, x, yhi - 1, o);
      ZRunFacts(n, x, yhi - 1, n);
      YRunMemberStep(n, x, yhi, o);
    } else {
      YRunMemberEmpty(n, x, yhi, o);
    }
  }

  lemma YRunMemberStep(n: int, x: int, yhi: int, o: Lattice)
    requires yhi > -n
    requires o in YRun(n, x, yhi - 1) <==> o.x == x && -n <= o.y < yhi - 1 && -n <= o.z < n
    requires o in ZRun(n, x, yhi - 1, n) <==> o.x == x && o.y == yhi - 1 && -n <= o.z < n
    ensures o in YRun(n, x, yhi) <==> o.x == x && -n <= o.y < yhi && -n <= o.z < n
  {
    assert YRun(n, x, yhi) == YRun(n, x, yhi - 1) + ZRun(n, x, yhi - 1, n);
  }

  lemma YRunMemberEmpty(n: int, x: int, yhi: int, o: Lattice)
    requires yhi <= -n
    ensures o in YRun(n, x, yhi) <==> o.x == x && -n <= o.y < yhi && -n <= o.z < n
  {
  }

  lemma YRunMembers(n: int, x: int, yhi: int)
    ensures forall o :: o in YRun(n, x, yhi) <==> o.x == x && -n <= o.y < yhi && -n <= o.z < n
  {
    forall o ensures o in YRun(n, x, yhi) <==> o.x == x && -n <= o.y < yhi && -n <= o.z < n {
      YRunMember(n, x, yhi, o);
    }
  }

  lemma {:induction false} YRunIncreasing(n: int, x: int, yhi: int)
    ensures LexIncreasing(YRun(n, x, yhi))
    decreases yhi + n
  {
    if yhi > -n {
      YRunIncreasing(n, x, yhi - 1);
      YRunMembers(n, x, yhi - 1);
      ZRunFacts(n, x, yhi - 1, n);
      var a, b := YRun(n, x, yhi - 1), ZRun(n, x, yhi - 1, n);
      forall i, j | 0 <= i < |a| && 0 <= j < |b| ensures LexLess(a[i], b[j]) {
        assert a[i] in a && b[j] in b;
      }
      ConcatIncreasing(a, b);
    }
  }

  lemma {:induction false} XRunLength(n: int, xhi: int)
    ensures |XRun(n, xhi)| == if xhi <= -n || n <= 0 then 0 else (xhi + n) * ((2 * n) * (2 * n))
    decreases xhi + n
  {
    if xhi > -n {
      XRunLength(n, xhi - 1);
      YRunLength(n, xhi - 1, n);
      if n > 0 {
        var m := (2 * n) * (2 * n);
        assert (n + n) * (2 * n) == m;
        assert (xhi - 1 + n) * m + m == (xhi + n) * m;
      }
    }
  }

  lemma {:induction false} XRunMember(n: int, xhi: int, o: Lattice)
    ensures o in XRun(n, xhi) <==> -n <= o.x < xhi && -n <= o.y < n && -n <= o.z < n
    decreases xhi + n
  {
    if xhi > -n {
      XRunMember(n, xhi - 1, o);
      YRunMember(n, xhi - 1, n, o);
      XRunMemberStep(n, xhi, o);
    } else {
      XRunMemberEmpty(n, xhi, o);
    }
  }

  lemma XRunMemberStep(n: int, xhi: int, o: Lattice)
    requires xhi > -n
    requires o in XRun(n, xhi - 1) <==> -n <= o.x < xhi - 1 && -n <= o.y < n && -n <= o.z < n
    requires o in YRun(n, xhi - 1, n) <==> o.x == xhi - 1 && -n <= o.y < n && -n <= o.z < n
    ensures o in XRun(n, xhi) <==> -n <= o.x < xhi && -n <= o.y < n && -n <= o.z < n
  {
    assert XRun(n, xhi) == XRun(n, xhi - 1) + YRun(n, xhi - 1, n);
  }

  lemma XRunMemberEmpty(n: int, xhi: int, o: Lattice)
    requires xhi <= -n
    ensures o in XRun(n, xhi) <==> -n <= o.x < xhi && -n <= o.y < n && -n <= o.z < n
  {
  }

  lemma XRunMembers(n: int, xhi: int)
    ensures forall o :: o in XRun(n, xhi) <==> -n <= o.x < xhi && -n <= o.y < n && -n <= o.z < n
  {
    forall o ensures o in XRun(n, xhi) <==> -n <= o.x < xhi && -n <= o.y < n && -n <= o.z < n {
      XRunMember(n, xhi, o);
    }
  }

  lemma {:induction false} XRunIncreasing(n: int, xhi: int)
    ensures LexIncreasing(XRun(n, xhi))
    decreases xhi + n
  {
    if xhi > -n {
      XRunIncreasing(n, xhi - 1);
      XRunMembers(n, xhi - 1);
      YRunMembers(n, xhi - 1, n);
      YRunIncreasing(n, xhi - 1, n);
      var a, b := XRun(n, xhi - 1), YRun(n, xhi - 1, n);
      forall i, j | 0 <= i < |a| && 0 <= j < |b| ensures LexLess(a[i], b[j]) {
        assert a[i] in a && b[j] in b;
      }
      ConcatIncreasing(a, b);
    }
  }

  /**
   * The shell loop visits every offset of the cube [-ntiles, ntiles)^3 and
   * nothing else, (2 ntiles)^3 of them, each once, in x-major lexicographic
   * order (strictly increasing, hence without repetition).
   */
  lemma ReplicaOffsetsEnumerateCube(ntiles: int)
    ensures |ReplicaOffsets(ntiles)| == if ntiles <= 0 then 0 else (2 * ntiles) * (2 * ntiles) * (2 * ntiles)
    ensures forall o :: o in ReplicaOffsets(ntiles) <==> InCube(ntiles, o)
    ensures LexIncreasing(ReplicaOffsets(ntiles))
  {
    XRunLength(ntiles, ntiles);
    XRunMembers(ntiles, ntiles);
    XRunIncreasing(ntiles, ntiles);
    CubeVolume(ntiles);
  }

  lemma CubeVolume(n: int)
    ensures (n + n) * ((2 * n) * (2 * n)) == (2 * n) * (2 * n) * (2 * n)
  {
    var m := 2 * n;
    assert n + n == m;
  }

  // ---------------------------------------------------------------------
  // Corner test
  // ---------------------------------------------------------------------

  /** Corner `i` of the unit cell, in the order of the source's bvx/bvy/bvz tables. */
  function Corner(boxL: int, i: nat): Vec3
    requires i < 8
  {
    var bvx := [0, boxL, boxL, 0, 0, boxL, boxL, 0];
    var bvy := [0, 0, boxL, boxL, 0, 0, boxL, boxL];
    var bvz := [0, 0, 0, 0, boxL, boxL, boxL, boxL];
    Vec3(bvx[i] as real, bvy[i] as real, bvz[i] as real)
  }

  /** Squared distance from the observer of corner `i` of replica `off`. */
  function CornerDist2(boxL: int, off: Lattice, i: nat): real
    requires i < 8
  {
    Norm2(Translate(Corner(boxL, i), boxL, off))
  }

  function CornerDist2s(boxL: int, off: Lattice): (ds: seq<real>)
    ensures |ds| == 8
  {
    seq(8, i requires 0 <= i < 8 => CornerDist2(boxL, off, i))
  }

  /** Smallest element (`np.min`). */
  function Min(s: seq<real>): real
    requires |s| > 0
  {
    if |s| == 1 then s[0]
    else
      var rest := Min(s[1..]);
      if s[0] <= rest then s[0] else rest
  }

  /** Largest element (`np.max`). */
  function Max(s: seq<real>): real
    requires |s| > 0
  {
    if |s| == 1 then s[0]
    else
      var rest := Max(s[1..]);
      if s[0] >= rest then s[0] else rest
  }

  /** Min is an element of the sequence and no element is smaller. */
  lemma {:induction false} MinIsLeast(s: seq<real>)
    requires |s| > 0
    ensures Min(s) in s
    ensures forall i :: 0 <= i < |s| ==> Min(s) <= s[i]
    decreases |s|
  {
    if |s| > 1 {
      MinIsLeast(s[1..]);
      assert forall i :: 1 <= i < |s| ==> s[i] == s[1..][i - 1];
    }
  }

  /** Max is an element of the sequence and no element is larger. */
  lemma {:induction false} MaxIsGreatest(s: seq<real>)
    requires |s| > 0
    ensures Max(s) in s
    ensures forall i :: 0 <= i < |s| ==> s[i] <= Max(s)
    decreases |s|
  {
    if |s| > 1 {
      MaxIsGreatest(s[1..]);
      assert forall i :: 1 <= i < |s| ==> s[i] == s[1..][i - 1];
    }
  }

  /**
   * The replica is kept unless the shell's outer bound is below the nearest
   * corner (`chihigh < min r`) or its inner bound is beyond the farthest
   * corner (`chilow > max r`).
   */
  predicate SliceHit(chilow: int, chihigh: int, boxL: int, off: Lattice)
  {
    var ds := CornerDist2s(boxL, off);
    !LtRoot(chihigh as real, Min(ds)) && !RootLt(Max(ds), chilow as real)
  }

  /**
   * `checkslicehit`: fills the eight squared corner distances in a loop,
   * counts the rejecting tests in `boo`, and reports a hit when none rejects.
   */
  method CheckSliceHit(chilow: int, chihigh: int, boxL: int, off: Lattice) returns (hit: bool)
    ensures hit == SliceHit(chilow, chihigh, boxL, off)
  {
    var r := new real[8];
    for i := 0 to 8
      invariant forall k :: 0 <= k < i ==> r[k] == CornerDist2(boxL, off, k)
    {
      var c := Corner(boxL, i);
      var sx := c.x - Origin.x as real + (boxL * off.x) as real;
      var sy := c.y - Origin.y as real + (boxL * off.y) as real;
      var sz := c.z - Origin.z as real + (boxL * off.z) as real;
      r[i] := sx * sx + sy * sy + sz * sz;
    }
    assert r[..] == CornerDist2s(boxL, off);
    var boo := 0;
    if LtRoot(chihigh as real, Min(r[..])) {
      boo := boo + 1;
    }
    if RootLt(Max(r[..]), chilow as real) {
      boo := boo + 1;
    }
    hit := boo == 0;
  }

  /**
   * SliceHit is the source's test on true distances: for any eight
   * non-negative distances whose squares are the squared corner distances,
   * the replica is kept exactly when neither `chihigh < min r` nor
   * `chilow > max r`.
   */
  lemma SliceHitOnDistances(chilow: int, chihigh: int, boxL: int, off: Lattice, r: seq<real>)
    requires |r| == 8
    requires forall i :: 0 <= i < 8 ==> 0.0 <= r[i] && Sq(r[i]) == CornerDist2(boxL, off, i)
    ensures SliceHit(chilow, chihigh, boxL, off)
        <==> !(chihigh as real < Min(r)) && !(chilow as real > Max(r))
  {
    var ds := CornerDist2s(boxL, off);
    assert forall i :: 0 <= i < 8 ==> Sq(r[i]) == ds[i];
    ExtremesOfRoots(ds, r);
    MinIsLeast(r);
    MaxIsGreatest(r);
    RootCompare(chihigh as real, Min(r));
    RootCompare(chilow as real, Max(r));
  }

  /** Squaring non-negative values commutes with taking the minimum and the maximum. */
  lemma ExtremesOfRoots(ds: seq<real>, r: seq<real>)
    requires |ds| == |r| > 0
    requires forall i :: 0 <= i < |r| ==> 0.0 <= r[i] && Sq(r[i]) == ds[i]
    ensures Min(ds) == Sq(Min(r)) && Max(ds) == Sq(Max(r))
  {
    var lo, hi := Min(r), Max(r);
    MinIsLeast(r);
    MaxIsGreatest(r);
    var klo :| 0 <= klo < |r| && r[klo] == lo;
    var khi :| 0 <= khi < |r| && r[khi] == hi;
    forall i | 0 <= i < |r| ensures ds[klo] <= ds[i] <= ds[khi] {
      SquareMonotone(r[klo], r[i]);
      SquareMonotone(r[i], r[khi]);
    }
    MinIsUnique(ds, klo);
    MaxIsUnique(ds, khi);
  }

  lemma MinIsUnique(s: seq<real>, k: nat)
    requires k < |s|
    requires forall i :: 0 <= i < |s| ==> s[k] <= s[i]
    ensures Min(s) == s[k]
  {
    var m := Min(s);
    MinIsLeast(s);
    var i :| 0 <= i < |s| && s[i] == m;
  }

  lemma MaxIsUnique(s: seq<real>, k: nat)
    requires k < |s|
    requires forall i :: 0 <= i < |s| ==> s[i] <= s[k]
    ensures Max(s) == s[k]
  {
    var m := Max(s);
    MaxIsGreatest(s);
    var i :| 0 <= i < |s| && s[i] == m;
  }

  // ---------------------------------------------------------------------
  // Soundness of the corner test
  // ---------------------------------------------------------------------

  /**
   * On one axis the replica spans [boxL*k, boxL*k + boxL]. The observer's
   * coordinate 0 is never strictly inside, so the nearest end is the one
   * closer to 0 and the farthest is the other one; `NearEnd` and `FarEnd` give
   * the matching corner coordinate (0 or boxL) before translation.
   */
  function NearEnd(boxL: int, k: int): int
  {
    if k >= 0 then 0 else boxL
  }

  function FarEnd(boxL: int, k: int): int
  {
    if k >= 0 then boxL else 0
  }

  /** Translated coordinate along one axis, as Translate computes it. */
  function Shift(c: real, o: int, boxL: int, k: int): real
  {
    c - o as real + (boxL * k) as real
  }

  lemma AxisBounds(boxL: int, k: int, p: real)
    requires boxL > 0 && 0.0 <= p <= boxL as real
    ensures var t := Shift(p, 0, boxL, k);
            var tn := Shift(NearEnd(boxL, k) as real, 0, boxL, k);
            var tf := Shift(FarEnd(boxL, k) as real, 0, boxL, k);
            Sq(tn) <= Sq(t) <= Sq(tf)
  {
    var m := boxL * k;
    var t := Shift(p, 0, boxL, k);
    assert t == p + m as real;
    if k >= 0 {
      IntProductMonotone(boxL, 0, k);
      var tn, tf := m as real, boxL as real + m as real;
      assert Shift(NearEnd(boxL, k) as real, 0, boxL, k) == tn;
      assert Shift(FarEnd(boxL, k) as real, 0, boxL, k) == tf;
      SquareMonotone(tn, t);
      SquareMonotone(t, tf);
    } else {
      IntProductMonotone(boxL, k, -1);
      var tn, tf := boxL as real + m as real, m as real;
      assert Shift(NearEnd(boxL, k) as real, 0, boxL, k) == tn;
      assert Shift(FarEnd(boxL, k) as real, 0, boxL, k) == tf;
      SquareNonNegative(tn);
      SquareNonNegative(t);
      SquareNonNegative(tf);
      SquareMonotone(-tn, -t);
      SquareMonotone(-t, -tf);
    }
  }

  lemma Norm2Monotone(u: Vec3, v: Vec3)
    requires Sq(u.x) <= Sq(v.x) && Sq(u.y) <= Sq(v.y) && Sq(u.z) <= Sq(v.z)
    ensures Norm2(u) <= Norm2(v)
  {
  }

  /** The index of the corner with the given per-axis coordinates. */
  function CornerIndex(boxL: int, cx: int, cy: int, cz: int): (i: nat)
    requires cx == 0 || cx == boxL
    requires cy == 0 || cy == boxL
    requires cz == 0 || cz == boxL
    ensures i < 8 && Corner(boxL, i) == Vec3(cx as real, cy as real, cz as real)
  {
    var base := if cz == 0 then 0 else 4;
    if cx == 0 && cy == 0 then base
    else if cy == 0 then base + 1
    else if cx != 0 then base + 2
    else base + 3
  }

  /**
   * A point of the replica is no nearer than its nearest corner and no
   * farther than its farthest corner.
   */
  lemma CornersBracket(boxL: int, off: Lattice, p: Vec3)
    requires boxL > 0 && InBox(p, boxL)
    ensures Min(CornerDist2s(boxL, off)) <= Norm2(Translate(p, boxL, off))
                                        <= Max(CornerDist2s(boxL, off))
  {
    var ds := CornerDist2s(boxL, off);
    AxisBounds(boxL, off.x, p.x);
    AxisBounds(boxL, off.y, p.y);
    AxisBounds(boxL, off.z, p.z);
    var near := CornerIndex(boxL, NearEnd(boxL, off.x), NearEnd(boxL, off.y), NearEnd(boxL, off.z));
    var far := CornerIndex(boxL, FarEnd(boxL, off.x), FarEnd(boxL, off.y), FarEnd(boxL, off.z));
    var s := Translate(p, boxL, off);
    var sn := Translate(Corner(boxL, near), boxL, off);
    var sf := Translate(Corner(boxL, far), boxL, off);
    assert s == Vec3(Shift(p.x, 0, boxL, off.x), Shift(p.y, 0, boxL, off.y), Shift(p.z, 0, boxL, off.z));
    assert sn == Vec3(Shift(NearEnd(boxL, off.x) as real, 0, boxL, off.x),
                      Shift(NearEnd(boxL, off.y) as real, 0, boxL, off.y),
                      Shift(NearEnd(boxL, off.z) as real, 0, boxL, off.z));
    assert sf == Vec3(Shift(FarEnd(boxL, off.x) as real, 0, boxL, off.x),
                      Shift(FarEnd(boxL, off.y) as real, 0, boxL, off.y),
                      Shift(FarEnd(boxL, off.z) as real, 0, boxL, off.z));
    Norm2Monotone(sn, s);
    Norm2Monotone(s, sf);
    assert ds[near] == Norm2(sn) && ds[far] == Norm2(sf);
    MinIsLeast(ds);
    MaxIsGreatest(ds);
  }

  /** The comparisons done on squares carry over from a distance to bounds around it. */
  lemma BoundsKeepReplica(chilow: real, chiupp: real, d2: real, lo: real, hi: real)
    requires lo <= d2 <= hi
    requires LtRoot(chilow, d2) && RootLt(d2, chiupp)
    ensures !LtRoot(chiupp, lo) && !RootLt(hi, chilow)
  {
  }

  /**
   * Culling never discards a contributing replica: with the observer at the
   * lattice origin and the tracer inside the unit cell, a tracer of replica
   * `off` strictly inside the shell makes `off` pass the corner test.
   */
  lemma SliceHitSound(chilow: int, chiupp: int, boxL: int, off: Lattice, p: Vec3)
    requires boxL > 0 && InBox(p, boxL)
    requires InShell(chilow, chiupp, Norm2(Translate(p, boxL, off)))
    ensures SliceHit(chilow, chiupp, boxL, off)
  {
    CornersBracket(boxL, off, p);
    var ds := CornerDist2s(boxL, off);
    BoundsKeepReplica(chilow as real, chiupp as real, Norm2(Translate(p, boxL, off)), Min(ds), Max(ds));
  }

  // ---------------------------------------------------------------------
  // Completeness of the tiling
  // ---------------------------------------------------------------------

  lemma AxisWithinTiling(boxL: int, ntiles: int, k: int, p: real, c: real, d2: real)
    requires boxL > 0 && 0.0 <= p <= boxL as real
    requires 0.0 <= c <= (boxL * ntiles) as real
    requires Sq(p + (boxL * k) as real) <= d2 < Sq(c)
    ensures -ntiles <= k < ntiles
  {
    var t := p + (boxL * k) as real;
    if k >= ntiles {
      IntProductMonotone(boxL, ntiles, k);
      SquareMonotone(c, t);
      assert false;
    } else if k < -ntiles {
      IntProductMonotone(boxL, k + 1, -ntiles);
      assert boxL * (k + 1) == boxL + boxL * k;
      assert boxL * -ntiles == -(boxL * ntiles);
      SquareMonotone(c, -t);
      SquareNonNegative(t);
      assert false;
    }
  }

  /**
   * The cube of `ntiles = ceil(chiupp / boxL)` replicas per side is large
   * enough: any replica, at any integer offset, holding a tracer nearer than
   * the outer bound lies in [-ntiles, ntiles)^3.
   */
  lemma TilingCoversShell(chiupp: int, boxL: int, off: Lattice, p: Vec3)
    requires boxL > 0 && InBox(p, boxL)
    requires RootLt(Norm2(Translate(p, boxL, off)), chiupp as real)
    ensures InCube(NTiles(chiupp, boxL), off)
  {
    var n := NTiles(chiupp, boxL);
    var s := Translate(p, boxL, off);
    var d2 := Norm2(s);
    assert chiupp as real <= (boxL * n) as real;
    AxisWithinTiling(boxL, n, off.x, p.x, chiupp as real, d2);
    AxisWithinTiling(boxL, n, off.y, p.y, chiupp as real, d2);
    AxisWithinTiling(boxL, n, off.z, p.z, chiupp as real, d2);
  }
}
