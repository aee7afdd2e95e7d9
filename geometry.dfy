/**
 * Comoving-space geometry of one lightcone shell: points, replica offsets,
 * the observer, squared distances, exact comparisons of a bound against a
 * distance, the shell bounds and the tiling half-width.
 *
 * Distances are never taken with a square root. A test such as `c < r` with
 * `r = sqrt(d2)` is decided exactly on the squared distance `d2`
 * (LtRoot, RootLt); RootCompare proves the two forms agree.
 */
module Geometry {

  /** A position or velocity (box-length units, Mpc/h, for positions). */
  datatype Vec3 = Vec3(x: real, y: real, z: real)

  /** An integer triple: a replica offset, or a corner of the box. */
  datatype Lattice = Lattice(x: int, y: int, z: int)

  /** The observer sits at the lattice point (0, 0, 0). */
  const Origin: Lattice := Lattice(0, 0, 0)

  /** The position `p` takes in replica `off`: `p - origin + boxL * off`. */
  function Translate(p: Vec3, boxL: int, off: Lattice): Vec3
  {
    Vec3(p.x - Origin.x as real + (boxL * off.x) as real,
         p.y - Origin.y as real + (boxL * off.y) as real,
         p.z - Origin.z as real + (boxL * off.z) as real)
  }

  function Sq(a: real): real
  {
    a * a
  }

  /** Squared Euclidean distance from the observer of an observer-relative position. */
  function Norm2(s: Vec3): (d2: real)
    ensures d2 >= Sq(s.x) && d2 >= Sq(s.y) && d2 >= Sq(s.z)
  {
    SquareNonNegative(s.x);
    SquareNonNegative(s.y);
    SquareNonNegative(s.z);
    Sq(s.x) + Sq(s.y) + Sq(s.z)
  }

  /** A point of a replica of the unit cell [0, boxL]^3. */
  predicate InBox(p: Vec3, boxL: int)
  {
    0.0 <= p.x <= boxL as real && 0.0 <= p.y <= boxL as real && 0.0 <= p.z <= boxL as real
  }

  /** `c < sqrt(d2)`, decided on squares. */
  predicate LtRoot(c: real, d2: real)
  {
    c < 0.0 || Sq(c) < d2
  }

  /** `sqrt(d2) < c`, decided on squares. */
  predicate RootLt(d2: real, c: real)
  {
    0.0 <= c && d2 < Sq(c)
  }

  /** Strict shell membership of a distance: `chilow < sqrt(d2) < chiupp`. */
  predicate InShell(chilow: int, chiupp: int, d2: real)
  {
    LtRoot(chilow as real, d2) && RootLt(d2, chiupp as real)
  }

  lemma SquareNonNegative(a: real)
    ensures Sq(a) >= 0.0 && Sq(a) == Sq(-a)
  {
    if a < 0.0 {
      assert a * a == (-a) * (-a);
    }
  }

  /** Squaring is strictly monotone on non-negative reals. */
  lemma SquareMonotone(a: real, b: real)
    requires 0.0 <= a && 0.0 <= b
    ensures a < b <==> Sq(a) < Sq(b)
    ensures a <= b <==> Sq(a) <= Sq(b)
  {
    if a < b {
      SquareLess(a, b);
    } else if b < a {
      SquareLess(b, a);
    }
  }

  lemma SquareLess(a: real, b: real)
    requires 0.0 <= a < b
    ensures Sq(a) < Sq(b)
  {
    var aa, ab, bb := a * a, a * b, b * b;
    assert aa <= ab;
    assert ab < bb;
  }

  /**
   * The square-based comparisons say exactly what the comparisons with the
   * distance `r` itself say, for every distance `r >= 0` whose square is the squared distance.
   */
  lemma RootCompare(c: real, r: real)
    requires 0.0 <= r
    ensures (c < r) <==> LtRoot(c, Sq(r))
    ensures (r < c) <==> RootLt(Sq(r), c)
  {
    if 0.0 <= c {
      SquareMonotone(c, r);
    } else {
      SquareNonNegative(r);
    }
  }

  // ---------------------------------------------------------------------
  // Shell bounds and the tiling half-width
  // ---------------------------------------------------------------------

  /** Inner comoving-distance bound of shell `shellnum`. */
  function ChiLow(shellwidth: int, shellnum: int): int
  {
    shellwidth * shellnum
  }

  /**
   * Outer comoving-distance bound of shell `shellnum`: it is the inner bound of
   * the next shell, and lies above this shell's inner bound when the width is
   * positive.
   */
  function ChiUpp(shellwidth: int, shellnum: int): (c: int)
    ensures c == ChiLow(shellwidth, shellnum + 1)
    ensures shellwidth > 0 ==> ChiLow(shellwidth, shellnum) < c
  {
    shellwidth * (shellnum + 1)
  }

  /** Mid-point distance of a shell (`chimid`). */
  function ShellMid(chilow: int, chiupp: int): (mid: real)
    ensures chilow < chiupp ==> chilow as real < mid < chiupp as real
  {
    0.5 * (chilow + chiupp) as real
  }

  /**
   * The shell whose half-open interval [chilow, chiupp) holds distance `r`;
   * with ShellsDisjoint, the shells partition the distance axis.
   */
  function ShellContaining(shellwidth: int, r: real): (n: int)
    requires shellwidth > 0
    ensures ChiLow(shellwidth, n) as real <= r < ChiUpp(shellwidth, n) as real
  {
    var n := (r / shellwidth as real).Floor;
    FloorScaled(shellwidth, r, n);
    n
  }

  /** Scaling the floor of `r / w` back by `w` brackets `r`. */
  lemma FloorScaled(shellwidth: int, r: real, n: int)
    requires shellwidth > 0 && n == (r / shellwidth as real).Floor
    ensures (shellwidth * n) as real <= r < (shellwidth * (n + 1)) as real
  {
    var w := shellwidth as real;
    QuotientBracket(r, w, n as real, (n + 1) as real);
    IntProductAsReal(n, shellwidth);
    IntProductAsReal(n + 1, shellwidth);
  }

  lemma MultiplyBounds(a: real, b: real, w: real)
    requires 0.0 < w
    ensures a <= b ==> a * w <= b * w
    ensures a < b ==> a * w < b * w
  {
  }

  /** Bounds on `r / w` scale to bounds on `r`. */
  lemma QuotientBracket(r: real, w: real, lo: real, hi: real)
    requires 0.0 < w
    ensures lo <= r / w ==> lo * w <= r
    ensures r / w < hi ==> r < hi * w
    ensures lo < r / w ==> lo * w < r
    ensures r / w <= hi ==> r <= hi * w
  {
    MultiplyBounds(lo, r / w, w);
    MultiplyBounds(r / w, hi, w);
    QuotientTimes(r, w);
  }

  lemma QuotientTimes(r: real, w: real)
    requires w != 0.0
    ensures (r / w) * w == r
  {
  }

  lemma IntProductAsReal(a: int, b: int)
    ensures (b * a) as real == a as real * b as real
  {
  }

  /** Scaling the ceiling of `c / L` back by `L` brackets `c`. */
  lemma CeilingScaled(chiupp: int, boxL: int, ntiles: int)
    requires boxL > 0 && ntiles == -(-(chiupp as real / boxL as real)).Floor
    ensures (ntiles - 1) * boxL < chiupp <= ntiles * boxL
  {
    var L := boxL as real;
    assert (ntiles - 1) as real < chiupp as real / L <= ntiles as real;
    QuotientBracket(chiupp as real, L, (ntiles - 1) as real, ntiles as real);
    IntProductAsReal(ntiles - 1, boxL);
    IntProductAsReal(ntiles, boxL);
    assert (ntiles - 1) * boxL == boxL * (ntiles - 1) && ntiles * boxL == boxL * ntiles;
  }

  /** No distance lies in the half-open intervals of two different shells. */
  lemma ShellsDisjoint(shellwidth: int, n: int, m: int, r: real)
    requires shellwidth > 0
    requires ChiLow(shellwidth, n) as real <= r < ChiUpp(shellwidth, n) as real
    requires ChiLow(shellwidth, m) as real <= r < ChiUpp(shellwidth, m) as real
    ensures n == m
  {
    if n < m {
      BoundsOrdered(shellwidth, n, m);
    } else if m < n {
      BoundsOrdered(shellwidth, m, n);
    }
  }

  /** The outer bound of a shell is at most the inner bound of any later shell. */
  lemma BoundsOrdered(shellwidth: int, n: int, m: int)
    requires shellwidth > 0 && n < m
    ensures ChiUpp(shellwidth, n) <= ChiLow(shellwidth, m)
  {
    IntProductMonotone(shellwidth, n + 1, m);
  }

  lemma IntProductMonotone(a: int, b: int, c: int)
    requires a > 0 && b <= c
    ensures a * b <= a * c
  {
    var d := c - b;
    assert a * c == a * b + a * d;
  }

  /**
   * Under the strict test, a distance is a member of at most one shell of
   * non-negative index, so no tracer is counted in two shells.
   */
  lemma InShellUnique(shellwidth: int, n: int, m: int, d2: real)
    requires shellwidth > 0 && n >= 0 && m >= 0
    requires InShell(ChiLow(shellwidth, n), ChiUpp(shellwidth, n), d2)
    requires InShell(ChiLow(shellwidth, m), ChiUpp(shellwidth, m), d2)
    ensures n == m
  {
    if n < m {
      BoundsExcludeLater(shellwidth, n, m, d2);
    } else if m < n {
      BoundsExcludeLater(shellwidth, m, n, d2);
    }
  }

  lemma BoundsExcludeLater(shellwidth: int, n: int, m: int, d2: real)
    requires shellwidth > 0 && 0 <= n < m
    requires RootLt(d2, ChiUpp(shellwidth, n) as real)
    ensures !LtRoot(ChiLow(shellwidth, m) as real, d2)
  {
    BoundsOrdered(shellwidth, n, m);
    var u := ChiUpp(shellwidth, n) as real;
    var l := ChiLow(shellwidth, m) as real;
    assert 0.0 <= u <= l;
    SquareMonotone(u, l);
  }

  /**
   * A tracer lying exactly on either bound of a shell is not a member of it:
   * both ends of the shell are open.
   */
  lemma BoundaryExcluded(chilow: int, chiupp: int, r: real)
    requires 0.0 <= r
    requires r == chilow as real || r == chiupp as real
    ensures !InShell(chilow, chiupp, Sq(r))
  {
    RootCompare(chilow as real, r);
    RootCompare(chiupp as real, r);
  }

  /**
   * Number of box lengths needed to reach the outer bound: the ceiling of
   * `chiupp / boxL`.
   */
  function NTiles(chiupp: int, boxL: int): (ntiles: int)
    requires boxL > 0
    ensures (ntiles - 1) * boxL < chiupp <= ntiles * boxL
  {
    var L := boxL as real;
    var q := chiupp as real / L;
    var f := (-q).Floor;
    assert f as real <= -q < f as real + 1.0;
    var ntiles := -f;
    CeilingScaled(chiupp, boxL, ntiles);
    ntiles
  }
}
