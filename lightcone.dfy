/**
 * Assembly of one lightcone shell: the tracers of the chosen galaxy type,
 * moved into every replica of the cube [-ntiles, ntiles)^3 that the corner
 * test keeps, filtered by strict shell membership, projected to the sky and
 * appended to five parallel output columns in replica-visiting order.
 */
module Lightcone {
  import opened Geometry
  import opened Replicas
  import opened Selection
  import opened Sky

  /**
   * What the source derives for one selected tracer from its replica position
   * `s` and its velocity `v`: the sky angles of `s / |s|`, the redshift the
   * distance oracle gives for `|s| / h`, the redshift perturbation and the
   * line-of-sight velocity in km/s. It enters the model as the parameter
   * `project`.
   */
  datatype Projection = Projection(angles: Angles, z: real, dz: real, vlos: real)

  /** One output row: RA, DEC, Z, DZ, VEL_LOS. */
  datatype Row = Row(ra: real, dec: real, z: real, dz: real, vlos: real)

  /** Tracer `index` of the box population, seen in replica `offset`. */
  datatype Pick = Pick(offset: Lattice, index: nat)

  /** Order of the output: replica-visiting order, then catalogue order. */
  predicate PickLess(p: Pick, q: Pick)
  {
    LexLess(p.offset, q.offset) || (p.offset == q.offset && p.index < q.index)
  }

  predicate PicksIncreasing(ps: seq<Pick>)
  {
    forall i, j :: 0 <= i < j < |ps| ==> PickLess(ps[i], ps[j])
  }

  /** `p` names a tracer of `box` lying strictly inside the shell in its replica. */
  predicate Contributes(box: seq<Tracer>, boxL: int, chilow: int, chiupp: int, p: Pick)
  {
    p.index < |box| && InShell(chilow, chiupp, ReplicaDist2(box[p.index], boxL, p.offset))
  }

  /** Tracers `idx` of the box, seen in replica `off`. */
  function PicksAt(off: Lattice, idx: seq<nat>): (ps: seq<Pick>)
    ensures |ps| == |idx|
    ensures forall k :: 0 <= k < |idx| ==> ps[k] == Pick(off, idx[k])
  {
    seq(|idx|, k requires 0 <= k < |idx| => Pick(off, idx[k]))
  }

  lemma PicksAtMembers(off: Lattice, idx: seq<nat>)
    ensures forall p :: p in PicksAt(off, idx) <==> p.offset == off && p.index in idx
  {
    var ps := PicksAt(off, idx);
    forall p: Pick ensures p in ps <==> p.offset == off && p.index in idx {
      if p in ps {
        var k :| 0 <= k < |ps| && ps[k] == p;
        assert idx[k] == p.index;
      }
      if p.offset == off && p.index in idx {
        var k :| 0 <= k < |idx| && idx[k] == p.index;
        assert ps[k] == p;
      }
    }
  }

  /** The tracers selected in replica `off`, in catalogue order. */
  function ReplicaPicks(box: seq<Tracer>, boxL: int, off: Lattice, chilow: int, chiupp: int): (ps: seq<Pick>)
    ensures |ps| == |ShellIndices(box, boxL, off, chilow, chiupp)|
    ensures forall p :: p in ps <==> p.offset == off && Contributes(box, boxL, chilow, chiupp, p)
    ensures PicksIncreasing(ps)
  {
    var idx := ShellIndices(box, boxL, off, chilow, chiupp);
    PicksAtMembers(off, idx);
    assert forall i: nat :: i in idx <==> i < |box| && InShell(chilow, chiupp, ReplicaDist2(box[i], boxL, off)) by {
      forall i: nat | i in idx ensures i < |box| && InShell(chilow, chiupp, ReplicaDist2(box[i], boxL, off)) {
        var k :| 0 <= k < |idx| && idx[k] == i;
      }
    }
    PicksAt(off, idx)
  }

  /**
   * The picks of the replicas `offs` that pass the corner test, concatenated
   * in the order of `offs`. Every pick names a tracer of `box`.
   */
  function ShellPicks(box: seq<Tracer>, boxL: int, offs: seq<Lattice>, chilow: int, chiupp: int): (ps: seq<Pick>)
    ensures forall k :: 0 <= k < |ps| ==> ps[k].index < |box| && ps[k].offset in offs
    decreases |offs|
  {
    if offs == [] then []
    else
      var front, last := offs[..|offs| - 1], offs[|offs| - 1];
      var done := ShellPicks(box, boxL, front, chilow, chiupp);
      var more := if SliceHit(chilow, chiupp, boxL, last) then ReplicaPicks(box, boxL, last, chilow, chiupp) else [];
      assert forall k :: 0 <= k < |more| ==> more[k] in more;
      assert forall o :: o in front ==> o in offs;
      done + more
  }

  /** Reference definition: the picks of every replica in `offs`, with no culling. */
  function AllPicks(box: seq<Tracer>, boxL: int, offs: seq<Lattice>, chilow: int, chiupp: int): seq<Pick>
    decreases |offs|
  {
    if offs == [] then []
    else
      AllPicks(box, boxL, offs[..|offs| - 1], chilow, chiupp)
        + ReplicaPicks(box, boxL, offs[|offs| - 1], chilow, chiupp)
  }

  predicate AllInBox(box: seq<Tracer>, boxL: int)
  {
    forall k :: 0 <= k < |box| ==> InBox(box[k].pos, boxL)
  }

  /** A replica the corner test rejects selects no tracer. */
  lemma CulledReplicaIsEmpty(box: seq<Tracer>, boxL: int, off: Lattice, chilow: int, chiupp: int)
    requires boxL > 0 && AllInBox(box, boxL)
    requires !SliceHit(chilow, chiupp, boxL, off)
    ensures ReplicaPicks(box, boxL, off, chilow, chiupp) == []
  {
    var idx := ShellIndices(box, boxL, off, chilow, chiupp);
    if |idx| > 0 {
      SliceHitSound(chilow, chiupp, boxL, off, box[idx[0]].pos);
    }
  }

  /**
   * Culling is only a shortcut: with every tracer inside the unit cell, the
   * culled selection equals the selection over every replica.
   */
  lemma {:induction false} CullingIsTransparent(box: seq<Tracer>, boxL: int, offs: seq<Lattice>, chilow: int, chiupp: int)
    requires boxL > 0 && AllInBox(box, boxL)
    ensures ShellPicks(box, boxL, offs, chilow, chiupp) == AllPicks(box, boxL, offs, chilow, chiupp)
    decreases |offs|
  {
    if offs != [] {
      var last := offs[|offs| - 1];
      CullingIsTransparent(box, boxL, offs[..|offs| - 1], chilow, chiupp);
      if !SliceHit(chilow, chiupp, boxL, last) {
        CulledReplicaIsEmpty(box, boxL, last, chilow, chiupp);
      }
    }
  }

  /** The uncounted selection holds exactly the contributing tracers of the replicas in `offs`. */
  lemma {:induction false} AllPicksMembers(box: seq<Tracer>, boxL: int, offs: seq<Lattice>, chilow: int, chiupp: int)
    ensures forall p :: p in AllPicks(box, boxL, offs, chilow, chiupp)
                <==> p.offset in offs && Contributes(box, boxL, chilow, chiupp, p)
    decreases |offs|
  {
    if offs != [] {
      var front, last := offs[..|offs| - 1], offs[|offs| - 1];
      AllPicksMembers(box, boxL, front, chilow, chiupp);
      assert offs == front + [last];
      forall p ensures p in AllPicks(box, boxL, offs, chilow, chiupp)
                 <==> p.offset in offs && Contributes(box, boxL, chilow, chiupp, p) {
        assert p.offset in offs <==> p.offset in front || p.offset == last;
      }
    }
  }

  /**
   * The shell's selection is exact: with every tracer inside the unit cell, a
   * (replica, tracer) pair is in it exactly when the tracer, moved into that
   * replica, lies strictly inside the shell, for any integer replica offset
   * at all; the cube of ReplicaOffsets(ntiles) and the corner test lose
   * nothing.
   */
  lemma ShellIsExact(box: seq<Tracer>, boxL: int, chilow: int, chiupp: int)
    requires boxL > 0 && AllInBox(box, boxL)
    ensures forall p :: p in ShellPicks(box, boxL, ReplicaOffsets(NTiles(chiupp, boxL)), chilow, chiupp)
              <==> Contributes(box, boxL, chilow, chiupp, p)
  {
    var ntiles := NTiles(chiupp, boxL);
    var offs := ReplicaOffsets(ntiles);
    CullingIsTransparent(box, boxL, offs, chilow, chiupp);
    AllPicksMembers(box, boxL, offs, chilow, chiupp);
    ReplicaOffsetsEnumerateCube(ntiles);
    forall p | Contributes(box, boxL, chilow, chiupp, p) ensures p.offset in offs {
      TilingCoversShell(chiupp, boxL, p.offset, box[p.index].pos);
    }
  }

  lemma ConcatPicksIncreasing(a: seq<Pick>, b: seq<Pick>)
    requires PicksIncreasing(a) && PicksIncreasing(b)
    requires forall i, j :: 0 <= i < |a| && 0 <= j < |b| ==> PickLess(a[i], b[j])
    ensures PicksIncreasing(a + b)
  {
    forall i, j | 0 <= i < j < |a + b| ensures PickLess((a + b)[i], (a + b)[j]) {
      if j < |a| {
        assert (a + b)[i] == a[i] && (a + b)[j] == a[j];
      } else if i >= |a| {
        assert (a + b)[i] == b[i - |a|] && (a + b)[j] == b[j - |a|];
      } else {
        assert (a + b)[i] == a[i] && (a + b)[j] == b[j - |a|];
      }
    }
  }

  /**
   * The selection follows the visiting order: when the replicas are visited
   * in increasing order, the picks come out strictly increasing, so no
   * (replica, tracer) pair is emitted twice.
   */
  lemma {:induction false} ShellPicksIncreasing(box: seq<Tracer>, boxL: int, offs: seq<Lattice>, chilow: int, chiupp: int)
    requires LexIncreasing(offs)
    ensures PicksIncreasing(ShellPicks(box, boxL, offs, chilow, chiupp))
    decreases |offs|
  {
    if offs != [] {
      var front, last := offs[..|offs| - 1], offs[|offs| - 1];
      assert LexIncreasing(front);
      ShellPicksIncreasing(box, boxL, front, chilow, chiupp);
      var a := ShellPicks(box, boxL, front, chilow, chiupp);
      var b := if SliceHit(chilow, chiupp, boxL, last) then ReplicaPicks(box, boxL, last, chilow, chiupp) else [];
      forall i, j | 0 <= i < |a| && 0 <= j < |b| ensures PickLess(a[i], b[j]) {
        assert b[j] in b;
        var k :| 0 <= k < |front| && front[k] == a[i].offset;
        assert LexLess(offs[k], offs[|offs| - 1]);
      }
      ConcatPicksIncreasing(a, b);
    }
  }

  /** Number of tracers the replicas in `offs` contribute after culling. */
  function HitCount(box: seq<Tracer>, boxL: int, offs: seq<Lattice>, chilow: int, chiupp: int): nat
    decreases |offs|
  {
    if offs == [] then 0
    else
      var last := offs[|offs| - 1];
      HitCount(box, boxL, offs[..|offs| - 1], chilow, chiupp)
        + (if SliceHit(chilow, chiupp, boxL, last) then |ShellIndices(box, boxL, last, chilow, chiupp)| else 0)
  }

  /** The shell's size is the sum of the membership counts of the kept replicas. */
  lemma {:induction false} ShellSizeIsHitCount(box: seq<Tracer>, boxL: int, offs: seq<Lattice>, chilow: int, chiupp: int)
    ensures |ShellPicks(box, boxL, offs, chilow, chiupp)| == HitCount(box, boxL, offs, chilow, chiupp)
    decreases |offs|
  {
    if offs != [] {
      ShellSizeIsHitCount(box, boxL, offs[..|offs| - 1], chilow, chiupp);
    }
  }

  // ---------------------------------------------------------------------
  // Output rows and columns
  // ---------------------------------------------------------------------

  /** The output row of one pick: the projection of the tracer in its replica, with its angles in degrees. */
  function RowOf(box: seq<Tracer>, boxL: int, project: (Vec3, Vec3) -> Projection, p: Pick): Row
    requires p.index < |box|
  {
    var t := box[p.index];
    var pr := project(Translate(t.pos, boxL, p.offset), t.vel);
    var rd := TpToRd(pr.angles.theta, pr.angles.phi);
    Row(rd.ra, rd.dec, pr.z, pr.dz, pr.vlos)
  }

  predicate IndicesIn(box: seq<Tracer>, ps: seq<Pick>)
  {
    forall k :: 0 <= k < |ps| ==> ps[k].index < |box|
  }

  function Rows(box: seq<Tracer>, boxL: int, project: (Vec3, Vec3) -> Projection, ps: seq<Pick>): (rows: seq<Row>)
    requires IndicesIn(box, ps)
    ensures |rows| == |ps|
  {
    seq(|ps|, k requires 0 <= k < |ps| => RowOf(box, boxL, project, ps[k]))
  }

  /** The five output columns, RA, DEC, Z, DZ and VEL_LOS. */
  datatype Columns = Columns(ra: seq<real>, dec: seq<real>, z: seq<real>, dz: seq<real>, vlos: seq<real>)

  const NoColumns := Columns([], [], [], [], [])

  /** One field of every row, in row order. */
  function Column(rows: seq<Row>, field: Row -> real): (c: seq<real>)
    ensures |c| == |rows|
    ensures forall k :: 0 <= k < |rows| ==> c[k] == field(rows[k])
  {
    seq(|rows|, k requires 0 <= k < |rows| => field(rows[k]))
  }

  /** The columns of `rows`: field by field, row by row, all of one length. */
  function Tabulate(rows: seq<Row>): (c: Columns)
    ensures |c.ra| == |c.dec| == |c.z| == |c.dz| == |c.vlos| == |rows|
  {
    Columns(Column(rows, RaOf), Column(rows, DecOf), Column(rows, ZOf), Column(rows, DzOf), Column(rows, VlosOf))
  }

  function RaOf(r: Row): real { r.ra }
  function DecOf(r: Row): real { r.dec }
  function ZOf(r: Row): real { r.z }
  function DzOf(r: Row): real { r.dz }
  function VlosOf(r: Row): real { r.vlos }

  /** `np.append` on each of the five columns. */
  function Append(c: Columns, d: Columns): Columns
  {
    Columns(c.ra + d.ra, c.dec + d.dec, c.z + d.z, c.dz + d.dz, c.vlos + d.vlos)
  }

  lemma RowsAppend(box: seq<Tracer>, boxL: int, project: (Vec3, Vec3) -> Projection, a: seq<Pick>, b: seq<Pick>)
    requires IndicesIn(box, a) && IndicesIn(box, b)
    ensures IndicesIn(box, a + b)
    ensures Rows(box, boxL, project, a + b) == Rows(box, boxL, project, a) + Rows(box, boxL, project, b)
  {
  }

  lemma ColumnAppend(a: seq<Row>, b: seq<Row>, field: Row -> real)
    ensures Column(a + b, field) == Column(a, field) + Column(b, field)
  {
  }

  lemma TabulateAppend(a: seq<Row>, b: seq<Row>)
    ensures Tabulate(a + b) == Append(Tabulate(a), Tabulate(b))
  {
    ColumnAppend(a, b, RaOf);
    ColumnAppend(a, b, DecOf);
    ColumnAppend(a, b, ZOf);
    ColumnAppend(a, b, DzOf);
    ColumnAppend(a, b, VlosOf);
  }

  /** The rows of one shell, in output order. */
  function ShellRows(cat: seq<Tracer>, galtype: int, shellnum: int, shellwidth: int, boxL: int,
                     project: (Vec3, Vec3) -> Projection): seq<Row>
    requires boxL > 0
  {
    var box := BoxPopulation(cat, galtype);
    var chilow, chiupp := ChiLow(shellwidth, shellnum), ChiUpp(shellwidth, shellnum);
    Rows(box, boxL, project, ShellPicks(box, boxL, ReplicaOffsets(NTiles(chiupp, boxL)), chilow, chiupp))
  }

  /** The rows replica `off` adds: none when the corner test rejects it. */
  function ReplicaColumns(box: seq<Tracer>, boxL: int, project: (Vec3, Vec3) -> Projection,
                          off: Lattice, chilow: int, chiupp: int): Columns
  {
    if SliceHit(chilow, chiupp, boxL, off)
    then Tabulate(Rows(box, boxL, project, ReplicaPicks(box, boxL, off, chilow, chiupp)))
    else NoColumns
  }

  /** The columns as the loop builds them: replica after replica, in the order of `offs`. */
  function VisitedColumns(box: seq<Tracer>, boxL: int, project: (Vec3, Vec3) -> Projection,
                          offs: seq<Lattice>, chilow: int, chiupp: int): Columns
    decreases |offs|
  {
    if offs == [] then NoColumns
    else
      Append(VisitedColumns(box, boxL, project, offs[..|offs| - 1], chilow, chiupp),
             ReplicaColumns(box, boxL, project, offs[|offs| - 1], chilow, chiupp))
  }

  /** Building the columns replica by replica tabulates the rows of the shell's picks. */
  lemma {:induction false} VisitedColumnsTabulate(box: seq<Tracer>, boxL: int, project: (Vec3, Vec3) -> Projection,
                                                  offs: seq<Lattice>, chilow: int, chiupp: int)
    ensures VisitedColumns(box, boxL, project, offs, chilow, chiupp)
            == Tabulate(Rows(box, boxL, project, ShellPicks(box, boxL, offs, chilow, chiupp)))
    decreases |offs|
  {
    if offs != [] {
      var front, last := offs[..|offs| - 1], offs[|offs| - 1];
      VisitedColumnsTabulate(box, boxL, project, front, chilow, chiupp);
      var before := ShellPicks(box, boxL, front, chilow, chiupp);
      var added := if SliceHit(chilow, chiupp, boxL, last) then ReplicaPicks(box, boxL, last, chilow, chiupp) else [];
      RowsAppend(box, boxL, project, before, added);
      TabulateAppend(Rows(box, boxL, project, before), Rows(box, boxL, project, added));
    }
  }

  lemma AppendAssociative(a: Columns, b: Columns, c: Columns)
    ensures Append(Append(a, b), c) == Append(a, Append(b, c))
  {
    assert (a.ra + b.ra) + c.ra == a.ra + (b.ra + c.ra);
    assert (a.dec + b.dec) + c.dec == a.dec + (b.dec + c.dec);
    assert (a.z + b.z) + c.z == a.z + (b.z + c.z);
    assert (a.dz + b.dz) + c.dz == a.dz + (b.dz + c.dz);
    assert (a.vlos + b.vlos) + c.vlos == a.vlos + (b.vlos + c.vlos);
  }

  lemma AppendNone(a: Columns)
    ensures Append(a, NoColumns) == a && Append(NoColumns, a) == a
  {
    assert a.ra + [] == a.ra && [] + a.ra == a.ra;
    assert a.dec + [] == a.dec && [] + a.dec == a.dec;
    assert a.z + [] == a.z && [] + a.z == a.z;
    assert a.dz + [] == a.dz && [] + a.dz == a.dz;
    assert a.vlos + [] == a.vlos && [] + a.vlos == a.vlos;
  }

  /** Visiting `a` and then `b` appends the columns of `b` to those of `a`. */
  lemma {:induction false} VisitedColumnsConcat(box: seq<Tracer>, boxL: int, project: (Vec3, Vec3) -> Projection,
                                                a: seq<Lattice>, b: seq<Lattice>, chilow: int, chiupp: int)
    ensures VisitedColumns(box, boxL, project, a + b, chilow, chiupp)
            == Append(VisitedColumns(box, boxL, project, a, chilow, chiupp),
                      VisitedColumns(box, boxL, project, b, chilow, chiupp))
    decreases |b|
  {
    if b == [] {
      assert a + b == a;
      AppendNone(VisitedColumns(box, boxL, project, a, chilow, chiupp));
    } else {
      var front, last := b[..|b| - 1], b[|b| - 1];
      assert (a + b)[..|a + b| - 1] == a + front;
      assert (a + b)[|a + b| - 1] == last;
      VisitedColumnsConcat(box, boxL, project, a, front, chilow, chiupp);
      AppendAssociative(VisitedColumns(box, boxL, project, a, chilow, chiupp),
                        VisitedColumns(box, boxL, project, front, chilow, chiupp),
                        ReplicaColumns(box, boxL, project, last, chilow, chiupp));
    }
  }

  /** The columns of the replicas (x, y, z), z from -n up to `zhi`, in loop order. */
  function RowColumns(box: seq<Tracer>, boxL: int, project: (Vec3, Vec3) -> Projection,
                      chilow: int, chiupp: int, n: int, x: int, y: int, zhi: int): Columns
    decreases zhi + n
  {
    if zhi <= -n then NoColumns
    else Append(RowColumns(box, boxL, project, chilow, chiupp, n, x, y, zhi - 1),
                ReplicaColumns(box, boxL, project, Lattice(x, y, zhi - 1), chilow, chiupp))
  }

  /** The columns of the replicas (x, y, z), y from -n up to `yhi`, z in [-n, n). */
  function PlaneColumns(box: seq<Tracer>, boxL: int, project: (Vec3, Vec3) -> Projection,
                        chilow: int, chiupp: int, n: int, x: int, yhi: int): Columns
    decreases yhi + n
  {
    if yhi <= -n then NoColumns
    else Append(PlaneColumns(box, boxL, project, chilow, chiupp, n, x, yhi - 1),
                RowColumns(box, boxL, project, chilow, chiupp, n, x, yhi - 1, n))
  }

  /** The columns of the replicas (x, y, z), x from -n up to `xhi`, y and z in [-n, n). */
  function CubeColumns(box: seq<Tracer>, boxL: int, project: (Vec3, Vec3) -> Projection,
                       chilow: int, chiupp: int, n: int, xhi: int): Columns
    decreases xhi + n
  {
    if xhi <= -n then NoColumns
    else Append(CubeColumns(box, boxL, project, chilow, chiupp, n, xhi - 1),
                PlaneColumns(box, boxL, project, chilow, chiupp, n, xhi - 1, n))
  }

  lemma {:induction false} RowColumnsVisit(box: seq<Tracer>, boxL: int, project: (Vec3, Vec3) -> Projection,
                                           chilow: int, chiupp: int, n: int, x: int, y: int, zhi: int)
    ensures RowColumns(box, boxL, project, chilow, chiupp, n, x, y, zhi)
            == VisitedColumns(box, boxL, project, ZRun(n, x, y, zhi), chilow, chiupp)
    decreases zhi + n
  {
    if zhi > -n {
      RowColumnsVisit(box, boxL, project, chilow, chiupp, n, x, y, zhi - 1);
      var run := ZRun(n, x, y, zhi - 1);
      assert (run + [Lattice(x, y, zhi - 1)])[..|run|] == run;
    }
  }

  lemma {:induction false} PlaneColumnsVisit(box: seq<Tracer>, boxL: int, project: (Vec3, Vec3) -> Projection,
                                             chilow: int, chiupp: int, n: int, x: int, yhi: int)
    ensures PlaneColumns(box, boxL, project, chilow, chiupp, n, x, yhi)
            == VisitedColumns(box, boxL, project, YRun(n, x, yhi), chilow, chiupp)
    decreases yhi + n
  {
    if yhi > -n {
      PlaneColumnsVisit(box, boxL, project, chilow, chiupp, n, x, yhi - 1);
      RowColumnsVisit(box, boxL, project, chilow, chiupp, n, x, yhi - 1, n);
      VisitedColumnsConcat(box, boxL, project, YRun(n, x, yhi - 1), ZRun(n, x, yhi - 1, n), chilow, chiupp);
    }
  }

  /** The loop order of the columns is the visiting order of ReplicaOffsets. */
  lemma {:induction false} CubeColumnsVisit(box: seq<Tracer>, boxL: int, project: (Vec3, Vec3) -> Projection,
                                            chilow: int, chiupp: int, n: int, xhi: int)
    ensures CubeColumns(box, boxL, project, chilow, chiupp, n, xhi)
            == VisitedColumns(box, boxL, project, XRun(n, xhi), chilow, chiupp)
    decreases xhi + n
  {
    if xhi > -n {
      CubeColumnsVisit(box, boxL, project, chilow, chiupp, n, xhi - 1);
      PlaneColumnsVisit(box, boxL, project, chilow, chiupp, n, xhi - 1, n);
      VisitedColumnsConcat(box, boxL, project, XRun(n, xhi - 1), YRun(n, xhi - 1, n), chilow, chiupp);
    }
  }

  /**
   * The loop body of `generate_lightcone_shell` for one replica: the corner
   * test, then the shell selection and, when it selected any tracer, the
   * append of that replica's rows to the five columns.
   */
  method AppendReplica(box: seq<Tracer>, boxL: int, project: (Vec3, Vec3) -> Projection,
                       off: Lattice, chilow: int, chiupp: int, tot: Columns)
    returns (tot': Columns)
    ensures tot' == Append(tot, ReplicaColumns(box, boxL, project, off, chilow, chiupp))
  {
    tot' := tot;
    var slicehit := CheckSliceHit(chilow, chiupp, boxL, off);
    if slicehit {
      var sel := ShellIndices(box, boxL, off, chilow, chiupp);
      if |sel| != 0 {
        tot' := Append(tot', Tabulate(Rows(box, boxL, project, ReplicaPicks(box, boxL, off, chilow, chiupp))));
      }
    }
    AppendNone(tot);
  }

  /** The innermost loop: the replicas (xx, yy, zz) for zz from -ntiles up to ntiles. */
  method AppendRow(box: seq<Tracer>, boxL: int, project: (Vec3, Vec3) -> Projection,
                   chilow: int, chiupp: int, ntiles: int, xx: int, yy: int, tot: Columns)
    returns (tot': Columns)
    ensures tot' == Append(tot, RowColumns(box, boxL, project, chilow, chiupp, ntiles, xx, yy, ntiles))
  {
    tot' := tot;
    AppendNone(tot);
    var zz := -ntiles;
    while zz < ntiles
      invariant zz == -ntiles || -ntiles <= zz <= ntiles
      invariant tot' == Append(tot, RowColumns(box, boxL, project, chilow, chiupp, ntiles, xx, yy, zz))
    {
      var off := Lattice(xx, yy, zz);
      AppendAssociative(tot, RowColumns(box, boxL, project, chilow, chiupp, ntiles, xx, yy, zz),
                        ReplicaColumns(box, boxL, project, off, chilow, chiupp));
      tot' := AppendReplica(box, boxL, project, off, chilow, chiupp, tot');
      zz := zz + 1;
    }
  }

  /** The middle loop: the replicas (xx, yy, zz) for yy from -ntiles up to ntiles. */
  method AppendPlane(box: seq<Tracer>, boxL: int, project: (Vec3, Vec3) -> Projection,
                     chilow: int, chiupp: int, ntiles: int, xx: int, tot: Columns)
    returns (tot': Columns)
    ensures tot' == Append(tot, PlaneColumns(box, boxL, project, chilow, chiupp, ntiles, xx, ntiles))
  {
    tot' := tot;
    AppendNone(tot);
    var yy := -ntiles;
    while yy < ntiles
      invariant yy == -ntiles || -ntiles <= yy <= ntiles
      invariant tot' == Append(tot, PlaneColumns(box, boxL, project, chilow, chiupp, ntiles, xx, yy))
    {
      AppendAssociative(tot, PlaneColumns(box, boxL, project, chilow, chiupp, ntiles, xx, yy),
                        RowColumns(box, boxL, project, chilow, chiupp, ntiles, xx, yy, ntiles));
      tot' := AppendRow(box, boxL, project, chilow, chiupp, ntiles, xx, yy, tot');
      yy := yy + 1;
    }
  }

  /** The outer loop: every replica of the cube [-ntiles, ntiles)^3, xx outermost. */
  method AppendCube(box: seq<Tracer>, boxL: int, project: (Vec3, Vec3) -> Projection,
                    chilow: int, chiupp: int, ntiles: int)
    returns (tot: Columns)
    ensures tot == CubeColumns(box, boxL, project, chilow, chiupp, ntiles, ntiles)
  {
    tot := NoColumns;
    var xx := -ntiles;
    while xx < ntiles
      invariant xx == -ntiles || -ntiles <= xx <= ntiles
      invariant tot == CubeColumns(box, boxL, project, chilow, chiupp, ntiles, xx)
    {
      tot := AppendPlane(box, boxL, project, chilow, chiupp, ntiles, xx, tot);
      xx := xx + 1;
    }
  }

  /**
   * The selection-and-accumulation body of `generate_lightcone_shell`: the
   * galaxy-type filter, then the triple loop over the replica cube, xx
   * outermost and zz innermost. The five columns come out as the columns of
   * the shell's rows; `ngalbox` is the size of the box population, not the
   * number of rows.
   */
  method GenerateShell(cat: seq<Tracer>, galtype: int, shellnum: int, shellwidth: int, boxL: int,
                       project: (Vec3, Vec3) -> Projection)
    returns (totra: seq<real>, totdec: seq<real>, totz: seq<real>, totdz: seq<real>, totvlos: seq<real>,
             ngalbox: nat)
    requires boxL > 0
    ensures ngalbox == |BoxPopulation(cat, galtype)|
    ensures Columns(totra, totdec, totz, totdz, totvlos)
            == Tabulate(ShellRows(cat, galtype, shellnum, shellwidth, boxL, project))
  {
    var chilow := ChiLow(shellwidth, shellnum);
    var chiupp := ChiUpp(shellwidth, shellnum);
    var ntiles := NTiles(chiupp, boxL);
    var idx := GaltypeIndices(cat, galtype);
    ngalbox := |idx|;
    var box := Gather(cat, idx);

    var tot := AppendCube(box, boxL, project, chilow, chiupp, ntiles);
    assert box == BoxPopulation(cat, galtype);
    CubeColumnsVisit(box, boxL, project, chilow, chiupp, ntiles, ntiles);
    VisitedColumnsTabulate(box, boxL, project, ReplicaOffsets(ntiles), chilow, chiupp);
    totra, totdec, totz, totdz, totvlos := tot.ra, tot.dec, tot.z, tot.dz, tot.vlos;
  }
}
