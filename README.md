# Lightcone shells from periodic boxes

This project models how one shell of a galaxy lightcone is built from a
periodic simulation box. It also proves what that construction promises.

- The observer sits at a corner of the box, the origin.
- The box is replicated on an integer lattice `boxL * (xx, yy, zz)`.
- Shell `shellnum` is the set of comoving distances strictly between
  `chilow = shellwidth * shellnum` and `chiupp = shellwidth * (shellnum + 1)`.
- The shell is tiled with the cube of replicas `[-ntiles, ntiles)^3`, where
  `ntiles = ceil(chiupp / boxL)`.
- A replica whose eight corners all lie farther than `chiupp`, or all nearer
  than `chilow`, is culled.
- In every other replica, the tracers of the chosen galaxy type that lie
  strictly inside the shell are projected to the sky.
- Their RA, DEC, Z, DZ and VEL_LOS are appended to five output columns, in
  replica-visiting order. `xx` is the outermost loop and `zz` the innermost.
- The snapshot used is the one whose redshift is nearest the redshift of the
  shell's mid-point, unless a fixed one is given.

Modules:

- `Geometry`: vectors, replica translation and squared norms. It also holds
  the square-based comparisons that stand in for `sqrt`, the shell bounds and
  `ntiles`.
- `Replicas`: the visiting order of the replica cube, and the corner test
  `checkslicehit` as a method over an 8-element array. It also proves that
  culling is sound and that the tiling covers the whole shell.
- `Snapshots`: `getnearestsnap`, as a stable argmin over IEEE-style costs, and
  the choice between a given snapshot and the nearest one.
- `Sky`: `tp2rd`.
- `Selection`: `np.where` as an exact filter, the galaxy-type population of
  the box, and strict shell membership within one replica.
- `Lightcone`: the selected (replica, tracer) pairs and the columns they
  produce. It holds the triple loop as three loop methods over a column
  accumulator, and `GenerateShell`, the selection-and-accumulation body of
  `generate_lightcone_shell`.

The model never takes a square root. The source compares `sqrt(d2)` with the
bounds. The model decides each such comparison exactly on squares:

- `LtRoot(c, d2)` is `c < 0 || c*c < d2`;
- `RootLt(d2, c)` is `0 <= c && d2 < c*c`.

`Geometry.RootCompare` proves that these agree with the comparisons on any
root `r >= 0`. For the same reason, `CheckSliceHit` stores squared corner
distances. `Replicas.SliceHitOnDistances` proves that this gives the source's
verdict, which is computed on the distances themselves.

Everything the source computes per tracer from its replica position `s` and
its velocity `v` enters as one function parameter, `project(s, v)`:

- the sky angles of `s/|s|`;
- the redshift from the cosmology's distance-redshift relation;
- the line-of-sight velocity and the redshift perturbation.

The conversion of the angles to degrees (`tp2rd`) is modelled concretely.

Where the comments and the code disagree, the model follows the code:

- The corner test rejects only strictly, when `chihigh < min r` or
  `chilow > max r`. A replica whose nearest corner lies exactly at `chiupp` is
  kept.
- The `NGALBOX` header value is `len(idx)`, the number of box tracers of the
  galaxy type. It is not the number of output rows. The comment at line 212
  says otherwise; `GenerateShell` returns the box population size.

## Model

| member | source | states |
|---|---|---|
| Geometry.ChiUpp | build_gallightcone_multibox.py:126-127 | The outer bound of a shell is the inner bound of the next shell, and lies above its own inner bound when the width is positive. |
| Geometry.ShellMid | build_gallightcone_multibox.py:128 | The mid-point lies strictly between the two bounds of a non-empty shell. |
| Geometry.ShellContaining | build_gallightcone_multibox.py:126-127 | Every distance lies in the half-open interval [chilow, chiupp) of some shell. |
| Geometry.ShellsDisjoint | build_gallightcone_multibox.py:126-127 | No distance lies in the half-open intervals of two different shells, so the shells partition the distance axis. |
| Geometry.InShellUnique | build_gallightcone_multibox.py:182 | Under the strict membership test, a distance belongs to at most one shell of non-negative index. |
| Geometry.BoundaryExcluded | build_gallightcone_multibox.py:182 | A tracer exactly on either bound is not in the shell: both ends are open. |
| Geometry.RootCompare | build_gallightcone_multibox.py:180-182 | Comparing a bound with the squared distance decides exactly what comparing it with the distance decides, in both directions. |
| Geometry.NTiles | build_gallightcone_multibox.py:129 | `ntiles` is the ceiling of `chiupp / boxL`: `(ntiles - 1) * boxL < chiupp <= ntiles * boxL`. |
| Replicas.ReplicaOffsetsEnumerateCube | build_gallightcone_multibox.py:169-171 | The loops visit every offset of [-ntiles, ntiles)^3 and nothing else. That is (2 ntiles)^3 offsets, in strictly increasing x-major order, so none is visited twice. |
| Replicas.MinIsLeast | build_gallightcone_multibox.py:97 | `np.min` is an element of the array and at most every element. |
| Replicas.MaxIsGreatest | build_gallightcone_multibox.py:99 | `np.max` is an element of the array and at least every element. |
| Replicas.CheckSliceHit | build_gallightcone_multibox.py:84-105 | The loop over the eight corners and the `boo` counter report a hit exactly when neither rejection test fires. |
| Replicas.SliceHitOnDistances | build_gallightcone_multibox.py:96-100 | For any corner distances whose squares are the squared corner distances, the corner test on squares gives the source's verdict on the distances. Both directions are proved. |
| Replicas.CornersBracket | build_gallightcone_multibox.py:86-96 | Every point of a replica lies no nearer than its nearest corner and no farther than its farthest corner. |
| Replicas.SliceHitSound | build_gallightcone_multibox.py:84-105 | A replica holding any point strictly inside the shell passes the corner test, so culling never loses a tracer. |
| Replicas.TilingCoversShell | build_gallightcone_multibox.py:129 | Any replica holding a point nearer than `chiupp` lies in the cube [-ntiles, ntiles)^3, so the tiling reaches every part of the shell. |
| Snapshots.ArgMin | build_gallightcone_multibox.py:110 | `np.argmin` returns the first index of a minimal cost. Infinite costs, from a zero scale factor, count as larger than every finite one. |
| Snapshots.FirstMinimumIsUnique | build_gallightcone_multibox.py:110 | Only one index is the first minimum, so the argmin is determined. |
| Snapshots.NearestSnap | build_gallightcone_multibox.py:107-110 | An empty table gives no snapshot. Otherwise the result is the id of the first row whose redshift `1/a - 1` is nearest `zmid`. |
| Snapshots.ResolveSnapshot | build_gallightcone_multibox.py:133-138 | A given snapshot is used as is. Otherwise the snapshot is the nearest one to the redshift at `chimid / h`, which exists exactly when the table is non-empty. |
| Sky.TpToRd | build_gallightcone_multibox.py:78-82 | Inclinations in [0, pi] give declinations in [-90, 90], with the pole at 90 and the equator at 0. Azimuths in [0, 2 pi) give right ascensions in [0, 360). |
| Sky.TpToRdRoundTrip | build_gallightcone_multibox.py:78-82 | Converting to degrees and back recovers the angles, and the other way round. |
| Sky.DecDecreasing | build_gallightcone_multibox.py:81 | Declination strictly decreases as the inclination grows. |
| Selection.Where | build_gallightcone_multibox.py:150 | `np.where(mask)[0]` is exactly the indices that satisfy the mask, each once, in increasing order. |
| Selection.WhereIsUnique | build_gallightcone_multibox.py:150 | Any increasing list of exactly the selected indices is `np.where`'s result. |
| Selection.GaltypeIndices | build_gallightcone_multibox.py:149-150 | The selected rows are exactly the catalogue rows of the requested galaxy type, in catalogue order. |
| Selection.BoxPopulation | build_gallightcone_multibox.py:150-157 | Position k of the box holds catalogue row `idx[k]`, as `d[idx, ...]` does. There is one tracer per selected index (`ngalbox` of them), each of the requested type, and every catalogue row of that type is in the box. |
| Selection.ShellIndices | build_gallightcone_multibox.py:177-182 | The tracers selected in one replica are exactly those strictly inside the shell once translated into it, in increasing order. |
| Lightcone.ReplicaPicks | build_gallightcone_multibox.py:182-191 | The (replica, tracer) pairs of one replica are exactly its contributing tracers, in increasing order, one per selected index. |
| Lightcone.CulledReplicaIsEmpty | build_gallightcone_multibox.py:173-175 | A replica the corner test rejects would select no tracer. |
| Lightcone.CullingIsTransparent | build_gallightcone_multibox.py:169-182 | For tracers inside the box, the culled selection equals the selection over every replica without culling. |
| Lightcone.AllPicksMembers | build_gallightcone_multibox.py:169-182 | The unculled selection holds exactly the contributing tracers of the visited replicas. |
| Lightcone.ShellIsExact | build_gallightcone_multibox.py:169-182 | A (replica, tracer) pair is output exactly when the tracer, moved into that replica, lies strictly inside the shell. This holds for every integer offset, so the cube and the culling lose nothing and add nothing. |
| Lightcone.ShellPicksIncreasing | build_gallightcone_multibox.py:169-191 | The output follows replica-visiting order, then catalogue order, strictly, so no pair is emitted twice. |
| Lightcone.ShellSizeIsHitCount | build_gallightcone_multibox.py:182-201 | The number of output rows is the sum, over the kept replicas, of their shell-member counts. |
| Lightcone.TabulateAppend | build_gallightcone_multibox.py:197-201 | Appending the columns of two blocks of rows gives the columns of the concatenated rows. |
| Lightcone.VisitedColumnsTabulate | build_gallightcone_multibox.py:173-201 | Building the columns replica by replica gives the columns of the shell's rows, row for row. |
| Lightcone.CubeColumnsVisit | build_gallightcone_multibox.py:169-171 | The columns built by the triple loop are the columns built by visiting the replicas in ReplicaOffsets order. |
| Lightcone.AppendReplica | build_gallightcone_multibox.py:173-201 | One loop body appends to the five columns exactly the rows of that replica's selected tracers. It appends nothing when the replica is culled or selects nothing. |
| Lightcone.AppendRow | build_gallightcone_multibox.py:171-201 | The `zz` loop appends the rows of the replicas (xx, yy, zz), zz from -ntiles to ntiles - 1, in that order. |
| Lightcone.AppendPlane | build_gallightcone_multibox.py:170-201 | The `yy` loop appends the rows of every replica with x = xx, in y-major order. |
| Lightcone.AppendCube | build_gallightcone_multibox.py:169-201 | The `xx` loop builds, from empty columns, the rows of every replica of the cube, in visiting order. |
| Lightcone.GenerateShell | build_gallightcone_multibox.py:126-201 | `ngalbox` is the box population of the galaxy type. The five output columns are the RA, DEC, Z, DZ and VEL_LOS of the shell's rows, in output order. |

## Left out

- Reading the configuration and the command line (lines 1-71, 229-234) is not modelled. Loading the scale-factor table and the catalogue (`np.loadtxt`) is not modelled either. The model takes the table and the catalogue as sequences.
- The missing-catalogue `IOError` branch (lines 142-148) is left out, because it is file I/O.
- The skip of shells whose output file exists (lines 120-122) is left out. So is the FITS writing (lines 203-216), which becomes the five columns plus `ngalbox`.
- The cosmology (CAMB, lines 219-227) and `redshift_at_comoving_radial_distance` are replaced by function parameters. They are `redshiftAt` in `ResolveSnapshot` and part of `project` in the lightcone.
- `hp.vec2ang`, the velocity rescaling by 1000 and back, `vlos` and `dz` (lines 185-195) are bundled into the parameter `project`, because they are floating-point or library code. Only their place in the output is modelled.
- The unused `totm` column (line 165) and the unused `zlist` (line 74) are not modelled.
- The range of shell numbers (lines 229-232), the MPI pool and the dispatch over galaxy types (lines 237-253) are left out, because they are process orchestration. `GenerateShell` models one (galaxy type, shell) job.
- Floating-point rounding is not modelled: distances, angles and redshifts are exact reals. Pi is 3.141592653589793, the shortest decimal that rounds to the double `np.pi`, not the exact value of that double. NaN costs in `getnearestsnap` are not modelled. A zero scale factor gives an infinite cost, as `1/0` does under numpy.
- Non-positive box length and zero Hubble parameter: `NTiles`, `ShellRows` and `GenerateShell` require `boxL > 0`, and `ResolveSnapshot` requires `h != 0`. The model takes a positive box length and Hubble parameter as given by the simulation configuration. In the source, `boxL == 0` raises ZeroDivisionError at line 129, and `h == 0` raises at line 134. A negative `boxL` runs in the source: `ntiles <= 0`, the loops do nothing, and the output is empty columns plus `ngalbox`. The model does not cover that run.
- 64-bit overflow in `checkslicehit`: the corner coordinates are an integer numpy array (lines 86-96), so `sx*sx + sy*sy + sz*sz` is computed in np.int64. It wraps silently once a coordinate exceeds about 3e9. The model's integers are unbounded, because only unphysical box sizes reach that bound.
- The progress messages printed at lines 124, 130-131, 136, 138 and 158 are left out, because they are output only.
- `numexpr` evaluation is modelled as the same arithmetic on reals.
- Sky.TpToRd: its ranges are stated for the inclination interval [0, pi] and the azimuth interval [0, 2 pi) that `hp.vec2ang` returns. Other inputs get only the formula.
