/** Collision-shape descriptors and the shape manager that shares and
    reference-counts them.  A live shape is identified by its canonical
    descriptor: the manager holds at most one shape per descriptor, so
    comparing shape handles is comparing descriptors. */
module Shapes {

  datatype Option<T> = None | Some(value: T)

  /** Integer stand-in for a 3-vector of the source's floats. */
  datatype Vec3 = Vec3(x: int, y: int, z: int)

  const Zero := Vec3(0, 0, 0)

  function Sub(a: Vec3, b: Vec3): Vec3 { Vec3(a.x - b.x, a.y - b.y, a.z - b.z) }

  /** Canonical shape descriptor (ShapeInfo).  `Box(edges)` is a box whose
      half-extents are half of `edges`; any other primitive an entity may
      describe is `Other`.  Only equality of descriptors matters here. */
  datatype ShapeInfo = Box(edges: Vec3) | Other(kind: nat, dims: Vec3)

  /** The descriptor `info.setBox(0.5 * scale)` builds for a voxel. */
  function VoxelBox(scale: int): ShapeInfo { Box(Vec3(scale, scale, scale)) }

  /** Reference counts of the live shapes: a descriptor is a key exactly
      while its shape exists. */
  type RefTable = map<ShapeInfo, nat>

  function CountOf(t: RefTable, s: ShapeInfo): nat { if s in t then t[s] else 0 }

  /** A shape exists only while somebody holds a reference to it. */
  ghost predicate Positive(t: RefTable) { forall s :: s in t ==> t[s] > 0 }

  /** getShape: share the cached shape, or build one when the geometry is
      acceptable; every success adds one reference. */
  function Acquire(t: RefTable, info: ShapeInfo, canBuild: ShapeInfo -> bool): (r: (Option<ShapeInfo>, RefTable))
    ensures r.0.Some? <==> (info in t || canBuild(info))
    ensures r.0.Some? ==> r.0.value == info && r.1.Keys == t.Keys + {info}
    ensures r.0.Some? ==> CountOf(r.1, info) == CountOf(t, info) + 1
    ensures r.0.None? ==> r.1 == t
    ensures forall s :: s != info ==> CountOf(r.1, s) == CountOf(t, s)
    ensures Positive(t) ==> Positive(r.1)
  {
    if info in t then (Some(info), t[info := t[info] + 1])
    else if canBuild(info) then (Some(info), t[info := 1])
    else (None, t)
  }

  /** releaseShape: drop one reference; the shape is destroyed when its
      last reference goes.  Releasing an unknown shape reports false. */
  function Release(t: RefTable, info: ShapeInfo): (r: (bool, RefTable))
    ensures r.0 <==> info in t
    ensures !r.0 ==> r.1 == t
    ensures r.0 ==> (info !in r.1 <==> t[info] <= 1)
    ensures r.0 && t[info] > 0 ==> CountOf(r.1, info) == CountOf(t, info) - 1
    ensures forall s :: s != info ==> CountOf(r.1, s) == CountOf(t, s)
    ensures Positive(t) ==> Positive(r.1)
  {
    if info !in t then (false, t)
    else if t[info] <= 1 then (true, t - {info})
    else (true, t[info := t[info] - 1])
  }

  /** A successful acquire followed by one release leaves the table as it
      was, whether the acquire shared a shape or built a new one. */
  lemma AcquireReleaseRoundTrip(t: RefTable, info: ShapeInfo, canBuild: ShapeInfo -> bool)
    requires Positive(t)
    requires info in t || canBuild(info)
    ensures Release(Acquire(t, info, canBuild).1, info) == (true, t)
  {
    var t1 := Acquire(t, info, canBuild).1;
    if info in t {
      assert t1[info := t1[info] - 1] == t;
    } else {
      assert t1 - {info} == t;
    }
  }

  /** `t'` is `t` with one reference moved from shape `from` to shape `to`
      (no change at all when they are the same shape). */
  ghost predicate RefMoved(t: RefTable, t': RefTable, from: ShapeInfo, to: ShapeInfo)
  {
    && (from == to ==> forall s :: CountOf(t', s) == CountOf(t, s))
    && (from != to ==> CountOf(t', to) == CountOf(t, to) + 1 && CountOf(t', from) == CountOf(t, from) - 1)
    && (forall s :: s != from && s != to ==> CountOf(t', s) == CountOf(t, s))
  }

  /** The shape swap of a hard update with the SHAPE bit (the acquisition
      failure handled): acquire the descriptor the entity now computes; a
      different shape replaces the held one, whose reference is released; the
      same shape gives its extra reference back; a failed acquisition keeps
      the held shape.  Yields the body's new shape and the new table. */
  function ShapeSwap(t: RefTable, held: ShapeInfo, info: ShapeInfo, canBuild: ShapeInfo -> bool): (r: (ShapeInfo, RefTable))
    requires Positive(t) && held in t
    ensures r.0 == (if info in t || canBuild(info) then info else held)
    ensures RefMoved(t, r.1, held, r.0)
    ensures Positive(r.1) && r.0 in r.1
  {
    var (got, t1) := Acquire(t, info, canBuild);
    match got
    case None => (held, t)
    case Some(shape) =>
      if shape != held then (shape, Release(t1, held).1)
      else (held, Release(t1, shape).1)
  }

  /** The same step as the source writes it.  A failed acquisition yields no
      shape, which differs from the held one, so the body is given no shape
      and the held reference is released.  In both of the source's branches
      the body ends with the acquired shape and the table loses one reference
      on the held shape: when the shapes are equal, releasing the new shape
      is releasing the held one. */
  function ShapeSwapAsWritten(t: RefTable, held: ShapeInfo, info: ShapeInfo, canBuild: ShapeInfo -> bool): (r: (Option<ShapeInfo>, RefTable))
    requires Positive(t) && held in t
    ensures r.0.Some? ==> (r.0.value, r.1) == ShapeSwap(t, held, info, canBuild)
  {
    var (got, t1) := Acquire(t, info, canBuild);
    (got, Release(t1, held).1)
  }

  /** When the shape manager rejects the new descriptor, the step as written
      leaves the body without a shape and gives up the reference on the shape
      it held, destroying that shape when it was the last reference; the
      corrected step keeps the held shape and changes nothing.  The shapeless
      body then goes back into the world, and a later easy update with MASS
      or a `removeEntity` reads its shape. */
  lemma ShapeSwapAsWrittenDropsShape(t: RefTable, held: ShapeInfo, info: ShapeInfo, canBuild: ShapeInfo -> bool)
    requires Positive(t) && held in t
    requires info !in t && !canBuild(info)
    ensures ShapeSwapAsWritten(t, held, info, canBuild).0 == None
    ensures CountOf(ShapeSwapAsWritten(t, held, info, canBuild).1, held) == CountOf(t, held) - 1
    ensures CountOf(t, held) == 1 ==> held !in ShapeSwapAsWritten(t, held, info, canBuild).1
    ensures ShapeSwap(t, held, info, canBuild) == (held, t)
  {
  }

  /** The shape cache.  Geometry acceptance (`canBuild`: the size limits on
      boxes and other primitives) is a parameter. */
  class ShapeManager {
    const canBuild: ShapeInfo -> bool
    var counts: RefTable

    ghost predicate Valid()
      reads this
    {
      Positive(counts)
    }

    constructor (canBuild: ShapeInfo -> bool)
      ensures Valid() && this.canBuild == canBuild && counts == map[]
    {
      this.canBuild := canBuild;
      counts := map[];
    }

    method GetShape(info: ShapeInfo) returns (shape: Option<ShapeInfo>)
      requires Valid()
      modifies this
      ensures Valid()
      ensures (shape, counts) == Acquire(old(counts), info, canBuild)
    {
      if info in counts {
        counts := counts[info := counts[info] + 1];
        shape := Some(info);
      } else if canBuild(info) {
        counts := counts[info := 1];
        shape := Some(info);
      } else {
        shape := None;
      }
    }

    method ReleaseShape(info: ShapeInfo) returns (released: bool)
      requires Valid()
      modifies this
      ensures Valid()
      ensures (released, counts) == Release(old(counts), info)
    {
      released := info in counts;
      if released {
        if counts[info] <= 1 {
          counts := counts - {info};
        } else {
          counts := counts[info := counts[info] - 1];
        }
      }
    }
  }
}
