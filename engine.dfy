/** The physics-engine facade: the voxel map, the entity lifecycle and the
    hard/easy update protocol, on top of a world of collision objects and a
    shared shape manager. */
module Engine {
  import opened Shapes
  import opened Bodies

  /** The value of a PositionHashKey. */
  type Key = int

  /** A rigid body's identity (the btRigidBody pointer). */
  type BodyId = nat

  /** Twice `position + 0.5 * scale`: the voxel's true centre, doubled so
      that it stays an integer. */
  function TrueCenter2(position: Vec3, scale: int): Vec3
  {
    Vec3(2 * position.x + scale, 2 * position.y + scale, 2 * position.z + scale)
  }

  /** A voxel record: its true centre and its static collision object (the
      object's shape and its doubled centre in the simulation's frame). */
  datatype Voxel = Voxel(center2: Vec3, shape: ShapeInfo, origin2: Vec3)

  /** A member of the dynamics world: a voxel's collision object, named by
      its voxel key, or a rigid body. */
  datatype WorldObject = VoxelObject(key: Key) | RigidBody(id: BodyId)

  ghost function WorldOf(voxels: map<Key, Voxel>, bodies: map<BodyId, Body>): set<WorldObject>
  {
    (set k | k in voxels :: VoxelObject(k)) + (set id | id in bodies :: RigidBody(id))
  }

  /** The voxels holding a reference on shape `s`. */
  ghost function VoxelHolders(voxels: map<Key, Voxel>, s: ShapeInfo): set<Key>
  {
    set k | k in voxels && voxels[k].shape == s
  }

  /** The bodies holding a reference on shape `s`. */
  ghost function BodyHolders(bodies: map<BodyId, Body>, s: ShapeInfo): set<BodyId>
  {
    set id | id in bodies && bodies[id].shape == s
  }

  ghost function Refs(voxels: map<Key, Voxel>, bodies: map<BodyId, Body>, s: ShapeInfo): nat
  {
    |VoxelHolders(voxels, s)| + |BodyHolders(bodies, s)|
  }

  /** Reference counting is balanced: every shape's count is the number of
      voxels and bodies that hold it. */
  ghost predicate Consistent(t: RefTable, voxels: map<Key, Voxel>, bodies: map<BodyId, Body>)
  {
    forall s :: CountOf(t, s) == Refs(voxels, bodies, s)
  }

  /** Every shape a voxel or a body holds is alive in the manager. */
  ghost predicate ShapesLive(t: RefTable, voxels: map<Key, Voxel>, bodies: map<BodyId, Body>)
  {
    && (forall k :: k in voxels ==> voxels[k].shape in t)
    && (forall id :: id in bodies ==> bodies[id].shape in t)
  }

  /** Every body id was handed out before `n`. */
  ghost predicate IdsBelow(bodies: map<BodyId, Body>, n: BodyId)
  {
    forall id :: id in bodies ==> id < n
  }

  lemma ConsistentShapesLive(t: RefTable, voxels: map<Key, Voxel>, bodies: map<BodyId, Body>)
    requires Consistent(t, voxels, bodies)
    ensures ShapesLive(t, voxels, bodies)
  {
    forall k | k in voxels ensures voxels[k].shape in t {
      assert k in VoxelHolders(voxels, voxels[k].shape);
      assert CountOf(t, voxels[k].shape) == Refs(voxels, bodies, voxels[k].shape);
    }
    forall id | id in bodies ensures bodies[id].shape in t {
      assert id in BodyHolders(bodies, bodies[id].shape);
      assert CountOf(t, bodies[id].shape) == Refs(voxels, bodies, bodies[id].shape);
    }
  }

  lemma VoxelHoldersInsert(voxels: map<Key, Voxel>, k: Key, v: Voxel, s: ShapeInfo)
    requires k !in voxels
    ensures |VoxelHolders(voxels[k := v], s)| == |VoxelHolders(voxels, s)| + (if v.shape == s then 1 else 0)
  {
    if v.shape == s {
      assert VoxelHolders(voxels[k := v], s) == VoxelHolders(voxels, s) + {k};
    } else {
      assert VoxelHolders(voxels[k := v], s) == VoxelHolders(voxels, s);
    }
  }

  lemma VoxelHoldersRemove(voxels: map<Key, Voxel>, k: Key, s: ShapeInfo)
    requires k in voxels
    ensures |VoxelHolders(voxels - {k}, s)| == |VoxelHolders(voxels, s)| - (if voxels[k].shape == s then 1 else 0)
  {
    if voxels[k].shape == s {
      assert VoxelHolders(voxels - {k}, s) == VoxelHolders(voxels, s) - {k};
    } else {
      assert VoxelHolders(voxels - {k}, s) == VoxelHolders(voxels, s);
    }
  }

  lemma BodyHoldersInsert(bodies: map<BodyId, Body>, id: BodyId, b: Body, s: ShapeInfo)
    requires id !in bodies
    ensures |BodyHolders(bodies[id := b], s)| == |BodyHolders(bodies, s)| + (if b.shape == s then 1 else 0)
  {
    if b.shape == s {
      assert BodyHolders(bodies[id := b], s) == BodyHolders(bodies, s) + {id};
    } else {
      assert BodyHolders(bodies[id := b], s) == BodyHolders(bodies, s);
    }
  }

  lemma BodyHoldersRemove(bodies: map<BodyId, Body>, id: BodyId, s: ShapeInfo)
    requires id in bodies
    ensures |BodyHolders(bodies - {id}, s)| == |BodyHolders(bodies, s)| - (if bodies[id].shape == s then 1 else 0)
  {
    if bodies[id].shape == s {
      assert BodyHolders(bodies - {id}, s) == BodyHolders(bodies, s) - {id};
    } else {
      assert BodyHolders(bodies - {id}, s) == BodyHolders(bodies, s);
    }
  }

  /** Replacing a body's record moves one reference from its old shape to the
      new record's shape. */
  lemma BodyHoldersUpdate(bodies: map<BodyId, Body>, id: BodyId, b: Body, s: ShapeInfo)
    requires id in bodies
    ensures |BodyHolders(bodies[id := b], s)|
         == |BodyHolders(bodies, s)| - (if bodies[id].shape == s then 1 else 0) + (if b.shape == s then 1 else 0)
  {
    var rest := bodies - {id};
    assert bodies[id := b] == rest[id := b];
    BodyHoldersRemove(bodies, id, s);
    BodyHoldersInsert(rest, id, b, s);
  }

  /** The balance survives a body changing shape when the counts move with
      it, and a body keeping its shape when the counts stay. */
  lemma ConsistentAfterReshape(t: RefTable, t': RefTable, voxels: map<Key, Voxel>, bodies: map<BodyId, Body>, id: BodyId, b: Body)
    requires Consistent(t, voxels, bodies) && id in bodies
    requires RefMoved(t, t', bodies[id].shape, b.shape)
    ensures Consistent(t', voxels, bodies[id := b])
  {
    forall s ensures CountOf(t', s) == Refs(voxels, bodies[id := b], s) {
      BodyHoldersUpdate(bodies, id, b, s);
    }
  }

  lemma WorldHasBody(voxels: map<Key, Voxel>, bodies: map<BodyId, Body>, id: BodyId)
    requires id in bodies
    ensures RigidBody(id) in WorldOf(voxels, bodies)
  {
  }

  /** Adding a body that holds one new reference on its shape keeps every
      engine invariant that mentions the bodies; the id is fresh. */
  lemma InsertBodyValid(t: RefTable, t': RefTable, voxels: map<Key, Voxel>, bodies: map<BodyId, Body>,
                        id: BodyId, b: Body)
    requires Consistent(t, voxels, bodies)
    requires IdsBelow(bodies, id)
    requires CountOf(t', b.shape) == CountOf(t, b.shape) + 1
    requires forall s :: s != b.shape ==> CountOf(t', s) == CountOf(t, s)
    ensures id !in bodies && RigidBody(id) !in WorldOf(voxels, bodies)
    ensures Consistent(t', voxels, bodies[id := b]) && ShapesLive(t', voxels, bodies[id := b])
    ensures WorldOf(voxels, bodies[id := b]) == WorldOf(voxels, bodies) + {RigidBody(id)}
    ensures IdsBelow(bodies[id := b], id + 1)
  {
    forall s ensures CountOf(t', s) == Refs(voxels, bodies[id := b], s) {
      BodyHoldersInsert(bodies, id, b, s);
    }
    ConsistentShapesLive(t', voxels, bodies[id := b]);
  }

  /** Removing a body together with the reference it holds keeps every
      engine invariant that mentions the bodies. */
  lemma RemoveBodyValid(t: RefTable, t': RefTable, voxels: map<Key, Voxel>, bodies: map<BodyId, Body>,
                        id: BodyId, n: BodyId)
    requires Consistent(t, voxels, bodies) && IdsBelow(bodies, n) && id in bodies
    requires CountOf(t', bodies[id].shape) == CountOf(t, bodies[id].shape) - 1
    requires forall s :: s != bodies[id].shape ==> CountOf(t', s) == CountOf(t, s)
    ensures Consistent(t', voxels, bodies - {id}) && ShapesLive(t', voxels, bodies - {id})
    ensures WorldOf(voxels, bodies - {id}) == WorldOf(voxels, bodies) - {RigidBody(id)}
    ensures IdsBelow(bodies - {id}, n)
  {
    forall s ensures CountOf(t', s) == Refs(voxels, bodies - {id}, s) {
      BodyHoldersRemove(bodies, id, s);
    }
    ConsistentShapesLive(t', voxels, bodies - {id});
  }

  /** Adding a voxel that holds one new reference on its shape keeps every
      engine invariant that mentions the voxels. */
  lemma InsertVoxelValid(t: RefTable, t': RefTable, voxels: map<Key, Voxel>, bodies: map<BodyId, Body>,
                         k: Key, v: Voxel)
    requires Consistent(t, voxels, bodies) && k !in voxels
    requires CountOf(t', v.shape) == CountOf(t, v.shape) + 1
    requires forall s :: s != v.shape ==> CountOf(t', s) == CountOf(t, s)
    ensures VoxelObject(k) !in WorldOf(voxels, bodies)
    ensures Consistent(t', voxels[k := v], bodies) && ShapesLive(t', voxels[k := v], bodies)
    ensures WorldOf(voxels[k := v], bodies) == WorldOf(voxels, bodies) + {VoxelObject(k)}
  {
    forall s ensures CountOf(t', s) == Refs(voxels[k := v], bodies, s) {
      VoxelHoldersInsert(voxels, k, v, s);
    }
    ConsistentShapesLive(t', voxels[k := v], bodies);
  }

  /** Removing a voxel together with the reference it holds keeps every
      engine invariant that mentions the voxels. */
  lemma RemoveVoxelValid(t: RefTable, t': RefTable, voxels: map<Key, Voxel>, bodies: map<BodyId, Body>, k: Key)
    requires Consistent(t, voxels, bodies) && k in voxels
    requires CountOf(t', voxels[k].shape) == CountOf(t, voxels[k].shape) - 1
    requires forall s :: s != voxels[k].shape ==> CountOf(t', s) == CountOf(t, s)
    ensures Consistent(t', voxels - {k}, bodies) && ShapesLive(t', voxels - {k}, bodies)
    ensures WorldOf(voxels - {k}, bodies) == WorldOf(voxels, bodies) - {VoxelObject(k)}
  {
    forall s ensures CountOf(t', s) == Refs(voxels - {k}, bodies, s) {
      VoxelHoldersRemove(voxels, k, s);
    }
    ConsistentShapesLive(t', voxels - {k}, bodies);
  }

  /** Replacing one body's record, with the counts moving as its shape
      does, keeps every engine invariant that mentions the bodies. */
  lemma ReplaceBodyValid(t: RefTable, t': RefTable, voxels: map<Key, Voxel>, bodies: map<BodyId, Body>,
                         id: BodyId, b: Body, nextBodyId: BodyId)
    requires Consistent(t, voxels, bodies) && id in bodies
    requires IdsBelow(bodies, nextBodyId)
    requires RefMoved(t, t', bodies[id].shape, b.shape)
    ensures Consistent(t', voxels, bodies[id := b]) && ShapesLive(t', voxels, bodies[id := b])
    ensures WorldOf(voxels, bodies[id := b]) == WorldOf(voxels, bodies)
    ensures IdsBelow(bodies[id := b], nextBodyId)
  {
    ConsistentAfterReshape(t, t', voxels, bodies, id, b);
    ConsistentShapesLive(t', voxels, bodies[id := b]);
  }

  /** Two voxels of different scales can share a true centre: a voxel of
      scale 4 at the origin and a removal request of scale 2 at (1, 1, 1)
      name the same key.  Releasing the box of the request's scale, as the
      source does, leaves the stored box counted with no holder; releasing
      the stored voxel's own shape keeps the counts balanced. */
  lemma RemoveVoxelAsWrittenMiscounts(hashKey: Vec3 -> Key)
    ensures var v := Voxel(TrueCenter2(Zero, 4), VoxelBox(4), TrueCenter2(Zero, 4));
      var k := hashKey(TrueCenter2(Zero, 4));
      var t := map[VoxelBox(4) := 1];
      && hashKey(TrueCenter2(Vec3(1, 1, 1), 2)) == k
      && Consistent(t, map[k := v], map[])
      && !Consistent(Release(t, VoxelBox(2)).1, map[k := v] - {k}, map[])
      && Consistent(Release(t, v.shape).1, map[k := v] - {k}, map[])
  {
    var v := Voxel(TrueCenter2(Zero, 4), VoxelBox(4), TrueCenter2(Zero, 4));
    var k := hashKey(TrueCenter2(Zero, 4));
    var t := map[VoxelBox(4) := 1];
    var voxels := map[k := v];
    assert TrueCenter2(Vec3(1, 1, 1), 2) == TrueCenter2(Zero, 4);
    forall s ensures CountOf(t, s) == Refs(voxels, map[], s) {
      assert BodyHolders(map[], s) == {};
      if s == VoxelBox(4) {
        assert VoxelHolders(voxels, s) == {k};
      } else {
        assert VoxelHolders(voxels, s) == {};
      }
    }
    var empty: map<Key, Voxel> := map[];
    assert voxels - {k} == empty;
    assert VoxelHolders(empty, VoxelBox(4)) == {};
    assert BodyHolders(map[], VoxelBox(4)) == {};
    assert CountOf(Release(t, VoxelBox(2)).1, VoxelBox(4)) == 1;
    forall s ensures CountOf(Release(t, v.shape).1, s) == Refs(empty, map[], s) {
      assert VoxelHolders(empty, s) == {};
      assert BodyHolders(map[], s) == {};
    }
  }

  /** updateEntityHard's effect on the body and on the reference counts:
      the shape swap (with SHAPE), the easy update (with any EASY bit), the
      canonical state of the new motion type, and a final activate(). */
  function HardUpdated(b: Body, p: EntityProps, u: Update, t: RefTable,
                       canBuild: ShapeInfo -> bool, inertiaOf: InertiaFn): (r: (Body, RefTable))
    requires Positive(t) && b.shape in t
    ensures r.0.collisionFlags == HardFlags(b.collisionFlags, p.motionType) && r.0.wakeRequested
    ensures !u.shape ==> r.0.shape == b.shape && r.1 == t
    ensures u.shape ==> (r.0.shape, r.1) == ShapeSwap(t, b.shape, p.shapeInfo, canBuild)
    ensures Positive(r.1) && r.0.shape in r.1 && RefMoved(t, r.1, b.shape, r.0.shape)
    ensures r.0.transform == (if u.easy && u.position then p.transform else b.transform)
    ensures r.0.restitution == (if u.easy then p.restitution else b.restitution)
    ensures r.0.friction == (if u.easy then p.friction else b.friction)
    ensures p.motionType == Kinematic ==> r.0.mass == 0 && r.0.inertia == Zero && r.0.activation == DisableDeactivation
    ensures p.motionType == Dynamic && !u.mass ==> r.0.mass == p.mass
    ensures p.motionType == Dynamic && u.mass ==> r.0.mass == (if u.easy then p.mass else b.mass)
    ensures Canonical(p.motionType) == Static ==>
      r.0.mass == 0 && r.0.inertia == Zero && r.0.velocity == Still && r.0.activation == DisableSimulation
  {
    var (shape, t') := if u.shape then ShapeSwap(t, b.shape, p.shapeInfo, canBuild) else (b.shape, t);
    var reshaped := b.(shape := shape);
    var eased := if u.easy then EasyUpdated(reshaped, p, u, inertiaOf) else reshaped;
    (Retyped(eased, p, u, inertiaOf).(wakeRequested := true), t')
  }

  /** HardUpdated is the composition of its steps, and the counts move with
      the shape exactly as ConsistentAfterReshape needs. */
  lemma HardUpdatedSteps(b: Body, reshaped: Body, eased: Body, body: Body, p: EntityProps, u: Update,
                         t: RefTable, t': RefTable, canBuild: ShapeInfo -> bool, inertiaOf: InertiaFn)
    requires Positive(t) && b.shape in t
    requires u.shape ==>
      var r := ShapeSwap(t, b.shape, p.shapeInfo, canBuild); reshaped == b.(shape := r.0) && t' == r.1
    requires !u.shape ==> reshaped == b && t' == t
    requires eased == if u.easy then EasyUpdated(reshaped, p, u, inertiaOf) else reshaped
    requires body == Retyped(eased, p, u, inertiaOf).(wakeRequested := true)
    ensures HardUpdated(b, p, u, t, canBuild, inertiaOf) == (body, t')
    ensures body.shape == reshaped.shape
    ensures RefMoved(t, t', b.shape, body.shape)
  {
  }

  /** The entity's motion state, the proxy between an entity and its body. */
  class MotionState {
    var props: EntityProps
    var body: Option<BodyId>

    constructor (props: EntityProps)
      ensures this.props == props && body == None
    {
      this.props := props;
      body := None;
    }
  }

  class PhysicsEngine {
    const shapeManager: ShapeManager
    /** PositionHashKey's quantisation of a doubled true centre. */
    const hashKey: Vec3 -> Key
    const masks: UpdateMasks
    const inertiaOf: InertiaFn
    /** World-space origin of the simulation's frame. */
    const originOffset: Vec3
    var voxels: map<Key, Voxel>
    var bodies: map<BodyId, Body>
    var world: set<WorldObject>
    var nextBodyId: BodyId

    ghost predicate Valid()
      reads this, shapeManager
    {
      && shapeManager.Valid()
      && masks.WellFormed()
      && Consistent(shapeManager.counts, voxels, bodies)
      && ShapesLive(shapeManager.counts, voxels, bodies)
      && world == WorldOf(voxels, bodies)
      && IdsBelow(bodies, nextBodyId)
    }

    constructor (canBuild: ShapeInfo -> bool, hashKey: Vec3 -> Key, masks: UpdateMasks, inertiaOf: InertiaFn, originOffset: Vec3)
      requires masks.WellFormed()
      ensures Valid() && fresh(shapeManager)
      ensures shapeManager.canBuild == canBuild && this.hashKey == hashKey && this.masks == masks
      ensures this.inertiaOf == inertiaOf && this.originOffset == originOffset
      ensures voxels == map[] && bodies == map[] && world == {} && shapeManager.counts == map[]
    {
      shapeManager := new ShapeManager(canBuild);
      this.hashKey := hashKey;
      this.masks := masks;
      this.inertiaOf := inertiaOf;
      this.originOffset := originOffset;
      voxels := map[];
      bodies := map[];
      world := {};
      nextBodyId := 0;
      new;
      forall s ensures CountOf(shapeManager.counts, s) == Refs(voxels, bodies, s) {
        assert VoxelHolders(voxels, s) == {};
        assert BodyHolders(bodies, s) == {};
      }
    }

    /** addVoxel: insert a static box collider unless one already sits at the
        key of its true centre or the shape manager rejects its size. */
    method AddVoxel(position: Vec3, scale: int) returns (added: bool)
      requires Valid()
      modifies this, shapeManager
      ensures Valid()
      ensures var key := hashKey(TrueCenter2(position, scale));
        var box := VoxelBox(scale);
        && (added <==> key !in old(voxels) && (box in old(shapeManager.counts) || shapeManager.canBuild(box)))
        && (added ==>
              && voxels == old(voxels)[key := Voxel(TrueCenter2(position, scale), box, TrueCenter2(Sub(position, originOffset), scale))]
              && VoxelObject(key) !in old(world) && world == old(world) + {VoxelObject(key)}
              && shapeManager.counts == Acquire(old(shapeManager.counts), box, shapeManager.canBuild).1)
        && (!added ==> voxels == old(voxels) && world == old(world) && shapeManager.counts == old(shapeManager.counts))
      ensures bodies == old(bodies) && nextBodyId == old(nextBodyId)
    {
      var trueCenter := TrueCenter2(position, scale);
      var key := hashKey(trueCenter);
      if key !in voxels {
        var info := VoxelBox(scale);
        var shape := shapeManager.GetShape(info);
        // the shape manager refuses a voxel whose size is out of range
        if shape.Some? {
          var shiftedCenter := TrueCenter2(Sub(position, originOffset), scale);
          var voxel := Voxel(trueCenter, shape.value, shiftedCenter);
          InsertVoxelValid(old(shapeManager.counts), shapeManager.counts, voxels, bodies, key, voxel);
          voxels := voxels[key := voxel];
          world := world + {VoxelObject(key)};
          return true;
        }
      }
      return false;
    }

    /** removeVoxel: take the voxel at the key of the true centre out of the
        world and the map, releasing the reference its collision object holds. */
    method RemoveVoxel(position: Vec3, scale: int) returns (removed: bool)
      requires Valid()
      modifies this, shapeManager
      ensures Valid()
      ensures var key := hashKey(TrueCenter2(position, scale));
        && (removed <==> key in old(voxels))
        && (removed ==>
              && voxels == old(voxels) - {key}
              && world == old(world) - {VoxelObject(key)}
              && shapeManager.counts == Release(old(shapeManager.counts), old(voxels)[key].shape).1)
        && (!removed ==> voxels == old(voxels) && world == old(world) && shapeManager.counts == old(shapeManager.counts))
      ensures bodies == old(bodies) && nextBodyId == old(nextBodyId)
    {
      var key := hashKey(TrueCenter2(position, scale));
      if key in voxels {
        var voxel := voxels[key];
        world := world - {VoxelObject(key)};
        var released := shapeManager.ReleaseShape(voxel.shape);
        assert released;
        RemoveVoxelValid(old(shapeManager.counts), shapeManager.counts, voxels, bodies, key);
        voxels := voxels - {key};
        return true;
      }
      return false;
    }

    /** removeVoxel as the source writes it: the reference released is that of
        a box of the caller's scale, not the shape the stored voxel holds. */
    method RemoveVoxelAsWritten(position: Vec3, scale: int) returns (removed: bool)
      requires Valid()
      modifies this, shapeManager
      ensures var key := hashKey(TrueCenter2(position, scale));
        && (removed <==> key in old(voxels))
        && (removed ==>
              && voxels == old(voxels) - {key}
              && world == old(world) - {VoxelObject(key)}
              && shapeManager.counts == Release(old(shapeManager.counts), VoxelBox(scale)).1)
        && (!removed ==> voxels == old(voxels) && world == old(world) && shapeManager.counts == old(shapeManager.counts))
      ensures bodies == old(bodies) && nextBodyId == old(nextBodyId)
    {
      var key := hashKey(TrueCenter2(position, scale));
      if key in voxels {
        world := world - {VoxelObject(key)};
        var released := shapeManager.ReleaseShape(VoxelBox(scale));
        voxels := voxels - {key};
        return true;
      }
      return false;
    }

    /** addEntity: acquire the proxy's shape, build its body, put it into the
        world and point the proxy at it. */
    method AddEntity(proxy: MotionState) returns (added: bool)
      requires Valid()
      modifies this, shapeManager, proxy`body
      ensures Valid()
      ensures added <==> proxy.props.shapeInfo in old(shapeManager.counts) || shapeManager.canBuild(proxy.props.shapeInfo)
      ensures added ==>
        var id := old(nextBodyId);
        && id !in old(bodies) && proxy.body == Some(id)
        && bodies == old(bodies)[id := NewBody(proxy.props, proxy.props.shapeInfo, inertiaOf)]
        && RigidBody(id) !in old(world) && world == old(world) + {RigidBody(id)}
        && shapeManager.counts == Acquire(old(shapeManager.counts), proxy.props.shapeInfo, shapeManager.canBuild).1
      ensures !added ==>
        && bodies == old(bodies) && world == old(world) && proxy.body == old(proxy.body)
        && shapeManager.counts == old(shapeManager.counts)
      ensures voxels == old(voxels)
    {
      var info := proxy.props.shapeInfo;
      var shape := shapeManager.GetShape(info);
      if shape.Some? {
        var id := nextBodyId;
        var body := NewBody(proxy.props, shape.value, inertiaOf);
        InsertBodyValid(old(shapeManager.counts), shapeManager.counts, voxels, bodies, id, body);
        nextBodyId := nextBodyId + 1;
        proxy.body := Some(id);
        bodies := bodies[id := body];
        world := world + {RigidBody(id)};
        return true;
      }
      return false;
    }

    /** removeEntity: take the proxy's body out of the world, release its
        shape, destroy it and clear the proxy's back-reference. */
    method RemoveEntity(proxy: MotionState) returns (removed: bool)
      requires Valid()
      requires proxy.body.Some? ==> proxy.body.value in bodies
      modifies this, shapeManager, proxy`body
      ensures Valid()
      ensures removed <==> old(proxy.body).Some?
      ensures proxy.body == None
      ensures removed ==>
        var id := old(proxy.body).value;
        && bodies == old(bodies) - {id}
        && world == old(world) - {RigidBody(id)}
        && shapeManager.counts == Release(old(shapeManager.counts), old(bodies)[id].shape).1
      ensures !removed ==> bodies == old(bodies) && world == old(world) && shapeManager.counts == old(shapeManager.counts)
      ensures voxels == old(voxels) && nextBodyId == old(nextBodyId)
    {
      if proxy.body.Some? {
        var id := proxy.body.value;
        var info := bodies[id].shape;
        world := world - {RigidBody(id)};
        var released := shapeManager.ReleaseShape(info);
        RemoveBodyValid(old(shapeManager.counts), shapeManager.counts, voxels, bodies, id, nextBodyId);
        bodies := bodies - {id};
        proxy.body := None;
        return true;
      }
      return false;
    }

    /** updateEntity: no body, no update; otherwise any HARD bit selects the
        hard path, else any EASY bit the easy one. */
    method UpdateEntity(proxy: MotionState, flags: bv32) returns (updated: bool)
      requires Valid()
      requires proxy.body.Some? ==> proxy.body.value in bodies
      requires Has(flags, masks.shape) ==> Has(flags, masks.mass)
      modifies this, shapeManager
      ensures Valid()
      ensures updated <==> proxy.body.Some?
      ensures voxels == old(voxels) && world == old(world) && nextBodyId == old(nextBodyId)
      ensures !updated || (!Has(flags, masks.hard) && !Has(flags, masks.easy)) ==>
        bodies == old(bodies) && shapeManager.counts == old(shapeManager.counts)
      ensures updated && Has(flags, masks.hard) ==>
        var id := proxy.body.value;
        var r := HardUpdated(old(bodies)[id], proxy.props, Decode(flags, masks), old(shapeManager.counts), shapeManager.canBuild, inertiaOf);
        bodies == old(bodies)[id := r.0] && shapeManager.counts == r.1
      ensures updated && !Has(flags, masks.hard) && Has(flags, masks.easy) ==>
        var id := proxy.body.value;
        bodies == old(bodies)[id := EasyUpdated(old(bodies)[id], proxy.props, Decode(flags, masks), inertiaOf)]
        && shapeManager.counts == old(shapeManager.counts)
    {
      if proxy.body.None? {
        return false;
      }
      var id := proxy.body.value;
      var u := Decode(flags, masks);
      if u.hard {
        // a hard update takes the body out of the world, changes it and puts it back
        UpdateEntityHard(id, proxy, u);
      } else if u.easy {
        // an easy update changes the body where it is
        var body := UpdateEntityEasy(bodies[id], proxy, u);
        ReplaceBodyValid(shapeManager.counts, shapeManager.counts, voxels, bodies, id, body, nextBodyId);
        bodies := bodies[id := body];
      }
      return true;
    }

    /** updateEntityHard: out of the world, the shape swap, the easy update,
        the motion-type switch, back into the world and a wake-up. */
    method UpdateEntityHard(id: BodyId, proxy: MotionState, u: Update)
      requires Valid() && id in bodies
      requires u.shape ==> u.mass
      modifies this`bodies, this`world, shapeManager
      ensures Valid()
      ensures world == old(world)
      ensures var r := HardUpdated(old(bodies)[id], proxy.props, u, old(shapeManager.counts), shapeManager.canBuild, inertiaOf);
        bodies == old(bodies)[id := r.0] && shapeManager.counts == r.1
    {
      // The source also reads the body's current motion type from its flags
      // here; nothing uses it.
      ghost var r := HardUpdated(old(bodies)[id], proxy.props, u, old(shapeManager.counts), shapeManager.canBuild, inertiaOf);
      WorldHasBody(voxels, bodies, id);
      world := world - {RigidBody(id)};
      var body := RebuildBody(bodies[id], proxy, u);
      assert body == r.0 && shapeManager.counts == r.1;
      // reinsertion into the world, then activate()
      ReplaceBodyValid(old(shapeManager.counts), shapeManager.counts, voxels, bodies, id, body, nextBodyId);
      bodies := bodies[id := body];
      world := world + {RigidBody(id)};
    }

    /** The part of updateEntityHard between pulling the body out of the
        world and putting it back: the shape swap, the easy update, the
        motion-type switch and activate(). */
    method RebuildBody(body: Body, proxy: MotionState, u: Update) returns (rebuilt: Body)
      requires shapeManager.Valid() && body.shape in shapeManager.counts
      modifies shapeManager
      ensures shapeManager.Valid()
      ensures (rebuilt, shapeManager.counts) == HardUpdated(body, proxy.props, u, old(shapeManager.counts), shapeManager.canBuild, inertiaOf)
    {
      rebuilt := body;
      if u.shape {
        var shape := SwapShape(body.shape, proxy.props.shapeInfo);
        rebuilt := rebuilt.(shape := shape);
      }
      ghost var reshaped := rebuilt;
      if u.easy {
        rebuilt := UpdateEntityEasy(rebuilt, proxy, u);
      }
      ghost var eased := rebuilt;
      rebuilt := Retyped(rebuilt, proxy.props, u, inertiaOf);
      rebuilt := rebuilt.(wakeRequested := true);
      HardUpdatedSteps(body, reshaped, eased, rebuilt, proxy.props, u,
                       old(shapeManager.counts), shapeManager.counts, shapeManager.canBuild, inertiaOf);
    }

    /** The shape swap of updateEntityHard, with the acquisition failure
        handled: the body keeps its shape when the manager rejects the new
        descriptor.  Returns the body's shape. */
    method SwapShape(oldShape: ShapeInfo, info: ShapeInfo) returns (shape: ShapeInfo)
      requires shapeManager.Valid() && oldShape in shapeManager.counts
      modifies shapeManager
      ensures shapeManager.Valid()
      ensures (shape, shapeManager.counts) == ShapeSwap(old(shapeManager.counts), oldShape, info, shapeManager.canBuild)
    {
      var newShape := shapeManager.GetShape(info);
      if newShape.Some? && newShape.value != oldShape {
        var released := shapeManager.ReleaseShape(oldShape);
        shape := newShape.value;
      } else if newShape.Some? {
        // the shape did not change: give back the reference the lookup took
        var released := shapeManager.ReleaseShape(newShape.value);
        shape := oldShape;
      } else {
        shape := oldShape;
      }
    }

    /** updateEntityEasy: the body changed where it is, one field group per
        bit of the update. */
    method UpdateEntityEasy(body: Body, proxy: MotionState, u: Update) returns (updated: Body)
      ensures updated == EasyUpdated(body, proxy.props, u, inertiaOf)
    {
      var p := proxy.props;
      updated := body;
      if u.position {
        updated := updated.(transform := p.transform);
      }
      if u.velocity {
        // applyVelocities and applyGravity
        updated := updated.(velocity := p.velocity, gravity := p.gravity);
      }
      updated := updated.(restitution := p.restitution, friction := p.friction);
      if u.mass {
        updated := updated.(mass := p.mass, inertia := inertiaOf(body.shape, p.mass));
      }
      updated := updated.(wakeRequested := true);
    }
  }
}
