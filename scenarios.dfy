/** Call sequences a client of the engine performs, and what the engine's
    contracts promise about them. */
module Scenarios {
  import opened Shapes
  import opened Bodies
  import opened Engine

  /** Adding the same voxel twice: the second call never succeeds. */
  method AddVoxelTwice(e: PhysicsEngine, position: Vec3, scale: int) returns (first: bool, second: bool)
    requires e.Valid()
    modifies e, e.shapeManager
    ensures e.Valid()
    ensures !second
    ensures first <==> KeyOf(e, position, scale) !in old(e.voxels)
                       && (VoxelBox(scale) in old(e.shapeManager.counts) || e.shapeManager.canBuild(VoxelBox(scale)))
  {
    first := e.AddVoxel(position, scale);
    second := e.AddVoxel(position, scale);
  }

  /** The key a voxel request names. */
  function KeyOf(e: PhysicsEngine, position: Vec3, scale: int): Key
  {
    e.hashKey(TrueCenter2(position, scale))
  }

  /** A voxel added and then removed leaves the voxel map, the world and the
      reference counts as they were. */
  method AddThenRemoveVoxel(e: PhysicsEngine, position: Vec3, scale: int) returns (added: bool, removed: bool)
    requires e.Valid()
    modifies e, e.shapeManager
    ensures e.Valid()
    ensures added ==> removed
    ensures added ==> e.voxels == old(e.voxels) && e.world == old(e.world) && e.shapeManager.counts == old(e.shapeManager.counts)
  {
    added := e.AddVoxel(position, scale);
    ghost var voxels := e.voxels;
    removed := e.RemoveVoxel(position, scale);
    if added {
      var key := e.hashKey(TrueCenter2(position, scale));
      AcquireReleaseRoundTrip(old(e.shapeManager.counts), VoxelBox(scale), e.shapeManager.canBuild);
      assert voxels[key].shape == VoxelBox(scale);
      assert e.voxels == old(e.voxels);
      assert e.world == old(e.world);
    }
  }

  /** Removing an entity twice: the second call finds no body and reports
      false. */
  method RemoveEntityTwice(e: PhysicsEngine, proxy: MotionState) returns (first: bool, second: bool)
    requires e.Valid()
    requires proxy.body.Some? ==> proxy.body.value in e.bodies
    modifies e, e.shapeManager, proxy`body
    ensures e.Valid()
    ensures first <==> old(proxy.body).Some?
    ensures !second && proxy.body == None
  {
    first := e.RemoveEntity(proxy);
    second := e.RemoveEntity(proxy);
  }

  /** An entity added and then removed leaves the bodies, the world and the
      reference counts as they were, and its proxy without a body. */
  method AddThenRemoveEntity(e: PhysicsEngine, proxy: MotionState) returns (added: bool, removed: bool)
    requires e.Valid()
    modifies e, e.shapeManager, proxy`body
    ensures e.Valid()
    ensures added ==> removed && proxy.body == None
    ensures added ==> e.bodies == old(e.bodies) && e.world == old(e.world) && e.shapeManager.counts == old(e.shapeManager.counts)
  {
    added := e.AddEntity(proxy);
    if added {
      removed := e.RemoveEntity(proxy);
      AcquireReleaseRoundTrip(old(e.shapeManager.counts), proxy.props.shapeInfo, e.shapeManager.canBuild);
      assert e.bodies == old(e.bodies);
      assert e.world == old(e.world);
    } else {
      removed := false;
    }
  }

  /** Removing a voxel twice: the second call finds no voxel under the key,
      reports false and changes nothing. */
  method RemoveVoxelTwice(e: PhysicsEngine, position: Vec3, scale: int) returns (first: bool, second: bool)
    requires e.Valid()
    modifies e, e.shapeManager
    ensures e.Valid()
    ensures first <==> KeyOf(e, position, scale) in old(e.voxels)
    ensures !second
    ensures KeyOf(e, position, scale) !in e.voxels
  {
    first := e.RemoveVoxel(position, scale);
    ghost var voxels := e.voxels;
    second := e.RemoveVoxel(position, scale);
    assert e.voxels == voxels;
  }

  /** A velocity-only update of an entity whose masks put VELOCITY in the
      easy group and not the hard one: the body keeps its flags, transform
      and mass, takes the proxy's velocity, and stays in the world. */
  method VelocityOnlyUpdate(e: PhysicsEngine, proxy: MotionState) returns (updated: bool)
    requires e.Valid()
    requires proxy.body.Some? && proxy.body.value in e.bodies
    requires Has(e.masks.velocity, e.masks.easy) && !Has(e.masks.velocity, e.masks.hard)
    modifies e, e.shapeManager
    ensures e.Valid() && updated
    ensures e.world == old(e.world) && e.shapeManager.counts == old(e.shapeManager.counts)
    ensures e.bodies.Keys == old(e.bodies).Keys
    ensures var id := proxy.body.value;
      var b, b0 := e.bodies[id], old(e.bodies)[id];
      && b.collisionFlags == b0.collisionFlags && b.transform == b0.transform
      && b.mass == b0.mass && b.velocity == proxy.props.velocity
  {
    updated := e.UpdateEntity(proxy, e.masks.velocity);
    VelocityOnlyEasyUpdate(old(e.bodies)[proxy.body.value], proxy.props, e.masks, e.inertiaOf);
  }
}
