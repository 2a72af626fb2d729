# PhysicsEngine bookkeeping, modelled in Dafny

This project models the bookkeeping layer of hifi's `PhysicsEngine`
(`libraries/physics/src/PhysicsEngine.cpp`). That layer sits between the
entity system and the Bullet simulator. It does three things:

- **Voxel map.** `addVoxel` and `removeVoxel` keep static box colliders in a
  map keyed by a hash of the voxel's true centre, `position + 0.5 * scale`.
- **Entity lifecycle.** `addEntity` and `removeEntity` build and destroy a
  rigid body for a motion-state proxy. They put the body into the world or
  take it out, and they set or clear the proxy's `_body` back-reference.
- **Update protocol.** `updateEntity` dispatches to `updateEntityHard` or
  `updateEntityEasy`. The hard path pulls the body out of the world, swaps
  its shape, rewrites its collision flags for the new motion type and puts
  it back.

Every voxel and every body holds one reference on a shared collision shape
from the shape manager.

The model is imperative, like the source:

- `Engine.PhysicsEngine` is a class whose fields are the voxel map, the
  bodies, the set of world members and the next body id. Its methods change
  them in place.
- `Shapes.ShapeManager` is a class holding the reference-count table.
- `Engine.MotionState` is the proxy, whose `body` field the engine writes.

Each method is specified against pure functions:

- `Acquire`, `Release` and `ShapeSwap` on the count table;
- `NewBody`, `EasyUpdated`, `Retyped` and `HardUpdated` on a body record;
- `HardFlags` on the collision-flag bits.

The class invariant `Valid` ties the state together:

- every shape's count equals the number of voxels and bodies that hold it (`Consistent`);
- every held shape is alive (`ShapesLive`);
- the world holds exactly one object per voxel and per body (`WorldOf`);
- body ids are below the next id to hand out.

Every engine method except `RemoveVoxelAsWritten` preserves `Valid`.

Files:

- `shapes.dfy` (module `Shapes`): shape descriptors, the count table and `ShapeManager`.
- `bodies.dfy` (module `Bodies`): the body record, collision flags, update masks and the per-body effect of each step.
- `engine.dfy` (module `Engine`): the engine class, the proxy class and the invariant lemmas.
- `scenarios.dfy` (module `Scenarios`): call sequences a client performs.

Modelling choices:

- **Shape handles.** A shape is identified by its canonical descriptor
  (`ShapeInfo`). The shape manager keeps at most one shape per descriptor,
  so comparing shape pointers, as the source does, is comparing descriptors.
  `ShapeManager.cpp` is not part of this model. `getShape` and
  `releaseShape` are modelled from the way `PhysicsEngine.cpp` uses them:
  - `getShape` shares or builds a shape and adds a reference, and may fail;
  - `releaseShape` drops a reference, destroys the shape at zero, and
    reports false for an unknown shape.
  Which geometry the manager accepts is a parameter, `canBuild`.
- **Lengths.** Positions and scales are integers. The voxel's true centre is
  kept doubled (`2 * position + scale`), so that `0.5 * scale` stays exact.
  `VoxelBox(scale)` stands for the box of half-extents `0.5 * scale`.
- **Parameters.** `PositionHashKey` is a parameter (`hashKey`). So are the
  `PHYSICS_UPDATE_*` masks (`UpdateMasks`), which are required to be nonzero
  and pairwise disjoint for POSITION, VELOCITY, MASS and SHAPE. Local inertia
  (`calculateLocalInertia`) is the abstract function `inertiaOf`.
- **Decoded update.** An update's flags are decoded once (`Decode`) into the
  groups they name. The hard and easy steps take the decoded update, where
  the source passes the raw flags.
- **Collision flags** are a `bv32`, with `CF_STATIC_OBJECT = 1` and
  `CF_KINEMATIC_OBJECT = 2` as in the comment at
  `libraries/physics/src/PhysicsEngine.cpp:117-124`.
- **Wake-ups.** `activate()` is recorded as `wakeRequested`. The activation
  states the engine forces are an enum.
- **Fresh dynamic bodies.** A body's flags just after Bullet's constructor
  are `CF_STATIC_OBJECT` exactly when its mass is zero. A dynamic proxy with
  mass 0 therefore gets a static body. The later `setMassProps` calls in the
  update paths keep only their mass and inertia (see "Left out").
- **Body identity.** Bodies are records in a map keyed by `BodyId`; the id
  plays the role of the `btRigidBody*` pointer. World members are voxel keys
  and body ids.
- **Repeated `addEntity`.** `addEntity` does not check whether the proxy
  already has a body (`libraries/physics/src/PhysicsEngine.cpp:126-131`). A
  second call builds a second body, adds it to the world and overwrites
  `_body`, and the model does the same.

## Model

| member | source | states |
|---|---|---|
| Shapes.Acquire | libraries/physics/src/PhysicsEngine.cpp:70 | getShape succeeds iff the descriptor is cached or buildable; on success it returns that descriptor and adds exactly one reference to it and no other; on failure the table is unchanged; counts stay positive |
| Shapes.Release | libraries/physics/src/PhysicsEngine.cpp:106-107 | releaseShape reports true iff the shape is live; it removes exactly one reference; the shape is destroyed iff that was its last reference; an unknown shape leaves the table unchanged |
| Shapes.AcquireReleaseRoundTrip | libraries/physics/src/PhysicsEngine.cpp:61-115 | a successful acquire followed by one release restores the table exactly, whether the shape was shared or newly built |
| Shapes.ShapeSwap | libraries/physics/src/PhysicsEngine.cpp:218-233 | the hard update's shape swap with the failure handled. The body ends with the new descriptor iff it could be acquired. An unchanged shape leaves every count as it was. A changed shape moves one reference from the old shape to the new one. The held shape stays alive |
| Shapes.ShapeSwapAsWritten | libraries/physics/src/PhysicsEngine.cpp:218-233 | the swap as written; whenever the acquisition succeeds it agrees with ShapeSwap |
| Shapes.ShapeSwapAsWrittenDropsShape | libraries/physics/src/PhysicsEngine.cpp:222-226 | when getShape fails, the swap as written leaves the body with no shape and gives up its reference on the old shape, destroying that shape when it held the last reference, where ShapeSwap keeps the old shape and changes nothing |
| Shapes.ShapeManager.GetShape | libraries/physics/src/PhysicsEngine.cpp:70 | the manager's new count table and result are Acquire's |
| Shapes.ShapeManager.ReleaseShape | libraries/physics/src/PhysicsEngine.cpp:106 | the manager's new count table and result are Release's |
| Bodies.NewBody | libraries/physics/src/PhysicsEngine.cpp:126-171 | the body addEntity builds. Its mass is 0 unless the type is dynamic. Kinematic gets CF_KINEMATIC_OBJECT and DISABLE_DEACTIVATION. Static and unknown types get CF_STATIC_OBJECT. Dynamic takes its inertia, velocity and gravity from the proxy. Restitution, friction and the world-gravity flag are set for all types |
| Bodies.KinematicFlags | libraries/physics/src/PhysicsEngine.cpp:242-244 | sets bit 2, clears bit 1, keeps every other bit; the result classifies as kinematic |
| Bodies.DynamicFlags | libraries/physics/src/PhysicsEngine.cpp:252-253 | clears bits 1 and 2, keeps every other bit; the result classifies as dynamic |
| Bodies.StaticFlags | libraries/physics/src/PhysicsEngine.cpp:268-270 | sets bit 1, clears bit 2, keeps every other bit; the result classifies as static |
| Bodies.HardFlags | libraries/physics/src/PhysicsEngine.cpp:240-280 | the switch's rewrite of the flags keeps all bits but the two motion bits, and the result classifies as the new motion type (unknown types as static) |
| Bodies.EasyUpdated | libraries/physics/src/PhysicsEngine.cpp:289-309 | the easy update never touches flags, shape or activation state. It always copies restitution and friction and wakes the body. It sets the transform iff POSITION is set, velocity and gravity iff VELOCITY is set, and mass and inertia iff MASS is set |
| Bodies.Retyped | libraries/physics/src/PhysicsEngine.cpp:240-280 | the motion-type switch. Kinematic: mass 0, zero inertia, DISABLE_DEACTIVATION. Dynamic: mass and inertia from the proxy iff MASS is not set, then a wake-up. Static and unknown: mass 0, zero inertia, DISABLE_SIMULATION, zero velocity. Shape, transform and material are kept |
| Bodies.VelocityOnlyEasyUpdate | libraries/physics/src/PhysicsEngine.cpp:289-309 | an easy update carrying only VELOCITY keeps flags, transform and mass and takes the proxy's velocity |
| Bodies.StaticToDynamic | libraries/physics/src/PhysicsEngine.cpp:251-265 | a static body retyped to dynamic without MASS classifies as dynamic and takes the proxy's mass; its activation state is left as it was, and a wake-up (`activate(true)`) is requested |
| Bodies.StaticThenDynamic | libraries/physics/src/PhysicsEngine.cpp:240-280 | a body made static by one hard update (DISABLE_SIMULATION forced at :271) and dynamic by the next classifies as dynamic but keeps DISABLE_SIMULATION, with a wake-up requested |
| Engine.ConsistentShapesLive | libraries/physics/src/PhysicsEngine.cpp:61-286 | when the counts are balanced, every shape a voxel or body holds is alive in the manager |
| Engine.ConsistentAfterReshape | libraries/physics/src/PhysicsEngine.cpp:218-233 | the counts stay balanced when a body's shape changes and one reference moves with it |
| Engine.InsertVoxelValid | libraries/physics/src/PhysicsEngine.cpp:70-87 | inserting a voxel together with one new reference keeps the counts balanced and adds exactly its object to the world |
| Engine.RemoveVoxelValid | libraries/physics/src/PhysicsEngine.cpp:98-113 | removing a voxel together with one reference on its own shape keeps the counts balanced and removes exactly its object from the world |
| Engine.InsertBodyValid | libraries/physics/src/PhysicsEngine.cpp:130-168 | adding a body with a fresh id and one new reference keeps the counts balanced and adds exactly that body to the world |
| Engine.RemoveBodyValid | libraries/physics/src/PhysicsEngine.cpp:176-185 | removing a body together with one reference on its shape keeps the counts balanced and removes exactly that body from the world |
| Engine.ReplaceBodyValid | libraries/physics/src/PhysicsEngine.cpp:206-309 | replacing a body's record, with one reference moving with its shape, keeps the counts balanced and the world unchanged |
| Engine.RemoveVoxelAsWrittenMiscounts | libraries/physics/src/PhysicsEngine.cpp:93-107 | a scale-4 voxel at the origin and a scale-2 request at (1,1,1) share a key. Releasing the request's box, as written, unbalances the counts. Releasing the stored voxel's shape keeps them balanced |
| Engine.HardUpdated | libraries/physics/src/PhysicsEngine.cpp:206-286 | the hard update's effect on one body and on the counts. Flags per HardFlags. Shape and counts per ShapeSwap when SHAPE is set, otherwise unchanged. Transform and material per the easy update when EASY is set. Mass and activation per the new motion type. The body is always woken |
| Engine.PhysicsEngine.AddVoxel | libraries/physics/src/PhysicsEngine.cpp:61-91 | returns true iff the key is free and the box can be acquired. Then exactly one map entry and one world object are added and one reference is taken. Otherwise nothing changes. The invariant is preserved |
| Engine.PhysicsEngine.RemoveVoxel | libraries/physics/src/PhysicsEngine.cpp:93-115 | returns true iff the key is present. Then the entry and its world object go and one reference on the stored voxel's shape is released. Otherwise nothing changes. The invariant is preserved |
| Engine.PhysicsEngine.RemoveVoxelAsWritten | libraries/physics/src/PhysicsEngine.cpp:93-115 | removeVoxel as written: the reference released is on the box of the caller's scale |
| Engine.PhysicsEngine.AddEntity | libraries/physics/src/PhysicsEngine.cpp:126-171 | returns true iff the proxy's shape can be acquired. Then a body NewBody describes is added under a fresh id, put into the world and linked from the proxy, and one reference is taken. Otherwise nothing changes |
| Engine.PhysicsEngine.RemoveEntity | libraries/physics/src/PhysicsEngine.cpp:173-187 | returns true iff the proxy has a body. Then the body leaves the map and the world, one reference on its shape is released, and the proxy's body is cleared. The invariant is preserved |
| Engine.PhysicsEngine.UpdateEntity | libraries/physics/src/PhysicsEngine.cpp:189-203 | returns true iff the proxy has a body. Any HARD bit applies HardUpdated, else any EASY bit applies EasyUpdated, else nothing changes. Voxels and world membership never change |
| Engine.PhysicsEngine.UpdateEntityHard | libraries/physics/src/PhysicsEngine.cpp:206-286 | the body is replaced by HardUpdated's body and the counts by its table; the body is back in the world; the invariant is preserved |
| Engine.PhysicsEngine.RebuildBody | libraries/physics/src/PhysicsEngine.cpp:216-285 | the steps between removal and reinsertion yield HardUpdated's body and table |
| Engine.PhysicsEngine.SwapShape | libraries/physics/src/PhysicsEngine.cpp:218-233 | the manager calls of the swap produce ShapeSwap's shape and table |
| Engine.PhysicsEngine.UpdateEntityEasy | libraries/physics/src/PhysicsEngine.cpp:289-309 | the step-by-step easy update yields EasyUpdated's body |
| Scenarios.AddVoxelTwice | libraries/physics/src/PhysicsEngine.cpp:61-91 | a second addVoxel of the same position and scale always returns false |
| Scenarios.AddThenRemoveVoxel | libraries/physics/src/PhysicsEngine.cpp:61-115 | after a successful addVoxel, removeVoxel succeeds and restores the voxel map, the world and the reference counts |
| Scenarios.RemoveVoxelTwice | libraries/physics/src/PhysicsEngine.cpp:93-115 | a second removeVoxel of the same position and scale always returns false, and the key is then absent |
| Scenarios.VelocityOnlyUpdate | libraries/physics/src/PhysicsEngine.cpp:189-203 | with VELOCITY in the easy group and not the hard one, updateEntity with only VELOCITY succeeds, keeps the body's flags, transform and mass, gives it the proxy's velocity, and leaves the world and counts as they were |
| Scenarios.RemoveEntityTwice | libraries/physics/src/PhysicsEngine.cpp:173-187 | a second removeEntity always returns false and leaves the proxy without a body |
| Scenarios.AddThenRemoveEntity | libraries/physics/src/PhysicsEngine.cpp:126-187 | after a successful addEntity, removeEntity succeeds and restores the bodies, the world and the reference counts |

## Left out

- `init` and the destructor: they allocate and free Bullet's collaborators and a ground plane. The engine's constructor stands for the state after `init`.
- `stepSimulation`: it reads the wall clock, clamps the step with `min(dt, MAX_TIMESTEP)` in floating point and calls Bullet's integrator.
- `interface/src/ConnectionMonitor.h`: Qt timer and signal plumbing with no logic in it.
- Bullet internals are opaque writes to the body record, not numeric behaviour:
  - `calculateLocalInertia` is the parameter `inertiaOf`;
  - `updateInertiaTensor` is not modelled;
  - `applyVelocities` and `applyGravity` copy the proxy's velocity and gravity;
  - Bullet's activation rules are not modelled; `activate()` only sets `wakeRequested`.
- Floating-point vector arithmetic: lengths are integers, and `PositionHashKey`'s quantisation is the abstract `hashKey`.
- The values of the `PHYSICS_UPDATE_*` masks: `PhysicsConstants` is not part of this model, so the masks are a parameter.
- `ShapeManager.cpp` is not part of this model:
  - the size limits that make `getShape` fail are the parameter `canBuild`;
  - `collectInfo`, which rebuilds a descriptor from a live shape in `removeEntity`, is the identity, because a shape is its descriptor;
  - releasing an unknown shape reports false and changes nothing.
- Ownership and deallocation (`new`, `delete`) and the `btCollisionObject` of a voxel: a voxel record keeps the shape and the doubled origin of its object.
- The debug `assert`s: `assert(released)` in `removeVoxel` holds in the corrected `RemoveVoxel`; as written it fails on the key collision of the first Findings row; the non-null `motionState` asserts are implicit in Dafny's non-null references.
- Reads whose values are unused:
  - the old motion type in `updateEntityHard` (`libraries/physics/src/PhysicsEngine.cpp:207-213`);
  - the velocity and gravity at the end of `updateEntityEasy` (`libraries/physics/src/PhysicsEngine.cpp:311-312`).
- The proxy-to-body link is not part of the engine's invariant. `removeEntity` and `updateEntity` require that a proxy's body is one of the engine's bodies, because the source dereferences it.
- Bodies.EasyUpdated: Bullet's `setMassProps` also sets `CF_STATIC_OBJECT` when the mass is 0 and clears it otherwise. `setMassProps` is Bullet code outside this model, so this side effect is modelled only in the constructor (`ConstructedFlags`). The call at `libraries/physics/src/PhysicsEngine.cpp:306` changes only mass and inertia here, and the flags are kept.
- Bodies.StaticToDynamic: whether the body leaves DISABLE_SIMULATION when it goes dynamic is not modelled. The dynamic case at `libraries/physics/src/PhysicsEngine.cpp:251-265` writes no activation state of its own, and `activate(true)` at :263 and `activate()` at :285 are Bullet calls whose effect on a DISABLE_SIMULATION body is decided by Bullet's activation rules, which are outside this model. The model keeps the activation state and records only the wake-up request (`StaticThenDynamic`).
- Bodies.Retyped: as for `EasyUpdated`, the `setMassProps` calls at `libraries/physics/src/PhysicsEngine.cpp:247`, `:259` and `:273` change only mass and inertia. With Bullet's side effect, the kinematic case's `setMassProps(0)` at :247 would set `CF_STATIC_OBJECT` again, so the body's flags would classify as static. The dynamic case at :259 would clear or set that bit according to the proxy's mass. The model's flags are those the switch itself writes (`HardFlags`).
- Engine.PhysicsEngine.UpdateEntity: requires that SHAPE implies MASS, the source's debug assert at `libraries/physics/src/PhysicsEngine.cpp:232`, although nothing in the model depends on it.

## Findings

| source | as written | input that shows it | evidently intended | confidence | as-written member | corrected member |
|---|---|---|---|---|---|---|
| libraries/physics/src/PhysicsEngine.cpp:102-107 | removeVoxel releases a box built from the caller's scale, not the shape the stored voxel holds | addVoxel((0,0,0), 4) then removeVoxel((1,1,1), 2): both true centres are (2,2,2), so the removal finds the scale-4 voxel, releases the scale-2 box (unknown, so nothing is released) and leaves the scale-4 box counted with no holder | release the shape of the collision object being deleted | not executed | Engine.PhysicsEngine.RemoveVoxelAsWritten, Engine.RemoveVoxelAsWrittenMiscounts | Engine.PhysicsEngine.RemoveVoxel |
| libraries/physics/src/PhysicsEngine.cpp:222-226 | when getShape fails, the null result counts as a different shape: the body is given a null shape and its reference on the old shape is released. The shapeless body is put back into the world at :283, and its shape is then dereferenced by a later easy update with MASS (:305) and by removeEntity (`collectInfo`, :179) | a hard update with SHAPE whose new descriptor the shape manager rejects (outside `canBuild`) | keep the old shape and its reference when no new shape can be acquired | not executed | Shapes.ShapeSwapAsWritten, Shapes.ShapeSwapAsWrittenDropsShape | Shapes.ShapeSwap |
