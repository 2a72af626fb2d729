/** Rigid-body records, Bullet's collision-flag bits, the update masks, and
    the per-body effect of each step of the entity add/update protocol. */
module Bodies {
  import opened Shapes

  /** Bullet collision flags the engine rewrites. */
  const CF_STATIC_OBJECT: bv32 := 1
  const CF_KINEMATIC_OBJECT: bv32 := 2
  const MOTION_BITS: bv32 := 3
  /** The complements the source builds with `~`. */
  const NOT_STATIC: bv32 := !CF_STATIC_OBJECT
  const NOT_KINEMATIC: bv32 := !CF_KINEMATIC_OBJECT
  const NOT_MOTION: bv32 := !(CF_STATIC_OBJECT | CF_KINEMATIC_OBJECT)

  /** A motion type the proxy reports; `Unrecognised` is any other value of
      the C++ enum, which both switches treat as static. */
  datatype MotionType = Static | Kinematic | Dynamic | Unrecognised(code: int)

  /** The classification the switches act on. */
  function Canonical(t: MotionType): MotionType
  {
    if t.Unrecognised? then Static else t
  }

  /** isStaticObject / isKinematicObject read the two motion bits; anything
      else is dynamic. */
  function Classify(flags: bv32): MotionType
  {
    if flags & CF_STATIC_OBJECT != 0 then Static
    else if flags & CF_KINEMATIC_OBJECT != 0 then Kinematic
    else Dynamic
  }

  /** The PHYSICS_UPDATE_* masks.  Their values are not part of this model:
      four nonzero, pairwise disjoint single-purpose masks and the EASY and
      HARD groups. */
  datatype UpdateMasks = UpdateMasks(position: bv32, velocity: bv32, mass: bv32, shape: bv32, easy: bv32, hard: bv32)
  {
    predicate WellFormed()
    {
      && position != 0 && velocity != 0 && mass != 0 && shape != 0
      && position & velocity == 0 && position & mass == 0 && position & shape == 0
      && velocity & mass == 0 && velocity & shape == 0 && mass & shape == 0
    }
  }

  /** Whether an update carries any bit of a mask. */
  predicate Has(flags: bv32, mask: bv32) { flags & mask != 0 }

  /** The groups of body properties an update's flags name. */
  datatype Update = Update(position: bool, velocity: bool, mass: bool, shape: bool, easy: bool, hard: bool)

  function Decode(flags: bv32, m: UpdateMasks): Update
  {
    Update(Has(flags, m.position), Has(flags, m.velocity), Has(flags, m.mass), Has(flags, m.shape), Has(flags, m.easy), Has(flags, m.hard))
  }

  datatype Transform = Transform(origin: Vec3, rotation: Vec3)

  datatype Velocity = Velocity(linear: Vec3, angular: Vec3)

  const Still := Velocity(Zero, Zero)

  /** Bullet activation states the engine writes.  A fresh body is ActiveTag. */
  datatype ActivationState = ActiveTag | DisableDeactivation | DisableSimulation

  /** Local inertia of a shape for a mass (calculateLocalInertia), abstract. */
  type InertiaFn = (ShapeInfo, int) -> Vec3

  /** What the proxy exposes: computeShapeInfo, getMotionType, getMass,
      getWorldTransform, _restitution, _friction, and the velocities and
      gravity that applyVelocities / applyGravity push onto its body. */
  datatype EntityProps = EntityProps(
    motionType: MotionType,
    mass: int,
    restitution: int,
    friction: int,
    shapeInfo: ShapeInfo,
    transform: Transform,
    velocity: Velocity,
    gravity: Vec3)

  /** The fields of a btRigidBody the engine reads or writes.  `wakeRequested`
      records that activate() has been called on it. */
  datatype Body = Body(
    shape: ShapeInfo,
    collisionFlags: bv32,
    mass: int,
    inertia: Vec3,
    transform: Transform,
    velocity: Velocity,
    gravity: Vec3,
    restitution: int,
    friction: int,
    activation: ActivationState,
    wakeRequested: bool,
    worldGravityDisabled: bool)

  /** Collision flags of a body fresh from Bullet's constructor: static
      exactly when its mass is zero. */
  function ConstructedFlags(mass: int): bv32
  {
    if mass == 0 then CF_STATIC_OBJECT else 0
  }

  /** The body addEntity builds for a proxy once its shape is acquired. */
  function NewBody(p: EntityProps, shape: ShapeInfo, inertiaOf: InertiaFn): (b: Body)
    ensures b.shape == shape && b.transform == p.transform
    ensures b.restitution == p.restitution && b.friction == p.friction
    ensures b.worldGravityDisabled && !b.wakeRequested
    ensures b.mass == (if p.motionType == Dynamic then p.mass else 0)
    ensures p.motionType == Kinematic ==> b.collisionFlags == CF_KINEMATIC_OBJECT && b.activation == DisableDeactivation
    ensures Canonical(p.motionType) == Static ==> b.collisionFlags == CF_STATIC_OBJECT && b.activation == ActiveTag
    ensures p.motionType == Dynamic ==> Classify(b.collisionFlags) == (if p.mass == 0 then Static else Dynamic)
    ensures p.motionType == Dynamic ==> b.velocity == p.velocity && b.gravity == p.gravity
    ensures p.motionType == Dynamic ==> b.inertia == inertiaOf(shape, p.mass) && b.activation == ActiveTag
    ensures p.motionType != Dynamic ==> b.inertia == Zero && b.velocity == Still && b.gravity == Zero
  {
    var bare := Body(shape, 0, 0, Zero, p.transform, Still, Zero, p.restitution, p.friction, ActiveTag, false, true);
    match p.motionType
    case Kinematic =>
      bare.(collisionFlags := CF_KINEMATIC_OBJECT, activation := DisableDeactivation)
    case Dynamic =>
      bare.(collisionFlags := ConstructedFlags(p.mass), mass := p.mass, inertia := inertiaOf(shape, p.mass),
            velocity := p.velocity, gravity := p.gravity)
    case _ =>
      bare.(collisionFlags := CF_STATIC_OBJECT)
  }

  /** The collision flags other than the two motion bits. */
  function OtherBits(flags: bv32): bv32 { flags & NOT_MOTION }

  /** `flags | CF_KINEMATIC_OBJECT` with the static bit cleared. */
  function KinematicFlags(flags: bv32): (r: bv32)
    ensures OtherBits(r) == OtherBits(flags)
    ensures r & MOTION_BITS == CF_KINEMATIC_OBJECT && Classify(r) == Kinematic
  {
    (flags | CF_KINEMATIC_OBJECT) & NOT_STATIC
  }

  /** Both motion bits cleared. */
  function DynamicFlags(flags: bv32): (r: bv32)
    ensures OtherBits(r) == OtherBits(flags)
    ensures r & MOTION_BITS == 0 && Classify(r) == Dynamic
  {
    flags & NOT_MOTION
  }

  /** `flags | CF_STATIC_OBJECT` with the kinematic bit cleared. */
  function StaticFlags(flags: bv32): (r: bv32)
    ensures OtherBits(r) == OtherBits(flags)
    ensures r & MOTION_BITS == CF_STATIC_OBJECT && Classify(r) == Static
  {
    (flags | CF_STATIC_OBJECT) & NOT_KINEMATIC
  }

  /** The read-modify-write of the collision flags for a new motion type:
      the bits other than the two motion bits survive, and the flags then
      classify as the new (canonical) motion type. */
  function HardFlags(flags: bv32, t: MotionType): (r: bv32)
    ensures OtherBits(r) == OtherBits(flags)
    ensures Classify(r) == Canonical(t)
  {
    match t
    case Kinematic => KinematicFlags(flags)
    case Dynamic => DynamicFlags(flags)
    case _ => StaticFlags(flags)
  }

  /** updateEntityEasy's effect on the body. */
  function EasyUpdated(b: Body, p: EntityProps, u: Update, inertiaOf: InertiaFn): (r: Body)
    ensures r.collisionFlags == b.collisionFlags && r.shape == b.shape && r.activation == b.activation
    ensures r.worldGravityDisabled == b.worldGravityDisabled
    ensures r.restitution == p.restitution && r.friction == p.friction && r.wakeRequested
    ensures r.transform == (if u.position then p.transform else b.transform)
    ensures r.velocity == (if u.velocity then p.velocity else b.velocity)
    ensures r.gravity == (if u.velocity then p.gravity else b.gravity)
    ensures r.mass == (if u.mass then p.mass else b.mass)
    ensures r.inertia == (if u.mass then inertiaOf(b.shape, p.mass) else b.inertia)
  {
    var moved := if u.position then b.(transform := p.transform) else b;
    var pushed := if u.velocity then moved.(velocity := p.velocity, gravity := p.gravity) else moved;
    var material := pushed.(restitution := p.restitution, friction := p.friction);
    var massed := if u.mass then material.(mass := p.mass, inertia := inertiaOf(b.shape, p.mass)) else material;
    massed.(wakeRequested := true)
  }

  /** The motion-type switch of updateEntityHard: the canonical state of the
      new motion type. */
  function Retyped(b: Body, p: EntityProps, u: Update, inertiaOf: InertiaFn): (r: Body)
    ensures r.collisionFlags == HardFlags(b.collisionFlags, p.motionType)
    ensures r.shape == b.shape && r.transform == b.transform && r.gravity == b.gravity
    ensures r.restitution == b.restitution && r.friction == b.friction
    ensures r.worldGravityDisabled == b.worldGravityDisabled
    ensures p.motionType == Kinematic ==>
      r.mass == 0 && r.inertia == Zero && r.activation == DisableDeactivation && r.velocity == b.velocity
    ensures p.motionType == Dynamic ==>
      r.activation == b.activation && r.velocity == b.velocity && r.wakeRequested
    ensures p.motionType == Dynamic && !u.mass ==>
      r.mass == p.mass && r.inertia == inertiaOf(b.shape, p.mass)
    ensures p.motionType == Dynamic && u.mass ==> r.mass == b.mass && r.inertia == b.inertia
    ensures Canonical(p.motionType) == Static ==>
      r.mass == 0 && r.inertia == Zero && r.activation == DisableSimulation && r.velocity == Still
  {
    match p.motionType
    case Kinematic => MadeKinematic(b)
    case Dynamic => MadeDynamic(b, p, u, inertiaOf)
    case _ => MadeStatic(b, p.motionType)
  }

  /** The KINEMATIC case of the switch. */
  function MadeKinematic(b: Body): (r: Body)
    ensures r == b.(collisionFlags := r.collisionFlags, mass := 0, inertia := Zero, activation := DisableDeactivation)
    ensures r.collisionFlags == HardFlags(b.collisionFlags, Kinematic)
  {
    b.(collisionFlags := KinematicFlags(b.collisionFlags), activation := DisableDeactivation, mass := 0, inertia := Zero)
  }

  /** The DYNAMIC case: the proxy's mass and its inertia unless the update
      already set them, then a wake-up. */
  function MadeDynamic(b: Body, p: EntityProps, u: Update, inertiaOf: InertiaFn): (r: Body)
    ensures r == b.(collisionFlags := r.collisionFlags, mass := r.mass, inertia := r.inertia, wakeRequested := true)
    ensures r.collisionFlags == HardFlags(b.collisionFlags, Dynamic)
    ensures !u.mass ==> r.mass == p.mass && r.inertia == inertiaOf(b.shape, p.mass)
    ensures u.mass ==> r.mass == b.mass && r.inertia == b.inertia
  {
    var flagged := b.(collisionFlags := DynamicFlags(b.collisionFlags));
    var massed := if !u.mass then flagged.(mass := p.mass, inertia := inertiaOf(b.shape, p.mass)) else flagged;
    massed.(wakeRequested := true)
  }

  /** The STATIC case, which also catches unrecognised motion types. */
  function MadeStatic(b: Body, t: MotionType): (r: Body)
    requires Canonical(t) == Static
    ensures r == b.(collisionFlags := r.collisionFlags, mass := 0, inertia := Zero, activation := DisableSimulation, velocity := Still)
    ensures r.collisionFlags == HardFlags(b.collisionFlags, t)
  {
    b.(collisionFlags := StaticFlags(b.collisionFlags), activation := DisableSimulation, mass := 0, inertia := Zero, velocity := Still)
  }

  /** The scenario of an update carrying only the VELOCITY bit: the body's
      flags and transform stay, its velocity becomes the proxy's. */
  lemma VelocityOnlyEasyUpdate(b: Body, p: EntityProps, m: UpdateMasks, inertiaOf: InertiaFn)
    requires m.WellFormed()
    ensures var r := EasyUpdated(b, p, Decode(m.velocity, m), inertiaOf);
      r.collisionFlags == b.collisionFlags && r.transform == b.transform && r.mass == b.mass && r.velocity == p.velocity
  {
  }

  /** A static body retyped to dynamic without the MASS bit loses both motion
      bits and takes the proxy's mass.  The switch leaves its activation state
      as it was; only a wake-up is requested. */
  lemma StaticToDynamic(b: Body, p: EntityProps, u: Update, inertiaOf: InertiaFn)
    requires Classify(b.collisionFlags) == Static && p.motionType == Dynamic && !u.mass
    ensures var r := Retyped(b, p, u, inertiaOf);
      Classify(r.collisionFlags) == Dynamic && r.mass == p.mass && r.wakeRequested
      && r.activation == b.activation
  {
  }

  /** A body made static by one hard update and dynamic by the next keeps the
      DISABLE_SIMULATION state the static case forced, with a wake-up
      requested. */
  lemma StaticThenDynamic(b: Body, ps: EntityProps, pd: EntityProps, u: Update, inertiaOf: InertiaFn)
    requires Canonical(ps.motionType) == Static && pd.motionType == Dynamic
    ensures var r := Retyped(Retyped(b, ps, u, inertiaOf), pd, u, inertiaOf);
      Classify(r.collisionFlags) == Dynamic && r.activation == DisableSimulation && r.wakeRequested
  {
  }
}
