/**
 * The entity records of the simulation: the glowing orb, the ground plane and
 * the optional cube, with their defaults and their `init()` methods. All three
 * are mutated in place by the physics step, so each is a class.
 */
module Components {
  import opened Vectors

  datatype ShapeType = SphereShape | PlaneShape | AabbShape | NoShape

  datatype EquilibriumState = Awake | Sleeping

  /**
   * One collider record per body. The source keeps all shape parameters side
   * by side and lets the body's kind decide which are meaningful.
   */
  datatype Collider = Collider(shape: ShapeType, radius: real, normal: Vec3, baseHalfExtents: Vec3)

  /**
   * The collider of a freshly constructed body. Only `baseHalfExtents` has a
   * default member initialiser (0.5 on every axis); the shape tag, radius and
   * normal are indeterminate in the source, so the constructors below promise
   * nothing about them.
   */
  const UnsetCollider: Collider := Collider(NoShape, 0.0, Zero, Vec3(0.5, 0.5, 0.5))

  const OrbStartPosition: Vec3 := Vec3(0.0, 5.0, 0.0)

  class GlowingOrb {
    var id: string
    var position: Vec3
    var velocity: Vec3
    var energy: real
    var state: string
    var collider: Collider
    var eqState: EquilibriumState
    var sleepTimer: real
    // Used by the physics step and the six-key snapshot but missing from the
    // record's declaration; given the cube's defaults.
    var mass: real
    var inverseMass: real
    var forceAccumulator: Vec3
    var isGravityOn: bool

    /** Every dynamic body has positive mass and stores its reciprocal. */
    predicate MassValid()
      reads this
    {
      mass > 0.0 && inverseMass == 1.0 / mass
    }

    constructor ()
      ensures id == "entity_01" && position == OrbStartPosition && velocity == Zero
      ensures energy == 0.5 && state == "active"
      ensures eqState == Awake && sleepTimer == 0.0
      ensures collider.baseHalfExtents == Vec3(0.5, 0.5, 0.5)
      ensures mass == 1.0 && MassValid() && forceAccumulator == Zero && !isGravityOn
    {
      id := "entity_01";
      position := OrbStartPosition;
      velocity := Zero;
      energy := 0.5;
      state := "active";
      collider := UnsetCollider;
      eqState := Awake;
      sleepTimer := 0.0;
      mass := 1.0;
      inverseMass := 1.0 / 1.0;
      forceAccumulator := Zero;
      isGravityOn := false;
    }

    /** Re-centres the orb and makes its collider a unit sphere. */
    method Init()
      modifies this
      ensures position == OrbStartPosition
      ensures collider == old(collider).(shape := SphereShape, radius := 1.0)
      ensures id == old(id) && velocity == old(velocity) && energy == old(energy)
      ensures state == old(state) && eqState == old(eqState) && sleepTimer == old(sleepTimer)
      ensures mass == old(mass) && inverseMass == old(inverseMass)
      ensures forceAccumulator == old(forceAccumulator) && isGravityOn == old(isGravityOn)
    {
      position := OrbStartPosition;
      collider := collider.(shape := SphereShape);
      collider := collider.(radius := 1.0);
    }
  }

  class Plane {
    var position: Vec3
    var color: Vec3
    var collider: Collider

    constructor ()
      ensures position == Zero && color == Vec3(1.0, 1.0, 1.0)
      ensures collider.baseHalfExtents == Vec3(0.5, 0.5, 0.5)
    {
      position := Zero;
      color := Vec3(1.0, 1.0, 1.0);
      collider := UnsetCollider;
    }

    /** Makes the plane the ground y = 0 facing up. */
    method Init()
      modifies this
      ensures collider == old(collider).(shape := PlaneShape, normal := Vec3(0.0, 1.0, 0.0))
      ensures IsUnit(collider.normal)
      ensures position == old(position) && color == old(color)
    {
      collider := collider.(shape := PlaneShape);
      collider := collider.(normal := Vec3(0.0, 1.0, 0.0));
    }
  }

  class Cube {
    var position: Vec3
    var velocity: Vec3
    var color: Vec3
    var scale: Vec3
    // Rotational state: carried, never evolved.
    var rotation: Quat
    var angularVelocity: Vec3
    var torque: Vec3
    var mass: real
    var inverseMass: real
    var sleepTimer: real
    var collider: Collider
    var state: EquilibriumState
    // Used by the physics step but missing from the record's declaration.
    var forceAccumulator: Vec3

    predicate MassValid()
      reads this
    {
      mass > 0.0 && inverseMass == 1.0 / mass
    }

    constructor ()
      ensures position == Vec3(2.0, 2.0, 2.0) && velocity == Zero
      ensures color == Vec3(1.0, 0.0, 1.0) && scale == Vec3(1.0, 1.0, 1.0)
      ensures rotation == Quat(1.0, 0.0, 0.0, 0.0) && angularVelocity == Zero && torque == Zero
      ensures mass == 1.0 && MassValid() && sleepTimer == 0.0
      ensures collider.baseHalfExtents == Vec3(0.5, 0.5, 0.5)
      ensures state == Awake && forceAccumulator == Zero
    {
      position := Vec3(2.0, 2.0, 2.0);
      velocity := Zero;
      color := Vec3(1.0, 0.0, 1.0);
      scale := Vec3(1.0, 1.0, 1.0);
      rotation := Quat(1.0, 0.0, 0.0, 0.0);
      angularVelocity := Zero;
      torque := Zero;
      mass := 1.0;
      inverseMass := 1.0 / 1.0;
      sleepTimer := 0.0;
      collider := UnsetCollider;
      state := Awake;
      forceAccumulator := Zero;
    }

    /** Makes the collider an axis-aligned box of half-extent 1 on every axis. */
    method Init()
      modifies this
      ensures collider == old(collider).(shape := AabbShape, baseHalfExtents := Vec3(1.0, 1.0, 1.0))
      ensures position == old(position) && velocity == old(velocity) && color == old(color)
      ensures scale == old(scale) && rotation == old(rotation)
      ensures angularVelocity == old(angularVelocity) && torque == old(torque)
      ensures mass == old(mass) && inverseMass == old(inverseMass) && sleepTimer == old(sleepTimer)
      ensures state == old(state) && forceAccumulator == old(forceAccumulator)
    {
      collider := collider.(shape := AabbShape);
      collider := collider.(baseHalfExtents := Vec3(1.0, 1.0, 1.0));
    }
  }
}
