/**
 * The per-tick rigid-body step: a sticky gravity toggle, the orb's energy
 * dynamics, force accumulation, semi-implicit Euler for awake bodies, and
 * sphere-plane and box-plane contact resolution.
 *
 * Each phase is first given as a function on the bodies' values, with its
 * properties as ensures clauses and lemmas; the `Physics` class then performs
 * the same phases on the mutable records and is proved to agree with them.
 */
module PhysicsEngine {
  import opened Vectors
  import opened Components
  import opened Input

  const Gravity: real := -9.8
  const Restitution: real := 0.6
  const RestThreshold: real := 0.1
  const ImpactEnergyFactor: real := 0.1
  const InteractRate: real := 1.0
  const DrainRate: real := 0.1

  /** The parts of the orb one tick may change. */
  datatype OrbKin = OrbKin(position: Vec3, velocity: Vec3, energy: real, eqState: EquilibriumState, sleepTimer: real)

  /** The parts of the cube one tick may change. */
  datatype CubeKin = CubeKin(position: Vec3, velocity: Vec3, state: EquilibriumState, sleepTimer: real)

  datatype Motion = Motion(position: Vec3, velocity: Vec3)

  function OrbKinOf(orb: GlowingOrb): OrbKin
    reads orb
  {
    OrbKin(orb.position, orb.velocity, orb.energy, orb.eqState, orb.sleepTimer)
  }

  function CubeKinOf(cube: Cube): CubeKin
    reads cube
  {
    CubeKin(cube.position, cube.velocity, cube.state, cube.sleepTimer)
  }

  // ---------------------------------------------------------------------------
  // Phase 2: energy

  /**
   * Touching charges the orb at 1 per second up to 1; otherwise it drains at
   * 0.1 per second down to 0.
   */
  function EnergyAfterInput(energy: real, interact: bool, dt: real): (r: real)
    ensures interact ==> r <= 1.0
    ensures !interact ==> r >= 0.0
    ensures dt >= 0.0 && 0.0 <= energy <= 1.0 ==> 0.0 <= r <= 1.0
    ensures dt >= 0.0 && interact && energy <= 1.0 ==> energy <= r
    ensures dt >= 0.0 && !interact && energy >= 0.0 ==> r <= energy
    ensures dt == 0.0 && 0.0 <= energy <= 1.0 ==> r == energy
  {
    if interact then Min(energy + InteractRate * dt, 1.0)
    else Max(energy - DrainRate * dt, 0.0)
  }

  // ---------------------------------------------------------------------------
  // Phases 3 and 4: forces and integration

  /** The force a body holds after accumulation: its weight if gravity is on and it is awake. */
  function GravityForce(gravityOn: bool, s: EquilibriumState, mass: real): (f: Vec3)
    ensures f.x == 0.0 && f.z == 0.0
    ensures !gravityOn || s == Sleeping ==> f == Zero
  {
    if gravityOn && s == Awake then Vec3(0.0, Gravity * mass, 0.0) else Zero
  }

  /** Semi-implicit Euler: the velocity is updated first and the new velocity moves the body. */
  function Integrate(m: Motion, force: Vec3, inverseMass: real, dt: real): (r: Motion)
    ensures r.velocity == Add(m.velocity, Scale(force, inverseMass * dt))
    ensures r.position == Add(Add(m.position, Scale(m.velocity, dt)), Scale(force, inverseMass * dt * dt))
  {
    var velocity := Add(m.velocity, Scale(Scale(force, inverseMass), dt));
    Motion(Add(m.position, Scale(velocity, dt)), velocity)
  }

  /** Only awake bodies are integrated; sleeping ones keep their motion. */
  function AdvanceIfAwake(m: Motion, s: EquilibriumState, force: Vec3, inverseMass: real, dt: real): Motion
  {
    if s == Awake then Integrate(m, force, inverseMass, dt) else m
  }

  // ---------------------------------------------------------------------------
  // Phase 5: sphere-plane contact

  /** Signed gap between the sphere's surface and the plane along the normal. */
  function SpherePenetration(p: Vec3, radius: real, planePos: Vec3, n: Vec3): real
  {
    (Dot(p, n) - radius) - Dot(planePos, n)
  }

  /** The orb's velocity after contact, and the energy its impact awards. */
  function SphereVelocity(v: Vec3, energy: real, n: Vec3): (r: (Vec3, real))
  {
    var velocityAlongNormal := Dot(v, n);
    if velocityAlongNormal < 0.0 then
      var impactVelocity := Abs(velocityAlongNormal);
      if impactVelocity < RestThreshold then (Zero, energy)
      else
        var normalVelocity := Scale(n, velocityAlongNormal);
        var bounceVelocity := Scale(Neg(normalVelocity), Restitution);
        (Add(Sub(v, normalVelocity), bounceVelocity),
         Min(energy + impactVelocity * ImpactEnergyFactor, 1.0))
    else (v, energy)
  }

  /**
   * Sphere-plane resolution: on penetration the orb is woken, pushed out along
   * the normal and its velocity resolved; otherwise nothing changes.
   */
  function SphereContact(k: OrbKin, radius: real, planePos: Vec3, n: Vec3): (r: OrbKin)
    ensures SpherePenetration(k.position, radius, planePos, n) >= 0.0 ==> r == k
    ensures SpherePenetration(k.position, radius, planePos, n) < 0.0 ==> r.eqState == Awake && r.sleepTimer == 0.0
    ensures r.eqState == k.eqState || r.eqState == Awake
    ensures 0.0 <= k.energy <= 1.0 ==> 0.0 <= r.energy <= 1.0
    ensures k.energy <= 1.0 ==> k.energy <= r.energy
  {
    var penetration := SpherePenetration(k.position, radius, planePos, n);
    if penetration < 0.0 then
      var position := Sub(k.position, Scale(n, penetration));
      var (velocity, energy) := SphereVelocity(k.velocity, k.energy, n);
      OrbKin(position, velocity, energy, Awake, 0.0)
    else k
  }

  /** With a unit normal, a colliding orb ends exactly touching the plane. */
  lemma SphereEndsTouching(k: OrbKin, radius: real, planePos: Vec3, n: Vec3)
    requires IsUnit(n)
    requires SpherePenetration(k.position, radius, planePos, n) < 0.0
    ensures SpherePenetration(SphereContact(k, radius, planePos, n).position, radius, planePos, n) == 0.0
  {
    var penetration := SpherePenetration(k.position, radius, planePos, n);
    assert Sub(k.position, Scale(n, penetration)) == Add(k.position, Scale(n, -penetration));
    DotAlong(k.position, n, -penetration);
  }

  /** A colliding orb moving away from (or along) the plane keeps its velocity and energy. */
  lemma SphereSeparatingKeepsVelocity(k: OrbKin, radius: real, planePos: Vec3, n: Vec3)
    requires SpherePenetration(k.position, radius, planePos, n) < 0.0
    requires Dot(k.velocity, n) >= 0.0
    ensures SphereContact(k, radius, planePos, n).velocity == k.velocity
    ensures SphereContact(k, radius, planePos, n).energy == k.energy
  {
  }

  /** A slow impact (below the rest threshold) stops the orb dead without awarding energy. */
  lemma SphereRestSnap(k: OrbKin, radius: real, planePos: Vec3, n: Vec3)
    requires SpherePenetration(k.position, radius, planePos, n) < 0.0
    requires -RestThreshold < Dot(k.velocity, n) < 0.0
    ensures SphereContact(k, radius, planePos, n).velocity == Zero
    ensures SphereContact(k, radius, planePos, n).energy == k.energy
  {
  }

  /**
   * A fast impact reflects the normal component scaled by the restitution
   * coefficient, keeps the tangential part and awards 0.1 energy per unit of
   * impact speed, capped at 1.
   */
  lemma SphereBounce(k: OrbKin, radius: real, planePos: Vec3, n: Vec3)
    requires IsUnit(n)
    requires SpherePenetration(k.position, radius, planePos, n) < 0.0
    requires Dot(k.velocity, n) <= -RestThreshold
    ensures Dot(SphereContact(k, radius, planePos, n).velocity, n) == -Restitution * Dot(k.velocity, n)
    ensures Tangential(SphereContact(k, radius, planePos, n).velocity, n) == Tangential(k.velocity, n)
    ensures SphereContact(k, radius, planePos, n).energy == Min(1.0, k.energy + ImpactEnergyFactor * -Dot(k.velocity, n))
  {
    var vn := Dot(k.velocity, n);
    BounceAlongNormal(k.velocity, n);
    assert SphereContact(k, radius, planePos, n).velocity == Reflected(k.velocity, n);
  }

  /** The bounce rule shared by sphere and box: the normal component scaled by -0.6. */
  function Reflected(v: Vec3, n: Vec3): Vec3
  {
    var normalVelocity := Scale(n, Dot(v, n));
    Add(Sub(v, normalVelocity), Scale(Neg(normalVelocity), Restitution))
  }

  lemma BounceAlongNormal(v: Vec3, n: Vec3)
    requires IsUnit(n)
    ensures Dot(Reflected(v, n), n) == -Restitution * Dot(v, n)
    ensures Tangential(Reflected(v, n), n) == Tangential(v, n)
  {
    var vn := Dot(v, n);
    var s := -(1.0 + Restitution) * vn;
    assert Reflected(v, n) == Add(v, Scale(n, s));
    DotAlong(v, n, s);
    TangentialAlong(v, n, s);
  }

  // ---------------------------------------------------------------------------
  // Phase 5: box-plane contact

  /**
   * Half-extent of the box projected on the normal. The source multiplies each
   * half-extent by the absolute value of the normal's component.
   */
  function ProjectedRadius(h: Vec3, n: Vec3): (r: real)
    ensures h.x >= 0.0 && h.y >= 0.0 && h.z >= 0.0 ==> r >= 0.0
    ensures n == Vec3(0.0, 1.0, 0.0) ==> r == h.y
  {
    var rx, ry, rz := h.x * Abs(n.x), h.y * Abs(n.y), h.z * Abs(n.z);
    if h.x >= 0.0 && h.y >= 0.0 && h.z >= 0.0 then
      MulNonNegative(h.x, Abs(n.x));
      MulNonNegative(h.y, Abs(n.y));
      MulNonNegative(h.z, Abs(n.z));
      rx + ry + rz
    else
      rx + ry + rz
  }

  /**
   * For non-negative half-extents the source's form is the usual projected
   * radius of a box on an axis, the sum of |h_i * n_i|.
   */
  lemma ProjectedRadiusIsSupport(h: Vec3, n: Vec3)
    requires h.x >= 0.0 && h.y >= 0.0 && h.z >= 0.0
    ensures ProjectedRadius(h, n) == Abs(h.x * n.x) + Abs(h.y * n.y) + Abs(h.z * n.z)
  {
    AbsScale(h.x, n.x);
    AbsScale(h.y, n.y);
    AbsScale(h.z, n.z);
  }

  /** Signed distance of the box's lowest face from the plane along the normal. */
  function BoxGap(p: Vec3, h: Vec3, planePos: Vec3, n: Vec3): real
  {
    (Dot(p, n) - ProjectedRadius(h, n)) - Dot(planePos, n)
  }

  /**
   * Box-plane resolution: like the sphere's, but with no rest snap and no
   * energy. `h` is the scaled half-extents.
   */
  function BoxContact(k: CubeKin, h: Vec3, planePos: Vec3, n: Vec3): (r: CubeKin)
    ensures BoxGap(k.position, h, planePos, n) >= 0.0 ==> r == k
    ensures BoxGap(k.position, h, planePos, n) < 0.0 ==> r.state == Awake && r.sleepTimer == 0.0
    ensures BoxGap(k.position, h, planePos, n) < 0.0 && Dot(k.velocity, n) >= 0.0 ==> r.velocity == k.velocity
    ensures r.state == k.state || r.state == Awake
  {
    var planeDist := Dot(planePos, n);
    var cubeBottomDist := Dot(k.position, n) - ProjectedRadius(h, n);
    if cubeBottomDist < planeDist then
      var penetrationDepth := planeDist - cubeBottomDist;
      var position := Add(k.position, Scale(n, penetrationDepth));
      var velocity := if Dot(k.velocity, n) < 0.0 then Reflected(k.velocity, n) else k.velocity;
      CubeKin(position, velocity, Awake, 0.0)
    else k
  }

  /**
   * With a unit normal, a colliding box ends with its lowest face on the plane
   * and, if it was moving into the plane, its normal velocity scaled by -0.6
   * and its tangential velocity kept, however slow the impact.
   */
  lemma BoxEndsOnPlane(k: CubeKin, h: Vec3, planePos: Vec3, n: Vec3)
    requires IsUnit(n)
    requires BoxGap(k.position, h, planePos, n) < 0.0
    ensures BoxGap(BoxContact(k, h, planePos, n).position, h, planePos, n) == 0.0
    ensures Dot(k.velocity, n) < 0.0 ==>
      Dot(BoxContact(k, h, planePos, n).velocity, n) == -Restitution * Dot(k.velocity, n) &&
      Tangential(BoxContact(k, h, planePos, n).velocity, n) == Tangential(k.velocity, n)
  {
    var depth := -BoxGap(k.position, h, planePos, n);
    DotAlong(k.position, n, depth);
    BounceAlongNormal(k.velocity, n);
  }

  // ---------------------------------------------------------------------------
  // One whole tick

  /** One tick for the orb, given the gravity flag after the toggle. */
  function OrbTick(k: OrbKin, gravityOn: bool, mass: real, inverseMass: real, radius: real,
                   interact: bool, dt: real, planePos: Vec3, n: Vec3): (r: OrbKin)
    ensures dt >= 0.0 && 0.0 <= k.energy <= 1.0 ==> 0.0 <= r.energy <= 1.0
    ensures r.eqState == k.eqState || r.eqState == Awake
  {
    var energy := EnergyAfterInput(k.energy, interact, dt);
    var force := GravityForce(gravityOn, k.eqState, mass);
    var m := AdvanceIfAwake(Motion(k.position, k.velocity), k.eqState, force, inverseMass, dt);
    SphereContact(OrbKin(m.position, m.velocity, energy, k.eqState, k.sleepTimer), radius, planePos, n)
  }

  /** One tick for the cube, given the gravity flag after the toggle. */
  function CubeTick(k: CubeKin, gravityOn: bool, mass: real, inverseMass: real, h: Vec3,
                    dt: real, planePos: Vec3, n: Vec3): (r: CubeKin)
    ensures r.state == k.state || r.state == Awake
  {
    var force := GravityForce(gravityOn, k.state, mass);
    var m := AdvanceIfAwake(Motion(k.position, k.velocity), k.state, force, inverseMass, dt);
    BoxContact(CubeKin(m.position, m.velocity, k.state, k.sleepTimer), h, planePos, n)
  }

  /**
   * An awake orb of valid mass under gravity that does not reach the plane
   * falls freely: its velocity gains exactly -9.8 * dt vertically.
   */
  lemma AwakeFreeFall(k: OrbKin, mass: real, inverseMass: real, radius: real,
                      interact: bool, dt: real, planePos: Vec3, n: Vec3)
    requires mass > 0.0 && inverseMass == 1.0 / mass
    requires k.eqState == Awake
    requires SpherePenetration(Integrate(Motion(k.position, k.velocity), GravityForce(true, Awake, mass), inverseMass, dt).position,
                               radius, planePos, n) >= 0.0
    ensures OrbTick(k, true, mass, inverseMass, radius, interact, dt, planePos, n).velocity
            == Add(k.velocity, Vec3(0.0, Gravity * dt, 0.0))
  {
    assert Gravity * mass * (inverseMass * dt) == Gravity * dt by {
      assert mass * inverseMass == 1.0;
    }
  }

  /** The inputs of one tick. */
  datatype Step = Step(input: InputState, dt: real)

  /** The orb after running the ticks in `steps`, starting with gravity flag `gravityOn`. */
  function RunOrb(k: OrbKin, gravityOn: bool, mass: real, inverseMass: real, radius: real,
                  planePos: Vec3, n: Vec3, steps: seq<Step>): OrbKin
    decreases |steps|
  {
    if |steps| == 0 then k
    else
      var g := gravityOn != steps[0].input.toggleGravity;
      var k' := OrbTick(k, g, mass, inverseMass, radius, steps[0].input.shouldInteract, steps[0].dt, planePos, n);
      RunOrb(k', g, mass, inverseMass, radius, planePos, n, steps[1..])
  }

  /** Energy stays in [0, 1] over any run of ticks with non-negative time slices. */
  lemma {:induction false} RunKeepsEnergyInRange(k: OrbKin, gravityOn: bool, mass: real, inverseMass: real,
                                                radius: real, planePos: Vec3, n: Vec3, steps: seq<Step>)
    requires 0.0 <= k.energy <= 1.0
    requires forall i :: 0 <= i < |steps| ==> steps[i].dt >= 0.0
    ensures 0.0 <= RunOrb(k, gravityOn, mass, inverseMass, radius, planePos, n, steps).energy <= 1.0
    decreases |steps|
  {
    if |steps| > 0 {
      var g := gravityOn != steps[0].input.toggleGravity;
      var k' := OrbTick(k, g, mass, inverseMass, radius, steps[0].input.shouldInteract, steps[0].dt, planePos, n);
      RunKeepsEnergyInRange(k', g, mass, inverseMass, radius, planePos, n, steps[1..]);
    }
  }

  /**
   * A sleeping orb clear of the plane is never integrated and never collides,
   * so it keeps its position and velocity and stays asleep for any number of
   * ticks, whatever the gravity flag does.
   */
  lemma {:induction false} SleepingOrbStaysFrozen(k: OrbKin, gravityOn: bool, mass: real, inverseMass: real,
                                                 radius: real, planePos: Vec3, n: Vec3, steps: seq<Step>)
    requires k.eqState == Sleeping
    requires SpherePenetration(k.position, radius, planePos, n) >= 0.0
    ensures RunOrb(k, gravityOn, mass, inverseMass, radius, planePos, n, steps).position == k.position
    ensures RunOrb(k, gravityOn, mass, inverseMass, radius, planePos, n, steps).velocity == k.velocity
    ensures RunOrb(k, gravityOn, mass, inverseMass, radius, planePos, n, steps).eqState == Sleeping
    decreases |steps|
  {
    if |steps| > 0 {
      var g := gravityOn != steps[0].input.toggleGravity;
      var k' := OrbTick(k, g, mass, inverseMass, radius, steps[0].input.shouldInteract, steps[0].dt, planePos, n);
      assert k'.position == k.position && k'.velocity == k.velocity && k'.eqState == Sleeping;
      SleepingOrbStaysFrozen(k', g, mass, inverseMass, radius, planePos, n, steps[1..]);
    }
  }

  // ---------------------------------------------------------------------------
  // The engine

  class Physics {
    var gravityEnabled: bool

    constructor ()
      ensures !gravityEnabled
    {
      gravityEnabled := false;
    }

    method SetGravity(isEnabled: bool)
      modifies this
      ensures gravityEnabled == isEnabled
    {
      gravityEnabled := isEnabled;
    }

    method GetGravityState() returns (enabled: bool)
      ensures enabled == gravityEnabled
    {
      enabled := gravityEnabled;
    }

    /**
     * Advances the orb and, when present, the cube by one time slice `dt`.
     * The plane is read only.
     */
    method Update(orb: GlowingOrb, plane: Plane, cube: Cube?, input: InputState, dt: real)
      modifies this, orb, cube
      ensures gravityEnabled == (old(gravityEnabled) != input.toggleGravity)
      ensures orb.forceAccumulator == GravityForce(gravityEnabled, old(orb.eqState), orb.mass)
      ensures OrbKinOf(orb) == OrbTick(old(OrbKinOf(orb)), gravityEnabled, orb.mass, orb.inverseMass,
                                       orb.collider.radius, input.shouldInteract, dt,
                                       plane.position, plane.collider.normal)
      ensures orb.id == old(orb.id) && orb.state == old(orb.state) && orb.collider == old(orb.collider)
      ensures orb.mass == old(orb.mass) && orb.inverseMass == old(orb.inverseMass)
      ensures orb.isGravityOn == old(orb.isGravityOn)
      ensures old(orb.MassValid()) ==> orb.MassValid()
      ensures cube != null && old(cube.MassValid()) ==> cube.MassValid()
      ensures cube != null ==> cube.forceAccumulator == GravityForce(gravityEnabled, old(cube.state), cube.mass)
      ensures cube != null ==> CubeKinOf(cube) == CubeTick(old(CubeKinOf(cube)), gravityEnabled, cube.mass,
                                                           cube.inverseMass, Mul(cube.collider.baseHalfExtents, cube.scale),
                                                           dt, plane.position, plane.collider.normal)
      ensures cube != null ==> cube.color == old(cube.color) && cube.scale == old(cube.scale) &&
                               cube.rotation == old(cube.rotation) && cube.angularVelocity == old(cube.angularVelocity) &&
                               cube.torque == old(cube.torque) && cube.mass == old(cube.mass) &&
                               cube.inverseMass == old(cube.inverseMass) && cube.collider == old(cube.collider)
    {
      if input.toggleGravity {
        gravityEnabled := !gravityEnabled;
      }
      ChargeOrb(orb, input.shouldInteract, dt);
      // The orb and the cube are distinct objects, so building each
      // accumulator in turn equals resetting both and then adding gravity.
      AccumulateOrbForce(orb);
      if cube != null {
        AccumulateCubeForce(cube);
      }
      IntegrateAwakeBodies(orb, cube, dt);
      SolveSpherePlaneCollision(orb, plane);
      if cube != null {
        SolveCubePlaneCollision(cube, plane);
      }
    }

    /** The energy phase of `Update`. */
    method ChargeOrb(orb: GlowingOrb, interact: bool, dt: real)
      modifies orb
      ensures orb.energy == EnergyAfterInput(old(orb.energy), interact, dt)
      ensures unchanged(orb`id, orb`position, orb`velocity, orb`state, orb`collider, orb`eqState)
      ensures unchanged(orb`sleepTimer, orb`mass, orb`inverseMass, orb`forceAccumulator, orb`isGravityOn)
    {
      if interact {
        orb.energy := orb.energy + InteractRate * dt;
        orb.energy := Min(orb.energy, 1.0);
      } else {
        orb.energy := orb.energy - DrainRate * dt;
        orb.energy := Max(orb.energy, 0.0);
      }
    }

    /**
     * The force phase of `Update` for the orb: its accumulator is reset to
     * zero, then gets the weight when gravity is on and the orb is awake.
     */
    method AccumulateOrbForce(orb: GlowingOrb)
      modifies orb
      ensures orb.forceAccumulator == GravityForce(gravityEnabled, orb.eqState, orb.mass)
      ensures unchanged(orb`id, orb`position, orb`velocity, orb`energy, orb`state, orb`collider, orb`eqState)
      ensures unchanged(orb`sleepTimer, orb`mass, orb`inverseMass, orb`isGravityOn)
    {
      orb.forceAccumulator := Zero;
      if gravityEnabled && orb.eqState == Awake {
        var orbGravityForce := Vec3(0.0, Gravity * orb.mass, 0.0);
        orb.forceAccumulator := Add(orb.forceAccumulator, orbGravityForce);
      }
    }

    /** The force phase of `Update` for the cube, as for the orb. */
    method AccumulateCubeForce(cube: Cube)
      modifies cube
      ensures cube.forceAccumulator == GravityForce(gravityEnabled, cube.state, cube.mass)
      ensures unchanged(cube`position, cube`velocity, cube`color, cube`scale, cube`rotation, cube`angularVelocity)
      ensures unchanged(cube`torque, cube`mass, cube`inverseMass, cube`sleepTimer, cube`collider, cube`state)
    {
      cube.forceAccumulator := Zero;
      if gravityEnabled && cube.state == Awake {
        var cubeGravityForce := Vec3(0.0, Gravity * cube.mass, 0.0);
        cube.forceAccumulator := Add(cube.forceAccumulator, cubeGravityForce);
      }
    }

    /** The integration phase of `Update`: semi-implicit Euler for awake bodies only. */
    method IntegrateAwakeBodies(orb: GlowingOrb, cube: Cube?, dt: real)
      modifies orb, cube
      ensures Motion(orb.position, orb.velocity) ==
              AdvanceIfAwake(old(Motion(orb.position, orb.velocity)), orb.eqState, orb.forceAccumulator, orb.inverseMass, dt)
      ensures cube != null ==>
                (Motion(cube.position, cube.velocity) ==
                 AdvanceIfAwake(old(Motion(cube.position, cube.velocity)), cube.state, cube.forceAccumulator, cube.inverseMass, dt))
      ensures unchanged(orb`id, orb`energy, orb`state, orb`collider, orb`eqState)
      ensures unchanged(orb`sleepTimer, orb`mass, orb`inverseMass, orb`forceAccumulator, orb`isGravityOn)
      ensures cube != null ==> unchanged(cube`color, cube`scale, cube`rotation, cube`angularVelocity, cube`torque,
                                        cube`mass, cube`inverseMass, cube`sleepTimer, cube`collider, cube`state,
                                        cube`forceAccumulator)
    {
      if orb.eqState == Awake {
        var acceleration := Scale(orb.forceAccumulator, orb.inverseMass);
        orb.velocity := Add(orb.velocity, Scale(acceleration, dt));
        orb.position := Add(orb.position, Scale(orb.velocity, dt));
      }
      if cube != null && cube.state == Awake {
        var acceleration := Scale(cube.forceAccumulator, cube.inverseMass);
        cube.velocity := Add(cube.velocity, Scale(acceleration, dt));
        cube.position := Add(cube.position, Scale(cube.velocity, dt));
      }
    }

    method SolveSpherePlaneCollision(orb: GlowingOrb, plane: Plane)
      modifies orb
      ensures OrbKinOf(orb) == SphereContact(old(OrbKinOf(orb)), orb.collider.radius, plane.position, plane.collider.normal)
      ensures orb.id == old(orb.id) && orb.state == old(orb.state) && orb.collider == old(orb.collider)
      ensures orb.mass == old(orb.mass) && orb.inverseMass == old(orb.inverseMass)
      ensures orb.forceAccumulator == old(orb.forceAccumulator) && orb.isGravityOn == old(orb.isGravityOn)
    {
      var radius := orb.collider.radius;
      var normal := plane.collider.normal;
      var position, velocity, energy := orb.position, orb.velocity, orb.energy;
      var planeDist := Dot(plane.position, normal);
      var orbDist := Dot(position, normal);
      var penetration := (orbDist - radius) - planeDist;

      if penetration < 0.0 {
        orb.eqState := Awake;
        orb.sleepTimer := 0.0;

        position := Sub(position, Scale(normal, penetration));

        var velocityAlongNormal := Dot(velocity, normal);
        if velocityAlongNormal < 0.0 {
          var impactVelocity := Abs(velocityAlongNormal);
          if impactVelocity < RestThreshold {
            velocity := Zero;
          } else {
            var normalVelocity := Scale(normal, velocityAlongNormal);
            var bounceVelocity := Scale(Neg(normalVelocity), Restitution);
            velocity := Add(Sub(velocity, normalVelocity), bounceVelocity);

            var energyGain := impactVelocity * ImpactEnergyFactor;
            energy := energy + energyGain;
            energy := Min(energy, 1.0);
          }
        }
        orb.position, orb.velocity, orb.energy := position, velocity, energy;
      }
    }

    method SolveCubePlaneCollision(cube: Cube, plane: Plane)
      modifies cube
      ensures CubeKinOf(cube) == BoxContact(old(CubeKinOf(cube)), Mul(cube.collider.baseHalfExtents, cube.scale),
                                            plane.position, plane.collider.normal)
      ensures cube.color == old(cube.color) && cube.scale == old(cube.scale) &&
              cube.rotation == old(cube.rotation) && cube.angularVelocity == old(cube.angularVelocity) &&
              cube.torque == old(cube.torque) && cube.mass == old(cube.mass) &&
              cube.inverseMass == old(cube.inverseMass) && cube.collider == old(cube.collider) &&
              cube.forceAccumulator == old(cube.forceAccumulator)
    {
      var halfExtents := Mul(cube.collider.baseHalfExtents, cube.scale);
      var normal := plane.collider.normal;
      var position, velocity := cube.position, cube.velocity;

      var planeDist := Dot(plane.position, normal);
      var cubeCenterDist := Dot(position, normal);

      var radius := ProjectedRadius(halfExtents, normal);

      var cubeBottomDist := cubeCenterDist - radius;

      if cubeBottomDist < planeDist {
        cube.state := Awake;
        cube.sleepTimer := 0.0;

        var penetrationDepth := planeDist - cubeBottomDist;
        position := Add(position, Scale(normal, penetrationDepth));

        var velocityAlongNormal := Dot(velocity, normal);
        if velocityAlongNormal < 0.0 {
          var normalVelocity := Scale(normal, velocityAlongNormal);
          var bounceVelocity := Scale(Neg(normalVelocity), Restitution);
          velocity := Add(Sub(velocity, normalVelocity), bounceVelocity);
        }
        cube.position, cube.velocity := position, velocity;
      }
    }
  }

  /** A fresh engine has gravity off, and the getter reports what the setter stored. */
  method SetThenGet(b: bool) returns (before: bool, after: bool)
    ensures !before
    ensures after == b
  {
    var physics := new Physics();
    before := physics.GetGravityState();
    physics.SetGravity(b);
    after := physics.GetGravityState();
  }
}
