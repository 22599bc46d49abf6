/**
 * The single-file prototype: its own five-field orb record, its tick (gravity
 * always on, a floor at y = -5, the rest snap tested after reflection) and its
 * load and save, which follow the five-key schema with a fixed file name.
 */
module LegacyMain {
  import opened Vectors
  import opened Snapshot
  import PhysicsEngine
  import LegacySerializer

  /** Height of the prototype's floor. */
  const FloorY: real := -5.0

  class LegacyOrb {
    var id: string
    var position: Vec3
    var velocity: Vec3
    var energy: real
    var state: string

    constructor ()
      ensures id == "entity_01" && position == Vec3(0.0, 5.0, 0.0) && velocity == Zero
      ensures energy == 0.5 && state == "active"
    {
      id := "entity_01";
      position := Vec3(0.0, 5.0, 0.0);
      velocity := Zero;
      energy := 0.5;
      state := "active";
    }
  }

  /** The part of the orb that the tick changes. */
  datatype LegacyKin = LegacyKin(position: Vec3, velocity: Vec3, energy: real)

  function KinOf(orb: LegacyOrb): LegacyKin
    reads orb
  {
    LegacyKin(orb.position, orb.velocity, orb.energy)
  }

  /** Floor bounce of the vertical velocity: reflect and damp, then snap small results to 0. */
  function Bounce(vy: real): (r: real)
    ensures vy <= 0.0 ==> r >= 0.0
    ensures r == 0.0 || r == -PhysicsEngine.Restitution * vy
    ensures r == 0.0 <==> Abs(PhysicsEngine.Restitution * vy) < PhysicsEngine.RestThreshold
  {
    var reflected := -vy * PhysicsEngine.Restitution;
    if Abs(reflected) < PhysicsEngine.RestThreshold then 0.0 else reflected
  }

  /**
   * One prototype tick: energy as in the engine, gravity on the vertical
   * velocity, an explicit position step with the new velocity, and the floor.
   */
  function Step(k: LegacyKin, shouldInteract: bool, dt: real): (r: LegacyKin)
    ensures r.energy == PhysicsEngine.EnergyAfterInput(k.energy, shouldInteract, dt)
    ensures r.position.y >= FloorY
    ensures r.velocity.x == k.velocity.x && r.velocity.z == k.velocity.z
    ensures r.position.x == k.position.x + k.velocity.x * dt
    ensures r.position.z == k.position.z + k.velocity.z * dt
    ensures k.position.y + (k.velocity.y + PhysicsEngine.Gravity * dt) * dt >= FloorY ==>
      r.position.y == k.position.y + (k.velocity.y + PhysicsEngine.Gravity * dt) * dt &&
      r.velocity.y == k.velocity.y + PhysicsEngine.Gravity * dt
    ensures k.position.y + (k.velocity.y + PhysicsEngine.Gravity * dt) * dt < FloorY ==>
      r.position.y == FloorY && r.velocity.y == Bounce(k.velocity.y + PhysicsEngine.Gravity * dt)
  {
    var energy := PhysicsEngine.EnergyAfterInput(k.energy, shouldInteract, dt);
    var velocity := k.velocity.(y := k.velocity.y + PhysicsEngine.Gravity * dt);
    var position := Add(k.position, Scale(velocity, dt));
    if position.y < FloorY then
      LegacyKin(position.(y := FloorY), velocity.(y := Bounce(velocity.y)), energy)
    else
      LegacyKin(position, velocity, energy)
  }

  /** With dt >= 0 and energy in [0, 1], the prototype tick keeps energy in [0, 1]. */
  lemma StepKeepsEnergyInRange(k: LegacyKin, shouldInteract: bool, dt: real)
    requires dt >= 0.0 && 0.0 <= k.energy <= 1.0
    ensures 0.0 <= Step(k, shouldInteract, dt).energy <= 1.0
  {
  }

  /**
   * Because the rest test comes after reflection, an impact at speed s with
   * 0.1 <= s < 1/6 stops dead on the prototype's floor, while the engine's
   * sphere contact, which tests the speed before reflecting, bounces it
   * back at 0.6 s.
   */
  lemma SnapAfterReflection(vy: real, energy: real)
    requires -1.0 / 6.0 < vy <= -PhysicsEngine.RestThreshold
    ensures Bounce(vy) == 0.0
    ensures PhysicsEngine.SphereVelocity(Vec3(0.0, vy, 0.0), energy, Vec3(0.0, 1.0, 0.0)).0
            == Vec3(0.0, -PhysicsEngine.Restitution * vy, 0.0)
  {
    assert Abs(-vy * PhysicsEngine.Restitution) < PhysicsEngine.RestThreshold;
  }

  /** The prototype's `update`: mutates the orb in place. */
  method Update(orb: LegacyOrb, shouldInteract: bool, dt: real)
    modifies orb
    ensures KinOf(orb) == Step(old(KinOf(orb)), shouldInteract, dt)
    ensures orb.id == old(orb.id) && orb.state == old(orb.state)
  {
    var energy := orb.energy;
    if shouldInteract {
      energy := energy + 1.0 * dt;
      energy := Min(energy, 1.0);
    } else {
      energy := energy - 0.1 * dt;
      energy := Max(energy, 0.0);
    }

    var velocity := orb.velocity;
    velocity := velocity.(y := velocity.y + PhysicsEngine.Gravity * dt);
    var position := Add(orb.position, Scale(velocity, dt));

    if position.y < FloorY {
      position := position.(y := FloorY);
      velocity := velocity.(y := -velocity.y * 0.6);
      if Abs(velocity.y) < 0.1 {
        velocity := velocity.(y := 0.0);
      }
    }

    orb.energy := energy;
    orb.velocity := velocity;
    orb.position := position;
  }

  function Saved(orb: LegacyOrb): LegacySerializer.SavedOrb
    reads orb
  {
    LegacySerializer.SavedOrb(orb.id, orb.position, orb.velocity, orb.energy, orb.state)
  }

  /** The prototype's `loadState`: the five-key load onto its own default orb. */
  method LoadState(file: SnapshotFile) returns (orb: LegacyOrb)
    ensures fresh(orb)
    ensures Saved(orb) == if file.Parsed? then LegacySerializer.Decode(file.doc, LegacySerializer.DefaultSaved)
                          else LegacySerializer.DefaultSaved
  {
    orb := new LegacyOrb();

    if !file.Parsed? {
      return;
    }
    var doc := file.doc;

    var id := ReadString(doc, "id");
    if id.None? { return; }
    orb.id := id.value;

    var position := ReadVec3(doc, "position");
    if position.None? { return; }
    orb.position := position.value;

    var velocity := ReadVec3(doc, "velocity");
    if velocity.None? { return; }
    orb.velocity := velocity.value;

    var energy := ReadNumber(doc, "energy");
    if energy.None? { return; }
    orb.energy := energy.value;

    var state := ReadString(doc, "state");
    if state.None? { return; }
    orb.state := state.value;
  }

  /** The prototype's `saveState`. */
  method SaveState(orb: LegacyOrb) returns (doc: Document)
    ensures doc == LegacySerializer.Encode(Saved(orb))
  {
    doc := map[];
    doc := doc["id" := JString(orb.id)];
    doc := doc["position" := Vec3Json(orb.position)];
    doc := doc["velocity" := Vec3Json(orb.velocity)];
    doc := doc["energy" := JNumber(orb.energy)];
    doc := doc["state" := JString(orb.state)];
  }
}
