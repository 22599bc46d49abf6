/**
 * The six-key snapshot (id, position, velocity, energy, state, isGravityOn):
 * saving snaps near-zero position and velocity components to 0; loading
 * starts from an initialised default orb and assigns fields in schema order
 * until the first key that cannot be read.
 */
module Serializer {
  import opened Vectors
  import opened Components
  import opened Snapshot

  /** Magnitudes below this are written as exactly 0. */
  const Epsilon: real := 0.000001

  function CleanFloat(value: real): (r: real)
    ensures r == 0.0 || r == value
    ensures Abs(value - r) < Epsilon
    ensures Abs(r) < Epsilon ==> r == 0.0
    ensures Abs(value) >= Epsilon ==> r == value
  {
    if Abs(value) < Epsilon then 0.0 else value
  }

  function CleanVec(v: Vec3): Vec3
  {
    Vec3(CleanFloat(v.x), CleanFloat(v.y), CleanFloat(v.z))
  }

  /** Snapping a value that is already clean changes nothing. */
  lemma CleanFloatIdempotent(value: real)
    ensures CleanFloat(CleanFloat(value)) == CleanFloat(value)
  {
  }

  /** The fields the snapshot stores. */
  datatype SavedOrb = SavedOrb(id: string, position: Vec3, velocity: Vec3, energy: real, state: string, isGravityOn: bool)

  function Saved(orb: GlowingOrb): SavedOrb
    reads orb
  {
    SavedOrb(orb.id, orb.position, orb.velocity, orb.energy, orb.state, orb.isGravityOn)
  }

  /** The stored fields of a default-constructed, initialised orb. */
  const DefaultSaved: SavedOrb := SavedOrb("entity_01", OrbStartPosition, Zero, 0.5, "active", false)

  const SchemaKeys: set<string> := {"id", "position", "velocity", "energy", "state", "isGravityOn"}

  /**
   * How many keys, in the order the loader reads them, are read successfully
   * before the first failure (6 when all are).
   */
  function Progress(doc: Document): (k: nat)
    ensures k <= 6
    ensures k == 6 <==> ReadString(doc, "id").Some? && ReadVec3(doc, "position").Some? &&
                        ReadVec3(doc, "velocity").Some? && ReadNumber(doc, "energy").Some? &&
                        ReadString(doc, "state").Some? && ReadBool(doc, "isGravityOn").Some?
  {
    if ReadString(doc, "id").None? then 0
    else if ReadVec3(doc, "position").None? then 1
    else if ReadVec3(doc, "velocity").None? then 2
    else if ReadNumber(doc, "energy").None? then 3
    else if ReadString(doc, "state").None? then 4
    else if ReadBool(doc, "isGravityOn").None? then 5
    else 6
  }

  /**
   * The stored fields after loading `doc` over `base`: the i-th field in
   * schema order comes from the document when the first i keys all read
   * successfully, and keeps its value in `base` otherwise.
   */
  function Decode(doc: Document, base: SavedOrb): (r: SavedOrb)
    ensures Progress(doc) == 0 ==> r == base
    ensures Progress(doc) < 6 ==> r.isGravityOn == base.isGravityOn
  {
    var k := Progress(doc);
    SavedOrb(
      if k >= 1 then ReadString(doc, "id").value else base.id,
      if k >= 2 then ReadVec3(doc, "position").value else base.position,
      if k >= 3 then ReadVec3(doc, "velocity").value else base.velocity,
      if k >= 4 then ReadNumber(doc, "energy").value else base.energy,
      if k >= 5 then ReadString(doc, "state").value else base.state,
      if k >= 6 then ReadBool(doc, "isGravityOn").value else base.isGravityOn)
  }

  /** The document `saveState` writes. */
  function Encode(o: SavedOrb): (doc: Document)
    ensures doc.Keys == SchemaKeys
    ensures Progress(doc) == 6
  {
    map[
      "id" := JString(o.id),
      "position" := Vec3Json(CleanVec(o.position)),
      "velocity" := Vec3Json(CleanVec(o.velocity)),
      "energy" := JNumber(o.energy),
      "state" := JString(o.state),
      "isGravityOn" := JBool(o.isGravityOn)]
  }

  /**
   * Loads the snapshot. A missing or unparseable file yields the initialised
   * default orb; otherwise fields are assigned in schema order and the first
   * failing key abandons the rest, keeping what was already assigned.
   */
  method LoadState(file: SnapshotFile) returns (orb: GlowingOrb)
    ensures fresh(orb)
    ensures Saved(orb) == if file.Parsed? then Decode(file.doc, DefaultSaved) else DefaultSaved
    ensures orb.collider.shape == SphereShape && orb.collider.radius == 1.0
    ensures orb.collider.baseHalfExtents == Vec3(0.5, 0.5, 0.5)
    ensures orb.eqState == Awake && orb.sleepTimer == 0.0
    ensures orb.MassValid() && orb.forceAccumulator == Zero
  {
    orb := new GlowingOrb();
    orb.Init();

    if !file.Parsed? {
      return;
    }
    var doc := file.doc;

    var id := ReadString(doc, "id");
    if id.None? { return; }
    orb.id := id.value;

    var position := ReadVec3(doc, "position");
    if position.None? { return; }
    orb.position := position.value;

    var velocity := ReadVec3(doc, "velocity");
    if velocity.None? { return; }
    orb.velocity := velocity.value;

    var energy := ReadNumber(doc, "energy");
    if energy.None? { return; }
    orb.energy := energy.value;

    var state := ReadString(doc, "state");
    if state.None? { return; }
    orb.state := state.value;

    var isGravityOn := ReadBool(doc, "isGravityOn");
    if isGravityOn.None? { return; }
    orb.isGravityOn := isGravityOn.value;
  }

  /** Builds the snapshot document key by key. */
  method SaveState(orb: GlowingOrb) returns (doc: Document)
    ensures doc == Encode(Saved(orb))
  {
    var cleanPosition := Vec3(CleanFloat(orb.position.x), CleanFloat(orb.position.y), CleanFloat(orb.position.z));
    var cleanVelocity := Vec3(CleanFloat(orb.velocity.x), CleanFloat(orb.velocity.y), CleanFloat(orb.velocity.z));

    doc := map[];
    doc := doc["id" := JString(orb.id)];
    doc := doc["position" := Vec3Json(cleanPosition)];
    doc := doc["velocity" := Vec3Json(cleanVelocity)];
    doc := doc["energy" := JNumber(orb.energy)];
    doc := doc["state" := JString(orb.state)];
    doc := doc["isGravityOn" := JBool(orb.isGravityOn)];
  }

  /**
   * Loading what was saved gives back every stored field, except that
   * position and velocity components below 1e-6 in magnitude come back as 0.
   * Energy is carried through unchecked, inside [0, 1] or not.
   */
  lemma RoundTrip(o: SavedOrb, base: SavedOrb)
    ensures Decode(Encode(o), base) == o.(position := CleanVec(o.position), velocity := CleanVec(o.velocity))
  {
    ReadVec3Json(Encode(o), "position", CleanVec(o.position));
    ReadVec3Json(Encode(o), "velocity", CleanVec(o.velocity));
  }

  /** Save after load after save writes the same document as the first save. */
  lemma SaveLoadSaveStable(o: SavedOrb, base: SavedOrb)
    ensures Encode(Decode(Encode(o), base)) == Encode(o)
  {
    RoundTrip(o, base);
    var p, v := o.position, o.velocity;
    CleanFloatIdempotent(p.x); CleanFloatIdempotent(p.y); CleanFloatIdempotent(p.z);
    CleanFloatIdempotent(v.x); CleanFloatIdempotent(v.y); CleanFloatIdempotent(v.z);
  }

  /**
   * A snapshot of the older five-key schema (no `isGravityOn`) still loads
   * every other field; the flag keeps its default.
   */
  lemma MissingGravityFlagLoadsTheRest(doc: Document, base: SavedOrb)
    requires "isGravityOn" !in doc
    requires ReadString(doc, "id").Some? && ReadVec3(doc, "position").Some? && ReadVec3(doc, "velocity").Some?
    requires ReadNumber(doc, "energy").Some? && ReadString(doc, "state").Some?
    ensures Decode(doc, base) == SavedOrb(doc["id"].s, ReadVec3(doc, "position").value, ReadVec3(doc, "velocity").value,
                                          doc["energy"].n, doc["state"].s, base.isGravityOn)
  {
  }

  /**
   * Loading is not all-or-nothing: a snapshot whose id reads but whose
   * position does not yields the stored id with every other field default.
   */
  lemma FailedKeyKeepsEarlierFields(id: string, badPosition: JsonValue)
    requires !badPosition.JArray?
    ensures Decode(map["id" := JString(id), "position" := badPosition], DefaultSaved) == DefaultSaved.(id := id)
  {
  }
}
