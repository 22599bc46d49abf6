/**
 * The earlier five-key snapshot (id, position, velocity, energy, state):
 * values are written raw, and loading starts from a plain default-constructed
 * orb without `init()`. Fields are assigned in schema order until the first
 * key that cannot be read.
 */
module LegacySerializer {
  import opened Vectors
  import opened Components
  import opened Snapshot

  /** The fields the five-key snapshot stores. */
  datatype SavedOrb = SavedOrb(id: string, position: Vec3, velocity: Vec3, energy: real, state: string)

  function Saved(orb: GlowingOrb): SavedOrb
    reads orb
  {
    SavedOrb(orb.id, orb.position, orb.velocity, orb.energy, orb.state)
  }

  /** The stored fields of a default-constructed orb. */
  const DefaultSaved: SavedOrb := SavedOrb("entity_01", OrbStartPosition, Zero, 0.5, "active")

  const SchemaKeys: set<string> := {"id", "position", "velocity", "energy", "state"}

  /** How many keys, in load order, read successfully before the first failure. */
  function Progress(doc: Document): (k: nat)
    ensures k <= 5
    ensures k == 5 <==> ReadString(doc, "id").Some? && ReadVec3(doc, "position").Some? &&
                        ReadVec3(doc, "velocity").Some? && ReadNumber(doc, "energy").Some? &&
                        ReadString(doc, "state").Some?
  {
    if ReadString(doc, "id").None? then 0
    else if ReadVec3(doc, "position").None? then 1
    else if ReadVec3(doc, "velocity").None? then 2
    else if ReadNumber(doc, "energy").None? then 3
    else if ReadString(doc, "state").None? then 4
    else 5
  }

  /**
   * The stored fields after loading `doc` over `base`: the i-th field in
   * schema order comes from the document when the first i keys all read.
   */
  function Decode(doc: Document, base: SavedOrb): (r: SavedOrb)
    ensures Progress(doc) == 0 ==> r == base
    ensures Progress(doc) < 5 ==> r.state == base.state
  {
    var k := Progress(doc);
    SavedOrb(
      if k >= 1 then ReadString(doc, "id").value else base.id,
      if k >= 2 then ReadVec3(doc, "position").value else base.position,
      if k >= 3 then ReadVec3(doc, "velocity").value else base.velocity,
      if k >= 4 then ReadNumber(doc, "energy").value else base.energy,
      if k >= 5 then ReadString(doc, "state").value else base.state)
  }

  /** The document the five-key `saveState` writes: raw values, no snapping. */
  function Encode(o: SavedOrb): (doc: Document)
    ensures doc.Keys == SchemaKeys
    ensures Progress(doc) == 5
  {
    map[
      "id" := JString(o.id),
      "position" := Vec3Json(o.position),
      "velocity" := Vec3Json(o.velocity),
      "energy" := JNumber(o.energy),
      "state" := JString(o.state)]
  }

  /**
   * Loads the snapshot onto a plain default orb (its collider is left as
   * constructed). A missing or unparseable file yields that orb unchanged.
   */
  method LoadState(file: SnapshotFile) returns (orb: GlowingOrb)
    ensures fresh(orb)
    ensures Saved(orb) == if file.Parsed? then Decode(file.doc, DefaultSaved) else DefaultSaved
    ensures orb.collider.baseHalfExtents == Vec3(0.5, 0.5, 0.5)
    ensures orb.eqState == Awake && orb.sleepTimer == 0.0
    ensures orb.MassValid() && orb.forceAccumulator == Zero && !orb.isGravityOn
  {
    orb := new GlowingOrb();

    if !file.Parsed? {
      return;
    }
    var doc := file.doc;

    var id := ReadString(doc, "id");
    if id.None? { return; }
    orb.id := id.value;

    var position := ReadVec3(doc, "position");
    if position.None? { return; }
    orb.position := position.value;

    var velocity := ReadVec3(doc, "velocity");
    if velocity.None? { return; }
    orb.velocity := velocity.value;

    var energy := ReadNumber(doc, "energy");
    if energy.None? { return; }
    orb.energy := energy.value;

    var state := ReadString(doc, "state");
    if state.None? { return; }
    orb.state := state.value;
  }

  /** Builds the five-key document key by key. */
  method SaveState(orb: GlowingOrb) returns (doc: Document)
    ensures doc == Encode(Saved(orb))
  {
    doc := map[];
    doc := doc["id" := JString(orb.id)];
    doc := doc["position" := Vec3Json(orb.position)];
    doc := doc["velocity" := Vec3Json(orb.velocity)];
    doc := doc["energy" := JNumber(orb.energy)];
    doc := doc["state" := JString(orb.state)];
  }

  /** With no snapping, loading what was saved gives back every stored field exactly. */
  lemma RoundTrip(o: SavedOrb, base: SavedOrb)
    ensures Decode(Encode(o), base) == o
  {
    ReadVec3Json(Encode(o), "position", o.position);
    ReadVec3Json(Encode(o), "velocity", o.velocity);
  }

  /**
   * A six-key snapshot loads under the five-key schema: the extra
   * `isGravityOn` key is ignored.
   */
  lemma ExtraKeyIgnored(doc: Document, key: string, value: JsonValue, base: SavedOrb)
    requires key !in SchemaKeys
    ensures Decode(doc[key := value], base) == Decode(doc, base)
  {
    var d := doc[key := value];
    assert ReadString(d, "id") == ReadString(doc, "id");
    assert ReadVec3(d, "position") == ReadVec3(doc, "position");
    assert ReadVec3(d, "velocity") == ReadVec3(doc, "velocity");
    assert ReadNumber(d, "energy") == ReadNumber(doc, "energy");
    assert ReadString(d, "state") == ReadString(doc, "state");
  }
}
