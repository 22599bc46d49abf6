# Cross-Engine rigid-body core, modelled in Dafny

This project models the simulation core of a small OpenGL physics sandbox.
The sandbox has a glowing orb, an infinite ground plane and an optional cube.
Each tick does four things:

- it flips a sticky gravity flag when the G key was just pressed;
- it charges the orb's energy while E is held and drains it otherwise;
- it rebuilds a force accumulator and applies semi-implicit Euler to awake bodies;
- it resolves sphere–plane and box–plane contact with push-out, a 0.6 restitution bounce, a rest snap below 0.1 and an energy award on impact.

Around this step the project models:

- the entity records and their `init()` methods;
- the key edge detector and the mouse-offset tracker of the input manager;
- the two snapshot schemas and their loaders and savers: six keys with near-zero snapping, and the earlier five keys;
- the single-file prototype's own tick, floor at y = −5, with its load and save;
- the OBJ triangle loader.

All quantities are `real`. Every exact-contact and round-trip result holds over the reals, not over IEEE single precision.

Modules, in dependency order:

- `Vectors` (vectors.dfy): 3- and 2-vectors, the quaternion and vector algebra.
- `Components` (components.dfy): `GlowingOrb`, `Plane` and `Cube` are classes, because `init()` and the physics step update them in place. `Collider` is a value.
- `Input` (input.dfy): `InputManager` is a class whose `Process` and `MouseCallback` update its remembered key and cursor state.
- `PhysicsEngine` (physics.dfy): each phase of the tick is first given as a function on the bodies' values. The class `Physics` then performs the tick on the objects, and each method is proved equal to those functions.
- `Snapshot` (snapshot.dfy): the keyed document, as an abstract `map<string, JsonValue>`, and the typed reads the loaders perform.
- `Serializer` (serializer.dfy): the six-key snapshot of `source/Serializer.cpp`.
- `LegacySerializer` (legacy_serializer.dfy): the five-key snapshot of `Serializer.cpp`.
- `LegacyMain` (legacy_main.dfy): the prototype in `Main.cpp`.
- `FileParser` (file_parser.dfy): `parseObj`.

### Notes on the code

- **Loading is partial, not all-or-nothing.** The `catch` in `source/Serializer.cpp:47-50` and `Serializer.cpp:36-39` only reports the error and does not reset the orb. Its message announces default values, but fields assigned before the failing key keep their loaded values. `Serializer.Decode`, `LegacySerializer.Decode` and the `LoadState` methods model the code. `Serializer.FailedKeyKeepsEarlierFields` shows a concrete partial load.
- **Box radius.** The cube's projected radius is `h.x·|n.x| + h.y·|n.y| + h.z·|n.z|`, as written. `PhysicsEngine.ProjectedRadiusIsSupport` proves it equals the usual `Σ|hᵢ·nᵢ|` when the half-extents are non-negative.
- **The save trigger.** The input manager's save trigger is the X key, although the variable is named for S.
- **Extra orb fields.** The orb record in `Components.h` has no `mass`, `inverseMass`, `forceAccumulator` or `isGravityOn`, but the physics step and the six-key snapshot use them. The model adds them. Mass 1 and inverse mass 1/mass copy the cube's field initialisers in `Components.h:80-81`. Zero force and a false gravity flag are assumed defaults, since no record in the code declares them for the orb. `MassValid` states the mass invariant.
- **The cube's force accumulator.** The cube record has no `forceAccumulator` either. It is added with a zero default.

## Model

| member | source | states |
|---|---|---|
| Components.GlowingOrb.constructor | Components.h:37-46 | A default orb has id "entity_01", position (0,5,0), zero velocity, energy 0.5, state "active", is awake with sleep timer 0, and has collider half-extents 0.5. The added mass fields satisfy `MassValid` and the force is zero. |
| Components.GlowingOrb.Init | Components.h:48-54 | Puts the orb back at (0,5,0) and makes its collider a sphere of radius 1. Every other field, including velocity, energy, id and state, is unchanged. |
| Components.Plane.constructor | Components.h:57-60 | A default plane sits at the origin, is white, and has collider half-extents 0.5. |
| Components.Plane.Init | Components.h:63-66 | Makes the collider a plane with normal (0,1,0), which is a unit vector, and leaves position and colour alone. |
| Components.Cube.constructor | Components.h:69-87 | A default cube sits at (2,2,2) at rest. It is magenta, with scale 1, identity rotation, zero angular velocity and torque, mass 1 with inverse mass 1/mass, sleep timer 0 and base half-extents 0.5, and it is awake. |
| Components.Cube.Init | Components.h:89-92 | Makes the collider an axis-aligned box with half-extents (1,1,1), overriding the 0.5 default. Nothing else changes. |
| Input.InputManager.constructor | header/InputManager.h:47-55 | Every flag starts false and the cursor starts at (400,300) with the first-event flag set. Every remembered key state starts as released. |
| Input.InputManager.Process | InputManager.cpp:17-40 | Interaction equals "E is pressed". Exit (Escape), save (X), gravity toggle (G) and reset (R) are each true iff the key is pressed now and was released at the previous poll. Each remembered key state becomes the current one, and the cursor state is untouched. |
| Input.InputManager.MouseCallback | InputManager.cpp:62-78 | The first event reports offsets (0,0). Later events report xpos − lastX and lastY − ypos (y reversed). Afterwards the last position is the current one and the first-event flag is cleared. Flags and key states are untouched. |
| Input.InputManager.GetState | header/InputManager.h:28 | Returns the flags of the last poll and changes nothing. |
| Input.FirstPoll | header/InputManager.h:52-55 | On the first poll after construction, each edge trigger equals "its key is pressed", so a key held at start-up fires at once. |
| Input.Triggers | InputManager.cpp:33-35 | One trigger value per poll of a key. |
| Input.HeldKeyFiresOnce | InputManager.cpp:33-35 | A key held down through any number of polls fires on the first poll only, and only if it was up before. |
| Input.TriggersNeedRelease | InputManager.cpp:33-35 | A trigger after the first poll implies the key was up at the poll before, so two firings are always separated by a release. |
| PhysicsEngine.EnergyAfterInput | Physics.cpp:13-20 | Charging never exceeds 1 and draining never goes below 0. With dt ≥ 0 an energy in [0,1] stays in [0,1]. Charging never lowers it, draining never raises it, and dt = 0 leaves it alone. |
| PhysicsEngine.GravityForce | Physics.cpp:22-39 | The rebuilt force is vertical. It is zero when gravity is off or the body is asleep. |
| PhysicsEngine.Integrate | Physics.cpp:44-59 | Semi-implicit Euler: v' = v + F·invMass·dt, and p' = p + v·dt + F·invMass·dt², so the position uses the updated velocity. |
| PhysicsEngine.SphereContact | Physics.cpp:73-121 | With penetration ≥ 0 (strict test) nothing changes. On contact the orb is awake with timer 0. It never becomes asleep, energy in [0,1] stays in [0,1], and an impact never lowers energy. |
| PhysicsEngine.SphereEndsTouching | Physics.cpp:79-88 | With a unit normal, a colliding orb ends exactly touching the plane (penetration 0). |
| PhysicsEngine.SphereSeparatingKeepsVelocity | Physics.cpp:91-93 | A colliding orb whose velocity does not point into the plane keeps its velocity and energy. |
| PhysicsEngine.SphereRestSnap | Physics.cpp:93-104 | An impact slower than 0.1 along the normal sets the velocity to the zero vector and awards no energy. |
| PhysicsEngine.SphereBounce | Physics.cpp:105-118 | With a unit normal, an impact speed ≥ 0.1 scales the normal velocity component by −0.6 and keeps the tangential part. Energy becomes min(1, energy + 0.1·impact speed). |
| PhysicsEngine.BounceAlongNormal | Physics.cpp:109-112 | The shared bounce formula, for a unit normal, gives normal component −0.6·(v·n) and keeps the tangential component. |
| PhysicsEngine.ProjectedRadius | Physics.cpp:135 | The box's projected radius is non-negative for non-negative half-extents. Against the ground normal (0,1,0) it is the vertical half-extent. |
| PhysicsEngine.ProjectedRadiusIsSupport | Physics.cpp:135 | For non-negative half-extents the source's form equals Σ\|hᵢ·nᵢ\|. |
| PhysicsEngine.BoxContact | Physics.cpp:123-161 | With no overlap nothing changes. On overlap the cube is awake with timer 0, and a velocity that does not point into the plane is kept. The cube never becomes asleep. |
| PhysicsEngine.BoxEndsOnPlane | Physics.cpp:139-159 | With a unit normal, a colliding cube ends with its lowest face exactly on the plane. If it moved into the plane, its normal velocity is scaled by −0.6 and its tangential velocity kept, however slow the impact: the cube has no rest snap and no energy. |
| PhysicsEngine.OrbTick | Physics.cpp:13-63 | Over a whole tick with dt ≥ 0, the orb's energy stays in [0,1]. The orb is never put to sleep. |
| PhysicsEngine.CubeTick | Physics.cpp:22-66 | Over a whole tick the cube is never put to sleep. |
| PhysicsEngine.AwakeFreeFall | Physics.cpp:28-51 | An awake orb of valid mass with gravity on that does not reach the plane gains exactly −9.8·dt of vertical velocity, and nothing else. |
| PhysicsEngine.RunKeepsEnergyInRange | Physics.cpp:13-20 | Over any sequence of ticks with non-negative time slices, energy that starts in [0,1] stays in [0,1]. This covers charging, draining and impacts. |
| PhysicsEngine.SleepingOrbStaysFrozen | Physics.cpp:31-51 | A sleeping orb clear of the plane keeps its position and velocity and stays asleep over any sequence of ticks, whatever the gravity flag does. |
| PhysicsEngine.Physics.constructor | header/Physics.h:12 | A fresh engine has gravity disabled. |
| PhysicsEngine.Physics.SetGravity | header/Physics.h:25 | Stores the given flag. |
| PhysicsEngine.Physics.GetGravityState | header/Physics.h:26 | Returns the flag and changes nothing. |
| PhysicsEngine.SetThenGet | header/Physics.h:12-26 | The getter reports false on a fresh engine and, after `setGravity(b)`, reports b. |
| PhysicsEngine.Physics.Update | Physics.cpp:7-71 | The gravity flag is negated exactly when the toggle input holds, before forces are built. The orb's and the non-null cube's forces, positions, velocities, energy, states and timers equal one `OrbTick` or `CubeTick` against the plane. Identity, collider, mass and rotational fields are unchanged, so `MassValid` is preserved for both bodies. An absent cube is never touched. |
| PhysicsEngine.Physics.ChargeOrb | Physics.cpp:13-20 | The energy phase sets the orb's energy to `EnergyAfterInput` and changes no other field. |
| PhysicsEngine.Physics.AccumulateOrbForce | Physics.cpp:22-34 | The orb's accumulator is reset and then equals its weight (0, −9.8·mass, 0) if gravity is on and the orb is awake, and zero otherwise. Every other orb field is unchanged. |
| PhysicsEngine.Physics.AccumulateCubeForce | Physics.cpp:23-38 | The same for the cube's accumulator. `Update` calls it only when the cube is present. Every other cube field is unchanged. |
| PhysicsEngine.Physics.IntegrateAwakeBodies | Physics.cpp:44-59 | Awake bodies follow semi-implicit Euler. Sleeping bodies keep position and velocity. Nothing else changes. |
| PhysicsEngine.Physics.SolveSpherePlaneCollision | Physics.cpp:73-121 | The orb's state after resolution equals `SphereContact`. Identity, collider, mass and force are untouched. |
| PhysicsEngine.Physics.SolveCubePlaneCollision | Physics.cpp:123-161 | The cube's state after resolution equals `BoxContact`, using half-extents = base half-extents × scale. Appearance, rotation, mass and force are untouched. |
| Snapshot.MissingKeyFailsEveryRead | source/Serializer.cpp:31-42 | `at` on a missing key fails for every read: string, number, boolean and vector. |
| Snapshot.ScalarReadAfterWrite | source/Serializer.cpp:74-79 | A string, number or boolean stored under a key reads back as itself. Asking for either of the other two scalar types fails. |
| Snapshot.ReadsAreLocal | source/Serializer.cpp:31-42 | Storing any value under another key leaves all four reads of a key unchanged. |
| Snapshot.Vec3ReadIgnoresExtraItems | source/Serializer.cpp:33-37 | An array starting with three numbers reads as the vector of those three, whatever follows them. |
| Snapshot.Vec3ReadNeedsThreeItems | source/Serializer.cpp:33-37 | A null, or an array of fewer than three items, fails the vector read, because the missing elements are nulls. |
| Snapshot.ReadVec3Json | source/Serializer.cpp:75-76 | A vector written as a three-number array reads back as the same vector. |
| Serializer.CleanFloat | source/Serializer.cpp:8-14 | The result is 0 when \|v\| < 1e-6 and v otherwise. It never moves v by 1e-6 or more. |
| Serializer.CleanFloatIdempotent | source/Serializer.cpp:8-14 | Snapping twice is snapping once. |
| Serializer.Progress | source/Serializer.cpp:31-42 | The number of keys that read successfully in load order. It is at most 6, and 6 iff all six keys read. |
| Serializer.Decode | source/Serializer.cpp:31-50 | If the first key fails, the default stays. If any key before the last fails, the gravity flag keeps its default. |
| Serializer.Encode | source/Serializer.cpp:74-79 | The saved document has exactly the keys id, position, velocity, energy, state and isGravityOn, and every one of them reads back. |
| Serializer.LoadState | source/Serializer.cpp:16-52 | A missing or unparseable file gives the `init()`-ed default orb. Otherwise the stored fields are assigned in schema order up to the first failing key, and later fields keep their defaults. The collider is a unit sphere. |
| Serializer.SaveState | source/Serializer.cpp:54-79 | The document written is `Encode` of the orb: only position and velocity pass through `CleanFloat`, and energy is written unchecked. |
| Serializer.RoundTrip | source/Serializer.cpp:31-42 | Loading what was saved reproduces every stored field, except that position and velocity components below 1e-6 in magnitude come back as 0. Energy is neither clamped nor checked. |
| Serializer.SaveLoadSaveStable | source/Serializer.cpp:54-79 | Saving again after load writes the same document. |
| Serializer.MissingGravityFlagLoadsTheRest | source/Serializer.cpp:42-50 | A snapshot without `isGravityOn` still loads the five other fields, and the flag keeps its default. |
| Serializer.FailedKeyKeepsEarlierFields | source/Serializer.cpp:31-50 | A snapshot whose id reads but whose position does not loads the id and keeps every other default. |
| LegacySerializer.Progress | Serializer.cpp:22-31 | At most 5, and 5 iff all five keys read in load order. |
| LegacySerializer.Decode | Serializer.cpp:17-39 | If the first key fails, the default stays. If any key fails, the last field, state, keeps its default. |
| LegacySerializer.Encode | Serializer.cpp:43-50 | Exactly the five keys, raw values, all readable. |
| LegacySerializer.LoadState | Serializer.cpp:8-40 | A missing or unparseable file gives the plain default orb, without `init()`. Otherwise the fields are assigned in order up to the first failing key. |
| LegacySerializer.SaveState | Serializer.cpp:43-50 | The document written is `Encode` of the orb, with no snapping. |
| LegacySerializer.RoundTrip | Serializer.cpp:22-31 | Loading what was saved reproduces id, position, velocity, energy and state exactly. |
| LegacySerializer.ExtraKeyIgnored | Serializer.cpp:22-31 | Keys outside the five-key schema, such as `isGravityOn`, do not affect the load. |
| LegacyMain.LegacyOrb.constructor | Main.cpp:26-32 | The prototype's orb starts with id "entity_01", (0,5,0), zero velocity, energy 0.5 and state "active". |
| LegacyMain.Bounce | Main.cpp:264-268 | The vertical velocity is reflected and damped to −0.6·vy, or snapped to 0, and it is 0 exactly when the damped value is below 0.1 in magnitude. |
| LegacyMain.Step | Main.cpp:243-270 | Energy follows the engine's charge and drain rule. x and z velocity are untouched, and x and z position advance by v·dt. With no floor contact, vertical velocity gains −9.8·dt and the position uses it. Otherwise y is exactly −5 and the vertical velocity is `Bounce` of the updated one. The orb always ends at y ≥ −5. |
| LegacyMain.StepKeepsEnergyInRange | Main.cpp:246-254 | With dt ≥ 0, energy in [0,1] stays in [0,1]. |
| LegacyMain.SnapAfterReflection | Main.cpp:264-268 | Because the prototype tests for rest after reflecting, an impact at speed in [0.1, 1/6) stops dead. The engine's sphere contact bounces the same impact back at 0.6 of the speed. |
| LegacyMain.Update | Main.cpp:243-270 | Mutates the orb in place to exactly `Step` of its old state. id and state are unchanged. |
| LegacyMain.LoadState | Main.cpp:314-357 | The five-key load with partial assignment, onto the prototype's default orb. |
| LegacyMain.SaveState | Main.cpp:362-382 | Writes the five-key document with raw values. |
| FileParser.FaceCornerSources | source/FileParser.cpp:61-71 | For the face on line k, output vertex 3f+i takes positions[v−1], texcoords[vt−1] and normals[vn−1] of corner i, from the lists as they stood at line k. Every such index is in range. |
| FileParser.Snoc | source/FileParser.cpp:22-75 | Reading one more line applies exactly one step of the per-line rule. |
| FileParser.ReadLine | source/FileParser.cpp:25-72 | One pass of the read loop: the new lists and output are exactly one `Feed` step. A vertex, texcoord or normal line appends to its list, and a face appends its three looked-up corners. |
| FileParser.ParseObj | source/FileParser.cpp:5-79 | The output starts empty, so earlier contents are discarded. An unopenable file gives no vertices. Otherwise the output is the vertex list the line-by-line rules build, with face indices in range as the precondition. |
| FileParser.VertexCount | source/FileParser.cpp:48-72 | The output has exactly 3 × (number of face lines) vertices. |
| FileParser.OutputGrowsByAppending | source/FileParser.cpp:64-72 | Output is only appended to: the output after any prefix of the file is a prefix of the final output. |
| FileParser.FaceVertices | source/FileParser.cpp:61-72 | The face on line k supplies output vertices 3f, 3f+1 and 3f+2, where f is the number of earlier faces. They come in corner order, looked up in the lists as they stood at line k. |
| FileParser.NonFaceAddsNothing | source/FileParser.cpp:33-47 | Position, texcoord, normal, empty and unrecognised lines add no output vertex. |
| FileParser.IgnoredLinesChangeNothing | source/FileParser.cpp:25-27 | Empty lines and lines with an unrecognised prefix change no list at all. |

## Left out

- JSON text: parsing, pretty-printing and the number ↔ text conversion. The snapshot is an abstract keyed document. `Unparseable` stands for both a parse error and a top level that is not an object, since both fail before any field is assigned.
- The loaders' number conversions accept only numbers. The JSON library would also convert a boolean stored under `energy` or in a vector; that coercion is not modelled.
- File opening, reading and writing, and the write-failure branch of the savers: a saver returns the document it would write. The fixed file name of the prototype is not modelled.
- All console logging.
- IEEE single-precision rounding. Every quantity is a real. The float casts of the mouse callback are not modelled.
- The unqualified `abs` in the cube solver is modelled as the real absolute value. No integer overload is considered.
- The camera calls, cursor capture and callback registration of the input manager, and its scroll callback. All of these are calls into code that is not part of this model.
- The frame loop, the clock and the reset-to-default of the orb that the application performs. The three-argument `update` that the application calls is not part of this model.
- The prototype's `processInput`. Its S key is level-triggered and sets a global flag. Rendering, shaders and `main` are also left out.
- The cube's inverse inertia tensor. Rotation, angular velocity and torque are carried as inert fields, because no code evolves them.
- Any sleep-timer advance or awake-to-sleeping rule. The code has none: the timer is only ever reset to 0, and `SleepingOrbStaysFrozen` covers a body that is asleep from the start.
- The collider's shape tag, radius and normal before `init()`. They have no initialiser in the source, so the constructors promise nothing about them.
- Stream float parsing in `parseObj`, including a malformed number or a short line. Lines arrive already tokenised. Face indices out of range are undefined behaviour in the source, so the model makes them a precondition of `ParseObj`.
- The orb's default gravity flag and force. `Components.h` gives the orb no `isGravityOn` or `forceAccumulator`, so the false flag and zero force of `Components.GlowingOrb.constructor` are assumptions. The false flag is what `Serializer.DefaultSaved` stores for a missing file and what a six-key load keeps when `isGravityOn` fails to read.
- The scratch copy `savedPosition` in the six-key saver is never used, and is left out.
