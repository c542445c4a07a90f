# Swarm simulation core, modelled in Dafny

This project models the discrete bookkeeping of a small Rust/OpenGL swarm
simulation. A swarm is a set of agents. Each agent keeps a neighbour table:
for every other agent, that agent's mailbox and its last reported position and
velocity. Agents refresh each other's tables by gossip. An `UPDATE` message
carries a `received_list` of the ids that have already seen the wave and a
payload of observations. Each agent refreshes its table from the payload,
appends its own observation, and relays the wave to the peers in its table that
have not seen it and are within the perception radius (10 units). The model also
covers:

- how `Swarm::new` builds the agents one at a time and wires every pair of them
  into each other's tables;
- `Swarm::update`, which steps every agent once per frame;
- the host's `KeyboardState`;
- the grid of entities that `Scene::add_entities` spawns.

Modules, one file each:

- `Options`: an `Option` datatype.
- `Geometry`: vectors, transforms and the perception-radius test.
- `Entities`: `Entity` as a value.
- `Messages`: `Message`, `Payload` and mailbox handles.
- `Agents`: the agent class, its id counter and the gossip protocol.
- `Swarms`: the swarm class, its construction and its update.
- `Keys`: the keyboard state class.
- `Scenes`: the scene's `add_entities`.

How the model represents the system:

- **Vectors.** glam's `f32` vectors are exact reals.
- **Perception radius.** `distance < 10` is stated as squared distance `< 100`.
- **Mailboxes.** A mailbox handle (`Sender<Message>`) is identified by the id of
  the agent that owns the receiving end.
- **Sends.** Sending on a channel is modelled as returning the sends, in order,
  as an outbox of envelopes. Each envelope holds the table id it was sent to,
  the handle used and the message.
- **Iteration order.** A `HashMap` iterates in an unspecified order, so the
  model picks an arbitrary remaining key at each step. Its contracts state the
  recipients as a set and rule out duplicates.
- **Id counter.** The process-wide `static mut ID` counter is an `IdCounter`
  object passed to every agent construction.
- **Steering.** The floating-point forces of `Agent::update` are a `Steering`
  function parameter that yields the new, clamped velocity. The model keeps the
  rest of the update: the position moves by that velocity and the acceleration
  is reset.

Three behaviours of the gossip protocol, as the code has them:

- `on_received` drops an `UPDATE` only when `from` is the agent's own id; the
  `received_list` plays no part in that test (src/swarm/agent.rs:128).
- A relaying agent appends only its `send_list` to `received_list`, not its own
  id (src/swarm/agent.rs:149).
- The heartbeat `send_update_message` is radius-gated exactly like a relay: a
  table entry out of range gets no heartbeat (src/swarm/agent.rs:95-98).

The files come from different revisions, and each is modelled as written:

- `message.rs` declares only `UPDATE`, but `agent.rs` also matches a
  `TASK { target }` message. Both variants are modelled.
- `Swarm::new` passes an `f32` to `Agent::new`, which takes a position vector.
  The model places every new agent at the origin.
- `add_entities` calls `Entity::new` with a third, mesh-type argument that
  `entity.rs` does not take. The two-argument constructor is modelled.
- `Transform::get_pos` is not in this revision of `transform.rs`, so it is modelled
  as reading the transform's position.
- `RenderType` is not defined in the modelled files. It is modelled as
  `Static | Dynamic`.

## Model

| member | source | states |
|---|---|---|
| Geometry.WithPos | src/transform.rs:49-55 | the transform sits at the given position with unit scale and the default rotation |
| Geometry.UpdatePos | src/transform.rs:45-47 | the position moves by the given difference; scale and rotation are kept |
| Entities.New | src/entity.rs:11-16 | `is_static()` returns the flag passed in; `get_transform()` is positioned at `pos` with unit scale and default rotation |
| Agents.FromAgent | src/swarm/message.rs:24-30 | the payload copies the agent's id, position and velocity; it only reads the agent |
| Agents.IdCounter.constructor | src/swarm/agent.rs:15 | the id counter starts at 1 |
| Agents.Agent.constructor | src/swarm/agent.rs:43-59 | the agent takes the counter's current value as its id and the counter is incremented, so successive agents get strictly increasing, distinct ids; the agent starts at `pos`, with zero velocity and acceleration, no target, `Dynamic`, and an empty table |
| Agents.Agent.UpdateTable | src/swarm/agent.rs:61-71 | exactly the entry keyed by the peer's id is inserted or overwritten, with the peer's mailbox, position and velocity; the key set gains that id and every other entry is unchanged |
| Agents.Agent.Update | src/swarm/agent.rs:73-86 | the velocity becomes the steering result, the position moves by it, the acceleration is reset to zero; target, table, scale and rotation are unchanged |
| Agents.RefreshKeepsKeys | src/swarm/agent.rs:130-135 | applying a payload never adds or removes a table entry and never changes a peer's mailbox |
| Agents.RefreshAt | src/swarm/agent.rs:130-135 | after applying a payload, a known peer holds the position and velocity of its last observation in the payload, or its old entry when the payload does not mention it; unknown ids are ignored |
| Agents.Agent.Fanout | src/swarm/agent.rs:139-160 | the recipients are exactly the table ids not in the incoming list whose cached position is in range, each sent once; every message is the same `UPDATE` from this agent, carrying incoming list ++ recipients and the given payload, through the recipient's own table mailbox; every recipient is in the list it receives; a duplicate-free incoming list stays duplicate-free |
| Agents.Agent.SendUpdateMessage | src/swarm/agent.rs:88-116 | the agent is unchanged; the list is seeded with the agent's id, so the agent is never a recipient and the panic cannot fire; each message carries `[id]` ++ recipients, a one-element payload with the agent's own observation, and a duplicate-free list |
| Agents.Agent.OnReceived | src/swarm/agent.rs:118-164 | a `TASK` sets the target and sends nothing; an `UPDATE` from the agent itself changes nothing and sends nothing; any other `UPDATE` refreshes the table from the payload with the same key set, keeps the target, and relays with the payload extended by exactly the agent's own observation, under the recipient rule of `Fanout` |
| Swarms.WirePair | src/swarm.rs:30-37 | the existing agent records the newcomer and the newcomer records the existing agent, each at the origin, at rest and with its own mailbox |
| Swarms.WireNewcomer | src/swarm.rs:29-38 | after the `for` loop, every agent built so far has recorded exactly the agents built so far plus the newcomer, minus itself; the newcomer has recorded exactly the agents built so far |
| Swarms.AddNewcomer | src/swarm.rs:22-39 | one round of the `while` loop pushes exactly one fresh agent, with the next id, and keeps the wiring invariant |
| Swarms.Build | src/swarm.rs:19-40 | the `while` loop terminates with exactly `size` fresh, distinct agents with consecutive ids, each wired with all the others |
| Swarms.WiredFacts | src/swarm.rs:29-39 | under the wiring invariant, no agent records itself, every table has `size - 1` entries, wiring is symmetric (j in i's table iff i != j, iff i in j's table), and the entry for j holds j's own mailbox, position and velocity |
| Swarms.Swarm.constructor | src/swarm.rs:18-42 | `Swarm::new(size)` holds `size` fresh agents with consecutive ids from the counter, at the origin and at rest, each with its own mailbox; every table holds exactly the other agents, `size - 1` entries, no self entry, with each peer's mailbox, position and velocity |
| Swarms.Swarm.Update | src/swarm.rs:67-72 | every agent takes exactly one update step; the agent list and every agent's scale, rotation and render type are unchanged |
| Keys.KeyboardState.constructor | src/key.rs:11-15 | every key starts released |
| Keys.KeyboardState.IsPressed | src/key.rs:18-23 | an absent key is not pressed; under the invariant that only pressed keys are stored, a key is pressed iff it is stored |
| Keys.KeyboardState.ProcessEvent | src/key.rs:30-39 | a press stores the key as pressed and a release removes it; afterwards the key is pressed iff the event was a press; other keys keep their entries; the only-pressed-stored invariant is kept; pressing a pressed key or releasing a released one changes nothing |
| Scenes.Half | src/scene.rs:57 | `count / 2` on `i32` truncates toward zero |
| Scenes.CubeSize | src/scene.rs:57-59 | with `m = count / 2`, the loops visit `(2m)^3` points when `m > 0` and none otherwise |
| Scenes.CubeMembers | src/scene.rs:57-59 | the loops visit exactly the points with every coordinate in `-m .. m - 1` |
| Scenes.BlockIncreasing | src/scene.rs:57-59 | the loops visit the points in strictly increasing lexicographic `(i, j, k)` order |
| Scenes.SpawnedGrid | src/scene.rs:56-66 | the spawned entities are `(2m)^3` or none, each carries `is_static` and sits at five times its grid point, and no two share a position |
| Scenes.Scene.AddEntities | src/scene.rs:55-70 | the entity list becomes the old list followed by one entity per grid point in loop order; no other scene field changes |
| Scenes.Scene.AddPlane | src/scene.rs:58-68 | the middle loop appends the entities of plane `i`, row by row |
| Scenes.Scene.AddRow | src/scene.rs:59-67 | the innermost loop appends one entity at `(i*5, j*5, k*5)` for each `k`, in order |

## Left out

- Agents.Agent.constructor: the counter is unbounded, so wrap-around of the `u32` counter after 2^32 - 1 agents is not modelled.
- Agents.Agent.Update: the alignment, cohesion, separation and goal forces, the `clamp_length_max` to `MAX_SPEED` and all `f32` arithmetic are a `Steering` parameter, because they are floating-point computations (src/swarm/agent.rs:74-81,166-274).
- Agents.Agent.UpdateTable: requires the peer to be another agent. Given the agent's own wrapper, the source would lock a mutex the caller already holds (src/swarm/agent.rs:62), which deadlocks or panics; that behaviour is not modelled. `Swarm::new` never makes such a call (src/swarm.rs:29-38).
- Scenes.Scene.AddRow: `i * 5` is computed on unbounded integers, so `i32` overflow is not modelled. Overflow needs `|count / 2| > 429496729`, far beyond any grid that fits in memory. The rounding of `as f32` is not modelled either: positions are exact.
- Geometry: `f32` rounding of positions and velocities is not modelled; vectors are exact reals.
- `Swarm::start`: the threads, channels, mutex locking and the two-second heartbeat sleep are left out because their point is concurrency. Sends are returned as outboxes instead, and the `rx` half of `AgentWrapper` is not modelled.
- `println!` diagnostics in `on_received` are left out because they are output only.
- `Swarm::draw`, the `Drawable` implementation of `Agent`, the renderer, meshes, shaders, the camera, the window and event loop, and `Scene::new`, `draw` and `update` are left out because they are GL and windowing glue. The `Scene` fields other than `entity_list` are carried untouched.
- The `MeshType` argument of `Entity::new` in `add_entities` is left out because the entity constructor modelled takes none.
- `Clone` on `Message` and `Payload` is not modelled as an operation: both are Dafny datatypes, so a clone is the same value.
