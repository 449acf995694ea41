# A verified model of the game's simulation core

This project models the deterministic core of a small client–server
multiplayer game in Dafny and proves properties of that model. The parts it
covers are:

- **Collision kernel and rigid bodies.** Sphere–sphere, sphere–box and axis-aligned box–box tests. A dispatcher that flips the normal for box–sphere. The deepest-contact search across two bodies' shape lists. Force and impulse accumulation. Trapezoidal integration. Re-syncing shape centres to the body.
- **Actors and the world store.** A key-to-actor map with a `new_actor_key` counter. Automatic and explicit adds, remove, and a checked get. Per-actor gravity and damping. The ten-substep world update: pair detection in map order, resolution, terrain, integration.
- **Game state and events.** Player-to-actor bindings and their throwing lookups. Join, Leave and Input events. `ApplyInput`, with its pitch clamp and jump gate. The `Lerp` between two snapshots. Fixed-capacity (8192-byte) snapshot framing. The seven-actor starting scene.
- **Server and client bookkeeping.** The server's lateness windows on `uint32_t` ticks: replay, broadcast and pruning. The client's snapshot shifting, one-tick prediction, interpolation alpha and round-trip tick bias.
- **Utilities.** The chat log: bounded, merging consecutive messages from the same sender. Greedy word wrap. The JSON scene loader. The player-name table with `snprintf` truncation. The NUL-terminated text packet and the message-type constants.

Work over floats is modelled over `real`. `sqrt`, `sin`, `cos` and the 2-D
normalisation are fields of a `Maths` value, which every caller passes along.
Lemmas that need a fact about them take it as a precondition, for example
`sqrt(0) = 0` or "sqrt of a positive is positive". The following are also
function parameters:

- the cereal encoders and decoders;
- the collision solver `SolveCollision`;
- the heightmap's terrain solver;
- `GameBase::ApplyEvents`;
- the text-width measure.

ENet sends become packets that the server and client methods return. A C++
`throw` becomes an `Err` result. State assigned before the throw keeps its new
value, as it does in the code.

In these places the code behaves differently from what the game's design
describes, and the model does what the code does:

- `WorldData::AddActor(key, data)` sets the counter to `key + 1` even when that lowers it. Automatic keys can therefore be reused after an explicit add, or after loading a scene.
- A Leave event removes the player's actor but keeps the player's binding.
- `Lerp` takes every actor it does not move from its second state. It reads its "except" argument as a single actor key, through a pointer cast of what callers pass as a set.
- An Input event from an id that never joined binds that id to actor 0, through `players[id]`. It does not leave the state unchanged (Findings, row 1).
- In box–box collision, a tie between axis overlaps picks the later axis (y over x, z over both).
- Normalising a zero vector returns it unchanged.
- Deserialized bodies keep the shape centres given in the JSON. They are not re-synced to the body position.
- The order of events within one tick is decided by `GameBase`. That file is not part of this model.

## Model

| member | source | states |
|---|---|---|
| RayMath.Clamp | src/Game.hpp:158 | the result lies in [lo, hi] when lo <= hi; a value already inside is returned unchanged |
| RayMath.NormalizeNeg | src/Physics.cpp:3-13 | negating a vector keeps its length, and normalising commutes with negation |
| RayMath.Lerp3Ends | src/Game.cpp:62-66 | linear interpolation at amount 0 is the first vector and at amount 1 the second |
| Physics.BoxCorners | src/Physics.hpp:31-36 | Min = center - half_extents and Max = center + half_extents bracket the centre on every axis, and Max - Min is twice the half extents |
| Physics.Shape.WithCenter | src/Physics.hpp:112-117 | moving a shape puts its centre at the given point and keeps its radius or half extents |
| Physics.FlipInvolutive | src/Physics.hpp:66-74 | Flip keeps the penetration and reverses the normal, flipping twice is the identity, and the default result (penetration -1) is no contact and is fixed by Flip |
| Physics.SphereSphereContact | src/Physics.cpp:3-13 | two spheres touch exactly when their centres are closer than the radius sum; the normal is the normalised centre difference; swapping the spheres gives the flipped result |
| Physics.ClosestPointInside | src/Physics.cpp:15-30 | the per-axis clamp of the sphere centre lies in the box |
| Physics.ClosestPointOfInside | src/Physics.cpp:15-30 | a point already in the box is its own closest point |
| Physics.SphereCentreInBox | src/Physics.cpp:15-30 | a sphere whose centre is inside the box penetrates by its full radius, with a zero normal |
| Physics.ZeroOffsetFullDepth | src/Physics.cpp:15-30 | whenever the centre coincides with its closest point, the contact has depth = radius and a zero normal |
| Physics.CollideBoxBox | src/Physics.cpp:32-55 | a contact exactly when all three axis overlaps are positive, otherwise the default result; the penetration is the least overlap; the normal is a unit axis on the last axis of least overlap, +1 iff the first box's far face is further out |
| Physics.BoxBoxSwap | src/Physics.cpp:32-55 | swapping two boxes keeps the penetration and, when their far faces differ on every axis, negates the normal |
| Physics.CollideSwap | src/Physics.hpp:80-99 | swapping two shapes keeps the penetration for every pair of kinds and negates the normal (for two boxes, when their far faces differ on every axis); box–sphere is sphere–box flipped |
| Physics.UpdateShapePositions | src/Physics.hpp:112-117 | afterwards every shape's centre is the body position, the number of shapes and each shape's geometry are kept, and nothing else of the body changes |
| Physics.ApplyForceEffect | src/Physics.hpp:119-121 | the acceleration grows by force * inverse_mass and nothing else changes, so a body with inverse mass 0 is unaffected |
| Physics.ApplyImpulse | src/Physics.hpp:123-128 | the velocity grows by impulse * inverse_mass; a mostly-upward impulse sets on_ground, any other leaves it; on_ground is never cleared; nothing else changes |
| Physics.Update | src/Physics.hpp:130-137 | the body after one step is the trapezoidal integration with acceleration cleared and the shapes re-synced |
| Physics.IntegratedMotion | src/Physics.hpp:130-137 | v' = v + a dt and p' = p + v dt + a dt²/2, a body at rest with no acceleration stays put, and the shapes sit on the new position |
| Physics.CollideWith | src/Physics.hpp:139-153 | the nested loop over both shape lists returns exactly the deepest-contact specification |
| Physics.DeepestInRow | src/Physics.hpp:144-150 | one inner loop leaves the running maximum equal to the scan over all pairs so far |
| Physics.ScanFindsFirstDeepest | src/Physics.hpp:140-152 | the running-maximum scan yields the default result when nothing penetrates, and otherwise the first result of greatest penetration |
| Physics.DeepestContactSpec | src/Physics.hpp:139-153 | with no positive pair the result is the default; otherwise it is the collision of a pair of greatest penetration, and no earlier pair in loop order is as deep |
| Actors.NewActor | src/Actor.hpp:16-22 | a new actor holds the body unchanged, with yaw and pitch 0 |
| Actors.Right | src/Actor.hpp:43-45 | the right vector is horizontal |
| Actors.DrivenAcceleration | src/Actor.hpp:24-28 | for a dynamic body the acceleration gains (0, -gravity, 0) whatever the mass, plus damping -2 * inverse_mass * velocity, and nothing else changes |
| Actors.StaticNotDriven | src/Actor.hpp:25 | a body with inverse mass 0 receives neither gravity nor damping |
| Actors.Update | src/Actor.hpp:24-32 | after the update the acceleration is zero, the shapes sit on the body, the velocity has taken the driven acceleration, and the actor's other fields are unchanged |
| Worlds.World.AddActorAt | src/World.hpp:43-46 | the key is added without overwriting an actor already there; other entries are kept; the counter becomes key + 1 |
| Worlds.World.AddActor | src/World.hpp:37-41 | the actor goes under the old counter, which is returned and then moves up by one; on a world whose keys are below the counter it is stored as given |
| Worlds.World.RemoveActor | src/World.hpp:48 | only that key is erased (nothing if absent) and the counter stays |
| Worlds.World.GetActor | src/World.hpp:50-58 | succeeds exactly when the key exists, with the stored actor; fails with "Actor doesn't exist" otherwise |
| Worlds.AutoKeysNeverReused | src/World.hpp:37-48 | with automatic adds and removes only, every key stays below the counter, the counter never drops, and the keys handed out strictly increase, so none is reused |
| Worlds.AutoKeyIsFree | src/World.hpp:37-46 | while every key is below the counter, an automatic add lands on a free key and stores the actor |
| Worlds.ExplicitAddCanLowerCounter | src/World.hpp:43-46 | an explicit add under a low key lowers the counter onto a key in use |
| Worlds.SortedKeys | src/World.cpp:17-22 | the map's iteration order: strictly increasing, holding exactly the map's keys |
| WorldUpdate.ContactTest | src/World.cpp:26-27 | a pair is recorded exactly when the deepest contact of the two bodies has positive penetration |
| WorldUpdate.DetectMember | src/World.cpp:17-33 | a pair is detected exactly when both keys are in the map, the first is smaller, and the bodies touch |
| WorldUpdate.DetectFindsTouchingPairs | src/World.cpp:15-33 | the detected pairs are exactly the touching unordered pairs, each once with the smaller key first, in increasing loop order |
| WorldUpdate.DetectRow | src/World.cpp:19-31 | the inner loop records the touching pairs of one actor with every later key |
| WorldUpdate.DetectOver | src/World.cpp:17-33 | the outer loop records the pairs of every row in key order |
| WorldUpdate.DetectPairs | src/World.cpp:15-33 | the detection pass yields the detection specification over the map's keys |
| WorldUpdate.ResolveOne | src/World.cpp:35-37 | resolving one pair keeps the set of keys |
| WorldUpdate.ResolveAll | src/World.cpp:35-37 | resolving all pairs keeps the set of keys |
| WorldUpdate.ResolveTouchesOnlyPairs | src/World.cpp:35-37 | an actor named in no pair is unchanged, and every actor keeps everything except its body |
| WorldUpdate.ResolvePairs | src/World.cpp:35-37 | the loop over recorded pairs equals resolving them in order, each with a freshly computed contact |
| WorldUpdate.Grounded | src/World.cpp:39-41 | the terrain pass keeps the set of keys |
| WorldUpdate.SolveTerrain | src/World.cpp:39-41 | the loop gives every actor's body to the terrain solver once |
| WorldUpdate.GroundEach | src/World.cpp:39-41 | after the keys visited, exactly those actors have had their bodies solved against the terrain |
| WorldUpdate.SteppedAll | src/World.cpp:43-45 | the integration pass keeps the set of keys |
| WorldUpdate.StepActors | src/World.cpp:43-45 | the loop updates every actor exactly once |
| WorldUpdate.StepEach | src/World.cpp:43-45 | after the keys visited, exactly those actors are stepped and the rest are unchanged |
| WorldUpdate.Substep | src/World.cpp:14-46 | a substep keeps the set of keys |
| WorldUpdate.Simulated | src/World.cpp:14-46 | any number of substeps keeps the counter and the set of keys |
| WorldUpdate.SubstepSettles | src/World.cpp:14-46 | after a substep every actor's acceleration is zero and its shapes sit on its body |
| WorldUpdate.Update | src/World.cpp:10-46 | ten substeps of dt/10; the counter and keys are unchanged, and every actor ends with zero acceleration and synced shapes |
| WorldUpdate.Substeps | src/World.cpp:14-46 | the substep loop equals the substep specification iterated n times |
| WorldUpdate.RunSubstep | src/World.cpp:15-45 | detection, resolution, terrain and integration in that order equal one substep of the specification |
| Games.PlayerInput.UpDown | src/Game.hpp:58 | the vertical axis is -1, 0 or 1; it is 0 exactly when up equals down and 1 exactly when only up is held |
| Games.IsEmptyIff | src/Game.hpp:52-62 | an input is empty exactly when both mouse deltas are 0 and each pair of opposite keys is equal |
| Games.Cleared | src/Game.hpp:86-91 | clearing resets all four UI pressed flags and leaves the player input as it was |
| Games.Divided | src/Game.hpp:108-111 | dividing scales only the mouse deltas; the UI input and every other player field are kept |
| Games.GameState.GetPlayer | src/Game.hpp:131-134 | succeeds exactly for a bound id, with its binding; fails with "Player doesn't exist" otherwise |
| Games.GameState.GetActor | src/Game.hpp:136-138 | succeeds exactly when the id is bound and its actor exists; otherwise fails with the player or the actor error, in that order |
| Games.SteerEffects | src/Game.hpp:149-164 | movement changes the horizontal velocity only; a jump happens exactly when on the ground with up held, setting the jump speed and leaving the ground; yaw gains the mouse x delta; pitch is clamped to ±0.45π; nothing else changes |
| Games.InputApplied | src/Game.hpp:149-164 | applying an input fails exactly when the player's actor cannot be found, with that error; otherwise only that actor is steered |
| Games.ApplyInput | src/Game.hpp:149-164 | the method computes the input specification |
| Games.Joined | src/Game.cpp:5-21 | a join adds one actor under the old counter and binds the id to it, overwriting an earlier binding; the old actor stays |
| Games.InitNewPlayer | src/Game.cpp:5-21 | the state becomes the join specification and the player's name is "player_" plus the number of players, truncated |
| Games.Left | src/Game.cpp:29-31 | a leave removes the bound actor and keeps the binding; for an id never bound it fails with "map::at" |
| Games.InputAsWritten | src/Game.cpp:33-40 | an input from an unbound id creates a binding to actor 0 |
| Games.InputForPlayer | src/Game.cpp:33-40 | an input leaves the bindings unchanged |
| Games.InputOnlyMovesOwnActor | src/Game.cpp:33-40 | an input keeps the bindings, the counter and the keys, changes no actor but the sender's own, and changes nothing when that actor is missing |
| Games.UnboundInputSteersActorZero | src/Game.cpp:36 | on the starting floor, an input from an id that never joined binds the id to actor 0 and turns the floor, where the corrected rule changes nothing |
| Games.ApplyEventAsWritten | src/Game.cpp:23-45 | Join, Leave and Input are dispatched as the code does, an input first binding an unknown id to actor 0; a join names the player "player_" and the number of players before it, cut to the name length, and no other event touches the name table |
| Games.ApplyEvent | src/Game.cpp:23-45 | the same dispatch and the same join naming, with inputs from unbound ids ignored |
| Games.InputAfterLeaveIsIgnored | src/Game.cpp:29-40 | after a player leaves, its later inputs change nothing |
| Games.LerpAlpha | src/Game.cpp:52 | alpha is clamped into [0, 1], and a value already inside is kept |
| Games.Lerped | src/Game.cpp:51-72 | the result has the second state's players, counter and keys |
| Games.LerpSpec | src/Game.cpp:51-72 | an actor in both states and not excepted moves to p1 + α(p2 - p1) with synced shapes and is otherwise the second state's; it reaches p2 at α >= 1 and p1 at α <= 0; every other actor is the second state's |
| Games.Lerp | src/Game.cpp:51-72 | the copy-and-loop method computes the interpolation specification |
| Games.LerpEach | src/Game.cpp:57-70 | after the keys visited, exactly those actors have been interpolated |
| Games.Serialize | src/Game.cpp:73-92 | succeeds exactly when the encoding's 32-bit length fits in 8192 bytes; the size is that length and the payload is the encoding; fails with the overflow message otherwise |
| Games.SnapshotRoundTrip | src/Game.cpp:73-103 | a state whose encoding fits survives serialising, re-tagging with any tick, and deserialising |
| Games.SceneStart | src/Game.cpp:106-141 | the floor, the platform and the cube go under the next three keys, the cube then getting its model |
| Games.InitGame | src/Game.cpp:105-153 | seven actors are added under the next seven keys and the players are untouched; on a world whose keys are below its counter the new actors are exactly the scene |
| Games.AddBalls | src/Game.cpp:143-152 | the loop adds the four balls under consecutive keys |
| Games.SceneKeys | src/Game.cpp:105-153 | the scene holds the old actors and the next n keys, each with its scene actor |
| Games.FreshScene | src/Game.cpp:105-153 | on a fresh world the keys are 0..6, actor 0 is the static floor box and actor 2 has the exclamation-cube model |
| Games.UpdateGameLogic | src/Game.hpp:192-194 | the world takes ten physics substeps; the players, counter and keys are unchanged |
| GameBase.AddEvent | src/GameServer.hpp:56-60 | the event is appended to its tick's bucket and every other bucket is kept |
| GameBase.DropEventHistory | src/GameServer.hpp:46 | exactly the buckets at or above the threshold remain, unchanged |
| GameBase.DropIdempotent | src/GameClient.hpp:200 | after pruning nothing lies below the threshold, and pruning again at or below it changes nothing |
| Metadata.SerializeNames | src/GameMetadata.hpp:50-69 | succeeds exactly when the encoding fits in the buffer; the size is its length and the payload is the encoding; fails with the overflow message otherwise |
| Metadata.NamesRoundTrip | src/GameMetadata.hpp:50-83 | a name table whose encoding fits survives serialising and deserialising |
| Metadata.GameMetadata.constructor | src/GameMetadata.hpp:35 | a new table is empty |
| Metadata.GameMetadata.GetPlayerName | src/GameMetadata.hpp:42-44 | a known id gives its name; an unknown id gets an empty entry and "" |
| Metadata.GameMetadata.SetPlayerName | src/GameMetadata.hpp:46-48 | only that id's entry is set, to the name cut to max_player_name_len - 1 characters |
| Metadata.GameMetadata.Serialize | src/GameMetadata.hpp:50-69 | the method computes the framing specification of the name table |
| Metadata.GameMetadata.Deserialize | src/GameMetadata.hpp:71-78 | the table becomes the decoding of the frame's payload |
| Chats.Merged | src/Chat.hpp:30-43 | the merged text is a prefix of last + "\n" + new, shorter than max_string_len and equal to all of it when that fits; the name is kept |
| Chats.AddMessageEffect | src/Chat.hpp:26-52 | a message from the last sender merges into the last message and the count is unchanged; any other is appended and the oldest are evicted from the front down to ten |
| Chats.AddMessageBounded | src/Chat.hpp:49-51 | the log never holds more than ten messages |
| Chats.AddMessageKeepsSendersDistinct | src/Chat.hpp:26-52 | no two adjacent messages have the same sender, before and after |
| Chats.Chat.constructor | src/Chat.hpp:24 | a new chat is empty |
| Chats.Chat.AddMessage | src/Chat.hpp:26-52 | the method computes the chat specification |
| Server.WindowNoUnderflow | src/GameServer.hpp:31-36 | on a broadcast tick the four window bounds are tick-63, tick-60, tick-33 and tick-30 without wrap-around, in increasing order |
| Server.FirstWindowStartsAtZero | src/GameServer.hpp:31-36 | no tick below max_lateness broadcasts, and the first broadcast's late window starts at 0 |
| Server.WindowsContiguous | src/GameServer.hpp:31-38 | the next broadcast is one tick period later, none falls between, and its late window starts where the previous one ended |
| Server.PruneBelowLaterWindows | src/GameServer.hpp:38-46 | the pruning threshold never exceeds the start of a later replay window |
| Server.GameServer.constructor | src/GameServer.hpp:17-26 | the late state holds the scene; tick, log, name table and chat are empty |
| Server.GameServer.Update | src/GameServer.hpp:28-54 | on a broadcast tick the late state advances over its window, the broadcast state over the next, the snapshot is tagged with the current tick and history is pruned; otherwise the states and log stay; the tick wraps up by one; the packets sent are exactly the tagged state snapshot on a broadcast tick followed by the serialized names and the tick on a metadata tick; a failed names serialization returns its error with the tick unchanged, and if neither serialization fails the update succeeds |
| Server.GameServer.AddAndSyncChatMessage | src/GameServer.hpp:121-130 | name and text are truncated, the message joins the chat and is broadcast |
| Server.GameServer.OnConnect | src/GameServer.hpp:56-64 | a join is logged at the server tick; exactly the tick, the player id and the server's "Player joined" line are sent, and that line is added to the chat under the server's name; the names stay |
| Server.GameServer.OnDisconnect | src/GameServer.hpp:66-72 | a leave is logged at the server tick; the leaving name is looked up, creating an empty entry if absent, and "<name> left" is added to the chat under the server's name and sent |
| Server.GameServer.OnReceive | src/GameServer.hpp:74-113 | an input is logged at the client's tick and sends nothing; a chat line is added to the chat and sent under the sender's stored name (an empty one, created, for an unknown id); a name change sets the truncated name and sends the serialised names, or fails with the overflow; nothing else changes the log, the states, the names or the chat |
| Client.TickWithPing | src/GameClient.hpp:27-31 | the tick is biased by 60 ticks per whole 2000 ms of round trip, in 32-bit arithmetic; under 2000 ms nothing is added |
| Client.PingBiasSteps | src/GameClient.hpp:27-31 | a round trip between 2000k and 2000(k+1) ms adds exactly 60k ticks |
| Client.Alpha | src/GameClient.hpp:133 | alpha is non-negative, reaches 1 once the ticks since the last snapshot reach the span, needs no clamp below that, and a zero span gives what the clamp makes of infinity or NaN |
| Client.InterpolationReachesLast | src/GameClient.hpp:133-136 | once the span has passed, interpolated actors stand at the last snapshot; just after one arrives they stand at the one before |
| Client.EarlySnapshotDropsAll | src/GameClient.hpp:200 | a snapshot tick below max_lateness wraps the prune threshold and drops the whole history |
| Client.LateSnapshotDropsBelow | src/GameClient.hpp:200 | from max_lateness on, exactly the buckets at or above snapshot tick - 63 survive |
| Client.GameClient.constructor | src/GameClient.hpp:49-52 | both working states hold the scene; the snapshots are empty and every counter is 0 |
| Client.GameClient.ToggleChat | src/GameClient.hpp:88-96 | the chat flag flips and nothing else changes |
| Client.GameClient.Update | src/GameClient.hpp:98-142 | a non-empty input is logged at the tick only while the chat is closed; the own state advances one tick; the others are interpolated; both counters move up by one |
| Client.GameClient.RecordInput | src/GameClient.hpp:120-130 | a non-empty input is logged at the current tick unless the chat is open |
| Client.GameClient.Advance | src/GameClient.hpp:132-139 | the own state is replayed over [tick, tick+1), the others are interpolated, and both counters wrap up by one |
| Client.GameClient.OnReceive | src/GameClient.hpp:180-227 | a tick message sets the biased tick; an id message sets the id; a snapshot shifts last into prev, re-predicts the own state up to tick - 1, prunes history and becomes last; a chat line joins the chat; metadata replaces the names |
| TextHelper.TryAddWord | src/TextHelper.hpp:12-39 | the lines and the line being filled become exactly `AddWord` of them; an empty word changes nothing; the word is never split, and the words in the lines grow by exactly it |
| TextHelper.AddWord | src/TextHelper.hpp:20-38 | an empty word changes nothing; a word leaves the line non-empty; only the old, non-empty line is ever emitted; a line holding a space keeps fitting `maxWidth` |
| TextHelper.AddWordKeeps | src/TextHelper.hpp:29-31 | offering a word keeps the lines fitting, never removes a line and adds no empty one |
| TextHelper.EmitLine | src/TextHelper.hpp:30 | emitting a line keeps the lines fitting exactly when it fits, and adds an empty line only if it is empty |
| TextHelper.AllFitMeans | src/TextHelper.hpp:26-35 | the lines fit exactly when each line holding a space is no wider than `maxWidth` |
| TextHelper.EndsBlankMeans | src/TextHelper.hpp:62-65 | a text ends blank exactly when some newline in it is followed by spaces and tabs alone |
| TextHelper.Finish | src/TextHelper.hpp:71-74 | the last word is offered and the line emitted unless empty: the result is `Finished` of the state |
| TextHelper.WrapText | src/TextHelper.hpp:41-76 | the words of the lines are the text's words in order; no line holds a newline or tab; every line of more than one word is no wider than `maxWidth`; there are at least as many lines as newlines and no more empty lines than newlines, so a text without newlines yields no empty line; the last line is empty only if the text ends in a newline followed by blanks alone; and the lines are exactly `Finished` applied to `FedAll` over the whole C string |
| TextHelper.Feed | src/TextHelper.hpp:53-69 | the new lines, line and word are exactly `Fed` of the old: a word character extends the word, a separator offers it (`AddWord`), and a newline then emits the line, even empty, and clears it; the emitted and pending words move as one step of the word scan |
| TextHelper.ScanText | src/TextHelper.hpp:51-69 | the loop stops at the terminator in exactly the state `FedAll` gives for the whole C string, and with `Progress` over the whole C string: the words emitted and pending are its word scan, every line is one line and fits, there is a line per newline and no more empty lines than newlines, and an empty last line with nothing pending follows a newline and blanks |
| TextHelper.AddWordScans | src/TextHelper.hpp:20-38 | offering a word adds exactly it to the words held, keeps every line one line and emits no empty line |
| TextHelper.FedScans | src/TextHelper.hpp:56-66 | one character of the loop moves the emitted and pending words exactly as one step of the word scan, and keeps lines single |
| TextHelper.FedKeeps | src/TextHelper.hpp:56-66 | one character keeps the lines fitting; a newline adds at least one line and at most one empty line, other characters neither; a word character leaves a word pending; only a newline empties the line |
| TextHelper.StepProgress | src/TextHelper.hpp:53-69 | each character read keeps the loop's `Progress` |
| TextHelper.FedAllProgress | src/TextHelper.hpp:51-69 | the loop state after any prefix of the text, folded character by character, keeps `Progress` |
| TextHelper.FinishedWords | src/TextHelper.hpp:71-76 | after the whole text, the returned lines hold exactly the text's words, in order, as single lines, with no empty line for a text without newlines |
| TextHelper.FinishedFits | src/TextHelper.hpp:71-76 | after the whole text, the returned lines fit, number at least the newlines, hold no more empty lines than newlines, and end in an empty line only after a newline and blanks |
| TextHelper.NewlineThenBlank | src/TextHelper.hpp:62-74 | the loop steps for a newline and a space, then the end, give one empty line: an empty last line need not follow a final newline |
| TextHelper.FittingWordsShareLine | src/TextHelper.hpp:22-35 | words whose joined line fits share one line: "a b" wraps to the single line "a b" whenever that line is within `maxWidth` |
| TextHelper.WordsJoin | src/TextHelper.hpp:22-36 | joining a word to a line with a space adds exactly that word to the line's words |
| Shared.Offset | src/shared.hpp:8-14 | each message kind has an offset at most 6 above MSG_USER_BASE |
| Shared.KindOf | src/shared.hpp:8-14 | a type number names a message kind exactly when it lies in MSG_USER_BASE..MSG_USER_BASE+6 |
| Shared.MessageTypesDistinct | src/shared.hpp:8-14 | the seven message types are distinct and decode back to their kind |
| Shared.Packed | src/shared.hpp:23-28 | the packet text has max_string_len characters and ends with NUL |
| Shared.PackedText | src/shared.hpp:23-28 | the packet holds the source string cut to max_string_len - 1 characters, the whole string when it fits, and zeros after it |
| Shared.TextPacket.constructor | src/shared.hpp:25-28 | the copy loop fills the array with the packed text |
| CStrings.Truncated | src/GameServer.hpp:123-124 | snprintf keeps the first size - 1 characters, or all of a shorter string |
| CStrings.CString | src/TextHelper.hpp:53 | the C string is the longest NUL-free prefix of the buffer |
| CStrings.CStringAt | src/TextHelper.hpp:53 | the read loop continues at i exactly when the buffer holds a non-NUL character there |
| CStrings.CStringOf | src/shared.hpp:26-27 | a buffer with its first NUL at n holds the C string of its first n characters |
| CStrings.Decimal | src/Game.cpp:18 | the decimal form of a number is non-empty and NUL-free |
| Framing.Pack | src/Game.cpp:73-92 | packing succeeds exactly when the 32-bit length fits the 8192-byte buffer; the buffer holds the encoding and zeros after it |
| Framing.Payload | src/Game.cpp:94-103 | the payload is the first size bytes of the buffer |
| Framing.PackPayload | src/Game.cpp:73-103 | an encoding that fits is read back exactly, whatever tick the frame is tagged with |
| Wrappers.AddU32 | src/GameServer.hpp:53 | uint32_t addition equals the plain sum when that fits, and the sum less 2^32 when it overflows once |
| Wrappers.SubU32 | src/GameServer.hpp:32-36 | uint32_t subtraction is the plain difference when no underflow happens, and wraps by 2^32 otherwise |
| Deserialization.Member | src/Deserialization.hpp:16-17 | a member lookup succeeds exactly when the object has that key |
| Deserialization.AsU16 | src/Deserialization.hpp:67 | a number (or boolean) is read, any other value fails; the result fits 16 bits and is the integer value modulo 2^16: an in-range integer as is, an in-range real with its fraction dropped |
| Deserialization.AsReal | src/Deserialization.hpp:11 | exactly a number or a boolean is read as a real; integers and reals keep their value |
| Deserialization.TowardZero | src/Deserialization.hpp:67 | a cast drops the fraction toward zero: the result is within one of the value, on the side of zero |
| Deserialization.AsInteger | src/Deserialization.hpp:67 | exactly a number or a boolean is read as an integer |
| Deserialization.AsKey | src/Deserialization.hpp:77 | a key is read exactly when the value is a number or boolean whose integer value is not negative, and it is that value; a non-negative real loses its fraction |
| Deserialization.DeserializeVector3 | src/Deserialization.hpp:7-12 | anything but a three-element array fails; a success reads its three numbers |
| Deserialization.DeserializeSphere | src/Deserialization.hpp:14-19 | a sphere is built only from a "center" vector and a "radius" number |
| Deserialization.DeserializeBox | src/Deserialization.hpp:21-29 | a box without both "center" and "half_extents" fails; a success reads both vectors |
| Deserialization.DeserializeShape | src/Deserialization.hpp:31-40 | "sphere" builds a sphere, "box" a box, and any other type fails |
| Deserialization.CollectOkExactly | src/Deserialization.hpp:55 | reading a list succeeds exactly when every element reads |
| Deserialization.CollectInOrder | src/Deserialization.hpp:55 | a successful list read keeps the elements' number and order |
| Deserialization.CollectFailAt | src/Deserialization.hpp:55 | a failure in a prefix is the failure of the whole list |
| Deserialization.DeserializeBody | src/Deserialization.hpp:42-57 | the result is exactly `BodyOf` the JSON |
| Deserialization.BodyOf | src/Deserialization.hpp:42-57 | a body needs pos, vel, inv_m, restitution and shapes; it holds what they read, with shapes in array order, zero acceleration and on_ground true; it succeeds whenever every field reads |
| Deserialization.PushShapes | src/Deserialization.hpp:55 | the shapes of the items are appended in order, or the first failing item's error is returned |
| Deserialization.DeserializeActor | src/Deserialization.hpp:59-69 | an actor needs yaw and pitch; on success its body is `BodyOf` the "body" member and its yaw, pitch and 16-bit model key are what the JSON gives, with no name and no offset; it succeeds whenever all of these read |
| Deserialization.DeserializePlayer | src/Deserialization.hpp:71-79 | a player needs actor_key and succeeds exactly when `AsKey` reads it, taking that key |
| Deserialization.ParseKey | src/Deserialization.hpp:86 | stoul reads the leading digit run, fails without one or beyond 64 bits, and is cut to 32 bits |
| Deserialization.ParseKeyOfDecimal | src/Deserialization.hpp:86 | a key's decimal form, followed by anything but a digit, reads back as the key |
| Deserialization.DeserializeWorld | src/Deserialization.hpp:82-94 | the actors are added in the JSON object's key order, each under its parsed key; a null or empty "actors" gives the empty world; a missing one fails; any other non-object "actors" (a non-empty array or a primitive) fails with the iterator's key() error; and the result is exactly `DeserializeWorldResult`, the specification the corrected loader is proved against |
| Deserialization.LoadedCounter | src/Deserialization.hpp:85-88 | after loading, the counter is one above the last key in iteration order, and the keys are the old ones plus every parsed key |
| Deserialization.LastKeyCounterReusesKey | src/Deserialization.hpp:85-88 | loading keys "10" then "9" leaves the counter at 10 on a key in use, and the next automatic add loses its actor |
| Deserialization.AddActorRaising | src/World.hpp:43-46 | the corrected add stores what the original stores, and only ever raises the counter |
| Deserialization.LoadedRaisingAgrees | src/Deserialization.hpp:82-94 | loading with the corrected add succeeds and fails exactly as the original, stores the same actors, and keeps the counter above every key |
| Deserialization.DeserializeWorldRaising | src/Deserialization.hpp:82-94 | the corrected loader gives the same actors as the original and a counter above every key |
| Deserialization.RaisedCounterIsFree | src/World.hpp:37-41 | with the counter above every key, the next automatic add lands on a free key and keeps its actor |

## Left out

- Rendering, models, animation, cameras, the window, the cursor, menus, and the chat and name widgets are not part of this model. This covers the `Draw` methods, the enter-chat send in `GameClient::Update`, and `ToggleCursor`/`ToggleWindow`.
- `PlayerInput::Detect` and `UIInput::Detect` read the raw devices and are left out.
- ENet transport is not modelled. Every send or broadcast is a packet in the returned sequence, and packet extraction is the packet datatype itself.
- The cereal byte format is not modelled. Encoders and decoders are function parameters, and the round-trip lemmas assume decode(encode(s)) = s.
- nlohmann JSON parsing is not modelled. The scene is a `Json` datatype. The library's failures (a wrong type, a missing member) all carry the one message "json error" instead of the library's own texts; iterating keys over a value that is not an object carries the library's "cannot use key() for non-object iterators". `operator[] const` on a missing key is undefined behaviour; it is modelled as the "json error" failure. `stoul`'s skipping of leading whitespace and its acceptance of a sign are not modelled.
- Deserialization.AsU16: a real outside the 16-bit range is truncated and then wrapped; C++ leaves that cast undefined, so no particular result is promised by the code.
- Deserialization.AsKey: a negative number is refused rather than wrapped, because the width of `ActorKey` is defined outside the core; DeserializePlayer inherits this.
- Server.GameServer.Update: the replay is a parameter, so the names a replayed join sets (src/Game.cpp:18) are not tied to the replay; `Games.ApplyEvent` states that naming for one event. The same holds for the client's replays in Client.GameClient.Update and Client.GameClient.OnReceive.
- IEEE floating point (rounding, NaN, infinity) is not modelled, and neither is the precision of `sqrt`, `sin` and `cos`.
- Client.Alpha: a zero span between snapshots is given the values `Lerp`'s clamp makes of the float division (1 for infinity, 0 for NaN), not the float result itself.
- `SolveCollision` and `HeightmapData::SolveCollisionWith` are not shown in the source, so they are solver parameters and nothing is claimed about their effect.
- `GameBase.hpp` is not part of this model. `AddEvent` and `DropEventHistory` are modelled on a tick-indexed map of event lists. `ApplyEvents` is a replay parameter, and nothing is claimed about replay order or determinism.
- max_player_name_len, MSG_USER_BASE and the server's chat name come from files outside the core. They are parameters.
- Deserialization.DeserializeWorld takes the actor reader as a function parameter. `DeserializeActor` is a method (it runs the shape loop), and a method cannot be passed as a function.
- Metadata.GameMetadata.Deserialize does not re-establish the name-length bound, because the decoder may produce any table. The client's table is therefore not required to be valid.
- The client's `IsConnected`/`m_connected` flag is left out. It is set only by the transport callbacks.
- Games.Lerp takes one excepted key, as the cast in the code reads it. The set the callers build is not modelled.
- The smooth re-`Lerp` inside `GameClient::DrawGame` belongs to rendering and is left out.

## Findings

| source | as written | input that shows it | evidently intended | confidence | as-written member | corrected member |
|---|---|---|---|---|---|---|
| src/Game.cpp:33-40 | the existence test reads `state.players[id]`, which inserts a binding to actor 0 for an id that never joined, and the input is then applied to actor 0 | a state with no players whose actor 0 is the starting floor, and an input with mouse x delta 1 from id 7: id 7 becomes bound to actor 0 and the floor's yaw changes | an input from an id that has not joined changes nothing | not executed | Games.ApplyEventAsWritten, Games.UnboundInputSteersActorZero | Games.ApplyEvent, Games.InputForPlayer, Games.InputOnlyMovesOwnActor |
| src/Deserialization.hpp:85-88 | each actor is added with `AddActor(key, data)`, which sets the counter to key + 1 even when that lowers it, and members are visited in the JSON object's lexicographic key order | a scene with actors "9" and "10": "10" is loaded first and "9" last, so the counter ends at 10 while key 10 is in use, and the next automatic add keeps the old actor and loses the new one | after loading, the counter lies above every loaded key | not executed | Deserialization.DeserializeWorld, Deserialization.LastKeyCounterReusesKey | Deserialization.DeserializeWorldRaising, Deserialization.LoadedRaisingAgrees, Deserialization.RaisedCounterIsFree |
