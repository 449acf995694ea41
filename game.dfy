/**
 * The game layer (src/Game.hpp, src/Game.cpp): player inputs, the events the
 * server and clients log, the game state binding players to actors, and the
 * operations `Game` performs on a state. `Game`'s only field, the metadata
 * written by `InitNewPlayer`, is passed to the operations that change it.
 */
module Games {
  import opened Wrappers
  import opened RayMath
  import opened Physics
  import opened Actors
  import opened Worlds
  import opened CStrings
  import opened Framing
  import opened Metadata
  import WorldUpdate

  /** `iters_per_sec` and `dt`: the game advances in ticks of 1/60 s. */
  const ItersPerSec: nat := 60
  const Dt: real := 1.0 / 60.0

  /***** Inputs *****/

  /** +1, 0 or -1 for a pair of opposite keys. */
  function Axis(plus: bool, minus: bool): real
  {
    (if plus then 1.0 else 0.0) - (if minus then 1.0 else 0.0)
  }

  /** `PlayerInput`: mouse deltas and the six movement keys. */
  datatype PlayerInput = PlayerInput(mouseX: real, mouseY: real, right: bool, left: bool,
                                     forw: bool, back: bool, up: bool, down: bool)
  {
    /** `Normalized`: the (forward, right) key axes scaled to unit length, or zero. */
    function Normalized(m: Maths): Vector2
    {
      Normalize2(m, Vector2(Axis(forw, back), Axis(right, left)))
    }

    /** `UpDown`: +1 for up alone, -1 for down alone, 0 otherwise. */
    function UpDown(): (r: int)
      ensures -1 <= r <= 1
      ensures r == 0 <==> up == down
      ensures r == 1 <==> up && !down
    {
      (if up then 1 else 0) - (if down then 1 else 0)
    }

    /** `IsEmpty`. */
    predicate IsEmpty(m: Maths)
    {
      mouseX == 0.0 && mouseY == 0.0 && Normalized(m).x == 0.0 && Normalized(m).y == 0.0 && UpDown() == 0
    }
  }

  /** `PlayerInput{}`. */
  const NoInput := PlayerInput(0.0, 0.0, false, false, false, false, false, false)

  /**
   * An input is empty exactly when the mouse did not move and each pair of
   * opposite keys cancels out.
   */
  lemma IsEmptyIff(m: Maths, i: PlayerInput)
    requires SqrtPositive(m)
    ensures i.IsEmpty(m) <==>
              && i.mouseX == 0.0 && i.mouseY == 0.0
              && i.forw == i.back && i.right == i.left && i.up == i.down
  {
    var f, r := Axis(i.forw, i.back), Axis(i.right, i.left);
    if f != 0.0 || r != 0.0 {
      assert f * f + r * r > 0.0;
      var len := m.sqrt(f * f + r * r);
      assert len > 0.0;
      assert i.Normalized(m) == Vector2(f / len, r / len);
      if f != 0.0 {
        assert f / len != 0.0;
      } else {
        assert r / len != 0.0;
      }
    } else {
      assert f * f + r * r == 0.0;
    }
  }

  /** `UIInput`: the four pressed-this-frame flags. */
  datatype UIInput = UIInput(toggleCursor: bool, toggleChat: bool, enterChat: bool, disconnect: bool)

  datatype GameInput = GameInput(ui: UIInput, player: PlayerInput)

  /**
   * `GameInput::ClearNonContinuous`: the UI part resets every pressed flag, the
   * player part is a no-op.
   */
  function Cleared(g: GameInput): (r: GameInput)
    ensures r.player == g.player
    ensures !r.ui.toggleCursor && !r.ui.toggleChat && !r.ui.enterChat && !r.ui.disconnect
  {
    GameInput(UIInput(false, false, false, false), g.player)
  }

  /**
   * `GameInput::Divide(denum)`: only the mouse deltas are divided; the keys and
   * the UI part are kept.
   */
  function Divided(g: GameInput, denum: real): (r: GameInput)
    requires denum != 0.0
    ensures r.ui == g.ui
    ensures r.player.mouseX * denum == g.player.mouseX && r.player.mouseY * denum == g.player.mouseY
    ensures r.player.(mouseX := g.player.mouseX, mouseY := g.player.mouseY) == g.player
  {
    g.(player := g.player.(mouseX := g.player.mouseX / denum, mouseY := g.player.mouseY / denum))
  }

  /***** Events *****/

  datatype EventId = EvPlayerJoin | EvPlayerLeave | EvPlayerInput

  /** The `std::variant<std::monostate, PlayerJoin, PlayerLeave, PlayerInput>` payload. */
  datatype EventData = NoData | JoinData | LeaveData | InputData(input: PlayerInput)

  datatype GameEvent = GameEvent(eventId: EventId, data: EventData)

  /***** Game state *****/

  /** `GameState`: the players by connection id and the world. */
  datatype GameState = GameState(players: map<nat, Player>, world: World)
  {
    /** `PlayerExists`. */
    predicate PlayerExists(id: nat)
    {
      id in players
    }

    /** `GetPlayer`: the binding, or the "Player doesn't exist" error. */
    function GetPlayer(id: nat): (r: Result<Player>)
      ensures r.Ok? <==> PlayerExists(id)
      ensures r.Ok? ==> r.value == players[id]
      ensures r.Err? ==> r.error == "Player doesn't exist"
    {
      if PlayerExists(id) then Ok(players[id]) else Err("Player doesn't exist")
    }

    /**
     * `GetActor`: the actor bound to the player; fails when the player is unknown
     * or its actor is gone.
     */
    function GetActor(id: nat): (r: Result<Actor>)
      ensures r.Ok? <==> id in players && players[id].actorKey in world.actors
      ensures r.Ok? ==> r.value == world.actors[players[id].actorKey]
      ensures r.Err? ==> r.error == if id in players then "Actor doesn't exist" else "Player doesn't exist"
    {
      match GetPlayer(id)
      case Ok(p) => world.GetActor(p.actorKey)
      case Err(e) => Err(e)
    }
  }

  /** A default-constructed `GameState`. */
  const EmptyState := GameState(map[], EmptyWorld)

  /***** ApplyInput *****/

  /** The movement bound for the velocity: the horizontal part of the forward direction and the right direction. */
  function Movement(m: Maths, a: Actor, input: PlayerInput): Vector3
  {
    var n := input.Normalized(m);
    var fw := Scale(Mul(Forward(m, a), Vector3(1.0, 0.0, 1.0)), n.x);
    var rt := Scale(Right(m, a), n.y);
    Scale(Scale(Add(fw, rt), Dt), HorSpeed)
  }

  /** The pitch limit, 0.9 of a quarter turn. */
  const PitchLimit: real := Pi / 2.0 * 0.9

  /** The actor `GameState::ApplyInput` leaves. */
  function Steered(m: Maths, a: Actor, input: PlayerInput): Actor
  {
    var moved := a.body.(velocity := Add(a.body.velocity, Movement(m, a, input)));
    var body := if moved.onGround && input.up
                then moved.(velocity := moved.velocity.(y := JumpImpulse), onGround := false)
                else moved;
    a.(body := body, yaw := a.yaw + input.mouseX,
       pitch := Clamp(a.pitch + input.mouseY, -PitchLimit, PitchLimit))
  }

  /**
   * Steering: the horizontal velocity gains the movement computed from the view
   * angles held before this input turned them; moving never changes the vertical
   * velocity, which only a jump sets; a jump needs ground and the up key and
   * leaves the ground; yaw gains the mouse x delta and pitch is clamped to
   * +-0.45 pi; nothing else changes.
   */
  lemma SteerEffects(m: Maths, a: Actor, input: PlayerInput)
    ensures var r := Steered(m, a, input);
            && r.body.velocity.x == a.body.velocity.x + Movement(m, a, input).x
            && r.body.velocity.z == a.body.velocity.z + Movement(m, a, input).z
            && Movement(m, a, input).y == 0.0
            && (a.body.onGround && input.up ==> r.body.velocity.y == JumpImpulse && !r.body.onGround)
            && (!(a.body.onGround && input.up) ==>
                  r.body.velocity.y == a.body.velocity.y && r.body.onGround == a.body.onGround)
            && r.yaw == a.yaw + input.mouseX
            && -PitchLimit <= r.pitch <= PitchLimit
            && (-PitchLimit <= a.pitch + input.mouseY <= PitchLimit ==> r.pitch == a.pitch + input.mouseY)
            && r.(body := a.body, yaw := a.yaw, pitch := a.pitch) == a
            && r.body.(velocity := a.body.velocity, onGround := a.body.onGround) == a.body
  {
    var r := Steered(m, a, input);
    assert Right(m, a).y == 0.0;
  }

  /** `ApplyInput` on a state: the player's actor is steered; a missing player or actor fails. */
  function InputApplied(m: Maths, s: GameState, input: PlayerInput, id: nat): (r: Result<GameState>)
    ensures r.Ok? <==> s.GetActor(id).Ok?
    ensures r.Err? ==> r.error == s.GetActor(id).error
    ensures r.Ok? ==> var k := s.players[id].actorKey;
                      r.value.players == s.players && r.value.world.newActorKey == s.world.newActorKey
                      && r.value.world.actors == s.world.actors[k := Steered(m, s.world.actors[k], input)]
  {
    match s.GetActor(id)
    case Err(e) => Err(e)
    case Ok(a) =>
      var k := s.players[id].actorKey;
      Ok(s.(world := s.world.(actors := s.world.actors[k := Steered(m, a, input)])))
  }

  /** `GameState::ApplyInput`. */
  method ApplyInput(m: Maths, s: GameState, input: PlayerInput, id: nat) returns (r: Result<GameState>)
    ensures r == InputApplied(m, s, input, id)
  {
    var found := s.GetActor(id);
    if found.Err? {
      return Err(found.error);
    }
    var a := found.value;
    var n := input.Normalized(m);
    var fw := Scale(Mul(Forward(m, a), Vector3(1.0, 0.0, 1.0)), n.x);
    var rt := Scale(Right(m, a), n.y);
    var body := a.body.(velocity := Add(a.body.velocity, Scale(Scale(Add(fw, rt), Dt), HorSpeed)));
    var yaw := a.yaw + input.mouseX;
    var pitch := a.pitch + input.mouseY;
    pitch := Clamp(pitch, -PitchLimit, PitchLimit);
    if body.onGround && input.up {
      body := body.(velocity := body.velocity.(y := JumpImpulse), onGround := false);
    }
    var k := s.players[id].actorKey;
    r := Ok(s.(world := s.world.(actors := s.world.actors[k := a.(body := body, yaw := yaw, pitch := pitch)])));
  }

  /***** Events applied to a state *****/

  /** The actor `InitNewPlayer` creates: one sphere of radius 13, the player model, lifted to (0, 10, 0). */
  const PlayerActor: Actor :=
    NewActor(DefaultBody.(position := Vector3(0.0, 10.0, 0.0), shapes := [SphereShape(Sphere(13.0, Zero))]),
             ModelPlayer).(offset := Vector3(0.0, -12.0, 0.0))

  /** The name `InitNewPlayer` gives: "player_" and the number of players before the join. */
  function JoinName(s: GameState): string
  {
    "player_" + Decimal(|s.players|)
  }

  /**
   * The state after `InitNewPlayer`: a new player actor under the counter, and
   * the id bound to it, replacing any earlier binding; an actor the id was bound
   * to before stays in the world.
   */
  function Joined(s: GameState, id: nat): (r: GameState)
    ensures r.players == s.players[id := Player(s.world.newActorKey)]
    ensures r.world.newActorKey == s.world.newActorKey + 1
    ensures r.world.actors.Keys == s.world.actors.Keys + {s.world.newActorKey}
    ensures s.world.KeysBelowCounter() ==>
              r.world.actors == s.world.actors[s.world.newActorKey := PlayerActor]
  {
    var added := s.world.AddActor(PlayerActor);
    GameState(s.players[id := Player(added.key)], added.world)
  }

  /** `Game::InitNewPlayer`. */
  method InitNewPlayer(metadata: GameMetadata, s: GameState, id: nat) returns (r: GameState)
    requires metadata.Valid()
    modifies metadata
    ensures metadata.Valid()
    ensures metadata.names == old(metadata.names)[id := Truncated(JoinName(s), metadata.nameLen)]
    ensures r == Joined(s, id)
  {
    var body := DefaultBody;
    body := body.(shapes := body.shapes + [SphereShape(Sphere(13.0, Zero))]);
    var actor := NewActor(body, ModelPlayer);
    actor := actor.(offset := Vector3(0.0, -12.0, 0.0));
    actor := actor.(body := actor.body.(position := Vector3(0.0, 10.0, 0.0)));
    assert actor == PlayerActor;
    var added := s.world.AddActor(actor);
    metadata.SetPlayerName(id, "player_" + Decimal(|s.players|));
    r := GameState(s.players[id := Player(added.key)], added.world);
  }

  /** Leave: the bound actor is removed, the binding is kept; an unknown id makes `map::at` throw. */
  function Left(s: GameState, id: nat): (r: Result<GameState>)
    ensures r.Ok? <==> id in s.players
    ensures r.Err? ==> r.error == "map::at"
    ensures r.Ok? ==> r.value.players == s.players
                      && r.value.world == s.world.RemoveActor(s.players[id].actorKey)
  {
    if id in s.players then Ok(s.(world := s.world.RemoveActor(s.players[id].actorKey)))
    else Err("map::at")
  }

  /**
   * Input, as written: `players[id]` binds an unknown id to actor key 0 before
   * the existence test, so that binding is kept and actor 0, if present, is
   * steered.
   */
  function InputAsWritten(m: Maths, s: GameState, input: PlayerInput, id: nat): (r: GameState)
    ensures r.players == if id in s.players then s.players else s.players[id := DefaultPlayer]
  {
    var bound := if id in s.players then s else s.(players := s.players[id := DefaultPlayer]);
    var k := bound.players[id].actorKey;
    if k in bound.world.actors then InputApplied(m, bound, input, id).value else bound
  }

  /**
   * Input, as intended: only a known player whose actor still exists steers it;
   * no binding is ever created.
   */
  function InputForPlayer(m: Maths, s: GameState, input: PlayerInput, id: nat): (r: GameState)
    ensures r.players == s.players
  {
    if s.GetActor(id).Ok? then InputApplied(m, s, input, id).value else s
  }

  /**
   * An intended input changes at most the actor bound to the sending player,
   * adds no binding, and does nothing for an unknown player or a removed actor.
   */
  lemma InputOnlyMovesOwnActor(m: Maths, s: GameState, input: PlayerInput, id: nat)
    ensures InputForPlayer(m, s, input, id).players == s.players
    ensures InputForPlayer(m, s, input, id).world.newActorKey == s.world.newActorKey
    ensures InputForPlayer(m, s, input, id).world.actors.Keys == s.world.actors.Keys
    ensures forall k :: k in s.world.actors && (id !in s.players || k != s.players[id].actorKey) ==>
              InputForPlayer(m, s, input, id).world.actors[k] == s.world.actors[k]
    ensures s.GetActor(id).Err? ==> InputForPlayer(m, s, input, id) == s
  {
  }

  /**
   * As written, an input from an id that never joined binds it to actor 0 and
   * turns that actor: here the floor of `InitGame` yaws by the mouse delta.
   */
  lemma UnboundInputSteersActorZero(m: Maths)
    ensures var s := GameState(map[], EmptyWorld.AddActor(Floor).world);
            var input := NoInput.(mouseX := 1.0);
            var r := InputAsWritten(m, s, input, 7);
            && r.players == map[7 := Player(0)]
            && r.world.actors[0].yaw == 1.0 != s.world.actors[0].yaw
            && InputForPlayer(m, s, input, 7) == s
  {
    var s := GameState(map[], EmptyWorld.AddActor(Floor).world);
    var input := NoInput.(mouseX := 1.0);
    var bound := s.(players := map[7 := Player(0)]);
    assert s.players[7 := DefaultPlayer] == map[7 := Player(0)];
    assert 0 in bound.world.actors;
    assert InputApplied(m, bound, input, 7).value.world.actors[0] == Steered(m, Floor, input);
  }

  /** `Game::ApplyEvent` as written. */
  method ApplyEventAsWritten(m: Maths, metadata: GameMetadata, s: GameState, e: GameEvent, id: nat)
    returns (r: Result<GameState>)
    requires metadata.Valid()
    modifies metadata
    ensures metadata.Valid()
    ensures e.eventId.EvPlayerJoin? ==> r == Ok(Joined(s, id))
    ensures e.eventId.EvPlayerJoin? ==>
              metadata.names == old(metadata.names)[id := Truncated(JoinName(s), metadata.nameLen)]
    ensures !e.eventId.EvPlayerJoin? ==> metadata.names == old(metadata.names)
    ensures e.eventId.EvPlayerLeave? ==> r == Left(s, id)
    ensures e.eventId.EvPlayerInput? ==>
              r == Ok(if e.data.InputData? then InputAsWritten(m, s, e.data.input, id) else s)
  {
    match e.eventId
    case EvPlayerJoin =>
      var joined := InitNewPlayer(metadata, s, id);
      r := Ok(joined);
    case EvPlayerLeave =>
      if id !in s.players {
        return Err("map::at");
      }
      r := Ok(s.(world := s.world.RemoveActor(s.players[id].actorKey)));
    case EvPlayerInput =>
      r := Ok(s);
      if e.data.InputData? {
        var bound := s;
        if id !in bound.players {
          bound := bound.(players := bound.players[id := DefaultPlayer]);
        }
        r := Ok(bound);
        if bound.world.ActorExists(bound.players[id].actorKey) {
          r := ApplyInput(m, bound, e.data.input, id);
        }
      }
  }

  /** `Game::ApplyEvent` with the input case restricted to known players. */
  method ApplyEvent(m: Maths, metadata: GameMetadata, s: GameState, e: GameEvent, id: nat)
    returns (r: Result<GameState>)
    requires metadata.Valid()
    modifies metadata
    ensures metadata.Valid()
    ensures e.eventId.EvPlayerJoin? ==> r == Ok(Joined(s, id))
    ensures e.eventId.EvPlayerJoin? ==>
              metadata.names == old(metadata.names)[id := Truncated(JoinName(s), metadata.nameLen)]
    ensures !e.eventId.EvPlayerJoin? ==> metadata.names == old(metadata.names)
    ensures e.eventId.EvPlayerLeave? ==> r == Left(s, id)
    ensures e.eventId.EvPlayerInput? ==>
              r == Ok(if e.data.InputData? then InputForPlayer(m, s, e.data.input, id) else s)
  {
    match e.eventId
    case EvPlayerJoin =>
      var joined := InitNewPlayer(metadata, s, id);
      r := Ok(joined);
    case EvPlayerLeave =>
      r := Left(s, id);
    case EvPlayerInput =>
      r := Ok(s);
      if e.data.InputData? && s.PlayerExists(id) && s.world.ActorExists(s.players[id].actorKey) {
        r := ApplyInput(m, s, e.data.input, id);
      }
  }

  /**
   * After a player leaves, its later inputs change nothing: the bound key is
   * gone, and with automatic keys it is never handed out again.
   */
  lemma InputAfterLeaveIsIgnored(m: Maths, s: GameState, id: nat, input: PlayerInput)
    requires id in s.players
    ensures Left(s, id).Ok?
    ensures InputAsWritten(m, Left(s, id).value, input, id) == Left(s, id).value
    ensures InputForPlayer(m, Left(s, id).value, input, id) == Left(s, id).value
  {
  }

  /***** Lerp *****/

  /** The alpha `Lerp` uses: `fmin(1, fmax(0, alpha))`. */
  function LerpAlpha(alpha: real): (r: real)
    ensures 0.0 <= r <= 1.0
    ensures 0.0 <= alpha <= 1.0 ==> r == alpha
  {
    FMin(1.0, FMax(0.0, alpha))
  }

  /** An actor of the second state moved to the interpolated position, its shapes following. */
  function LerpedActor(a1: Actor, a2: Actor, alpha: real): Actor
  {
    var p := Lerp3(a1.body.position, a2.body.position, alpha);
    a2.(body := a2.body.(position := p, shapes := Recentered(a2.body.shapes, p)))
  }

  /**
   * The state `Game::Lerp` returns: the second state, except that every actor it
   * shares with the first, other than the excepted key, is interpolated.
   */
  function Lerped(s1: GameState, s2: GameState, alpha: real, except: nat): (r: GameState)
    ensures r.players == s2.players && r.world.newActorKey == s2.world.newActorKey
    ensures r.world.actors.Keys == s2.world.actors.Keys
  {
    var t := LerpAlpha(alpha);
    var a1, a2 := s1.world.actors, s2.world.actors;
    s2.(world := s2.world.(actors := map k | k in a2 ::
          if k != except && k in a1 then LerpedActor(a1[k], a2[k], t) else a2[k]))
  }

  /**
   * What `Lerp` promises: bindings and keys come from the second state; actors
   * only in the first are dropped; the excepted actor and actors new in the
   * second are untouched; a shared actor keeps everything but its position,
   * which lies on the segment between its two positions, and its shapes, which
   * follow it; an alpha of 1 or more gives the second position, 0 or less the
   * first.
   */
  lemma LerpSpec(s1: GameState, s2: GameState, alpha: real, except: nat, k: nat)
    requires k in s2.world.actors
    ensures var a := Lerped(s1, s2, alpha, except).world.actors[k];
            var a2 := s2.world.actors[k];
            && (k == except || k !in s1.world.actors ==> a == a2)
            && (k != except && k in s1.world.actors ==>
                  var a1 := s1.world.actors[k];
                  && a.(body := a2.body) == a2
                  && a.body.(position := a2.body.position, shapes := a2.body.shapes) == a2.body
                  && a.body.position == Lerp3(a1.body.position, a2.body.position, LerpAlpha(alpha))
                  && ShapesSynced(a.body)
                  && (alpha >= 1.0 ==> a.body.position == a2.body.position)
                  && (alpha <= 0.0 ==> a.body.position == a1.body.position))
  {
    if k != except && k in s1.world.actors {
      Lerp3Ends(s1.world.actors[k].body.position, s2.world.actors[k].body.position);
    }
  }

  /** `Game::Lerp`: copy the second state, then move the shared actors in key order. */
  method Lerp(s1: GameState, s2: GameState, alpha: real, except: nat) returns (r: GameState)
    ensures r == Lerped(s1, s2, alpha, except)
  {
    var t := FMin(1.0, FMax(0.0, alpha));
    var ks := SortedKeys(s2.world.actors.Keys);
    WorldUpdate.SortedKeysOf(s2.world.actors);
    var actors := LerpEach(s1.world.actors, s2.world.actors, t, except, ks);
    LerpedActors(s1, s2, alpha, except, actors);
    r := s2.(world := s2.world.(actors := actors));
  }

  /** Actors interpolated key by key, for every key of the second state, are the interpolated state's actors. */
  lemma LerpedActors(s1: GameState, s2: GameState, alpha: real, except: nat, actors: map<nat, Actor>)
    requires actors.Keys == s2.world.actors.Keys
    requires forall k :: k in s2.world.actors ==>
               actors[k] == if k != except && k in s1.world.actors
                            then LerpedActor(s1.world.actors[k], s2.world.actors[k], LerpAlpha(alpha))
                            else s2.world.actors[k]
    ensures actors == Lerped(s1, s2, alpha, except).world.actors
  {
  }

  /** The loop of `Lerp` over the distinct keys `ks` of the second state's actors. */
  method LerpEach(a1: map<nat, Actor>, a2: map<nat, Actor>, t: real, except: nat, ks: seq<nat>)
    returns (r: map<nat, Actor>)
    requires WorldUpdate.KeysIn(ks, a2) && Increasing(ks)
    ensures r.Keys == a2.Keys
    ensures forall k :: k in a2 ==>
              r[k] == if k in ks && k != except && k in a1 then LerpedActor(a1[k], a2[k], t) else a2[k]
  {
    r := a2;
    var n := 0;
    while n < |ks|
      invariant 0 <= n <= |ks|
      invariant r.Keys == a2.Keys
      invariant forall k :: k in a2 ==>
                  r[k] == if k in ks[..n] && k != except && k in a1 then LerpedActor(a1[k], a2[k], t) else a2[k]
    {
      var k := ks[n];
      assert k !in ks[..n];
      if k != except && k in a1 {
        var body := r[k].body.(position := Lerp3(a1[k].body.position, a2[k].body.position, t));
        body := UpdateShapePositions(body);
        r := r[k := r[k].(body := body)];
      }
      assert ks[..n + 1] == ks[..n] + [k];
      n := n + 1;
    }
    assert ks[..n] == ks;
  }

  /***** Snapshots *****/

  type StateEncoder = GameState -> seq<Byte>

  type StateDecoder = seq<Byte> -> GameState

  /** `Game::Serialize`: the encoded state framed into 8192 bytes, with tick 0, or the overflow error. */
  function Serialize(encode: StateEncoder, s: GameState): (r: Result<Frame>)
    ensures r.Ok? <==> |encode(s)| % U32 <= Capacity
    ensures r.Err? ==> r.error == "Serialized state exceeds buffer size"
    ensures r.Ok? ==> r.value.tick == 0 && r.value.size == |encode(s)| % U32 && r.value.size <= |encode(s)|
    ensures r.Ok? ==> WellSized(r.value) && Payload(r.value) == encode(s)[..r.value.size]
  {
    Pack(encode(s), "Serialized state exceeds buffer size")
  }

  /** `Game::Deserialize`: decodes exactly the first `size` bytes. */
  function Deserialize(decode: StateDecoder, f: Frame): GameState
    requires WellSized(f)
  {
    decode(Payload(f))
  }

  /**
   * A state whose encoding fits arrives intact, with any tick attached, whenever
   * the decoder inverts the encoder on it.
   */
  lemma SnapshotRoundTrip(encode: StateEncoder, decode: StateDecoder, s: GameState, tick: nat)
    requires |encode(s)| <= Capacity && decode(encode(s)) == s
    ensures Serialize(encode, s).Ok?
    ensures WellSized(Serialize(encode, s).value.(tick := tick))
    ensures Deserialize(decode, Serialize(encode, s).value.(tick := tick)) == s
  {
    PackPayload(encode(s), "Serialized state exceeds buffer size", tick);
  }

  /***** The initial scene *****/

  /** The static floor: a 2000 x 200 x 2000 box whose top is at y = 0. */
  const Floor: Actor :=
    NewActor(DefaultBody.(position := Vector3(0.0, -100.0, 0.0), velocity := Zero, inverseMass := 0.0,
                          shapes := [BoxShape(Box(Vector3(1000.0, 100.0, 1000.0), Zero))]), ModelDefault)

  const Platform: Actor :=
    NewActor(DefaultBody.(position := Vector3(40.0, 20.0, 0.0),
                          shapes := [BoxShape(Box(Vector3(30.0, 5.0, 30.0), Zero))]), ModelDefault)

  const ExclamationCube: Actor :=
    NewActor(DefaultBody.(position := Vector3(0.0, 20.0, 40.0),
                          shapes := [BoxShape(Box(Vector3(11.0, 11.0, 11.0), Zero))]), ModelCubeExclamation)

  /** The `i`-th of the four balls stacked at (40, 20 i, 40). */
  function Ball(i: nat): Actor
  {
    NewActor(DefaultBody.(position := Vector3(40.0, 20.0 * i as real, 40.0),
                          shapes := [SphereShape(Sphere(10.0, Zero))]), ModelDefault)
  }

  /** The seven actors of the scene in the order `InitGame` adds them. */
  function SceneActor(i: nat): Actor
    requires i < 7
  {
    if i == 0 then Floor else if i == 1 then Platform else if i == 2 then ExclamationCube else Ball(i - 3)
  }

  /** The actors after adding `SceneActor(0 .. n-1)` under consecutive keys from `c` to a world whose keys are below `c`. */
  function SceneFrom(actors: map<nat, Actor>, c: nat, n: nat): map<nat, Actor>
    requires n <= 7
  {
    if n == 0 then actors else SceneFrom(actors, c, n - 1)[c + n - 1 := SceneActor(n - 1)]
  }

  /** The actors after adding balls 0 .. n-1 under consecutive keys from `k`. */
  function Balls(actors: map<nat, Actor>, k: nat, n: nat): map<nat, Actor>
  {
    if n == 0 then actors else Balls(actors, k, n - 1)[k + n - 1 := Ball(n - 1)]
  }

  /** The last four actors of the scene are the four balls. */
  lemma SceneBalls(actors: map<nat, Actor>, c: nat)
    ensures SceneFrom(actors, c, 7) == Balls(SceneFrom(actors, c, 3), c + 3, 4)
  {
    assert SceneFrom(actors, c, 4) == Balls(SceneFrom(actors, c, 3), c + 3, 1);
    assert SceneFrom(actors, c, 5) == Balls(SceneFrom(actors, c, 3), c + 3, 2);
    assert SceneFrom(actors, c, 6) == Balls(SceneFrom(actors, c, 3), c + 3, 3);
  }

  /** One automatic add, when every key is below the counter, stores under the counter and keeps that true. */
  lemma AddFresh(w: World, data: Actor)
    requires w.KeysBelowCounter()
    ensures w.AddActor(data).world.KeysBelowCounter()
    ensures w.AddActor(data).world.actors == w.actors[w.newActorKey := data]
  {
  }

  /** The first three adds of `InitGame`, the cube getting its model after it is stored. */
  lemma SceneStart(w0: World, c: nat)
    requires w0.KeysBelowCounter() && c == w0.newActorKey
    ensures var w1 := w0.AddActor(Floor).world;
            var w2 := w1.AddActor(Platform).world;
            var added := w2.AddActor(ExclamationCube.(modelKey := ModelDefault));
            var w3 := added.world;
            var w := w3.(actors := w3.actors[added.key := w3.actors[added.key].(modelKey := ModelCubeExclamation)]);
            w.KeysBelowCounter() && w.newActorKey == c + 3 && w.actors == SceneFrom(w0.actors, c, 3)
  {
    var w1 := w0.AddActor(Floor).world;
    AddFresh(w0, Floor);
    assert w1.actors == SceneFrom(w0.actors, c, 1);
    var w2 := w1.AddActor(Platform).world;
    AddFresh(w1, Platform);
    assert w2.actors == SceneFrom(w0.actors, c, 2);
    var added := w2.AddActor(ExclamationCube.(modelKey := ModelDefault));
    AddFresh(w2, ExclamationCube.(modelKey := ModelDefault));
    assert added.key == c + 2;
  }

  /**
   * `Game::InitGame`: seven actors under the next seven keys; players are not
   * touched. On a world whose keys are all below its counter, the new actors are
   * exactly the scene, in order, and nothing else changes.
   */
  method InitGame(s: GameState) returns (r: GameState)
    ensures r.players == s.players
    ensures r.world.newActorKey == s.world.newActorKey + 7
    ensures s.world.KeysBelowCounter() ==>
              r.world.KeysBelowCounter() && r.world.actors == SceneFrom(s.world.actors, s.world.newActorKey, 7)
  {
    var c := s.world.newActorKey;
    var w := s.world;
    w := w.AddActor(Floor).world;
    w := w.AddActor(Platform).world;
    var added := w.AddActor(ExclamationCube.(modelKey := ModelDefault));
    w := added.world;
    w := w.(actors := w.actors[added.key := w.actors[added.key].(modelKey := ModelCubeExclamation)]);
    if s.world.KeysBelowCounter() {
      SceneStart(s.world, c);
    }
    w := AddBalls(w);
    if s.world.KeysBelowCounter() {
      SceneBalls(s.world.actors, c);
    }
    r := s.(world := w);
  }

  /** The loop of `Game::InitGame` that adds the four balls, one automatic add each. */
  method AddBalls(w0: World) returns (w: World)
    ensures w.newActorKey == w0.newActorKey + 4
    ensures w0.KeysBelowCounter() ==> w.KeysBelowCounter() && w.actors == Balls(w0.actors, w0.newActorKey, 4)
  {
    w := w0;
    var i := 0;
    while i < 4
      invariant 0 <= i <= 4
      invariant w.newActorKey == w0.newActorKey + i
      invariant w0.KeysBelowCounter() ==> w.KeysBelowCounter() && w.actors == Balls(w0.actors, w0.newActorKey, i)
    {
      if w0.KeysBelowCounter() {
        AddFresh(w, Ball(i));
      }
      w := w.AddActor(Ball(i)).world;
      i := i + 1;
    }
  }

  /** The scene occupies keys `c` to `c + n - 1`, in order, over the earlier actors. */
  lemma {:induction false} SceneKeys(actors: map<nat, Actor>, c: nat, n: nat)
    requires n <= 7
    ensures forall k :: k in SceneFrom(actors, c, n) <==> k in actors || c <= k < c + n
    ensures forall i :: 0 <= i < n ==> SceneFrom(actors, c, n)[c + i] == SceneActor(i)
    ensures forall k :: k in actors && !(c <= k < c + n) ==> SceneFrom(actors, c, n)[k] == actors[k]
  {
    if n > 0 {
      SceneKeys(actors, c, n - 1);
    }
  }

  /**
   * On a fresh state the scene takes keys 0 to 6: actor 0 is the static floor
   * and actor 2 carries the exclamation-cube model.
   */
  lemma FreshScene()
    ensures EmptyState.world.KeysBelowCounter() && EmptyState.world.newActorKey == 0
    ensures var a := SceneFrom(EmptyState.world.actors, 0, 7);
            && (forall k: nat :: k in a <==> k < 7)
            && a[0] == Floor && a[0].body.inverseMass == 0.0
            && a[2].modelKey == ModelCubeExclamation
  {
    SceneKeys(EmptyState.world.actors, 0, 7);
    assert SceneFrom(EmptyState.world.actors, 0, 7)[0 + 0] == SceneActor(0);
    assert SceneFrom(EmptyState.world.actors, 0, 7)[0 + 2] == SceneActor(2);
  }

  /***** Game logic *****/

  /** `Game::UpdateGameLogic`: one world update of `dt`; the bindings are not touched. */
  method UpdateGameLogic(m: Maths, s: GameState, solve: WorldUpdate.Solver, terrain: WorldUpdate.TerrainSolver)
    returns (r: GameState)
    ensures r.players == s.players
    ensures r.world == WorldUpdate.Simulated(m, solve, terrain, s.world, Dt / WorldUpdate.PhysIters as real,
                                             WorldUpdate.PhysIters)
    ensures r.world.newActorKey == s.world.newActorKey && r.world.actors.Keys == s.world.actors.Keys
  {
    var w := WorldUpdate.Update(m, s.world, Dt, solve, terrain);
    r := s.(world := w);
  }
}
