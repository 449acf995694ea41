/**
 * The authoritative server (src/GameServer.hpp): it logs the players' events
 * by tick, and every third tick replays a window of late events into the late
 * state, advances a copy of it to the broadcast tick, and sends that copy.
 * The network is not modelled: what the server sends is returned as packets,
 * and what it receives arrives as method calls.
 */
module Server {
  import opened Wrappers
  import opened Games
  import opened GameBase
  import opened Framing
  import opened Metadata
  import opened CStrings
  import opened Chats

  /** `tick_period`, `receive_tick_period`, `server_lateness`, `max_lateness` and the metadata period (src/Constants.hpp). */
  const TickPeriod: nat := 3
  const ReceiveTickPeriod: nat := 30
  const ServerLateness: nat := 30
  const MaxLateness: nat := 63
  const MetadataPeriod: nat := 120

  /** What the server sends. */
  datatype Packet =
    | StatePacket(frame: Frame)
    | MetadataPacket(frame: Frame)
    | TickPacket(tick: nat)
    | PlayerIdPacket(id: nat)
    | ChatPacket(message: ChatMessage)

  /** What a client sends: an input tagged with the client's tick, a chat line, or a new name. */
  datatype ClientMessage =
    | InputMessage(input: PlayerInput, tick: nat)
    | ChatText(text: string)
    | NameChange(text: string)

  /** The guard of the state broadcast. */
  predicate Broadcasts(tick: nat)
  {
    tick % TickPeriod == 0 && tick >= MaxLateness
  }

  /** The four ticks one broadcast works with. */
  datatype Window = Window(previousOld: nat, currentOld: nat, previous: nat, current: nat)

  /** The ticks of `Update`, in `uint32_t` arithmetic. */
  function WindowAt(tick: U32Value): Window
  {
    var current := SubU32(tick, ServerLateness);
    var previous := SubU32(current, TickPeriod);
    Window(SubU32(previous, ReceiveTickPeriod), SubU32(current, ReceiveTickPeriod), previous, current)
  }

  /**
   * Under the broadcast guard no subtraction wraps: the window is the late
   * replay [tick - 63, tick - 60) followed by [tick - 60, tick - 30), tagged
   * tick - 30.
   */
  lemma WindowNoUnderflow(tick: U32Value)
    requires Broadcasts(tick)
    ensures WindowAt(tick) == Window(tick - 63, tick - 60, tick - 33, tick - 30)
    ensures WindowAt(tick).previousOld < WindowAt(tick).currentOld < WindowAt(tick).current
  {
  }

  /** The first broadcast is at tick 63, and its late window starts at tick 0. */
  lemma FirstWindowStartsAtZero(tick: U32Value)
    requires tick < MaxLateness
    ensures !Broadcasts(tick)
    ensures Broadcasts(MaxLateness) && WindowAt(MaxLateness).previousOld == 0
  {
  }

  /**
   * Consecutive broadcasts replay adjacent, non-overlapping late windows: the
   * next one starts where this one ended, and no tick in between broadcasts.
   */
  lemma WindowsContiguous(tick: U32Value)
    requires Broadcasts(tick) && tick + TickPeriod < U32
    ensures Broadcasts(tick + TickPeriod)
    ensures forall t :: tick < t < tick + TickPeriod ==> !Broadcasts(t)
    ensures WindowAt(tick + TickPeriod).previousOld == WindowAt(tick).currentOld
  {
    WindowNoUnderflow(tick);
    WindowNoUnderflow(tick + TickPeriod);
  }

  /** History is pruned below the late window's start, which no later broadcast's windows go below. */
  lemma PruneBelowLaterWindows(tick: U32Value, later: U32Value)
    requires Broadcasts(tick) && Broadcasts(later) && tick <= later
    ensures WindowAt(tick).previousOld <= WindowAt(later).previousOld
  {
    WindowNoUnderflow(tick);
    WindowNoUnderflow(later);
  }

  class GameServer {
    var tick: U32Value
    var lateState: GameState
    var gameState: GameState
    var events: EventLog
    const metadata: GameMetadata
    const chat: Chat
    /** `server_chat_name`, the sender name of the server's own chat lines (its value is not part of this model). */
    const serverChatName: string

    ghost predicate Valid()
      reads this, metadata
    {
      metadata.Valid() && metadata != chat as object
    }

    /** `GameServer()`: tick 0, the scene in the late state, an empty history. */
    constructor(nameLen: nat, serverChatName: string)
      requires nameLen >= 1
      ensures Valid() && fresh(metadata) && fresh(chat)
      ensures tick == 0 && events == map[] && gameState == EmptyState
      ensures lateState.players == map[] && lateState.world.newActorKey == 7
      ensures lateState.world.actors == SceneFrom(map[], 0, 7)
      ensures metadata.names == map[] && chat.messages == []
    {
      tick := 0;
      var late := InitGame(EmptyState);
      lateState := late;
      gameState := EmptyState;
      events := map[];
      metadata := new GameMetadata(nameLen);
      chat := new Chat();
      this.serverChatName := serverChatName;
    }

    /**
     * `GameServer::Update`. On a broadcast tick the late state absorbs the late
     * window, the broadcast state is the late state advanced to the broadcast
     * tick (leaving the late state as it is), it is sent tagged with that tick,
     * and history below the late window is pruned. Every 120 ticks the metadata
     * and the tick are sent. The tick then advances by one. A frame that does
     * not fit throws, and the remaining steps are skipped.
     */
    method Update(replay: Replay, encode: StateEncoder, encodeNames: NamesEncoder)
      returns (r: Result<seq<Packet>>)
      requires Valid()
      modifies this
      ensures Valid()
      ensures var w := WindowAt(old(tick));
              Broadcasts(old(tick)) ==>
                && lateState == replay(old(events), old(lateState), w.previousOld, w.currentOld)
                && gameState == replay(old(events), lateState, w.currentOld, w.current)
                && (Serialize(encode, gameState).Ok? ==>
                      && events == DropEventHistory(old(events), w.previousOld)
                      && (r.Ok? ==> |r.value| > 0
                                    && r.value[0] == StatePacket(Serialize(encode, gameState).value.(tick := w.current))))
                && (Serialize(encode, gameState).Err? ==>
                      r == Err(Serialize(encode, gameState).error) && tick == old(tick) && events == old(events))
      ensures !Broadcasts(old(tick)) ==>
                lateState == old(lateState) && gameState == old(gameState) && events == old(events)
      ensures r.Ok? ==> tick == AddU32(old(tick), 1)
      ensures r.Ok? ==> (|r.value| > 0 <==> Broadcasts(old(tick)) || (old(tick) % MetadataPeriod == 0 && old(tick) >= MaxLateness))
      ensures var stateOk := !Broadcasts(old(tick)) || Serialize(encode, gameState).Ok?;
              var meta := old(tick) % MetadataPeriod == 0 && old(tick) >= MaxLateness;
              var names := SerializeNames(encodeNames, metadata.names);
              && (stateOk && meta && names.Err? ==> r == Err(names.error) && tick == old(tick))
              && (stateOk && !(meta && names.Err?) ==> r.Ok?)
              && (r.Ok? ==>
                    r.value == (if Broadcasts(old(tick))
                                then [StatePacket(Serialize(encode, gameState).value.(tick := WindowAt(old(tick)).current))]
                                else [])
                               + (if meta then [MetadataPacket(names.value), TickPacket(old(tick))] else []))
    {
      var sent: seq<Packet> := [];
      if tick % TickPeriod == 0 && tick >= MaxLateness {
        var w := WindowAt(tick);
        lateState := replay(events, lateState, w.previousOld, w.currentOld);
        gameState := replay(events, lateState, w.currentOld, w.current);
        var data := Serialize(encode, gameState);
        if data.Err? {
          return Err(data.error);
        }
        sent := sent + [StatePacket(data.value.(tick := w.current))];
        events := DropEventHistory(events, w.previousOld);
      }
      if tick % MetadataPeriod == 0 && tick >= MaxLateness {
        var names := metadata.Serialize(encodeNames);
        if names.Err? {
          return Err(names.error);
        }
        sent := sent + [MetadataPacket(names.value), TickPacket(tick)];
      }
      tick := AddU32(tick, 1);
      r := Ok(sent);
    }

    /** `AddAndSyncChatMessage`: both strings are cut to their arrays, logged, and sent to everyone. */
    method AddAndSyncChatMessage(name: string, text: string) returns (sent: seq<Packet>)
      requires Valid()
      modifies chat
      ensures Valid()
      ensures var message := ChatMessage(Truncated(name, metadata.nameLen), Truncated(text, MaxStringLen));
              chat.messages == AfterAdd(old(chat.messages), message) && sent == [ChatPacket(message)]
    {
      var message := ChatMessage(Truncated(name, metadata.nameLen), Truncated(text, MaxStringLen));
      chat.AddMessage(message);
      sent := [ChatPacket(message)];
    }

    /**
     * `OnConnect`: a join is logged at the server's tick; the tick and the id
     * are sent to the new player, and the server's "Player joined" line to
     * everyone.
     */
    method OnConnect(id: nat) returns (sent: seq<Packet>)
      requires Valid()
      modifies this, chat
      ensures Valid()
      ensures events == AddEvent(old(events), GameEvent(EvPlayerJoin, NoData), id, old(tick))
      ensures tick == old(tick) && lateState == old(lateState) && gameState == old(gameState)
      ensures metadata.names == old(metadata.names)
      ensures var message := ChatMessage(Truncated(serverChatName, metadata.nameLen), "Player joined");
              && chat.messages == AfterAdd(old(chat.messages), message)
              && sent == [TickPacket(tick), PlayerIdPacket(id), ChatPacket(message)]
    {
      events := AddEvent(events, GameEvent(EvPlayerJoin, NoData), id, tick);
      var chatSent := AddAndSyncChatMessage(serverChatName, "Player joined");
      sent := [TickPacket(tick), PlayerIdPacket(id)] + chatSent;
    }

    /** `OnDisconnect`: a leave is logged at the server's tick; asking for the name may create an empty one. */
    method OnDisconnect(id: nat) returns (sent: seq<Packet>)
      requires Valid()
      modifies this, metadata, chat
      ensures Valid()
      ensures events == AddEvent(old(events), GameEvent(EvPlayerLeave, NoData), id, old(tick))
      ensures tick == old(tick) && lateState == old(lateState) && gameState == old(gameState)
      ensures metadata.names == if id in old(metadata.names) then old(metadata.names)
                                else old(metadata.names)[id := ""]
      ensures var name := if id in old(metadata.names) then old(metadata.names)[id] else "";
              var message := ChatMessage(Truncated(serverChatName, metadata.nameLen), Truncated(name + " left", MaxStringLen));
              && chat.messages == AfterAdd(old(chat.messages), message)
              && sent == [ChatPacket(message)]
    {
      events := AddEvent(events, GameEvent(EvPlayerLeave, NoData), id, tick);
      var name := metadata.GetPlayerName(id);
      sent := AddAndSyncChatMessage(serverChatName, name + " left");
    }

    /**
     * `OnReceive`: an input is logged at the tick the client reported; a chat
     * line is logged under the sender's name; a name change is stored and the
     * metadata sent.
     */
    method OnReceive(id: nat, message: ClientMessage, encodeNames: NamesEncoder)
      returns (r: Result<seq<Packet>>)
      requires Valid()
      modifies this, metadata, chat
      ensures Valid()
      ensures tick == old(tick) && lateState == old(lateState) && gameState == old(gameState)
      ensures message.InputMessage? ==>
                events == AddEvent(old(events), GameEvent(EvPlayerInput, InputData(message.input)), id, message.tick)
                && r == Ok([])
      ensures !message.InputMessage? ==> events == old(events)
      ensures message.InputMessage? ==>
                metadata.names == old(metadata.names) && chat.messages == old(chat.messages)
      ensures message.ChatText? ==>
                var name := if id in old(metadata.names) then old(metadata.names)[id] else "";
                var line := ChatMessage(name, Truncated(message.text, MaxStringLen));
                && metadata.names == (if id in old(metadata.names) then old(metadata.names) else old(metadata.names)[id := ""])
                && chat.messages == AfterAdd(old(chat.messages), line)
                && r == Ok([ChatPacket(line)])
      ensures message.NameChange? ==>
                && metadata.names == old(metadata.names)[id := Truncated(message.text, metadata.nameLen)]
                && chat.messages == old(chat.messages)
                && r == (var f := SerializeNames(encodeNames, metadata.names);
                         if f.Ok? then Ok([MetadataPacket(f.value)]) else Err(f.error))
    {
      match message
      case InputMessage(input, clientTick) =>
        events := AddEvent(events, GameEvent(EvPlayerInput, InputData(input)), id, clientTick);
        r := Ok([]);
      case ChatText(text) =>
        var name := metadata.GetPlayerName(id);
        var sent := AddAndSyncChatMessage(name, text);
        r := Ok(sent);
      case NameChange(text) =>
        metadata.SetPlayerName(id, text);
        var names := metadata.Serialize(encodeNames);
        if names.Err? {
          return Err(names.error);
        }
        r := Ok([MetadataPacket(names.value)]);
    }
  }
}
