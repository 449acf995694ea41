/**
 * The client (src/GameClient.hpp): it predicts its own player one tick at a
 * time from its logged inputs, keeps the last two snapshots from the server,
 * and interpolates everything else between them. Sending, the chat and name
 * widgets, the window and the cursor are not modelled.
 */
module Client {
  import opened Wrappers
  import opened RayMath
  import opened Games
  import opened GameBase
  import opened Framing
  import opened Metadata
  import opened Chats
  import Server

  /**
   * `CalculateTickWinthPing`: half the round trip in whole seconds (integer
   * division of the millisecond count), turned into ticks and added in
   * `uint32_t` arithmetic.
   */
  function TickWithPing(tick: U32Value, rtt: U32Value): (r: U32Value)
    ensures rtt < 2000 ==> r == tick
    ensures r == AddU32(tick, ItersPerSec * (rtt / 2000))
  {
    AddU32(tick, ItersPerSec * (rtt / 2 / 1000))
  }

  /** A full second of bias is added for each complete 2000 ms of round trip, and nothing below that. */
  lemma PingBiasSteps(rtt: U32Value, k: nat)
    requires 2000 * k <= rtt < 2000 * (k + 1)
    ensures ItersPerSec * (rtt / 2 / 1000) == 60 * k
  {
    assert rtt / 2 / 1000 == rtt / 2000;
  }

  /**
   * The alpha `Update` hands to `Lerp`: the ticks since the last snapshot over
   * the span between the last two. When the span is 0, the float division
   * gives infinity (ticks since > 0) or NaN (0), which `Lerp`'s `fmin`/`fmax`
   * turn into 1 and 0; the model returns those values directly.
   */
  function Alpha(ticksSince: nat, span: nat): (r: real)
    ensures r >= 0.0
    ensures span > 0 && ticksSince >= span ==> r >= 1.0
    ensures span > 0 && ticksSince <= span ==> LerpAlpha(r) == r
    ensures span == 0 ==> r == if ticksSince > 0 then 1.0 else 0.0
  {
    if span != 0 then ticksSince as real / span as real
    else if ticksSince > 0 then 1.0 else 0.0
  }

  /**
   * Once as many ticks have passed as separated the last two snapshots, every
   * interpolated actor has reached its position in the last one; right after a
   * snapshot arrives, it sits at its position in the one before.
   */
  lemma InterpolationReachesLast(prev: GameState, last: GameState, ticksSince: nat, span: nat,
                                  except: nat, k: nat)
    requires k in last.world.actors && span > 0
    ensures ticksSince >= span ==>
              Lerped(prev, last, Alpha(ticksSince, span), except).world.actors[k].body.position
                == last.world.actors[k].body.position
    ensures ticksSince == 0 && k in prev.world.actors && k != except ==>
              Lerped(prev, last, Alpha(ticksSince, span), except).world.actors[k].body.position
                == prev.world.actors[k].body.position
  {
    LerpSpec(prev, last, Alpha(ticksSince, span), except, k);
  }

  /**
   * Below `max_lateness` the client's pruning threshold wraps to near 2^32, so
   * every bucket of a history whose ticks are far from that bound is dropped.
   */
  lemma EarlySnapshotDropsAll(log: EventLog, stateTick: U32Value)
    requires stateTick < Server.MaxLateness
    requires forall t :: t in log ==> t < U32 - Server.MaxLateness
    ensures DropEventHistory(log, SubU32(stateTick, Server.MaxLateness)) == map[]
  {
  }

  /** From `max_lateness` on, the client prunes exactly below the snapshot tick minus 63. */
  lemma LateSnapshotDropsBelow(log: EventLog, stateTick: U32Value, t: nat)
    requires stateTick >= Server.MaxLateness
    ensures (t in DropEventHistory(log, SubU32(stateTick, Server.MaxLateness)))
              == (t in log && t + Server.MaxLateness >= stateTick)
  {
  }

  class GameClient {
    var tick: U32Value
    var id: U32Value
    var ticksSince: U32Value
    var last: GameState
    var lastTick: U32Value
    var prev: GameState
    var prevTick: U32Value
    var others: GameState
    var self: GameState
    var events: EventLog
    var chatEntering: bool
    const metadata: GameMetadata
    const chat: Chat

    /** `GameClient()`: both working states hold the scene; the snapshots are empty; every counter is 0. */
    constructor(nameLen: nat)
      requires nameLen >= 1
      ensures fresh(metadata) && fresh(chat) && metadata.names == map[] && chat.messages == []
      ensures tick == 0 && id == 0 && ticksSince == 0 && lastTick == 0 && prevTick == 0
      ensures last == EmptyState && prev == EmptyState && events == map[] && !chatEntering
      ensures self.world.actors == SceneFrom(map[], 0, 7) && self.world.newActorKey == 7
      ensures others == self
    {
      tick, id, ticksSince, lastTick, prevTick := 0, 0, 0, 0, 0;
      last, prev := EmptyState, EmptyState;
      var scene := InitGame(EmptyState);
      self := scene;
      scene := InitGame(EmptyState);
      others := scene;
      events := map[];
      chatEntering := false;
      metadata := new GameMetadata(nameLen);
      chat := new Chat();
    }

    /** `ToggleChat`: the chat flag flips, whichever way it was. */
    method ToggleChat()
      modifies this
      ensures chatEntering == !old(chatEntering)
      ensures tick == old(tick) && id == old(id) && ticksSince == old(ticksSince)
      ensures events == old(events) && self == old(self) && others == old(others)
      ensures last == old(last) && lastTick == old(lastTick) && prev == old(prev) && prevTick == old(prevTick)
    {
      chatEntering := !chatEntering;
    }

    /**
     * `GameClient::Update`. The chat flag toggles first; a non-empty input is
     * logged at the current tick only while the chat is closed; the own state
     * is advanced over the one tick `[tick, tick + 1)`; the others are
     * interpolated between the last two snapshots (with the one key the
     * `Lerp` cast reads as excepted); then both counters move up by one.
     */
    method Update(m: Maths, input: GameInput, replay: Replay, exceptKey: nat)
      modifies this
      ensures chatEntering == (old(chatEntering) != input.ui.toggleChat)
      ensures events == if !input.player.IsEmpty(m) && !chatEntering
                        then AddEvent(old(events), GameEvent(EvPlayerInput, InputData(input.player)), id, old(tick))
                        else old(events)
      ensures self == replay(events, old(self), old(tick), AddU32(old(tick), 1))
      ensures others == Lerped(prev, last, Alpha(old(ticksSince), SubU32(lastTick, prevTick)), exceptKey)
      ensures tick == AddU32(old(tick), 1) && ticksSince == AddU32(old(ticksSince), 1)
      ensures id == old(id) && last == old(last) && prev == old(prev)
      ensures lastTick == old(lastTick) && prevTick == old(prevTick)
    {
      if input.ui.toggleChat {
        ToggleChat();
      }
      RecordInput(m, input.player);
      Advance(replay, exceptKey);
    }

    /** The input step of `GameClient::Update`: a non-empty input is logged at the current tick unless the chat is open. */
    method RecordInput(m: Maths, input: PlayerInput)
      modifies this
      ensures events == if !input.IsEmpty(m) && !chatEntering
                        then AddEvent(old(events), GameEvent(EvPlayerInput, InputData(input)), id, tick)
                        else old(events)
      ensures chatEntering == old(chatEntering) && tick == old(tick) && id == old(id) && ticksSince == old(ticksSince)
      ensures self == old(self) && others == old(others)
      ensures last == old(last) && lastTick == old(lastTick) && prev == old(prev) && prevTick == old(prevTick)
    {
      if !input.IsEmpty(m) && !chatEntering {
        events := AddEvent(events, GameEvent(EvPlayerInput, InputData(input)), id, tick);
      }
    }

    /**
     * The simulation step of `GameClient::Update`: the own state is advanced
     * over one tick, the others are interpolated, and both counters move up.
     */
    method Advance(replay: Replay, exceptKey: nat)
      modifies this
      ensures self == replay(events, old(self), old(tick), AddU32(old(tick), 1))
      ensures others == Lerped(prev, last, Alpha(old(ticksSince), SubU32(lastTick, prevTick)), exceptKey)
      ensures tick == AddU32(old(tick), 1) && ticksSince == AddU32(old(ticksSince), 1)
      ensures chatEntering == old(chatEntering) && events == old(events) && id == old(id)
      ensures last == old(last) && lastTick == old(lastTick) && prev == old(prev) && prevTick == old(prevTick)
    {
      self := replay(events, self, tick, AddU32(tick, 1));
      var alpha := Alpha(ticksSince, SubU32(lastTick, prevTick));
      others := Lerp(prev, last, alpha, exceptKey);
      tick := AddU32(tick, 1);
      ticksSince := AddU32(ticksSince, 1);
    }

    /**
     * `GameClient::OnReceive`. A tick message resets the tick, biased by the
     * round trip; an id message sets the id; a snapshot shifts last into prev,
     * re-predicts the own state from the snapshot up to the tick before the
     * current one, prunes history below the snapshot tick minus 63 (in
     * `uint32_t`), and becomes last; a chat line joins the chat; metadata
     * replaces the names.
     */
    method OnReceive(packet: Server.Packet, rtt: U32Value, replay: Replay, decode: StateDecoder,
                     decodeNames: NamesDecoder)
      requires packet.TickPacket? ==> packet.tick < U32
      requires packet.PlayerIdPacket? ==> packet.id < U32
      requires packet.StatePacket? ==> packet.frame.tick < U32 && WellSized(packet.frame)
      requires packet.MetadataPacket? ==> WellSized(packet.frame)
      modifies this, metadata, chat
      ensures packet.TickPacket? ==> tick == TickWithPing(packet.tick, rtt)
      ensures !packet.TickPacket? ==> tick == old(tick)
      ensures id == if packet.PlayerIdPacket? then packet.id else old(id)
      ensures packet.StatePacket? ==>
                var received := Deserialize(decode, packet.frame);
                && ticksSince == 0
                && prev == old(last) && prevTick == old(lastTick)
                && last == received && lastTick == packet.frame.tick
                && self == replay(old(events), received, packet.frame.tick, SubU32(old(tick), 1))
                && events == DropEventHistory(old(events), SubU32(packet.frame.tick, Server.MaxLateness))
      ensures !packet.StatePacket? ==>
                && ticksSince == old(ticksSince) && prev == old(prev) && prevTick == old(prevTick)
                && last == old(last) && lastTick == old(lastTick)
                && self == old(self) && events == old(events)
      ensures chat.messages == if packet.ChatPacket? then AfterAdd(old(chat.messages), packet.message)
                               else old(chat.messages)
      ensures metadata.names == if packet.MetadataPacket? then decodeNames(Payload(packet.frame))
                                else old(metadata.names)
      ensures others == old(others) && chatEntering == old(chatEntering)
    {
      match packet
      case TickPacket(t) =>
        tick := TickWithPing(t, rtt);
      case PlayerIdPacket(i) =>
        id := i;
      case StatePacket(frame) =>
        ticksSince := 0;
        prev := last;
        prevTick := lastTick;
        var received := Deserialize(decode, frame);
        self := replay(events, received, frame.tick, SubU32(tick, 1));
        events := DropEventHistory(events, SubU32(frame.tick, Server.MaxLateness));
        last := received;
        lastTick := frame.tick;
      case ChatPacket(message) =>
        chat.AddMessage(message);
      case MetadataPacket(frame) =>
        metadata.Deserialize(frame, decodeNames);
    }
  }
}
