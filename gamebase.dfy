/**
 * The event history `GameBase` keeps for `Game` (`AddEvent`, `ApplyEvents`,
 * `DropEventHistory`). Its source is not part of this model: the history is a
 * tick-indexed map of event buckets, and `ApplyEvents` is a parameter.
 */
module GameBase {
  import opened Games

  /** An event as logged: the player id it came from and the event. */
  datatype Logged = Logged(id: nat, event: GameEvent)

  /** The event buckets by tick. */
  type EventLog = map<nat, seq<Logged>>

  /** `ApplyEvents(state, from, to)` over a history: replays ticks `from` (inclusive) to `to` (exclusive). */
  type Replay = (EventLog, GameState, nat, nat) -> GameState

  /** `AddEvent(event, id, tick)`: the event joins the end of its tick's bucket; no other bucket changes. */
  function AddEvent(log: EventLog, event: GameEvent, id: nat, tick: nat): (r: EventLog)
    ensures r.Keys == log.Keys + {tick}
    ensures r[tick] == (if tick in log then log[tick] else []) + [Logged(id, event)]
    ensures forall t :: t in log && t != tick ==> r[t] == log[t]
  {
    log[tick := (if tick in log then log[tick] else []) + [Logged(id, event)]]
  }

  /** `DropEventHistory(tick)`: the buckets of earlier ticks go; the others stay as they are. */
  function DropEventHistory(log: EventLog, tick: nat): (r: EventLog)
    ensures forall t :: t in r <==> t in log && t >= tick
    ensures forall t :: t in r ==> r[t] == log[t]
  {
    map t | t in log && t >= tick :: log[t]
  }

  /** A history with no bucket before `tick`, such as one just pruned there. */
  predicate StartsAt(log: EventLog, tick: nat)
  {
    forall t :: t in log ==> t >= tick
  }

  /** Pruning leaves nothing before the threshold, and pruning again at or below it changes nothing. */
  lemma DropIdempotent(log: EventLog, tick: nat, lower: nat)
    requires lower <= tick
    ensures StartsAt(DropEventHistory(log, tick), tick)
    ensures DropEventHistory(DropEventHistory(log, tick), lower) == DropEventHistory(log, tick)
  {
  }
}
