/**
 * The actor store of a world: a key-to-actor map and the counter that hands out
 * new keys (src/World.hpp).
 */
module Worlds {
  import opened Wrappers
  import opened Actors

  /** `PlayerData`: the key of the actor a player controls, 0 unless set. */
  datatype Player = Player(actorKey: nat)

  const DefaultPlayer := Player(0)

  /** The result of `WorldData::AddActor(data)`: the new world and the key the actor went under. */
  datatype Added = Added(world: World, key: nat)

  /** `WorldData`: `new_actor_key` and the `actors` map. */
  datatype World = World(newActorKey: nat, actors: map<nat, Actor>)
  {
    /** `WorldData::ActorExists`. */
    predicate ActorExists(key: nat)
    {
      key in actors
    }

    /**
     * `WorldData::AddActor(key, data)`: `map::insert` does not overwrite, so an
     * actor already under `key` stays; either way the counter becomes `key + 1`,
     * even when that lowers it.
     */
    function AddActorAt(key: nat, data: Actor): (w: World)
      ensures w.newActorKey == key + 1
      ensures w.actors.Keys == actors.Keys + {key}
      ensures w.actors[key] == if key in actors then actors[key] else data
      ensures forall k :: k in actors && k != key ==> w.actors[k] == actors[k]
    {
      World(key + 1, if key in actors then actors else actors[key := data])
    }

    /**
     * `WorldData::AddActor(data)`: the actor goes under the current counter, which
     * is returned and then moves one up.
     */
    function AddActor(data: Actor): (r: Added)
      ensures r.key == newActorKey && r.world.newActorKey == newActorKey + 1
      ensures KeysBelowCounter() ==> r.world.actors == actors[r.key := data]
    {
      Added(AddActorAt(newActorKey, data), newActorKey)
    }

    /** `WorldData::RemoveActor`: erases that key only (nothing if absent); the counter stays. */
    function RemoveActor(key: nat): (w: World)
      ensures w.newActorKey == newActorKey
      ensures w.actors.Keys == actors.Keys - {key}
      ensures forall k :: k in w.actors ==> w.actors[k] == actors[k]
    {
      World(newActorKey, actors - {key})
    }

    /** `WorldData::GetActor`: the stored actor, or the "Actor doesn't exist" error. */
    function GetActor(key: nat): (r: Result<Actor>)
      ensures r.Ok? <==> ActorExists(key)
      ensures r.Ok? ==> r.value == actors[key]
      ensures r.Err? ==> r.error == "Actor doesn't exist"
    {
      if ActorExists(key) then Ok(actors[key]) else Err("Actor doesn't exist")
    }

    /** Every key in use is below the counter, so the counter's next key is free. */
    predicate KeysBelowCounter()
    {
      forall k :: k in actors ==> k < newActorKey
    }
  }

  /** A freshly constructed `WorldData`: counter 0, no actors. */
  const EmptyWorld := World(0, map[])

  /** The store operations that hand out keys automatically. */
  datatype StoreOp = AddOp(data: Actor) | RemoveOp(key: nat)

  function Apply(w: World, op: StoreOp): World
  {
    match op
    case AddOp(data) => w.AddActor(data).world
    case RemoveOp(key) => w.RemoveActor(key)
  }

  /** The world after `ops`, applied in order. */
  function Run(w: World, ops: seq<StoreOp>): World
    decreases |ops|
  {
    if ops == [] then w else Run(Apply(w, ops[0]), ops[1..])
  }

  /** The keys the `AddOp`s of `ops` are given, in order. */
  function AutoKeys(w: World, ops: seq<StoreOp>): seq<nat>
    decreases |ops|
  {
    if ops == [] then []
    else
      var rest := AutoKeys(Apply(w, ops[0]), ops[1..]);
      if ops[0].AddOp? then [w.newActorKey] + rest else rest
  }

  predicate Increasing(ks: seq<nat>)
  {
    forall i, j :: 0 <= i < j < |ks| ==> ks[i] < ks[j]
  }

  /**
   * Using only automatic adds and removes, every key stays below the counter, the
   * counter never goes down, and the keys handed out strictly increase (so none is
   * ever reused), all at or above the starting counter.
   */
  lemma {:induction false} AutoKeysNeverReused(w: World, ops: seq<StoreOp>)
    requires w.KeysBelowCounter()
    ensures Run(w, ops).KeysBelowCounter()
    ensures Run(w, ops).newActorKey >= w.newActorKey
    ensures Increasing(AutoKeys(w, ops))
    ensures forall i :: 0 <= i < |AutoKeys(w, ops)| ==>
              w.newActorKey <= AutoKeys(w, ops)[i] < Run(w, ops).newActorKey
    decreases |ops|
  {
    if ops != [] {
      var w1 := Apply(w, ops[0]);
      assert w1.KeysBelowCounter() && w1.newActorKey >= w.newActorKey;
      AutoKeysNeverReused(w1, ops[1..]);
      var rest := AutoKeys(w1, ops[1..]);
      if ops[0].AddOp? {
        assert w1.newActorKey == w.newActorKey + 1;
        assert AutoKeys(w, ops) == [w.newActorKey] + rest;
      }
    }
  }

  /** An automatic add never lands on a key in use, so it always stores the given actor. */
  lemma AutoKeyIsFree(w: World, data: Actor)
    requires w.KeysBelowCounter()
    ensures !w.ActorExists(w.AddActor(data).key)
    ensures w.AddActor(data).world.GetActor(w.AddActor(data).key) == Ok(data)
    ensures w.AddActor(data).world.KeysBelowCounter()
  {
  }

  /** An explicit add below the counter lowers it, after which the next automatic key may be taken. */
  lemma ExplicitAddCanLowerCounter(data: Actor, other: Actor)
    ensures var w := EmptyWorld.AddActor(data).world.AddActor(other).world.AddActorAt(0, other);
            w.newActorKey == 1 && w.ActorExists(1) && !w.KeysBelowCounter()
  {
  }

  /** `k` is the least key of `s`. */
  predicate IsLeast(k: nat, s: set<nat>)
  {
    k in s && forall y :: y in s ==> k <= y
  }

  /** A finite non-empty set of keys has a least element. */
  lemma {:induction false} HasLeast(s: set<nat>)
    requires s != {}
    ensures exists k :: IsLeast(k, s)
    decreases |s|
  {
    var x :| x in s;
    var rest := s - {x};
    if rest == {} {
      forall y | y in s ensures x <= y {
        assert y !in rest;
      }
      assert IsLeast(x, s);
    } else {
      HasLeast(rest);
      var k :| IsLeast(k, rest);
      var least := if x < k then x else k;
      forall y | y in s ensures least <= y {
        if y != x {
          assert y in rest;
        }
      }
      assert IsLeast(least, s);
    }
  }

  function LeastKey(s: set<nat>): (k: nat)
    requires s != {}
    ensures k in s && forall y :: y in s ==> k <= y
  {
    HasLeast(s);
    var k :| IsLeast(k, s);
    k
  }

  /** The keys of a `std::map` in its iteration order: ascending. */
  function SortedKeys(s: set<nat>): (ks: seq<nat>)
    ensures Increasing(ks)
    ensures forall k :: k in ks <==> k in s
    decreases s
  {
    if s == {} then []
    else
      var k := LeastKey(s);
      [k] + SortedKeys(s - {k})
  }
}
