/**
 * One simulation step of a world (src/World.cpp): ten equal substeps, each of
 * which detects all touching pairs of actors, resolves them in order, lets the
 * terrain push every body, and integrates every actor once.
 */
module WorldUpdate {
  import opened RayMath
  import opened Physics
  import opened Actors
  import opened Worlds

  /** `phys_iters`: substeps per update. */
  const PhysIters: nat := 10

  /** `SolveCollision(body1, body2, contact)`: its definition is not part of this model. */
  type Solver = (Body, Body, CollisionResult) -> (Body, Body)

  /** The heightmap's `SolveCollisionWith(body)`: its definition is not part of this model. */
  type TerrainSolver = Body -> Body

  type ActorMap = map<nat, Actor>

  type Pair = (nat, nat)

  /** Every position of `ks` names an actor. */
  predicate KeysIn(ks: seq<nat>, actors: ActorMap)
  {
    forall p :: 0 <= p < |ks| ==> ks[p] in actors
  }

  /** Both keys of every pair name an actor. */
  predicate PairsIn(pairs: seq<Pair>, actors: ActorMap)
  {
    forall n :: 0 <= n < |pairs| ==> pairs[n].0 in actors && pairs[n].1 in actors
  }

  /** A test on a pair of bodies. */
  type BodyTest = (Body, Body) -> bool

  /** The detection test: the deepest contact of the two bodies has positive penetration. */
  function ContactTest(m: Maths): (t: BodyTest)
    ensures forall b1, b2 :: t(b1, b2) <==> DeepestContact(m, b1, b2).penetration > 0.0
  {
    (b1, b2) => DeepestContact(m, b1, b2).penetration > 0.0
  }

  predicate InContact(t: BodyTest, actors: ActorMap, k1: nat, k2: nat)
    requires k1 in actors && k2 in actors
  {
    t(actors[k1].body, actors[k2].body)
  }

  /***** Detection *****/

  /** The pairs the inner loop records for outer position `i` while visiting positions i+1 .. j-1. */
  function RowPairs(t: BodyTest, actors: ActorMap, ks: seq<nat>, i: nat, j: nat): seq<Pair>
    requires i < |ks| && j <= |ks| && KeysIn(ks, actors)
    decreases j
  {
    if j <= i + 1 then []
    else
      RowPairs(t, actors, ks, i, j - 1)
      + (if InContact(t, actors, ks[i], ks[j - 1]) then [(ks[i], ks[j - 1])] else [])
  }

  /** The pairs recorded once the outer loop has visited positions 0 .. i-1. */
  function Detected(t: BodyTest, actors: ActorMap, ks: seq<nat>, i: nat): seq<Pair>
    requires i <= |ks| && KeysIn(ks, actors)
  {
    if i == 0 then [] else Detected(t, actors, ks, i - 1) + RowPairs(t, actors, ks, i - 1, |ks|)
  }

  /** Every pair in map order, kept when `t` holds for it. */
  function DetectWith(t: BodyTest, actors: ActorMap): seq<Pair>
  {
    var ks := SortedKeys(actors.Keys);
    Detected(t, actors, ks, |ks|)
  }

  /** The `collisions` vector of one substep. */
  function Detect(m: Maths, actors: ActorMap): seq<Pair>
  {
    DetectWith(ContactTest(m), actors)
  }

  /** `p` comes before `q` in the order the two nested loops visit pairs. */
  predicate PairBefore(p: Pair, q: Pair)
  {
    p.0 < q.0 || (p.0 == q.0 && p.1 < q.1)
  }

  predicate PairsIncreasing(pairs: seq<Pair>)
  {
    forall a, b :: 0 <= a < b < |pairs| ==> PairBefore(pairs[a], pairs[b])
  }

  /** `p` is the pair of keys at positions a < b of `ks`, and those two actors touch. */
  predicate FoundAt(t: BodyTest, actors: ActorMap, ks: seq<nat>, p: Pair, a: int, b: int)
    requires KeysIn(ks, actors)
  {
    0 <= a < b < |ks| && p == (ks[a], ks[b]) && InContact(t, actors, ks[a], ks[b])
  }

  lemma {:induction false} RowPairsMember(t: BodyTest, actors: ActorMap, ks: seq<nat>, i: nat, j: nat, p: Pair)
    requires i < |ks| && j <= |ks| && KeysIn(ks, actors)
    ensures p in RowPairs(t, actors, ks, i, j) <==> exists b :: b < j && FoundAt(t, actors, ks, p, i, b)
    decreases j
  {
    if j > i + 1 {
      RowPairsMember(t, actors, ks, i, j - 1, p);
      var prev := RowPairs(t, actors, ks, i, j - 1);
      var last := if InContact(t, actors, ks[i], ks[j - 1]) then [(ks[i], ks[j - 1])] else [];
      assert RowPairs(t, actors, ks, i, j) == prev + last;
      if p in prev {
        var b :| b < j - 1 && FoundAt(t, actors, ks, p, i, b);
        assert b < j && FoundAt(t, actors, ks, p, i, b);
      } else if p in last {
        assert FoundAt(t, actors, ks, p, i, j - 1);
      }
      if exists b :: b < j && FoundAt(t, actors, ks, p, i, b) {
        var b :| b < j && FoundAt(t, actors, ks, p, i, b);
        if b < j - 1 {
          assert p in prev;
        } else {
          assert p in last;
        }
      }
    }
  }

  lemma {:induction false} RowPairsOrdered(t: BodyTest, actors: ActorMap, ks: seq<nat>, i: nat, j: nat)
    requires i < |ks| && j <= |ks| && KeysIn(ks, actors) && Increasing(ks)
    ensures PairsIncreasing(RowPairs(t, actors, ks, i, j))
    decreases j
  {
    if j > i + 1 {
      RowPairsOrdered(t, actors, ks, i, j - 1);
      var prev := RowPairs(t, actors, ks, i, j - 1);
      forall p | p in prev ensures p.0 == ks[i] && p.1 < ks[j - 1] {
        RowPairsMember(t, actors, ks, i, j - 1, p);
        var b :| b < j - 1 && FoundAt(t, actors, ks, p, i, b);
      }
    }
  }

  lemma {:induction false} DetectedMember(t: BodyTest, actors: ActorMap, ks: seq<nat>, i: nat, p: Pair)
    requires i <= |ks| && KeysIn(ks, actors)
    ensures p in Detected(t, actors, ks, i) <==>
              exists a, b :: a < i && FoundAt(t, actors, ks, p, a, b)
  {
    if i > 0 {
      DetectedMember(t, actors, ks, i - 1, p);
      RowPairsMember(t, actors, ks, i - 1, |ks|, p);
      var front, row := Detected(t, actors, ks, i - 1), RowPairs(t, actors, ks, i - 1, |ks|);
      assert Detected(t, actors, ks, i) == front + row;
      if p in front {
        var a, b :| a < i - 1 && FoundAt(t, actors, ks, p, a, b);
        assert a < i && FoundAt(t, actors, ks, p, a, b);
      } else if p in row {
        var b :| b < |ks| && FoundAt(t, actors, ks, p, i - 1, b);
        assert FoundAt(t, actors, ks, p, i - 1, b);
      }
      if exists a, b :: a < i && FoundAt(t, actors, ks, p, a, b) {
        var a, b :| a < i && FoundAt(t, actors, ks, p, a, b);
        if a < i - 1 {
          assert p in front;
        } else {
          assert b < |ks| && FoundAt(t, actors, ks, p, i - 1, b);
          assert p in row;
        }
      }
    }
  }

  lemma {:induction false} DetectedOrdered(t: BodyTest, actors: ActorMap, ks: seq<nat>, i: nat)
    requires i <= |ks| && KeysIn(ks, actors) && Increasing(ks)
    ensures PairsIncreasing(Detected(t, actors, ks, i))
  {
    if i > 0 {
      DetectedOrdered(t, actors, ks, i - 1);
      RowPairsOrdered(t, actors, ks, i - 1, |ks|);
      var front, row := Detected(t, actors, ks, i - 1), RowPairs(t, actors, ks, i - 1, |ks|);
      forall p | p in front ensures p.0 < ks[i - 1] {
        DetectedMember(t, actors, ks, i - 1, p);
        var a, b :| a < i - 1 && FoundAt(t, actors, ks, p, a, b);
      }
      forall p | p in row ensures p.0 == ks[i - 1] {
        RowPairsMember(t, actors, ks, i - 1, |ks|, p);
      }
      PairsIncreasingAppend(front, row, ks[i - 1]);
    }
  }

  /** Pairs whose first keys are below `k`, followed by increasing pairs starting at `k`, stay increasing. */
  lemma PairsIncreasingAppend(front: seq<Pair>, row: seq<Pair>, k: nat)
    requires PairsIncreasing(front) && PairsIncreasing(row)
    requires forall p :: p in front ==> p.0 < k
    requires forall p :: p in row ==> p.0 == k
    ensures PairsIncreasing(front + row)
  {
    var all := front + row;
    forall a, b | 0 <= a < b < |all| ensures PairBefore(all[a], all[b]) {
      if b < |front| {
        assert all[a] == front[a] && all[b] == front[b];
      } else if a >= |front| {
        assert all[a] == row[a - |front|] && all[b] == row[b - |front|];
      } else {
        assert all[a] == front[a] && all[a] in front;
        assert all[b] == row[b - |front|] && all[b] in row;
      }
    }
  }

  /** The map's keys in iteration order name actors and are distinct. */
  lemma SortedKeysOf(actors: ActorMap)
    ensures KeysIn(SortedKeys(actors.Keys), actors) && Increasing(SortedKeys(actors.Keys))
    ensures forall k :: k in actors <==> k in SortedKeys(actors.Keys)
  {
    var ks := SortedKeys(actors.Keys);
    forall p | 0 <= p < |ks| ensures ks[p] in actors {
      assert ks[p] in ks;
    }
  }

  /** A pair is detected exactly when both keys name actors, the first is smaller, and they touch. */
  lemma DetectMember(t: BodyTest, actors: ActorMap, p: Pair)
    ensures p in DetectWith(t, actors) <==>
              p.0 in actors && p.1 in actors && p.0 < p.1 && InContact(t, actors, p.0, p.1)
  {
    var ks := SortedKeys(actors.Keys);
    SortedKeysOf(actors);
    DetectedMember(t, actors, ks, |ks|, p);
    if p in DetectWith(t, actors) {
      var a, b :| a < |ks| && FoundAt(t, actors, ks, p, a, b);
    }
    if p.0 in actors && p.1 in actors && p.0 < p.1 && InContact(t, actors, p.0, p.1) {
      FoundInKeys(t, actors, ks, p);
    }
  }

  /** Two touching keys of an increasing key list, smaller first, sit at increasing positions. */
  lemma FoundInKeys(t: BodyTest, actors: ActorMap, ks: seq<nat>, p: Pair)
    requires KeysIn(ks, actors) && Increasing(ks)
    requires p.0 in ks && p.1 in ks && p.0 < p.1 && InContact(t, actors, p.0, p.1)
    ensures exists a, b :: a < |ks| && FoundAt(t, actors, ks, p, a, b)
  {
    var a :| 0 <= a < |ks| && ks[a] == p.0;
    var b :| 0 <= b < |ks| && ks[b] == p.1;
    assert FoundAt(t, actors, ks, p, a, b);
  }

  /**
   * Each substep examines every unordered pair of distinct actors once, smaller key
   * first, and keeps exactly those in contact, in the nested loops' order (so no
   * pair is recorded twice).
   */
  lemma DetectFindsTouchingPairs(m: Maths, actors: ActorMap)
    ensures forall p :: p in Detect(m, actors) <==>
              && p.0 in actors && p.1 in actors && p.0 < p.1
              && DeepestContact(m, actors[p.0].body, actors[p.1].body).penetration > 0.0
    ensures PairsIncreasing(Detect(m, actors))
    ensures PairsIn(Detect(m, actors), actors)
  {
    var t := ContactTest(m);
    var ks := SortedKeys(actors.Keys);
    SortedKeysOf(actors);
    DetectedOrdered(t, actors, ks, |ks|);
    forall p: Pair ensures p in Detect(m, actors) <==>
              && p.0 in actors && p.1 in actors && p.0 < p.1
              && DeepestContact(m, actors[p.0].body, actors[p.1].body).penetration > 0.0
    {
      DetectMember(t, actors, p);
    }
    var ps := Detect(m, actors);
    forall n | 0 <= n < |ps| ensures ps[n].0 in actors && ps[n].1 in actors {
      DetectMember(t, actors, ps[n]);
    }
  }

  /** The inner detection loop of `WorldData::Update`: actor `ks[i]` against each later one. */
  method DetectRow(m: Maths, actors: ActorMap, ks: seq<nat>, i: nat) returns (row: seq<Pair>)
    requires i < |ks| && KeysIn(ks, actors)
    ensures row == RowPairs(ContactTest(m), actors, ks, i, |ks|)
  {
    ghost var t := ContactTest(m);
    row := [];
    var j := i + 1;
    while j < |ks|
      invariant i + 1 <= j <= |ks|
      invariant row == RowPairs(t, actors, ks, i, j)
    {
      var contact := CollideWith(m, actors[ks[i]].body, actors[ks[j]].body);
      assert InContact(t, actors, ks[i], ks[j]) == (contact.penetration > 0.0);
      if contact.penetration > 0.0 {
        row := row + [(ks[i], ks[j])];
      }
      j := j + 1;
    }
  }

  /** The detection loops of `WorldData::Update`, over the actors in key order. */
  method DetectPairs(m: Maths, actors: ActorMap) returns (collisions: seq<Pair>)
    ensures collisions == Detect(m, actors)
  {
    var ks := SortedKeys(actors.Keys);
    SortedKeysOf(actors);
    collisions := DetectOver(m, actors, ks);
  }

  /** The outer detection loop over the keys `ks`. */
  method DetectOver(m: Maths, actors: ActorMap, ks: seq<nat>) returns (collisions: seq<Pair>)
    requires KeysIn(ks, actors)
    ensures collisions == Detected(ContactTest(m), actors, ks, |ks|)
  {
    collisions := [];
    var i := 0;
    while i < |ks|
      invariant 0 <= i <= |ks|
      invariant collisions == Detected(ContactTest(m), actors, ks, i)
    {
      var row := DetectRow(m, actors, ks, i);
      collisions := collisions + row;
      i := i + 1;
    }
  }

  /***** Resolution *****/

  /**
   * One `SolveCollision` call: the contact is recomputed from the bodies as they are
   * now, and the two solved bodies replace the old ones.
   */
  function ResolveOne(m: Maths, solve: Solver, actors: ActorMap, pair: Pair): (r: ActorMap)
    requires pair.0 in actors && pair.1 in actors
    ensures r.Keys == actors.Keys
  {
    var a1, a2 := actors[pair.0], actors[pair.1];
    var solved := solve(a1.body, a2.body, DeepestContact(m, a1.body, a2.body));
    actors[pair.0 := a1.(body := solved.0)][pair.1 := a2.(body := solved.1)]
  }

  /** The pairs resolved in order, each against the bodies the earlier ones left. */
  function ResolveAll(m: Maths, solve: Solver, actors: ActorMap, pairs: seq<Pair>): (r: ActorMap)
    requires PairsIn(pairs, actors)
    ensures r.Keys == actors.Keys
    decreases |pairs|
  {
    if pairs == [] then actors
    else
      var n := |pairs| - 1;
      var before := ResolveAll(m, solve, actors, pairs[..n]);
      ResolveOne(m, solve, before, pairs[n])
  }

  /** Resolution changes only the actors named in some pair, and only their bodies. */
  lemma {:induction false} ResolveTouchesOnlyPairs(m: Maths, solve: Solver, actors: ActorMap,
                                                  pairs: seq<Pair>, k: nat)
    requires PairsIn(pairs, actors) && k in actors
    ensures (forall n :: 0 <= n < |pairs| ==> pairs[n].0 != k && pairs[n].1 != k)
              ==> ResolveAll(m, solve, actors, pairs)[k] == actors[k]
    ensures ResolveAll(m, solve, actors, pairs)[k].(body := actors[k].body) == actors[k]
    decreases |pairs|
  {
    if pairs != [] {
      var n := |pairs| - 1;
      assert PairsIn(pairs[..n], actors);
      ResolveTouchesOnlyPairs(m, solve, actors, pairs[..n], k);
    }
  }

  /** The resolution loop of `WorldData::Update`. */
  method ResolvePairs(m: Maths, solve: Solver, actors: ActorMap, collisions: seq<Pair>)
    returns (r: ActorMap)
    requires PairsIn(collisions, actors)
    ensures r == ResolveAll(m, solve, actors, collisions)
  {
    r := actors;
    var n := 0;
    while n < |collisions|
      invariant 0 <= n <= |collisions|
      invariant PairsIn(collisions[..n], actors)
      invariant r == ResolveAll(m, solve, actors, collisions[..n])
    {
      var (k1, k2) := collisions[n];
      var b1, b2 := r[k1].body, r[k2].body;
      var contact := CollideWith(m, b1, b2);
      var solved := solve(b1, b2, contact);
      r := r[k1 := r[k1].(body := solved.0)][k2 := r[k2].(body := solved.1)];
      assert collisions[..n + 1][..n] == collisions[..n];
      n := n + 1;
    }
    assert collisions[..n] == collisions;
  }

  /***** Terrain and integration *****/

  /** Every actor's body after the terrain has pushed it. */
  function Grounded(terrain: TerrainSolver, actors: ActorMap): (r: ActorMap)
    ensures r.Keys == actors.Keys
  {
    map k | k in actors :: actors[k].(body := terrain(actors[k].body))
  }

  /** Every actor stepped once by `ActorData::Update(dt)`. */
  function SteppedAll(actors: ActorMap, dt: real): (r: ActorMap)
    ensures r.Keys == actors.Keys
  {
    map k | k in actors :: Stepped(actors[k], dt)
  }

  /** The terrain loop of `WorldData::Update`. */
  method SolveTerrain(terrain: TerrainSolver, actors: ActorMap) returns (r: ActorMap)
    ensures r == Grounded(terrain, actors)
  {
    var ks := SortedKeys(actors.Keys);
    SortedKeysOf(actors);
    r := GroundEach(terrain, actors, ks);
  }

  /** The terrain loop over the distinct keys `ks`: exactly those actors are pushed. */
  method GroundEach(terrain: TerrainSolver, actors: ActorMap, ks: seq<nat>) returns (r: ActorMap)
    requires KeysIn(ks, actors) && Increasing(ks)
    ensures r.Keys == actors.Keys
    ensures forall k :: k in actors ==>
              r[k] == if k in ks then actors[k].(body := terrain(actors[k].body)) else actors[k]
  {
    r := actors;
    var t := 0;
    while t < |ks|
      invariant 0 <= t <= |ks|
      invariant r.Keys == actors.Keys
      invariant forall k :: k in actors ==>
                  r[k] == if k in ks[..t] then actors[k].(body := terrain(actors[k].body)) else actors[k]
    {
      var k := ks[t];
      assert k !in ks[..t];
      r := r[k := r[k].(body := terrain(r[k].body))];
      assert ks[..t + 1] == ks[..t] + [k];
      t := t + 1;
    }
    assert ks[..t] == ks;
  }

  /** The integration loop of `WorldData::Update`. */
  method StepActors(actors: ActorMap, dt: real) returns (r: ActorMap)
    ensures r == SteppedAll(actors, dt)
  {
    var ks := SortedKeys(actors.Keys);
    SortedKeysOf(actors);
    r := StepEach(actors, dt, ks);
  }

  /** The integration loop over the distinct keys `ks`: exactly those actors are stepped. */
  method StepEach(actors: ActorMap, dt: real, ks: seq<nat>) returns (r: ActorMap)
    requires KeysIn(ks, actors) && Increasing(ks)
    ensures r.Keys == actors.Keys
    ensures forall k :: k in actors ==> r[k] == if k in ks then Stepped(actors[k], dt) else actors[k]
  {
    r := actors;
    var t := 0;
    while t < |ks|
      invariant 0 <= t <= |ks|
      invariant r.Keys == actors.Keys
      invariant forall k :: k in actors ==>
                  r[k] == if k in ks[..t] then Stepped(actors[k], dt) else actors[k]
    {
      var k := ks[t];
      assert k !in ks[..t];
      var a := Actors.Update(r[k], dt);
      r := r[k := a];
      assert ks[..t + 1] == ks[..t] + [k];
      t := t + 1;
    }
    assert ks[..t] == ks;
  }

  /***** The update *****/

  /** One substep: detect, resolve, terrain, integrate. */
  function Substep(m: Maths, solve: Solver, terrain: TerrainSolver, actors: ActorMap, dt: real): (r: ActorMap)
    ensures r.Keys == actors.Keys
  {
    DetectFindsTouchingPairs(m, actors);
    SteppedAll(Grounded(terrain, ResolveAll(m, solve, actors, Detect(m, actors))), dt)
  }

  /** The world after `n` substeps of length `subDt`; the key counter is never touched. */
  function Simulated(m: Maths, solve: Solver, terrain: TerrainSolver, w: World, subDt: real, n: nat)
    : (r: World)
    ensures r.newActorKey == w.newActorKey && r.actors.Keys == w.actors.Keys
  {
    if n == 0 then w
    else
      var before := Simulated(m, solve, terrain, w, subDt, n - 1);
      before.(actors := Substep(m, solve, terrain, before.actors, subDt))
  }

  /** After a substep every actor has spent its acceleration and carries its shapes. */
  lemma SubstepSettles(m: Maths, solve: Solver, terrain: TerrainSolver, actors: ActorMap, dt: real)
    ensures forall k :: k in actors ==>
              Substep(m, solve, terrain, actors, dt)[k].body.acceleration == Zero
              && ShapesSynced(Substep(m, solve, terrain, actors, dt)[k].body)
  {
    DetectFindsTouchingPairs(m, actors);
    var grounded := Grounded(terrain, ResolveAll(m, solve, actors, Detect(m, actors)));
    forall k | k in actors
      ensures Substep(m, solve, terrain, actors, dt)[k].body.acceleration == Zero
      ensures ShapesSynced(Substep(m, solve, terrain, actors, dt)[k].body)
    {
      IntegratedMotion(Driven(grounded[k].body), dt);
    }
  }

  /**
   * `WorldData::Update(dt)`: ten substeps of `dt / 10`; no actor is added or removed,
   * the key counter is unchanged, and every actor ends with zero acceleration and its
   * shapes on its position.
   */
  method Update(m: Maths, w: World, dt: real, solve: Solver, terrain: TerrainSolver)
    returns (r: World)
    ensures r == Simulated(m, solve, terrain, w, dt / PhysIters as real, PhysIters)
    ensures r.newActorKey == w.newActorKey && r.actors.Keys == w.actors.Keys
    ensures forall k :: k in r.actors ==>
              r.actors[k].body.acceleration == Zero && ShapesSynced(r.actors[k].body)
  {
    r := Substeps(m, solve, terrain, w, dt / PhysIters as real, PhysIters);
  }

  /** The substep loop of `WorldData::Update`, run `n` times. */
  method Substeps(m: Maths, solve: Solver, terrain: TerrainSolver, w: World, subDt: real, n: nat)
    returns (r: World)
    ensures r == Simulated(m, solve, terrain, w, subDt, n)
    ensures n > 0 ==> forall k :: k in r.actors ==>
              r.actors[k].body.acceleration == Zero && ShapesSynced(r.actors[k].body)
  {
    r := w;
    var i := 0;
    while i < n
      invariant 0 <= i <= n
      invariant r == Simulated(m, solve, terrain, w, subDt, i)
      invariant i > 0 ==> forall k :: k in r.actors ==>
                  r.actors[k].body.acceleration == Zero && ShapesSynced(r.actors[k].body)
    {
      var stepped := RunSubstep(m, solve, terrain, r.actors, subDt);
      SubstepSettles(m, solve, terrain, r.actors, subDt);
      r := r.(actors := stepped);
      i := i + 1;
    }
  }

  /** The body of the substep loop of `WorldData::Update`. */
  method RunSubstep(m: Maths, solve: Solver, terrain: TerrainSolver, actors: ActorMap, dt: real)
    returns (r: ActorMap)
    ensures r == Substep(m, solve, terrain, actors, dt)
  {
    var collisions := DetectPairs(m, actors);
    DetectFindsTouchingPairs(m, actors);
    var resolved := ResolvePairs(m, solve, actors, collisions);
    var grounded := SolveTerrain(terrain, resolved);
    r := StepActors(grounded, dt);
  }
}
