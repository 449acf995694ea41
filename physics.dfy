/**
 * Shapes, the narrow-phase collision kernel and the rigid body
 * (src/Physics.hpp, src/Physics.cpp), over the reals.
 */
module Physics {
  import opened RayMath

  const Gravity: real := 220.0
  const HorSpeed: real := 160.0
  const JumpImpulse: real := 120.0

  datatype Sphere = Sphere(radius: real, center: Vector3)

  /** `SphereData{}`: radius 1 at the origin. */
  const DefaultSphere := Sphere(1.0, Zero)

  /** An axis-aligned box given by its centre and half extents. */
  datatype Box = Box(halfExtents: Vector3, center: Vector3)
  {
    function Min(): Vector3 { Sub(center, halfExtents) }

    function Max(): Vector3 { Add(center, halfExtents) }
  }

  /** Non-negative half extents make Min and Max the corners around the centre, one full extent apart. */
  lemma BoxCorners(b: Box)
    requires b.halfExtents.x >= 0.0 && b.halfExtents.y >= 0.0 && b.halfExtents.z >= 0.0
    ensures b.Min().x <= b.center.x <= b.Max().x
    ensures b.Min().y <= b.center.y <= b.Max().y
    ensures b.Min().z <= b.center.z <= b.Max().z
    ensures Sub(b.Max(), b.Min()) == Scale(b.halfExtents, 2.0)
  {
  }

  /** The `std::variant<SphereData, BoxData>` of a collision shape. */
  datatype Shape = SphereShape(sphere: Sphere) | BoxShape(box: Box)
  {
    function Center(): Vector3
    {
      match this
      case SphereShape(s) => s.center
      case BoxShape(b) => b.center
    }

    /** The same shape moved so that its centre is `p`. */
    function WithCenter(p: Vector3): (r: Shape)
      ensures r.Center() == p
      ensures SameGeometry(this, r)
    {
      match this
      case SphereShape(s) => SphereShape(s.(center := p))
      case BoxShape(b) => BoxShape(b.(center := p))
    }
  }

  /** Same kind of shape with the same radius or the same half extents. */
  predicate SameGeometry(s: Shape, t: Shape)
  {
    match (s, t)
    case (SphereShape(a), SphereShape(b)) => a.radius == b.radius
    case (BoxShape(a), BoxShape(b)) => a.halfExtents == b.halfExtents
    case _ => false
  }

  /**
   * A contact: `normal` points from the second shape towards the first and a
   * `penetration` that is not positive means "no contact".
   */
  datatype CollisionResult = CollisionResult(normal: Vector3, penetration: real)
  {
    /** The same contact seen from the other shape. */
    function Flip(): CollisionResult
    {
      this.(normal := Neg(normal))
    }

    predicate IsContact() { penetration > 0.0 }
  }

  /** `CollisionResult{}`: zero normal and penetration -1. */
  const NoContact := CollisionResult(Zero, -1.0)

  /** Flipping keeps the depth, reverses the normal and undoes itself. */
  lemma FlipInvolutive(c: CollisionResult)
    ensures c.Flip().penetration == c.penetration
    ensures Add(c.Flip().normal, c.normal) == Zero
    ensures c.Flip().Flip() == c
    ensures !NoContact.IsContact() && NoContact.Flip() == NoContact
  {
  }

  /***** Narrow phase *****/

  function CollideSphereSphere(m: Maths, a: Sphere, b: Sphere): CollisionResult
  {
    var diff := Sub(a.center, b.center);
    CollisionResult(Normalize(m, diff), a.radius + b.radius - Length(m, diff))
  }

  /**
   * Two spheres touch exactly when their centres are closer than the sum of the
   * radii; swapping them keeps the depth and reverses the normal.
   */
  lemma SphereSphereContact(m: Maths, a: Sphere, b: Sphere)
    ensures CollideSphereSphere(m, a, b).IsContact()
        <==> Length(m, Sub(a.center, b.center)) < a.radius + b.radius
    ensures CollideSphereSphere(m, a, b).normal == Normalize(m, Sub(a.center, b.center))
    ensures CollideSphereSphere(m, b, a) == CollideSphereSphere(m, a, b).Flip()
  {
    assert Sub(b.center, a.center) == Neg(Sub(a.center, b.center));
    NormalizeNeg(m, Sub(a.center, b.center));
  }

  /** The point of the box closest to `c`: `c` clamped into [Min, Max] on every axis. */
  function ClosestPoint(c: Vector3, b: Box): Vector3
  {
    Vector3(Clamp(c.x, b.Min().x, b.Max().x),
            Clamp(c.y, b.Min().y, b.Max().y),
            Clamp(c.z, b.Min().z, b.Max().z))
  }

  predicate Inside(c: Vector3, b: Box)
  {
    && b.Min().x <= c.x <= b.Max().x
    && b.Min().y <= c.y <= b.Max().y
    && b.Min().z <= c.z <= b.Max().z
  }

  function CollideSphereBox(m: Maths, s: Sphere, b: Box): CollisionResult
  {
    var diff := Sub(s.center, ClosestPoint(s.center, b));
    CollisionResult(Normalize(m, diff), s.radius - Length(m, diff))
  }

  /** For a box with non-negative half extents, the closest point lies in the box. */
  lemma ClosestPointInside(c: Vector3, b: Box)
    requires b.halfExtents.x >= 0.0 && b.halfExtents.y >= 0.0 && b.halfExtents.z >= 0.0
    ensures Inside(ClosestPoint(c, b), b)
  {
    BoxCorners(b);
  }

  /** A point inside the box is its own closest point. */
  lemma ClosestPointOfInside(c: Vector3, b: Box)
    requires Inside(c, b)
    ensures ClosestPoint(c, b) == c
  {
    var p := ClosestPoint(c, b);
    assert p.x == c.x;
    assert p.y == c.y;
    assert p.z == c.z;
  }

  /**
   * A sphere whose centre is inside the box penetrates by its full radius, with a
   * zero normal.
   */
  lemma SphereCentreInBox(m: Maths, s: Sphere, b: Box)
    requires m.sqrt(0.0) == 0.0
    requires Inside(s.center, b)
    ensures CollideSphereBox(m, s, b) == CollisionResult(Zero, s.radius)
  {
    ClosestPointOfInside(s.center, b);
    ZeroOffsetFullDepth(m, s, b);
  }

  lemma ZeroOffsetFullDepth(m: Maths, s: Sphere, b: Box)
    requires m.sqrt(0.0) == 0.0
    requires Sub(s.center, ClosestPoint(s.center, b)) == Zero
    ensures CollideSphereBox(m, s, b) == CollisionResult(Zero, s.radius)
  {
    var diff := Sub(s.center, ClosestPoint(s.center, b));
    assert Length(m, diff) == 0.0;
    assert Normalize(m, diff) == Zero;
  }

  /** Per-axis overlap of two boxes' extents. */
  function Overlap(a: Box, b: Box): Vector3
  {
    Vector3(FMin(a.Max().x, b.Max().x) - FMax(a.Min().x, b.Min().x),
            FMin(a.Max().y, b.Max().y) - FMax(a.Min().y, b.Min().y),
            FMin(a.Max().z, b.Max().z) - FMax(a.Min().z, b.Min().z))
  }

  function Min3(v: Vector3): real { FMin(v.x, FMin(v.y, v.z)) }

  /** +1 when the first box reaches further on the axis, -1 otherwise (ties included). */
  function Side(aMax: real, bMax: real): real { if aMax > bMax then 1.0 else -1.0 }

  function CollideBoxBox(a: Box, b: Box): (r: CollisionResult)
    ensures var o := Overlap(a, b);
      (o.x > 0.0 && o.y > 0.0 && o.z > 0.0) <==> r.IsContact()
    ensures !r.IsContact() ==> r == NoContact
    ensures r.IsContact() ==> r.penetration == Min3(Overlap(a, b))
    // the axis chosen is the last one on which the overlap is smallest
    ensures var o := Overlap(a, b);
      r.IsContact() ==>
        || (r.normal == Vector3(Side(a.Max().x, b.Max().x), 0.0, 0.0) && o.x < o.y && o.x < o.z)
        || (r.normal == Vector3(0.0, Side(a.Max().y, b.Max().y), 0.0) && o.y <= o.x && o.y < o.z)
        || (r.normal == Vector3(0.0, 0.0, Side(a.Max().z, b.Max().z)) && o.z <= o.x && o.z <= o.y)
  {
    var o := Overlap(a, b);
    if o.x > 0.0 && o.y > 0.0 && o.z > 0.0 then
      if o.x < o.y && o.x < o.z then
        CollisionResult(Vector3(Side(a.Max().x, b.Max().x), 0.0, 0.0), o.x)
      else if o.y < o.z then
        CollisionResult(Vector3(0.0, Side(a.Max().y, b.Max().y), 0.0), o.y)
      else
        CollisionResult(Vector3(0.0, 0.0, Side(a.Max().z, b.Max().z)), o.z)
    else
      NoContact
  }

  /** The dispatcher over the two variants; box-sphere reuses sphere-box and flips the normal. */
  function Collide(m: Maths, a: Shape, b: Shape): CollisionResult
  {
    match (a, b)
    case (SphereShape(s1), SphereShape(s2)) => CollideSphereSphere(m, s1, s2)
    case (SphereShape(s), BoxShape(bx)) => CollideSphereBox(m, s, bx)
    case (BoxShape(bx), SphereShape(s)) => CollideSphereBox(m, s, bx).Flip()
    case (BoxShape(b1), BoxShape(b2)) => CollideBoxBox(b1, b2)
  }

  /** Two boxes whose far faces differ on every axis. */
  predicate DistinctFarFaces(a: Box, b: Box)
  {
    a.Max().x != b.Max().x && a.Max().y != b.Max().y && a.Max().z != b.Max().z
  }

  /**
   * Swapping the arguments of `Collide` keeps the depth and reverses the normal,
   * except for two boxes whose far faces tie on the chosen axis (both orders then
   * report the -1 side).
   */
  lemma CollideSwap(m: Maths, a: Shape, b: Shape)
    ensures Collide(m, b, a).penetration == Collide(m, a, b).penetration
    ensures (a.BoxShape? && b.BoxShape? ==> DistinctFarFaces(a.box, b.box))
              ==> Collide(m, b, a).normal == Neg(Collide(m, a, b).normal)
    ensures a.BoxShape? && b.SphereShape? ==> Collide(m, a, b) == Collide(m, b, a).Flip()
  {
    match (a, b)
    case (SphereShape(s1), SphereShape(s2)) =>
      SphereSphereContact(m, s1, s2);
    case (SphereShape(s), BoxShape(bx)) =>
    case (BoxShape(bx), SphereShape(s)) =>
    case (BoxShape(b1), BoxShape(b2)) =>
      BoxBoxSwap(b1, b2);
  }

  /** The box-box case of `CollideSwap`. */
  lemma BoxBoxSwap(a: Box, b: Box)
    ensures CollideBoxBox(b, a).penetration == CollideBoxBox(a, b).penetration
    ensures DistinctFarFaces(a, b) ==> CollideBoxBox(b, a).normal == Neg(CollideBoxBox(a, b).normal)
  {
    var o := Overlap(a, b);
    assert Overlap(b, a) == o;
    if o.x > 0.0 && o.y > 0.0 && o.z > 0.0 && DistinctFarFaces(a, b) {
      assert Side(b.Max().x, a.Max().x) == -Side(a.Max().x, b.Max().x);
      assert Side(b.Max().y, a.Max().y) == -Side(a.Max().y, b.Max().y);
      assert Side(b.Max().z, a.Max().z) == -Side(a.Max().z, b.Max().z);
    }
  }

  /***** Rigid body *****/

  datatype Body = Body(position: Vector3, velocity: Vector3, acceleration: Vector3,
                       onGround: bool, inverseMass: real, restitution: real,
                       shapes: seq<Shape>)

  /** `BodyData{}`: at rest at the origin, on the ground, inverse mass 1, no shapes. */
  const DefaultBody := Body(Zero, Zero, Zero, true, 1.0, 0.0, [])

  /** Every shape of the body is centred on the body's position. */
  predicate ShapesSynced(b: Body)
  {
    forall i :: 0 <= i < |b.shapes| ==> b.shapes[i].Center() == b.position
  }

  /** The shapes, in order, moved to `p`. */
  function Recentered(shapes: seq<Shape>, p: Vector3): (r: seq<Shape>)
  {
    seq(|shapes|, i requires 0 <= i < |shapes| => shapes[i].WithCenter(p))
  }

  /**
   * `BodyData::UpdateShapePositions`: every centre becomes the position; radii,
   * half extents, the order of the shapes and the other fields are unchanged.
   */
  method UpdateShapePositions(b: Body) returns (r: Body)
    ensures r == b.(shapes := Recentered(b.shapes, b.position))
    ensures ShapesSynced(r)
    ensures |r.shapes| == |b.shapes|
    ensures forall i :: 0 <= i < |b.shapes| ==> SameGeometry(b.shapes[i], r.shapes[i])
  {
    var shapes := b.shapes;
    var i := 0;
    while i < |shapes|
      invariant 0 <= i <= |shapes| == |b.shapes|
      invariant forall k :: 0 <= k < i ==> shapes[k] == b.shapes[k].WithCenter(b.position)
      invariant forall k :: i <= k < |shapes| ==> shapes[k] == b.shapes[k]
    {
      shapes := shapes[i := shapes[i].WithCenter(b.position)];
      i := i + 1;
    }
    r := b.(shapes := shapes);
  }

  /** `BodyData::ApplyForce`: the force, scaled by the inverse mass, joins the acceleration. */
  function ApplyForce(b: Body, force: Vector3): Body
  {
    b.(acceleration := Add(b.acceleration, Scale(force, b.inverseMass)))
  }

  /** A body with inverse mass 0 is not moved by any force; otherwise only the acceleration changes. */
  lemma ApplyForceEffect(b: Body, force: Vector3)
    ensures b.inverseMass == 0.0 ==> ApplyForce(b, force) == b
    ensures ApplyForce(b, force).(acceleration := b.acceleration) == b
    ensures Sub(ApplyForce(b, force).acceleration, b.acceleration) == Scale(force, b.inverseMass)
  {
  }

  /** The impulse test of `ApplyImulse`: mostly upward. A zero-length impulse never passes. */
  predicate MostlyUp(m: Maths, impulse: Vector3)
  {
    var len := Length(m, impulse);
    len != 0.0 && Dot(impulse, Vector3(0.0, 1.0, 0.0)) / len > 0.5
  }

  /** `BodyData::ApplyImulse`. */
  function ApplyImpulse(m: Maths, b: Body, impulse: Vector3): (r: Body)
    ensures Sub(r.velocity, b.velocity) == Scale(impulse, b.inverseMass)
    ensures b.onGround ==> r.onGround
    ensures MostlyUp(m, impulse) ==> r.onGround
    ensures r.onGround != b.onGround ==> MostlyUp(m, impulse)
    ensures r.(velocity := b.velocity, onGround := b.onGround) == b
  {
    b.(velocity := Add(b.velocity, Scale(impulse, b.inverseMass)),
       onGround := if MostlyUp(m, impulse) then true else b.onGround)
  }

  /** The state `BodyData::Update(dt)` leaves: trapezoidal step, cleared accumulator, shapes on the body. */
  function Integrated(b: Body, dt: real): Body
  {
    var v := Add(b.velocity, Scale(b.acceleration, dt));
    var p := Add(b.position, Scale(Scale(Add(b.velocity, v), 0.5), dt));
    b.(position := p, velocity := v, acceleration := Zero, shapes := Recentered(b.shapes, p))
  }

  /** `BodyData::Update`. */
  method Update(b: Body, dt: real) returns (r: Body)
    ensures r == Integrated(b, dt)
    ensures r.acceleration == Zero && ShapesSynced(r)
  {
    var originalVelocity := b.velocity;
    var velocity := Add(b.velocity, Scale(b.acceleration, dt));
    var averageVelocity := Scale(Add(originalVelocity, velocity), 0.5);
    r := b.(velocity := velocity, position := Add(b.position, Scale(averageVelocity, dt)),
            acceleration := Zero);
    r := UpdateShapePositions(r);
  }

  /**
   * The trapezoidal step is exact for constant acceleration:
   * p' = p + v dt + a dt^2 / 2 and v' = v + a dt; a body at rest with nothing
   * accumulated stays where it is.
   */
  lemma IntegratedMotion(b: Body, dt: real)
    ensures Integrated(b, dt).velocity == Add(b.velocity, Scale(b.acceleration, dt))
    ensures Integrated(b, dt).position
              == Add(Add(b.position, Scale(b.velocity, dt)), Scale(b.acceleration, dt * dt / 2.0))
    ensures b.velocity == Zero && b.acceleration == Zero ==> Integrated(b, dt).position == b.position
    ensures ShapesSynced(Integrated(b, dt))
  {
    var p := Integrated(b, dt).position;
    assert p.x == b.position.x + b.velocity.x * dt + b.acceleration.x * (dt * dt / 2.0);
    assert p.y == b.position.y + b.velocity.y * dt + b.acceleration.y * (dt * dt / 2.0);
    assert p.z == b.position.z + b.velocity.z * dt + b.acceleration.z * (dt * dt / 2.0);
  }

  /***** Deepest contact between two bodies *****/

  /** A pairwise collision test, so that the scan can be reasoned about apart from the geometry. */
  type PairTest = (Shape, Shape) -> CollisionResult

  /** The collision test `CollideWith` applies to each pair of shapes. */
  function ShapeTest(m: Maths): (t: PairTest)
    ensures forall x, y :: t(x, y) == Collide(m, x, y)
  {
    (x, y) => Collide(m, x, y)
  }

  /** The results of one shape against each of the other body's shapes, in order. */
  function Row(t: PairTest, a: Shape, ys: seq<Shape>): seq<CollisionResult>
  {
    seq(|ys|, j requires 0 <= j < |ys| => t(a, ys[j]))
  }

  /** All shape-pair results in the order the nested loops of `CollideWith` visit them. */
  function Candidates(t: PairTest, xs: seq<Shape>, ys: seq<Shape>): seq<CollisionResult>
    decreases |xs|
  {
    if xs == [] then [] else Candidates(t, xs[..|xs| - 1], ys) + Row(t, xs[|xs| - 1], ys)
  }

  /** The running pair `(max_res, max_penetration)` of `CollideWith`. */
  datatype Deepest = Deepest(best: CollisionResult, maxPenetration: real)

  function Keep(d: Deepest, c: CollisionResult): Deepest
  {
    if c.penetration > d.maxPenetration then Deepest(c, c.penetration) else d
  }

  /** The running pair after visiting `cs`, starting from the default result and depth 0. */
  function Scan(cs: seq<CollisionResult>): Deepest
  {
    if cs == [] then Deepest(NoContact, 0.0) else Keep(Scan(cs[..|cs| - 1]), cs[|cs| - 1])
  }

  /** What `BodyData::CollideWith` returns. */
  function DeepestContact(m: Maths, a: Body, b: Body): CollisionResult
  {
    Scan(Candidates(ShapeTest(m), a.shapes, b.shapes)).best
  }

  /** `BodyData::CollideWith`: the nested loops over both shape lists. */
  method CollideWith(m: Maths, a: Body, other: Body) returns (r: CollisionResult)
    ensures r == DeepestContact(m, a, other)
  {
    var maxRes := NoContact;
    var maxPenetration := 0.0;
    var i := 0;
    while i < |a.shapes|
      invariant 0 <= i <= |a.shapes|
      invariant Scan(Candidates(ShapeTest(m), a.shapes[..i], other.shapes)) == Deepest(maxRes, maxPenetration)
    {
      CandidatesSnoc(ShapeTest(m), a.shapes, i, other.shapes);
      maxRes, maxPenetration := DeepestInRow(m, a.shapes[i], other.shapes,
                                             Candidates(ShapeTest(m), a.shapes[..i], other.shapes),
                                             maxRes, maxPenetration);
      i := i + 1;
    }
    assert a.shapes[..|a.shapes|] == a.shapes;
    r := maxRes;
  }

  /**
   * The inner loop of `BodyData::CollideWith`: one shape of the first body
   * against each shape of the other, carrying the running pair on from the
   * results `before` it.
   */
  method DeepestInRow(m: Maths, x: Shape, ys: seq<Shape>, ghost before: seq<CollisionResult>,
                      maxRes0: CollisionResult, maxPenetration0: real)
    returns (maxRes: CollisionResult, maxPenetration: real)
    requires Scan(before) == Deepest(maxRes0, maxPenetration0)
    ensures Scan(before + Row(ShapeTest(m), x, ys)) == Deepest(maxRes, maxPenetration)
  {
    ghost var t := ShapeTest(m);
    maxRes, maxPenetration := maxRes0, maxPenetration0;
    var j := 0;
    assert Row(t, x, ys[..0]) == [];
    assert before + [] == before;
    while j < |ys|
      invariant 0 <= j <= |ys|
      invariant Scan(before + Row(t, x, ys[..j])) == Deepest(maxRes, maxPenetration)
    {
      var res := Collide(m, x, ys[j]);
      RowSnoc(t, x, ys, j);
      ScanSnoc(before + Row(t, x, ys[..j]), res);
      assert before + Row(t, x, ys[..j + 1]) == before + Row(t, x, ys[..j]) + [res];
      if res.penetration > maxPenetration {
        maxPenetration := res.penetration;
        maxRes := res;
      }
      j := j + 1;
    }
    assert ys[..j] == ys;
  }

  /** The scan over one more result is the running pair kept against it. */
  lemma ScanSnoc(cs: seq<CollisionResult>, c: CollisionResult)
    ensures Scan(cs + [c]) == Keep(Scan(cs), c)
  {
    assert (cs + [c])[..|cs|] == cs;
  }

  /** A row over one more shape of the other body ends with that shape's result. */
  lemma RowSnoc(t: PairTest, x: Shape, ys: seq<Shape>, j: nat)
    requires j < |ys|
    ensures Row(t, x, ys[..j + 1]) == Row(t, x, ys[..j]) + [t(x, ys[j])]
  {
  }

  /** The candidates of one more shape of the first body end with that shape's whole row. */
  lemma CandidatesSnoc(t: PairTest, xs: seq<Shape>, i: nat, ys: seq<Shape>)
    requires i < |xs|
    ensures Candidates(t, xs[..i + 1], ys) == Candidates(t, xs[..i], ys) + Row(t, xs[i], ys)
  {
    assert xs[..i + 1][..i] == xs[..i];
  }

  /** `cs[k]` is a contact, no result is deeper, and every earlier result is strictly shallower. */
  predicate IsFirstDeepest(cs: seq<CollisionResult>, k: int)
  {
    && 0 <= k < |cs| && cs[k].IsContact()
    && (forall i :: 0 <= i < |cs| ==> cs[i].penetration <= cs[k].penetration)
    && (forall i :: 0 <= i < k ==> cs[i].penetration < cs[k].penetration)
  }

  /** Appending one result keeps the first deepest contact, unless the new one is strictly deeper. */
  lemma FirstDeepestExtend(cs: seq<CollisionResult>, k: int)
    requires |cs| > 0 && IsFirstDeepest(cs[..|cs| - 1], k)
    ensures cs[|cs| - 1].penetration > cs[k].penetration ==> IsFirstDeepest(cs, |cs| - 1)
    ensures cs[|cs| - 1].penetration <= cs[k].penetration ==> IsFirstDeepest(cs, k)
  {
    var s := cs[..|cs| - 1];
    assert forall i :: 0 <= i < |s| ==> s[i] == cs[i];
  }

  /** The scan returns the first deepest contact, or the default result when there is none. */
  lemma {:induction false} ScanFindsFirstDeepest(cs: seq<CollisionResult>)
    ensures (forall i :: 0 <= i < |cs| ==> !cs[i].IsContact()) ==> Scan(cs) == Deepest(NoContact, 0.0)
    ensures (exists i :: 0 <= i < |cs| && cs[i].IsContact())
              ==> exists k :: IsFirstDeepest(cs, k) && Scan(cs) == Deepest(cs[k], cs[k].penetration)
  {
    if cs != [] {
      var n := |cs| - 1;
      var s, c := cs[..n], cs[n];
      assert Scan(cs) == Keep(Scan(s), c);
      ScanFindsFirstDeepest(s);
      if exists i :: 0 <= i < n && cs[i].IsContact() {
        var i0 :| 0 <= i0 < n && cs[i0].IsContact();
        assert s[i0] == cs[i0];
        var k :| IsFirstDeepest(s, k) && Scan(s) == Deepest(s[k], s[k].penetration);
        assert s[k] == cs[k];
        FirstDeepestExtend(cs, k);
      } else {
        assert forall i :: 0 <= i < n ==> !s[i].IsContact();
        if c.IsContact() {
          assert IsFirstDeepest(cs, n);
        }
      }
    }
  }

  /**
   * `i * n` by repeated addition: positions in the visiting order are written with
   * it so that the proofs below stay within linear arithmetic.
   */
  function Times(i: nat, n: nat): nat
  {
    if i == 0 then 0 else Times(i - 1, n) + n
  }

  /** A later row starts after every position of an earlier one. */
  lemma {:induction false} TimesGrows(i: nat, i2: nat, n: nat)
    requires i < i2
    ensures Times(i, n) + n <= Times(i2, n)
  {
    if i < i2 - 1 {
      TimesGrows(i, i2 - 1, n);
    }
  }

  /** Position of the pair (i, j) in the visiting order. */
  lemma {:induction false} CandidatesAt(t: PairTest, xs: seq<Shape>, ys: seq<Shape>, i: nat, j: nat)
    requires i < |xs| && j < |ys|
    ensures |Candidates(t, xs, ys)| == Times(|xs|, |ys|)
    ensures Times(i, |ys|) + j < |Candidates(t, xs, ys)|
    ensures Candidates(t, xs, ys)[Times(i, |ys|) + j] == t(xs[i], ys[j])
    decreases |xs|
  {
    var front := xs[..|xs| - 1];
    CandidatesLength(t, front, ys);
    if i < |xs| - 1 {
      CandidatesAt(t, front, ys, i, j);
    }
  }

  lemma {:induction false} CandidatesLength(t: PairTest, xs: seq<Shape>, ys: seq<Shape>)
    ensures |Candidates(t, xs, ys)| == Times(|xs|, |ys|)
    decreases |xs|
  {
    if xs != [] {
      CandidatesLength(t, xs[..|xs| - 1], ys);
    }
  }

  /** The pair (i, j) comes before (i2, j2) in the loops' order. */
  predicate Earlier(i: int, j: int, i2: int, j2: int)
  {
    i < i2 || (i == i2 && j < j2)
  }

  lemma EarlierIndex(i: nat, j: nat, i2: nat, j2: nat, n: nat)
    requires j < n && j2 < n
    ensures Earlier(i, j, i2, j2) <==> Times(i, n) + j < Times(i2, n) + j2
  {
    if i < i2 {
      TimesGrows(i, i2, n);
    } else if i > i2 {
      TimesGrows(i2, i, n);
    }
  }

  /** Every position in the visiting order belongs to exactly one pair (i, j). */
  lemma {:induction false} IndexSplit(k: nat, rows: nat, n: nat) returns (i: nat, j: nat)
    requires k < Times(rows, n)
    ensures i < rows && j < n && k == Times(i, n) + j
  {
    if k < Times(rows - 1, n) {
      i, j := IndexSplit(k, rows - 1, n);
    } else {
      i, j := rows - 1, k - Times(rows - 1, n);
    }
  }

  /** The result at a position of the visiting order is that of its pair. */
  lemma CandidateSplit(t: PairTest, xs: seq<Shape>, ys: seq<Shape>, k: nat) returns (i: nat, j: nat)
    requires k < |Candidates(t, xs, ys)|
    ensures i < |xs| && j < |ys| && k == Times(i, |ys|) + j
    ensures Candidates(t, xs, ys)[k] == t(xs[i], ys[j])
  {
    CandidatesLength(t, xs, ys);
    i, j := IndexSplit(k, |xs|, |ys|);
    CandidatesAt(t, xs, ys, i, j);
  }

  /**
   * (i, j) is a contact, no pair is deeper, and every pair visited before it is
   * strictly shallower.
   */
  predicate IsFirstDeepestPair(t: PairTest, xs: seq<Shape>, ys: seq<Shape>, i: int, j: int)
  {
    && 0 <= i < |xs| && 0 <= j < |ys|
    && t(xs[i], ys[j]).IsContact()
    && (forall i2, j2 :: 0 <= i2 < |xs| && 0 <= j2 < |ys| ==>
          t(xs[i2], ys[j2]).penetration <= t(xs[i], ys[j]).penetration)
    && (forall i2, j2 :: 0 <= i2 < |xs| && 0 <= j2 < |ys| && Earlier(i2, j2, i, j) ==>
          t(xs[i2], ys[j2]).penetration < t(xs[i], ys[j]).penetration)
  }

  /** With no positive pair the scan keeps the default result (penetration -1). */
  lemma NoPairNoContact(t: PairTest, xs: seq<Shape>, ys: seq<Shape>)
    requires forall i, j :: 0 <= i < |xs| && 0 <= j < |ys| ==> !t(xs[i], ys[j]).IsContact()
    ensures Scan(Candidates(t, xs, ys)).best == NoContact
  {
    var cs := Candidates(t, xs, ys);
    forall k | 0 <= k < |cs| ensures !cs[k].IsContact() {
      var i, j := CandidateSplit(t, xs, ys, k);
    }
    ScanFindsFirstDeepest(cs);
  }

  /** The first deepest position, read back as a pair, beats every other pair. */
  lemma FirstDeepestBeats(t: PairTest, xs: seq<Shape>, ys: seq<Shape>, k: nat, i: nat, j: nat,
                          i2: nat, j2: nat)
    requires IsFirstDeepest(Candidates(t, xs, ys), k)
    requires i < |xs| && j < |ys| && k == Times(i, |ys|) + j
    requires i2 < |xs| && j2 < |ys|
    ensures t(xs[i2], ys[j2]).penetration <= Candidates(t, xs, ys)[k].penetration
    ensures Earlier(i2, j2, i, j) ==> t(xs[i2], ys[j2]).penetration < Candidates(t, xs, ys)[k].penetration
  {
    CandidatesAt(t, xs, ys, i2, j2);
    EarlierIndex(i2, j2, i, j, |ys|);
  }

  /** With some positive pair the scan returns the first deepest one. */
  lemma SomePairFirstDeepest(t: PairTest, xs: seq<Shape>, ys: seq<Shape>, i0: nat, j0: nat)
    requires i0 < |xs| && j0 < |ys| && t(xs[i0], ys[j0]).IsContact()
    ensures exists i, j :: IsFirstDeepestPair(t, xs, ys, i, j)
                        && Scan(Candidates(t, xs, ys)).best == t(xs[i], ys[j])
  {
    var cs := Candidates(t, xs, ys);
    CandidatesAt(t, xs, ys, i0, j0);
    ScanFindsFirstDeepest(cs);
    var k :| IsFirstDeepest(cs, k) && Scan(cs) == Deepest(cs[k], cs[k].penetration);
    var i, j := CandidateSplit(t, xs, ys, k);
    forall i2, j2 | 0 <= i2 < |xs| && 0 <= j2 < |ys|
      ensures t(xs[i2], ys[j2]).penetration <= t(xs[i], ys[j]).penetration
      ensures Earlier(i2, j2, i, j) ==> t(xs[i2], ys[j2]).penetration < t(xs[i], ys[j]).penetration
    {
      FirstDeepestBeats(t, xs, ys, k, i, j, i2, j2);
    }
    assert IsFirstDeepestPair(t, xs, ys, i, j);
  }

  /**
   * `CollideWith` returns, among all shape pairs with positive penetration, the
   * deepest one, the earliest in loop order on ties (the comparison is strict);
   * with no such pair it returns the default result (penetration -1).
   */
  lemma DeepestContactSpec(m: Maths, a: Body, b: Body)
    ensures (forall i, j :: 0 <= i < |a.shapes| && 0 <= j < |b.shapes| ==>
               !Collide(m, a.shapes[i], b.shapes[j]).IsContact())
            ==> DeepestContact(m, a, b) == NoContact
    ensures (exists i, j :: 0 <= i < |a.shapes| && 0 <= j < |b.shapes| &&
               Collide(m, a.shapes[i], b.shapes[j]).IsContact())
            ==> exists i, j :: IsFirstDeepestPair(ShapeTest(m), a.shapes, b.shapes, i, j)
                            && DeepestContact(m, a, b) == Collide(m, a.shapes[i], b.shapes[j])
  {
    var t, xs, ys := ShapeTest(m), a.shapes, b.shapes;
    if i0, j0 :| 0 <= i0 < |xs| && 0 <= j0 < |ys| && Collide(m, xs[i0], ys[j0]).IsContact() {
      SomePairFirstDeepest(t, xs, ys, i0, j0);
    } else {
      NoPairNoContact(t, xs, ys);
    }
  }
}
