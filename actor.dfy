/**
 * An actor: a rigid body with a view direction, a name and a render model
 * (src/Actor.hpp).
 */
module Actors {
  import opened RayMath
  import opened Physics

  /** Render model keys the simulation assigns. */
  const ModelDefault: nat := 0
  const ModelPlayer: nat := 1
  const ModelCubeExclamation: nat := 2

  /** `ActorData`: the name is a C string, empty by default; `modelKey`/`offset` are the render data. */
  datatype Actor = Actor(body: Body, yaw: real, pitch: real, name: string,
                         modelKey: nat, offset: Vector3)

  /**
   * Both `ActorData` constructors: the body is copied unchanged, the view angles
   * start at 0, the name is empty and the model offset is 0; the one-argument
   * constructor passes the default model.
   */
  function NewActor(body: Body, modelKey: nat): (a: Actor)
    ensures a.body == body && a.yaw == 0.0 && a.pitch == 0.0
    ensures a.name == "" && a.modelKey == modelKey && a.offset == Zero
  {
    Actor(body, 0.0, 0.0, "", modelKey, Zero)
  }

  /** `ActorData::VForward`: the unit view direction for the current yaw and pitch. */
  function Forward(m: Maths, a: Actor): Vector3
  {
    Vector3(m.cos(a.yaw) * m.cos(a.pitch), m.sin(a.pitch), m.sin(a.yaw) * m.cos(a.pitch))
  }

  /** `ActorData::VRight`: the forward direction turned a quarter turn in yaw, always horizontal. */
  function Right(m: Maths, a: Actor): (r: Vector3)
    ensures r.y == 0.0
  {
    Vector3(m.cos(a.yaw + Pi / 2.0) * m.cos(a.pitch), 0.0, m.sin(a.yaw + Pi / 2.0) * m.cos(a.pitch))
  }

  /**
   * The forces `ActorData::Update` applies before integrating: gravity scaled so
   * that it accelerates every dynamic body alike, then damping opposite to the
   * velocity; a static body (inverse mass 0) gets neither.
   */
  function Driven(b: Body): Body
  {
    if b.inverseMass != 0.0 then
      var pulled := ApplyForce(b, Vector3(0.0, -Gravity / b.inverseMass, 0.0));
      ApplyForce(pulled, Scale(pulled.velocity, -2.0))
    else
      b
  }

  /**
   * A dynamic body's acceleration gains (0, -gravity, 0) whatever its mass, plus
   * damping -2 * inverseMass * velocity; nothing else about the body changes.
   */
  lemma DrivenAcceleration(b: Body)
    requires b.inverseMass != 0.0
    ensures Driven(b).acceleration
              == Add(Add(b.acceleration, Vector3(0.0, -Gravity, 0.0)),
                     Scale(b.velocity, -2.0 * b.inverseMass))
    ensures Driven(b).(acceleration := b.acceleration) == b
  {
    var im := b.inverseMass;
    assert (-Gravity / im) * im == -Gravity;
    var pulled := ApplyForce(b, Vector3(0.0, -Gravity / im, 0.0));
    assert pulled.acceleration == Add(b.acceleration, Vector3(0.0 * im, -Gravity, 0.0 * im));
    assert Scale(Scale(b.velocity, -2.0), im) == Scale(b.velocity, -2.0 * im);
  }

  /** A static body is not driven at all. */
  lemma StaticNotDriven(b: Body)
    requires b.inverseMass == 0.0
    ensures Driven(b) == b
  {
  }

  /** The actor `ActorData::Update(dt)` leaves: driven, then integrated over `dt`. */
  function Stepped(a: Actor, dt: real): Actor
  {
    a.(body := Integrated(Driven(a.body), dt))
  }

  /**
   * `ActorData::Update`: after it the accumulated acceleration is spent (zero), every
   * shape is centred on the body, the velocity has grown by the driven acceleration
   * times `dt`, and the view angles, name and render data are unchanged.
   */
  method Update(a: Actor, dt: real) returns (r: Actor)
    ensures r == Stepped(a, dt)
    ensures r.body.acceleration == Zero && ShapesSynced(r.body)
    ensures r.body.velocity == Add(a.body.velocity, Scale(Driven(a.body).acceleration, dt))
    ensures r.(body := a.body) == a
  {
    var body := a.body;
    if body.inverseMass != 0.0 {
      body := ApplyForce(body, Vector3(0.0, -Gravity / body.inverseMass, 0.0));
      body := ApplyForce(body, Scale(body.velocity, -2.0));
    }
    body := Physics.Update(body, dt);
    r := a.(body := body);
    IntegratedMotion(Driven(a.body), dt);
  }
}
