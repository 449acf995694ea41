/**
 * Building a scene from JSON (src/Deserialization.hpp). The JSON library is
 * not modelled: a document is the `Json` value below, an object keeps its
 * members in the order the library iterates them (by key, as a `std::map` of
 * strings sorts them), and every failure of the library (a wrong type, a
 * missing member read through `operator[] const`) is one `Err`.
 */
module Deserialization {
  import opened Wrappers
  import opened RayMath
  import opened Physics
  import opened Actors
  import opened Worlds
  import opened CStrings

  datatype Json =
    | JNull
    | JBool(b: bool)
    | JInt(i: int)
    | JReal(r: real)
    | JString(s: string)
    | JArray(items: seq<Json>)
    | JObject(members: seq<(string, Json)>)

  /** The message of every failure that comes from the JSON library rather than from the scene code. */
  const LibraryError := "json error"

  /** `contains`: only an object has members. */
  predicate Contains(j: Json, key: string)
  {
    j.JObject? && exists m :: m in j.members && m.0 == key
  }

  /** `operator[] const` with a key: the first member under it; anything else is a library failure. */
  function Member(j: Json, key: string): (r: Result<Json>)
    ensures r.Ok? <==> Contains(j, key)
  {
    if !j.JObject? then Err(LibraryError) else Find(j.members, key)
  }

  function Find(members: seq<(string, Json)>, key: string): (r: Result<Json>)
    ensures r.Ok? <==> exists m :: m in members && m.0 == key
    ensures r.Ok? ==> (key, r.value) in members
  {
    if members == [] then Err(LibraryError)
    else if members[0].0 == key then Ok(members[0].1)
    else
      var r := Find(members[1..], key);
      assert forall m :: m in members[1..] ==> m in members;
      assert forall m :: m in members && m != members[0] ==> m in members[1..];
      r
  }

  /**
   * `get<float>()`: any number, as a real; a boolean converts to 0 or 1, as
   * the library's conversion to an arithmetic type casts it.
   */
  function AsReal(j: Json): (r: Result<real>)
    ensures r.Ok? <==> j.JInt? || j.JReal? || j.JBool?
    ensures j.JInt? ==> r == Ok(j.i as real)
    ensures j.JReal? ==> r == Ok(j.r)
  {
    match j
    case JInt(i) => Ok(i as real)
    case JReal(r) => Ok(r)
    case JBool(b) => Ok(if b then 1.0 else 0.0)
    case _ => Err(LibraryError)
  }

  /** A C++ cast of a floating-point value to an integer: the fraction is dropped, toward zero. */
  function TowardZero(x: real): (n: int)
    ensures x >= 0.0 ==> n as real <= x < n as real + 1.0
    ensures x < 0.0 ==> n as real - 1.0 < x <= n as real
  {
    if x >= 0.0 then x.Floor else -((-x).Floor)
  }

  /** A JSON number as an integer, before narrowing: an integer as is, a real toward zero, a boolean as 0 or 1. */
  function AsInteger(j: Json): (r: Result<int>)
    ensures r.Ok? <==> j.JInt? || j.JReal? || j.JBool?
  {
    match j
    case JInt(i) => Ok(i)
    case JReal(x) => Ok(TowardZero(x))
    case JBool(b) => Ok(if b then 1 else 0)
    case _ => Err(LibraryError)
  }

  /** `get<std::string>()`. */
  function AsString(j: Json): Result<string>
  {
    if j.JString? then Ok(j.s) else Err(LibraryError)
  }

  /**
   * `get<uint16_t>()`: the number made an integer, then narrowed modulo 2^16
   * (a negative integer wraps; for a real out of range the cast is undefined
   * in C++, and wraps here too).
   */
  function AsU16(j: Json): (r: Result<nat>)
    ensures r.Ok? <==> j.JInt? || j.JReal? || j.JBool?
    ensures r.Ok? ==> r.value < 0x1_0000 && (r.value - AsInteger(j).value) % 0x1_0000 == 0
    ensures j.JInt? && 0 <= j.i < 0x1_0000 ==> r == Ok(j.i)
    ensures j.JReal? && 0.0 <= j.r < 0x1_0000 as real ==> r.value as real <= j.r < r.value as real + 1.0
  {
    var n := AsInteger(j);
    if n.Err? then Err(n.error) else Ok(n.value % 0x1_0000)
  }

  /**
   * `get<ActorKey>()`: the number made an integer; a negative one is refused,
   * since keys are unbounded here and there is no width to wrap it to.
   */
  function AsKey(j: Json): (r: Result<nat>)
    ensures r.Ok? <==> AsInteger(j).Ok? && AsInteger(j).value >= 0
    ensures r.Ok? ==> r.value == AsInteger(j).value
    ensures j.JReal? && j.r >= 0.0 ==> r.Ok? && r.value as real <= j.r < r.value as real + 1.0
  {
    var n := AsInteger(j);
    if n.Err? || n.value < 0 then Err(LibraryError) else Ok(n.value)
  }

  /** What a range-for over a value visits: an array's elements, an object's values, nothing for null, else the value itself. */
  function Items(j: Json): seq<Json>
  {
    match j
    case JNull => []
    case JArray(items) => items
    case JObject(members) => seq(|members|, i requires 0 <= i < |members| => members[i].1)
    case _ => [j]
  }

  const Vector3Error := "Vector3 must be a JSON array with exactly 3 elements"

  /** `DeserializeVector3`: exactly a three-element array of numbers. */
  function DeserializeVector3(j: Json): (r: Result<Vector3>)
    ensures !(j.JArray? && |j.items| == 3) ==> r == Err(Vector3Error)
    ensures r.Ok? ==> (j.JArray? && |j.items| == 3
                       && AsReal(j.items[0]) == Ok(r.value.x) && AsReal(j.items[1]) == Ok(r.value.y)
                       && AsReal(j.items[2]) == Ok(r.value.z))
  {
    if !j.JArray? || |j.items| != 3 then Err(Vector3Error)
    else
      var x := AsReal(j.items[0]);
      if x.Err? then Err(x.error) else
      var y := AsReal(j.items[1]);
      if y.Err? then Err(y.error) else
      var z := AsReal(j.items[2]);
      if z.Err? then Err(z.error) else
      Ok(Vector3(x.value, y.value, z.value))
  }

  /** `DeserializeSphere`: a centre and a radius, with no check of its own. */
  function DeserializeSphere(j: Json): (r: Result<Sphere>)
    ensures r.Ok? ==> Contains(j, "center") && Contains(j, "radius")
    ensures r.Ok? ==> DeserializeVector3(Member(j, "center").value) == Ok(r.value.center)
    ensures r.Ok? ==> AsReal(Member(j, "radius").value) == Ok(r.value.radius)
  {
    var c := Member(j, "center");
    if c.Err? then Err(c.error) else
    var center := DeserializeVector3(c.value);
    if center.Err? then Err(center.error) else
    var rj := Member(j, "radius");
    if rj.Err? then Err(rj.error) else
    var radius := AsReal(rj.value);
    if radius.Err? then Err(radius.error) else
    Ok(Sphere(radius.value, center.value))
  }

  const BoxError := "BoxData requires 'center' and 'half_extents' fields"

  /** `DeserializeBox`: fails with its own message unless both fields are there. */
  function DeserializeBox(j: Json): (r: Result<Box>)
    ensures !(Contains(j, "center") && Contains(j, "half_extents")) ==> r == Err(BoxError)
    ensures r.Ok? ==> DeserializeVector3(Member(j, "center").value) == Ok(r.value.center)
    ensures r.Ok? ==> DeserializeVector3(Member(j, "half_extents").value) == Ok(r.value.halfExtents)
  {
    if !Contains(j, "center") || !Contains(j, "half_extents") then Err(BoxError)
    else
      var center := DeserializeVector3(Member(j, "center").value);
      if center.Err? then Err(center.error) else
      var half := DeserializeVector3(Member(j, "half_extents").value);
      if half.Err? then Err(half.error) else
      Ok(Box(half.value, center.value))
  }

  /** `DeserializeShape`: the "type" member picks the sphere or the box member; any other type is refused by name. */
  function DeserializeShape(j: Json): (r: Result<Shape>)
    ensures r.Ok? ==> Member(j, "type").Ok? && AsString(Member(j, "type").value).Ok?
    ensures r.Ok? && AsString(Member(j, "type").value).value == "sphere" ==>
              r.value.SphereShape? && Member(j, "sphere").Ok? && DeserializeSphere(Member(j, "sphere").value) == Ok(r.value.sphere)
    ensures r.Ok? && AsString(Member(j, "type").value).value == "box" ==>
              r.value.BoxShape? && Member(j, "box").Ok? && DeserializeBox(Member(j, "box").value) == Ok(r.value.box)
    ensures Member(j, "type").Ok? && AsString(Member(j, "type").value).Ok? ==>
              var t := AsString(Member(j, "type").value).value;
              t != "sphere" && t != "box" ==> r == Err("Unknown collision shape type: " + t)
  {
    var tj := Member(j, "type");
    if tj.Err? then Err(tj.error) else
    var t := AsString(tj.value);
    if t.Err? then Err(t.error)
    else if t.value == "sphere" then
      var sj := Member(j, "sphere");
      if sj.Err? then Err(sj.error) else
      var s := DeserializeSphere(sj.value);
      if s.Err? then Err(s.error) else Ok(SphereShape(s.value))
    else if t.value == "box" then
      var bj := Member(j, "box");
      if bj.Err? then Err(bj.error) else
      var b := DeserializeBox(bj.value);
      if b.Err? then Err(b.error) else Ok(BoxShape(b.value))
    else Err("Unknown collision shape type: " + t.value)
  }

  /** The values `f` builds from a list, in order, or the failure of the first item it refuses. */
  function Collect<T>(f: Json -> Result<T>, items: seq<Json>): (r: Result<seq<T>>)
    decreases |items|
  {
    if items == [] then Ok([])
    else
      var init := Collect(f, items[..|items| - 1]);
      if init.Err? then Err(init.error) else
      var last := f(items[|items| - 1]);
      if last.Err? then Err(last.error) else Ok(init.value + [last.value])
  }

  /** The list fails exactly when one of its items does. */
  lemma {:induction false} CollectOkExactly<T>(f: Json -> Result<T>, items: seq<Json>)
    ensures Collect(f, items).Ok? <==> forall i :: 0 <= i < |items| ==> f(items[i]).Ok?
    decreases |items|
  {
    if items != [] {
      var init := items[..|items| - 1];
      CollectOkExactly(f, init);
      if Collect(f, items).Ok? {
        forall i | 0 <= i < |items| ensures f(items[i]).Ok? {
          if i < |init| {
            assert init[i] == items[i];
          }
        }
      } else if Collect(f, init).Err? {
        var i :| 0 <= i < |init| && f(init[i]).Err?;
        assert init[i] == items[i];
      }
    }
  }

  /** The values keep the order of the items they come from, one for one. */
  lemma {:induction false} CollectInOrder<T>(f: Json -> Result<T>, items: seq<Json>)
    requires Collect(f, items).Ok?
    ensures |Collect(f, items).value| == |items|
    ensures forall i :: 0 <= i < |items| ==> f(items[i]).Ok? && Collect(f, items).value[i] == f(items[i]).value
    decreases |items|
  {
    if items != [] {
      var init := items[..|items| - 1];
      CollectInOrder(f, init);
      var r := Collect(f, items).value;
      forall i | 0 <= i < |items| ensures f(items[i]).Ok? && r[i] == f(items[i]).value {
        if i < |init| {
          assert init[i] == items[i];
        }
      }
    }
  }

  /** A list whose prefix fails fails as a whole. */
  lemma {:induction false} CollectFailAt<T>(f: Json -> Result<T>, items: seq<Json>, n: nat)
    requires n <= |items| && Collect(f, items[..n]).Err?
    ensures Collect(f, items) == Collect(f, items[..n])
    decreases |items| - n
  {
    if n == |items| {
      assert items[..n] == items;
    } else {
      assert items[..n + 1][..n] == items[..n];
      CollectFailAt(f, items, n + 1);
    }
  }

  const BodyError := "BodyData requires 'pos', 'vel', 'inv_m', 'restitution' and 'shapes' fields"

  predicate HasBodyFields(j: Json)
  {
    Contains(j, "pos") && Contains(j, "vel") && Contains(j, "inv_m")
    && Contains(j, "restitution") && Contains(j, "shapes")
  }

  /** The body `DeserializeBody` builds, or the failure of the first read that fails. */
  function BodyOf(j: Json): (r: Result<Body>)
    ensures !HasBodyFields(j) ==> r == Err(BodyError)
    ensures r.Ok? ==>
              && HasBodyFields(j)
              && DeserializeVector3(Member(j, "pos").value) == Ok(r.value.position)
              && DeserializeVector3(Member(j, "vel").value) == Ok(r.value.velocity)
              && AsReal(Member(j, "inv_m").value) == Ok(r.value.inverseMass)
              && AsReal(Member(j, "restitution").value) == Ok(r.value.restitution)
              && Collect(DeserializeShape, Items(Member(j, "shapes").value)) == Ok(r.value.shapes)
              && r.value.acceleration == Zero && r.value.onGround
    ensures (HasBodyFields(j) && DeserializeVector3(Member(j, "pos").value).Ok?
             && DeserializeVector3(Member(j, "vel").value).Ok?
             && AsReal(Member(j, "inv_m").value).Ok? && AsReal(Member(j, "restitution").value).Ok?
             && Collect(DeserializeShape, Items(Member(j, "shapes").value)).Ok?) ==> r.Ok?
  {
    if !HasBodyFields(j) then Err(BodyError) else
    var pos := DeserializeVector3(Member(j, "pos").value);
    if pos.Err? then Err(pos.error) else
    var vel := DeserializeVector3(Member(j, "vel").value);
    if vel.Err? then Err(vel.error) else
    var invM := AsReal(Member(j, "inv_m").value);
    if invM.Err? then Err(invM.error) else
    var rest := AsReal(Member(j, "restitution").value);
    if rest.Err? then Err(rest.error) else
    var shapes := Collect(DeserializeShape, Items(Member(j, "shapes").value));
    if shapes.Err? then Err(shapes.error) else
    Ok(DefaultBody.(position := pos.value, velocity := vel.value, inverseMass := invM.value,
                    restitution := rest.value, shapes := shapes.value))
  }

  /**
   * `DeserializeBody`: fails with its own message unless all five fields are
   * there; reads position, velocity, inverse mass and restitution; then
   * appends one shape per item of "shapes", in order. The acceleration and
   * the ground flag keep their defaults (zero, on the ground) and the shapes
   * keep the centres they were given.
   */
  method DeserializeBody(j: Json) returns (r: Result<Body>)
    ensures r == BodyOf(j)
  {
    if !HasBodyFields(j) {
      return Err(BodyError);
    }
    var b := DefaultBody;
    var pos := DeserializeVector3(Member(j, "pos").value);
    if pos.Err? {
      return Err(pos.error);
    }
    b := b.(position := pos.value);
    var vel := DeserializeVector3(Member(j, "vel").value);
    if vel.Err? {
      return Err(vel.error);
    }
    b := b.(velocity := vel.value);
    var invM := AsReal(Member(j, "inv_m").value);
    if invM.Err? {
      return Err(invM.error);
    }
    b := b.(inverseMass := invM.value);
    var rest := AsReal(Member(j, "restitution").value);
    if rest.Err? {
      return Err(rest.error);
    }
    b := b.(restitution := rest.value);
    ghost var shapes := Collect(DeserializeShape, Items(Member(j, "shapes").value));
    r := PushShapes(b, Items(Member(j, "shapes").value));
    if shapes.Ok? {
      assert b.shapes + shapes.value == shapes.value;
      assert r == Ok(DefaultBody.(position := pos.value, velocity := vel.value, inverseMass := invM.value,
                                  restitution := rest.value, shapes := shapes.value));
    }
  }

  /** The range-for of `DeserializeBody`: each item's shape is pushed onto the body's shapes, or the first failure ends it. */
  method PushShapes(b: Body, items: seq<Json>) returns (r: Result<Body>)
    ensures var shapes := Collect(DeserializeShape, items);
            r == if shapes.Err? then Err(shapes.error) else Ok(b.(shapes := b.shapes + shapes.value))
  {
    var pushed := b;
    var i := 0;
    while i < |items|
      invariant 0 <= i <= |items|
      invariant Collect(DeserializeShape, items[..i]).Ok?
      invariant pushed == b.(shapes := b.shapes + Collect(DeserializeShape, items[..i]).value)
    {
      var shape := DeserializeShape(items[i]);
      assert items[..i + 1][..i] == items[..i];
      if shape.Err? {
        CollectFailAt(DeserializeShape, items, i + 1);
        return Err(shape.error);
      }
      pushed := pushed.(shapes := pushed.shapes + [shape.value]);
      i := i + 1;
    }
    assert items[..i] == items;
    r := Ok(pushed);
  }

  const ActorError := "ActorData requires 'yaw' and 'pitch' fields"

  /**
   * `DeserializeActor`: fails with its own message unless yaw and pitch are
   * there; the body comes from "body", the model key from "model_key"
   * (wrapped to 16 bits), and the rest is as the one-argument constructor
   * leaves it.
   */
  method DeserializeActor(j: Json) returns (r: Result<Actor>)
    ensures !(Contains(j, "yaw") && Contains(j, "pitch")) ==> r == Err(ActorError)
    ensures r.Ok? ==>
              && Contains(j, "yaw") && Contains(j, "pitch") && Contains(j, "body") && Contains(j, "model_key")
              && AsReal(Member(j, "yaw").value) == Ok(r.value.yaw)
              && AsReal(Member(j, "pitch").value) == Ok(r.value.pitch)
              && AsU16(Member(j, "model_key").value) == Ok(r.value.modelKey)
              && BodyOf(Member(j, "body").value) == Ok(r.value.body)
              && r.value.name == "" && r.value.offset == Zero
    ensures (Contains(j, "yaw") && Contains(j, "pitch") && Contains(j, "body") && Contains(j, "model_key")
             && BodyOf(Member(j, "body").value).Ok?
             && AsReal(Member(j, "yaw").value).Ok? && AsReal(Member(j, "pitch").value).Ok?
             && AsU16(Member(j, "model_key").value).Ok?) ==> r.Ok?
  {
    if !Contains(j, "yaw") || !Contains(j, "pitch") {
      return Err(ActorError);
    }
    var bj := Member(j, "body");
    if bj.Err? {
      return Err(bj.error);
    }
    var body := DeserializeBody(bj.value);
    if body.Err? {
      return Err(body.error);
    }
    var a := NewActor(body.value, ModelDefault);
    var yaw := AsReal(Member(j, "yaw").value);
    if yaw.Err? {
      return Err(yaw.error);
    }
    a := a.(yaw := yaw.value);
    var pitch := AsReal(Member(j, "pitch").value);
    if pitch.Err? {
      return Err(pitch.error);
    }
    a := a.(pitch := pitch.value);
    var mj := Member(j, "model_key");
    if mj.Err? {
      return Err(mj.error);
    }
    var model := AsU16(mj.value);
    if model.Err? {
      return Err(model.error);
    }
    r := Ok(a.(modelKey := model.value));
  }

  const PlayerError := "PlayerData requires 'actor_key' field"

  /** `DeserializePlayer`: fails with its own message without "actor_key". */
  function DeserializePlayer(j: Json): (r: Result<Player>)
    ensures !Contains(j, "actor_key") ==> r == Err(PlayerError)
    ensures Contains(j, "actor_key") ==>
              (r.Ok? <==> AsKey(Member(j, "actor_key").value).Ok?)
              && (r.Ok? ==> r.value.actorKey == AsKey(Member(j, "actor_key").value).value)
  {
    if !Contains(j, "actor_key") then Err(PlayerError)
    else
      var k := AsKey(Member(j, "actor_key").value);
      if k.Err? then Err(k.error) else Ok(Player(k.value))
  }

  /***** Keys *****/

  predicate IsDigit(c: char)
  {
    '0' <= c <= '9'
  }

  /** The number of leading decimal digits. */
  function DigitRun(s: string): (n: nat)
    ensures n <= |s|
    ensures forall i :: 0 <= i < n ==> IsDigit(s[i])
    ensures n < |s| ==> !IsDigit(s[n])
  {
    if s == [] || !IsDigit(s[0]) then 0 else 1 + DigitRun(s[1..])
  }

  /** The value of a string of decimal digits. */
  function DecimalValue(s: string): nat
    requires forall i :: 0 <= i < |s| ==> IsDigit(s[i])
  {
    if s == [] then 0
    else DecimalValue(s[..|s| - 1]) * 10 + DigitValue(s[|s| - 1])
  }

  function DigitValue(c: char): (d: nat)
    requires IsDigit(c)
    ensures d < 10
  {
    c as int - '0' as int
  }

  const U64: nat := 0x1_0000_0000_0000_0000

  /**
   * The key of an actors member: `std::stoul` of its name (leading digits,
   * failing without one or beyond `unsigned long`), narrowed to `uint32_t`.
   */
  function ParseKey(s: string): (r: Result<U32Value>)
    ensures r.Ok? <==> DigitRun(s) > 0 && DecimalValue(s[..DigitRun(s)]) < U64
    ensures r.Ok? ==> r.value == DecimalValue(s[..DigitRun(s)]) % U32
  {
    var n := DigitRun(s);
    if n == 0 then Err(LibraryError)
    else
      var v := DecimalValue(s[..n]);
      if v >= U64 then Err(LibraryError) else Ok(v % U32)
  }

  lemma DigitIsDigit(d: nat)
    requires d < 10
    ensures IsDigit(Digit(d)) && DigitValue(Digit(d)) == d
  {
  }

  /** The numeral of `n` is all digits and reads back as `n`. */
  lemma {:induction false} DecimalReadsBack(n: nat)
    ensures forall i :: 0 <= i < |Decimal(n)| ==> IsDigit(Decimal(n)[i])
    ensures DecimalValue(Decimal(n)) == n
    decreases n
  {
    DigitIsDigit(n % 10);
    if n >= 10 {
      DecimalReadsBack(n / 10);
      var s := Decimal(n);
      assert s[..|s| - 1] == Decimal(n / 10);
    }
  }

  /** A key written as its decimal numeral parses back to itself, whatever follows the digits. */
  lemma ParseKeyOfDecimal(key: U32Value, suffix: string)
    requires suffix == [] || !IsDigit(suffix[0])
    ensures ParseKey(Decimal(key) + suffix) == Ok(key)
  {
    var d := Decimal(key);
    var s := d + suffix;
    DecimalReadsBack(key);
    DigitRunPrefix(d, suffix);
    assert s[..DigitRun(s)] == d;
    var v := DecimalValue(d);
    assert v == key < U32 < U64;
    assert v % U32 == key;
    assert ParseKey(s) == Ok(v % U32);
  }

  /** The run of digits of a digit string followed by a non-digit ends where the digit string does. */
  lemma {:induction false} DigitRunPrefix(d: string, suffix: string)
    requires forall i :: 0 <= i < |d| ==> IsDigit(d[i])
    requires suffix == [] || !IsDigit(suffix[0])
    ensures DigitRun(d + suffix) == |d|
    decreases |d|
  {
    if d == [] {
      assert d + suffix == suffix;
    } else {
      assert (d + suffix)[1..] == d[1..] + suffix;
      DigitRunPrefix(d[1..], suffix);
    }
  }

  /***** World *****/

  const IterationError := "cannot use key() for non-object iterators"

  /** The world after adding the members in order, or the first failure (the key is parsed before the actor). */
  function Loaded(w: World, members: seq<(string, Json)>, actor: Json -> Result<Actor>): (r: Result<World>)
    decreases |members|
  {
    if members == [] then Ok(w)
    else
      var key := ParseKey(members[0].0);
      if key.Err? then Err(key.error) else
      var a := actor(members[0].1);
      if a.Err? then Err(a.error) else
      Loaded(w.AddActorAt(key.value, a.value), members[1..], actor)
  }

  /**
   * `DeserializeWorld` (as written): each member of "actors" goes in under its
   * parsed key through the explicit-key `AddActor`. A null or empty-array
   * "actors" gives the empty world; any other non-object fails when its
   * iterator is asked for a key. `actor` stands for `DeserializeActor`, a
   * method, which a specification function cannot call.
   */
  method DeserializeWorld(j: Json, actor: Json -> Result<Actor>) returns (r: Result<World>)
    ensures var a := Member(j, "actors");
            a.Ok? && a.value.JObject? ==> r == Loaded(EmptyWorld, a.value.members, actor)
    ensures var a := Member(j, "actors");
            a.Ok? && (a.value.JNull? || a.value == JArray([])) ==> r == Ok(EmptyWorld)
    ensures Member(j, "actors").Err? ==> r.Err?
    ensures var a := Member(j, "actors");
            a.Ok? && !a.value.JObject? && !a.value.JNull? && a.value != JArray([]) ==> r == Err(IterationError)
    ensures r == DeserializeWorldResult(j, actor)
  {
    var a := Member(j, "actors");
    if a.Err? {
      return Err(a.error);
    }
    if a.value.JNull? || a.value == JArray([]) {
      return Ok(EmptyWorld);
    }
    if !a.value.JObject? {
      return Err(IterationError);
    }
    var members := a.value.members;
    var w := EmptyWorld;
    var i := 0;
    while i < |members|
      invariant 0 <= i <= |members|
      invariant Loaded(EmptyWorld, members, actor) == Loaded(w, members[i..], actor)
    {
      assert members[i..][1..] == members[i + 1..];
      var key := ParseKey(members[i].0);
      if key.Err? {
        return Err(key.error);
      }
      var data := actor(members[i].1);
      if data.Err? {
        return Err(data.error);
      }
      w := w.AddActorAt(key.value, data.value);
      i := i + 1;
    }
    r := Ok(w);
  }

  /** The keys of the members, parsed, in order. */
  function ParsedKeys(members: seq<(string, Json)>): (ks: seq<nat>)
    ensures |ks| == |members|
  {
    if members == [] then []
    else [if ParseKey(members[0].0).Ok? then ParseKey(members[0].0).value else 0] + ParsedKeys(members[1..])
  }

  /**
   * What the as-written loader leaves: the actors of every member (the first
   * of a repeated key), and a counter one above the key parsed LAST, whatever
   * the keys before it.
   */
  lemma {:induction false} LoadedCounter(w: World, members: seq<(string, Json)>, actor: Json -> Result<Actor>)
    requires members != [] && Loaded(w, members, actor).Ok?
    ensures Loaded(w, members, actor).value.newActorKey == ParsedKeys(members)[|members| - 1] + 1
    ensures Loaded(w, members, actor).value.actors.Keys == w.actors.Keys + set k | k in ParsedKeys(members)
    decreases |members|
  {
    var key := ParseKey(members[0].0);
    var w1 := w.AddActorAt(key.value, actor(members[0].1).value);
    if |members| > 1 {
      LoadedCounter(w1, members[1..], actor);
    }
  }

  /** Strict lexicographic order on strings: the order a `std::map` of strings iterates in. */
  predicate LexLess(a: string, b: string)
  {
    (|a| < |b| && a == b[..|a|])
    || exists i :: 0 <= i < |a| && i < |b| && a[..i] == b[..i] && a[i] < b[i]
  }

  /** An actor to load: a static body with no shapes. */
  const SampleActor := NewActor(DefaultBody.(inverseMass := 0.0), ModelDefault)

  /**
   * A scene with actors "9" and "10" is iterated "10" first, so the counter
   * ends at 10 although key 10 is in use; the next automatic `AddActor` is
   * then refused by the map and its actor silently dropped.
   */
  lemma LastKeyCounterReusesKey(other: Actor)
    requires other != SampleActor
    ensures LexLess("10", "9")
    ensures var members := [("10", JNull), ("9", JNull)];
            var loaded := Loaded(EmptyWorld, members, _ => Ok(SampleActor));
            && loaded.Ok? && loaded.value.newActorKey == 10 && 10 in loaded.value.actors
            && !loaded.value.KeysBelowCounter()
            && loaded.value.AddActor(other).key == 10
            && loaded.value.AddActor(other).world.actors[10] == SampleActor
  {
    assert "10"[..0] == "9"[..0] && "10"[0] < "9"[0];
    var members := [("10", JNull), ("9", JNull)];
    assert DigitRun("10") == 2 && "10"[..2] == "10";
    assert DecimalValue("10"[..1]) == 1;
    assert DigitRun("9") == 1 && "9"[..1] == "9";
    assert members[1..] == [("9", JNull)];
  }

  /**
   * The explicit-key add as evidently intended for loading: the counter only
   * ever rises, to one above the key, so it stays above every key in use.
   */
  function AddActorRaising(w: World, key: nat, data: Actor): (r: World)
    ensures r.actors == w.AddActorAt(key, data).actors
    ensures r.newActorKey == if w.newActorKey > key + 1 then w.newActorKey else key + 1
  {
    var added := w.AddActorAt(key, data);
    if w.newActorKey > key + 1 then added.(newActorKey := w.newActorKey) else added
  }

  /** `Loaded` with the raising add. */
  function LoadedRaising(w: World, members: seq<(string, Json)>, actor: Json -> Result<Actor>): (r: Result<World>)
    decreases |members|
  {
    if members == [] then Ok(w)
    else
      var key := ParseKey(members[0].0);
      if key.Err? then Err(key.error) else
      var a := actor(members[0].1);
      if a.Err? then Err(a.error) else
      LoadedRaising(AddActorRaising(w, key.value, a.value), members[1..], actor)
  }

  /** The counter is one above the largest key in use, or 0 with no actors. */
  predicate CounterAboveLargest(w: World)
  {
    w.KeysBelowCounter() && (if w.newActorKey == 0 then w.actors == map[] else w.newActorKey - 1 in w.actors)
  }

  /**
   * Loading with the raising add fails exactly when the as-written loader
   * does, with the same error, and stores the same actors; and it leaves the
   * counter one above the largest key, in whatever order the keys come.
   */
  lemma {:induction false} LoadedRaisingAgrees(w: World, v: World, members: seq<(string, Json)>,
                                               actor: Json -> Result<Actor>)
    requires v.actors == w.actors && CounterAboveLargest(v)
    ensures LoadedRaising(v, members, actor).Ok? <==> Loaded(w, members, actor).Ok?
    ensures LoadedRaising(v, members, actor).Err? ==>
              LoadedRaising(v, members, actor).error == Loaded(w, members, actor).error
    ensures LoadedRaising(v, members, actor).Ok? ==>
              && LoadedRaising(v, members, actor).value.actors == Loaded(w, members, actor).value.actors
              && CounterAboveLargest(LoadedRaising(v, members, actor).value)
    decreases |members|
  {
    if members != [] {
      var key := ParseKey(members[0].0);
      if key.Ok? && actor(members[0].1).Ok? {
        var data := actor(members[0].1).value;
        LoadedRaisingAgrees(w.AddActorAt(key.value, data), AddActorRaising(v, key.value, data), members[1..], actor);
      }
    }
  }

  /**
   * `DeserializeWorld` with the counter raised rather than set: the same
   * outcome and actors as the as-written loader, and a counter above every
   * loaded key, so the next automatic add always stores its actor.
   */
  method DeserializeWorldRaising(j: Json, actor: Json -> Result<Actor>) returns (r: Result<World>)
    ensures r.Ok? <==> DeserializeWorldResult(j, actor).Ok?
    ensures r.Ok? ==> r.value.actors == DeserializeWorldResult(j, actor).value.actors
    ensures r.Ok? ==> CounterAboveLargest(r.value)
  {
    var a := Member(j, "actors");
    if a.Err? {
      return Err(a.error);
    }
    if a.value.JNull? || a.value == JArray([]) {
      return Ok(EmptyWorld);
    }
    if !a.value.JObject? {
      return Err(IterationError);
    }
    var members := a.value.members;
    LoadedRaisingAgrees(EmptyWorld, EmptyWorld, members, actor);
    var w := EmptyWorld;
    var i := 0;
    while i < |members|
      invariant 0 <= i <= |members|
      invariant LoadedRaising(EmptyWorld, members, actor) == LoadedRaising(w, members[i..], actor)
    {
      assert members[i..][1..] == members[i + 1..];
      var key := ParseKey(members[i].0);
      if key.Err? {
        return Err(key.error);
      }
      var data := actor(members[i].1);
      if data.Err? {
        return Err(data.error);
      }
      w := AddActorRaising(w, key.value, data.value);
      i := i + 1;
    }
    r := Ok(w);
  }

  /** A loaded world's next automatic add always stores its actor under a fresh key. */
  lemma RaisedCounterIsFree(w: World, data: Actor)
    requires CounterAboveLargest(w)
    ensures w.AddActor(data).key !in w.actors
    ensures w.AddActor(data).world.actors == w.actors[w.AddActor(data).key := data]
  {
  }

  /** What `DeserializeWorld` returns, as a function. */
  function DeserializeWorldResult(j: Json, actor: Json -> Result<Actor>): Result<World>
  {
    var a := Member(j, "actors");
    if a.Err? then Err(a.error)
    else if a.value.JNull? || a.value == JArray([]) then Ok(EmptyWorld)
    else if !a.value.JObject? then Err(IterationError)
    else Loaded(EmptyWorld, a.value.members, actor)
  }
}
