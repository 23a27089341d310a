/** The RUBE scene document, as the loader reads it.  A field that JavaScript would see as
    `undefined` is `None`: the loader's `hasOwnProperty` override reports exactly those fields as
    absent. */
module Rube {
  import opened Wrappers

  datatype Vec = Vec(x: real, y: real)

  /** A vector-valued field that is present: an object with `x`/`y`, or any non-object value
      (a number, `null`, ...), which fails `instanceof Object`. */
  datatype VecValue = NonObject | Obj(v: Vec)

  /** One entry of a RUBE `customProperties` array; only `name` and `int` are read by the loader,
      the whole entry is otherwise passed through unchanged. */
  datatype Property = Property(name: string, intValue: Option<int>)

  type Props = seq<Property>

  /** The parallel `x[]`/`y[]` vertex arrays of a polygon or chain.  Only `x.length` drives the
      loops, so `y` may be longer. */
  datatype Vertices = Vertices(x: seq<real>, y: seq<real>)

  type ParallelVertices = v: Vertices | |v.x| <= |v.y| witness Vertices([], [])

  datatype CircleDesc = CircleDesc(radius: real, center: Option<Vec>)

  datatype FixtureDesc = FixtureDesc(
    name: Option<string>,
    friction: Option<real>,
    density: Option<real>,
    restitution: Option<real>,
    sensor: Option<bool>,
    categoryBits: Option<int>,
    maskBits: Option<int>,
    groupIndex: Option<int>,
    circle: Option<CircleDesc>,
    polygon: Option<ParallelVertices>,
    chain: Option<ParallelVertices>,
    customProperties: Option<Props>)

  datatype BodyDesc = BodyDesc(
    bodyType: Option<int>,
    name: Option<string>,
    angle: Option<real>,
    angularVelocity: Option<real>,
    active: Option<bool>,
    fixedRotation: Option<bool>,
    linearVelocity: Option<VecValue>,
    awake: Option<bool>,
    position: Option<VecValue>,
    fixture: Option<seq<FixtureDesc>>,
    customProperties: Option<Props>)

  datatype JointDesc = JointDesc(
    jointType: Option<string>,
    name: Option<string>,
    bodyA: Option<int>,
    bodyB: Option<int>,
    anchorA: Option<VecValue>,
    anchorB: Option<VecValue>,
    collideConnected: Option<bool>,
    refAngle: Option<real>,
    lowerLimit: Option<real>,
    upperLimit: Option<real>,
    maxMotorTorque: Option<real>,
    motorSpeed: Option<real>,
    enableLimit: Option<bool>,
    enableMotor: Option<bool>,
    length: Option<real>,
    dampingRatio: Option<real>,
    frequency: Option<real>,
    localAxisA: Option<VecValue>,
    maxMotorForce: Option<real>,
    springDampingRatio: Option<real>,
    springFrequency: Option<real>,
    maxForce: Option<real>,
    maxTorque: Option<real>,
    customProperties: Option<Props>)

  /** The `body` field of an image: absent, `null` (what the physicstester loader writes back into
      a background image), or a number. */
  datatype ImageBody = NoBody | NullBody | BodyIndex(index: int)

  datatype ImageDesc = ImageDesc(
    name: Option<string>,
    file: Option<string>,
    body: ImageBody,
    scale: Option<real>,
    aspectScale: Option<real>,
    angle: Option<real>,
    center: Option<Vec>,
    customProperties: Option<Props>)

  /** The scene object.  Images sit in an array because one loader variant rewrites them in
      place, and those writes stay visible to later readers of the same document. */
  datatype SceneDocument = SceneDocument(
    body: Option<seq<BodyDesc>>,
    joint: Option<seq<JointDesc>>,
    image: Option<array<ImageDesc>>)

  /** JavaScript truthiness of an optional string: present and not empty. */
  predicate Truthy(s: Option<string>) {
    s.Some? && s.value != ""
  }

  /** The name the loader writes on an object: the descriptor's, when it is truthy. */
  function NameOf(name: Option<string>): (r: Option<string>)
    ensures r.Some? <==> Truthy(name)
    ensures r.Some? ==> r == name
  {
    if Truthy(name) then name else None
  }

  /** `hasOwnProperty('body') && body >= 0`: `null >= 0` holds in JavaScript, since `null`
      compares as 0. */
  predicate AttachedToBody(b: ImageBody) {
    match b
    case NoBody => false
    case NullBody => true
    case BodyIndex(i) => i >= 0
  }
}
