/** The Box2D world and IGE scene graph, seen from the loader: the bodies, fixtures and joints it
    has created, each with the properties the loader writes on it afterwards, and the lines it has
    logged.  A handle is an object's position in its own sequence, in creation order. */
module Engine {
  import opened Wrappers
  import opened Rube

  type Handle = nat

  /** `b2BodyDef.type` as the loader writes it; `NotSet` leaves the definition's own default. */
  datatype BodyType = NotSet | Kinematic | Dynamic

  /** A `b2BodyDef`; `None` marks a field the loader did not write. */
  datatype BodyDef = BodyDef(
    bodyType: BodyType,
    angle: Option<real>,
    angularVelocity: Option<real>,
    awake: Option<bool>,
    fixedRotation: Option<bool>,
    linearVelocity: Option<Vec>)

  datatype Shape =
    | NoShape
    | CircleShape(radius: real, center: Option<Vec>)
    | PolygonShape(vertices: seq<Vec>)
    | EdgeShape(v1: Vec, v2: Vec)

  /** A `b2FixtureDef`; `None` marks a field the loader did not write. */
  datatype FixtureDef = FixtureDef(
    friction: Option<real>,
    density: Option<real>,
    restitution: Option<real>,
    isSensor: Option<bool>,
    categoryBits: Option<int>,
    maskBits: Option<int>,
    groupIndex: Option<int>,
    shape: Shape)

  /** The fields every joint definition gets from `loadJointCommonProperties`; a body reference
      that does not resolve in the body table is `None` (JavaScript `undefined`). */
  datatype JointCommon = JointCommon(
    bodyA: Option<Handle>,
    bodyB: Option<Handle>,
    localAnchorA: Vec,
    localAnchorB: Vec,
    collideConnected: Option<bool>)

  datatype JointDef =
    | RevoluteDef(common: JointCommon, referenceAngle: Option<real>, lowerAngle: Option<real>,
                  upperAngle: Option<real>, maxMotorTorque: Option<real>, motorSpeed: Option<real>,
                  enableLimit: Option<bool>, enableMotor: Option<bool>)
    | DistanceDef(common: JointCommon, length: Option<real>, dampingRatio: Option<real>,
                  frequencyHz: Option<real>)
    | PrismaticDef(common: JointCommon, localAxisA: Option<Vec>, referenceAngle: Option<real>,
                   enableLimit: Option<bool>, lowerTranslation: Option<real>,
                   upperTranslation: Option<real>, enableMotor: Option<bool>,
                   maxMotorForce: Option<real>, motorSpeed: Option<real>)
    | LineDef(common: JointCommon, localAxisA: Option<Vec>)
    | FrictionDef(common: JointCommon, maxForce: Option<real>, maxTorque: Option<real>)
    | WeldDef(common: JointCommon, referenceAngle: Option<real>, dampingRatio: Option<real>,
              frequencyHz: Option<real>)

  /** The `console.log` diagnostics, by kind. */
  datatype Diagnostic =
    | BodyWithoutType
    | UnknownShape
    | JointWithoutType
    | InvalidBodyA(index: int)
    | InvalidBodyB(index: int)
    | RopeReplaced
    | UnsupportedJointType(jointType: string)
    | JointDump

  /** A call the loader makes on the IGE entity that wraps a body. */
  datatype EntityCall =
    | SetIsometric(isometric: bool)
    | SetId(id: Option<string>)
    | Mount(parent: string)
    | TranslateTo(to: Vec)

  /** A Box2D body: its definition, the `name` and `customProperties` the loader writes on it,
      and the calls made on its entity, in order. */
  datatype Body = Body(def: BodyDef, name: Option<string>, customProperties: Option<Props>,
                       entity: seq<EntityCall>)

  /** A Box2D fixture on the body `body`. */
  datatype Fixture = Fixture(body: Handle, def: FixtureDef, name: Option<string>,
                             customProperties: Option<Props>)

  datatype Joint = Joint(def: JointDef, name: Option<string>, customProperties: Option<Props>)

  /** The world both loaders write into (`ige.box2d._world`, the entities around its bodies and
      the console). */
  class World {
    var bodies: seq<Body>
    var fixtures: seq<Fixture>
    var joints: seq<Joint>
    var log: seq<Diagnostic>

    constructor ()
      ensures bodies == [] && fixtures == [] && joints == [] && log == []
    {
      bodies, fixtures, joints, log := [], [], [], [];
    }

    /** `ige.box2d.createBody`: a new body and its entity. */
    method CreateBody(def: BodyDef) returns (h: Handle)
      modifies this
      ensures h == |old(bodies)| && bodies == old(bodies) + [Body(def, None, None, [])]
      ensures fixtures == old(fixtures) && joints == old(joints) && log == old(log)
    {
      h := |bodies|;
      bodies := bodies + [Body(def, None, None, [])];
    }

    method CallEntity(h: Handle, c: EntityCall)
      requires h < |bodies|
      modifies this
      ensures bodies == old(bodies)[h := old(bodies)[h].(entity := old(bodies)[h].entity + [c])]
      ensures fixtures == old(fixtures) && joints == old(joints) && log == old(log)
    {
      bodies := bodies[h := bodies[h].(entity := bodies[h].entity + [c])];
    }

    method SetBodyName(h: Handle, name: string)
      requires h < |bodies|
      modifies this
      ensures bodies == old(bodies)[h := old(bodies)[h].(name := Some(name))]
      ensures fixtures == old(fixtures) && joints == old(joints) && log == old(log)
    {
      bodies := bodies[h := bodies[h].(name := Some(name))];
    }

    method SetBodyCustomProperties(h: Handle, props: Props)
      requires h < |bodies|
      modifies this
      ensures bodies == old(bodies)[h := old(bodies)[h].(customProperties := Some(props))]
      ensures fixtures == old(fixtures) && joints == old(joints) && log == old(log)
    {
      bodies := bodies[h := bodies[h].(customProperties := Some(props))];
    }

    /** `body.CreateFixture(fd)`. */
    method CreateFixture(body: Handle, def: FixtureDef) returns (h: Handle)
      modifies this
      ensures h == |old(fixtures)| && fixtures == old(fixtures) + [Fixture(body, def, None, None)]
      ensures bodies == old(bodies) && joints == old(joints) && log == old(log)
    {
      h := |fixtures|;
      fixtures := fixtures + [Fixture(body, def, None, None)];
    }

    method SetFixtureName(h: Handle, name: string)
      requires h < |fixtures|
      modifies this
      ensures fixtures == old(fixtures)[h := old(fixtures)[h].(name := Some(name))]
      ensures bodies == old(bodies) && joints == old(joints) && log == old(log)
    {
      fixtures := fixtures[h := fixtures[h].(name := Some(name))];
    }

    method SetFixtureCustomProperties(h: Handle, props: Props)
      requires h < |fixtures|
      modifies this
      ensures fixtures == old(fixtures)[h := old(fixtures)[h].(customProperties := Some(props))]
      ensures bodies == old(bodies) && joints == old(joints) && log == old(log)
    {
      fixtures := fixtures[h := fixtures[h].(customProperties := Some(props))];
    }

    /** `world.CreateJoint(jd)`. */
    method CreateJoint(def: JointDef) returns (h: Handle)
      modifies this
      ensures h == |old(joints)| && joints == old(joints) + [Joint(def, None, None)]
      ensures bodies == old(bodies) && fixtures == old(fixtures) && log == old(log)
    {
      h := |joints|;
      joints := joints + [Joint(def, None, None)];
    }

    method SetJointName(h: Handle, name: string)
      requires h < |joints|
      modifies this
      ensures joints == old(joints)[h := old(joints)[h].(name := Some(name))]
      ensures bodies == old(bodies) && fixtures == old(fixtures) && log == old(log)
    {
      joints := joints[h := joints[h].(name := Some(name))];
    }

    method SetJointCustomProperties(h: Handle, props: Props)
      requires h < |joints|
      modifies this
      ensures joints == old(joints)[h := old(joints)[h].(customProperties := Some(props))]
      ensures bodies == old(bodies) && fixtures == old(fixtures) && log == old(log)
    {
      joints := joints[h := joints[h].(customProperties := Some(props))];
    }

    /** `console.log`. */
    method Log(d: Diagnostic)
      modifies this
      ensures log == old(log) + [d]
      ensures bodies == old(bodies) && fixtures == old(fixtures) && joints == old(joints)
    {
      log := log + [d];
    }
  }
}
