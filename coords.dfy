/** The coordinate transform and the constants in which the two loader variants differ. */
module Coords {
  import opened Wrappers
  import opened Rube

  /** The factors one loader variant applies when it converts fixtures and joints. */
  datatype Profile = Profile(
    lengthScale: real,            // circle radius and centre, polygon/chain vertices, getVectorValue
    revoluteLimitFactor: real,    // revolute lowerLimit/upperLimit
    maxMotorTorqueFactor: real,   // revolute maxMotorTorque
    distanceLengthFactor: real,   // distance (and rope) length
    lowerTranslationFactor: real, // prismatic lowerLimit
    upperTranslationFactor: real, // prismatic upperLimit
    maxMotorForceFactor: real,    // prismatic maxMotorForce
    maxForceFactor: real,         // friction maxForce
    maxTorqueFactor: real)        // friction maxTorque

  /** igerubeloader: no geometry scaling, motor torque and force times `ige.box2d._scaleRatio`,
      friction limits times 5 and 3.5. */
  function IgeProfile(scaleRatio: real): Profile {
    Profile(1.0, 1.0, scaleRatio, 1.0, 1.0, 1.0, scaleRatio, 5.0, 3.5)
  }

  /** The value `loadRubeScene` gives the physicstester loader's `_scale`. */
  const DefaultScale: real := 1.3

  /** physicstester: geometry and anchors times `_scale`, revolute limits negated, the upper
      prismatic translation times `_scale` twice, torque, force and friction limits unscaled. */
  function TesterProfile(scale: real): Profile {
    Profile(scale, -1.0, 1.0, scale, scale, scale * scale, 1.0, 1.0, 1.0)
  }

  /** (x·s, −y·s): the editor's frame to the engine's, whose y axis points the other way. */
  function ToSim(v: Vec, s: real): Vec {
    Vec(v.x * s, v.y * s * -1.0)
  }

  /** The engine's frame back to the editor's. */
  function FromSim(w: Vec, s: real): Vec
    requires s != 0.0
  {
    Vec(w.x / s, w.y * -1.0 / s)
  }

  lemma ToSimRoundTrip(v: Vec, s: real)
    requires s != 0.0
    ensures FromSim(ToSim(v, s), s) == v
  {
    assert v.x * s / s == v.x;
    assert v.y * s * -1.0 * -1.0 / s == v.y;
  }

  /** `getVectorValue`: an object is transformed, anything else (absent, a number, `null`)
      gives the origin.  For a non-zero scale the object's coordinates can be read back from the
      result. */
  function VectorValue(val: Option<VecValue>, s: real): (r: Vec)
    ensures val.Some? && val.value.Obj? ==> r == ToSim(val.value.v, s)
    ensures val.Some? && val.value.Obj? && s != 0.0 ==> FromSim(r, s) == val.value.v
    ensures !(val.Some? && val.value.Obj?) ==> r == Vec(0.0, 0.0)
  {
    if val.Some? && val.value.Obj? then
      var v := val.value.v;
      if s != 0.0 then (ToSimRoundTrip(v, s); ToSim(v, s)) else ToSim(v, s)
    else Vec(0.0, 0.0)
  }

  /** `x * f`: every scale factor the loaders apply is a product of this form. */
  function Scaled(x: real, f: real): real {
    x * f
  }

  /** A present number multiplied by `f`; an absent one stays absent. */
  function Times(o: Option<real>, f: real): Option<real> {
    if o.Some? then Some(Scaled(o.value, f)) else None
  }

  /** `x * -1` on a present number. */
  function Negated(o: Option<real>): Option<real> {
    Times(o, -1.0)
  }
}
