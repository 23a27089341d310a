/** `loadJointFromRUBE`, `loadJointCommonProperties` and `getVectorValue`: the same code in both
    loader variants apart from the factors gathered in `Profile`. */
module Joints {
  import opened Wrappers
  import opened Rube
  import opened Engine
  import opened Coords

  /** `loadedBodies[i]`: the handle at an index inside the table, `undefined` for an absent,
      negative or too large index. */
  function Resolve(table: seq<Handle>, idx: Option<int>): (r: Option<Handle>)
    ensures r.Some? <==> idx.Some? && 0 <= idx.value < |table|
    ensures r.Some? ==> r.value in table
  {
    if idx.Some? && 0 <= idx.value < |table| then Some(table[idx.value]) else None
  }

  /** `index >= loadedBodies.length`: an absent index compares false and passes. */
  predicate TooLarge(idx: Option<int>, n: nat) {
    idx.Some? && idx.value >= n
  }

  /** The three guards at the head of `loadJointFromRUBE`. */
  predicate Accepted(j: JointDesc, n: nat) {
    j.jointType.Some? && !TooLarge(j.bodyA, n) && !TooLarge(j.bodyB, n)
  }

  /** The type strings the dispatch recognises. */
  predicate KnownType(t: string) {
    t == "revolute" || t == "distance" || t == "rope" || t == "prismatic" || t == "wheel" ||
    t == "friction" || t == "weld"
  }

  /** `loadJointCommonProperties(jd, jointJso, loadedBodies)`. */
  function JointCommonOf(j: JointDesc, table: seq<Handle>, p: Profile): JointCommon {
    JointCommon(Resolve(table, j.bodyA), Resolve(table, j.bodyB),
                VectorValue(j.anchorA, p.lengthScale), VectorValue(j.anchorB, p.lengthScale),
                if j.collideConnected == Some(true) then Some(true) else None)
  }

  /** `localAxisA.SetV(getVectorValue(...))` when the key is present. */
  function AxisOf(j: JointDesc, p: Profile): Option<Vec> {
    if j.localAxisA.Some? then Some(VectorValue(j.localAxisA, p.lengthScale)) else None
  }

  function RevoluteDefOf(j: JointDesc, c: JointCommon, p: Profile): JointDef {
    RevoluteDef(c, Negated(j.refAngle), Times(j.lowerLimit, p.revoluteLimitFactor),
                Times(j.upperLimit, p.revoluteLimitFactor),
                Times(j.maxMotorTorque, p.maxMotorTorqueFactor), Negated(j.motorSpeed),
                j.enableLimit, j.enableMotor)
  }

  function DistanceDefOf(j: JointDesc, c: JointCommon, p: Profile): JointDef {
    DistanceDef(c, Times(j.length, p.distanceLengthFactor), j.dampingRatio, j.frequency)
  }

  function PrismaticDefOf(j: JointDesc, c: JointCommon, p: Profile): JointDef {
    PrismaticDef(c, AxisOf(j, p), Negated(j.refAngle), j.enableLimit,
                 Times(j.lowerLimit, p.lowerTranslationFactor),
                 Times(j.upperLimit, p.upperTranslationFactor), j.enableMotor,
                 Times(j.maxMotorForce, p.maxMotorForceFactor), j.motorSpeed)
  }

  /** The first joint of the wheel substitute: a distance joint of length 0 acting as the spring. */
  function WheelSpringDefOf(j: JointDesc, c: JointCommon): JointDef {
    DistanceDef(c, Some(0.0), j.springDampingRatio, j.springFrequency)
  }

  /** The second joint of the wheel substitute: a line joint, which carries the motor. */
  function WheelLineDefOf(j: JointDesc, c: JointCommon, p: Profile): JointDef {
    LineDef(c, AxisOf(j, p))
  }

  function FrictionDefOf(j: JointDesc, c: JointCommon, p: Profile): JointDef {
    FrictionDef(c, Times(j.maxForce, p.maxForceFactor), Times(j.maxTorque, p.maxTorqueFactor))
  }

  function WeldDefOf(j: JointDesc, c: JointCommon): JointDef {
    WeldDef(c, Negated(j.refAngle), j.dampingRatio, j.frequency)
  }

  /** The definitions `loadJointFromRUBE` passes to `CreateJoint`, in call order: none for a
      joint the guards reject or whose type is not recognised, two for a wheel (the spring, then
      the line joint), one otherwise. */
  function JointDefsOf(j: JointDesc, table: seq<Handle>, p: Profile): (r: seq<JointDef>)
    ensures |r| == JointsCreated(j, |table|)
  {
    if !Accepted(j, |table|) || !KnownType(j.jointType.value) then []
    else
      var t := j.jointType.value;
      var c := JointCommonOf(j, table, p);
      if t == "revolute" then [RevoluteDefOf(j, c, p)]
      else if t == "distance" || t == "rope" then [DistanceDefOf(j, c, p)]
      else if t == "prismatic" then [PrismaticDefOf(j, c, p)]
      else if t == "wheel" then [WheelSpringDefOf(j, c), WheelLineDefOf(j, c, p)]
      else if t == "friction" then [FrictionDefOf(j, c, p)]
      else [WeldDefOf(j, c)]
  }

  /** How many joints a descriptor creates, given a body table of `n` entries. */
  function JointsCreated(j: JointDesc, n: nat): nat {
    if !Accepted(j, n) || !KnownType(j.jointType.value) then 0
    else if j.jointType.value == "wheel" then 2
    else 1
  }

  /** What `loadJointFromRUBE` logs for `j`. */
  function JointDiagnostics(j: JointDesc, n: nat): seq<Diagnostic> {
    if j.jointType.None? then [JointWithoutType]
    else if TooLarge(j.bodyA, n) then [InvalidBodyA(j.bodyA.value)]
    else if TooLarge(j.bodyB, n) then [InvalidBodyB(j.bodyB.value)]
    else if j.jointType.value == "rope" then [RopeReplaced]
    else if !KnownType(j.jointType.value) then [UnsupportedJointType(j.jointType.value), JointDump]
    else []
  }

  /** The created joints once `if (joint) { ... }` has run: the truthy name and the custom
      properties go to the last one, which is the joint returned. */
  function Annotated(j: JointDesc, defs: seq<JointDef>): (r: seq<Joint>)
    ensures |r| == |defs|
    ensures forall k :: 0 <= k < |r| ==> r[k].def == defs[k]
    ensures forall k :: 0 <= k < |r| ==>
              r[k].name == (if k == |r| - 1 then NameOf(j.name) else None) &&
              r[k].customProperties == (if k == |r| - 1 then j.customProperties else None)
  {
    seq(|defs|, k requires 0 <= k < |defs| =>
          if k == |defs| - 1 then Joint(defs[k], NameOf(j.name), j.customProperties)
          else Joint(defs[k], None, None))
  }

  /** The joints `loadJointFromRUBE` adds to the world. */
  function NewJoints(j: JointDesc, table: seq<Handle>, p: Profile): seq<Joint> {
    Annotated(j, JointDefsOf(j, table, p))
  }

  /** The joint `loadJointFromRUBE` returns when the world held `start` joints before: the last
      one it created, or `null`. */
  function JointResult(j: JointDesc, table: seq<Handle>, start: nat): Option<Handle> {
    var n := JointsCreated(j, |table|);
    if n == 0 then None else Some(start + n - 1)
  }

  // ---------------------------------------------------------------------------------------------
  // Properties

  /** A joint is returned exactly when it passes the guards and its type is recognised; a
      rejected joint creates nothing and only logs, once for a guard and twice (the message and
      the dump) for an unknown type. */
  lemma JointReturnedIffAccepted(j: JointDesc, table: seq<Handle>, p: Profile, start: nat)
    ensures JointResult(j, table, start).Some? <==> Accepted(j, |table|) && KnownType(j.jointType.value)
    ensures JointResult(j, table, start).None? ==>
              NewJoints(j, table, p) == [] && 1 <= |JointDiagnostics(j, |table|)| <= 2
    ensures !Accepted(j, |table|) ==> |JointDiagnostics(j, |table|)| == 1
    ensures Accepted(j, |table|) && !KnownType(j.jointType.value) ==>
              JointDiagnostics(j, |table|) == [UnsupportedJointType(j.jointType.value), JointDump]
  {
  }

  /** The joint carries a name or custom properties. */
  predicate IsAnnotated(x: Joint) {
    x.name.Some? || x.customProperties.Some?
  }

  /** Name and custom properties are written only to the joint returned, the last one created;
      a joint that is not returned gets neither. */
  lemma AnnotationsOnlyOnReturnedJoint(j: JointDesc, table: seq<Handle>, p: Profile, start: nat)
    ensures forall k :: 0 <= k < |NewJoints(j, table, p)| && IsAnnotated(NewJoints(j, table, p)[k]) ==>
              JointResult(j, table, start) == Some(start + k)
    ensures JointResult(j, table, start).Some? ==>
              var r := NewJoints(j, table, p);
              r[|r| - 1].name == NameOf(j.name) && r[|r| - 1].customProperties == j.customProperties
  {
  }

  /** A wheel is two joints on the same bodies and anchors: first a distance joint of length 0
      carrying the spring settings, then the line joint, which is the one returned. */
  lemma WheelMakesTwoJoints(j: JointDesc, table: seq<Handle>, p: Profile, start: nat)
    requires Accepted(j, |table|) && j.jointType == Some("wheel")
    ensures var c := JointCommonOf(j, table, p);
            NewJoints(j, table, p) ==
              [Joint(DistanceDef(c, Some(0.0), j.springDampingRatio, j.springFrequency), None, None),
               Joint(LineDef(c, AxisOf(j, p)), NameOf(j.name), j.customProperties)] &&
            JointResult(j, table, start) == Some(start + 1)
  {
    var r := NewJoints(j, table, p);
    assert |r| == 2;
  }

  /** A rope joint is the distance joint made from the same descriptor, after one log line. */
  lemma RopeIsLoggedDistance(j: JointDesc, table: seq<Handle>, p: Profile)
    requires j.jointType == Some("rope")
    ensures var d := j.(jointType := Some("distance"));
            NewJoints(j, table, p) == NewJoints(d, table, p) &&
            (Accepted(j, |table|) ==>
               JointDiagnostics(j, |table|) == [RopeReplaced] + JointDiagnostics(d, |table|))
  {
    var d := j.(jointType := Some("distance"));
    assert JointCommonOf(d, table, p) == JointCommonOf(j, table, p);
    assert JointDefsOf(j, table, p) == JointDefsOf(d, table, p);
  }

  /** The body references of a joint that passed the guards: an index inside the table resolves to
      that table entry; a negative or absent index is not rejected and stays unresolved. */
  lemma AcceptedJointBodies(j: JointDesc, table: seq<Handle>, p: Profile)
    requires Accepted(j, |table|)
    ensures var c := JointCommonOf(j, table, p);
            (c.bodyA.Some? <==> j.bodyA.Some? && j.bodyA.value >= 0) &&
            (c.bodyB.Some? <==> j.bodyB.Some? && j.bodyB.value >= 0) &&
            (c.bodyA.Some? ==> c.bodyA.value == table[j.bodyA.value]) &&
            (c.bodyB.Some? ==> c.bodyB.value == table[j.bodyB.value])
  {
  }

  /** Anchors: a present object is transformed and can be transformed back; anything else is the
      origin. */
  lemma AnchorsOfJoint(j: JointDesc, table: seq<Handle>, p: Profile)
    requires p.lengthScale != 0.0
    ensures var c := JointCommonOf(j, table, p);
            (j.anchorA.Some? && j.anchorA.value.Obj? ==>
               FromSim(c.localAnchorA, p.lengthScale) == j.anchorA.value.v) &&
            (j.anchorB.Some? && j.anchorB.value.Obj? ==>
               FromSim(c.localAnchorB, p.lengthScale) == j.anchorB.value.v) &&
            (!(j.anchorA.Some? && j.anchorA.value.Obj?) ==> c.localAnchorA == Vec(0.0, 0.0)) &&
            (!(j.anchorB.Some? && j.anchorB.value.Obj?) ==> c.localAnchorB == Vec(0.0, 0.0))
  {
    if j.anchorA.Some? && j.anchorA.value.Obj? {
      ToSimRoundTrip(j.anchorA.value.v, p.lengthScale);
    }
    if j.anchorB.Some? && j.anchorB.value.Obj? {
      ToSimRoundTrip(j.anchorB.value.v, p.lengthScale);
    }
  }

  // ---------------------------------------------------------------------------------------------
  // The converter

  method LoadJointCommonProperties(j: JointDesc, table: seq<Handle>, p: Profile) returns (c: JointCommon)
    ensures c == JointCommonOf(j, table, p)
  {
    var bodyA: Option<Handle> := None;
    if j.bodyA.Some? && 0 <= j.bodyA.value < |table| {
      bodyA := Some(table[j.bodyA.value]);
    }
    var bodyB: Option<Handle> := None;
    if j.bodyB.Some? && 0 <= j.bodyB.value < |table| {
      bodyB := Some(table[j.bodyB.value]);
    }
    c := JointCommon(bodyA, bodyB, VectorValue(j.anchorA, p.lengthScale),
                     VectorValue(j.anchorB, p.lengthScale), None);
    if j.collideConnected == Some(true) {
      c := c.(collideConnected := Some(true));
    }
  }

  method NewRevoluteDef(j: JointDesc, c: JointCommon, p: Profile) returns (jd: JointDef)
    ensures jd == RevoluteDefOf(j, c, p)
  {
    var referenceAngle, lowerAngle, upperAngle, maxMotorTorque, motorSpeed := None, None, None, None, None;
    var enableLimit, enableMotor := None, None;
    if j.refAngle.Some? { referenceAngle := Some(Scaled(j.refAngle.value, -1.0)); }
    if j.lowerLimit.Some? { lowerAngle := Some(Scaled(j.lowerLimit.value, p.revoluteLimitFactor)); }
    if j.upperLimit.Some? { upperAngle := Some(Scaled(j.upperLimit.value, p.revoluteLimitFactor)); }
    if j.maxMotorTorque.Some? { maxMotorTorque := Some(Scaled(j.maxMotorTorque.value, p.maxMotorTorqueFactor)); }
    if j.motorSpeed.Some? { motorSpeed := Some(Scaled(j.motorSpeed.value, -1.0)); }
    if j.enableLimit.Some? { enableLimit := j.enableLimit; }
    if j.enableMotor.Some? { enableMotor := j.enableMotor; }
    jd := RevoluteDef(c, referenceAngle, lowerAngle, upperAngle, maxMotorTorque, motorSpeed,
                      enableLimit, enableMotor);
  }

  method NewDistanceDef(j: JointDesc, c: JointCommon, p: Profile) returns (jd: JointDef)
    ensures jd == DistanceDefOf(j, c, p)
  {
    var length, dampingRatio, frequencyHz := None, None, None;
    if j.length.Some? { length := Some(Scaled(j.length.value, p.distanceLengthFactor)); }
    if j.dampingRatio.Some? { dampingRatio := j.dampingRatio; }
    if j.frequency.Some? { frequencyHz := j.frequency; }
    jd := DistanceDef(c, length, dampingRatio, frequencyHz);
  }

  method NewPrismaticDef(j: JointDesc, c: JointCommon, p: Profile) returns (jd: JointDef)
    ensures jd == PrismaticDefOf(j, c, p)
  {
    var localAxisA := None;
    var referenceAngle, lowerTranslation, upperTranslation, maxMotorForce, motorSpeed := None, None, None, None, None;
    var enableLimit, enableMotor := None, None;
    if j.localAxisA.Some? { localAxisA := Some(VectorValue(j.localAxisA, p.lengthScale)); }
    if j.refAngle.Some? { referenceAngle := Some(Scaled(j.refAngle.value, -1.0)); }
    if j.enableLimit.Some? { enableLimit := j.enableLimit; }
    if j.lowerLimit.Some? { lowerTranslation := Some(Scaled(j.lowerLimit.value, p.lowerTranslationFactor)); }
    if j.upperLimit.Some? { upperTranslation := Some(Scaled(j.upperLimit.value, p.upperTranslationFactor)); }
    if j.enableMotor.Some? { enableMotor := j.enableMotor; }
    if j.maxMotorForce.Some? { maxMotorForce := Some(Scaled(j.maxMotorForce.value, p.maxMotorForceFactor)); }
    if j.motorSpeed.Some? { motorSpeed := j.motorSpeed; }
    jd := PrismaticDef(c, localAxisA, referenceAngle, enableLimit, lowerTranslation, upperTranslation,
                       enableMotor, maxMotorForce, motorSpeed);
  }

  method NewFrictionDef(j: JointDesc, c: JointCommon, p: Profile) returns (jd: JointDef)
    ensures jd == FrictionDefOf(j, c, p)
  {
    var maxForce, maxTorque := None, None;
    if j.maxForce.Some? { maxForce := Some(Scaled(j.maxForce.value, p.maxForceFactor)); }
    if j.maxTorque.Some? { maxTorque := Some(Scaled(j.maxTorque.value, p.maxTorqueFactor)); }
    jd := FrictionDef(c, maxForce, maxTorque);
  }

  method NewWeldDef(j: JointDesc, c: JointCommon) returns (jd: JointDef)
    ensures jd == WeldDefOf(j, c)
  {
    var referenceAngle, dampingRatio, frequencyHz := None, None, None;
    if j.refAngle.Some? { referenceAngle := Some(Scaled(j.refAngle.value, -1.0)); }
    if j.dampingRatio.Some? { dampingRatio := j.dampingRatio; }
    if j.frequency.Some? { frequencyHz := j.frequency; }
    jd := WeldDef(c, referenceAngle, dampingRatio, frequencyHz);
  }

  /** The wheel substitute: the spring joint is created and dropped, the line joint is kept. */
  method CreateWheelJoints(world: World, j: JointDesc, c: JointCommon, p: Profile) returns (h: Handle)
    modifies world
    ensures h == |old(world.joints)| + 1
    ensures world.joints == old(world.joints) + [Joint(WheelSpringDefOf(j, c), None, None),
                                                  Joint(WheelLineDefOf(j, c, p), None, None)]
    ensures world.bodies == old(world.bodies) && world.fixtures == old(world.fixtures)
    ensures world.log == old(world.log)
  {
    var dampingRatio, frequencyHz := None, None;
    if j.springDampingRatio.Some? { dampingRatio := j.springDampingRatio; }
    if j.springFrequency.Some? { frequencyHz := j.springFrequency; }
    var _ := world.CreateJoint(DistanceDef(c, Some(0.0), dampingRatio, frequencyHz));
    var localAxisA := None;
    if j.localAxisA.Some? { localAxisA := Some(VectorValue(j.localAxisA, p.lengthScale)); }
    h := world.CreateJoint(LineDef(c, localAxisA));
  }

  /** `if (joint) { joint.name = ...; joint.customProperties = ... }` on a joint just created. */
  method AnnotateJoint(world: World, j: JointDesc, h: Handle)
    requires h < |world.joints|
    requires world.joints[h].name.None? && world.joints[h].customProperties.None?
    modifies world
    ensures world.joints ==
              old(world.joints)[h := Joint(old(world.joints)[h].def, NameOf(j.name), j.customProperties)]
    ensures world.bodies == old(world.bodies) && world.fixtures == old(world.fixtures)
    ensures world.log == old(world.log)
  {
    if Truthy(j.name) {
      world.SetJointName(h, j.name.value);
    }
    if j.customProperties.Some? {
      world.SetJointCustomProperties(h, j.customProperties.value);
    }
  }

  /** The type dispatch of `loadJointFromRUBE`, once the guards have passed. */
  method CreateTypedJoint(world: World, j: JointDesc, table: seq<Handle>, p: Profile)
    returns (joint: Option<Handle>)
    requires Accepted(j, |table|)
    modifies world
    ensures world.joints == old(world.joints) + NewJoints(j, table, p)
    ensures world.log == old(world.log) + JointDiagnostics(j, |table|)
    ensures joint == JointResult(j, table, |old(world.joints)|)
    ensures world.bodies == old(world.bodies) && world.fixtures == old(world.fixtures)
  {
    var t := j.jointType.value;
    if !KnownType(t) {
      world.Log(UnsupportedJointType(t));
      world.Log(JointDump);
      return None;
    }
    var c := LoadJointCommonProperties(j, table, p);
    var jd;
    if t == "revolute" {
      jd := NewRevoluteDef(j, c, p);
    } else if t == "distance" || t == "rope" {
      if t == "rope" {
        world.Log(RopeReplaced);
      }
      jd := NewDistanceDef(j, c, p);
    } else if t == "prismatic" {
      jd := NewPrismaticDef(j, c, p);
    } else if t == "wheel" {
      var h := CreateWheelJoints(world, j, c, p);
      AnnotateJoint(world, j, h);
      assert NewJoints(j, table, p) ==
               [Joint(WheelSpringDefOf(j, c), None, None),
                Joint(WheelLineDefOf(j, c, p), NameOf(j.name), j.customProperties)];
      return Some(h);
    } else if t == "friction" {
      jd := NewFrictionDef(j, c, p);
    } else {
      jd := NewWeldDef(j, c);
    }
    var h := world.CreateJoint(jd);
    AnnotateJoint(world, j, h);
    assert NewJoints(j, table, p) == [Joint(jd, NameOf(j.name), j.customProperties)];
    joint := Some(h);
  }

  /** `loadJointFromRUBE(jointJso, ..., loadedBodies)`. */
  method LoadJoint(world: World, j: JointDesc, table: seq<Handle>, p: Profile)
    returns (joint: Option<Handle>)
    modifies world
    ensures world.joints == old(world.joints) + NewJoints(j, table, p)
    ensures world.log == old(world.log) + JointDiagnostics(j, |table|)
    ensures joint == JointResult(j, table, |old(world.joints)|)
    ensures world.bodies == old(world.bodies) && world.fixtures == old(world.fixtures)
  {
    if j.jointType.None? {
      world.Log(JointWithoutType);
      return None;
    }
    if j.bodyA.Some? && j.bodyA.value >= |table| {
      world.Log(InvalidBodyA(j.bodyA.value));
      return None;
    }
    if j.bodyB.Some? && j.bodyB.value >= |table| {
      world.Log(InvalidBodyB(j.bodyB.value));
      return None;
    }
    joint := CreateTypedJoint(world, j, table, p);
  }
}
