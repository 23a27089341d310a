/** igerubeloader's `loadSceneIntoWorld` and `loadImageFromRUBE`: the scene's bodies, then its
    joints, then (when asked to) its images, which this variant turns into IGE entities and
    leaves untouched in the document. */
module IgeLoader {
  import opened Wrappers
  import opened Rube
  import opened Engine
  import opened Coords
  import opened Joints
  import opened Bodies
  import opened Scene

  /** `loadImageFromRUBE` runs to its `return` for `img` when `n` bodies were loaded.  An image on
      a body reads `loadedBodies[img.body].name`, which throws unless the index is inside the
      table; `null` passes the `>= 0` test and then indexes nothing.  Both branches read
      `img.center.x`, which throws when the centre is absent. */
  predicate ImageLoads(img: ImageDesc, n: nat) {
    (AttachedToBody(img.body) ==> img.body.BodyIndex? && img.body.index < n) && img.center.Some?
  }

  /** What `loadImageFromRUBE` returns: the descriptor itself, unchanged, or a thrown error. */
  function ImageOutcome(img: ImageDesc, n: nat): (r: Completion<ImageDesc>)
    ensures r.Normal? ==> r.value == img
  {
    if ImageLoads(img, n) then Normal(img) else Thrown
  }

  /** When an image is on the scene or on a body: a negative index is a background image; `null`
      counts as attached and always throws; an index inside the table loads as long as the
      centre is present. */
  lemma ImageBranches(img: ImageDesc, n: nat)
    ensures img.body.NullBody? ==> ImageOutcome(img, n).Thrown?
    ensures img.center.None? ==> ImageOutcome(img, n).Thrown?
    ensures img.center.Some? && (img.body.NoBody? || (img.body.BodyIndex? && img.body.index < 0)) ==>
              ImageOutcome(img, n) == Normal(img)
    ensures img.center.Some? && img.body.BodyIndex? && img.body.index >= 0 ==>
              (ImageOutcome(img, n).Normal? <==> img.body.index < n)
  {
  }

  /** The image loop: it completes exactly when every image loads. */
  method LoadImages(images: array<ImageDesc>, n: nat) returns (completed: bool)
    ensures completed <==> forall i :: 0 <= i < images.Length ==> ImageOutcome(images[i], n).Normal?
  {
    var i := 0;
    while i < images.Length
      invariant 0 <= i <= images.Length
      invariant forall k :: 0 <= k < i ==> ImageOutcome(images[k], n).Normal?
    {
      var image := ImageOutcome(images[i], n);
      if image.Thrown? {
        return false;
      }
      i := i + 1;
    }
    return true;
  }

  /** `loadSceneIntoWorld(worldJso, mountScene, isIsometric, loadImages)` with
      `ige.box2d._scaleRatio` equal to `scaleRatio`.  Bodies and joints are loaded in full;
      the result is `success` (every body descriptor has a type) unless an image throws, and
      images never clear `success`, since each one that loads returns a truthy object. */
  method LoadSceneIntoWorld(world: World, doc: SceneDocument, mountScene: string, isIsometric: bool,
                            loadImages: bool, scaleRatio: real)
    returns (r: Completion<bool>)
    modifies world
    ensures var v := Ige(mountScene, isIsometric, scaleRatio);
            var bs := BodyList(doc);
            world.bodies == old(world.bodies) + SceneBodies(v, bs, |bs|) &&
            world.fixtures == old(world.fixtures) + SceneFixtures(v, bs, |old(world.bodies)|, |bs|)
    ensures var bs := BodyList(doc);
            var js := JointList(doc);
            var table := BodyTable(bs, |old(world.bodies)|);
            world.joints == old(world.joints) + SceneJoints(js, table, IgeProfile(scaleRatio), |js|) &&
            world.log == old(world.log) + SceneBodyLog(bs, |bs|) + SceneJointLog(js, |table|, |js|)
    ensures var bs := BodyList(doc);
            var n := |TypedBodies(bs, |bs|)|;
            r == if loadImages && doc.image.Some? &&
                    exists i :: 0 <= i < doc.image.value.Length && ImageOutcome(doc.image.value[i], n).Thrown?
                 then Thrown
                 else Normal(forall i :: 0 <= i < |bs| ==> bs[i].bodyType.Some?)
  {
    var table, success := LoadBodiesAndJoints(world, Ige(mountScene, isIsometric, scaleRatio), doc);
    if loadImages && doc.image.Some? {
      var completed := LoadImages(doc.image.value, |table|);
      if !completed {
        return Thrown;
      }
    }
    return Normal(success);
  }

  // ---------------------------------------------------------------------------------------------
  // The factors of this variant

  /** Revolute joints keep the editor's limits; only the motor torque is scaled, by
      `_scaleRatio`, and the motor speed and reference angle are negated. */
  lemma RevoluteFactors(j: JointDesc, c: JointCommon, scaleRatio: real)
    ensures var d := RevoluteDefOf(j, c, IgeProfile(scaleRatio));
            d.lowerAngle == j.lowerLimit && d.upperAngle == j.upperLimit &&
            d.maxMotorTorque == Times(j.maxMotorTorque, scaleRatio) &&
            d.motorSpeed == Negated(j.motorSpeed) && d.referenceAngle == Negated(j.refAngle)
  {
    assert forall x: real :: Scaled(x, 1.0) == x;
  }

  /** Prismatic joints keep the editor's translations and motor speed; only the motor force is
      scaled, by `_scaleRatio`. */
  lemma PrismaticFactors(j: JointDesc, c: JointCommon, scaleRatio: real)
    ensures var d := PrismaticDefOf(j, c, IgeProfile(scaleRatio));
            d.lowerTranslation == j.lowerLimit && d.upperTranslation == j.upperLimit &&
            d.maxMotorForce == Times(j.maxMotorForce, scaleRatio) && d.motorSpeed == j.motorSpeed
  {
    assert forall x: real :: Scaled(x, 1.0) == x;
  }

  /** Friction joints multiply the maximum force by 5 and the maximum torque by 3.5. */
  lemma FrictionFactors(j: JointDesc, c: JointCommon, scaleRatio: real)
    ensures var d := FrictionDefOf(j, c, IgeProfile(scaleRatio));
            d.maxForce == Times(j.maxForce, 5.0) && d.maxTorque == Times(j.maxTorque, 3.5)
  {
  }

  /** No geometry is scaled: anchors, the prismatic axis and distance lengths are the editor's,
      with the y axis flipped. */
  lemma GeometryUnscaled(j: JointDesc, table: seq<Handle>, c: JointCommon, scaleRatio: real)
    ensures var p := IgeProfile(scaleRatio);
            DistanceDefOf(j, c, p).length == j.length &&
            (j.anchorA.Some? && j.anchorA.value.Obj? ==>
               JointCommonOf(j, table, p).localAnchorA == Vec(j.anchorA.value.v.x, -j.anchorA.value.v.y)) &&
            (j.anchorB.Some? && j.anchorB.value.Obj? ==>
               JointCommonOf(j, table, p).localAnchorB == Vec(j.anchorB.value.v.x, -j.anchorB.value.v.y)) &&
            (j.localAxisA.Some? && j.localAxisA.value.Obj? ==>
               PrismaticDefOf(j, c, p).localAxisA == Some(Vec(j.localAxisA.value.v.x, -j.localAxisA.value.v.y)))
  {
    assert forall x: real :: Scaled(x, 1.0) == x;
  }
}
