/** physicstester's `RubeLoaderComponent`: `loadRubeScene` fixes `_scale`, and
    `loadSceneIntoWorld` loads bodies and joints with it, then rewrites every image descriptor of
    the document in place and hands the list to the object passed as `world`. */
module TesterLoader {
  import opened Wrappers
  import opened Rube
  import opened Engine
  import opened Coords
  import opened Joints
  import opened Bodies
  import opened Scene

  // ---------------------------------------------------------------------------------------------
  // getByValue

  /** The index of the first entry of `arr` named `value`. */
  function FirstNamed(arr: Props, value: string): (r: Option<nat>)
    ensures r.Some? ==> r.value < |arr| && arr[r.value].name == value &&
                        forall k :: 0 <= k < r.value ==> arr[k].name != value
    ensures r.None? ==> forall k :: 0 <= k < |arr| ==> arr[k].name != value
  {
    if |arr| == 0 then None
    else if arr[0].name == value then Some(0)
    else
      var t := FirstNamed(arr[1..], value);
      if t.Some? then Some(t.value + 1) else None
  }

  /** `getByValue(arr, value)`: the `int` of the first entry named `value`, or `undefined` when
      no entry has that name or the first that has it carries no `int`.  Reading `length` of an
      absent array throws. */
  method GetByValue(arr: Option<Props>, value: string) returns (r: Completion<Option<int>>)
    ensures r.Thrown? <==> arr.None?
    ensures arr.Some? ==>
              var k := FirstNamed(arr.value, value);
              r.Normal? && r.value == (if k.Some? then arr.value[k.value].intValue else None)
  {
    if arr.None? {
      return Thrown;
    }
    var a := arr.value;
    var i := 0;
    while i < |a|
      invariant 0 <= i <= |a|
      invariant forall k :: 0 <= k < i ==> a[k].name != value
    {
      if a[i].name == value {
        return Normal(a[i].intValue);
      }
      i := i + 1;
    }
    return Normal(None);
  }

  // ---------------------------------------------------------------------------------------------
  // loadImageFromRUBE

  /** `loadImageFromRUBE` for one image when `n` bodies were loaded: the descriptor as rewritten,
      or a thrown error.  An image on a body throws when it has no `customProperties`
      (`getByValue` reads their length) or its index is not inside the table; a background
      image throws when it has no `file`. */
  function ImageStep(img: ImageDesc, n: nat): (r: Completion<ImageDesc>)
    ensures r.Thrown? <==>
              if AttachedToBody(img.body)
              then img.customProperties.None? || !(img.body.BodyIndex? && img.body.index < n)
              else img.file.None?
  {
    if AttachedToBody(img.body) then
      if img.customProperties.None? || !(img.body.BodyIndex? && img.body.index < n) then Thrown
      else Normal(img.(aspectScale := Some(img.aspectScale.GetOr(1.0)), center := Some(Vec(0.0, 0.0))))
    else if img.file.None? then Thrown
    else Normal(img.(body := NullBody, aspectScale := Some(img.aspectScale.GetOr(1.0)),
                     center := Some(Vec(0.0, 0.0))))
  }

  /** Which images throw, by the shape of `body`: `null` counts as attached and indexes nothing, so
      it always throws; an absent or negative index is a background image, which throws exactly
      when it has no `file`; a non-negative index loads exactly when the image has custom
      properties and the index is inside the table. */
  lemma ImageBranches(img: ImageDesc, n: nat)
    ensures img.body.NullBody? ==> ImageStep(img, n).Thrown?
    ensures img.body.NoBody? || (img.body.BodyIndex? && img.body.index < 0) ==>
              (ImageStep(img, n).Thrown? <==> img.file.None?)
    ensures img.body.BodyIndex? && img.body.index >= 0 ==>
              (ImageStep(img, n).Normal? <==> img.customProperties.Some? && img.body.index < n)
  {
  }

  /** What a loaded image looks like: `aspectScale` defaults to 1, the centre is reset to the
      origin, a background image is detached with `body = null`, and nothing else changes. */
  lemma ImageRewrite(img: ImageDesc, n: nat)
    requires ImageStep(img, n).Normal?
    ensures var out := ImageStep(img, n).value;
            out.aspectScale == (if img.aspectScale.Some? then img.aspectScale else Some(1.0)) &&
            out.center == Some(Vec(0.0, 0.0)) &&
            out.body == (if AttachedToBody(img.body) then img.body else NullBody) &&
            out.name == img.name && out.file == img.file && out.scale == img.scale &&
            out.angle == img.angle && out.customProperties == img.customProperties
  {
  }

  /** A rewritten image is rewritten to itself when it is on a body; a background image, now
      `body = null`, counts as attached and throws on a second load. */
  lemma ImageStepTwice(img: ImageDesc, n: nat, n': nat)
    requires ImageStep(img, n).Normal?
    ensures AttachedToBody(img.body) ==> ImageStep(ImageStep(img, n).value, n) == ImageStep(img, n)
    ensures !AttachedToBody(img.body) ==> ImageStep(ImageStep(img, n).value, n').Thrown?
  {
  }

  /** `loadImageFromRUBE(images[i], world, loadedBodies)` with `n` bodies loaded: the slot is
      rewritten in place when the image loads and left as it was when the call throws. */
  method LoadImage(images: array<ImageDesc>, i: nat, n: nat) returns (completed: bool)
    requires i < images.Length
    modifies images
    ensures completed == ImageStep(old(images[i]), n).Normal?
    ensures images[..] == if completed then old(images[..])[i := ImageStep(old(images[i]), n).value]
                          else old(images[..])
  {
    var img := images[i];
    if AttachedToBody(img.body) {
      var textureId := GetByValue(img.customProperties, "texturearrayid");
      if textureId.Thrown? {
        return false;
      }
      if !(img.body.BodyIndex? && img.body.index < n) {
        return false;
      }
    } else {
      if img.file.None? {
        return false;
      }
      images[i] := images[i].(body := NullBody);
    }
    if images[i].aspectScale.None? {
      images[i] := images[i].(aspectScale := Some(1.0));
    }
    images[i] := images[i].(center := Some(Vec(0.0, 0.0)));
    return true;
  }

  // ---------------------------------------------------------------------------------------------
  // The image loop

  /** The index of the first image that throws. */
  function FirstThrow(imgs: seq<ImageDesc>, n: nat): (r: Option<nat>)
    ensures r.Some? ==> r.value < |imgs| && ImageStep(imgs[r.value], n).Thrown? &&
                        forall k :: 0 <= k < r.value ==> ImageStep(imgs[k], n).Normal?
    ensures r.None? ==> forall k :: 0 <= k < |imgs| ==> ImageStep(imgs[k], n).Normal?
  {
    if |imgs| == 0 then None
    else if ImageStep(imgs[0], n).Thrown? then Some(0)
    else
      var t := FirstThrow(imgs[1..], n);
      if t.Some? then Some(t.value + 1) else None
  }

  /** How many images the loop gets through: all of them, or up to the first that throws. */
  function ImagesReached(imgs: seq<ImageDesc>, n: nat): (k: nat)
    ensures k <= |imgs|
  {
    var t := FirstThrow(imgs, n);
    if t.Some? then t.value else |imgs|
  }

  /** The image array once the first `k` images have been loaded. */
  function RewrittenUpTo(imgs: seq<ImageDesc>, n: nat, k: nat): (r: seq<ImageDesc>)
    requires k <= |imgs|
    requires forall i :: 0 <= i < k ==> ImageStep(imgs[i], n).Normal?
    ensures |r| == |imgs|
    ensures forall i :: 0 <= i < |r| ==> r[i] == if i < k then ImageStep(imgs[i], n).value else imgs[i]
  {
    seq(|imgs|, i requires 0 <= i < |imgs| => if i < k then ImageStep(imgs[i], n).value else imgs[i])
  }

  /** The image array after the loop: every image up to the first that throws is rewritten,
      the rest are as they were. */
  function ImagesAfter(imgs: seq<ImageDesc>, n: nat): seq<ImageDesc> {
    RewrittenUpTo(imgs, n, ImagesReached(imgs, n))
  }

  /** Loading a document twice throws when it has a background image: the first load sets that
      image's `body` to `null`.  A document whose images are all on bodies loads again to the
      same array. */
  lemma {:induction false} SecondLoad(imgs: seq<ImageDesc>, n: nat, n': nat)
    requires FirstThrow(imgs, n).None?
    ensures (exists i :: 0 <= i < |imgs| && !AttachedToBody(imgs[i].body)) ==>
              FirstThrow(ImagesAfter(imgs, n), n').Some?
    ensures (forall i :: 0 <= i < |imgs| ==> AttachedToBody(imgs[i].body)) ==>
              FirstThrow(ImagesAfter(imgs, n), n).None? &&
              ImagesAfter(ImagesAfter(imgs, n), n) == ImagesAfter(imgs, n)
  {
    var out := ImagesAfter(imgs, n);
    if i :| 0 <= i < |imgs| && !AttachedToBody(imgs[i].body) {
      ImageStepTwice(imgs[i], n, n');
      assert ImageStep(out[i], n').Thrown?;
    }
    if forall i :: 0 <= i < |imgs| ==> AttachedToBody(imgs[i].body) {
      forall i | 0 <= i < |out| ensures ImageStep(out[i], n) == Normal(out[i]) {
        ImageStepTwice(imgs[i], n, n);
      }
      var again := ImagesAfter(out, n);
      assert |again| == |out|;
      forall i | 0 <= i < |out| ensures again[i] == out[i] {
      }
    }
  }

  /** The image loop: the images are rewritten in order until one throws. */
  method LoadImages(images: array<ImageDesc>, n: nat) returns (completed: bool)
    modifies images
    ensures completed == FirstThrow(old(images[..]), n).None?
    ensures images[..] == ImagesAfter(old(images[..]), n)
  {
    ghost var imgs := images[..];
    var i := 0;
    while i < images.Length
      invariant 0 <= i <= images.Length
      invariant forall k :: 0 <= k < i ==> ImageStep(imgs[k], n).Normal?
      invariant images[..] == RewrittenUpTo(imgs, n, i)
    {
      assert images[i] == imgs[i];
      var loaded := LoadImage(images, i, n);
      if !loaded {
        assert FirstThrow(imgs, n) == Some(i) by {
          FirstThrowIsFirst(imgs, n, i);
        }
        return false;
      }
      i := i + 1;
    }
    return true;
  }

  /** The first image that throws is the one a loop finds by walking from the start. */
  lemma FirstThrowIsFirst(imgs: seq<ImageDesc>, n: nat, i: nat)
    requires i < |imgs| && ImageStep(imgs[i], n).Thrown?
    requires forall k :: 0 <= k < i ==> ImageStep(imgs[k], n).Normal?
    ensures FirstThrow(imgs, n) == Some(i)
  {
  }

  // ---------------------------------------------------------------------------------------------
  // The component

  /** The object passed to `loadSceneIntoWorld` as `world`, which receives `images`. */
  class SceneTarget {
    var images: Option<seq<ImageDesc>>

    constructor ()
      ensures images.None?
    {
      images := None;
    }
  }

  /** The arrays `loadSceneIntoWorld` may write: the document's images. */
  function ImagesOf(doc: SceneDocument): set<object> {
    if doc.image.Some? then {doc.image.value} else {}
  }

  class RubeLoaderComponent {
    /** `_scale`, which only `loadRubeScene` sets. */
    var scale: Option<real>

    constructor ()
      ensures scale.None?
    {
      scale := None;
    }

    /** `loadRubeScene` sets `_scale` to 1.3 before it loads anything. */
    method LoadRubeScene()
      modifies this
      ensures scale == Some(DefaultScale)
    {
      scale := Some(DefaultScale);
    }

    /** `loadSceneIntoWorld(worldJso, world)` with `ige.box2d._scaleRatio` equal to
        `scaleRatio`: bodies and joints are loaded with `_scale`, then the images are rewritten
        in place until one throws; `world.images` is set only when the document has images and
        none of them throws. */
    method LoadSceneIntoWorld(world: World, target: SceneTarget, doc: SceneDocument, scaleRatio: real)
      returns (r: Completion<bool>)
      requires scale.Some?
      modifies world, target, ImagesOf(doc)
      ensures var v := Tester(scale.value, scaleRatio);
              var bs := BodyList(doc);
              world.bodies == old(world.bodies) + SceneBodies(v, bs, |bs|) &&
              world.fixtures == old(world.fixtures) + SceneFixtures(v, bs, |old(world.bodies)|, |bs|)
      ensures var bs := BodyList(doc);
              var js := JointList(doc);
              var table := BodyTable(bs, |old(world.bodies)|);
              world.joints == old(world.joints) + SceneJoints(js, table, TesterProfile(scale.value), |js|) &&
              world.log == old(world.log) + SceneBodyLog(bs, |bs|) + SceneJointLog(js, |table|, |js|)
      ensures var bs := BodyList(doc);
              var n := |TypedBodies(bs, |bs|)|;
              doc.image.Some? ==> doc.image.value[..] == ImagesAfter(old(doc.image.value[..]), n)
      ensures var bs := BodyList(doc);
              var n := |TypedBodies(bs, |bs|)|;
              var completed := doc.image.None? || FirstThrow(old(doc.image.value[..]), n).None?;
              r == (if completed then Normal(forall i :: 0 <= i < |bs| ==> bs[i].bodyType.Some?) else Thrown) &&
              target.images == (if doc.image.Some? && completed then Some(doc.image.value[..])
                                else old(target.images))
    {
      var table, success := LoadBodiesAndJoints(world, Tester(scale.value, scaleRatio), doc);
      if doc.image.Some? {
        var completed := LoadImages(doc.image.value, |table|);
        if !completed {
          return Thrown;
        }
        target.images := Some(doc.image.value[..]);
      }
      return Normal(success);
    }
  }

  // ---------------------------------------------------------------------------------------------
  // The factors of this variant

  /** Revolute limits are negated one by one, without being swapped, so a proper range comes
      out with its lower angle above its upper one; the motor torque is not scaled. */
  lemma RevoluteFactors(j: JointDesc, c: JointCommon, s: real)
    ensures var d := RevoluteDefOf(j, c, TesterProfile(s));
            d.lowerAngle == Negated(j.lowerLimit) && d.upperAngle == Negated(j.upperLimit) &&
            d.maxMotorTorque == j.maxMotorTorque
    ensures var d := RevoluteDefOf(j, c, TesterProfile(s));
            j.lowerLimit.Some? && j.upperLimit.Some? && j.lowerLimit.value < j.upperLimit.value ==>
              d.lowerAngle.value > d.upperAngle.value
  {
    assert forall x: real :: Scaled(x, 1.0) == x;
  }

  /** The lower translation is scaled by `_scale` once and the upper one twice. */
  lemma PrismaticFactors(j: JointDesc, c: JointCommon, s: real)
    ensures PrismaticDefOf(j, c, TesterProfile(s)).lowerTranslation == Times(j.lowerLimit, s)
    ensures PrismaticDefOf(j, c, TesterProfile(s)).upperTranslation == Times(Times(j.upperLimit, s), s)
    ensures PrismaticDefOf(j, c, TesterProfile(s)).maxMotorForce == j.maxMotorForce
  {
    assert forall x: real :: Scaled(x, 1.0) == x;
    if j.upperLimit.Some? {
      var x := j.upperLimit.value;
      assert Scaled(x, s * s) == Scaled(Scaled(x, s), s) by {
        assert x * (s * s) == (x * s) * s;
      }
    }
  }

  /** Distance lengths, anchors and friction limits: lengths and anchors scale by `_scale`, the
      friction limits are passed through. */
  lemma DistanceAndAnchorFactors(j: JointDesc, table: seq<Handle>, c: JointCommon, s: real)
    ensures DistanceDefOf(j, c, TesterProfile(s)).length == Times(j.length, s)
    ensures j.anchorA.Some? && j.anchorA.value.Obj? ==>
              JointCommonOf(j, table, TesterProfile(s)).localAnchorA == ToSim(j.anchorA.value.v, s)
    ensures j.anchorB.Some? && j.anchorB.value.Obj? ==>
              JointCommonOf(j, table, TesterProfile(s)).localAnchorB == ToSim(j.anchorB.value.v, s)
    ensures var d := FrictionDefOf(j, c, TesterProfile(s));
            d.maxForce == j.maxForce && d.maxTorque == j.maxTorque
  {
    assert forall x: real :: Scaled(x, 1.0) == x;
  }
}
