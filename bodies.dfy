/** `loadBodyFromRUBE` in both loader variants: the body definition they build the same way, the
    fixtures they create on the body, and the calls each variant makes on the body's entity. */
module Bodies {
  import opened Wrappers
  import opened Rube
  import opened Engine
  import opened Coords
  import opened Fixtures

  /** Which loader runs.  The igerubeloader takes the mount scene and the isometric flag as
      arguments; the physicstester loader mounts on `'scene1'`, is always isometric and scales
      geometry by its `_scale` field.  Both read `ige.box2d._scaleRatio`. */
  datatype Variant =
    | Ige(mountScene: string, isometric: bool, scaleRatio: real)
    | Tester(scale: real, scaleRatio: real)

  function ProfileOf(v: Variant): Profile {
    match v
    case Ige(_, _, r) => IgeProfile(r)
    case Tester(s, _) => TesterProfile(s)
  }

  /** The scene node bodies are mounted on. */
  function MountOf(v: Variant): string {
    match v
    case Ige(m, _, _) => m
    case Tester(_, _) => "scene1"
  }

  /** The factor positions are scaled by: `_scaleRatio`, times `_scale` in physicstester. */
  function PositionScale(v: Variant): real {
    match v
    case Ige(_, _, r) => r
    case Tester(s, r) => Scaled(r, s)
  }

  /** The `type` code: 2 is dynamic, 1 kinematic, anything else leaves the default. */
  function BodyTypeOf(code: Option<int>): BodyType {
    if code == Some(2) then Dynamic else if code == Some(1) then Kinematic else NotSet
  }

  /** The `b2BodyDef` built for `b`, with `s` the velocity scale (1 in igerubeloader). */
  function BodyDefOf(b: BodyDesc, s: real): BodyDef {
    BodyDef(BodyTypeOf(b.bodyType), Negated(b.angle), Negated(Times(b.angularVelocity, s)),
            Some(b.awake.GetOr(false)), b.fixedRotation,
            if b.linearVelocity.Some? && b.linearVelocity.value.Obj?
            then Some(ToSim(b.linearVelocity.value.v, s)) else None)
  }

  /** `translateTo` on the entity when the position is an object, scaled by `r`. */
  function PositionCalls(position: Option<VecValue>, r: real): seq<EntityCall> {
    if position.Some? && position.value.Obj? then [TranslateTo(ToSim(position.value.v, r))] else []
  }

  /** The calls made on the entity of `b`, in order.  igerubeloader sets the id only for a named
      body, before mounting; physicstester sets it last and unconditionally. */
  function EntityCallsOf(v: Variant, b: BodyDesc): seq<EntityCall> {
    match v
    case Ige(mount, iso, r) =>
      [SetIsometric(iso)] + (if b.name.Some? then [SetId(b.name)] else []) + [Mount(mount)] +
      PositionCalls(b.position, r)
    case Tester(_, _) =>
      [SetIsometric(true), Mount("scene1")] + PositionCalls(b.position, PositionScale(v)) + [SetId(b.name)]
  }

  /** The body `loadBodyFromRUBE` creates for a descriptor that has a type. */
  function BodyOf(v: Variant, b: BodyDesc): Body {
    Body(BodyDefOf(b, ProfileOf(v).lengthScale), b.name, b.customProperties, EntityCallsOf(v, b))
  }

  /** The fixtures the fixture loop has created on `body` once it has handled `fs[..k]`. */
  function FixturesOf(body: Handle, fs: seq<FixtureDesc>, p: Profile, k: nat): seq<Fixture>
    requires k <= |fs|
  {
    if k == 0 then [] else FixturesOf(body, fs, p, k - 1) + NewFixtures(body, fs[k - 1], p)
  }

  /** The lines the fixture loop has logged once it has handled `fs[..k]`. */
  function FixturesLog(fs: seq<FixtureDesc>, k: nat): seq<Diagnostic>
    requires k <= |fs|
  {
    if k == 0 then [] else FixturesLog(fs, k - 1) + FixtureDiagnostics(fs[k - 1])
  }

  function AllFixtures(body: Handle, fixture: Option<seq<FixtureDesc>>, p: Profile): seq<Fixture> {
    if fixture.Some? then FixturesOf(body, fixture.value, p, |fixture.value|) else []
  }

  function AllFixturesLog(fixture: Option<seq<FixtureDesc>>): seq<Diagnostic> {
    if fixture.Some? then FixturesLog(fixture.value, |fixture.value|) else []
  }

  /** What `loadBodyFromRUBE` logs: one line for a body without a type, else the fixtures' lines. */
  function BodyLog(b: BodyDesc): seq<Diagnostic> {
    if b.bodyType.None? then [BodyWithoutType] else AllFixturesLog(b.fixture)
  }

  /** The bodies `loadBodyFromRUBE` adds to the world: none for a descriptor without a type. */
  function NewBodies(v: Variant, b: BodyDesc): seq<Body> {
    if b.bodyType.None? then [] else [BodyOf(v, b)]
  }

  /** The fixtures `loadBodyFromRUBE` adds to the world, the new body being `h`. */
  function BodyFixtures(v: Variant, b: BodyDesc, h: Handle): seq<Fixture> {
    if b.bodyType.None? then [] else AllFixtures(h, b.fixture, ProfileOf(v))
  }

  /** The body `loadBodyFromRUBE` returns when the world held `start` bodies before: the new
      one, or `null`. */
  function BodyResult(b: BodyDesc, start: nat): Option<Handle> {
    if b.bodyType.None? then None else Some(start)
  }

  // ---------------------------------------------------------------------------------------------
  // Properties

  /** The body definition: the type code mapped, angles negated, the angular velocity scaled and
      negated, `awake` copied when present and false when absent, `fixedRotation` copied, the linear velocity mapped into
      the engine's frame (and back again) only when it is an object. */
  lemma BodyDefMapping(b: BodyDesc, s: real)
    requires s != 0.0
    ensures var d := BodyDefOf(b, s);
            (d.bodyType == Dynamic <==> b.bodyType == Some(2)) &&
            (d.bodyType == Kinematic <==> b.bodyType == Some(1)) &&
            (d.angle.Some? <==> b.angle.Some?) &&
            (d.angle.Some? ==> d.angle.value == -b.angle.value) &&
            (d.angularVelocity.Some? <==> b.angularVelocity.Some?) &&
            (d.angularVelocity.Some? ==> d.angularVelocity.value == -(b.angularVelocity.value * s)) &&
            d.awake == (if b.awake.Some? then b.awake else Some(false)) &&
            d.fixedRotation == b.fixedRotation &&
            (d.linearVelocity.Some? <==> b.linearVelocity.Some? && b.linearVelocity.value.Obj?) &&
            (d.linearVelocity.Some? ==> FromSim(d.linearVelocity.value, s) == b.linearVelocity.value.v)
  {
    if b.linearVelocity.Some? && b.linearVelocity.value.Obj? {
      ToSimRoundTrip(b.linearVelocity.value.v, s);
    }
  }

  /** `active` is written into `awake` and then always overwritten: it has no effect. */
  lemma ActiveIsOverwritten(b: BodyDesc, s: real, active: Option<bool>)
    ensures BodyDefOf(b.(active := active), s) == BodyDefOf(b, s)
  {
  }

  /** Every fixture of `fs` is on `body`. */
  predicate AllOn(fs: seq<Fixture>, body: Handle) {
    forall i :: 0 <= i < |fs| ==> fs[i].body == body
  }

  lemma AllOnAppend(a: seq<Fixture>, b: seq<Fixture>, body: Handle)
    requires AllOn(a, body) && AllOn(b, body)
    ensures AllOn(a + b, body)
  {
    forall i | 0 <= i < |a + b| ensures (a + b)[i].body == body {
      if i >= |a| {
        assert (a + b)[i] == b[i - |a|];
      }
    }
  }

  /** Every fixture the loop creates is on the body it was given. */
  lemma {:induction false} FixturesOnBody(body: Handle, fs: seq<FixtureDesc>, p: Profile, k: nat)
    requires k <= |fs|
    ensures AllOn(FixturesOf(body, fs, p, k), body)
  {
    if k > 0 {
      var prev := FixturesOf(body, fs, p, k - 1);
      var next := NewFixtures(body, fs[k - 1], p);
      FixturesOnBody(body, fs, p, k - 1);
      assert AllOn(next, body);
      AllOnAppend(prev, next, body);
      assert FixturesOf(body, fs, p, k) == prev + next;
    }
  }

  /** The entity is mounted once, on the variant's scene, and placed (when the position is an
      object) only after it is mounted. */
  lemma PlacedAfterMount(v: Variant, b: BodyDesc)
    ensures var e := EntityCallsOf(v, b);
            (forall i :: 0 <= i < |e| && e[i].Mount? ==> e[i].parent == MountOf(v)) &&
            (exists i :: 0 <= i < |e| && e[i].Mount?) &&
            (forall i, k :: 0 <= i < |e| && 0 <= k < |e| && e[i].Mount? && e[k].Mount? ==> i == k) &&
            (forall i, k :: 0 <= i < k < |e| ==> !(e[i].TranslateTo? && e[k].Mount?)) &&
            ((exists i :: 0 <= i < |e| && e[i].TranslateTo?) <==> b.position.Some? && b.position.value.Obj?) &&
            (PositionScale(v) != 0.0 ==>
               forall i :: 0 <= i < |e| && e[i].TranslateTo? ==>
                 FromSim(e[i].to, PositionScale(v)) == b.position.value.v)
  {
    var e := EntityCallsOf(v, b);
    var pos := PositionCalls(b.position, PositionScale(v));
    assert pos == PositionCalls(b.position, match v case Ige(_, _, r) => r case Tester(_, _) => PositionScale(v));
    if b.position.Some? && b.position.value.Obj? && PositionScale(v) != 0.0 {
      ToSimRoundTrip(b.position.value.v, PositionScale(v));
    }
    match v
    case Ige(mount, iso, r) =>
      var ids := if b.name.Some? then [SetId(b.name)] else [];
      assert e == [SetIsometric(iso)] + ids + [Mount(mount)] + pos;
      assert e[|ids| + 1] == Mount(mount);
      if pos != [] {
        assert e[|e| - 1] == pos[0];
      }
    case Tester(_, _) =>
      assert e[1] == Mount("scene1");
      if pos != [] {
        assert e[2] == pos[0];
      }
  }

  /** The entity id: igerubeloader sets it exactly when the body is named; physicstester always
      sets it, to the name or to `undefined`, as its last entity call. */
  lemma EntityId(v: Variant, b: BodyDesc)
    ensures var e := EntityCallsOf(v, b);
            (forall i :: 0 <= i < |e| && e[i].SetId? ==> e[i].id == b.name) &&
            (v.Ige? ==> ((exists i :: 0 <= i < |e| && e[i].SetId?) <==> b.name.Some?)) &&
            (v.Tester? ==> e[|e| - 1] == SetId(b.name))
  {
    var e := EntityCallsOf(v, b);
    if v.Ige? && b.name.Some? {
      assert e[1] == SetId(b.name);
    }
  }

  method BuildBodyDef(b: BodyDesc, s: real) returns (bd: BodyDef)
    ensures bd == BodyDefOf(b, s)
  {
    var bodyType := NotSet;
    if b.bodyType == Some(2) {
      bodyType := Dynamic;
    } else if b.bodyType == Some(1) {
      bodyType := Kinematic;
    }
    var angle, angularVelocity := None, None;
    if b.angle.Some? { angle := Some(Scaled(b.angle.value, -1.0)); }
    if b.angularVelocity.Some? { angularVelocity := Some(Scaled(Scaled(b.angularVelocity.value, s), -1.0)); }
    var awake := None;
    if b.active.Some? { awake := b.active; }
    var fixedRotation := None;
    if b.fixedRotation.Some? { fixedRotation := b.fixedRotation; }
    var linearVelocity := None;
    if b.linearVelocity.Some? && b.linearVelocity.value.Obj? {
      linearVelocity := Some(ToSim(b.linearVelocity.value.v, s));
    }
    if b.awake.Some? {
      awake := b.awake;
    } else {
      awake := Some(false);
    }
    bd := BodyDef(bodyType, angle, angularVelocity, awake, fixedRotation, linearVelocity);
  }

  /** The fixture loop of `loadBodyFromRUBE`. */
  method LoadFixtures(world: World, body: Handle, fs: seq<FixtureDesc>, p: Profile)
    modifies world
    ensures world.fixtures == old(world.fixtures) + FixturesOf(body, fs, p, |fs|)
    ensures world.log == old(world.log) + FixturesLog(fs, |fs|)
    ensures world.bodies == old(world.bodies) && world.joints == old(world.joints)
  {
    FixtureLoopStart(body, fs, p, world.fixtures, world.log);
    var k := 0;
    while k < |fs|
      invariant 0 <= k <= |fs|
      invariant FixtureLoop(body, fs, p, k, old(world.fixtures), old(world.log), world.fixtures, world.log)
      invariant world.bodies == old(world.bodies) && world.joints == old(world.joints)
    {
      ghost var fixtures, log := world.fixtures, world.log;
      LoadFixture(world, body, fs[k], p);
      FixtureLoopStep(body, fs, p, k, old(world.fixtures), old(world.log), fixtures, log, world.fixtures, world.log);
      k := k + 1;
    }
  }

  /** What the fixture loop has done after `fs[..k]`, starting from the given fixtures and log. */
  ghost predicate FixtureLoop(body: Handle, fs: seq<FixtureDesc>, p: Profile, k: nat,
                              fixtures0: seq<Fixture>, log0: seq<Diagnostic>,
                              fixtures: seq<Fixture>, log: seq<Diagnostic>)
    requires k <= |fs|
  {
    fixtures == fixtures0 + FixturesOf(body, fs, p, k) && log == log0 + FixturesLog(fs, k)
  }

  lemma FixtureLoopStart(body: Handle, fs: seq<FixtureDesc>, p: Profile, fixtures: seq<Fixture>, log: seq<Diagnostic>)
    ensures FixtureLoop(body, fs, p, 0, fixtures, log, fixtures, log)
  {
    assert fixtures + FixturesOf(body, fs, p, 0) == fixtures;
    assert log + FixturesLog(fs, 0) == log;
  }

  lemma FixtureLoopStep(body: Handle, fs: seq<FixtureDesc>, p: Profile, k: nat,
                        fixtures0: seq<Fixture>, log0: seq<Diagnostic>,
                        fixtures: seq<Fixture>, log: seq<Diagnostic>,
                        fixtures': seq<Fixture>, log': seq<Diagnostic>)
    requires k < |fs|
    requires FixtureLoop(body, fs, p, k, fixtures0, log0, fixtures, log)
    requires fixtures' == fixtures + NewFixtures(body, fs[k], p)
    requires log' == log + FixtureDiagnostics(fs[k])
    ensures FixtureLoop(body, fs, p, k + 1, fixtures0, log0, fixtures', log')
  {
    AppendAssoc(fixtures0, FixturesOf(body, fs, p, k), NewFixtures(body, fs[k], p));
    AppendAssoc(log0, FixturesLog(fs, k), FixtureDiagnostics(fs[k]));
  }

  /** The entity calls igerubeloader makes before the fixture loop, with the body name. */
  method SetUpIgeEntity(world: World, h: Handle, mount: string, iso: bool, r: real, b: BodyDesc)
    requires h < |world.bodies| && world.bodies[h].entity == [] && world.bodies[h].name.None?
    modifies world
    ensures world.bodies == old(world.bodies)[h := old(world.bodies)[h].(name := b.name,
                                                       entity := EntityCallsOf(Ige(mount, iso, r), b))]
    ensures world.fixtures == old(world.fixtures) && world.joints == old(world.joints)
    ensures world.log == old(world.log)
  {
    ghost var start := world.bodies[h];
    world.CallEntity(h, SetIsometric(iso));
    ghost var ids: seq<EntityCall> := [];
    if b.name.Some? {
      world.SetBodyName(h, b.name.value);
      world.CallEntity(h, SetId(b.name));
      ids := [SetId(b.name)];
    }
    assert world.bodies[h] == start.(name := b.name, entity := [SetIsometric(iso)] + ids);
    world.CallEntity(h, Mount(mount));
    assert world.bodies[h] == start.(name := b.name, entity := [SetIsometric(iso)] + ids + [Mount(mount)]);
    if b.position.Some? && b.position.value.Obj? {
      world.CallEntity(h, TranslateTo(ToSim(b.position.value.v, r)));
    }
    assert world.bodies[h] == start.(name := b.name, entity := EntityCallsOf(Ige(mount, iso, r), b));
  }

  /** The entity calls physicstester makes before the fixture loop. */
  method SetUpTesterEntity(world: World, h: Handle, r: real, b: BodyDesc)
    requires h < |world.bodies| && world.bodies[h].entity == []
    modifies world
    ensures world.bodies == old(world.bodies)[h := old(world.bodies)[h].(
                              entity := [SetIsometric(true), Mount("scene1")] + PositionCalls(b.position, r))]
    ensures world.fixtures == old(world.fixtures) && world.joints == old(world.joints)
    ensures world.log == old(world.log)
  {
    ghost var start := world.bodies[h];
    world.CallEntity(h, SetIsometric(true));
    world.CallEntity(h, Mount("scene1"));
    assert world.bodies[h] == start.(entity := [SetIsometric(true), Mount("scene1")]);
    if b.position.Some? && b.position.value.Obj? {
      world.CallEntity(h, TranslateTo(ToSim(b.position.value.v, r)));
    }
    assert world.bodies[h] == start.(entity := [SetIsometric(true), Mount("scene1")] + PositionCalls(b.position, r));
  }

  /** The part of physicstester after the fixture loop: the body name, then the id. */
  method NameTesterBody(world: World, h: Handle, b: BodyDesc)
    requires h < |world.bodies| && world.bodies[h].name.None?
    modifies world
    ensures world.bodies == old(world.bodies)[h := old(world.bodies)[h].(
                              name := b.name, entity := old(world.bodies)[h].entity + [SetId(b.name)])]
    ensures world.fixtures == old(world.fixtures) && world.joints == old(world.joints)
    ensures world.log == old(world.log)
  {
    if b.name.Some? {
      world.SetBodyName(h, b.name.value);
    }
    world.CallEntity(h, SetId(b.name));
  }

  /** `loadBodyFromRUBE(bodyJso, ...)`: a body without a type is logged and gives `null`; any
      other becomes the next body of the world, with its fixtures, and is returned. */
  method LoadBody(world: World, v: Variant, b: BodyDesc) returns (body: Option<Handle>)
    modifies world
    ensures body == BodyResult(b, |old(world.bodies)|)
    ensures world.bodies == old(world.bodies) + NewBodies(v, b)
    ensures world.fixtures == old(world.fixtures) + BodyFixtures(v, b, |old(world.bodies)|)
    ensures world.log == old(world.log) + BodyLog(b)
    ensures world.joints == old(world.joints)
  {
    if b.bodyType.None? {
      world.Log(BodyWithoutType);
      return None;
    }
    var bd := BuildBodyDef(b, ProfileOf(v).lengthScale);
    var h := world.CreateBody(bd);
    match v {
      case Ige(mount, iso, r) =>
        SetUpIgeEntity(world, h, mount, iso, r, b);
      case Tester(_, _) =>
        SetUpTesterEntity(world, h, PositionScale(v), b);
    }
    if b.fixture.Some? {
      LoadFixtures(world, h, b.fixture.value, ProfileOf(v));
    }
    if v.Tester? {
      NameTesterBody(world, h, b);
    }
    if b.customProperties.Some? {
      world.SetBodyCustomProperties(h, b.customProperties.value);
    }
    body := Some(h);
  }
}
