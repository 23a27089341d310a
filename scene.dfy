/** The body and joint loops of `loadSceneIntoWorld`, the same in both loader variants: every
    body descriptor is converted in order and the bodies returned are collected into
    `loadedBodies`, which the joint loop then indexes.  Each effect of a loop is described by its
    own fold over the descriptors. */
module Scene {
  import opened Wrappers
  import opened Rube
  import opened Engine
  import opened Coords
  import opened Fixtures
  import opened Joints
  import opened Bodies

  /** The body descriptors the loop walks: none when the document has no `body` key. */
  function BodyList(doc: SceneDocument): seq<BodyDesc> {
    if doc.body.Some? then doc.body.value else []
  }

  /** The joint descriptors the loop walks: none when the document has no `joint` key. */
  function JointList(doc: SceneDocument): seq<JointDesc> {
    if doc.joint.Some? then doc.joint.value else []
  }

  /** The descriptors of `bs[..k]` that have a type, in order. */
  function TypedBodies(bs: seq<BodyDesc>, k: nat): (r: seq<BodyDesc>)
    requires k <= |bs|
    ensures |r| <= k
    ensures forall m :: 0 <= m < |r| ==> r[m].bodyType.Some?
  {
    if k == 0 then []
    else TypedBodies(bs, k - 1) + (if bs[k - 1].bodyType.Some? then [bs[k - 1]] else [])
  }

  /** The bodies the loop has created after `bs[..k]`. */
  function SceneBodies(v: Variant, bs: seq<BodyDesc>, k: nat): seq<Body>
    requires k <= |bs|
  {
    if k == 0 then [] else SceneBodies(v, bs, k - 1) + NewBodies(v, bs[k - 1])
  }

  /** The fixtures the loop has created after `bs[..k]`, the world holding `start` bodies before. */
  function SceneFixtures(v: Variant, bs: seq<BodyDesc>, start: nat, k: nat): seq<Fixture>
    requires k <= |bs|
  {
    if k == 0 then []
    else SceneFixtures(v, bs, start, k - 1) + BodyFixtures(v, bs[k - 1], start + |TypedBodies(bs, k - 1)|)
  }

  /** One step of the body loop extends the fixtures by those of the next descriptor. */
  lemma SceneFixturesStep(v: Variant, bs: seq<BodyDesc>, start: nat, i: nat,
                          base: seq<Fixture>, before: seq<Fixture>, after: seq<Fixture>)
    requires i < |bs|
    requires before == base + SceneFixtures(v, bs, start, i)
    requires after == before + BodyFixtures(v, bs[i], start + |TypedBodies(bs, i)|)
    ensures after == base + SceneFixtures(v, bs, start, i + 1)
  {
    AppendAssoc(base, SceneFixtures(v, bs, start, i), BodyFixtures(v, bs[i], start + |TypedBodies(bs, i)|));
  }

  /** The lines the loop has logged after `bs[..k]`. */
  function SceneBodyLog(bs: seq<BodyDesc>, k: nat): seq<Diagnostic>
    requires k <= |bs|
  {
    if k == 0 then [] else SceneBodyLog(bs, k - 1) + BodyLog(bs[k - 1])
  }

  /** One body is created per typed descriptor. */
  lemma {:induction false} SceneBodiesCount(v: Variant, bs: seq<BodyDesc>, k: nat)
    requires k <= |bs|
    ensures |SceneBodies(v, bs, k)| == |TypedBodies(bs, k)|
  {
    if k > 0 {
      SceneBodiesCount(v, bs, k - 1);
    }
  }

  /** `loadedBodies` lists the bodies created, in order: the `m`-th entry is the `m`-th body
      created, which is the body of the `m`-th descriptor that has a type.  A descriptor without
      a type leaves no gap, so joint indices into the table count typed bodies only. */
  lemma {:induction false} SceneBodiesAreTyped(v: Variant, bs: seq<BodyDesc>, k: nat)
    requires k <= |bs|
    ensures |SceneBodies(v, bs, k)| == |TypedBodies(bs, k)|
    ensures forall m :: 0 <= m < |TypedBodies(bs, k)| ==>
              SceneBodies(v, bs, k)[m] == BodyOf(v, TypedBodies(bs, k)[m])
  {
    if k > 0 {
      SceneBodiesAreTyped(v, bs, k - 1);
      var prev := SceneBodies(v, bs, k - 1);
      var typed := TypedBodies(bs, k);
      forall m | 0 <= m < |typed| ensures SceneBodies(v, bs, k)[m] == BodyOf(v, typed[m]) {
        if m < |prev| {
          assert SceneBodies(v, bs, k)[m] == prev[m];
          assert typed[m] == TypedBodies(bs, k - 1)[m];
        }
      }
    }
  }

  /** Every fixture in `fs` is on a body with a handle in `[lo, hi)`. */
  predicate OnBodies(fs: seq<Fixture>, lo: nat, hi: nat) {
    forall i :: 0 <= i < |fs| ==> lo <= fs[i].body < hi
  }

  lemma OnBodiesAppend(a: seq<Fixture>, b: seq<Fixture>, lo: nat, hi: nat)
    requires OnBodies(a, lo, hi) && OnBodies(b, lo, hi)
    ensures OnBodies(a + b, lo, hi)
  {
    forall i | 0 <= i < |a + b| ensures lo <= (a + b)[i].body < hi {
      if i < |a| {
        assert (a + b)[i] == a[i];
      } else {
        assert (a + b)[i] == b[i - |a|];
      }
    }
  }

  lemma OnBodiesWiden(fs: seq<Fixture>, lo: nat, hi: nat, lo': nat, hi': nat)
    requires OnBodies(fs, lo, hi) && lo' <= lo && hi <= hi'
    ensures OnBodies(fs, lo', hi')
  {
  }

  /** The fixtures of one descriptor are on the body it creates, `h`; there are none when it has
      no type. */
  lemma BodyFixturesOnBody(v: Variant, b: BodyDesc, h: Handle)
    ensures OnBodies(BodyFixtures(v, b, h), h, if b.bodyType.Some? then h + 1 else h)
  {
    if b.bodyType.Some? && b.fixture.Some? {
      FixturesOnBody(h, b.fixture.value, ProfileOf(v), |b.fixture.value|);
    }
  }

  /** One more descriptor adds one typed body exactly when it has a type. */
  lemma TypedBodiesStep(bs: seq<BodyDesc>, k: nat)
    requires 0 < k <= |bs|
    ensures |TypedBodies(bs, k)| == |TypedBodies(bs, k - 1)| + (if bs[k - 1].bodyType.Some? then 1 else 0)
  {
  }

  /** Every fixture the body loop creates is on one of the bodies it created. */
  lemma {:induction false} FixturesOnSceneBodies(v: Variant, bs: seq<BodyDesc>, start: nat, k: nat)
    requires k <= |bs|
    ensures OnBodies(SceneFixtures(v, bs, start, k), start, start + |TypedBodies(bs, k)|)
  {
    if k > 0 {
      var prev := SceneFixtures(v, bs, start, k - 1);
      var h := start + |TypedBodies(bs, k - 1)|;
      var next := BodyFixtures(v, bs[k - 1], h);
      var hi := start + |TypedBodies(bs, k)|;
      TypedBodiesStep(bs, k);
      FixturesOnSceneBodies(v, bs, start, k - 1);
      OnBodiesWiden(prev, start, h, start, hi);
      BodyFixturesOnBody(v, bs[k - 1], h);
      OnBodiesWiden(next, h, if bs[k - 1].bodyType.Some? then h + 1 else h, start, hi);
      OnBodiesAppend(prev, next, start, hi);
      assert SceneFixtures(v, bs, start, k) == prev + next;
    }
  }

  /** `n` consecutive handles from `start`. */
  function Handles(start: nat, n: nat): (r: seq<Handle>)
    ensures |r| == n
    ensures forall m :: 0 <= m < n ==> r[m] == start + m
  {
    if n == 0 then [] else Handles(start, n - 1) + [start + n - 1]
  }

  /** `loadedBodies` once the body loop is over, the world holding `start` bodies before: one
      handle per typed descriptor, the handles of consecutive new bodies. */
  function BodyTable(bs: seq<BodyDesc>, start: nat): (r: seq<Handle>)
    ensures |r| == |TypedBodies(bs, |bs|)|
    ensures forall m :: 0 <= m < |r| ==> r[m] == start + m
  {
    Handles(start, |TypedBodies(bs, |bs|)|)
  }

  /** Every descriptor of `bs[..k]` has a type. */
  predicate AllTyped(bs: seq<BodyDesc>, k: nat)
    requires k <= |bs|
  {
    k == 0 || (AllTyped(bs, k - 1) && bs[k - 1].bodyType.Some?)
  }

  lemma {:induction false} AllTypedIff(bs: seq<BodyDesc>, k: nat)
    requires k <= |bs|
    ensures AllTyped(bs, k) <==> forall i :: 0 <= i < k ==> bs[i].bodyType.Some?
  {
    if k > 0 {
      AllTypedIff(bs, k - 1);
      if !bs[k - 1].bodyType.Some? {
        assert !(forall i :: 0 <= i < k ==> bs[i].bodyType.Some?);
      }
    }
  }

  /** `loadedBodies[m]` is the body made from the `m`-th descriptor that has a type. */
  lemma BodyTableResolves(v: Variant, bs: seq<BodyDesc>, bodies0: seq<Body>)
    ensures forall m :: 0 <= m < |BodyTable(bs, |bodies0|)| ==>
              BodyTable(bs, |bodies0|)[m] < |bodies0 + SceneBodies(v, bs, |bs|)| &&
              (bodies0 + SceneBodies(v, bs, |bs|))[BodyTable(bs, |bodies0|)[m]] ==
                BodyOf(v, TypedBodies(bs, |bs|)[m])
  {
    SceneBodiesAreTyped(v, bs, |bs|);
    var table := BodyTable(bs, |bodies0|);
    var created := SceneBodies(v, bs, |bs|);
    forall m | 0 <= m < |table|
      ensures table[m] < |bodies0 + created| &&
              (bodies0 + created)[table[m]] == BodyOf(v, TypedBodies(bs, |bs|)[m])
    {
      assert (bodies0 + created)[|bodies0| + m] == created[m];
    }
  }

  /** The body loop of `loadSceneIntoWorld`: `success` stays true exactly when every descriptor
      has a type, and `loadedBodies` holds the handles of the bodies created, in order. */
  method LoadBodies(world: World, v: Variant, bs: seq<BodyDesc>) returns (table: seq<Handle>, success: bool)
    modifies world
    ensures success <==> forall i :: 0 <= i < |bs| ==> bs[i].bodyType.Some?
    ensures table == BodyTable(bs, |old(world.bodies)|)
    ensures world.bodies == old(world.bodies) + SceneBodies(v, bs, |bs|)
    ensures world.fixtures == old(world.fixtures) + SceneFixtures(v, bs, |old(world.bodies)|, |bs|)
    ensures world.log == old(world.log) + SceneBodyLog(bs, |bs|)
    ensures world.joints == old(world.joints)
  {
    table, success := [], true;
    BodyLoopStart(v, bs, world.bodies, world.fixtures, world.log);
    var i := 0;
    while i < |bs|
      invariant 0 <= i <= |bs|
      invariant BodyLoop(v, bs, i, old(world.bodies), old(world.fixtures), old(world.log),
                         world.bodies, world.fixtures, world.log, table, success)
      invariant world.joints == old(world.joints)
    {
      table, success := LoadNextBody(world, v, bs, i, old(world.bodies), old(world.fixtures), old(world.log), table, success);
      i := i + 1;
    }
    BodyLoopDone(v, bs, old(world.bodies), old(world.fixtures), old(world.log),
                 world.bodies, world.fixtures, world.log, table, success);
  }

  /** What the body loop has done after `bs[..i]`, starting from the given bodies, fixtures and
      log. */
  ghost predicate BodyLoop(v: Variant, bs: seq<BodyDesc>, i: nat,
                           bodies0: seq<Body>, fixtures0: seq<Fixture>, log0: seq<Diagnostic>,
                           bodies: seq<Body>, fixtures: seq<Fixture>, log: seq<Diagnostic>,
                           table: seq<Handle>, success: bool)
    requires i <= |bs|
  {
    && success == AllTyped(bs, i)
    && table == Handles(|bodies0|, |TypedBodies(bs, i)|)
    && bodies == bodies0 + SceneBodies(v, bs, i)
    && fixtures == fixtures0 + SceneFixtures(v, bs, |bodies0|, i)
    && log == log0 + SceneBodyLog(bs, i)
  }

  /** `loadedBodies` after one more descriptor: the next handle is pushed when it has a type. */
  lemma TableStep(bs: seq<BodyDesc>, i: nat, n0: nat, table: seq<Handle>, h: nat, table': seq<Handle>)
    requires i < |bs|
    requires table == Handles(n0, |TypedBodies(bs, i)|)
    requires h == n0 + |TypedBodies(bs, i)|
    requires table' == if bs[i].bodyType.Some? then table + [h] else table
    ensures table' == Handles(n0, |TypedBodies(bs, i + 1)|)
  {
    TypedBodiesStep(bs, i + 1);
  }

  /** The three folds after one more descriptor. */
  lemma FoldStep(v: Variant, bs: seq<BodyDesc>, i: nat,
                 bodies0: seq<Body>, fixtures0: seq<Fixture>, log0: seq<Diagnostic>,
                 bodies: seq<Body>, fixtures: seq<Fixture>, log: seq<Diagnostic>)
    requires i < |bs|
    requires bodies == bodies0 + SceneBodies(v, bs, i)
    requires fixtures == fixtures0 + SceneFixtures(v, bs, |bodies0|, i)
    requires log == log0 + SceneBodyLog(bs, i)
    ensures bodies + NewBodies(v, bs[i]) == bodies0 + SceneBodies(v, bs, i + 1)
    ensures fixtures + BodyFixtures(v, bs[i], |bodies|) == fixtures0 + SceneFixtures(v, bs, |bodies0|, i + 1)
    ensures log + BodyLog(bs[i]) == log0 + SceneBodyLog(bs, i + 1)
  {
    assert |bodies0| + |TypedBodies(bs, i)| == |bodies| by {
      SceneBodiesCount(v, bs, i);
    }
    AppendAssoc(bodies0, SceneBodies(v, bs, i), NewBodies(v, bs[i]));
    SceneFixturesStep(v, bs, |bodies0|, i, fixtures0, fixtures, fixtures + BodyFixtures(v, bs[i], |bodies|));
    AppendAssoc(log0, SceneBodyLog(bs, i), BodyLog(bs[i]));
  }

  /** The loop invariant survives one more descriptor, whatever the descriptor holds. */
  lemma BodyLoopStep(v: Variant, bs: seq<BodyDesc>, i: nat,
                     bodies0: seq<Body>, fixtures0: seq<Fixture>, log0: seq<Diagnostic>,
                     bodies: seq<Body>, fixtures: seq<Fixture>, log: seq<Diagnostic>,
                     table: seq<Handle>, success: bool,
                     bodies': seq<Body>, fixtures': seq<Fixture>, log': seq<Diagnostic>,
                     table': seq<Handle>, success': bool)
    requires i < |bs|
    requires BodyLoop(v, bs, i, bodies0, fixtures0, log0, bodies, fixtures, log, table, success)
    requires bodies' == bodies + NewBodies(v, bs[i])
    requires fixtures' == fixtures + BodyFixtures(v, bs[i], |bodies|)
    requires log' == log + BodyLog(bs[i])
    requires table' == if bs[i].bodyType.Some? then table + [|bodies|] else table
    requires success' == (success && bs[i].bodyType.Some?)
    ensures BodyLoop(v, bs, i + 1, bodies0, fixtures0, log0, bodies', fixtures', log', table', success')
  {
    assert AllTyped(bs, i + 1) == success';
    assert |bodies| == |bodies0| + |TypedBodies(bs, i)| by {
      SceneBodiesCount(v, bs, i);
    }
    TableStep(bs, i, |bodies0|, table, |bodies|, table');
    assert bodies' == bodies0 + SceneBodies(v, bs, i + 1) &&
           fixtures' == fixtures0 + SceneFixtures(v, bs, |bodies0|, i + 1) &&
           log' == log0 + SceneBodyLog(bs, i + 1) by {
      FoldStep(v, bs, i, bodies0, fixtures0, log0, bodies, fixtures, log);
    }
  }

  /** The invariant holds before the first descriptor. */
  lemma BodyLoopStart(v: Variant, bs: seq<BodyDesc>, bodies: seq<Body>, fixtures: seq<Fixture>, log: seq<Diagnostic>)
    ensures BodyLoop(v, bs, 0, bodies, fixtures, log, bodies, fixtures, log, [], true)
  {
    assert bodies + SceneBodies(v, bs, 0) == bodies;
    assert fixtures + SceneFixtures(v, bs, |bodies|, 0) == fixtures;
    assert log + SceneBodyLog(bs, 0) == log;
  }

  /** What the invariant says once every descriptor has been handled. */
  lemma BodyLoopDone(v: Variant, bs: seq<BodyDesc>,
                     bodies0: seq<Body>, fixtures0: seq<Fixture>, log0: seq<Diagnostic>,
                     bodies: seq<Body>, fixtures: seq<Fixture>, log: seq<Diagnostic>,
                     table: seq<Handle>, success: bool)
    requires BodyLoop(v, bs, |bs|, bodies0, fixtures0, log0, bodies, fixtures, log, table, success)
    ensures success <==> forall i :: 0 <= i < |bs| ==> bs[i].bodyType.Some?
    ensures table == BodyTable(bs, |bodies0|)
    ensures bodies == bodies0 + SceneBodies(v, bs, |bs|)
    ensures fixtures == fixtures0 + SceneFixtures(v, bs, |bodies0|, |bs|)
    ensures log == log0 + SceneBodyLog(bs, |bs|)
  {
    AllTypedIff(bs, |bs|);
  }

  /** One iteration of the body loop: `loadBodyFromRUBE` on the next descriptor, its result
      pushed onto `loadedBodies`, or `success` cleared when it returns `null`. */
  method LoadNextBody(world: World, v: Variant, bs: seq<BodyDesc>, i: nat,
                      ghost bodies0: seq<Body>, ghost fixtures0: seq<Fixture>, ghost log0: seq<Diagnostic>,
                      table: seq<Handle>, success: bool)
    returns (table': seq<Handle>, success': bool)
    requires i < |bs|
    requires BodyLoop(v, bs, i, bodies0, fixtures0, log0, world.bodies, world.fixtures, world.log, table, success)
    modifies world
    ensures BodyLoop(v, bs, i + 1, bodies0, fixtures0, log0, world.bodies, world.fixtures, world.log, table', success')
    ensures world.joints == old(world.joints)
  {
    ghost var bodies, fixtures, log := world.bodies, world.fixtures, world.log;
    var body := LoadBody(world, v, bs[i]);
    if body.Some? {
      table', success' := table + [body.value], success;
    } else {
      table', success' := table, false;
    }
    BodyLoopStep(v, bs, i, bodies0, fixtures0, log0, bodies, fixtures, log, table, success,
                 world.bodies, world.fixtures, world.log, table', success');
  }


  /** How many joints the loop has created after `js[..k]`. */
  function JointCountUpTo(js: seq<JointDesc>, n: nat, k: nat): nat
    requires k <= |js|
  {
    if k == 0 then 0 else JointCountUpTo(js, n, k - 1) + JointsCreated(js[k - 1], n)
  }

  /** The joints the loop has created after `js[..k]`. */
  function SceneJoints(js: seq<JointDesc>, table: seq<Handle>, p: Profile, k: nat): seq<Joint>
    requires k <= |js|
  {
    if k == 0 then [] else SceneJoints(js, table, p, k - 1) + NewJoints(js[k - 1], table, p)
  }

  /** The lines the loop has logged after `js[..k]`. */
  function SceneJointLog(js: seq<JointDesc>, n: nat, k: nat): seq<Diagnostic>
    requires k <= |js|
  {
    if k == 0 then [] else SceneJointLog(js, n, k - 1) + JointDiagnostics(js[k - 1], n)
  }

  /** `loadedJoints` after `js[..k]`, the world holding `start` joints before. */
  function LoadedJoints(js: seq<JointDesc>, table: seq<Handle>, start: nat, k: nat): seq<Handle>
    requires k <= |js|
  {
    if k == 0 then []
    else
      var r := JointResult(js[k - 1], table, start + JointCountUpTo(js, |table|, k - 1));
      LoadedJoints(js, table, start, k - 1) + (if r.Some? then [r.value] else [])
  }

  lemma {:induction false} SceneJointsCount(js: seq<JointDesc>, table: seq<Handle>, p: Profile, k: nat)
    requires k <= |js|
    ensures |SceneJoints(js, table, p, k)| == JointCountUpTo(js, |table|, k)
  {
    if k > 0 {
      SceneJointsCount(js, table, p, k - 1);
    }
  }

  /** `loadedJoints` holds, in creation order, handles of joints the loop created: each lies in
      the range created so far and the list is strictly increasing. */
  lemma {:induction false} LoadedJointsIncrease(js: seq<JointDesc>, table: seq<Handle>, start: nat, k: nat)
    requires k <= |js|
    ensures forall m :: 0 <= m < |LoadedJoints(js, table, start, k)| ==>
              start <= LoadedJoints(js, table, start, k)[m] < start + JointCountUpTo(js, |table|, k)
    ensures forall m, n :: 0 <= m < n < |LoadedJoints(js, table, start, k)| ==>
              LoadedJoints(js, table, start, k)[m] < LoadedJoints(js, table, start, k)[n]
  {
    if k > 0 {
      LoadedJointsIncrease(js, table, start, k - 1);
      var prev := LoadedJoints(js, table, start, k - 1);
      var base := start + JointCountUpTo(js, |table|, k - 1);
      var r := JointResult(js[k - 1], table, base);
      var loaded := LoadedJoints(js, table, start, k);
      assert loaded == prev + (if r.Some? then [r.value] else []);
      assert JointCountUpTo(js, |table|, k) == base - start + JointsCreated(js[k - 1], |table|);
      if r.Some? {
        assert base <= r.value < start + JointCountUpTo(js, |table|, k);
        forall m | 0 <= m < |loaded|
          ensures start <= loaded[m] < start + JointCountUpTo(js, |table|, k)
        {
          if m < |prev| {
            assert loaded[m] == prev[m];
          } else {
            assert loaded[m] == r.value;
          }
        }
        forall m, n | 0 <= m < n < |loaded| ensures loaded[m] < loaded[n] {
          assert loaded[m] == prev[m];
          if n < |prev| {
            assert loaded[n] == prev[n];
          } else {
            assert loaded[n] == r.value;
          }
        }
      }
    }
  }

  /** Every annotated joint of `xs`, the first of which has handle `start`, is listed in `loaded`. */
  predicate AnnotatedListed(xs: seq<Joint>, start: nat, loaded: seq<Handle>) {
    forall i :: 0 <= i < |xs| && IsAnnotated(xs[i]) ==> start + i in loaded
  }

  /** Appending one descriptor's joints, annotated only at the handle it returns, keeps every
      annotated joint listed. */
  lemma AnnotatedStep(start: nat, prev: seq<Joint>, prevLoaded: seq<Handle>, nj: seq<Joint>, r: Option<Handle>)
    requires AnnotatedListed(prev, start, prevLoaded)
    requires forall q :: 0 <= q < |nj| && IsAnnotated(nj[q]) ==> r == Some(start + |prev| + q)
    ensures AnnotatedListed(prev + nj, start, prevLoaded + (if r.Some? then [r.value] else []))
  {
    forall i | 0 <= i < |prev + nj| && IsAnnotated((prev + nj)[i])
      ensures start + i in prevLoaded + (if r.Some? then [r.value] else [])
    {
      if i < |prev| {
        assert (prev + nj)[i] == prev[i];
      } else {
        assert (prev + nj)[i] == nj[i - |prev|];
      }
    }
  }

  /** A name or custom properties are found only on the joints `loadedJoints` lists: the one
      joint each accepted descriptor returns. */
  lemma {:induction false} AnnotatedJointsAreLoaded(js: seq<JointDesc>, table: seq<Handle>, p: Profile,
                                                    start: nat, k: nat)
    requires k <= |js|
    ensures AnnotatedListed(SceneJoints(js, table, p, k), start, LoadedJoints(js, table, start, k))
  {
    if k > 0 {
      AnnotatedJointsAreLoaded(js, table, p, start, k - 1);
      AnnotatedJointStep(js, table, p, start, k);
    }
  }

  /** The joints of one more descriptor keep every annotated joint listed. */
  lemma AnnotatedJointStep(js: seq<JointDesc>, table: seq<Handle>, p: Profile, start: nat, k: nat)
    requires 0 < k <= |js|
    requires AnnotatedListed(SceneJoints(js, table, p, k - 1), start, LoadedJoints(js, table, start, k - 1))
    ensures AnnotatedListed(SceneJoints(js, table, p, k), start, LoadedJoints(js, table, start, k))
  {
    var prev := SceneJoints(js, table, p, k - 1);
    var base := start + JointCountUpTo(js, |table|, k - 1);
    var nj := NewJoints(js[k - 1], table, p);
    var r := JointResult(js[k - 1], table, base);
    assert base == start + |prev| by {
      SceneJointsCount(js, table, p, k - 1);
    }
    AnnotationsOnlyOnReturnedJoint(js[k - 1], table, p, base);
    var loaded := LoadedJoints(js, table, start, k - 1) + (if r.Some? then [r.value] else []);
    AnnotatedStep(start, prev, LoadedJoints(js, table, start, k - 1), nj, r);
    LoadedJointsStep(js, table, start, k, r);
    assert SceneJoints(js, table, p, k) == prev + nj;
    ListedRewrite(SceneJoints(js, table, p, k), prev + nj, start, LoadedJoints(js, table, start, k), loaded);
  }

  /** One more descriptor appends its result, when it has one, to `loadedJoints`. */
  lemma LoadedJointsStep(js: seq<JointDesc>, table: seq<Handle>, start: nat, k: nat, r: Option<Handle>)
    requires 0 < k <= |js|
    requires r == JointResult(js[k - 1], table, start + JointCountUpTo(js, |table|, k - 1))
    ensures LoadedJoints(js, table, start, k) ==
              LoadedJoints(js, table, start, k - 1) + (if r.Some? then [r.value] else [])
  {
  }

  lemma ListedRewrite(xs: seq<Joint>, ys: seq<Joint>, start: nat, loaded: seq<Handle>, loaded': seq<Handle>)
    requires AnnotatedListed(ys, start, loaded') && xs == ys && loaded == loaded'
    ensures AnnotatedListed(xs, start, loaded)
  {
  }


  /** The joint loop of `loadSceneIntoWorld`. */
  method LoadJoints(world: World, js: seq<JointDesc>, table: seq<Handle>, p: Profile)
    returns (loaded: seq<Handle>)
    modifies world
    ensures world.joints == old(world.joints) + SceneJoints(js, table, p, |js|)
    ensures world.log == old(world.log) + SceneJointLog(js, |table|, |js|)
    ensures loaded == LoadedJoints(js, table, |old(world.joints)|, |js|)
    ensures world.bodies == old(world.bodies) && world.fixtures == old(world.fixtures)
  {
    loaded := [];
    JointLoopStart(js, table, p, world.joints, world.log);
    var i := 0;
    while i < |js|
      invariant 0 <= i <= |js|
      invariant JointLoop(js, table, p, i, old(world.joints), old(world.log), world.joints, world.log, loaded)
      invariant world.bodies == old(world.bodies) && world.fixtures == old(world.fixtures)
    {
      loaded := LoadNextJoint(world, js, table, p, i, old(world.joints), old(world.log), loaded);
      i := i + 1;
    }
  }

  /** What the joint loop has done after `js[..i]`, starting from the given joints and log. */
  ghost predicate JointLoop(js: seq<JointDesc>, table: seq<Handle>, p: Profile, i: nat,
                            joints0: seq<Joint>, log0: seq<Diagnostic>,
                            joints: seq<Joint>, log: seq<Diagnostic>, loaded: seq<Handle>)
    requires i <= |js|
  {
    && joints == joints0 + SceneJoints(js, table, p, i)
    && log == log0 + SceneJointLog(js, |table|, i)
    && loaded == LoadedJoints(js, table, |joints0|, i)
  }

  /** The invariant holds before the first descriptor. */
  lemma JointLoopStart(js: seq<JointDesc>, table: seq<Handle>, p: Profile, joints: seq<Joint>, log: seq<Diagnostic>)
    ensures JointLoop(js, table, p, 0, joints, log, joints, log, [])
  {
    assert joints + SceneJoints(js, table, p, 0) == joints;
    assert log + SceneJointLog(js, |table|, 0) == log;
  }

  /** One pass of the joint loop: the next descriptor is converted and the folds grow by it. */
  method LoadNextJoint(world: World, js: seq<JointDesc>, table: seq<Handle>, p: Profile, i: nat,
                       ghost joints0: seq<Joint>, ghost log0: seq<Diagnostic>, loaded: seq<Handle>)
    returns (loaded': seq<Handle>)
    requires i < |js|
    requires JointLoop(js, table, p, i, joints0, log0, world.joints, world.log, loaded)
    modifies world
    ensures JointLoop(js, table, p, i + 1, joints0, log0, world.joints, world.log, loaded')
    ensures world.bodies == old(world.bodies) && world.fixtures == old(world.fixtures)
  {
    SceneJointsCount(js, table, p, i);
    var joint := LoadJoint(world, js[i], table, p);
    AppendAssoc(joints0, SceneJoints(js, table, p, i), NewJoints(js[i], table, p));
    AppendAssoc(log0, SceneJointLog(js, |table|, i), JointDiagnostics(js[i], |table|));
    loaded' := loaded;
    if joint.Some? {
      loaded' := loaded + [joint.value];
    }
  }

  /** The body and joint loops of `loadSceneIntoWorld` over a document, with the variant's body
      settings `v`: a missing `body` or `joint` key skips that loop. */
  method LoadBodiesAndJoints(world: World, v: Variant, doc: SceneDocument)
    returns (table: seq<Handle>, success: bool)
    modifies world
    ensures var bs := BodyList(doc);
            table == BodyTable(bs, |old(world.bodies)|) &&
            (success <==> forall i :: 0 <= i < |bs| ==> bs[i].bodyType.Some?)
    ensures var bs := BodyList(doc);
            world.bodies == old(world.bodies) + SceneBodies(v, bs, |bs|) &&
            world.fixtures == old(world.fixtures) + SceneFixtures(v, bs, |old(world.bodies)|, |bs|)
    ensures var bs := BodyList(doc);
            var js := JointList(doc);
            world.joints == old(world.joints) + SceneJoints(js, table, ProfileOf(v), |js|) &&
            world.log == old(world.log) + SceneBodyLog(bs, |bs|) + SceneJointLog(js, |table|, |js|)
  {
    ghost var bs, js := BodyList(doc), JointList(doc);
    if doc.body.Some? {
      table, success := LoadBodies(world, v, doc.body.value);
    } else {
      table, success := [], true;
      BodyLoopStart(v, bs, world.bodies, world.fixtures, world.log);
      BodyLoopDone(v, bs, world.bodies, world.fixtures, world.log, world.bodies, world.fixtures, world.log, table, success);
    }
    ghost var log := world.log;
    assert log == old(world.log) + SceneBodyLog(bs, |bs|);
    var loadedJoints: seq<Handle> := [];
    if doc.joint.Some? {
      loadedJoints := LoadJoints(world, doc.joint.value, table, ProfileOf(v));
    } else {
      JointLoopStart(js, table, ProfileOf(v), world.joints, world.log);
    }
    assert world.log == log + SceneJointLog(js, |table|, |js|);
    AppendAssoc(old(world.log), SceneBodyLog(bs, |bs|), SceneJointLog(js, |table|, |js|));
  }
}
