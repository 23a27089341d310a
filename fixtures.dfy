/** `loadFixtureFromRUBE`, the same code in both loader variants apart from the geometry scale
    (`Profile.lengthScale`). */
module Fixtures {
  import opened Wrappers
  import opened Rube
  import opened Engine
  import opened Coords

  /** The fields written before the shape branch: they are common to every fixture created. */
  function FixtureDefBase(f: FixtureDesc): FixtureDef {
    FixtureDef(f.friction, f.density, f.restitution, f.sensor, f.categoryBits, f.maskBits,
               f.groupIndex, NoShape)
  }

  function Vertex(v: ParallelVertices, i: nat): Vec
    requires i < |v.x|
  {
    Vec(v.x[i], v.y[i])
  }

  /** The document's vertices, in index order. */
  function VertexList(v: ParallelVertices): seq<Vec> {
    seq(|v.x|, i requires 0 <= i < |v.x| => Vertex(v, i))
  }

  function ToSimAll(vs: seq<Vec>, s: real): (r: seq<Vec>)
    ensures |r| == |vs|
  {
    seq(|vs|, i requires 0 <= i < |vs| => ToSim(vs[i], s))
  }

  function FromSimAll(ws: seq<Vec>, s: real): (r: seq<Vec>)
    requires s != 0.0
    ensures |r| == |ws|
  {
    seq(|ws|, i requires 0 <= i < |ws| => FromSim(ws[i], s))
  }

  function Reverse<T>(xs: seq<T>): seq<T> {
    if xs == [] then [] else [xs[|xs| - 1]] + Reverse(xs[..|xs| - 1])
  }

  lemma {:induction false} ReverseAt<T>(xs: seq<T>, k: nat)
    requires k < |xs|
    ensures |Reverse(xs)| == |xs| && Reverse(xs)[k] == xs[|xs| - 1 - k]
  {
    var init := xs[..|xs| - 1];
    if k > 0 {
      ReverseAt(init, k - 1);
    } else if |init| > 0 {
      ReverseAt(init, 0);
    }
  }

  /** The polygon's vertex list, element `k` taken from document index `n − 1 − k`. */
  function PolygonVertices(v: ParallelVertices, s: real): seq<Vec> {
    seq(|v.x|, k requires 0 <= k < |v.x| => ToSim(Vertex(v, |v.x| - 1 - k), s))
  }

  /** The polygon is the document's vertex list, transformed and then reversed: the editor's
      winding order is turned round for the engine. */
  lemma PolygonIsReversedTransform(v: ParallelVertices, s: real)
    ensures PolygonVertices(v, s) == Reverse(ToSimAll(VertexList(v), s))
  {
    var ts := ToSimAll(VertexList(v), s);
    if |ts| > 0 {
      ReverseAt(ts, 0);
    }
    forall k | 0 <= k < |ts| ensures PolygonVertices(v, s)[k] == Reverse(ts)[k] {
      ReverseAt(ts, k);
    }
  }

  /** Undoing the transform and the reversal gives back the document's vertices. */
  lemma PolygonRoundTrip(v: ParallelVertices, s: real)
    requires s != 0.0
    ensures Reverse(FromSimAll(PolygonVertices(v, s), s)) == VertexList(v)
  {
    var back := FromSimAll(PolygonVertices(v, s), s);
    var n := |v.x|;
    if n > 0 {
      ReverseAt(back, 0);
    }
    forall i | 0 <= i < n ensures Reverse(back)[i] == VertexList(v)[i] {
      ReverseAt(back, i);
      ToSimRoundTrip(Vertex(v, i), s);
    }
  }

  /** The loop of the polygon branch: walks the vertex arrays from the last index down and
      pushes each transformed vertex. */
  method PolygonVerticesLoop(v: ParallelVertices, s: real) returns (verts: seq<Vec>)
    ensures verts == PolygonVertices(v, s)
  {
    verts := [];
    var i := |v.x| - 1;
    while i > -1
      invariant -1 <= i < |v.x|
      invariant |verts| == |v.x| - 1 - i
      invariant forall k :: 0 <= k < |verts| ==> verts[k] == ToSim(Vertex(v, |v.x| - 1 - k), s)
    {
      verts := verts + [ToSim(Vec(v.x[i], v.y[i]), s)];
      i := i - 1;
    }
    assert |verts| == |PolygonVertices(v, s)|;
  }

  /** A chain of `n` vertices makes `max(n − 1, 0)` edges. */
  function EdgeCount(n: nat): nat {
    if n == 0 then 0 else n - 1
  }

  /** Edge `i` of a chain runs from transformed vertex `i` to transformed vertex `i + 1`. */
  function ChainEdge(v: ParallelVertices, s: real, i: nat): Shape
    requires i + 1 < |v.x|
  {
    EdgeShape(ToSim(Vertex(v, i), s), ToSim(Vertex(v, i + 1), s))
  }

  /** The edges the chain loop has created once it has visited vertices `0 .. i − 1`: from the
      second vertex on, each visit creates the named edge from the previous vertex. */
  function ChainEdges(body: Handle, fd: FixtureDef, v: ParallelVertices, s: real,
                      name: Option<string>, i: nat): (r: seq<Fixture>)
    requires i <= |v.x|
    ensures |r| == EdgeCount(i)
  {
    seq(EdgeCount(i), k requires 0 <= k < EdgeCount(i) =>
          Fixture(body, fd.(shape := ChainEdge(v, s, k)), NameOf(name), None))
  }

  function CircleShapeOf(c: CircleDesc, s: real): Shape {
    CircleShape(Scaled(c.radius, s), if c.center.Some? then Some(ToSim(c.center.value, s)) else None)
  }

  /** `fixture.customProperties = …` on the fixture last created, if any. */
  function WithLastProperties(fs: seq<Fixture>, props: Option<Props>): (r: seq<Fixture>)
    ensures |r| == |fs|
  {
    if fs != [] && props.Some? then fs[|fs| - 1 := fs[|fs| - 1].(customProperties := props)] else fs
  }

  /** The fixtures `loadFixtureFromRUBE` adds to the world for `f` on `body`: one for a circle or
      a polygon, one per edge for a chain, none for a descriptor with no known shape.  Each is
      on `body`, carries the common fields and the descriptor's truthy name, and only the last
      gets the custom properties. */
  function NewFixtures(body: Handle, f: FixtureDesc, p: Profile): (r: seq<Fixture>)
    ensures |r| == if f.circle.Some? || f.polygon.Some? then 1
                   else if f.chain.Some? then EdgeCount(|f.chain.value.x|)
                   else 0
    ensures forall k :: 0 <= k < |r| ==>
              r[k].body == body && r[k].name == NameOf(f.name) &&
              r[k].def == FixtureDefBase(f).(shape := r[k].def.shape) &&
              r[k].customProperties == if k == |r| - 1 then f.customProperties else None
  {
    var fd := FixtureDefBase(f);
    var s := p.lengthScale;
    if f.circle.Some? then
      [Fixture(body, fd.(shape := CircleShapeOf(f.circle.value, s)), NameOf(f.name), f.customProperties)]
    else if f.polygon.Some? then
      [Fixture(body, fd.(shape := PolygonShape(PolygonVertices(f.polygon.value, s))), NameOf(f.name),
               f.customProperties)]
    else if f.chain.Some? then
      WithLastProperties(ChainEdges(body, fd, f.chain.value, s, f.name, |f.chain.value.x|),
                         f.customProperties)
    else []
  }

  /** What `loadFixtureFromRUBE` logs: one line when the descriptor has no known shape. */
  function FixtureDiagnostics(f: FixtureDesc): (r: seq<Diagnostic>)
    ensures r != [] <==> f.circle.None? && f.polygon.None? && f.chain.None?
    ensures r != [] ==> r == [UnknownShape]
  {
    if f.circle.None? && f.polygon.None? && f.chain.None? then [UnknownShape] else []
  }

  /** The chain's edges trace its vertices in order: edge `k` starts where edge `k − 1` ends, and
      undoing the transform on its endpoints gives back vertices `k` and `k + 1`. */
  lemma ChainTracesVertices(body: Handle, f: FixtureDesc, p: Profile)
    requires f.circle.None? && f.polygon.None? && f.chain.Some?
    requires p.lengthScale != 0.0
    ensures var r := NewFixtures(body, f, p);
            var v := f.chain.value;
            forall k :: 0 <= k < |r| ==>
              r[k].def.shape.EdgeShape? &&
              FromSim(r[k].def.shape.v1, p.lengthScale) == Vertex(v, k) &&
              FromSim(r[k].def.shape.v2, p.lengthScale) == Vertex(v, k + 1) &&
              (k > 0 ==> r[k].def.shape.v1 == r[k - 1].def.shape.v2)
  {
    var r := NewFixtures(body, f, p);
    var v := f.chain.value;
    var s := p.lengthScale;
    var edges := ChainEdges(body, FixtureDefBase(f), v, s, f.name, |v.x|);
    forall k | 0 <= k < |r|
      ensures r[k].def.shape == ChainEdge(v, s, k)
      ensures FromSim(r[k].def.shape.v1, s) == Vertex(v, k)
      ensures FromSim(r[k].def.shape.v2, s) == Vertex(v, k + 1)
    {
      assert r[k].def.shape == edges[k].def.shape;
      ToSimRoundTrip(Vertex(v, k), s);
      ToSimRoundTrip(Vertex(v, k + 1), s);
    }
  }

  /** A circle fixture's shape: the radius times the length scale, and the centre, when the
      descriptor has one, mapped into the engine's frame and recoverable from it. */
  lemma CircleGeometry(body: Handle, f: FixtureDesc, p: Profile)
    requires f.circle.Some?
    ensures var r := NewFixtures(body, f, p);
            var c := f.circle.value;
            |r| == 1 && r[0].def.shape.CircleShape? &&
            r[0].def.shape.radius == c.radius * p.lengthScale &&
            (r[0].def.shape.center.Some? <==> c.center.Some?) &&
            (r[0].def.shape.center.Some? && p.lengthScale != 0.0 ==>
               FromSim(r[0].def.shape.center.value, p.lengthScale) == c.center.value)
  {
    var c := f.circle.value;
    if c.center.Some? && p.lengthScale != 0.0 {
      ToSimRoundTrip(c.center.value, p.lengthScale);
    }
  }

  /** `body.CreateFixture(def)` followed by `fixture.name = name` when the name is truthy. */
  method CreateNamedFixture(world: World, body: Handle, def: FixtureDef, name: Option<string>)
    returns (h: Handle)
    modifies world
    ensures h == |old(world.fixtures)|
    ensures world.fixtures == old(world.fixtures) + [Fixture(body, def, NameOf(name), None)]
    ensures world.bodies == old(world.bodies) && world.joints == old(world.joints)
    ensures world.log == old(world.log)
  {
    h := world.CreateFixture(body, def);
    if Truthy(name) {
      world.SetFixtureName(h, name.value);
    }
  }

  /** The chain loop: `lastVertex` trails `thisVertex` by one, and an edge fixture is created
      from the second vertex on.  Returns the last fixture created. */
  method CreateChainFixtures(world: World, body: Handle, fd: FixtureDef, v: ParallelVertices,
                             s: real, name: Option<string>) returns (fixture: Option<Handle>)
    modifies world
    ensures world.fixtures == old(world.fixtures) + ChainEdges(body, fd, v, s, name, |v.x|)
    ensures world.bodies == old(world.bodies) && world.joints == old(world.joints)
    ensures world.log == old(world.log)
    ensures fixture.Some? <==> |v.x| > 1
    ensures fixture.Some? ==> fixture.value == |world.fixtures| - 1
  {
    fixture := None;
    var lastVertex := Vec(0.0, 0.0);
    var i := 0;
    while i < |v.x|
      invariant 0 <= i <= |v.x|
      invariant world.fixtures == old(world.fixtures) + ChainEdges(body, fd, v, s, name, i)
      invariant world.bodies == old(world.bodies) && world.joints == old(world.joints)
      invariant world.log == old(world.log)
      invariant i > 0 ==> lastVertex == ToSim(Vertex(v, i - 1), s)
      invariant fixture.Some? <==> i > 1
      invariant fixture.Some? ==> fixture.value == |world.fixtures| - 1
    {
      var thisVertex := ToSim(Vertex(v, i), s);
      if i > 0 {
        var h := CreateNamedFixture(world, body, fd.(shape := EdgeShape(lastVertex, thisVertex)), name);
        assert ChainEdges(body, fd, v, s, name, i + 1) ==
               ChainEdges(body, fd, v, s, name, i) + [Fixture(body, fd.(shape := ChainEdge(v, s, i - 1)), NameOf(name), None)];
        fixture := Some(h);
      }
      lastVertex := thisVertex;
      i := i + 1;
    }
  }

  /** The opening of `loadFixtureFromRUBE`: a fresh `b2FixtureDef` given each optional scalar
      the descriptor carries. */
  method NewFixtureDef(f: FixtureDesc) returns (fd: FixtureDef)
    ensures fd == FixtureDefBase(f)
  {
    fd := FixtureDef(None, None, None, None, None, None, None, NoShape);
    if f.friction.Some? { fd := fd.(friction := f.friction); }
    if f.density.Some? { fd := fd.(density := f.density); }
    if f.restitution.Some? { fd := fd.(restitution := f.restitution); }
    if f.sensor.Some? { fd := fd.(isSensor := f.sensor); }
    if f.categoryBits.Some? { fd := fd.(categoryBits := f.categoryBits); }
    if f.maskBits.Some? { fd := fd.(maskBits := f.maskBits); }
    if f.groupIndex.Some? { fd := fd.(groupIndex := f.groupIndex); }
  }

  /** `loadFixtureFromRUBE(body, fixtureJso)`. */
  method LoadFixture(world: World, body: Handle, f: FixtureDesc, p: Profile)
    modifies world
    ensures world.fixtures == old(world.fixtures) + NewFixtures(body, f, p)
    ensures world.log == old(world.log) + FixtureDiagnostics(f)
    ensures world.bodies == old(world.bodies) && world.joints == old(world.joints)
  {
    var s := p.lengthScale;
    var fixture: Option<Handle> := None;
    var fd := NewFixtureDef(f);
    if f.circle.Some? {
      var c := f.circle.value;
      var shape := CircleShape(Scaled(c.radius, s), None);
      if c.center.Some? {
        shape := shape.(center := Some(ToSim(c.center.value, s)));
      }
      var h := CreateNamedFixture(world, body, fd.(shape := shape), f.name);
      fixture := Some(h);
    } else if f.polygon.Some? {
      var verts := PolygonVerticesLoop(f.polygon.value, s);
      var h := CreateNamedFixture(world, body, fd.(shape := PolygonShape(verts)), f.name);
      fixture := Some(h);
    } else if f.chain.Some? {
      fixture := CreateChainFixtures(world, body, fd, f.chain.value, s, f.name);
    } else {
      world.Log(UnknownShape);
    }
    if fixture.Some? && f.customProperties.Some? {
      world.SetFixtureCustomProperties(fixture.value, f.customProperties.value);
    }
  }
}
