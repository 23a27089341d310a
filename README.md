# RUBE scene loader, modelled in Dafny

This project models how the two `RubeLoader` components convert a RUBE scene into Box2D objects.
The two variants are `igerubeloader/gameClasses/RubeLoader.js` and
`physicstester/gameClasses/RubeLoader.js`. A RUBE scene is a JSON document exported by the R.U.B.E.
level editor, holding `body`, `joint` and `image` arrays. For each body descriptor the loader creates
a Box2D body, wraps it in an IGE entity and creates its fixtures. For each joint descriptor it
creates a joint between bodies of the table `loadedBodies`. It then handles the images. It returns a
`success` flag.

The two variants run the same code with different constants. The model has one implementation of
the fixture and joint converters, parameterised by a `Profile` of factors:

- `IgeProfile(scaleRatio)` for igerubeloader;
- `TesterProfile(_scale)` for physicstester.

Neither profile is treated as the correct one. The body converter and the scene loops take a
`Variant`, which adds the entity calls each file makes.

Modules, leaves first:

- `Wrappers`: `Option` for a field that may be `undefined`. `Completion` is a call that returned or
  threw a JavaScript `TypeError`.
- `Rube`: the scene document. A field is absent exactly when it is `undefined`. That is what the
  files' global `hasOwnProperty` override reports (igerubeloader/gameClasses/RubeLoader.js:417-419).
- `Engine`: the class `World`. It stands for the Box2D world, the IGE entities around its bodies and
  the console. Bodies, fixtures, joints and log lines are sequences that grow as the loader creates
  them. An object's handle is its index.
- `Coords`: the `(x·s, −y·s)` transform, its inverse, `getVectorValue` and the two profiles.
- `Filenames`: `GetFilename`, with its two regular expressions specified directly.
- `Fixtures`, `Joints`, `Bodies`: `loadFixtureFromRUBE`, `loadJointFromRUBE` with
  `loadJointCommonProperties`, and `loadBodyFromRUBE`. Each converter is an imperative method proved
  against a function that says what it adds to the world and what it logs.
- `Scene`: the body loop and joint loop of `loadSceneIntoWorld`. Each effect is a fold over the
  descriptors.
- `IgeLoader` and `TesterLoader`: each file's `loadSceneIntoWorld`, its image handling and the
  factors particular to it. `TesterLoader` also has `getByValue` and the `RubeLoaderComponent`
  class, whose `_scale` field `loadRubeScene` sets to 1.3.

Numbers are exact reals. Each factor is the literal the source writes, or 1 where the source copies the value unscaled.

Behaviour worth noting, modelled as the code does it:

- Rope joints log one line. Wheel joints log nothing.
- Anchors are scaled by `_scale` in physicstester.
- Images never clear `success`. An image can throw, and a throw ends the whole load.
- In physicstester, the image loop is not gated by a flag.

## Model

| member | source | states |
|---|---|---|
| Coords.ToSimRoundTrip | igerubeloader/gameClasses/RubeLoader.js:204-209 | the y-flipping, scaling transform is undone by its inverse for any non-zero scale |
| Coords.VectorValue | physicstester/gameClasses/RubeLoader.js:199-205 | `getVectorValue`: for an object value and a non-zero scale, the original coordinates are recovered from the result by the inverse transform; an absent or non-object value gives the origin |
| Filenames.LineMatchIsChosenMatch | igerubeloader/gameClasses/RubeLoader.js:406 | on one line, the regex `.*\/(.+?)\.` matches iff some `/` has a `.` at least two places after it; the capture is between the last such `/` and its first such `.` |
| Filenames.StripDirectoryIsLongestCleanSuffix | igerubeloader/gameClasses/RubeLoader.js:403 | `replace(/^.*[\\\/]/, '')` leaves the longest suffix whose first line holds no `/` or `\` |
| Filenames.GetFilenameWithoutExtension | igerubeloader/gameClasses/RubeLoader.js:399-414 | without `includeExtension`, a one-line url gives `''` iff nothing matches, else the text between the last usable `/` and the next `.` |
| Filenames.GetFilenameWithExtension | physicstester/gameClasses/RubeLoader.js:370-385 | with `includeExtension`, the result is the second character of the stripped url, or `''` when that is shorter than two |
| Filenames.WithExtensionKeepsOneCharacter | igerubeloader/gameClasses/RubeLoader.js:402-411 | with `includeExtension`, as written: a stripped name of two or more characters comes back as a single character, never the name |
| Filenames.WithExtensionCounterexample | igerubeloader/gameClasses/RubeLoader.js:409-410 | `GetFilename('a/bc', true)` is `'c'` as written; the intended result is `'bc'` |
| Filenames.IntendedFilename | igerubeloader/gameClasses/RubeLoader.js:399-414 | the corrected `GetFilename` agrees with the original whenever `includeExtension` is false |
| Filenames.IntendedFilenameWithExtension | igerubeloader/gameClasses/RubeLoader.js:402-404 | the corrected result with `includeExtension` is the url without its directory part, the longest clean suffix |
| Fixtures.PolygonVerticesLoop | igerubeloader/gameClasses/RubeLoader.js:171-175 | the downward loop builds the vertex list whose element k is transformed vertex n−1−k |
| Fixtures.PolygonIsReversedTransform | igerubeloader/gameClasses/RubeLoader.js:169-179 | the polygon's vertex list is the document's vertex list, transformed, then reversed |
| Fixtures.PolygonRoundTrip | physicstester/gameClasses/RubeLoader.js:165-175 | undoing the scale, the y flip and the reversal gives back the document's vertices |
| Fixtures.NewFixtures | igerubeloader/gameClasses/RubeLoader.js:142-202 | a descriptor yields one fixture for a circle or polygon, max(n−1, 0) for a chain of n vertices, none otherwise; each is on the body, carries the common fields and the truthy name; only the last gets `customProperties` |
| Fixtures.ChainTracesVertices | physicstester/gameClasses/RubeLoader.js:176-193 | chain edge k runs from transformed vertex k to transformed vertex k+1, and each edge starts where the previous one ends |
| Fixtures.CircleGeometry | physicstester/gameClasses/RubeLoader.js:156-160 | a circle fixture's radius is the descriptor's times the length scale (`_scale` in physicstester, 1 in igerubeloader, lines 160-164 there); it has a centre iff the descriptor does, and undoing the `(x·s, −y·s)` transform on it gives the descriptor's centre |
| Fixtures.CreateNamedFixture | igerubeloader/gameClasses/RubeLoader.js:165-167 | `CreateFixture` appends one fixture on the body; its name is set only when the descriptor's name is truthy |
| Fixtures.CreateChainFixtures | igerubeloader/gameClasses/RubeLoader.js:180-193 | the chain loop appends exactly the chain's edges; the fixture it keeps is the last one, present iff there are at least two vertices |
| Fixtures.NewFixtureDef | igerubeloader/gameClasses/RubeLoader.js:145-159 | the fixture definition carries exactly the friction, density, restitution, sensor and filter fields present in the descriptor |
| Fixtures.LoadFixture | igerubeloader/gameClasses/RubeLoader.js:142-202 | `loadFixtureFromRUBE` appends `NewFixtures` to the world, logs `FixtureDiagnostics`, and touches nothing else |
| Joints.Resolve | igerubeloader/gameClasses/RubeLoader.js:212-213 | `loadedBodies[i]` is a table entry iff i is an index inside the table |
| Joints.JointDefsOf | igerubeloader/gameClasses/RubeLoader.js:220-332 | the number of definitions passed to `CreateJoint` is 0 for a rejected or unknown joint, 2 for a wheel, 1 otherwise |
| Joints.JointReturnedIffAccepted | igerubeloader/gameClasses/RubeLoader.js:220-340 | a joint is returned iff `type` is present, neither index is `>= loadedBodies.length` and the type is known; otherwise nothing is created; a rejected joint logs one line, an unknown type exactly the message and the dump |
| Joints.AnnotationsOnlyOnReturnedJoint | physicstester/gameClasses/RubeLoader.js:330-336 | a created joint with a name or custom properties is the one returned, and the returned joint carries the truthy name and the custom properties |
| Joints.WheelMakesTwoJoints | igerubeloader/gameClasses/RubeLoader.js:288-308 | a wheel creates a length-0 distance joint with the spring settings, then a line joint on the same bodies and anchors, and returns the second |
| Joints.RopeIsLoggedDistance | igerubeloader/gameClasses/RubeLoader.js:254-266 | a rope creates what the same descriptor typed `distance` would, after one extra log line |
| Joints.AcceptedJointBodies | igerubeloader/gameClasses/RubeLoader.js:211-232 | once the guards pass, a non-negative index resolves to its table entry, and a negative or absent one stays unresolved rather than being rejected |
| Joints.AnchorsOfJoint | physicstester/gameClasses/RubeLoader.js:199-213 | an object anchor is transformed and can be transformed back; any other anchor is the origin |
| Joints.LoadJointCommonProperties | igerubeloader/gameClasses/RubeLoader.js:211-218 | the common fields are the resolved bodies, the transformed anchors and `collideConnected` only when truthy |
| Joints.NewRevoluteDef | igerubeloader/gameClasses/RubeLoader.js:235-253 | the revolute definition negates the reference angle and motor speed and applies the profile's limit and torque factors |
| Joints.NewDistanceDef | igerubeloader/gameClasses/RubeLoader.js:254-266 | the distance definition scales the length by the profile and copies damping and frequency |
| Joints.NewPrismaticDef | igerubeloader/gameClasses/RubeLoader.js:267-287 | the prismatic definition transforms the axis, negates the reference angle, applies the translation and force factors and copies the motor speed |
| Joints.NewFrictionDef | igerubeloader/gameClasses/RubeLoader.js:309-317 | the friction definition applies the profile's force and torque factors |
| Joints.NewWeldDef | igerubeloader/gameClasses/RubeLoader.js:318-328 | the weld definition negates the reference angle and copies damping and frequency |
| Joints.CreateWheelJoints | igerubeloader/gameClasses/RubeLoader.js:288-308 | the world gains exactly the spring joint then the line joint, and the handle kept is the line joint's |
| Joints.AnnotateJoint | igerubeloader/gameClasses/RubeLoader.js:333-338 | only the given joint changes, gaining the truthy name and the custom properties |
| Joints.CreateTypedJoint | igerubeloader/gameClasses/RubeLoader.js:234-339 | the type dispatch appends `NewJoints`, logs the rope or unknown-type lines and returns the last joint created, or null |
| Joints.LoadJoint | igerubeloader/gameClasses/RubeLoader.js:220-340 | `loadJointFromRUBE` appends `NewJoints`, logs `JointDiagnostics`, returns `JointResult` and leaves bodies and fixtures alone |
| Bodies.BodyDefMapping | igerubeloader/gameClasses/RubeLoader.js:96-114 | type 2 is dynamic, type 1 kinematic; angle and angular velocity are negated (velocity scaled); `awake` is copied when present and `false` when absent, never left at the engine's default; `fixedRotation` is copied; an object linear velocity maps into the engine frame and back |
| Bodies.ActiveIsOverwritten | igerubeloader/gameClasses/RubeLoader.js:105-114 | `active` has no effect on the body definition: `awake` always overwrites it |
| Bodies.FixturesOnBody | igerubeloader/gameClasses/RubeLoader.js:130-135 | every fixture the fixture loop creates is on the body being loaded |
| Bodies.PlacedAfterMount | igerubeloader/gameClasses/RubeLoader.js:116-128 | the entity is mounted exactly once, on the variant's scene; `translateTo` happens iff the position is an object, only after mounting, at a point that transforms back to the position |
| Bodies.EntityId | physicstester/gameClasses/RubeLoader.js:117-133 | igerubeloader sets the entity id iff the body is named; physicstester always sets it, last, to the name or `undefined` |
| Bodies.BuildBodyDef | physicstester/gameClasses/RubeLoader.js:96-114 | the body definition built field by field is `BodyDefOf` with the variant's velocity scale |
| Bodies.LoadFixtures | igerubeloader/gameClasses/RubeLoader.js:130-135 | the fixture loop appends each descriptor's fixtures and log lines in order |
| Bodies.SetUpIgeEntity | igerubeloader/gameClasses/RubeLoader.js:116-128 | igerubeloader's entity calls: isometric flag, name and id when named, mount, then position |
| Bodies.SetUpTesterEntity | physicstester/gameClasses/RubeLoader.js:117-123 | physicstester's entity calls: isometric, mount on `scene1`, position scaled by `_scaleRatio·_scale` |
| Bodies.NameTesterBody | physicstester/gameClasses/RubeLoader.js:131-133 | physicstester names the body when a name is present, then sets the id unconditionally |
| Bodies.LoadBody | igerubeloader/gameClasses/RubeLoader.js:89-141 | a body without `type` is logged and gives null with nothing created; any other becomes the next body, with its entity calls, fixtures and custom properties, and is returned |
| Scene.TypedBodies | igerubeloader/gameClasses/RubeLoader.js:48-58 | the descriptors that produce bodies, in order: at most as many as were walked, all with a type |
| Scene.SceneBodiesAreTyped | igerubeloader/gameClasses/RubeLoader.js:48-58 | the m-th body created is the body of the m-th descriptor that has a type |
| Scene.FixturesOnSceneBodies | igerubeloader/gameClasses/RubeLoader.js:48-58 | every fixture the body loop creates is on one of the bodies it created |
| Scene.BodyTable | physicstester/gameClasses/RubeLoader.js:49-59 | `loadedBodies` has one entry per typed descriptor, the handles of consecutive new bodies |
| Scene.AllTypedIff | igerubeloader/gameClasses/RubeLoader.js:50-57 | the loop's running `success` is true iff every descriptor so far has a type |
| Scene.BodyTableResolves | igerubeloader/gameClasses/RubeLoader.js:48-58 | `loadedBodies[m]` is the body made from the m-th typed descriptor |
| Scene.LoadBodies | igerubeloader/gameClasses/RubeLoader.js:48-58 | the body loop: `success` iff every descriptor has a type, `loadedBodies` is `BodyTable`, and the world grows by the bodies, fixtures and log lines of the descriptors in order |
| Scene.SceneJointsCount | igerubeloader/gameClasses/RubeLoader.js:60-68 | the joint loop creates as many joints as its descriptors create one by one |
| Scene.LoadedJointsIncrease | igerubeloader/gameClasses/RubeLoader.js:60-68 | `loadedJoints` holds handles of joints the loop created, strictly increasing |
| Scene.AnnotatedJointsAreLoaded | physicstester/gameClasses/RubeLoader.js:61-71 | every joint the loop names or annotates is listed in `loadedJoints` |
| Scene.LoadJoints | igerubeloader/gameClasses/RubeLoader.js:60-68 | the joint loop appends each descriptor's joints and log lines in order and collects the returned joints |
| Scene.LoadBodiesAndJoints | igerubeloader/gameClasses/RubeLoader.js:47-68 | a missing `body` or `joint` key skips that loop; the joints are resolved against the table the body loop built |
| IgeLoader.ImageOutcome | igerubeloader/gameClasses/RubeLoader.js:341-398 | `loadImageFromRUBE` returns its input unchanged whenever it does not throw |
| IgeLoader.ImageBranches | igerubeloader/gameClasses/RubeLoader.js:344-376 | a `null` body or a missing centre throws; an absent or negative body is a background image that loads; a non-negative index loads iff it is inside the table |
| IgeLoader.LoadImages | igerubeloader/gameClasses/RubeLoader.js:70-83 | the image loop completes iff every image loads |
| IgeLoader.LoadSceneIntoWorld | igerubeloader/gameClasses/RubeLoader.js:45-87 | bodies then joints are loaded in full; the result is `success` (every body typed) unless images are requested and one throws |
| IgeLoader.RevoluteFactors | igerubeloader/gameClasses/RubeLoader.js:235-253 | igerubeloader keeps revolute limits, scales motor torque by `_scaleRatio`, negates motor speed and reference angle |
| IgeLoader.PrismaticFactors | igerubeloader/gameClasses/RubeLoader.js:267-287 | igerubeloader keeps translations and motor speed and scales motor force by `_scaleRatio` |
| IgeLoader.FrictionFactors | igerubeloader/gameClasses/RubeLoader.js:309-317 | friction multiplies the maximum force by 5 and the maximum torque by 3.5 |
| IgeLoader.GeometryUnscaled | igerubeloader/gameClasses/RubeLoader.js:204-287 | igerubeloader leaves distance lengths unscaled and only flips the y of both anchors and of the prismatic axis |
| TesterLoader.FirstNamed | physicstester/gameClasses/RubeLoader.js:338-343 | the first entry with the given name, if any |
| TesterLoader.GetByValue | physicstester/gameClasses/RubeLoader.js:338-343 | `getByValue` throws iff the array is absent; otherwise it returns the `int` of the first entry with that name, or `undefined` |
| TesterLoader.ImageBranches | physicstester/gameClasses/RubeLoader.js:346-356 | a `null` body always throws; an absent or negative body is a background image that throws iff it has no `file`; a non-negative index loads iff the image has `customProperties` and the index is inside the table |
| TesterLoader.ImageRewrite | physicstester/gameClasses/RubeLoader.js:359-366 | a loaded image gets `aspectScale` 1 when absent and its centre reset to the origin; a background image gets `body = null`; nothing else changes |
| TesterLoader.ImageStepTwice | physicstester/gameClasses/RubeLoader.js:344-363 | rewriting an attached image twice is rewriting it once; a rewritten background image throws when it is loaded again |
| TesterLoader.LoadImage | physicstester/gameClasses/RubeLoader.js:344-369 | the image slot is rewritten in place as `ImageStep` says when the call completes, and left as it was when it throws |
| TesterLoader.FirstThrow | physicstester/gameClasses/RubeLoader.js:73-84 | the first image whose load throws, or none |
| TesterLoader.SecondLoad | physicstester/gameClasses/RubeLoader.js:355-363 | loading a document a second time throws if it has a background image; if all images are on bodies the second load changes nothing |
| TesterLoader.LoadImages | physicstester/gameClasses/RubeLoader.js:73-84 | the image loop completes iff no image throws, and leaves the array rewritten up to the first throw |
| TesterLoader.RubeLoaderComponent.LoadRubeScene | physicstester/gameClasses/RubeLoader.js:23-27 | `_scale` becomes 1.3 |
| TesterLoader.RubeLoaderComponent.LoadSceneIntoWorld | physicstester/gameClasses/RubeLoader.js:46-87 | bodies and joints are loaded with `_scale`; images are rewritten in place; `world.images` is set only when an `image` key is present and no image throws; the result is `success` unless an image throws |
| TesterLoader.RevoluteFactors | physicstester/gameClasses/RubeLoader.js:230-250 | physicstester negates both revolute limits without swapping them, so a proper range comes out inverted; motor torque is unscaled |
| TesterLoader.PrismaticFactors | physicstester/gameClasses/RubeLoader.js:264-284 | the lower translation is scaled by `_scale` once, the upper one twice; the motor force is unscaled |
| TesterLoader.DistanceAndAnchorFactors | physicstester/gameClasses/RubeLoader.js:199-314 | distance lengths and both anchors are scaled by `_scale`; friction limits are copied unscaled |

## Left out

- `loadRubeScene`'s script injection, the `window[sceneName]` lookup, the callbacks and the `ige.isServer` branch are asynchronous I/O. Only the `_scale` assignment is modelled.
- physicstester's `loadRubeScene` calls `_processData`, which no file defines. It also passes its callback as the `world` argument. Both are outside the model.
- Box2D and IGE internals are foreign calls. This covers `physicsEntity.box2dBody(bd)`, `CreateFixture`, `CreateJoint`, `b2Vec2`, `mount`, `translateTo` and `ige.$`. Each is an append to `World`. `ige.$` lookups are assumed to resolve.
- Image entity construction is scene-graph and texture glue and is left out. This covers `id`, `texture`, `heightByTile`, `scaleBy`, `rotateTo` and `isometric`, and the texture lookup in physicstester. Only the branch taken, the throws and the rewrite of the descriptor are modelled.
- Floating point is modelled as exact reals. Three products are regrouped under that assumption:
  - physicstester's position `(x·r)·s` is modelled as `x·(r·s)`;
  - physicstester's prismatic upper translation `(u·s)·s` is modelled as `u·(s·s)`, the factor of
    its profile; `TesterLoader.PrismaticFactors` proves the two equal over the reals;
  - igerubeloader's angular velocity `av·−1` is computed as `(av·1)·−1`, the form physicstester uses with `_scale`.
- JSON values of the wrong kind are outside the model. This covers a non-number index, a non-string name and a non-array `customProperties`.
- Strings are sequences of Unicode characters, where JavaScript indexes UTF-16 code units. For a
  stripped name that starts with a character outside the Basic Multilingual Plane,
  `GetFilename(url, true)` would return a lone surrogate in JavaScript where the model returns `''`
  or a whole character. Lengths and positions in the other string operations are likewise counted
  in characters.
- A `y` vertex array shorter than `x` would give `NaN` coordinates. The type `ParallelVertices` excludes it.
- A circle or image `center` that is present but is not an object with `x` and `y` is outside the model.
- Images are values in one array. Aliasing between image objects shared by several slots or documents is not modelled.
- TesterLoader.RubeLoaderComponent.LoadSceneIntoWorld requires `_scale` to have been set by `LoadRubeScene`. Called earlier, the source would compute with `undefined` and get `NaN`.
- The entity calls and the fixture creation of one body are kept in two separate sequences. Their relative order is not modelled.
- `loadedJoints` and igerubeloader's `loadedImages` are never read. The joint list is modelled by `LoadJoints`. The image list is not modelled.
- `getByValue`'s result is unused in `loadImageFromRUBE`. Only its throw on an absent array matters there.
- The text of the `console.log` lines is not modelled. Each line is a `Diagnostic` of the matching kind.

## Findings

| source | as written | input that shows it | evidently intended | confidence | as-written member | corrected member |
|---|---|---|---|---|---|---|
| igerubeloader/gameClasses/RubeLoader.js:402-411 (also physicstester/gameClasses/RubeLoader.js:373-382) | with `includeExtension`, `m` is the stripped url string, so `m[1]` is its second character | `GetFilename('a/bc', true)` gives `'c'` | return the url without its directory part, `'bc'` | not executed; certain from the code, but no caller passes `true` | Filenames.WithExtensionKeepsOneCharacter | Filenames.IntendedFilenameWithExtension |
