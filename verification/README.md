# algorist, modelled in Dafny

algorist is a small Python library for generating Blender scenes from
recursive rules, in the style of Context Free Art. Its own logic is made of
five parts; the rest only drives Blender.

- **A recursion guard.** The `limit` decorator counts the live nesting depth
  and the calls ever attempted. It skips the body once a depth, object-count
  or minimum-scale limit trips.
- **A weighted rule registry.** `rule(weight)` stores same-named functions as
  alternatives with cumulative weights. `_invoke_rule` picks one of them with
  a random draw.
- **A scoped transform and colour stack.** This is `Transform`, plus the
  `scale`, `translate`, `rotate` and `color` context managers of the two
  `Context` classes. Each scope installs a composed matrix or colour for the
  body of a `with` statement and restores the saved value afterwards.
- **Mesh caches.** `MeshFactory.shape`, `MeshFactory.create` and
  `Context.shape` build each distinct (name, parameters) mesh once and reuse
  it afterwards.
- **Random helpers.** `rnd`, `prnd` and `coinflip`.

The model is split into Dafny modules, one per part of the source:

- `Guard` holds the guard.
- `Rules` holds the registry and the weighted choice.
- `Scopes` and `Transforms` hold the scopes and `Transform`.
- `ContextFree` and `Cfdg` hold the two `Context` classes.
- `MeshFactories` and `Blender` hold the two mesh factories.
- `Random` holds the random helpers.
- `Colors`, `Matrices`, `Keys`, `Sorting`, `Shapes` and `Host` hold the data
  they share.

Each module mirrors the form of its source. A class whose fields the source
updates in place is a Dafny `class` with the same fields. Pure helpers are
functions.

The body of a `with` statement is user code. The model represents it as a
`Block`: a shape call or application, statements in order, or a nested
scope. An interpreter method runs a block against the class. Its contract
ties the resulting state to trace functions of the block:

- `Actions` gives the calls in order.
- `Frames` gives the matrix in force at each call.
- `Tints` gives the colour in force at each call.
- `ColorAfter` gives the colour left behind.

This is how the model states what the scopes promise: which matrix and
colour each shape is drawn with, and what is restored.

Several things are parameters, because they are computed by library code
rather than by this repository:

- The random draws: `random.random()` is a real `u` in [0, 1) and
  `random.randint` is an integer in range.
- `colorsys.hsv_to_rgb`.
- `Matrix.to_scale()`.

Blender's datablocks are a `Scene` holding sequences of meshes and objects.
Each host call (`bpy.ops.mesh.primitive_*_add`, `bpy.data.objects.new`,
collection linking, `mesh.copy()`, material slots, `matrix_world`) is a
method of `Scene`; each creating call returns a fresh index. An object
made by an operator is named after the operator call rather than after
the primitive, which no contract depends on.

## Model

| member | source | states |
|---|---|---|
| Guard.Limit | algorist/core.py:12-19 | `limit` fails with ValueError exactly when a minimum scale is given without a transform; otherwise the configuration keeps the given limits |
| Guard.Check | algorist/core.py:30-44 | the verdict of one call after both counters were raised: too deep iff depth reached max_depth; too many iff not too deep and objects reached max_objects; too small iff neither and some scale component is at most min_scale; run iff none trips (depth, then objects, then scale) |
| Guard.Guard.constructor | algorist/core.py:21-23 | a decorated function starts with both counters at zero |
| Guard.Guard.Call | algorist/core.py:26-46 | a guarded call raises both counters first, returns the body's result iff no limit trips and None otherwise, leaves depth as it found it, only grows objects, and keeps the body from running more than max_objects - 1 times over the guard's life (Valid) |
| Guard.Guard.CallSelf | algorist/core.py:26-46 | a body that only calls its guarded self runs at exactly ChainLength levels, at nesting depths old depth + 1, + 2, ..., all below max_depth, and one more call is attempted than the body runs |
| Guard.FreshChainStopsBelowMaxDepth | algorist/core.py:28-32 | from fresh counters, with the object budget not binding, a self-recursive body runs at levels 1 to max_depth - 1 |
| Guard.DefaultChainRunsElevenLevels | algorist/core.py:10-13 | with the default limits max_depth=12 and max_objects=10000, a self-recursive body under a fresh guard runs at 11 levels |
| Guard.ExhaustedStaysExhausted | algorist/decorator.py:66-73 | once objects has reached max_objects no later call runs its body, whatever the depth and scale |
| Rules.Registry.constructor | algorist/rules.py:7 | the registry starts empty |
| Rules.Registry.Rule | algorist/rules.py:17-31 | registering appends (last cumulative weight, or 0 for a new name, + weight, func) under the function's name, leaves other names unchanged, and returns a handle that knows only the name |
| Rules.Appended | algorist/decorator.py:30-35 | the table after one registration: the names gain func's name, other names keep their lists, a new name gets [(weight, func)], an existing one its old list plus (last + weight, func) |
| Rules.RegistrationStep | algorist/rules.py:24-29 | the table of registrations h + [r] is the table of h with r appended, so in-place registration and grouping by name agree |
| Rules.TableMatchesGrouping | algorist/rules.py:24-29 | the table built by successive registrations maps each name to the cumulative weights of exactly the registrations with that name, in order |
| Rules.TableNames | algorist/rules.py:18-24 | a name has an entry iff some registered function had that name |
| Rules.TableGroupsByName | algorist/rules.py:18-29 | a name's list holds one variant per registration of that name, in order, whose cumulative weight is the running sum of their weights |
| Rules.Cumulate | algorist/rules.py:27-29 | cumulating keeps the functions in order and ends at the total weight |
| Rules.CumulativeWeightsIncrease | algorist/rules.py:28-29 | with positive weights, a name's cumulative weights strictly increase and the last is the sum of its weights |
| Rules.CumulativeWeightsSorted | algorist/rules.py:28-29 | with non-negative weights, a name's cumulative weights never decrease |
| Rules.BisectRight | algorist/rules.py:38-40 | the bisection used by `random.choices`: over non-decreasing weights, every weight before the returned index is at most x and every one from it to hi is above x |
| Rules.BisectSelects | algorist/rules.py:38-40 | the bisection result is the variant whose cumulative range contains the draw |
| Rules.SelectionIsUnique | algorist/rules.py:38-40 | over non-decreasing cumulative weights at most one variant owns a draw |
| Rules.Choose | algorist/rules.py:38-40 | `random.choices(funcs, cum_weights)[0](*args)`: a non-positive total is a ValueError; otherwise exactly one variant, the one owning random() * total, is called with the caller's arguments and its result returned |
| Rules.Registry.InvokeRule | algorist/rules.py:36-40 | dispatching an unknown name is a KeyError; a known name has a non-empty list and is dispatched as Choose states |
| Random.Rnd | algorist/random.py:4-6 | (u - 0.5) * 2 * r lies in [-r, r) for r > 0, is 0 for r = 0, and is 0 for the draw 0.5 |
| Random.Prnd | algorist/random.py:9-11 | u * r lies in [0, r) for r > 0 and is 0 for r = 0 |
| Random.Coinflip | algorist/random.py:14-17 | true exactly when the draw from [0, sides - 1] is 1; randint's ValueError when sides < 1 |
| Random.OneSidedCoinIsFalse | algorist/random.py:16-17 | coinflip(1) is always false |
| Random.ExactlyOneWinningDraw | algorist/random.py:16-17 | for two or more sides exactly one of the possible draws wins |
| Colors.Frac | algorist/transform.py:85 | `math.modf(x)[0]`: x minus it is an integer, it lies in (-1, 1) and has the sign of x |
| Colors.Clamp | algorist/transform.py:86-88 | `clamp` lies in [0, 1] and leaves values already there unchanged |
| Colors.ClampIsNearest | algorist/transform.py:86-88 | the clamped value is the point of [0, 1] nearest to the input |
| Colors.ComposeColor | algorist/transform.py:84-89 | the new colour: a given hue step leaves a hue in (-1, 1) differing from base + step by an integer; given factors give components in [0, 1], equal to the product when that is in range; components not given pass through |
| Colors.HueStepsCompose | algorist/transform.py:85 | two non-negative hue steps from a non-negative hue compose to the single step by their sum |
| Colors.HueStepsCongruent | algorist/transform.py:85 | two nested hue steps and one step by their sum always agree up to a whole turn |
| Colors.HueStepsCanDiffer | algorist/transform.py:85 | because modf keeps the sign, a nested step can end at -0.1 where the single step ends at 0.9 |
| Colors.FullTurnKeepsHue | algorist/transform.py:85 | a hue step of 1 leaves a hue in [0, 1) unchanged |
| Colors.SaturationClamps | algorist/transform.py:86 | a saturation factor that overshoots clamps to 1 |
| Colors.HsvaToRgba | algorist/transform.py:118-120 | alpha passes through as the fourth component; the first three are `hsv_to_rgb` of h, s, v |
| Matrices.Scaling | algorist/transform.py:38-40 | the diagonal of `scale`: an axis given as None or 0 falls back to xyz |
| Matrices.AxisOr | algorist/transform.py:39 | `x or xyz` on an optional real |
| Scopes.MatrixIn | algorist/transform.py:37-57 | a matrix scope right-multiplies one operator onto the current matrix; a colour scope leaves it alone |
| Scopes.Frames | algorist/transform.py:37-57 | one matrix per action of a block |
| Scopes.FramesExtend | algorist/transform.py:37-57 | every matrix in force inside a block starts with the matrix the block started under |
| Transforms.Transform.constructor | algorist/transform.py:18-24 | a new Transform has the given matrix or the identity, and the given colour |
| Transforms.Transform.Default | algorist/transform.py:18-24 | `Transform()` has the identity and colour (0, 0, 1, 1) |
| Transforms.Transform.ColorRgba | algorist/transform.py:63-65 | the RGBA of the current colour keeps its alpha |
| Transforms.Transform.Apply | algorist/transform.py:93-111 | `apply(transformer)` sets the object's world matrix to the current matrix and hands it the current colour; nothing else changes |
| Transforms.Transform.Exec | algorist/transform.py:26-91 | running a block restores matrix and colour, and the objects are the block's applications stamped in order with the matrix and colour of the scopes around each |
| Transforms.Transform.ExecSeq | algorist/transform.py:26-91 | statements in order, with the same guarantee |
| Transforms.Transform.Scale | algorist/transform.py:26-42 | `with scale(...)`: the body runs under matrix @ diag(x or xyz, y or xyz, z or xyz, 1) and the matrix is restored |
| Transforms.Transform.Translate | algorist/transform.py:44-49 | `with translate(...)`: the body runs under matrix @ Translation and the matrix is restored |
| Transforms.Transform.Rotate | algorist/transform.py:51-57 | `with rotate(...)`: the body runs under matrix @ Rotation and the matrix is restored |
| Transforms.Transform.Color | algorist/transform.py:67-91 | `with color(...)`: the body runs under the colour composed on the explicit base colour or else the current one, and the colour from before the scope is restored even when a base colour is passed |
| Transforms.StampAllAppend | algorist/transform.py:93-111 | applying two runs of applications one after the other is applying their concatenation |
| Transforms.ApplicationsExtendStart | algorist/transform.py:37-57 | every application inside a block sees the block's starting matrix followed by its scopes' operators |
| Transforms.ExplicitBaseIgnoresCurrent | algorist/transform.py:83 | inside a scope with an explicit base colour the colours do not depend on the colour outside it |
| Keys.MeshKeyEquality | algorist/mesh_factory.py:11 | with distinct keyword names, two `(name, tuple(sorted(kwargs.items())))` keys are equal iff the names are equal and the keyword items are the same up to order |
| Keys.ChainKey | algorist/blender.py:37-40 | `sorted(chain(args, kwargs.items()))` raises TypeError exactly when both positional and keyword arguments are given (a real and a tuple cannot be compared); without keywords the key is the positional arguments in ascending order, without positional arguments it is the mesh key |
| Keys.ChainKeyIgnoresPositions | algorist/blender.py:37-40 | two positional-only calls give the same key iff their arguments are the same up to order |
| Keys.ItemLtStrict | algorist/mesh_factory.py:11 | tuple comparison of keyword items is a strict order |
| Keys.ItemLtTotal | algorist/mesh_factory.py:11 | with distinct names, any two different keyword items are comparable |
| Keys.StrLtTotal | algorist/mesh_factory.py:11 | string comparison is total on different strings |
| Sorting.SortPermutes | algorist/mesh_factory.py:11 | `sorted` returns a permutation of its input |
| Sorting.SortSorted | algorist/mesh_factory.py:11 | under a strict order total on the input, `sorted` returns an ordered sequence |
| Sorting.SortedUnique | algorist/mesh_factory.py:11 | two ordered sequences that are permutations of each other are equal |
| Sorting.SortOfPermutation | algorist/mesh_factory.py:11 | sorting two permutations of each other gives the same result |
| Shapes.DefaultCubeHalfScale | algorist/mesh_factory.py:108-117 | `cube()` with its default size (1, 1, 1) passes scale (0.5, 0.5, 0.5) to the operator |
| Shapes.NameDeterminesOperator | algorist/mesh_factory.py:22-117 | two wrapper calls with the same cache name use the same operator, so a hit never reuses another primitive's mesh |
| Shapes.Call | algorist/mesh_factory.py:22-117 | each wrapper passes keyword arguments with distinct names; `cube` passes `scale` as half its size |
| MeshFactories.MeshFactory.constructor | algorist/mesh_factory.py:7-8 | the cache starts empty |
| MeshFactories.MeshFactory.Shape | algorist/mesh_factory.py:10-20 | a hit makes a new object on the cached mesh, linked to the context collection, and creates no mesh; a miss runs the operator once and caches its mesh; the new object's mesh is the key's cached one; existing entries never change |
| MeshFactories.MeshFactory.Primitive | algorist/mesh_factory.py:22-117 | a wrapper adds one object whose mesh is cached under its call's key |
| MeshFactories.ReorderedRequestHits | algorist/mesh_factory.py:11 | a request whose keyword arguments are a reordering of a cached one hits the same mesh |
| Blender.MeshFactory.constructor | algorist/blender.py:21-22 | the cache starts empty |
| Blender.MeshFactory.Create | algorist/blender.py:24-53 | a key TypeError changes nothing; a hit makes a new object on the cached mesh linked to the context collection; a miss calls the creator once, takes its returned object or else the context object, and caches its mesh; existing entries never change |
| Blender.MeshFactory.Reuse | algorist/blender.py:42-44 | the hit path: `bpy.data.objects.new(name, mesh)` linked to the context collection, no mesh created |
| Blender.MeshFactory.Build | algorist/blender.py:45-52 | the miss path: one creation call, its mesh cached under the key |
| Blender.PermutedArgumentsShareMesh | algorist/blender.py:37-40 | positional arguments given in another order hit the same cached mesh |
| Host.Scene.Create | algorist/mesh_factory.py:17-18 | `shapefunc(**kwargs)` makes one mesh and one object linked to the context collection, which an operator makes the context object |
| Host.Scene.NewObject | algorist/mesh_factory.py:14 | `bpy.data.objects.new(name, mesh)` adds one unlinked object on an existing mesh |
| Host.Scene.Link | algorist/mesh_factory.py:15 | linking adds a collection to one object and changes nothing else |
| Host.Scene.CopyMesh | algorist/cfdg.py:175 | `mesh.copy()` adds a mesh equal to the original |
| Host.Scene.AppendSlot | algorist/contextfree.py:169 | `materials.append` adds one slot to one mesh |
| Host.Scene.SetWorld | algorist/transform.py:109-111 | setting `matrix_world` changes that object's world matrix only |
| Host.Scene.LinkSlotMaterial | algorist/contextfree.py:175-176 | `material_slots[0]` raises IndexError iff the object's mesh has no slot; otherwise the object gets the material |
| ContextFree.Context.constructor | algorist/contextfree.py:23-31 | a new Context has the given matrix or the identity, colour (0, 0, 1, 1), an empty cache and an empty rule table |
| ContextFree.Context.ColorRgba | algorist/contextfree.py:128-130 | the RGBA of the current colour keeps its alpha |
| ContextFree.Context.Limit | algorist/contextfree.py:37-45 | the decorator creates a guard with the given limits and both counters at zero |
| ContextFree.Context.CallGuarded | algorist/contextfree.py:48-68 | a guarded call behaves as Guard.Guard.Call, with the minimum-scale check on the scale of the context's own current matrix |
| ContextFree.Context.Rule | algorist/contextfree.py:74-91 | registration on the context's own table appends as Rules.Registry.Rule does |
| ContextFree.Context.InvokeRule | algorist/contextfree.py:93-97 | an unknown name is a KeyError; a known one dispatches exactly one variant |
| ContextFree.Context.Spawn | algorist/contextfree.py:165-169 | the operator makes one mesh and one object; the mesh gets one empty slot iff a material is wanted |
| ContextFree.Context.Reuse | algorist/contextfree.py:161-163 | the hit path: a new object on the cached mesh linked to the context collection, no mesh created |
| ContextFree.Context.Build | algorist/contextfree.py:164-170 | the miss path: Spawn, and the new mesh cached under the key |
| ContextFree.Context.Fetch | algorist/contextfree.py:159-170 | a hit creates no mesh and leaves the cache alone; a miss runs the operator once and caches its mesh; either way the object uses the key's cached mesh and existing entries never change |
| ContextFree.Context.Shape | algorist/contextfree.py:156-177 | the new shape gets the current matrix; with create_material it gets a material of the current colour linked to the object, which fails with IndexError exactly when a cached mesh was built without a slot |
| ContextFree.Context.Primitive | algorist/contextfree.py:179-286 | a wrapper adds one shape with the current matrix |
| ContextFree.Context.Exec | algorist/contextfree.py:99-177 | a block that ends normally restores the matrix, leaves the colour ColorAfter of it, and adds its shapes in order, each with the matrix and material of the colour in force where it was drawn |
| ContextFree.Context.ExecWith | algorist/contextfree.py:99-154 | a `with` statement runs as the scope it names, with the same guarantee |
| ContextFree.Context.ExecSeq | algorist/contextfree.py:99-177 | statements in order, with the same guarantee; the first IndexError stops the run |
| ContextFree.Context.Scale | algorist/contextfree.py:99-112 | `with scale(...)`: the body's shapes get matrix @ diag(...), and the matrix is restored |
| ContextFree.Context.Translate | algorist/contextfree.py:114-119 | `with translate(...)`: the body's shapes get matrix @ Translation, and the matrix is restored |
| ContextFree.Context.Rotate | algorist/contextfree.py:121-126 | `with rotate(...)`: the body's shapes get matrix @ Rotation, and the matrix is restored |
| ContextFree.Context.Color | algorist/contextfree.py:132-154 | `with color(...)`: the body's shapes get the composed colour; afterwards the colour is the explicit base colour if one was passed, otherwise the colour from before |
| ContextFree.NoExplicitColorRestores | algorist/contextfree.py:141-154 | a block with no explicit base colour leaves the colour as it found it |
| ContextFree.ExplicitColorStays | algorist/contextfree.py:141-142 | a scope with an explicit base colour different from the current one leaves the base colour in force, not the old one |
| Cfdg.OptionalColorIn | algorist/cfdg.py:138-152 | the colour inside a colour scope: none iff no explicit colour and no current colour; otherwise composed on the explicit colour if given, else on the current one |
| Cfdg.Context.constructor | algorist/cfdg.py:22-32 | a new Context has the given matrix or the identity, the given colour (none by default), an empty cache and an empty rule table |
| Cfdg.Context.ColorRgba | algorist/cfdg.py:125-127 | the RGBA of the current colour keeps its alpha |
| Cfdg.Context.Limit | algorist/cfdg.py:34-42 | the decorator creates a guard with the given limits and both counters at zero |
| Cfdg.Context.CallGuarded | algorist/cfdg.py:45-65 | a guarded call behaves as Guard.Guard.Call, with the minimum-scale check on the context's own current matrix |
| Cfdg.Context.Rule | algorist/cfdg.py:71-88 | registration on the context's own table appends as Rules.Registry.Rule does |
| Cfdg.Context.InvokeRule | algorist/cfdg.py:90-94 | an unknown name is a KeyError; a known one dispatches exactly one variant |
| Cfdg.Context.LinkAll | algorist/cfdg.py:176-177 | linking to each cached collection in turn appends exactly those collections to the object |
| Cfdg.Context.Spawn | algorist/cfdg.py:179-181 | the operator makes one mesh and one object, and a copy of the mesh is made for the cache |
| Cfdg.Context.Reuse | algorist/cfdg.py:174-177 | the hit path: a new object on a fresh copy of the cached mesh, linked to the cached collections |
| Cfdg.Context.Build | algorist/cfdg.py:178-181 | the miss path: Spawn, and the copy and the collections cached under the key |
| Cfdg.Context.Fetch | algorist/cfdg.py:172-181 | the new object owns a new, slot-less mesh of the requested geometry that no cache entry uses; a hit copies the cached mesh and links the cached collections; a miss runs the operator once and caches a copy; existing entries never change |
| Cfdg.Context.AssignColor | algorist/cfdg.py:156-169 | with no colour nothing changes; otherwise one material of the current colour is appended to the object's own mesh |
| Cfdg.Context.Shape | algorist/cfdg.py:171-184 | the new shape gets the current matrix and a mesh of its own whose slots hold the current colour's material, or nothing without a colour; meshes made before are unchanged |
| Cfdg.Context.Place | algorist/cfdg.py:181-182 | the placed object takes the current matrix and its own mesh gains the current colour's slots; every other object and mesh is unchanged |
| Cfdg.Context.Primitive | algorist/cfdg.py:186-263 | a wrapper adds one shape with the current matrix and colour |
| Cfdg.Context.Exec | algorist/cfdg.py:96-184 | a block restores the matrix, leaves the colour ColorAfter of it, and adds its shapes in order, each with the matrix and colour in force where it was drawn |
| Cfdg.Context.ExecWith | algorist/cfdg.py:96-154 | a `with` statement runs as the scope it names, with the same guarantee |
| Cfdg.Context.ExecSeq | algorist/cfdg.py:96-184 | statements in order, with the same guarantee |
| Cfdg.Context.Scale | algorist/cfdg.py:96-109 | `with scale(...)`: the body's shapes get matrix @ diag(...), and the matrix is restored |
| Cfdg.Context.Translate | algorist/cfdg.py:111-116 | `with translate(...)`: the body's shapes get matrix @ Translation, and the matrix is restored |
| Cfdg.Context.Rotate | algorist/cfdg.py:118-123 | `with rotate(...)`: the body's shapes get matrix @ Rotation, and the matrix is restored |
| Cfdg.Context.Color | algorist/cfdg.py:129-154 | `with color(...)`: the body's shapes get the colour OptionalColorIn gives; afterwards the colour is the explicit one if given; with neither an explicit nor a current colour it is whatever the body left; otherwise the colour from before |
| Cfdg.NoExplicitColorRestores | algorist/cfdg.py:138-154 | a block with no explicit base colour leaves the colour, or its absence, as it found it |
| Cfdg.UncoloredStaysUncolored | algorist/cfdg.py:140-142 | started without a colour, a block with no explicit base colour draws every shape without one, so no shape gets a material |
| Cfdg.ExplicitColorPersists | algorist/cfdg.py:138-154 | after a scope with an explicit base colour, a later scope without one composes on that base colour |

## Left out

- Blender itself is not modelled: materials and their node trees, `blend_method`, `create_color_material`, `background` and the background colour argument of `ContextFree.Context`. A mesh is the call that built it with its arguments and its material slots; a material is its RGBA colour.
- mathutils: a matrix is the sequence of operators multiplied onto the identity (`Diagonal`, `Translation`, `Rotation`), not numbers, so equal products built differently are different matrices. `Matrix.to_scale()` is a function parameter.
- `colorsys.hsv_to_rgb` is a function parameter; only alpha passing through is stated.
- Floating point: colours and weights are exact reals; rounding, NaN and infinite weights are not modelled.
- The random source: `random.random()` and `random.randint` results are parameters, so no statistical property is stated.
- Exceptions raised inside a `with` body and the guard's body are not modelled, except the IndexError of `ContextFree.Context.Shape`, which ends a block early and skips the restores of the scopes it leaves, as a `@contextmanager` without `try/finally` does.
- The user functions behind the guard and the rules are not run: a guarded call is described by an `Invocation` tree (its scale, its nested guarded calls, its result) and a rule's function by a `(Production, args) -> result` parameter.
- `Transformer.apply_color` is abstract; Transforms.Transform.Apply records the colour it receives as the object's material.
- Logging calls, `algorist/__init__.py` (re-exports) and the example scripts under `examples/` are not part of this model.
- The `create_material` parameter that `plane`, `icosphere`, `grid` and `cylinder` of algorist/mesh_factory.py accept is dropped, as the source never uses it.
- Keyword argument values are reals, integers, strings or vectors, and positional arguments of `MeshFactory.create` are reals. Comparison of values of different kinds inside `sorted` is not modelled, because the wrappers never pass two keywords with the same name.
- ContextFree.Context.Primitive, Cfdg.Context.Primitive and MeshFactories.MeshFactory.Primitive: stated weaker than Shape, which they call; only the object count, matrix and cache entry are restated.
- Rules.Choose: which variant is selected is stated only when the cumulative weights never decrease; with a negative weight the bisection's choice is left unstated.
