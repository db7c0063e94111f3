# Entity composition and button reconciliation, modelled in Dafny

This project models two pieces of a 2D scene-graph runtime built on an
entity-component-system world.

**The entity composer and scene-graph linker** (`ComponentFactory`, in
`component_factory.dfy`, over the store in `ecs.dfy`).

- An item descriptor (`MainItemVO`) is turned into a fixed, ordered series of
  components on one entity:
  - Dimensions, BoundingBox, MainItem, Transform, Tint, ZIndex and Script are always attached;
  - Polygon, PhysicsBody, LightBody and Shader are attached only when the descriptor asks for them.
- Dimensions come first. When the descriptor's origin is the NaN sentinel, the Transform origin is half the dimensions.
- The ZIndex step writes the normalised layer name back into the descriptor.
- Two further steps link a child under a root, one end each:
  - the child gets a ParentNode pointing at the root, and its MainItem visibility is read from the root's LayerMap at the root's own layer;
  - the root's Node gets the child appended to its children.

Modelling choices:

- Entities are `Ecs.Entity` objects. Each holds a map from component kind to component, and `Add` replaces a component of the same kind.
- The descriptor is a class with mutable fields, because the ZIndex step writes to it.
- Every step is a method with `modifies` and a postcondition giving the entity's whole new component map.
- `CreateCommonComponents` is proved against the pure function `Composed`, which computes the components from the descriptor. `Composed` is `Common` (the seven mandatory components) with the four optional ones added. The lemmas `Composed*` state the presence and copy rules about that function.
- The first seven steps are the helper method `CreateRequiredComponents`, proved against `Common`.

**The button focus/visibility reconciler** (`ButtonSystem`, in
`button_system.dfy`).

- Once per frame, the button entities are swept from the last active index to the first.
- A single focus token, `inputHoldEntity`, is -1 when free. An entity is skipped while another entity holds the token.
- An editor viewport forces all its children visible.
- Any other button:
  - records its touch state;
  - claims or releases the token, if it has children;
  - shows its "pressed" children and hides its "normal" ones when touched or checked, and the reverse otherwise.

Modelling choices:

- The class keeps the token and the component maps the sweep reads and writes.
- The methods keep the source's loops.
- Each method is proved against the pure functions `ProcessStep` and `Sweep`.
- The lemmas prove the tie-break: from a free token, the sweep leaves the token with the highest-index entity that claims it, or free when none does.
- They also prove what a held token does to the rest of the sweep. This covers a holder that releases it, after which the lower indices compete as from a free token, and the stale lock of a holder that can no longer release it.
- The loop over a button's children is the method `SwitchChildren`, which `Process` calls.

## Model

| member | source | states |
|---|---|---|
| ComponentFactory.ComponentFactory.CreateCommonComponents | src/main/java/games/rednblack/editor/renderer/factory/component/ComponentFactory.java:67-79 | The entity's components afterwards are its earlier ones overlaid with exactly `Composed` of the descriptor as it was on entry. The descriptor's layer name is its normalised form. At most one component of each kind is kept. |
| ComponentFactory.ComponentFactory.CreateRequiredComponents | src/main/java/games/rednblack/editor/renderer/factory/component/ComponentFactory.java:68-74 | The first seven steps overlay the entity's components with exactly `Common` of the descriptor as it was on entry, and normalise the descriptor's layer name. |
| ComponentFactory.Composed | src/main/java/games/rednblack/editor/renderer/factory/component/ComponentFactory.java:67-79 | The specification `CreateCommonComponents` is proved against: `Common` with a Polygon, PhysicsBody, LightBody and Shader added for each one the descriptor asks for, in the order of the steps. |
| ComponentFactory.Common | src/main/java/games/rednblack/editor/renderer/factory/component/ComponentFactory.java:68-74 | The seven mandatory components, one per step: the given Dimensions, a BoundingBox, the MainItem, the Transform with origins from `Origin`, the clamped Tint, the ZIndex with the normalised layer, and a Script. |
| ComponentFactory.TintOf | src/main/java/games/rednblack/editor/renderer/factory/component/ComponentFactory.java:134-141 | The Tint that the colour setter leaves: the descriptor's first four tint values, each clamped by `Clamp01`. |
| ComponentFactory.ComposedKinds | src/main/java/games/rednblack/editor/renderer/factory/component/ComponentFactory.java:67-79 | The seven common kinds are always attached. Polygon, PhysicsBody, LightBody and Shader are attached iff the shape is present, the physics is present, the light is present, and the shader name is non-null and non-empty, respectively. |
| ComponentFactory.ComposedKindsBounded | src/main/java/games/rednblack/editor/renderer/factory/component/ComponentFactory.java:67-79 | No kind beyond the seven common ones and the four optional ones is attached. |
| ComponentFactory.ComposedKeys | src/main/java/games/rednblack/editor/renderer/factory/component/ComponentFactory.java:67-79 | The attached kinds are exactly the seven common ones plus each optional kind the descriptor asks for. |
| ComponentFactory.ComposedOrigin | src/main/java/games/rednblack/editor/renderer/factory/component/ComponentFactory.java:121-125 | The Dimensions component is the variant's dimensions. A NaN origin becomes half the width or height. Any other origin is copied. |
| ComponentFactory.Origin | src/main/java/games/rednblack/editor/renderer/factory/component/ComponentFactory.java:121-125 | For the NaN sentinel the origin is half the extent. Any other origin is the descriptor's value. |
| ComponentFactory.Clamp01 | src/main/java/games/rednblack/editor/renderer/factory/component/ComponentFactory.java:136 | A colour channel is stored within 0..1: a negative channel becomes 0, a channel above 1 becomes 1, and a channel already in range is kept unchanged. |
| ComponentFactory.ComposedTint | src/main/java/games/rednblack/editor/renderer/factory/component/ComponentFactory.java:134-141 | The Tint's four channels are the descriptor's first four tint values, each clamped by `Clamp01`. So every channel lies in 0..1 and equals the descriptor's value whenever that value is in range. |
| ComponentFactory.ComposedLayer | src/main/java/games/rednblack/editor/renderer/factory/component/ComponentFactory.java:143-153 | The ZIndex layer is never empty. It keeps a non-empty name and is "Default" for null or "". The z-index is copied and `needReOrder` is false. |
| ComponentFactory.ComposedCopiesRecords | src/main/java/games/rednblack/editor/renderer/factory/component/ComponentFactory.java:87-242 | PhysicsBody, LightBody and Polygon carry the descriptor's records unchanged. Shader carries the descriptor's name. |
| ComponentFactory.ComposedMainItem | src/main/java/games/rednblack/editor/renderer/factory/component/ComponentFactory.java:97-111 | MainItem copies uniqueId, itemIdentifier, itemName (as libraryLink) and the entity type. Its tags are the tag set, and it starts visible. |
| ComponentFactory.RecomposeNormalized | src/main/java/games/rednblack/editor/renderer/factory/component/ComponentFactory.java:146-148 | Writing the normalised layer name back leaves the composition of the same descriptor unchanged. |
| ComponentFactory.NormalizeLayerName | src/main/java/games/rednblack/editor/renderer/factory/component/ComponentFactory.java:146-148 | The result is never empty. It is "Default" for null or "", and the given name otherwise. |
| ComponentFactory.NormalizeLayerNameIdempotent | src/main/java/games/rednblack/editor/renderer/factory/component/ComponentFactory.java:146 | Normalising a normalised name changes nothing. |
| ComponentFactory.NormalizeLayerNameAsWritten | src/main/java/games/rednblack/editor/renderer/factory/component/ComponentFactory.java:146 | Null becomes "Default". A non-empty name is kept. |
| ComponentFactory.AsWrittenKeepsRuntimeEmptyName | src/main/java/games/rednblack/editor/renderer/factory/component/ComponentFactory.java:146 | An empty name that is not the interned literal stays "" under the reference comparison. The corrected check gives "Default". |
| ComponentFactory.AsWrittenAgreesOutsideRuntimeEmpty | src/main/java/games/rednblack/editor/renderer/factory/component/ComponentFactory.java:146 | The written and corrected checks agree on every name except a non-interned "". |
| ComponentFactory.TagSet | src/main/java/games/rednblack/editor/renderer/factory/component/ComponentFactory.java:103-105 | An absent tag array leaves the empty default. Otherwise a string is in the set iff it is in the array. |
| ComponentFactory.MeshOf | src/main/java/games/rednblack/editor/renderer/factory/component/ComponentFactory.java:235-236 | There is a Polygon iff there is a shape, and it holds the shape's polygons. |
| ComponentFactory.PhysicsOf | src/main/java/games/rednblack/editor/renderer/factory/component/ComponentFactory.java:183-187 | There is a PhysicsBody iff there are physics settings, and it holds them. |
| ComponentFactory.LightOf | src/main/java/games/rednblack/editor/renderer/factory/component/ComponentFactory.java:214-227 | There is a LightBody iff there are light settings, and it holds them. |
| ComponentFactory.ShaderOf | src/main/java/games/rednblack/editor/renderer/factory/component/ComponentFactory.java:88-92 | There is a Shader iff the name is non-null and non-empty. It holds the name and the program looked up for it. |
| ComponentFactory.ComponentFactory.constructor | src/main/java/games/rednblack/editor/renderer/factory/component/ComponentFactory.java:92 | The factory looks shader programs up through the given resource lookup. |
| ComponentFactory.ComponentFactory.CreateDimensionsComponent | src/main/java/games/rednblack/editor/renderer/factory/component/ComponentFactory.java:132 | The variant's dimensions are attached, and nothing else on the entity changes. |
| ComponentFactory.ComponentFactory.CreateBoundingBoxComponent | src/main/java/games/rednblack/editor/renderer/factory/component/ComponentFactory.java:81-85 | A BoundingBox is attached, and nothing else changes. |
| ComponentFactory.ComponentFactory.CreateShaderComponent | src/main/java/games/rednblack/editor/renderer/factory/component/ComponentFactory.java:87-95 | It returns and attaches `ShaderOf` the descriptor's name. When that is None, nothing is attached. |
| ComponentFactory.ComponentFactory.CreateMainItemComponent | src/main/java/games/rednblack/editor/renderer/factory/component/ComponentFactory.java:97-111 | It attaches a MainItem with the copied identity fields, the tag set, the entity type and `visible` true. |
| ComponentFactory.ComponentFactory.CreateTransformComponent | src/main/java/games/rednblack/editor/renderer/factory/component/ComponentFactory.java:113-130 | It attaches a Transform with the copied position, rotation and scale, and origins taken from the given dimensions when NaN. |
| ComponentFactory.ComponentFactory.CreateTintComponent | src/main/java/games/rednblack/editor/renderer/factory/component/ComponentFactory.java:134-141 | It attaches a Tint whose channels are the descriptor's first four tint values, each clamped to 0..1 as the colour setter does. |
| ComponentFactory.ComponentFactory.CreateZIndexComponent | src/main/java/games/rednblack/editor/renderer/factory/component/ComponentFactory.java:143-154 | It attaches a ZIndex with the normalised layer, the z-index and `needReOrder` false. The descriptor's layer name becomes that same layer. |
| ComponentFactory.ComponentFactory.CreateScriptComponent | src/main/java/games/rednblack/editor/renderer/factory/component/ComponentFactory.java:156-160 | A Script is attached, and nothing else changes. |
| ComponentFactory.ComponentFactory.CreateParentNodeComponent | src/main/java/games/rednblack/editor/renderer/factory/component/ComponentFactory.java:162-175 | The child gets a ParentNode pointing at the root. The child's MainItem `visible` becomes the root's LayerMap entry for the root's own layer. Only the child changes. |
| ComponentFactory.ComponentFactory.CreateNodeComponent | src/main/java/games/rednblack/editor/renderer/factory/component/ComponentFactory.java:177-180 | The root's children grow by one: the earlier children are unchanged and the child is last. Nothing else on the root changes. |
| ComponentFactory.ComponentFactory.CreatePhysicsComponents | src/main/java/games/rednblack/editor/renderer/factory/component/ComponentFactory.java:182-188 | A PhysicsBody is attached iff the descriptor has physics settings. |
| ComponentFactory.ComponentFactory.CreatePhysicsBodyPropertiesComponent | src/main/java/games/rednblack/editor/renderer/factory/component/ComponentFactory.java:190-211 | It attaches a PhysicsBody whose fifteen settings equal the descriptor's. |
| ComponentFactory.ComponentFactory.CreateLightComponents | src/main/java/games/rednblack/editor/renderer/factory/component/ComponentFactory.java:213-231 | It returns and attaches `LightOf` the descriptor's light, with all nine settings copied. When that is None, nothing is attached. |
| ComponentFactory.ComponentFactory.CreateMeshComponent | src/main/java/games/rednblack/editor/renderer/factory/component/ComponentFactory.java:233-242 | It returns and attaches `MeshOf` the descriptor's shape. When that is None, nothing is attached. |
| ButtonSystem.ButtonSystem.constructor | src/main/java/games/rednblack/editor/renderer/systems/ButtonSystem.java:28 | The focus token starts free (-1). |
| ButtonSystem.ButtonSystem.ProcessSystem | src/main/java/games/rednblack/editor/renderer/systems/ButtonSystem.java:38-44 | The new state is `Sweep` over the active entities, last index first. From a free token, the token ends with `FirstClaimant`. |
| ButtonSystem.ButtonSystem.Process | src/main/java/games/rednblack/editor/renderer/systems/ButtonSystem.java:46-92 | The new state is `ProcessStep` of the old state for this entity. |
| ButtonSystem.ButtonSystem.SwitchChildren | src/main/java/games/rednblack/editor/renderer/systems/ButtonSystem.java:66-91 | The children's visibility becomes `ApplyLook`. The token is unchanged with no children, and otherwise is the entity if touched or -1 if not. |
| ButtonSystem.ButtonSystem.IsChecked | src/main/java/games/rednblack/editor/renderer/systems/ButtonSystem.java:94-97 | It returns the button's checked flag and changes nothing. |
| ButtonSystem.ButtonSystem.IsTouched | src/main/java/games/rednblack/editor/renderer/systems/ButtonSystem.java:99-114 | The result is true iff the pointer is down and hits the entity. The button's touch state is set to exactly that result, and no other button changes. |
| ButtonSystem.ShowAll | src/main/java/games/rednblack/editor/renderer/systems/ButtonSystem.java:53-57 | The editing override keeps the set of entities with a MainItem. |
| ButtonSystem.ShowAllShows | src/main/java/games/rednblack/editor/renderer/systems/ButtonSystem.java:50-59 | After the override every child is visible, and every other entity keeps its visibility. |
| ButtonSystem.ApplyLook | src/main/java/games/rednblack/editor/renderer/systems/ButtonSystem.java:66-91 | The look loop keeps the set of entities with a MainItem. |
| ButtonSystem.ApplyLookSets | src/main/java/games/rednblack/editor/renderer/systems/ButtonSystem.java:76-90 | Under the pressed look, "normal" children are hidden and "pressed" children shown; otherwise the reverse. Other layers and non-children keep their visibility, even when a child is listed twice. |
| ButtonSystem.ApplyLookStep | src/main/java/games/rednblack/editor/renderer/systems/ButtonSystem.java:66-90 | One more child applies its layer's rule on top of the earlier children, and has a ZIndex. |
| ButtonSystem.ProcessStep | src/main/java/games/rednblack/editor/renderer/systems/ButtonSystem.java:46-92 | Processing keeps the sets of entities with a MainItem and with a ButtonComponent. |
| ButtonSystem.ProcessStepCases | src/main/java/games/rednblack/editor/renderer/systems/ButtonSystem.java:47-92 | Without a Node: no change. For a viewport: all children shown, and token and buttons unchanged. With a foreign token: no change, not even the touch state. Otherwise the touch state equals the hit test; with children the token is the entity if touched and -1 if not, and without children it is unchanged; each child follows its layer's rule under touched-or-checked. |
| ButtonSystem.Sweep | src/main/java/games/rednblack/editor/renderer/systems/ButtonSystem.java:39-43 | A sweep keeps the entity sets. The token ends where it started, free, or on one of the swept entities. |
| ButtonSystem.SweepSplit | src/main/java/games/rednblack/editor/renderer/systems/ButtonSystem.java:41-43 | Sweeping `a + b` is sweeping `b` and then `a`, since the reverse order visits the higher indices first. |
| ButtonSystem.FirstClaimant | src/main/java/games/rednblack/editor/renderer/systems/ButtonSystem.java:62-74 | The result is -1 iff no swept entity claims the token. Otherwise it is a claimant, and no entity at a higher index claims. |
| ButtonSystem.HeldTokenStays | src/main/java/games/rednblack/editor/renderer/systems/ButtonSystem.java:62-74 | While an entity holds the token, the rest of the sweep leaves the token with it, and no other button's touch state changes. |
| ButtonSystem.HeldTokenKeepsOtherLooks | src/main/java/games/rednblack/editor/renderer/systems/ButtonSystem.java:50-91 | While an entity holds the token, an entity that is a child neither of the holder nor of a swept viewport keeps its visibility. |
| ButtonSystem.StaleHolderKeepsToken | src/main/java/games/rednblack/editor/renderer/systems/ButtonSystem.java:46-74 | A holder with no Node, no children or a viewport marker never reaches the token assignment. The token stays with it through any sweep, for any input, and no other button's touch state changes. |
| ButtonSystem.ReleaseThenClaim | src/main/java/games/rednblack/editor/renderer/systems/ButtonSystem.java:62-74 | A holder with children that is not touched releases the token when the sweep reaches it. The final token is then `FirstClaimant` of the entities after it in sweep order (the lower indices). |
| ButtonSystem.ForeignTokenSkipsAll | src/main/java/games/rednblack/editor/renderer/systems/ButtonSystem.java:62 | A sweep over non-viewport entities other than the token holder changes nothing. |
| ButtonSystem.SweepTieBreak | src/main/java/games/rednblack/editor/renderer/systems/ButtonSystem.java:41-74 | From a free token, the token after the sweep is the first claimant in reverse order, or -1 when no entity claims. |

## Left out

- The dimensions step is abstract in the factory, and the variants that implement it are not part of this model. `CreateCommonComponents` receives the dimensions the variant computed.
- The factory constructors, `injectDependencies` and `setResourceManager` are dependency plumbing. Only the shader lookup survives, as the constructor's function parameter.
- The physics world and the ray handler are stored by the factory but never read by the modelled steps.
- Component pooling (`engine.createComponent`) is not modelled. A fresh value is attached each time.
- `MainItemComponent.setCustomVarString` parses the custom-variable string. `MainItemComponent` is not part of this model, so the raw string is stored.
- The model assumes `tags` defaults to the empty set and `visible` to true.
- `ZIndexComponent.setZIndex` is not part of this model. It is taken to store the value.
- `LayerMapComponent.isVisible` is not part of this model. It is modelled as a map lookup in which a layer the map does not list counts as visible.
- Floats are `real`, so halving the dimensions is exact and NaN is an absent value (`None`).
- The Java aliasing of `centerOfMass`, the light `color` array and the polygon rows between descriptor and component is not modelled. They are copied as values.
- libGDX's `Color` is not part of this model. Its `set` is taken to clamp each channel to 0..1 (`Clamp01`), and the Tint holds the four clamped channels.
- `CreateTintComponent` and `CreateCommonComponents` require a tint with at least four entries, where Java would throw an index exception.
- `ComponentRetriever`/`ComponentMapper` lookups are assumed to find the components they dereference:
  - the factory requires the child's MainItem and the root's LayerMap, ZIndex and Node;
  - the reconciler requires, step by step (`StepReady`, `SweepReady`), exactly what the taken branch dereferences.

  A missing component (a Java NullPointerException) is not modelled.
- `rm.getShaderProgram` is an uninterpreted function. A failed lookup is not modelled: the code attaches whatever the lookup returns, without checking it.
- `Gdx.input`, `TransformMathUtils.globalToLocalCoordinates` and `DimensionsComponent.hit` are replaced by a per-frame `Input`: whether the pointer is down, and the set of entities it hits. Float coordinate maths is not modelled.
- `ButtonComponent.setTouchState` is not part of this model. It is taken to store the flag, and any listeners it may notify are not modelled.
- The active entity list (`IntBag`) is a `seq` that the sweep reads but never changes.
- `ComponentFactory.ComponentFactory.CreateRequiredComponents` groups the first seven steps of `createCommonComponents` into a method of its own; the step order is unchanged.
- `ButtonSystem.ButtonSystem.SwitchChildren` is the children loop of `process`, made into its own method. The loop computes `touched || checked` once instead of per child.
- `ButtonSystem.ButtonSystem.SwitchChildren` tests the layer with `else if` where the source has two consecutive `if`s. The two are equivalent because the layer names differ.
- The reconciler assigns the token only inside the children loop, so a button with no children neither claims nor releases the token. The model follows the code here; a plain reading of "claim when touched" would say otherwise. A consequence is a stale lock: a holder that has since lost its children or its Node keeps the token, and every other button is skipped from then on (`StaleHolderKeepsToken`).
- `SimpleImageComponentFactoryV2` is not part of this model: it is a thin variant over atlas regions with float arithmetic only.

## Findings

| source | as written | input that shows it | evidently intended | confidence | as-written member | corrected member |
|---|---|---|---|---|---|---|
| src/main/java/games/rednblack/editor/renderer/factory/component/ComponentFactory.java:146 | `vo.layerName == ""` compares references, so only null and the interned `""` literal become "Default" | a descriptor whose `layerName` is an empty string built at run time (for example read from a JSON scene file): the ZIndex layer and the descriptor keep `""` | null or any empty name becomes "Default" (as with the `isEmpty()` check on the shader name at line 88) | not executed; the reference semantics of Java `==` on strings are certain, the deserializer's interning is not part of this model | ComponentFactory.NormalizeLayerNameAsWritten, ComponentFactory.AsWrittenKeepsRuntimeEmptyName | ComponentFactory.NormalizeLayerName |
