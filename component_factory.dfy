/**
 * The entity composer and scene-graph linker: the ordered steps that attach the
 * common components of one entity from its item descriptor, and the two steps
 * that link a child under a root in both directions.
 */
module ComponentFactory {
  import opened Wrappers
  import opened Ecs

  /** The layer an entity lands in when its descriptor names none. */
  const DefaultLayer := "Default"

  datatype ShapeVO = ShapeVO(polygons: seq<seq<Vector2>>)

  /**
   * The item descriptor.  A `None` stands for Java's null; an origin of `None`
   * stands for the NaN sentinel meaning "derive from the dimensions".
   * Its fields are public and mutable, as in the source: the ZIndex step
   * writes `layerName` back.
   */
  class MainItemVO {
    var uniqueId: int
    var itemIdentifier: string
    var itemName: string
    var tags: Option<seq<string>>
    var customVars: string
    var x: real
    var y: real
    var scaleX: real
    var scaleY: real
    var rotation: real
    var originX: Option<real>
    var originY: Option<real>
    var tint: seq<real>
    var layerName: Option<string>
    var zIndex: int
    var shaderName: Option<string>
    var shape: Option<ShapeVO>
    var physics: Option<PhysicsProperties>
    var light: Option<LightProperties>
  }

  /** The layer name the ZIndex step settles on: null and "" become the default layer. */
  function NormalizeLayerName(name: Option<string>): (r: string)
    ensures r != ""
    ensures name.Some? && name.value != "" ==> r == name.value
    ensures name.None? || name.value == "" ==> r == DefaultLayer
  {
    if name.None? || name.value == "" then DefaultLayer else name.value
  }

  /** Normalizing an already normalized descriptor changes nothing. */
  lemma NormalizeLayerNameIdempotent(name: Option<string>)
    ensures NormalizeLayerName(Some(NormalizeLayerName(name))) == NormalizeLayerName(name)
  {
  }

  /** A Java string reference: its characters, and whether it is the interned literal instance. */
  datatype StringRef = StringRef(chars: string, interned: bool)

  /**
   * The layer-name check as written at line 146: `==` compares references, so
   * only null and the interned "" literal are replaced by the default layer.
   */
  function NormalizeLayerNameAsWritten(name: Option<StringRef>): (r: StringRef)
    ensures name.None? ==> r.chars == DefaultLayer
    ensures name.Some? && name.value.chars != "" ==> r == name.value
  {
    if name.None? || (name.value.chars == "" && name.value.interned) then StringRef(DefaultLayer, true)
    else name.value
  }

  /** An empty layer name built at run time (not the interned literal) survives as "". */
  lemma AsWrittenKeepsRuntimeEmptyName(s: StringRef)
    requires s.chars == "" && !s.interned
    ensures NormalizeLayerNameAsWritten(Some(s)).chars == ""
    ensures NormalizeLayerName(Some(s.chars)) == DefaultLayer
  {
  }

  /** The written check and the corrected one agree except on a non-interned "". */
  lemma AsWrittenAgreesOutsideRuntimeEmpty(name: Option<StringRef>)
    requires name.Some? ==> name.value.chars != "" || name.value.interned
    ensures NormalizeLayerNameAsWritten(name).chars
         == NormalizeLayerName(if name.None? then None else Some(name.value.chars))
  {
  }

  /** Origin along one axis: half the extent for the NaN sentinel, the descriptor's value otherwise. */
  function Origin(origin: Option<real>, extent: real): (r: real)
    ensures origin.None? ==> r + r == extent
    ensures origin.Some? ==> r == origin.value
  {
    if origin.None? then extent / 2.0 else origin.value
  }

  /**
   * A colour channel as the colour setter stores it: clamped into 0..1, so a
   * value already in range is kept.
   */
  function Clamp01(x: real): (r: real)
    ensures 0.0 <= r <= 1.0
    ensures 0.0 <= x <= 1.0 ==> r == x
    ensures x < 0.0 ==> r == 0.0
    ensures x > 1.0 ==> r == 1.0
  {
    if x < 0.0 then 0.0 else if x > 1.0 then 1.0 else x
  }

  /** The Tint component of a descriptor's tint: its first four entries, each clamped. */
  function TintOf(tint: seq<real>): (c: Component)
    requires |tint| >= 4
    ensures c.Tint?
  {
    Tint(Clamp01(tint[0]), Clamp01(tint[1]), Clamp01(tint[2]), Clamp01(tint[3]))
  }

  /** The tag set of a descriptor's tag array; an absent array leaves the default empty set. */
  function TagSet(tags: Option<seq<string>>): (r: set<string>)
    ensures tags.None? ==> r == {}
    ensures tags.Some? ==> forall t :: t in r <==> t in tags.value
  {
    if tags.None? then {} else set t | t in tags.value
  }

  /** Whether a descriptor asks for a shader: a name that is neither null nor empty. */
  predicate HasShader(shaderName: Option<string>)
  {
    shaderName.Some? && shaderName.value != ""
  }

  /** LayerMap lookup; a layer the map does not list counts as visible. */
  function IsVisible(layers: map<string, bool>, layerName: string): bool
  {
    if layerName in layers then layers[layerName] else true
  }

  /** The visibility a child inherits from `root`: the root's LayerMap looked up at the root's own layer. */
  function InheritedVisibility(root: map<Kind, Component>): bool
    requires LayerMapKind in root && root[LayerMapKind].LayerMap?
    requires ZIndexKind in root && root[ZIndexKind].ZIndex?
  {
    IsVisible(root[LayerMapKind].layers, root[ZIndexKind].layerName)
  }

  /** The Polygon component a descriptor's shape asks for, if any. */
  function MeshOf(shape: Option<ShapeVO>): (r: Option<Component>)
    ensures r.Some? <==> shape.Some?
    ensures r.Some? ==> r.value == Polygon(shape.value.polygons)
  {
    if shape.Some? then Some(Polygon(shape.value.polygons)) else None
  }

  /** The physics body component a descriptor's physics record asks for, if any. */
  function PhysicsOf(physics: Option<PhysicsProperties>): (r: Option<Component>)
    ensures r.Some? <==> physics.Some?
    ensures r.Some? ==> r.value == PhysicsBody(physics.value)
  {
    if physics.Some? then Some(PhysicsBody(physics.value)) else None
  }

  /** The light body component a descriptor's light record asks for, if any. */
  function LightOf(light: Option<LightProperties>): (r: Option<Component>)
    ensures r.Some? <==> light.Some?
    ensures r.Some? ==> r.value == LightBody(light.value)
  {
    if light.Some? then Some(LightBody(light.value)) else None
  }

  /** The Shader component a descriptor's shader name asks for, if any, with the looked-up program. */
  function ShaderOf(shaderName: Option<string>, shaderPrograms: string -> ShaderProgram): (r: Option<Component>)
    ensures r.Some? <==> HasShader(shaderName)
    ensures r.Some? ==> r.value == Shader(shaderName.value, shaderPrograms(shaderName.value))
  {
    if HasShader(shaderName) then Some(Shader(shaderName.value, shaderPrograms(shaderName.value))) else None
  }

  /** `m` with `c` attached under `k` when there is one. */
  function WithOptional(m: map<Kind, Component>, k: Kind, c: Option<Component>): map<Kind, Component>
  {
    if c.Some? then m[k := c.value] else m
  }

  /** The seven components every composition attaches. */
  function Common(vo: MainItemVO, entityType: int, dimensions: DimensionsComponent): map<Kind, Component>
    requires |vo.tint| >= 4
    reads vo
  {
    map[
      DimensionsKind := dimensions,
      BoundingBoxKind := BoundingBox,
      MainItemKind := MainItem(vo.uniqueId, vo.itemIdentifier, vo.itemName, TagSet(vo.tags),
                               vo.customVars, entityType, true),
      TransformKind := Transform(vo.x, vo.y, vo.rotation, vo.scaleX, vo.scaleY,
                                 Origin(vo.originX, dimensions.width), Origin(vo.originY, dimensions.height)),
      TintKind := TintOf(vo.tint),
      ZIndexKind := ZIndex(NormalizeLayerName(vo.layerName), vo.zIndex, false),
      ScriptKind := Script]
  }

  /**
   * The components the common composition attaches, kind by kind, for a
   * descriptor, the entity type and the variant-computed dimensions.
   */
  function Composed(vo: MainItemVO, entityType: int, dimensions: DimensionsComponent,
                    shaderPrograms: string -> ShaderProgram): (r: map<Kind, Component>)
    requires |vo.tint| >= 4
    reads vo
  {
    var common := Common(vo, entityType, dimensions);
    var withMesh := WithOptional(common, PolygonKind, MeshOf(vo.shape));
    var withPhysics := WithOptional(withMesh, PhysicsBodyKind, PhysicsOf(vo.physics));
    var withLight := WithOptional(withPhysics, LightBodyKind, LightOf(vo.light));
    WithOptional(withLight, ShaderKind, ShaderOf(vo.shaderName, shaderPrograms))
  }

  /** The seven kinds every composition attaches. */
  const AlwaysComposed: set<Kind> :=
    {DimensionsKind, BoundingBoxKind, MainItemKind, TransformKind, TintKind, ZIndexKind, ScriptKind}

  /** Optional components are attached exactly when the descriptor supplies them. */
  lemma ComposedKinds(vo: MainItemVO, entityType: int, dimensions: DimensionsComponent,
                      shaderPrograms: string -> ShaderProgram)
    requires |vo.tint| >= 4
    ensures AlwaysComposed <= Composed(vo, entityType, dimensions, shaderPrograms).Keys
    ensures PolygonKind in Composed(vo, entityType, dimensions, shaderPrograms) <==> vo.shape.Some?
    ensures PhysicsBodyKind in Composed(vo, entityType, dimensions, shaderPrograms) <==> vo.physics.Some?
    ensures LightBodyKind in Composed(vo, entityType, dimensions, shaderPrograms) <==> vo.light.Some?
    ensures ShaderKind in Composed(vo, entityType, dimensions, shaderPrograms) <==> HasShader(vo.shaderName)
  {
    ComposedKeys(vo, entityType, dimensions, shaderPrograms);
    assert PolygonKind !in AlwaysComposed && PhysicsBodyKind !in AlwaysComposed;
    assert LightBodyKind !in AlwaysComposed && ShaderKind !in AlwaysComposed;
  }

  /** Nothing beyond the seven common kinds and the four optional ones is attached. */
  lemma ComposedKindsBounded(vo: MainItemVO, entityType: int, dimensions: DimensionsComponent,
                             shaderPrograms: string -> ShaderProgram)
    requires |vo.tint| >= 4
    ensures Composed(vo, entityType, dimensions, shaderPrograms).Keys
         <= AlwaysComposed + {PolygonKind, PhysicsBodyKind, LightBodyKind, ShaderKind}
  {
    ComposedKeys(vo, entityType, dimensions, shaderPrograms);
  }

  /** The key set of a composition, written out step by step. */
  lemma ComposedKeys(vo: MainItemVO, entityType: int, dimensions: DimensionsComponent,
                     shaderPrograms: string -> ShaderProgram)
    requires |vo.tint| >= 4
    ensures Composed(vo, entityType, dimensions, shaderPrograms).Keys
         == AlwaysComposed + OptionalKind(PolygonKind, vo.shape.Some?)
            + OptionalKind(PhysicsBodyKind, vo.physics.Some?)
            + OptionalKind(LightBodyKind, vo.light.Some?)
            + OptionalKind(ShaderKind, HasShader(vo.shaderName))
  {
    var common := Common(vo, entityType, dimensions);
    assert common.Keys == AlwaysComposed;
    var withMesh := WithOptional(common, PolygonKind, MeshOf(vo.shape));
    var withPhysics := WithOptional(withMesh, PhysicsBodyKind, PhysicsOf(vo.physics));
    var withLight := WithOptional(withPhysics, LightBodyKind, LightOf(vo.light));
    WithOptionalKeys(common, PolygonKind, MeshOf(vo.shape));
    WithOptionalKeys(withMesh, PhysicsBodyKind, PhysicsOf(vo.physics));
    WithOptionalKeys(withPhysics, LightBodyKind, LightOf(vo.light));
    WithOptionalKeys(withLight, ShaderKind, ShaderOf(vo.shaderName, shaderPrograms));
  }

  /** `{k}` when `present`, nothing otherwise. */
  function OptionalKind(k: Kind, present: bool): set<Kind>
  {
    if present then {k} else {}
  }

  lemma WithOptionalKeys(m: map<Kind, Component>, k: Kind, c: Option<Component>)
    ensures WithOptional(m, k, c).Keys == m.Keys + OptionalKind(k, c.Some?)
  {
  }

  /** Transform origins are half the dimensions for the NaN sentinel and copied otherwise. */
  lemma ComposedOrigin(vo: MainItemVO, entityType: int, dimensions: DimensionsComponent,
                       shaderPrograms: string -> ShaderProgram)
    requires |vo.tint| >= 4
    ensures Composed(vo, entityType, dimensions, shaderPrograms)[DimensionsKind] == dimensions
    ensures var t := Composed(vo, entityType, dimensions, shaderPrograms)[TransformKind];
      && t.Transform?
      && (vo.originX.None? ==> t.originX == dimensions.width / 2.0)
      && (vo.originX.Some? ==> t.originX == vo.originX.value)
      && (vo.originY.None? ==> t.originY == dimensions.height / 2.0)
      && (vo.originY.Some? ==> t.originY == vo.originY.value)
  {
  }

  /** The ZIndex layer is never empty, keeps a named layer, and is never flagged for reordering. */
  lemma ComposedLayer(vo: MainItemVO, entityType: int, dimensions: DimensionsComponent,
                      shaderPrograms: string -> ShaderProgram)
    requires |vo.tint| >= 4
    ensures var z := Composed(vo, entityType, dimensions, shaderPrograms)[ZIndexKind];
      && z.ZIndex?
      && z.layerName != ""
      && (vo.layerName.Some? && vo.layerName.value != "" ==> z.layerName == vo.layerName.value)
      && (vo.layerName.None? || vo.layerName.value == "" ==> z.layerName == DefaultLayer)
      && z.zIndex == vo.zIndex
      && !z.needReOrder
  {
  }

  /** Physics, Light, Polygon and Shader components copy the descriptor's records unchanged. */
  lemma ComposedCopiesRecords(vo: MainItemVO, entityType: int, dimensions: DimensionsComponent,
                              shaderPrograms: string -> ShaderProgram)
    requires |vo.tint| >= 4
    ensures var m := Composed(vo, entityType, dimensions, shaderPrograms);
      && (vo.physics.Some? ==> m[PhysicsBodyKind] == PhysicsBody(vo.physics.value))
      && (vo.light.Some? ==> m[LightBodyKind] == LightBody(vo.light.value))
      && (vo.shape.Some? ==> m[PolygonKind] == Polygon(vo.shape.value.polygons))
      && (HasShader(vo.shaderName) ==> m[ShaderKind].shaderName == vo.shaderName.value)
  {
  }

  /** Each Tint channel is the descriptor's value clamped to 0..1, so an in-range value is copied. */
  lemma ComposedTint(vo: MainItemVO, entityType: int, dimensions: DimensionsComponent,
                     shaderPrograms: string -> ShaderProgram)
    requires |vo.tint| >= 4
    ensures Composed(vo, entityType, dimensions, shaderPrograms)[TintKind]
         == Tint(Clamp01(vo.tint[0]), Clamp01(vo.tint[1]), Clamp01(vo.tint[2]), Clamp01(vo.tint[3]))
    ensures var c := Composed(vo, entityType, dimensions, shaderPrograms)[TintKind];
      && 0.0 <= c.r <= 1.0 && 0.0 <= c.g <= 1.0 && 0.0 <= c.b <= 1.0 && 0.0 <= c.a <= 1.0
      && (0.0 <= vo.tint[0] <= 1.0 ==> c.r == vo.tint[0])
      && (0.0 <= vo.tint[1] <= 1.0 ==> c.g == vo.tint[1])
      && (0.0 <= vo.tint[2] <= 1.0 ==> c.b == vo.tint[2])
      && (0.0 <= vo.tint[3] <= 1.0 ==> c.a == vo.tint[3])
  {
  }

  /** MainItem copies the identity fields and starts out visible. */
  lemma ComposedMainItem(vo: MainItemVO, entityType: int, dimensions: DimensionsComponent,
                         shaderPrograms: string -> ShaderProgram)
    requires |vo.tint| >= 4
    ensures var item := Composed(vo, entityType, dimensions, shaderPrograms)[MainItemKind];
      && item.MainItem?
      && item.uniqueId == vo.uniqueId && item.itemIdentifier == vo.itemIdentifier
      && item.libraryLink == vo.itemName && item.entityType == entityType
      && item.tags == TagSet(vo.tags) && item.visible
  {
  }

  /** One composition step: attaching `c` over earlier components overlaid with `acc` extends the overlay. */
  lemma Extend(before: map<Kind, Component>, acc: map<Kind, Component>, k: Kind, c: Component)
    returns (acc': map<Kind, Component>)
    ensures acc' == acc[k := c]
    ensures (before + acc)[k := c] == before + acc'
  {
    acc' := acc[k := c];
  }

  /** An optional composition step: the overlay grows exactly when a component was attached. */
  lemma ExtendOptional(before: map<Kind, Component>, acc: map<Kind, Component>, k: Kind, c: Option<Component>)
    returns (acc': map<Kind, Component>)
    ensures acc' == WithOptional(acc, k, c)
    ensures WithOptional(before + acc, k, c) == before + acc'
  {
    acc' := WithOptional(acc, k, c);
  }

  /**
   * Composition reads the layer name only through its normalized form, so once
   * the ZIndex step has written that form back, the same descriptor composes to
   * the same components again (on this entity or another).
   */
  twostate lemma RecomposeNormalized(vo: MainItemVO, entityType: int, dimensions: DimensionsComponent,
                                     shaderPrograms: string -> ShaderProgram)
    requires old(|vo.tint|) >= 4
    requires unchanged(vo`uniqueId, vo`itemIdentifier, vo`itemName, vo`tags, vo`customVars, vo`x, vo`y,
                       vo`scaleX, vo`scaleY, vo`rotation, vo`originX, vo`originY, vo`tint, vo`zIndex,
                       vo`shaderName, vo`shape, vo`physics, vo`light)
    requires vo.layerName == Some(NormalizeLayerName(old(vo.layerName)))
    ensures Composed(vo, entityType, dimensions, shaderPrograms) == old(Composed(vo, entityType, dimensions, shaderPrograms))
  {
    NormalizeLayerNameIdempotent(old(vo.layerName));
  }

  class ComponentFactory {
    /** The resource retriever's shader lookup: name to compiled program handle. */
    const shaderPrograms: string -> ShaderProgram

    constructor (shaderPrograms: string -> ShaderProgram)
      ensures this.shaderPrograms == shaderPrograms
    {
      this.shaderPrograms := shaderPrograms;
    }

    /** The variant-specific first step: attaches the dimensions the variant computed. */
    method CreateDimensionsComponent(entity: Entity, dimensions: DimensionsComponent) returns (d: DimensionsComponent)
      requires entity.Valid()
      modifies entity
      ensures entity.Valid()
      ensures d == dimensions
      ensures entity.components == old(entity.components)[DimensionsKind := d]
    {
      d := dimensions;
      entity.Add(d);
    }

    method CreateBoundingBoxComponent(entity: Entity, vo: MainItemVO) returns (b: Component)
      requires entity.Valid()
      modifies entity
      ensures entity.Valid()
      ensures b == BoundingBox
      ensures entity.components == old(entity.components)[BoundingBoxKind := b]
    {
      b := BoundingBox;
      entity.Add(b);
    }

    method CreateShaderComponent(entity: Entity, vo: MainItemVO) returns (s: Option<Component>)
      requires entity.Valid()
      modifies entity
      ensures entity.Valid()
      ensures s == ShaderOf(vo.shaderName, shaderPrograms)
      ensures entity.components == WithOptional(old(entity.components), ShaderKind, s)
    {
      if vo.shaderName.None? || vo.shaderName.value == "" {
        return None;
      }
      var component := Shader(vo.shaderName.value, shaderPrograms(vo.shaderName.value));
      entity.Add(component);
      s := Some(component);
    }

    method CreateMainItemComponent(entity: Entity, vo: MainItemVO, entityType: int) returns (m: Component)
      requires entity.Valid()
      modifies entity
      ensures entity.Valid()
      ensures m == MainItem(uniqueId := vo.uniqueId, itemIdentifier := vo.itemIdentifier, libraryLink := vo.itemName,
                            tags := TagSet(vo.tags), customVars := vo.customVars, entityType := entityType,
                            visible := true)
      ensures entity.components == old(entity.components)[MainItemKind := m]
    {
      var tags: set<string> := {};
      if vo.tags.Some? {
        tags := set t | t in vo.tags.value;
      }
      m := MainItem(vo.uniqueId, vo.itemIdentifier, vo.itemName, tags, vo.customVars, entityType, true);
      entity.Add(m);
    }

    /** Reads the dimensions created in the first step for the default origin. */
    method CreateTransformComponent(entity: Entity, vo: MainItemVO, dimensions: DimensionsComponent) returns (t: Component)
      requires entity.Valid()
      modifies entity
      ensures entity.Valid()
      ensures t == Transform(x := vo.x, y := vo.y, rotation := vo.rotation, scaleX := vo.scaleX, scaleY := vo.scaleY,
                             originX := Origin(vo.originX, dimensions.width),
                             originY := Origin(vo.originY, dimensions.height))
      ensures entity.components == old(entity.components)[TransformKind := t]
    {
      var originX := if vo.originX.None? then dimensions.width / 2.0 else vo.originX.value;
      var originY := if vo.originY.None? then dimensions.height / 2.0 else vo.originY.value;
      t := Transform(vo.x, vo.y, vo.rotation, vo.scaleX, vo.scaleY, originX, originY);
      entity.Add(t);
    }

    method CreateTintComponent(entity: Entity, vo: MainItemVO) returns (t: Component)
      requires entity.Valid()
      requires |vo.tint| >= 4
      modifies entity
      ensures entity.Valid()
      ensures t == TintOf(vo.tint)
      ensures entity.components == old(entity.components)[TintKind := t]
    {
      var tint := vo.tint;
      t := Tint(Clamp01(tint[0]), Clamp01(tint[1]), Clamp01(tint[2]), Clamp01(tint[3]));
      entity.Add(t);
    }

    /** Also writes the normalized layer name back into the descriptor. */
    method CreateZIndexComponent(entity: Entity, vo: MainItemVO) returns (z: Component)
      requires entity.Valid()
      modifies entity, vo`layerName
      ensures entity.Valid()
      ensures z == ZIndex(layerName := NormalizeLayerName(old(vo.layerName)), zIndex := vo.zIndex, needReOrder := false)
      ensures vo.layerName == Some(z.layerName)
      ensures entity.components == old(entity.components)[ZIndexKind := z]
    {
      if vo.layerName.None? || vo.layerName.value == "" {
        vo.layerName := Some(DefaultLayer);
      }
      z := ZIndex(vo.layerName.value, vo.zIndex, false);
      entity.Add(z);
    }

    method CreateScriptComponent(entity: Entity, vo: MainItemVO) returns (s: Component)
      requires entity.Valid()
      modifies entity
      ensures entity.Valid()
      ensures s == Script
      ensures entity.components == old(entity.components)[ScriptKind := s]
    {
      s := Script;
      entity.Add(s);
    }

    /**
     * Points `entity` at `root` and sets its visibility from the root's own
     * layer; only `entity` changes.
     */
    method CreateParentNodeComponent(root: Entity, entity: Entity) returns (p: Component)
      requires entity.Valid() && root.Valid()
      requires MainItemKind in entity.components
      requires LayerMapKind in root.components && ZIndexKind in root.components
      modifies entity
      ensures entity.Valid()
      ensures p == ParentNode(root)
      ensures entity.components == old(entity.components)[ParentNodeKind := p][MainItemKind :=
        old(entity.components[MainItemKind]).(visible := old(InheritedVisibility(root.components)))]
      ensures entity.components[MainItemKind].visible
           == old(IsVisible(root.components[LayerMapKind].layers, root.components[ZIndexKind].layerName))
    {
      p := ParentNode(root);
      entity.Add(p);
      var mainItem := entity.components[MainItemKind];
      var layerMap := root.components[LayerMapKind];
      var zIndex := root.components[ZIndexKind];
      entity.Add(mainItem.(visible := IsVisible(layerMap.layers, zIndex.layerName)));
    }

    /** Appends `entity` to the end of the root's children; only `root` changes. */
    method CreateNodeComponent(root: Entity, entity: Entity)
      requires root.Valid()
      requires NodeKind in root.components
      modifies root
      ensures root.Valid()
      ensures root.components == old(root.components)[NodeKind := Node(old(root.components[NodeKind].children) + [entity])]
      ensures var before := old(root.components[NodeKind].children);
        var after := root.components[NodeKind].children;
        |after| == |before| + 1 && after[..|before|] == before && after[|before|] == entity
    {
      var node := root.components[NodeKind];
      root.Add(Node(node.children + [entity]));
    }

    method CreatePhysicsComponents(entity: Entity, vo: MainItemVO)
      requires entity.Valid()
      modifies entity
      ensures entity.Valid()
      ensures entity.components == WithOptional(old(entity.components), PhysicsBodyKind, PhysicsOf(vo.physics))
    {
      if vo.physics.None? {
        return;
      }
      var _ := CreatePhysicsBodyPropertiesComponent(entity, vo);
    }

    /** Copies each of the fifteen body settings from the descriptor. */
    method CreatePhysicsBodyPropertiesComponent(entity: Entity, vo: MainItemVO) returns (b: Component)
      requires entity.Valid()
      requires vo.physics.Some?
      modifies entity
      ensures entity.Valid()
      ensures b == PhysicsBody(vo.physics.value)
      ensures entity.components == old(entity.components)[PhysicsBodyKind := b]
    {
      var p := vo.physics.value;
      var copy := PhysicsProperties(
        bodyType := p.bodyType, mass := p.mass, centerOfMass := p.centerOfMass,
        rotationalInertia := p.rotationalInertia, damping := p.damping,
        angularDamping := p.angularDamping, gravityScale := p.gravityScale,
        allowSleep := p.allowSleep, awake := p.awake, bullet := p.bullet, sensor := p.sensor,
        fixedRotation := p.fixedRotation, density := p.density, friction := p.friction,
        restitution := p.restitution);
      b := PhysicsBody(copy);
      entity.Add(b);
    }

    /** Copies each of the nine light settings from the descriptor. */
    method CreateLightComponents(entity: Entity, vo: MainItemVO) returns (l: Option<Component>)
      requires entity.Valid()
      modifies entity
      ensures entity.Valid()
      ensures l == LightOf(vo.light)
      ensures entity.components == WithOptional(old(entity.components), LightBodyKind, l)
    {
      if vo.light.None? {
        return None;
      }
      var s := vo.light.value;
      var copy := LightProperties(
        rays := s.rays, color := s.color, distance := s.distance, rayDirection := s.rayDirection,
        softnessLength := s.softnessLength, isXRay := s.isXRay, isStatic := s.isStatic,
        isSoft := s.isSoft, isActive := s.isActive);
      var component := LightBody(copy);
      entity.Add(component);
      l := Some(component);
    }

    method CreateMeshComponent(entity: Entity, vo: MainItemVO) returns (p: Option<Component>)
      requires entity.Valid()
      modifies entity
      ensures entity.Valid()
      ensures p == MeshOf(vo.shape)
      ensures entity.components == WithOptional(old(entity.components), PolygonKind, p)
    {
      if vo.shape.Some? {
        var component := Polygon(vo.shape.value.polygons);
        entity.Add(component);
        return Some(component);
      }
      return None;
    }

    /**
     * Runs the common steps in the source's order.  The entity ends up with its
     * earlier components overlaid with `Composed`, and the descriptor carries its
     * normalized layer name (see RecomposeNormalized).
     */
    method CreateCommonComponents(entity: Entity, vo: MainItemVO, entityType: int, dimensions: DimensionsComponent)
      requires entity.Valid()
      requires |vo.tint| >= 4
      modifies entity, vo`layerName
      ensures entity.Valid()
      ensures entity.components == old(entity.components) + old(Composed(vo, entityType, dimensions, shaderPrograms))
      ensures vo.layerName == Some(NormalizeLayerName(old(vo.layerName)))
    {
      ghost var composed := Composed(vo, entityType, dimensions, shaderPrograms);
      ghost var before := entity.components;
      CreateRequiredComponents(entity, vo, entityType, dimensions);
      ghost var acc := old(Common(vo, entityType, dimensions));
      var mesh := CreateMeshComponent(entity, vo);
      acc := ExtendOptional(before, acc, PolygonKind, mesh);
      CreatePhysicsComponents(entity, vo);
      acc := ExtendOptional(before, acc, PhysicsBodyKind, PhysicsOf(vo.physics));
      var light := CreateLightComponents(entity, vo);
      acc := ExtendOptional(before, acc, LightBodyKind, light);
      var shader := CreateShaderComponent(entity, vo);
      acc := ExtendOptional(before, acc, ShaderKind, shader);
      assert acc == composed;
    }

    /** The first seven steps of the common composition, which every entity receives. */
    method CreateRequiredComponents(entity: Entity, vo: MainItemVO, entityType: int, dimensions: DimensionsComponent)
      requires entity.Valid()
      requires |vo.tint| >= 4
      modifies entity, vo`layerName
      ensures entity.Valid()
      ensures entity.components == old(entity.components) + old(Common(vo, entityType, dimensions))
      ensures vo.layerName == Some(NormalizeLayerName(old(vo.layerName)))
    {
      ghost var common := Common(vo, entityType, dimensions);
      ghost var before := entity.components;
      ghost var acc: map<Kind, Component> := map[];
      assert before + acc == before;
      var d := CreateDimensionsComponent(entity, dimensions);
      acc := Extend(before, acc, DimensionsKind, d);
      var b := CreateBoundingBoxComponent(entity, vo);
      acc := Extend(before, acc, BoundingBoxKind, b);
      var m := CreateMainItemComponent(entity, vo, entityType);
      acc := Extend(before, acc, MainItemKind, m);
      var t := CreateTransformComponent(entity, vo, d);
      acc := Extend(before, acc, TransformKind, t);
      var c := CreateTintComponent(entity, vo);
      acc := Extend(before, acc, TintKind, c);
      var z := CreateZIndexComponent(entity, vo);
      acc := Extend(before, acc, ZIndexKind, z);
      var s := CreateScriptComponent(entity, vo);
      acc := Extend(before, acc, ScriptKind, s);
      assert acc == common;
    }
  }
}
