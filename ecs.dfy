/**
 * The entity-component store the composer writes to.  An entity is an object
 * that carries its components, at most one of each kind; adding a component of
 * a kind the entity already has replaces the old one.
 */
module Ecs {

  datatype Vector2 = Vector2(x: real, y: real)

  /** Opaque handle of a compiled shader program, as the resource retriever returns it. */
  type ShaderProgram = nat

  /** Rigid-body settings, shared by the descriptor's physics record and the Physics component. */
  datatype PhysicsProperties = PhysicsProperties(
    bodyType: int,
    mass: real,
    centerOfMass: Vector2,
    rotationalInertia: real,
    damping: real,
    angularDamping: real,
    gravityScale: real,
    allowSleep: bool,
    awake: bool,
    bullet: bool,
    sensor: bool,
    fixedRotation: bool,
    density: real,
    friction: real,
    restitution: real)

  /** Light settings, shared by the descriptor's light record and the Light component. */
  datatype LightProperties = LightProperties(
    rays: int,
    color: seq<real>,
    distance: real,
    rayDirection: int,
    softnessLength: real,
    isXRay: bool,
    isStatic: bool,
    isSoft: bool,
    isActive: bool)

  datatype Kind =
    | DimensionsKind | BoundingBoxKind | MainItemKind | TransformKind | TintKind
    | ZIndexKind | ScriptKind | PolygonKind | PhysicsBodyKind | LightBodyKind
    | ShaderKind | ParentNodeKind | NodeKind | LayerMapKind

  datatype Component =
    | Dimensions(width: real, height: real)
    | BoundingBox
    | MainItem(uniqueId: int, itemIdentifier: string, libraryLink: string, tags: set<string>,
               customVars: string, entityType: int, visible: bool)
    | Transform(x: real, y: real, rotation: real, scaleX: real, scaleY: real, originX: real, originY: real)
    | Tint(r: real, g: real, b: real, a: real)
    | ZIndex(layerName: string, zIndex: int, needReOrder: bool)
    | Script
    | Polygon(vertices: seq<seq<Vector2>>)
    | PhysicsBody(physics: PhysicsProperties)
    | LightBody(light: LightProperties)
    | Shader(shaderName: string, program: ShaderProgram)
    | ParentNode(parentEntity: Entity)
    | Node(children: seq<Entity>)
    | LayerMap(layers: map<string, bool>)

  type DimensionsComponent = c: Component | c.Dimensions? witness Dimensions(0.0, 0.0)

  function KindOf(c: Component): Kind
  {
    match c
    case Dimensions(_, _) => DimensionsKind
    case BoundingBox => BoundingBoxKind
    case MainItem(_, _, _, _, _, _, _) => MainItemKind
    case Transform(_, _, _, _, _, _, _) => TransformKind
    case Tint(_, _, _, _) => TintKind
    case ZIndex(_, _, _) => ZIndexKind
    case Script => ScriptKind
    case Polygon(_) => PolygonKind
    case PhysicsBody(_) => PhysicsBodyKind
    case LightBody(_) => LightBodyKind
    case Shader(_, _) => ShaderKind
    case ParentNode(_) => ParentNodeKind
    case Node(_) => NodeKind
    case LayerMap(_) => LayerMapKind
  }

  /** Each component sits under its own kind, so a kind occurs at most once. */
  ghost predicate WellKinded(components: map<Kind, Component>)
  {
    forall k :: k in components ==> KindOf(components[k]) == k
  }

  class Entity {
    var components: map<Kind, Component>

    ghost predicate Valid()
      reads this
    {
      WellKinded(components)
    }

    constructor ()
      ensures Valid() && components == map[]
    {
      components := map[];
    }

    /** Attaches `c`, replacing any component of the same kind. */
    method Add(c: Component)
      requires Valid()
      modifies this
      ensures Valid()
      ensures components == old(components)[KindOf(c) := c]
    {
      components := components[KindOf(c) := c];
    }
  }
}
