/**
 * The components an entity can carry, one datatype per component struct, and
 * the tagged union the registry stores them as. Only the fields the scene and
 * the renderer read are kept; physics handles, shape definitions and sound
 * buffers belong to libraries that are not part of this model.
 */
module Components {
  import opened Geometry

  /** A UUID is a 64-bit number; it is generated at random and enters the model as an input. */
  type UUID = nat

  datatype IDComponent = IDComponent(id: UUID)

  datatype TagComponent = TagComponent(tag: string)

  datatype TransformComponent = TransformComponent(translation: Vec3, rotation: Vec3, scale: Vec3)
  {
    /** translate(Translation) * toMat4(quat(Rotation)) * scale(Scale), kept as that term. */
    function GetTransform(): Mat4
    {
      TranslationRotationScale(translation, rotation, scale)
    }
  }

  /** The member initialisers of TransformComponent. */
  const DefaultTransform: TransformComponent :=
    TransformComponent(Vec3(0.0, 0.0, 0.0), Vec3(0.0, 0.0, 0.0), Vec3(1.0, 1.0, 1.0))

  /**
   * A scene camera, reduced to the viewport size it was last given; its
   * projection is the symbolic term built from that size.
   */
  datatype SceneCamera = SceneCamera(viewportWidth: nat, viewportHeight: nat)
  {
    function GetProjection(): Mat4
    {
      SceneCameraProjection(viewportWidth, viewportHeight)
    }

    /** SetViewportSize: the camera takes the new size, and its projection is the one for that size. */
    function SetViewportSize(width: nat, height: nat): (c: SceneCamera)
      ensures c.viewportWidth == width && c.viewportHeight == height
      ensures c.GetProjection() == SceneCameraProjection(width, height)
    {
      SceneCamera(width, height)
    }
  }

  datatype CameraComponent = CameraComponent(camera: SceneCamera, primary: bool, fixedAspectRatio: bool)

  datatype SpriteRendererComponent = SpriteRendererComponent(colour: Vec4)

  /** The member initialiser of SpriteRendererComponent: opaque white. */
  const DefaultSprite: SpriteRendererComponent := SpriteRendererComponent(Vec4(1.0, 1.0, 1.0, 1.0))

  datatype CircleRendererComponent = CircleRendererComponent(color: Vec4, radius: real, thickness: real, fade: real)

  datatype BodyType2D = Static | Dynamic | Kinematic

  datatype Rigidbody2DComponent = Rigidbody2DComponent(bodyType: BodyType2D, fixedRotation: bool, affectedByGravity: bool)

  datatype BoxCollider2DComponent = BoxCollider2DComponent(
    offset: Vec2, halfSize: Vec2, density: real, friction: real, restitution: real)

  datatype CircleCollider2DComponent = CircleCollider2DComponent(
    offset: Vec2, radius: real, density: real, friction: real, restitution: real)

  datatype AudioComponent = AudioComponent(filePath: string, loop: bool, playOnStart: bool)

  datatype PlayerControllerComponent = PlayerControllerComponent(moveForce: real)

  /** The component types, standing for the typeid a template is instantiated with. */
  datatype ComponentType =
    | IDType | TagType | TransformType | CameraType | SpriteRendererType | CircleRendererType
    | Rigidbody2DType | BoxCollider2DType | CircleCollider2DType | AudioType | PlayerControllerType

  /** A component of any type, as a registry pool stores it. */
  datatype Component =
    | ID(id: IDComponent)
    | Tag(tag: TagComponent)
    | Transform(transform: TransformComponent)
    | Camera(camera: CameraComponent)
    | SpriteRenderer(sprite: SpriteRendererComponent)
    | CircleRenderer(circle: CircleRendererComponent)
    | Rigidbody2D(rigidbody: Rigidbody2DComponent)
    | BoxCollider2D(boxCollider: BoxCollider2DComponent)
    | CircleCollider2D(circleCollider: CircleCollider2DComponent)
    | Audio(audio: AudioComponent)
    | PlayerController(playerController: PlayerControllerComponent)
  {
    function Type(): ComponentType
    {
      match this
      case ID(_) => IDType
      case Tag(_) => TagType
      case Transform(_) => TransformType
      case Camera(_) => CameraType
      case SpriteRenderer(_) => SpriteRendererType
      case CircleRenderer(_) => CircleRendererType
      case Rigidbody2D(_) => Rigidbody2DType
      case BoxCollider2D(_) => BoxCollider2DType
      case CircleCollider2D(_) => CircleCollider2DType
      case Audio(_) => AudioType
      case PlayerController(_) => PlayerControllerType
    }
  }

  /**
   * The component types DuplicateEntity and CopyTo copy, in the order they
   * copy them: every type but IDComponent.
   */
  const CopiedTypes: seq<ComponentType> := [
    TagType, TransformType, CameraType, SpriteRendererType, CircleRendererType,
    Rigidbody2DType, BoxCollider2DType, CircleCollider2DType, AudioType, PlayerControllerType]

  lemma CopiedTypesAreAllButID()
    ensures forall t :: t in CopiedTypes <==> t != IDType
  {
  }
}
