/**
 * Symbolic stand-ins for the glm values the renderer and the scene pass around.
 *
 * No floating-point arithmetic is modelled: a matrix is kept as the term that
 * built it (translate, rotate, scale, product, inverse), and a world-space
 * position is kept as the product "matrix times local point" that the renderer
 * would evaluate. Two positions are therefore equal exactly when they were
 * built from the same matrix term and the same local point.
 */
module Geometry {

  datatype Vec2 = Vec2(x: real, y: real)
  datatype Vec3 = Vec3(x: real, y: real, z: real)
  datatype Vec4 = Vec4(x: real, y: real, z: real, w: real)

  /** `v * k` on a glm::vec4. */
  function Scale4(v: Vec4, k: real): Vec4
  {
    Vec4(v.x * k, v.y * k, v.z * k, v.w * k)
  }

  /** The implicit glm::vec4 -> glm::vec3 conversion of an assignment: w is dropped. */
  function Truncate(v: Vec4): Vec3
  {
    Vec3(v.x, v.y, v.z)
  }

  /** A 4x4 matrix, as the term that built it. */
  datatype Mat4 =
    | Identity
      /** glm::translate(glm::mat4(1.0f), offset) */
    | Translation(offset: Vec3)
      /** glm::rotate(glm::mat4(1.0f), glm::radians(degrees), {0, 0, 1}) */
    | RotationZ(degrees: real)
      /** glm::scale(glm::mat4(1.0f), factors) */
    | Scaling(factors: Vec3)
      /** translate(translation) * toMat4(quat(rotation)) * scale(scale), as a TransformComponent builds it */
    | TranslationRotationScale(translation: Vec3, rotation: Vec3, scale: Vec3)
      /** the projection of a scene camera whose viewport has the given size */
    | SceneCameraProjection(viewportWidth: nat, viewportHeight: nat)
    | Product(left: Mat4, right: Mat4)
    | Inverse(m: Mat4)

  /** glm::translate(m, offset): post-multiplies m by a translation. */
  function Translate(m: Mat4, offset: Vec3): Mat4
  {
    Product(m, Translation(offset))
  }

  /** A point in a primitive's own frame, before the transform is applied. */
  datatype LocalPoint =
    | At(v: Vec4)
      /** (cos(a) * 0.5, sin(a) * 0.5, 0, 1) with a = segment / segments * 2 * pi */
    | OnCircle(segment: nat, segments: nat)

  /** The xyz part of `transform * point`, as stored in a vertex's position field. */
  datatype WorldPos = Transformed(transform: Mat4, point: LocalPoint)
}
