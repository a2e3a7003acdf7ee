/** The raytracer's records: rays, the point light, shapes and the
    intersection record that the tests write through a pointer. */
module Scene {
  import opened Vectors

  /** `Ray`: the direction is not normalised; `focalLength` is carried but unused. */
  datatype Ray = Ray(origin: Vec3, dir: Vec3, focalLength: real)

  /** `Light`: the single point light of a scene. */
  datatype Light = Light(origin: Vec3, color: Vec3)

  /** The integer tags of `Shape::type`. */
  const SphereKind := 0
  const PlaneKind := 1
  const TriangleKind := 2

  /** `Shape`: a tagged record. `data` holds the sphere's centre, the plane's
      normal and point, or the triangle's three vertices; `addition` is the
      sphere's radius; `pex` is the Phong exponent (`PEx`). */
  datatype Shape = Shape(
    kind: int,
    data: seq<Vec3>,
    addition: real,
    color: Vec3,
    id: int,
    specularColor: Vec3,
    specularHighLight: Vec3,
    pex: real)

  /** A shape whose fields were never assigned. */
  const DefaultShape := Shape(0, [], 0.0, Zero, 0, Zero, Zero, 0.0)

  /** The points each tag's test reads from `data`: reading beyond them is
      undefined behaviour in the source, so every test requires this. */
  predicate WellFormed(s: Shape)
  {
    && (s.kind == SphereKind ==> |s.data| >= 1)
    && (s.kind == PlaneKind ==> |s.data| >= 2)
    && (s.kind == TriangleKind ==> |s.data| >= 3)
  }

  predicate AllWellFormed(shapes: seq<Shape>)
  {
    forall i :: 0 <= i < |shapes| ==> WellFormed(shapes[i])
  }

  /** The point `origin + t * dir` of a ray. */
  function PointAt(ray: Ray, t: real): Vec3
  {
    Add(ray.origin, Scale(t, ray.dir))
  }

  /** `IntersectionInfo`, written through a pointer by the intersection tests. */
  class IntersectionInfo {
    var t: real
    var shape: Shape

    constructor()
      ensures t == 0.0 && shape == DefaultShape
    {
      t := 0.0;
      shape := DefaultShape;
    }
  }
}
