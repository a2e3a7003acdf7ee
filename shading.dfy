/** Shading: the surface normal, the Phong terms, the unused one-bounce
    `raycolor` and its `shadingEquation`, and the recursive `raycolorRe`
    that the renderer calls. */
module Shading {
  import opened Wrappers
  import opened Vectors
  import opened Scene
  import opened Intersection

  /** The window of the shadow ray, `[0.0001, 1.0)`: only blockers strictly
      between the point and the light count. */
  const ShadowLo: real := 0.0001
  const ShadowHi: real := 1.0

  /** The window of a reflected ray, `[0.0001, 99999.9)`. */
  const ReflectLo: real := 0.0001
  const ReflectHi: real := 99999.9

  /** `vec3(k, k, k)` */
  function Gray(k: real): Vec3 { Vec3(k, k, k) }

  /** The normal before normalisation: from the centre to the hit point for a
      sphere, the stored normal for a plane, `(b - a) x (c - a)` for a
      triangle. */
  function RawNormal(ray: Ray, t: real, shape: Shape): Vec3
    requires WellFormed(shape) && SphereKind <= shape.kind <= TriangleKind
  {
    if shape.kind == SphereKind then Sub(PointAt(ray, t), shape.data[0])
    else if shape.kind == PlaneKind then shape.data[0]
    else Cross(Sub(shape.data[1], shape.data[0]), Sub(shape.data[2], shape.data[0]))
  }

  /** `surfaceNormalVector`: the normalised raw normal. */
  function SurfaceNormalVector(ray: Ray, t: real, shape: Shape, glm: Glm): Vec3
    requires WellFormed(shape) && SphereKind <= shape.kind <= TriangleKind
  {
    glm.normalize(RawNormal(ray, t, shape))
  }

  /** A triangle's normal is perpendicular to both edges from `a`. */
  lemma TriangleNormalIsPerpendicular(ray: Ray, t: real, shape: Shape)
    requires WellFormed(shape) && shape.kind == TriangleKind
    ensures Dot(RawNormal(ray, t, shape), Sub(shape.data[1], shape.data[0])) == 0.0
    ensures Dot(RawNormal(ray, t, shape), Sub(shape.data[2], shape.data[0])) == 0.0
  {
    CrossIsOrthogonal(Sub(shape.data[1], shape.data[0]), Sub(shape.data[2], shape.data[0]));
  }

  /** At a sphere hit the raw normal has the length of the radius. */
  lemma SphereNormalHasRadiusLength(ray: Ray, shape: Shape, glm: Glm)
    requires WellFormed(shape) && shape.kind == SphereKind && IsSqrt(glm.sqrt)
    requires SphereHit(ray, shape, glm).Some?
    ensures var n := RawNormal(ray, SphereHit(ray, shape, glm).value, shape);
      Dot(n, n) == shape.addition * shape.addition
  {
    SphereHitOnSurface(ray, shape, glm);
  }

  /** The diffuse and specular terms `kd*I*max(0, n.l) + ks*I*pow(max(0, n.h), e)`. */
  function Phong(n: Vec3, l: Vec3, h: Vec3, kd: Vec3, ks: Vec3, lightColor: Vec3, exponent: real, glm: Glm): Vec3
  {
    Add(Scale(Max(0.0, Dot(n, l)), Mul(kd, lightColor)),
        Scale(glm.pow(Max(0.0, Dot(n, h)), exponent), Mul(ks, lightColor)))
  }

  /** `shadingEquation` (not called by the renderer): ambient `0.5`, `ks = 0.7`,
      exponent 500, with `l` towards the light and `h` halfway to the view. */
  function ShadingEquation(p: Vec3, view: Vec3, surfaceColor: Vec3, lightColor: Vec3,
                           lightSource: Vec3, n: Vec3, glm: Glm): Vec3
  {
    var l := glm.normalize(Sub(lightSource, p));
    var h := glm.normalize(Add(view, l));
    Add(Mul(surfaceColor, Gray(0.5)), Phong(n, l, h, surfaceColor, Gray(0.7), lightColor, 500.0, glm))
  }

  /** The shadow ray from `p` towards the light: its direction is the full
      offset, so `t = 1` is the light itself. */
  function ShadowRay(p: Vec3, light: Light): Ray
  {
    Ray(p, Sub(light.origin, p), 0.0)
  }

  /** The mirror direction `d' - 2 (d'.n) n` with `d' = normalize(d)`. */
  function ReflectionDir(d: Vec3, n: Vec3, glm: Glm): Vec3
  {
    var nd := glm.normalize(d);
    Sub(nd, Scale(2.0 * Dot(nd, n), n))
  }

  /** The facts the shading code reads off a hit. */
  datatype Hit = Hit(shape: Shape, t: real, point: Vec3, normal: Vec3, view: Vec3)

  /** The hit `testIntersections` reports for `ray` in `[lo, hi)` over the
      scene `shapes`. */
  function FirstHit(shapes: seq<Shape>, ray: Ray, lo: real, hi: real, glm: Glm): (r: Option<Hit>)
    requires AllWellFormed(shapes)
    ensures r.Some? ==> WellFormed(r.value.shape) && SphereKind <= r.value.shape.kind <= TriangleKind
  {
    var hits := Hits(ray, shapes, glm);
    var k := Nearest(hits, lo, hi);
    if k.None? then None
    else
      var shape, t := shapes[k.value], hits[k.value].value;
      Some(Hit(shape, t, PointAt(ray, t), SurfaceNormalVector(ray, t, shape, glm), glm.normalize(Neg(ray.dir))))
  }

  /** `FirstHit` misses exactly when no shape is hit inside the window. */
  lemma FirstHitMissesIffNoHit(shapes: seq<Shape>, ray: Ray, lo: real, hi: real, glm: Glm)
    requires AllWellFormed(shapes)
    ensures FirstHit(shapes, ray, lo, hi, glm).None?
        <==> forall i :: 0 <= i < |shapes| ==> !Within(Intersect(ray, shapes[i], glm), lo, hi)
  {
    NearestIsFirstNearest(Hits(ray, shapes, glm), lo, hi);
  }

  /** A scene seen only through its first-hit query: the shading functions
      below depend on the shapes only through it. */
  type Tracer = (Ray, real, real) -> Option<Hit>

  /** The tracer of the scene `shapes`, the global `myShapeList`. */
  function SceneTracer(shapes: seq<Shape>, glm: Glm): Tracer
    requires AllWellFormed(shapes)
  {
    (ray: Ray, lo: real, hi: real) => FirstHit(shapes, ray, lo, hi, glm)
  }

  /** Some shape blocks the light from `p`: the shadow ray finds a hit in
      `[0.0001, 1.0)`. */
  predicate Shadowed(trace: Tracer, p: Vec3, light: Light)
  {
    trace(ShadowRay(p, light), ShadowLo, ShadowHi).Some?
  }

  /** The direct light at a hit: `base * color`, plus the Phong terms with
      `ks`/`exponent` when the light is not blocked. */
  function Local(trace: Tracer, h: Hit, light: Light, base: real, ks: Vec3, exponent: real, glm: Glm): (c: Vec3)
    ensures Shadowed(trace, h.point, light) ==> c == Mul(h.shape.color, Gray(base))
  {
    var ambient := Mul(h.shape.color, Gray(base));
    if Shadowed(trace, h.point, light) then ambient
    else
      var l := glm.normalize(Sub(light.origin, h.point));
      Add(ambient, Phong(h.normal, l, glm.normalize(Add(h.view, l)), h.shape.color, ks, light.color, exponent, glm))
  }

  /** `raycolor` (not called by the renderer): black on a miss, otherwise the
      local term with ambient `0.5`, `ks = 0.7` and exponent 500. */
  function RayColorFlat(trace: Tracer, ray: Ray, lo: real, hi: real, light: Light, glm: Glm): Vec3
  {
    var hit := trace(ray, lo, hi);
    if hit.None? then Zero
    else Local(trace, hit.value, light, 0.5, Gray(0.7), 500.0, glm)
  }

  /** `raycolor` is `shadingEquation` at an unblocked hit and the ambient term
      alone at a blocked one. */
  lemma RayColorFlatIsShadingEquation(trace: Tracer, ray: Ray, lo: real, hi: real, light: Light, glm: Glm)
    requires trace(ray, lo, hi).Some?
    ensures var h := trace(ray, lo, hi).value;
      RayColorFlat(trace, ray, lo, hi, light, glm)
        == if Shadowed(trace, h.point, light) then Mul(h.shape.color, Gray(0.5))
           else ShadingEquation(h.point, h.view, h.shape.color, light.color, light.origin, h.normal, glm)
  {
  }

  /** The reflection budget after `raycolorRe` forces it to zero for a shape
      whose `specularColor` is exactly black. */
  function Budget(shape: Shape, times: int): (b: int)
    ensures b > 0 <==> shape.specularColor != Zero && times > 0
    ensures b > 0 ==> b == times
  {
    if shape.specularColor == Zero then 0 else times
  }

  /** `raycolorRe`: black on a miss; otherwise the local term (ambient `0.4`,
      the shape's `specularHighLight` and `PEx`), plus `specularColor` times
      the colour of the reflected ray while the budget lasts. */
  function RayColor(trace: Tracer, ray: Ray, lo: real, hi: real, light: Light, times: int, glm: Glm): Vec3
    decreases if times > 0 then times else 0
  {
    var hit := trace(ray, lo, hi);
    if hit.None? then Zero
    else
      var h := hit.value;
      var local := Local(trace, h, light, 0.4, h.shape.specularHighLight, h.shape.pex, glm);
      var budget := Budget(h.shape, times);
      if budget > 0 then
        var reflected := Ray(h.point, ReflectionDir(ray.dir, h.normal, glm), 0.0);
        Add(local, Mul(h.shape.specularColor, RayColor(trace, reflected, ReflectLo, ReflectHi, light, budget - 1, glm)))
      else local
  }

  /** The number of reflections `raycolorRe` follows. */
  function ReflectionDepth(trace: Tracer, ray: Ray, lo: real, hi: real, light: Light, times: int, glm: Glm): (k: nat)
    ensures k <= (if times > 0 then times else 0)
    ensures k > 0 ==> trace(ray, lo, hi).Some?
    decreases if times > 0 then times else 0
  {
    var hit := trace(ray, lo, hi);
    if hit.None? then 0
    else
      var h := hit.value;
      var budget := Budget(h.shape, times);
      if budget > 0 then
        var reflected := Ray(h.point, ReflectionDir(ray.dir, h.normal, glm), 0.0);
        1 + ReflectionDepth(trace, reflected, ReflectLo, ReflectHi, light, budget - 1, glm)
      else 0
  }

  /** A miss is black, whatever the budget. */
  lemma MissIsBlack(trace: Tracer, ray: Ray, lo: real, hi: real, light: Light, times: int, glm: Glm)
    requires trace(ray, lo, hi).None?
    ensures RayColor(trace, ray, lo, hi, light, times, glm) == Zero
  {
  }

  /** Without budget only the local term remains. */
  lemma ZeroBudgetIsLocal(trace: Tracer, ray: Ray, lo: real, hi: real, light: Light, times: int, glm: Glm)
    requires times <= 0
    requires trace(ray, lo, hi).Some?
    ensures var h := trace(ray, lo, hi).value;
      RayColor(trace, ray, lo, hi, light, times, glm)
        == Local(trace, h, light, 0.4, h.shape.specularHighLight, h.shape.pex, glm)
  {
  }

  /** A shape whose `specularColor` is black reflects nothing, whatever the
      budget. */
  lemma NonReflectiveIgnoresBudget(trace: Tracer, ray: Ray, lo: real, hi: real, light: Light, times: int, glm: Glm)
    requires trace(ray, lo, hi).Some?
    requires trace(ray, lo, hi).value.shape.specularColor == Zero
    ensures RayColor(trace, ray, lo, hi, light, times, glm) == RayColor(trace, ray, lo, hi, light, 0, glm)
    ensures ReflectionDepth(trace, ray, lo, hi, light, times, glm) == 0
  {
  }

  /** A blocked hit without budget gets only the `0.4` ambient term. */
  lemma ShadowedHitGetsBaseTerm(trace: Tracer, ray: Ray, lo: real, hi: real, light: Light, glm: Glm)
    requires trace(ray, lo, hi).Some?
    requires Shadowed(trace, trace(ray, lo, hi).value.point, light)
    ensures RayColor(trace, ray, lo, hi, light, 0, glm) == Mul(trace(ray, lo, hi).value.shape.color, Gray(0.4))
  {
  }

  /** Budget beyond the depth actually reached changes nothing: the
      recursion is bounded by the scene, not only by `times`. */
  lemma {:induction false} BudgetBeyondDepthIsIrrelevant(trace: Tracer, ray: Ray, lo: real, hi: real,
                                                         light: Light, times: int, glm: Glm)
    requires ReflectionDepth(trace, ray, lo, hi, light, times, glm) < times
    ensures RayColor(trace, ray, lo, hi, light, times + 1, glm) == RayColor(trace, ray, lo, hi, light, times, glm)
    decreases times
  {
    var hit := trace(ray, lo, hi);
    if hit.Some? {
      var h := hit.value;
      if Budget(h.shape, times) > 0 {
        var reflected := Ray(h.point, ReflectionDir(ray.dir, h.normal, glm), 0.0);
        BudgetBeyondDepthIsIrrelevant(trace, reflected, ReflectLo, ReflectHi, light, times - 1, glm);
      }
    }
  }

  /** The local part of `raycolorRe` at hit `h`: the `0.4` ambient term,
      then the shadow ray tested against the whole scene, and the Phong terms
      when nothing blocks the light. */
  method LocalColor(shapes: seq<Shape>, h: Hit, light: Light, glm: Glm) returns (color: Vec3)
    requires AllWellFormed(shapes)
    ensures color == Local(SceneTracer(shapes, glm), h, light, 0.4, h.shape.specularHighLight, h.shape.pex, glm)
  {
    color := Mul(h.shape.color, Gray(0.4));
    var shadowRay := ShadowRay(h.point, light);
    var emptyInfo := new IntersectionInfo();
    var blocked := TestIntersections(shadowRay, shapes, emptyInfo, ShadowLo, ShadowHi, glm);
    if !blocked {
      var l := glm.normalize(Sub(light.origin, h.point));
      var half := glm.normalize(Add(h.view, l));
      color := Add(color, Phong(h.normal, l, half, h.shape.color, h.shape.specularHighLight, light.color, h.shape.pex, glm));
    }
  }

  /** `raycolorRe` as the source runs it: a scan of the scene through an
      `IntersectionInfo` record, the local term, then the budget forced to
      zero for a non-reflective shape and decremented before the recursive
      call. */
  method RayColorRe(shapes: seq<Shape>, ray: Ray, lowerBound: real, upperBound: real,
                    light: Light, times: int, glm: Glm) returns (color: Vec3)
    requires AllWellFormed(shapes)
    ensures color == RayColor(SceneTracer(shapes, glm), ray, lowerBound, upperBound, light, times, glm)
    decreases if times > 0 then times else 0
  {
    var info := new IntersectionInfo();
    var hit := TestIntersections(ray, shapes, info, lowerBound, upperBound, glm);
    if !hit {
      return Zero;
    }
    var d := ray.dir;
    var n := SurfaceNormalVector(ray, info.t, info.shape, glm);
    var v := glm.normalize(Neg(d));
    var intersectP := PointAt(ray, info.t);
    var h := Hit(info.shape, info.t, intersectP, n, v);
    assert FirstHit(shapes, ray, lowerBound, upperBound, glm) == Some(h);
    color := LocalColor(shapes, h, light, glm);
    var r := ReflectionDir(d, n, glm);
    var km := info.shape.specularColor;
    var reflectionRay := Ray(intersectP, r, 0.0);
    var remaining := times;
    if km == Zero {
      remaining := 0;
    }
    if remaining > 0 {
      remaining := remaining - 1;
      var reflected := RayColorRe(shapes, reflectionRay, ReflectLo, ReflectHi, light, remaining, glm);
      return Add(color, Mul(km, reflected));
    } else {
      return color;
    }
  }
}
