/** Ray-primitive tests (`testIntersectSphere`, `testIntersectPlane`,
    `testIntersectTriangle`), their dispatch on the shape tag
    (`testIntersection`) and the nearest-hit scan (`testIntersections`). */
module Intersection {
  import opened Wrappers
  import opened Vectors
  import opened Scene

  // ---------------------------------------------------------------- sphere

  /** The near root `(-b - sqrt(disc)) / a` of `a t^2 + 2 b t + cc` where
      `disc = b^2 - a cc`, or nothing when `disc < 0`. With `a == 0` the
      source computes 0/0 (NaN); the model has no root there. */
  function NearRoot(a: real, b: real, cc: real, sqrt: real -> real): (r: Option<real>)
    ensures r.Some? ==> a != 0.0 && Discriminant(a, b, cc) >= 0.0
  {
    var disc := Discriminant(a, b, cc);
    if disc < 0.0 then None
    else if a == 0.0 then None
    else Some((-b - sqrt(disc)) / a)
  }

  /** `b^2 - a cc` */
  function Discriminant(a: real, b: real, cc: real): real
  {
    b * b - a * cc
  }

  /** `testIntersectSphere`'s hit/miss decision and its `t`: with
      `w = e - c`, `disc = (d.w)^2 - (d.d)(w.w - r^2)`, and only the near
      root is taken (`pow(x, 2)` is `x * x`). */
  function SphereHit(ray: Ray, shape: Shape, glm: Glm): (r: Option<real>)
    requires |shape.data| >= 1
  {
    var c := shape.data[0];
    NearRoot(SphereA(ray), SphereB(ray, c), SphereC(ray, c, shape.addition), glm.sqrt)
  }

  /** The coefficients of the sphere's quadratic in `t`: `d.d`, `d.(e-c)`
      and `|e-c|^2 - r^2`. */
  function SphereA(ray: Ray): real { Dot(ray.dir, ray.dir) }

  function SphereB(ray: Ray, center: Vec3): real { Dot(ray.dir, Sub(ray.origin, center)) }

  function SphereC(ray: Ray, center: Vec3, radius: real): real
  {
    Dot(Sub(ray.origin, center), Sub(ray.origin, center)) - radius * radius
  }

  /** `a t^2 + 2 b t + cc` */
  function Quadratic(a: real, b: real, cc: real, t: real): real
  {
    a * t * t + 2.0 * b * t + cc
  }

  /** `|e + t d - c|^2 - r^2`: zero exactly on the sphere. */
  function SphereGap(ray: Ray, center: Vec3, radius: real, t: real): real
  {
    var p := Sub(PointAt(ray, t), center);
    Dot(p, p) - radius * radius
  }

  /** The point of the ray at `t` lies on the sphere. */
  ghost predicate OnSphere(ray: Ray, center: Vec3, radius: real, t: real)
  {
    SphereGap(ray, center, radius, t) == 0.0
  }

  /** The gap as the quadratic `a t^2 + 2 b t + cc`. */
  lemma SphereQuadratic(ray: Ray, center: Vec3, radius: real, t: real)
    ensures SphereGap(ray, center, radius, t)
         == Quadratic(SphereA(ray), SphereB(ray, center), SphereC(ray, center, radius), t)
  {
    GapExpansion(ray.origin.x, ray.origin.y, ray.origin.z, center.x, center.y, center.z,
                 ray.dir.x, ray.dir.y, ray.dir.z, t, radius);
  }

  /** The near root is a root. */
  lemma NearRootSolves(a: real, b: real, cc: real, sqrt: real -> real)
    requires IsSqrt(sqrt)
    requires NearRoot(a, b, cc, sqrt).Some?
    ensures var t := NearRoot(a, b, cc, sqrt).value; Quadratic(a, b, cc, t) == 0.0
  {
    var t := NearRoot(a, b, cc, sqrt).value;
    var disc := Discriminant(a, b, cc);
    var s := sqrt(disc);
    assert s * s == disc;
    assert a * t == -b - s;
    CompleteSquare(a, b, cc, t);
    assert a * (Quadratic(a, b, cc, t)) == 0.0;
    ZeroProduct(a, Quadratic(a, b, cc, t));
  }

  /** Every root of the quadratic with `a > 0` lies at or beyond the near root. */
  lemma NearRootIsLeast(a: real, b: real, cc: real, sqrt: real -> real, u: real)
    requires IsSqrt(sqrt) && 0.0 <= a
    requires NearRoot(a, b, cc, sqrt).Some?
    requires Quadratic(a, b, cc, u) == 0.0
    ensures NearRoot(a, b, cc, sqrt).value <= u
  {
    var t := NearRoot(a, b, cc, sqrt).value;
    var disc := Discriminant(a, b, cc);
    var s := sqrt(disc);
    assert 0.0 <= s && s * s == disc;
    assert a * t == -b - s;
    CompleteSquare(a, b, cc, u);
    var m := a * u + b;
    assert m * m == s * s;
    SquareRootIsLeast(m, s);
    assert a * u == m - b;
    CancelPositive(a, t, u);
  }

  /** Without a near root (and `a != 0`) the quadratic has no root at all. */
  lemma NoRootWithoutNearRoot(a: real, b: real, cc: real, sqrt: real -> real, u: real)
    requires 0.0 <= a && a != 0.0
    requires NearRoot(a, b, cc, sqrt).None?
    ensures Quadratic(a, b, cc, u) != 0.0
  {
    CompleteSquare(a, b, cc, u);
    SquareNonNegative(a * u + b);
    var q := Quadratic(a, b, cc, u);
    assert a * q > 0.0;
  }

  lemma CompleteSquare(a: real, b: real, cc: real, t: real)
    ensures a * Quadratic(a, b, cc, t) == (a * t + b) * (a * t + b) - Discriminant(a, b, cc)
  {
  }

  /** A sphere hit lies on the sphere: `|e + t d - c|^2 == r^2`. */
  lemma SphereHitOnSurface(ray: Ray, shape: Shape, glm: Glm)
    requires |shape.data| >= 1 && IsSqrt(glm.sqrt)
    requires SphereHit(ray, shape, glm).Some?
    ensures OnSphere(ray, shape.data[0], shape.addition, SphereHit(ray, shape, glm).value)
  {
    var c, radius := shape.data[0], shape.addition;
    var a, b, cc := SphereA(ray), SphereB(ray, c), SphereC(ray, c, radius);
    NearRootSolves(a, b, cc, glm.sqrt);
    SphereQuadratic(ray, c, radius, NearRoot(a, b, cc, glm.sqrt).value);
  }

  /** The reported `t` is the nearer of the two crossings: no point of the
      ray's line on the sphere has a smaller parameter. */
  lemma SphereHitIsNearRoot(ray: Ray, shape: Shape, glm: Glm, u: real)
    requires |shape.data| >= 1 && IsSqrt(glm.sqrt)
    requires SphereHit(ray, shape, glm).Some?
    requires OnSphere(ray, shape.data[0], shape.addition, u)
    ensures SphereHit(ray, shape, glm).value <= u
  {
    var c, radius := shape.data[0], shape.addition;
    var a, b, cc := SphereA(ray), SphereB(ray, c), SphereC(ray, c, radius);
    SphereQuadratic(ray, c, radius, u);
    DotSelfNonNegative(ray.dir);
    NearRootIsLeast(a, b, cc, glm.sqrt, u);
  }

  /** For a non-zero direction the test misses exactly when the ray's line
      does not meet the sphere (the discriminant is negative). */
  lemma SphereMissIffNoCrossing(ray: Ray, shape: Shape, glm: Glm)
    requires |shape.data| >= 1 && IsSqrt(glm.sqrt)
    requires Dot(ray.dir, ray.dir) != 0.0
    ensures SphereHit(ray, shape, glm).None?
        <==> forall u :: !OnSphere(ray, shape.data[0], shape.addition, u)
  {
    var c, radius := shape.data[0], shape.addition;
    var a, b, cc := SphereA(ray), SphereB(ray, c), SphereC(ray, c, radius);
    if SphereHit(ray, shape, glm).Some? {
      SphereHitOnSurface(ray, shape, glm);
    } else {
      DotSelfNonNegative(ray.dir);
      forall u ensures !OnSphere(ray, c, radius, u) {
        SphereQuadratic(ray, c, radius, u);
        NoRootWithoutNearRoot(a, b, cc, glm.sqrt, u);
      }
    }
  }

  // ----------------------------------------------------------------- plane

  /** The threshold below which `|d.n|` counts as parallel. */
  const PlaneEpsilon: real := 0.0001

  /** `testIntersectPlane`: `data[0]` is the normal `n`, `data[1]` a point
      `q` of the plane; a miss when `|d.n| < 0.0001`, otherwise
      `t = ((q - e).n) / (d.n)`. */
  function PlaneHit(ray: Ray, shape: Shape): Option<real>
    requires |shape.data| >= 2
  {
    var n, q := shape.data[0], shape.data[1];
    var dn := Dot(ray.dir, n);
    if Abs(dn) < PlaneEpsilon then None
    else Some(Dot(Sub(q, ray.origin), n) / dn)
  }

  /** `(e + t d - q).n`: zero exactly on the plane. */
  function PlaneGap(ray: Ray, n: Vec3, q: Vec3, t: real): real
  {
    Dot(Sub(PointAt(ray, t), q), n)
  }

  /** The point of the ray at `t` lies on the plane through `q` with normal `n`. */
  ghost predicate OnPlane(ray: Ray, n: Vec3, q: Vec3, t: real)
  {
    PlaneGap(ray, n, q, t) == 0.0
  }

  /** `t k - m` */
  function Linear(k: real, m: real, t: real): real
  {
    t * k - m
  }

  /** The gap is linear in `t`: `t (d.n) - (q - e).n`. */
  lemma PlaneGapLinear(ray: Ray, n: Vec3, q: Vec3, t: real)
    ensures PlaneGap(ray, n, q, t) == Linear(Dot(ray.dir, n), Dot(Sub(q, ray.origin), n), t)
  {
    var e, d := ray.origin, ray.dir;
    assert Sub(PointAt(ray, t), q) == Vec3(e.x - q.x + t * d.x, e.y - q.y + t * d.y, e.z - q.z + t * d.z);
    assert Dot(Sub(PointAt(ray, t), q), n)
        == (e.x - q.x) * n.x + (e.y - q.y) * n.y + (e.z - q.z) * n.z + t * (d.x * n.x + d.y * n.y + d.z * n.z);
  }

  /** A linear equation with `k != 0` has the one root `m / k`. */
  lemma LinearRoot(k: real, m: real, t: real)
    requires k != 0.0
    ensures Linear(k, m, t) == 0.0 <==> t == m / k
  {
    if t == m / k {
      assert t * k == m;
    }
  }

  /** Once the ray is not parallel to the plane, the hit is the one and only
      parameter at which the ray is on the plane. */
  lemma PlaneHitIffOnPlane(ray: Ray, shape: Shape, u: real)
    requires |shape.data| >= 2
    requires PlaneHit(ray, shape).Some?
    ensures OnPlane(ray, shape.data[0], shape.data[1], u) <==> u == PlaneHit(ray, shape).value
  {
    var n, q := shape.data[0], shape.data[1];
    PlaneGapLinear(ray, n, q, u);
    LinearRoot(Dot(ray.dir, n), Dot(Sub(q, ray.origin), n), u);
  }

  // -------------------------------------------------------------- triangle

  /** The determinant `M` of `testIntersectTriangle` and the numerators of
      its `beta`, `gamma` and `t`. */
  datatype Cramer = Cramer(m: real, betaNum: real, gammaNum: real, tNum: real)

  /** The system `beta (a-b) + gamma (a-c) + t d == a - e`, written with the
      source's letters: columns `(A,B,C) = a-b`, `(D,E,F) = a-c`,
      `(G,H,I) = d`, right-hand side `(J,K,L) = a-e`. */
  function TriangleSystem(ray: Ray, a: Vec3, b: Vec3, c: Vec3): Cramer
  {
    var A, B, C := a.x - b.x, a.y - b.y, a.z - b.z;
    var D, E, F := a.x - c.x, a.y - c.y, a.z - c.z;
    var G, H, I := ray.dir.x, ray.dir.y, ray.dir.z;
    var J, K, L := a.x - ray.origin.x, a.y - ray.origin.y, a.z - ray.origin.z;
    Cramer(
      A * (E * I - H * F) + B * (G * F - D * I) + C * (D * H - E * G),
      J * (E * I - H * F) + K * (G * F - D * I) + L * (D * H - E * G),
      I * (A * K - J * B) + H * (J * C - A * L) + G * (B * L - K * C),
      -(F * (A * K - J * B) + E * (J * C - A * L) + D * (B * L - K * C)))
  }

  /** `testIntersectTriangle`: a miss when `M == 0`, when `gamma` is outside
      `[0, 1]` or when `beta` is outside `[0, 1 - gamma]`; otherwise `t`. */
  function TriangleHit(ray: Ray, shape: Shape): Option<real>
    requires |shape.data| >= 3
  {
    TriangleDecide(TriangleSystem(ray, shape.data[0], shape.data[1], shape.data[2]))
  }

  function TriangleDecide(s: Cramer): Option<real>
  {
    if s.m == 0.0 then None
    else
      var beta, gamma, t := s.betaNum / s.m, s.gammaNum / s.m, s.tNum / s.m;
      if gamma < 0.0 || gamma > 1.0 then None
      else if beta < 0.0 || beta > 1.0 - gamma then None
      else Some(t)
  }

  /** The point `a + beta (b - a) + gamma (c - a)` of the triangle's plane. */
  function TrianglePoint(a: Vec3, b: Vec3, c: Vec3, beta: real, gamma: real): Vec3
  {
    Add(a, Add(Scale(beta, Sub(b, a)), Scale(gamma, Sub(c, a))))
  }

  /** Barycentric coordinates inside the closed triangle, as the source's
      range checks accept them. */
  predicate InTriangle(beta: real, gamma: real)
  {
    0.0 <= gamma <= 1.0 && 0.0 <= beta <= 1.0 - gamma
  }

  /** The point of the ray at `t` lies in the closed triangle `abc`. */
  ghost predicate OnTriangle(ray: Ray, a: Vec3, b: Vec3, c: Vec3, t: real)
  {
    exists beta, gamma :: InTriangle(beta, gamma) && PointAt(ray, t) == TrianglePoint(a, b, c, beta, gamma)
  }

  /** The source's letters are the determinants of Cramer's rule. */
  lemma TriangleSystemIsCramer(ray: Ray, a: Vec3, b: Vec3, c: Vec3)
    ensures var u, v, r := Sub(a, b), Sub(a, c), Sub(a, ray.origin);
      TriangleSystem(ray, a, b, c) == Cramer(Det(u, v, ray.dir), Det(r, v, ray.dir), Det(u, r, ray.dir), Det(u, v, r))
  {
  }

  /** The ray meets the plane of `abc` at `t` in the point with barycentric
      coordinates `beta`, `gamma` exactly when they solve the system. */
  lemma TriangleEquation(ray: Ray, a: Vec3, b: Vec3, c: Vec3, beta: real, gamma: real, t: real)
    ensures PointAt(ray, t) == TrianglePoint(a, b, c, beta, gamma)
        <==> Combine(beta, Sub(a, b), gamma, Sub(a, c), t, ray.dir) == Sub(a, ray.origin)
  {
  }

  /** A triangle hit lies inside the triangle, at the solved barycentric
      coordinates. */
  lemma TriangleHitOnTriangle(ray: Ray, shape: Shape)
    requires |shape.data| >= 3
    requires TriangleHit(ray, shape).Some?
    ensures OnTriangle(ray, shape.data[0], shape.data[1], shape.data[2], TriangleHit(ray, shape).value)
  {
    var a, b, c := shape.data[0], shape.data[1], shape.data[2];
    var s := TriangleSystem(ray, a, b, c);
    var beta, gamma, t := s.betaNum / s.m, s.gammaNum / s.m, s.tNum / s.m;
    TriangleSystemIsCramer(ray, a, b, c);
    CramerSolves(Sub(a, b), Sub(a, c), ray.dir, Sub(a, ray.origin));
    TriangleEquation(ray, a, b, c, beta, gamma, t);
    assert InTriangle(beta, gamma) && PointAt(ray, t) == TrianglePoint(a, b, c, beta, gamma);
  }

  /** Conversely, unless `M == 0` (the ray is parallel to the triangle's
      plane or the triangle is degenerate) every crossing of the triangle is
      the reported hit. */
  lemma TriangleCrossingHits(ray: Ray, shape: Shape, u: real)
    requires |shape.data| >= 3
    requires TriangleSystem(ray, shape.data[0], shape.data[1], shape.data[2]).m != 0.0
    requires OnTriangle(ray, shape.data[0], shape.data[1], shape.data[2], u)
    ensures TriangleHit(ray, shape) == Some(u)
  {
    var a, b, c := shape.data[0], shape.data[1], shape.data[2];
    var beta, gamma := TriangleCoordinates(ray, a, b, c, u);
    TriangleSolutionUnique(ray, a, b, c, beta, gamma, u);
    DecideInside(TriangleSystem(ray, a, b, c), beta, gamma, u);
  }

  lemma TriangleCoordinates(ray: Ray, a: Vec3, b: Vec3, c: Vec3, t: real) returns (beta: real, gamma: real)
    requires OnTriangle(ray, a, b, c, t)
    ensures InTriangle(beta, gamma) && PointAt(ray, t) == TrianglePoint(a, b, c, beta, gamma)
  {
    beta, gamma :| InTriangle(beta, gamma) && PointAt(ray, t) == TrianglePoint(a, b, c, beta, gamma);
  }

  /** Barycentric coordinates and parameter of a crossing are the Cramer
      quotients. */
  lemma TriangleSolutionUnique(ray: Ray, a: Vec3, b: Vec3, c: Vec3, beta: real, gamma: real, t: real)
    requires TriangleSystem(ray, a, b, c).m != 0.0
    requires PointAt(ray, t) == TrianglePoint(a, b, c, beta, gamma)
    ensures var s := TriangleSystem(ray, a, b, c);
      beta == s.betaNum / s.m && gamma == s.gammaNum / s.m && t == s.tNum / s.m
  {
    TriangleEquation(ray, a, b, c, beta, gamma, t);
    TriangleSystemIsCramer(ray, a, b, c);
    CramerUnique(Sub(a, b), Sub(a, c), ray.dir, Sub(a, ray.origin), beta, gamma, t);
  }

  lemma DecideInside(s: Cramer, beta: real, gamma: real, t: real)
    requires s.m != 0.0 && InTriangle(beta, gamma)
    requires beta == s.betaNum / s.m && gamma == s.gammaNum / s.m && t == s.tNum / s.m
    ensures TriangleDecide(s) == Some(t)
  {
  }

  // -------------------------------------------------------------- dispatch

  /** `testIntersection`: dispatch on the type tag; any other tag misses. */
  function Intersect(ray: Ray, shape: Shape, glm: Glm): (r: Option<real>)
    requires WellFormed(shape)
    ensures r.Some? ==> SphereKind <= shape.kind <= TriangleKind
  {
    if shape.kind == SphereKind then SphereHit(ray, shape, glm)
    else if shape.kind == PlaneKind then PlaneHit(ray, shape)
    else if shape.kind == TriangleKind then TriangleHit(ray, shape)
    else None
  }

  /** The result of `testIntersection` for each shape of a list. */
  function Hits(ray: Ray, shapes: seq<Shape>, glm: Glm): (r: seq<Option<real>>)
    requires AllWellFormed(shapes)
    ensures |r| == |shapes|
    ensures forall i :: 0 <= i < |shapes| ==> r[i] == Intersect(ray, shapes[i], glm)
  {
    if |shapes| == 0 then []
    else Hits(ray, shapes[..|shapes| - 1], glm) + [Intersect(ray, shapes[|shapes| - 1], glm)]
  }

  /** A hit at a parameter in `[lo, hi)`. */
  predicate Within(h: Option<real>, lo: real, hi: real)
  {
    h.Some? && lo <= h.value < hi
  }

  /** The index `testIntersections` reports for the per-shape results
      `hits`: the loop keeps the first result in `[lo, hi)` that is below
      every result accepted before it. */
  function Nearest(hits: seq<Option<real>>, lo: real, hi: real): (r: Option<nat>)
    ensures r.Some? ==> r.value < |hits| && Within(hits[r.value], lo, hi)
  {
    if |hits| == 0 then None
    else
      var last := |hits| - 1;
      var prev := Nearest(hits[..last], lo, hi);
      var bound := if prev.Some? then hits[prev.value].value else hi;
      if Within(hits[last], lo, bound) then Some(last) else prev
  }

  /** The scan finds a hit in the window exactly when there is one; it is a
      nearest one, and every earlier hit in the window is strictly farther, so
      ties go to the first shape. */
  lemma {:induction false} NearestIsFirstNearest(hits: seq<Option<real>>, lo: real, hi: real)
    ensures var r := Nearest(hits, lo, hi);
      && (r.Some? <==> exists i :: 0 <= i < |hits| && Within(hits[i], lo, hi))
      && (r.Some? ==> forall i :: 0 <= i < |hits| && Within(hits[i], lo, hi) ==>
            hits[r.value].value <= hits[i].value)
      && (r.Some? ==> forall i :: 0 <= i < r.value && Within(hits[i], lo, hi) ==>
            hits[r.value].value < hits[i].value)
  {
    if |hits| > 0 {
      var last := |hits| - 1;
      NearestIsFirstNearest(hits[..last], lo, hi);
      assert forall i :: 0 <= i < last ==> hits[..last][i] == hits[i];
    }
  }

  // --------------------------------------------------------------- methods

  /** `testIntersectSphere`, writing `t` and the shape through `info` on a hit. */
  method TestIntersectSphere(ray: Ray, shape: Shape, glm: Glm, info: IntersectionInfo) returns (hit: bool)
    requires |shape.data| >= 1
    modifies info
    ensures hit == SphereHit(ray, shape, glm).Some?
    ensures hit ==> info.t == SphereHit(ray, shape, glm).value && info.shape == shape
    ensures !hit ==> info.t == old(info.t) && info.shape == old(info.shape)
  {
    var c := shape.data[0];
    var a, b, cc := SphereA(ray), SphereB(ray, c), SphereC(ray, c, shape.addition);
    var discriminant := Discriminant(a, b, cc);
    hit := false;
    if discriminant < 0.0 || a == 0.0 {
      return;
    }
    hit := true;
    info.t := (-b - glm.sqrt(discriminant)) / a;
    info.shape := shape;
  }

  /** `testIntersectPlane`. */
  method TestIntersectPlane(ray: Ray, shape: Shape, info: IntersectionInfo) returns (hit: bool)
    requires |shape.data| >= 2
    modifies info
    ensures hit == PlaneHit(ray, shape).Some?
    ensures hit ==> info.t == PlaneHit(ray, shape).value && info.shape == shape
    ensures !hit ==> info.t == old(info.t) && info.shape == old(info.shape)
  {
    var n, q := shape.data[0], shape.data[1];
    hit := false;
    if Abs(Dot(ray.dir, n)) < PlaneEpsilon {
      return;
    }
    hit := true;
    info.t := Dot(Sub(q, ray.origin), n) / Dot(ray.dir, n);
    info.shape := shape;
  }

  /** `testIntersectTriangle`. */
  method TestIntersectTriangle(ray: Ray, shape: Shape, info: IntersectionInfo) returns (hit: bool)
    requires |shape.data| >= 3
    modifies info
    ensures hit == TriangleHit(ray, shape).Some?
    ensures hit ==> info.t == TriangleHit(ray, shape).value && info.shape == shape
    ensures !hit ==> info.t == old(info.t) && info.shape == old(info.shape)
  {
    var s := TriangleSystem(ray, shape.data[0], shape.data[1], shape.data[2]);
    hit := false;
    if s.m == 0.0 {
      return;
    }
    var beta, gamma, t := s.betaNum / s.m, s.gammaNum / s.m, s.tNum / s.m;
    if gamma < 0.0 || gamma > 1.0 {
      return;
    } else if beta < 0.0 || beta > 1.0 - gamma {
      return;
    }
    hit := true;
    info.t := t;
    info.shape := shape;
  }

  /** `testIntersection`. */
  method TestIntersection(ray: Ray, shape: Shape, glm: Glm, info: IntersectionInfo) returns (hit: bool)
    requires WellFormed(shape)
    modifies info
    ensures hit == Intersect(ray, shape, glm).Some?
    ensures hit ==> info.t == Intersect(ray, shape, glm).value && info.shape == shape
    ensures !hit ==> info.t == old(info.t) && info.shape == old(info.shape)
  {
    hit := false;
    if shape.kind == SphereKind {
      hit := TestIntersectSphere(ray, shape, glm, info);
    } else if shape.kind == PlaneKind {
      hit := TestIntersectPlane(ray, shape, info);
    } else if shape.kind == TriangleKind {
      hit := TestIntersectTriangle(ray, shape, info);
    }
  }

  /** `testIntersections`: the nearest hit in `[lowerBound, upperBound)`,
      ties going to the earlier shape; `resultInfo` is left alone on a miss. */
  method TestIntersections(ray: Ray, objectList: seq<Shape>, resultInfo: IntersectionInfo,
                           lowerBound: real, upperBound: real, glm: Glm) returns (hit: bool)
    requires AllWellFormed(objectList)
    modifies resultInfo
    ensures var hits := Hits(ray, objectList, glm);
      var r := Nearest(hits, lowerBound, upperBound);
      && hit == r.Some?
      && (hit ==> resultInfo.t == hits[r.value].value && resultInfo.shape == objectList[r.value])
      && (!hit ==> resultInfo.t == old(resultInfo.t) && resultInfo.shape == old(resultInfo.shape))
  {
    ghost var hits := Hits(ray, objectList, glm);
    hit := false;
    var t := upperBound;
    for i := 0 to |objectList|
      invariant var r := Nearest(hits[..i], lowerBound, upperBound);
        && hit == r.Some?
        && (hit ==> r.value < i && t == hits[r.value].value
                    && resultInfo.t == t && resultInfo.shape == objectList[r.value])
        && (!hit ==> t == upperBound && resultInfo.t == old(resultInfo.t) && resultInfo.shape == old(resultInfo.shape))
    {
      assert hits[..i + 1][..i] == hits[..i];
      var aInfo := new IntersectionInfo();
      var h := TestIntersection(ray, objectList[i], glm, aInfo);
      if h {
        if aInfo.t >= lowerBound && aInfo.t < t {
          hit := true;
          t := aInfo.t;
          resultInfo.t := t;
          resultInfo.shape := aInfo.shape;
        }
      }
    }
    assert hits[..|objectList|] == hits;
  }

  // ------------------------------------------------- solver helpers
  // Small algebraic and sequence facts the proofs above call; they model
  // nothing of the program on their own.

  lemma AxisExpansion(e: real, c: real, d: real, t: real)
    ensures ((e + t * d) - c) * ((e + t * d) - c) == (e - c) * (e - c) + 2.0 * t * (d * (e - c)) + t * t * (d * d)
  {
  }

  /** `SphereQuadratic` on coordinates. */
  lemma GapExpansion(ex: real, ey: real, ez: real, cx: real, cy: real, cz: real,
                     dx: real, dy: real, dz: real, t: real, r: real)
    ensures ((ex + t * dx) - cx) * ((ex + t * dx) - cx) + ((ey + t * dy) - cy) * ((ey + t * dy) - cy)
          + ((ez + t * dz) - cz) * ((ez + t * dz) - cz) - r * r
         == Quadratic(dx * dx + dy * dy + dz * dz,
                      dx * (ex - cx) + dy * (ey - cy) + dz * (ez - cz),
                      (ex - cx) * (ex - cx) + (ey - cy) * (ey - cy) + (ez - cz) * (ez - cz) - r * r, t)
  {
    AxisExpansion(ex, cx, dx, t);
    AxisExpansion(ey, cy, dy, t);
    AxisExpansion(ez, cz, dz, t);
    assert (dx * dx + dy * dy + dz * dz) * t * t == t * t * (dx * dx) + t * t * (dy * dy) + t * t * (dz * dz);
    assert 2.0 * (dx * (ex - cx) + dy * (ey - cy) + dz * (ez - cz)) * t
        == 2.0 * t * (dx * (ex - cx)) + 2.0 * t * (dy * (ey - cy)) + 2.0 * t * (dz * (ez - cz));
  }

  /** Of the two roots of `m^2 == s^2`, `-s` is the smaller. */
  lemma SquareRootIsLeast(m: real, s: real)
    requires 0.0 <= s && m * m == s * s
    ensures -s <= m
  {
    assert (m - s) * (m + s) == m * m - s * s;
    ZeroProduct(m - s, m + s);
  }

  lemma ZeroProduct(p: real, q: real)
    requires p * q == 0.0
    ensures p == 0.0 || q == 0.0
  {
  }

  lemma CancelPositive(a: real, t: real, u: real)
    requires 0.0 < a && a * t <= a * u
    ensures t <= u
  {
    assert a * (u - t) == a * u - a * t;
    assert u - t == (a * (u - t)) / a;
  }

  lemma SquareNonNegative(r: real)
    ensures r * r >= 0.0
  {
  }

  lemma DotSelfNonNegative(v: Vec3)
    ensures Dot(v, v) >= 0.0
  {
  }
}
