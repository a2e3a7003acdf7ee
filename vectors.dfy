/** The glm `vec3` arithmetic the raytracer uses, over real numbers, and the
    three glm/libm functions it calls but whose numerics are not modelled
    (`sqrt`, `pow`, `normalize`). */
module Vectors {

  datatype Vec3 = Vec3(x: real, y: real, z: real)

  const Zero := Vec3(0.0, 0.0, 0.0)

  function Add(a: Vec3, b: Vec3): Vec3 { Vec3(a.x + b.x, a.y + b.y, a.z + b.z) }

  function Sub(a: Vec3, b: Vec3): Vec3 { Vec3(a.x - b.x, a.y - b.y, a.z - b.z) }

  function Neg(a: Vec3): Vec3 { Vec3(-a.x, -a.y, -a.z) }

  /** `s * v` */
  function Scale(s: real, a: Vec3): Vec3 { Vec3(s * a.x, s * a.y, s * a.z) }

  /** glm's component-wise `vec3 * vec3` */
  function Mul(a: Vec3, b: Vec3): Vec3 { Vec3(a.x * b.x, a.y * b.y, a.z * b.z) }

  function Dot(a: Vec3, b: Vec3): real { a.x * b.x + a.y * b.y + a.z * b.z }

  function Cross(a: Vec3, b: Vec3): Vec3
  {
    Vec3(a.y * b.z - a.z * b.y, a.z * b.x - a.x * b.z, a.x * b.y - a.y * b.x)
  }

  function Abs(r: real): real { if r < 0.0 then -r else r }

  /** `glm::max(a, b)` on scalars */
  function Max(a: real, b: real): real { if a < b then b else a }

  /** The library functions the shading code calls. Their floating-point
      behaviour is not modelled: they are supplied by the caller. */
  datatype Glm = Glm(sqrt: real -> real, pow: (real, real) -> real, normalize: Vec3 -> Vec3)

  /** What the sphere test relies on about `sqrt`. */
  ghost predicate IsSqrt(sqrt: real -> real)
  {
    forall r :: 0.0 <= r ==> 0.0 <= sqrt(r) && sqrt(r) * sqrt(r) == r
  }

  lemma CrossIsOrthogonal(u: Vec3, v: Vec3)
    ensures Dot(Cross(u, v), u) == 0.0 && Dot(Cross(u, v), v) == 0.0
  {
  }

  // ------------------------------------------------- 3x3 linear systems

  /** The determinant of the matrix with columns `(ux,uy,uz)`, `(vx,vy,vz)`,
      `(wx,wy,wz)`, expanded along the first column. */
  function D3(ux: real, uy: real, uz: real, vx: real, vy: real, vz: real, wx: real, wy: real, wz: real): real
  {
    ux * (vy * wz - wy * vz) + uy * (wx * vz - vx * wz) + uz * (vx * wy - vy * wx)
  }

  function Det(u: Vec3, v: Vec3, w: Vec3): real
  {
    D3(u.x, u.y, u.z, v.x, v.y, v.z, w.x, w.y, w.z)
  }

  /** `p u + q v + s w` */
  function Combine(p: real, u: Vec3, q: real, v: Vec3, s: real, w: Vec3): Vec3
  {
    Add(Add(Scale(p, u), Scale(q, v)), Scale(s, w))
  }

  lemma RotateRows(ux: real, uy: real, uz: real, vx: real, vy: real, vz: real, wx: real, wy: real, wz: real)
    ensures D3(uy, uz, ux, vy, vz, vx, wy, wz, wx) == D3(ux, uy, uz, vx, vy, vz, wx, wy, wz)
  {
  }

  lemma RotateColumns(u: Vec3, v: Vec3, w: Vec3)
    ensures Det(u, v, w) == Det(v, w, u)
  {
  }

  lemma RepeatedColumn(u: Vec3, v: Vec3)
    ensures Det(u, u, v) == 0.0 && Det(u, v, u) == 0.0 && Det(v, u, u) == 0.0
  {
  }

  lemma LinearFirst(p: real, u: Vec3, q: real, v: Vec3, s: real, w: Vec3, y: Vec3, z: Vec3)
    ensures Det(Combine(p, u, q, v, s, w), y, z) == p * Det(u, y, z) + q * Det(v, y, z) + s * Det(w, y, z)
  {
  }

  /** One row of Cramer's rule, multiplied out: `det(u,v,w) r = det(r,v,w) u
      + det(u,r,w) v + det(u,v,r) w` in the first coordinate. */
  lemma {:induction false} CramerRow(ux: real, uy: real, uz: real, vx: real, vy: real, vz: real,
                                     wx: real, wy: real, wz: real, rx: real, ry: real, rz: real)
    ensures D3(ux, uy, uz, vx, vy, vz, wx, wy, wz) * rx
         == D3(rx, ry, rz, vx, vy, vz, wx, wy, wz) * ux
          + D3(ux, uy, uz, rx, ry, rz, wx, wy, wz) * vx
          + D3(ux, uy, uz, vx, vy, vz, rx, ry, rz) * wx
  {
    assert D3(ux, uy, uz, vx, vy, vz, wx, wy, wz) * rx
        == ux*vy*wz*rx - ux*wy*vz*rx + uy*wx*vz*rx - uy*vx*wz*rx + uz*vx*wy*rx - uz*vy*wx*rx;
    assert D3(rx, ry, rz, vx, vy, vz, wx, wy, wz) * ux
        == rx*vy*wz*ux - rx*wy*vz*ux + ry*wx*vz*ux - ry*vx*wz*ux + rz*vx*wy*ux - rz*vy*wx*ux;
    assert D3(ux, uy, uz, rx, ry, rz, wx, wy, wz) * vx
        == ux*ry*wz*vx - ux*wy*rz*vx + uy*wx*rz*vx - uy*rx*wz*vx + uz*rx*wy*vx - uz*ry*wx*vx;
    assert D3(ux, uy, uz, vx, vy, vz, rx, ry, rz) * wx
        == ux*vy*rz*wx - ux*ry*vz*wx + uy*rx*vz*wx - uy*vx*rz*wx + uz*vx*ry*wx - uz*vy*rx*wx;
  }

  /** Cramer's rule: with `m = det(u,v,w) != 0`, the quotients of the three
      determinants with one column replaced by `r` solve `p u + q v + s w == r`. */
  lemma CramerSolves(u: Vec3, v: Vec3, w: Vec3, r: Vec3)
    requires Det(u, v, w) != 0.0
    ensures var m := Det(u, v, w);
      Combine(Det(r, v, w) / m, u, Det(u, r, w) / m, v, Det(u, v, r) / m, w) == r
  {
    CramerSolvesX(u, v, w, r);
    CramerSolvesY(u, v, w, r);
    CramerSolvesZ(u, v, w, r);
  }

  /** The first coordinate of Cramer's rule. */
  lemma CramerSolvesX(u: Vec3, v: Vec3, w: Vec3, r: Vec3)
    requires Det(u, v, w) != 0.0
    ensures var m := Det(u, v, w);
      Combine(Det(r, v, w) / m, u, Det(u, r, w) / m, v, Det(u, v, r) / m, w).x == r.x
  {
    CramerRow(u.x, u.y, u.z, v.x, v.y, v.z, w.x, w.y, w.z, r.x, r.y, r.z);
    DivideRow(Det(u, v, w), Det(r, v, w), Det(u, r, w), Det(u, v, r), u.x, v.x, w.x, r.x);
  }

  /** The second coordinate, from the first by rotating the coordinates. */
  lemma CramerSolvesY(u: Vec3, v: Vec3, w: Vec3, r: Vec3)
    requires Det(u, v, w) != 0.0
    ensures var m := Det(u, v, w);
      Combine(Det(r, v, w) / m, u, Det(u, r, w) / m, v, Det(u, v, r) / m, w).y == r.y
  {
    CramerRow(u.y, u.z, u.x, v.y, v.z, v.x, w.y, w.z, w.x, r.y, r.z, r.x);
    RotateRows(u.x, u.y, u.z, v.x, v.y, v.z, w.x, w.y, w.z);
    RotateRows(r.x, r.y, r.z, v.x, v.y, v.z, w.x, w.y, w.z);
    RotateRows(u.x, u.y, u.z, r.x, r.y, r.z, w.x, w.y, w.z);
    RotateRows(u.x, u.y, u.z, v.x, v.y, v.z, r.x, r.y, r.z);
    DivideRow(Det(u, v, w), Det(r, v, w), Det(u, r, w), Det(u, v, r), u.y, v.y, w.y, r.y);
  }

  /** The third coordinate, rotating twice. */
  lemma CramerSolvesZ(u: Vec3, v: Vec3, w: Vec3, r: Vec3)
    requires Det(u, v, w) != 0.0
    ensures var m := Det(u, v, w);
      Combine(Det(r, v, w) / m, u, Det(u, r, w) / m, v, Det(u, v, r) / m, w).z == r.z
  {
    CramerRow(u.z, u.x, u.y, v.z, v.x, v.y, w.z, w.x, w.y, r.z, r.x, r.y);
    RotateRows(u.z, u.x, u.y, v.z, v.x, v.y, w.z, w.x, w.y);
    RotateRows(r.z, r.x, r.y, v.z, v.x, v.y, w.z, w.x, w.y);
    RotateRows(u.z, u.x, u.y, r.z, r.x, r.y, w.z, w.x, w.y);
    RotateRows(u.z, u.x, u.y, v.z, v.x, v.y, r.z, r.x, r.y);
    DivideRow(Det(u, v, w), Det(r, v, w), Det(u, r, w), Det(u, v, r), u.z, v.z, w.z, r.z);
  }

  /** The solution of `p u + q v + s w == r` is unique when `det(u,v,w) != 0`. */
  lemma CramerUnique(u: Vec3, v: Vec3, w: Vec3, r: Vec3, p: real, q: real, s: real)
    requires Det(u, v, w) != 0.0
    requires Combine(p, u, q, v, s, w) == r
    ensures var m := Det(u, v, w);
      p == Det(r, v, w) / m && q == Det(u, r, w) / m && s == Det(u, v, r) / m
  {
    RotateColumns(u, v, w);
    RotateColumns(v, w, u);
    CramerUniqueFirst(u, v, w, r, p, q, s);
    CombineRotate(p, u, q, v, s, w);
    CramerUniqueFirst(v, w, u, r, q, s, p);
    RotateColumns(u, r, w);
    CombineRotate(q, v, s, w, p, u);
    CramerUniqueFirst(w, u, v, r, s, p, q);
    RotateColumns(r, u, v);
    RotateColumns(u, v, r);
  }

  /** The first unknown of a solved system is `det(r,v,w) / det(u,v,w)`. */
  lemma CramerUniqueFirst(u: Vec3, v: Vec3, w: Vec3, r: Vec3, p: real, q: real, s: real)
    requires Det(u, v, w) != 0.0
    requires Combine(p, u, q, v, s, w) == r
    ensures p == Det(r, v, w) / Det(u, v, w)
  {
    LinearFirst(p, u, q, v, s, w, v, w);
    RepeatedColumn(v, w);
    RepeatedColumn(w, v);
    QuotientOfProduct(p, Det(u, v, w));
  }

  // ------------------------------------------------- solver helpers
  // Small algebraic and sequence facts the proofs above call; they model
  // nothing of the program on their own.

  lemma CombineRotate(p: real, u: Vec3, q: real, v: Vec3, s: real, w: Vec3)
    ensures Combine(q, v, s, w, p, u) == Combine(p, u, q, v, s, w)
  {
  }

  lemma QuotientOfProduct(p: real, m: real)
    requires m != 0.0
    ensures (p * m) / m == p
  {
  }

  /** A row `m r == p u + q v + s w` divided through by `m`. */
  lemma DivideRow(m: real, p: real, q: real, s: real, u: real, v: real, w: real, r: real)
    requires m != 0.0 && m * r == p * u + q * v + s * w
    ensures (p / m) * u + (q / m) * v + (s / m) * w == r
  {
    var p', q', s' := p / m, q / m, s / m;
    assert p' * m == p && q' * m == q && s' * m == s;
    assert (p' * u + q' * v + s' * w) * m == p * u + q * v + s * w;
  }
}
