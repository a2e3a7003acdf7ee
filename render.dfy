// The camera and the pixel loop of the program: `generateRay` and the
// double loop of `main` that shades one pixel per primary ray into the image.

module Render {
  import opened Vectors
  import opened Scene
  import opened Intersection
  import opened Shading
  import opened SceneFile

  /** C's `n / 2` on `int`: the quotient truncated toward zero. */
  function HalfTrunc(n: int): (h: int)
    ensures n >= 0 ==> 0 <= n - 2 * h <= 1
    ensures n < 0 ==> -1 <= n - 2 * h <= 0
  {
    if n >= 0 then n / 2 else -((-n) / 2)
  }

  /** `(float)p / (size / 2) - 1.0f`: a pixel index mapped onto the screen. */
  function ScreenCoord(p: int, size: int): real
    requires HalfTrunc(size) != 0
  {
    (p as real) / (HalfTrunc(size) as real) - 1.0
  }

  /** The primary ray of pixel `(x, y)`: from `origin` towards the screen
      square at distance `distance` down the negative z axis. */
  function GenerateRay(x: int, y: int, width: int, height: int, origin: Vec3, distance: real): (r: Ray)
    requires HalfTrunc(width) != 0 && HalfTrunc(height) != 0
    ensures r.origin == origin && r.focalLength == distance && r.dir.z == -distance
  {
    Ray(origin, Vec3(ScreenCoord(x, width) - origin.x, ScreenCoord(y, height) - origin.y, -distance), distance)
  }

  /** The pixel is recovered from the direction of its ray. */
  lemma RayGivesPixel(x: int, y: int, width: int, height: int, origin: Vec3, distance: real)
    requires HalfTrunc(width) != 0 && HalfTrunc(height) != 0
    ensures var r := GenerateRay(x, y, width, height, origin, distance);
            && (r.dir.x + origin.x + 1.0) * (HalfTrunc(width) as real) == x as real
            && (r.dir.y + origin.y + 1.0) * (HalfTrunc(height) as real) == y as real
  {
    QuotientTimesDivisor(x as real, HalfTrunc(width) as real);
    QuotientTimesDivisor(y as real, HalfTrunc(height) as real);
  }

  /** One step along a primary ray lands on the screen point of its pixel,
      wherever the eye sits in x and y. */
  lemma RayReachesScreen(x: int, y: int, width: int, height: int, origin: Vec3, distance: real)
    requires HalfTrunc(width) != 0 && HalfTrunc(height) != 0
    ensures PointAt(GenerateRay(x, y, width, height, origin, distance), 1.0)
         == Vec3(ScreenCoord(x, width), ScreenCoord(y, height), origin.z - distance)
  {
  }

  /** Different pixels get different primary rays. */
  lemma PixelsGetDistinctRays(x1: int, y1: int, x2: int, y2: int, width: int, height: int, origin: Vec3, distance: real)
    requires HalfTrunc(width) != 0 && HalfTrunc(height) != 0
    requires GenerateRay(x1, y1, width, height, origin, distance) == GenerateRay(x2, y2, width, height, origin, distance)
    ensures x1 == x2 && y1 == y2
  {
    RayGivesPixel(x1, y1, width, height, origin, distance);
    RayGivesPixel(x2, y2, width, height, origin, distance);
  }

  /** On an even-sized image the pixels cover the screen span `[-1, 1)`. */
  lemma PixelOnScreen(p: int, size: int)
    requires size >= 2 && size % 2 == 0 && 0 <= p < size
    ensures -1.0 <= ScreenCoord(p, size) < 1.0
  {
    var h := HalfTrunc(size) as real;
    assert 2.0 * h == size as real;
    assert 0.0 <= p as real < 2.0 * h;
    QuotientBelow(p as real, h);
  }

  // ------------------------------------------------------------- the frame

  /** The window of `main`, 512 by 512 pixels. */
  const Width: int := 512
  const Height: int := 512
  /** The eye at the origin, the screen at distance 2. */
  const ScreenDistance: real := 2.0
  /** The window and reflection budget of the primary rays. */
  const NearBound: real := 0.0
  const FarBound: real := 9999.9
  const MaxReflections: int := 10

  /** The colour `main` gives pixel `(i, j)`. */
  function PixelColor(shapes: seq<Shape>, light: Light, i: int, j: int, glm: Glm): Vec3
    requires AllWellFormed(shapes)
  {
    RayColor(SceneTracer(shapes, glm), GenerateRay(i, j, Width, Height, Zero, ScreenDistance),
             NearBound, FarBound, light, MaxReflections, glm)
  }

  /** Every primary ray of the window passes through the screen square
      `[-1, 1) x [-1, 1)` at `z = -2`. */
  lemma PrimaryRaysCrossScreen(i: int, j: int)
    requires 0 <= i < Width && 0 <= j < Height
    ensures var p := PointAt(GenerateRay(i, j, Width, Height, Zero, ScreenDistance), 1.0);
            -1.0 <= p.x < 1.0 && -1.0 <= p.y < 1.0 && p.z == -ScreenDistance
  {
    RayReachesScreen(i, j, Width, Height, Zero, ScreenDistance);
    PixelOnScreen(i, Width);
    PixelOnScreen(j, Height);
  }

  /** A pixel whose ray meets no shape inside the primary window is black. */
  lemma MissedPixelIsBlack(shapes: seq<Shape>, light: Light, i: int, j: int, glm: Glm)
    requires AllWellFormed(shapes)
    requires forall k :: 0 <= k < |shapes| ==>
      !Within(Intersect(GenerateRay(i, j, Width, Height, Zero, ScreenDistance), shapes[k], glm), NearBound, FarBound)
    ensures PixelColor(shapes, light, i, j, glm) == Zero
  {
    var ray := GenerateRay(i, j, Width, Height, Zero, ScreenDistance);
    FirstHitMissesIffNoHit(shapes, ray, NearBound, FarBound, glm);
    MissIsBlack(SceneTracer(shapes, glm), ray, NearBound, FarBound, light, MaxReflections, glm);
  }

  /** An empty scene renders black whatever the light. */
  lemma EmptySceneIsBlack(light: Light, i: int, j: int, glm: Glm)
    ensures PixelColor([], light, i, j, glm) == Zero
  {
    MissedPixelIsBlack([], light, i, j, glm);
  }

  /** A picture: the colour of every pixel `(i, j)`. */
  type Picture = (int, int) -> Vec3

  /** The picture `main` draws. */
  function SceneImage(shapes: seq<Shape>, light: Light, glm: Glm): Picture
    requires AllWellFormed(shapes)
  {
    (i: int, j: int) => PixelColor(shapes, light, i, j, glm)
  }

  /** The first `n` pixels of column `i`, top down. */
  function Column(picture: Picture, i: int, n: nat): (column: seq<Vec3>)
    ensures |column| == n
  {
    if n == 0 then [] else Column(picture, i, n - 1) + [picture(i, n - 1)]
  }

  /** The first `n` complete columns of the window. */
  function Columns(picture: Picture, n: nat): (columns: seq<seq<Vec3>>)
    ensures |columns| == n
  {
    if n == 0 then [] else Columns(picture, n - 1) + [Column(picture, n - 1, Height)]
  }

  /** The image `main` draws, as the sequence of its columns. */
  function Frame(picture: Picture): seq<seq<Vec3>>
  {
    Columns(picture, Width)
  }

  lemma {:induction false} ColumnAt(picture: Picture, i: int, n: nat, j: int)
    requires 0 <= j < n
    ensures Column(picture, i, n)[j] == picture(i, j)
  {
    if j < n - 1 {
      ColumnAt(picture, i, n - 1, j);
    }
  }

  lemma {:induction false} ColumnsAt(picture: Picture, n: nat, i: int, j: int)
    requires 0 <= i < n && 0 <= j < Height
    ensures |Columns(picture, n)[i]| == Height && Columns(picture, n)[i][j] == picture(i, j)
  {
    if i < n - 1 {
      ColumnsAt(picture, n - 1, i, j);
    } else {
      ColumnAt(picture, i, Height, j);
    }
  }

  /** The first `n` columns hold `Height` pixels each, pixel `(i, j)` of the
      picture at row `j` of column `i`. */
  lemma ColumnsPixels(picture: Picture, n: nat)
    ensures forall i :: 0 <= i < n ==> |Columns(picture, n)[i]| == Height
    ensures forall i, j :: 0 <= i < n && 0 <= j < Height ==> Columns(picture, n)[i][j] == picture(i, j)
  {
    forall i | 0 <= i < n
      ensures |Columns(picture, n)[i]| == Height
    {
      ColumnsAt(picture, n, i, 0);
    }
    forall i, j | 0 <= i < n && 0 <= j < Height
      ensures Columns(picture, n)[i][j] == picture(i, j)
    {
      ColumnsAt(picture, n, i, j);
    }
  }

  /** The frame is `Width` columns of `Height` pixels, pixel `(i, j)` of the
      picture at row `j` of column `i`. */
  lemma FramePixels(picture: Picture)
    ensures |Frame(picture)| == Width
    ensures forall i :: 0 <= i < Width ==> |Frame(picture)[i]| == Height
    ensures forall i, j :: 0 <= i < Width && 0 <= j < Height ==> Frame(picture)[i][j] == picture(i, j)
  {
    ColumnsPixels(picture, Width);
  }

  /** The body of the inner loop of `main`: the primary ray of pixel
      `(i, j)` shaded by `raycolorRe`. */
  method ShadePixel(shapes: seq<Shape>, light: Light, i: int, j: int, glm: Glm) returns (color: Vec3)
    requires AllWellFormed(shapes)
    ensures color == PixelColor(shapes, light, i, j, glm)
  {
    var ray := GenerateRay(i, j, Width, Height, Zero, ScreenDistance);
    color := RayColorRe(shapes, ray, NearBound, FarBound, light, MaxReflections, glm);
  }

  /** The double loop of `main`: one `raycolorRe` call per pixel. The image
      is the sequence of its columns; `SetPixel(i, j, color)` fills entry `j`
      of column `i`. */
  method Render(shapes: seq<Shape>, light: Light, glm: Glm) returns (image: seq<seq<Vec3>>)
    requires AllWellFormed(shapes)
    ensures image == Frame(SceneImage(shapes, light, glm))
  {
    image := [];
    for i := 0 to Width
      invariant image == Columns(SceneImage(shapes, light, glm), i)
    {
      var column: seq<Vec3> := [];
      for j := 0 to Height
        invariant column == Column(SceneImage(shapes, light, glm), i, j)
      {
        var color := ShadePixel(shapes, light, i, j, glm);
        column := column + [color];
      }
      image := image + [column];
    }
  }

  /** `main` without its window: load the scene into the empty shape list
      and the zero light, then render every pixel of it. The loaded shapes
      must list every point their tag reads. */
  method Raytrace(file: seq<Item>, glm: Glm) returns (image: seq<seq<Vec3>>)
    requires AllWellFormed(ReadScene(file, [], DefaultLight).shapes)
    ensures var scene := ReadScene(file, [], DefaultLight);
            image == Frame(SceneImage(scene.shapes, scene.light, glm))
  {
    var shapes, light := ReadFile([], DefaultLight, file);
    image := Render(shapes, light, glm);
  }

  // ------------------------------------------------- solver helpers
  // Small algebraic and sequence facts the proofs above call; they model
  // nothing of the program on their own.

  lemma QuotientTimesDivisor(a: real, h: real)
    requires h != 0.0
    ensures (a / h - 1.0 + 1.0) * h == a
  {
  }

  lemma QuotientBelow(a: real, h: real)
    requires h > 0.0 && 0.0 <= a < 2.0 * h
    ensures 0.0 <= a / h < 2.0
  {
    assert a / h * h == a;
  }
}
