# A verified model of the boilerplate raytracer

The program renders one scene into a 512 × 512 window.

- **Loading.** `readFile` reads a text file of `light`, `sphere`, `plane` and `triangle` records, with `#` comment lines. It builds the global shape list and the single point light.
- **Primary rays.** For every pixel, `generateRay` casts a ray from the eye at the origin through a screen square at distance 2.
- **Intersection.** `testIntersections` finds the nearest shape the ray hits inside a parameter window. It calls the per-primitive tests through `testIntersection`.
- **Shading.** `raycolorRe` shades the hit. It takes an ambient term, then diffuse and specular Phong terms when a shadow ray reaches the light. It then adds the shape's `specularColor` times the colour of the mirror-reflected ray, recursively, up to ten times.

The model has one module per part of that pipeline:

- `Vectors`: `vec3` arithmetic, and the library functions `sqrt`, `pow` and `normalize` as the parameter `Glm`.
- `Scene`: the records `Ray`, `Light`, `Shape` and `IntersectionInfo`.
- `Intersection`: the three primitive tests, the dispatch and the nearest-hit scan. Each test is an imperative method that writes through `IntersectionInfo`, proved against a pure function. Lemmas then prove what each function means geometrically:
  - the sphere's `t` is the nearest root of the ray–sphere equation;
  - the plane's `t` is its only crossing;
  - when the ray is not parallel to the triangle's plane (`M != 0`), the triangle test accepts exactly the crossings inside the closed triangle;
  - the scan reports the first nearest hit in the window.
- `Shading`: `surfaceNormalVector`, `shadingEquation`, `raycolor` and `raycolorRe`. They are stated over a first-hit query (`Tracer`) so that their properties do not depend on the scene. The method `RayColorRe` follows the source's control flow and is proved equal to the recursive function `RayColor`.
- `SceneFile`: `readFile` over a tokenised file, meaning a sequence of tokens and line ends:
  - a `Stream` class with `>>` and `getline` as methods; `sscanf` is the functions `Scan3` and `Scan1`;
  - the `while (f)` loop as a method proved equal to a recursive `Load`.
  
  A writer `SceneText` is its partner: reading back any scene it writes gives that light and those shapes.
  On any input, `StepOnWord` and the `…RecordFields` lemmas state what one pass of the loop does: which word appends which shape, and which fields keep their value when their line does not scan.
- `Render`: `generateRay`, the camera's geometry and the double pixel loop of `main`. The loop is proved to produce, column by column, `raycolorRe` of every pixel's primary ray.

Reals stand in for `float`.

## Model

| member | source | states |
|---|---|---|
| Scene.IntersectionInfo.constructor | boilerplate/boilerplate.cpp:232-236 | a fresh intersection record holds `t = 0` and a shape with no fields set |
| Intersection.NearRoot | boilerplate/boilerplate.cpp:412-417 | the sphere test reports a root only when the discriminant is non-negative (and the ray direction is not zero) |
| Intersection.SphereQuadratic | boilerplate/boilerplate.cpp:412 | the squared distance from the ray point at `t` to the centre, minus `r^2`, is the quadratic whose coefficients the source's discriminant uses |
| Intersection.NearRootSolves | boilerplate/boilerplate.cpp:412-417 | the reported `t` solves the quadratic |
| Intersection.NearRootIsLeast | boilerplate/boilerplate.cpp:417 | the reported `t` is the smaller root: no root lies below it |
| Intersection.NoRootWithoutNearRoot | boilerplate/boilerplate.cpp:413-414 | when the test misses, the quadratic has no root at all |
| Intersection.SphereHitOnSurface | boilerplate/boilerplate.cpp:405-423 | a sphere hit lies on the sphere |
| Intersection.SphereHitIsNearRoot | boilerplate/boilerplate.cpp:405-423 | a sphere hit is the nearest point of the ray on the sphere |
| Intersection.SphereMissIffNoCrossing | boilerplate/boilerplate.cpp:405-423 | the sphere test misses if and only if the ray line never meets the sphere |
| Intersection.PlaneGapLinear | boilerplate/boilerplate.cpp:436 | the signed offset of the ray point from the plane is linear in `t` with the coefficients the source divides |
| Intersection.LinearRoot | boilerplate/boilerplate.cpp:436 | a linear function with a non-zero slope vanishes exactly at `m / k` |
| Intersection.PlaneHitIffOnPlane | boilerplate/boilerplate.cpp:425-441 | when the plane test hits, a ray point lies on the plane if and only if its parameter is the reported `t` |
| Intersection.TriangleSystemIsCramer | boilerplate/boilerplate.cpp:451-468 | the source's `M`, `beta`, `gamma` and `t` numerators are the determinants of Cramer's rule for the ray–triangle system |
| Intersection.TriangleEquation | boilerplate/boilerplate.cpp:451-468 | the ray point at `t` is the barycentric point `(beta, gamma)` exactly when `(beta, gamma, t)` solves the linear system |
| Intersection.TriangleHitOnTriangle | boilerplate/boilerplate.cpp:443-485 | a triangle hit lies inside the closed triangle |
| Intersection.TriangleCrossingHits | boilerplate/boilerplate.cpp:443-485 | when `M != 0`, every crossing of the closed triangle is reported, with its own `t` |
| Intersection.TriangleCoordinates | boilerplate/boilerplate.cpp:474-478 | a point on the triangle has barycentric coordinates the source's range checks accept |
| Intersection.TriangleSolutionUnique | boilerplate/boilerplate.cpp:466-468 | with `M != 0` the barycentric coordinates and `t` of a crossing are exactly the source's quotients |
| Intersection.DecideInside | boilerplate/boilerplate.cpp:470-484 | quotients inside the triangle are accepted with their `t` |
| Vectors.CramerSolves | boilerplate/boilerplate.cpp:464-468 | with a non-zero determinant, Cramer's quotients solve the 3 × 3 system |
| Vectors.CramerUnique | boilerplate/boilerplate.cpp:464-468 | with a non-zero determinant, every solution of the system is Cramer's quotients |
| Intersection.SphereHit | boilerplate/boilerplate.cpp:405-423 | the sphere decision and `t`; its meaning is proved by `SphereHitOnSurface`, `SphereHitIsNearRoot` and `SphereMissIffNoCrossing` |
| Intersection.PlaneHit | boilerplate/boilerplate.cpp:425-441 | the plane decision and `t`; its meaning is proved by `PlaneHitIffOnPlane` |
| Intersection.TriangleHit | boilerplate/boilerplate.cpp:443-485 | the triangle decision and `t`; its meaning is proved by `TriangleHitOnTriangle` and `TriangleCrossingHits` |
| Intersection.Intersect | boilerplate/boilerplate.cpp:487-497 | only a sphere, plane or triangle tag can hit; other tags miss |
| Intersection.Hits | boilerplate/boilerplate.cpp:504-506 | one `testIntersection` result per shape of the list, in order |
| Intersection.Nearest | boilerplate/boilerplate.cpp:501-517 | a reported index is in range and its hit lies in `[lowerBound, upperBound)` |
| Intersection.NearestIsFirstNearest | boilerplate/boilerplate.cpp:501-517 | the scan finds a hit if and only if some shape is hit in the window; no hit in the window is nearer; every earlier one is strictly farther |
| Intersection.TestIntersectSphere | boilerplate/boilerplate.cpp:405-423 | returns the sphere decision; on a hit, writes `t` and the shape through `info`; on a miss, leaves `info` unchanged |
| Intersection.TestIntersectPlane | boilerplate/boilerplate.cpp:425-441 | returns the plane decision (a miss when `abs(d.n) < 0.0001`) and writes `info` only on a hit |
| Intersection.TestIntersectTriangle | boilerplate/boilerplate.cpp:443-485 | returns the triangle decision and writes `info` only on a hit |
| Intersection.TestIntersection | boilerplate/boilerplate.cpp:487-497 | dispatches on the tag, and leaves `info` unchanged for an unknown tag |
| Intersection.TestIntersections | boilerplate/boilerplate.cpp:501-517 | the loop reports the first nearest hit in the window, and leaves `resultInfo` unchanged when there is none |
| Vectors.CrossIsOrthogonal | boilerplate/boilerplate.cpp:540 | a cross product is perpendicular to both its factors |
| Shading.TriangleNormalIsPerpendicular | boilerplate/boilerplate.cpp:539-540 | the triangle's normal is perpendicular to both edges from `data[0]` |
| Shading.SphereNormalHasRadiusLength | boilerplate/boilerplate.cpp:535-536 | at a sphere hit, the unnormalised normal has the length of the radius |
| Shading.SurfaceNormalVector | boilerplate/boilerplate.cpp:533-543 | the normalised surface normal; `TriangleNormalIsPerpendicular` and `SphereNormalHasRadiusLength` prove what the unnormalised one is |
| Shading.ShadingEquation | boilerplate/boilerplate.cpp:519-531 | ambient `0.5`, `ks = 0.7`, exponent 500; `RayColorFlatIsShadingEquation` ties it to `raycolor` |
| Shading.RayColorFlat | boilerplate/boilerplate.cpp:545-572 | `raycolor`; `RayColorFlatIsShadingEquation` states its value at a hit |
| Shading.RayColor | boilerplate/boilerplate.cpp:574-613 | `raycolorRe` as a recursive definition; `MissIsBlack`, `ZeroBudgetIsLocal`, `NonReflectiveIgnoresBudget`, `ShadowedHitGetsBaseTerm` and `BudgetBeyondDepthIsIrrelevant` state its properties |
| Shading.FirstHit | boilerplate/boilerplate.cpp:547-552 | a reported hit is on a shape with a known tag and enough points |
| Shading.FirstHitMissesIffNoHit | boilerplate/boilerplate.cpp:545-572 | the shading code finds no hit exactly when no shape is hit inside the window |
| Shading.Local | boilerplate/boilerplate.cpp:582-595 | a blocked light leaves only the ambient term `base * color` |
| Shading.RayColorFlatIsShadingEquation | boilerplate/boilerplate.cpp:519-572 | at an unblocked hit, `raycolor` is `shadingEquation`; at a blocked one, it is the ambient term `0.5 * color` |
| Shading.Budget | boilerplate/boilerplate.cpp:601-604 | reflection continues exactly when `specularColor` is not black and the budget is positive, with the budget unchanged |
| Shading.ReflectionDepth | boilerplate/boilerplate.cpp:601-605 | the number of reflections followed never exceeds the budget, and is zero on a miss |
| Shading.MissIsBlack | boilerplate/boilerplate.cpp:609-611 | a ray that hits nothing is black, whatever the budget |
| Shading.ZeroBudgetIsLocal | boilerplate/boilerplate.cpp:603-608 | with no budget left, the colour is the local term alone |
| Shading.NonReflectiveIgnoresBudget | boilerplate/boilerplate.cpp:601-602 | for a shape with black `specularColor`, no reflection is followed and the budget does not matter |
| Shading.ShadowedHitGetsBaseTerm | boilerplate/boilerplate.cpp:582-588 | a shadowed hit with no reflection gets exactly `0.4 * color` |
| Shading.BudgetBeyondDepthIsIrrelevant | boilerplate/boilerplate.cpp:574-613 | once the reflections stop before the budget runs out, a larger budget gives the same colour |
| Shading.LocalColor | boilerplate/boilerplate.cpp:582-595 | the shadow test and Phong terms the method computes are the local term of the hit |
| Shading.RayColorRe | boilerplate/boilerplate.cpp:574-613 | the recursive method returns the colour the recursive definition gives for the scene |
| SceneFile.NextWord | boilerplate/boilerplate.cpp:263-264 | `f >> word` consumes input, never invents a token, and yields an empty word once the stream fails |
| SceneFile.NextLine | boilerplate/boilerplate.cpp:266 | `getline` consumes input and does nothing on a failed stream |
| SceneFile.NextFloat | boilerplate/boilerplate.cpp:292-293 | `f >> r` skips line ends, consumes only what it reads, returns a number of the file when the stream stays good, and leaves a failed stream as it was |
| SceneFile.ScansWritten | boilerplate/boilerplate.cpp:272 | `sscanf("%f %f %f")` and `sscanf("%f")` read back the numbers a written line starts with, whatever follows them |
| SceneFile.WordDoesNotScan | boilerplate/boilerplate.cpp:272 | a line that starts with a word scans nothing, so the guarded assignment is skipped |
| SceneFile.PushScans | boilerplate/boilerplate.cpp:288-290 | a `push_back` guarded by a scan extends the points with the line's point exactly when the line scans |
| SceneFile.ClosingFields | boilerplate/boilerplate.cpp:297-315 | each closing line sets its field when it scans; otherwise the field keeps the zero of a fresh shape |
| SceneFile.SphereRecordFields | boilerplate/boilerplate.cpp:281-317 | on any input, a sphere record gives tag 0, the centre only when its line scans, the radius `>>` read, and the closing fields as their lines scan |
| SceneFile.TriangleRecordFields | boilerplate/boilerplate.cpp:319-360 | on any input, a triangle record gives tag 2, the vertices of the vertex lines that scan, in order, and the closing fields as their lines scan |
| SceneFile.PlaneRecordFields | boilerplate/boilerplate.cpp:362-398 | on any input, a plane record gives tag 1, the normal and point of the lines that scan, in order, and the closing fields as their lines scan |
| SceneFile.LightRecordFields | boilerplate/boilerplate.cpp:267-279 | on any input, the light's origin and colour each change only when their line scans |
| SceneFile.ReadLight | boilerplate/boilerplate.cpp:267-279 | a light record consumes input and never revives a failed stream |
| SceneFile.Finish | boilerplate/boilerplate.cpp:297-315 | the closing lines change only the colour, specular colour, highlight and exponent |
| SceneFile.ReadSphere | boilerplate/boilerplate.cpp:281-317 | a sphere record yields a sphere with at most one point |
| SceneFile.ReadTriangle | boilerplate/boilerplate.cpp:319-360 | a triangle record yields a triangle with at most three points |
| SceneFile.ReadPlane | boilerplate/boilerplate.cpp:362-398 | a plane record yields a plane with at most two points |
| SceneFile.Step | boilerplate/boilerplate.cpp:262-399 | one pass of the loop consumes input and only appends shapes with a known tag |
| SceneFile.StepOnWord | boilerplate/boilerplate.cpp:262-399 | on any input, a `sphere`, `triangle` or `plane` word appends exactly the one shape its record describes, with tag 0, 2 or 1, and keeps the light; `light` changes only the light; `#` skips its line; any other word is consumed and changes nothing |
| SceneFile.Load | boilerplate/boilerplate.cpp:262-400 | the `while (f)` loop: passes until the stream fails; what it produces is stated by `LoadAppends`, `LightOnlyFromLightRecords`, `ShapesOnlyFromShapeRecords` and `LoadsShapes` |
| SceneFile.Stream.ReadWord | boilerplate/boilerplate.cpp:263-264 | the stream advances as `f >> word` does |
| SceneFile.Stream.ReadFloat | boilerplate/boilerplate.cpp:292-294 | the stream advances as `f >> r` does |
| SceneFile.Stream.GetLine | boilerplate/boilerplate.cpp:266 | the stream advances as `getline` does |
| SceneFile.Stream.GetLines | boilerplate/boilerplate.cpp:284-286 | consecutive `getline` calls |
| SceneFile.ReadSphereRecord | boilerplate/boilerplate.cpp:281-317 | reads a sphere record off the stream |
| SceneFile.ReadTriangleRecord | boilerplate/boilerplate.cpp:319-360 | reads a triangle record off the stream |
| SceneFile.ReadPlaneRecord | boilerplate/boilerplate.cpp:362-398 | reads a plane record off the stream |
| SceneFile.ReadLightRecord | boilerplate/boilerplate.cpp:267-279 | reads a light record; each field is overwritten only when its line scans |
| SceneFile.ReadFile | boilerplate/boilerplate.cpp:255-403 | the `while (f)` loop produces the shape list and light of the recursive definition |
| SceneFile.LoadAppends | boilerplate/boilerplate.cpp:281-398 | loading only appends to the given shape list, and each appended shape has a known tag and at most the points its record lists |
| SceneFile.LightOnlyFromLightRecords | boilerplate/boilerplate.cpp:267-279 | a file without a `light` word leaves the light as it was |
| SceneFile.ShapesOnlyFromShapeRecords | boilerplate/boilerplate.cpp:281-398 | a file without shape keywords leaves the shape list as it was |
| SceneFile.ReadsLine | boilerplate/boilerplate.cpp:266 | `getline` returns exactly the line that was written |
| SceneFile.ReadsLines | boilerplate/boilerplate.cpp:284-286 | consecutive `getline` calls return the written lines in order |
| SceneFile.ReadsSphere | boilerplate/boilerplate.cpp:281-317 | a sphere written out is read back as the same sphere |
| SceneFile.ReadsPlane | boilerplate/boilerplate.cpp:362-398 | a plane written out is read back as the same plane |
| SceneFile.ReadsTriangle | boilerplate/boilerplate.cpp:319-360 | a triangle written out is read back as the same triangle |
| SceneFile.StepsShape | boilerplate/boilerplate.cpp:281-398 | one loop pass over a written shape record appends that shape |
| SceneFile.ReadsLightText | boilerplate/boilerplate.cpp:267-279 | a written light record sets the light to that light |
| SceneFile.ReadsComment | boilerplate/boilerplate.cpp:265-266 | a `#` line changes nothing |
| SceneFile.LoadsShapes | boilerplate/boilerplate.cpp:262-400 | loading written shape records appends exactly those shapes, in order |
| SceneFile.ReadsSceneText | boilerplate/boilerplate.cpp:255-403 | reading a written scene gives back its light and appends its shapes to the list passed in |
| Render.HalfTrunc | boilerplate/boilerplate.cpp:250-251 | `width/2` on `int` truncates toward zero |
| Render.GenerateRay | boilerplate/boilerplate.cpp:245-253 | the ray starts at the origin, carries the distance as focal length, and points `-distance` along z |
| Render.RayGivesPixel | boilerplate/boilerplate.cpp:250-251 | the pixel indices are recovered from the ray's direction |
| Render.RayReachesScreen | boilerplate/boilerplate.cpp:249-251 | the ray point at `t = 1` is the pixel's screen point, at depth `origin.z - distance` |
| Render.PixelsGetDistinctRays | boilerplate/boilerplate.cpp:245-253 | different pixels get different rays |
| Render.PixelOnScreen | boilerplate/boilerplate.cpp:250-251 | on an even size, pixel `p` in `[0, size)` maps into `[-1, 1)` |
| Render.PrimaryRaysCrossScreen | boilerplate/boilerplate.cpp:685-687 | every primary ray of the window crosses the square `[-1, 1) × [-1, 1)` at `z = -2` |
| Render.MissedPixelIsBlack | boilerplate/boilerplate.cpp:687-691 | a pixel whose ray hits no shape in `[0, 9999.9)` is black |
| Render.EmptySceneIsBlack | boilerplate/boilerplate.cpp:677-695 | a scene with no shapes renders black, whatever the light |
| Render.Column | boilerplate/boilerplate.cpp:686-694 | the inner loop fills a column of `n` pixels |
| Render.Columns | boilerplate/boilerplate.cpp:685-695 | the outer loop fills `n` columns |
| Render.ColumnAt | boilerplate/boilerplate.cpp:686-694 | entry `j` of a column is pixel `(i, j)` |
| Render.ColumnsAt | boilerplate/boilerplate.cpp:685-695 | entry `j` of column `i` is pixel `(i, j)`, and the column has `Height` pixels |
| Render.ColumnsPixels | boilerplate/boilerplate.cpp:685-695 | every column holds `Height` pixels, pixel `(i, j)` at entry `j` of column `i` |
| Render.FramePixels | boilerplate/boilerplate.cpp:685-695 | the image has 512 columns of 512 pixels, and `SetPixel(i, j, color)` puts pixel `(i, j)` at entry `j` of column `i` |
| Render.PixelColor | boilerplate/boilerplate.cpp:687-691 | the colour of pixel `(i, j)`: `raycolorRe` of its primary ray; `MissedPixelIsBlack` and `EmptySceneIsBlack` state its properties |
| Render.ShadePixel | boilerplate/boilerplate.cpp:687-691 | one pixel's colour is `raycolorRe` of its primary ray, window `[0, 9999.9)`, budget 10 |
| Render.Render | boilerplate/boilerplate.cpp:685-695 | the double loop produces the frame of the scene's picture |
| Render.Raytrace | boilerplate/boilerplate.cpp:677-695 | `main` loads the scene into an empty list and a zero light, then renders it |

## Left out

- Floating point: `float` is `real`. Rounding, overflow, infinities and NaN are not modelled. The constants `0.0001f`, `99999.9f` and `9999.9f` are the exact decimals.
- `sqrt`, `pow` and `normalize` are the parameter `Glm`. The sphere lemmas rely only on `sqrt` returning a non-negative square root of a non-negative argument. `pow(x, 2)` in the discriminant is written `x * x`.
- Intersection.NearRoot: when `dot(d, d) == 0` the source divides by zero and reports a hit with a NaN `t`. No window accepts NaN, so `testIntersections` ignores it; the model reports a miss directly.
- Intersection.TriangleHit: the source divides by `M` before testing `M == 0`; the model tests first. The outcome is the same, a miss.
- Scene.WellFormed: a sphere needs one point in `data`, a plane two and a triangle three. Reading past `data` is undefined behaviour in the source, so the tests, shading and `Render.Raytrace` require well-formed shapes. Loading may produce short shapes when a point line does not scan; `SceneFile.LoadAppends` bounds them from above only.
- Shape fields the source never assigns (`id`, and `color` and the rest when their lines do not scan) are indeterminate in C++. The model starts them at zero, as `addition = .0f` is. The same holds for the sphere radius when `f >> r` finds the stream already failed or at its end: C++ leaves `r` unassigned and copies it into `addition`, while `SceneFile.NextFloat` yields `0`. Only a word in place of the number sets `r` to `0` in C++. Likewise the uninitialised `Light light1` of `main` is modelled as the zero light.
- Rays built inside the shading code have an unset `focalLength`; the model puts `0.0` there. No computation reads it.
- SceneFile: the file is modelled after tokenisation, as a sequence of words, numbers and line ends. Not modelled:
  - the 256-byte `getline` buffer and what happens to longer lines;
  - partial numeric prefixes such as `1.5abc`;
  - the distinction between `eofbit` and `failbit`.
  
  A stream fails when a read runs past the end, and when `f >> r` meets a word instead of a number (the radius of a sphere record).
- SceneFile.Stream.GetLines groups consecutive `getline` calls into one method.
- SceneFile.ReadFile returns the new shape list and light instead of updating them through a reference and a pointer. Opening the file by name and `f.close()` are I/O and are left out.
- Shading: `raycolor`, `raycolorRe` and the shadow test see the global `myShapeList` only through the first-hit query `Tracer`. `Shading.SceneTracer` is that query for a given shape list.
- Shading.SurfaceNormalVector is only defined for the three known tags. The source returns `normalize` of an uninitialised vector otherwise, but shading only runs after a hit, and only known tags hit (`Intersection.Intersect`).
- Render.GenerateRay requires `width / 2` and `height / 2` to be non-zero. The source's float division by zero there is not modelled; `main` always passes 512.
- Render.Render: the GLFW window, `ImageBuffer`, `SetPixel` and `image.Render()` are left out. The image is the sequence of columns `SetPixel` would fill.
- The window set-up and event loop of `main`, the shader helpers, `printLines` (debug output) and `reflectionEquation` (a stub returning black) are left out. `shadingEquation` and `raycolor` are modelled but not called by `main`.
- `raycolor` uses ambient `0.5`, `ks = 0.7` and exponent 500, so it is not the zero-budget case of `raycolorRe`, which uses ambient `0.4`, the shape's `specularHighLight` and `PEx`.
