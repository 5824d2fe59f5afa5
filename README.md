# Pinhole-camera exercises, modelled in Dafny

This project models the core of a set of small C++ computer-graphics
exercises built around the pinhole camera:

- **Headphones** reads a vertex file exported from Blender. The file has
  8-vertex objects, each followed by a line of triangle indices that are
  local to the object. The reader turns them into one global vertex list and
  one global index list. The exercise then builds a camera-to-world matrix
  from three rotations and a translation. Every triangle is projected to
  raster space and drawn as three SVG lines: black when all three corners are
  inside the canvas, red otherwise. The standalone `headphones.cpp` holds a
  second, identical copy of the reader; one model serves both.
- **Blocks** scans a Wavefront OBJ file and collects the `v` points of one
  named object (`SceneObject`).
- **Leaf** defines generic 2D/3D vectors (`Vectors.h`). They are modelled
  at `int`, where every operation is exact and `/` is C++ truncating
  division.
- **cube.cc** rotates the corners of a cube with a 3 x 3 matrix. It uses a
  nested accumulation loop and rewrites the corners in place. It then prints
  a projection of each corner onto a 512 x 512 screen, with no Y flip.

Modules:

- `Geometry` (`geometry.dfy`): the float vectors, 4 x 4 matrices with their
  product, and the C++ `(int)` cast as truncation toward zero.
- `Vectors` (`vectors.dfy`): the Leaf vectors.
- `VertexFile` (`vertex_file.dfy`): the reader.
  - `SceneBuffers` is a class holding the two global buffers.
  - `ReadVerticesFile` is proved against the line-by-line specification
    `Run`/`Step`.
- `SceneObjects` (`scene_object.dfy`): the OBJ scanner.
  - The `SceneObject` constructor is proved against the specification
    `Scan`.
  - On files without blank lines, `Scan` is proved equal to a reference
    description, `ObjectVertices`.
- `Camera` (`camera.dfy`): `getCameraToWorld` and its closed form.
- `Projection` (`projection.dfy`): `computeCoordinates`, the canvas bounds,
  and the wireframe renderer.
- `Cube` (`cube.dfy`): the cube exercise.

Things the programs take from outside are parameters of the model:

- degree cosine and sine;
- the text-to-number conversions;
- the world-to-camera transform;
- the lines of a file, with `None` for a file that cannot be opened.

## Model

| member | source | states |
|---|---|---|
| Geometry.Multiply | Headphones/headphones.cpp:185-192 | each entry of the 4 x 4 product is the sum over k of a[i][k] * b[k][j] |
| Geometry.MultiplyIdentity | Headphones/headphones.cpp:185-192 | the identity is a two-sided unit of the matrix product |
| Geometry.Trunc | Headphones/headphones.cpp:230-231 | the `(int)` cast: the integer nearest zero within 1 of the value, below it for non-negative values and above it for negative ones |
| Geometry.TruncMonotone | Headphones/headphones.cpp:230-231 | the cast is monotone |
| Geometry.TruncIsNotFloor | Headphones/headphones.cpp:230-231 | the cast of -0.5 is 0, where the floor is -1 |
| Vectors.Zero2 | Leaf/Vectors.h:9 | the default 2D vector, (0, 0); `DefaultIsZero` proves it is the unit of `+` on both sides, the right unit of `-`, and absorbs the dot product on both sides |
| Vectors.Zero3 | Leaf/Vectors.h:47 | the default 3D vector, (0, 0, 0); `DefaultIsZero` proves it absorbs dot and cross on both sides |
| Vectors.Dot2 | Leaf/Vectors.h:12 | the 2D dot product; `Dot2Symmetric` states its symmetry and `ScaleLinear` its linearity in each operand (additive and homogeneous) |
| Vectors.Add2 | Leaf/Vectors.h:25 | componentwise `+`; `AddSubInverse` proves `-` undoes it |
| Vectors.Sub2 | Leaf/Vectors.h:26 | componentwise `-`; `AddSubInverse` proves `+` undoes it |
| Vectors.Scale2 | Leaf/Vectors.h:27 | `*` by a scalar; `ScaleLinear` and `DivUndoesScale` relate it to `+` and `/` |
| Vectors.Div2 | Leaf/Vectors.h:28 | `/` by a non-zero scalar, truncating each component toward zero through `TruncDiv`; `DivUndoesScale` proves it inverts `*` |
| Vectors.Dot3 | Leaf/Vectors.h:50 | the 3D dot product; `Dot3Symmetric` states its symmetry |
| Vectors.Cross | Leaf/Vectors.h:53 | `a.cross(b)` as the source writes it; `CrossAnticommutative`, `CrossSelfZero`, `CrossOrthogonal` and `CrossUnitAxes` state its properties |
| Vectors.DefaultIsZero | Leaf/Vectors.h:9-53 | the default vectors are zero: the unit of `+` on both sides and the right unit of `-`, and they absorb dot and cross on both sides |
| Vectors.Dot2Symmetric | Leaf/Vectors.h:12 | the 2D dot product is symmetric |
| Vectors.Dot3Symmetric | Leaf/Vectors.h:50 | the 3D dot product is symmetric |
| Vectors.AddSubInverse | Leaf/Vectors.h:25-26 | subtracting a vector undoes adding it, and the reverse |
| Vectors.ScaleLinear | Leaf/Vectors.h:12-27 | scaling distributes over `+`; the dot product scales with either operand and distributes over `+` in either operand |
| Vectors.TruncDiv | Leaf/Vectors.h:28 | C++ integer `/`: the remainder is smaller in size than the divisor and is zero or has the sign of the dividend |
| Vectors.TruncDivOfMultiple | Leaf/Vectors.h:28 | (n * k) / k == n for every non-zero k, negative operands included |
| Vectors.DivUndoesScale | Leaf/Vectors.h:27-28 | dividing a vector scaled by k by k gives it back |
| Vectors.DivTruncatesTowardZero | Leaf/Vectors.h:28 | (-7, 7) / 2 is (-3, 3), not the floor (-4, 3) |
| Vectors.CrossAnticommutative | Leaf/Vectors.h:53 | a x b == -(b x a) |
| Vectors.CrossSelfZero | Leaf/Vectors.h:53 | a x a is the zero vector |
| Vectors.CrossOrthogonal | Leaf/Vectors.h:50-53 | a x b is perpendicular to both a and b |
| Vectors.CrossUnitAxes | Leaf/Vectors.h:53 | x x y = z, y x z = x and z x x = y: the formula is right-handed |
| VertexFile.Start | Headphones/headphones.cpp:92-95 | the reader's state before the first line: both mode flags off, count 0, buffers as they were |
| VertexFile.Step | Headphones/headphones.cpp:99-131 | one iteration of the line loop, in the source's branch order; the `Step*` lemmas state each branch's effect |
| VertexFile.Run | Headphones/headphones.cpp:97-132 | the line loop over all lines in order; `RunConcat`, `RunAppendOnly`, `RunIdle`, `VertexBlock`, `ObjectBlock` and `WellFormedFile` state what it computes |
| VertexFile.Offset | Headphones/headphones.cpp:124 | the offset added to a local index is 8 * (count / 8 - 1) |
| VertexFile.Rebase | Headphones/headphones.cpp:121-126 | every index is shifted by the offset, in order, none lost |
| VertexFile.SceneBuffers.constructor | Headphones/headphones.cpp:38-39 | the global vertex and index buffers start empty |
| VertexFile.SceneBuffers.ReadVerticesFile | Headphones/headphones.cpp:86-138 | returns true exactly when the file opened; an unopened file changes nothing; otherwise the buffers end as the line-by-line reading of every line from both modes off and count 0 |
| VertexFile.StepTagAddsNothing | Headphones/headphones.cpp:99-105 | a tag line only switches its mode on: buffers and count unchanged |
| VertexFile.StepVertexLine | Headphones/headphones.cpp:106-115 | in vertex mode an ordinary line appends exactly one vertex, raises the count by one, and ends vertex mode exactly when the count becomes a multiple of 8 |
| VertexFile.StepConnectionLine | Headphones/headphones.cpp:116-127 | in connection mode alone a line appends all its indices in order, each shifted by 8 * (count / 8 - 1), and ends connection mode |
| VertexFile.StepIdle | Headphones/headphones.cpp:128-131 | with neither mode on an ordinary line is skipped |
| VertexFile.RunConcat | Headphones/headphones.cpp:97-132 | reading a then b is reading a + b |
| VertexFile.RunAppendOnly | Headphones/headphones.cpp:113-125 | reading only appends to the buffers; the vertex buffer grows by exactly as much as the count |
| VertexFile.RunIdle | Headphones/headphones.cpp:128-131 | ordinary lines with both modes off are all skipped |
| VertexFile.VertexBlock | Headphones/headphones.cpp:106-115 | in vertex mode the next lines, up to the next multiple of 8, are appended as vertices in order; the mode ends there and not before |
| VertexFile.ObjectBlock | Headphones/headphones.cpp:97-132 | one object block (tag, 8 vertex lines, tag, index line) appends its 8 vertices and its indices rebased so that local index k names that block's k-th vertex |
| VertexFile.WellFormedFile | Headphones/headphones.cpp:97-132 | a file of well-formed blocks is read into all vertices in order and all indices, object i's shifted by 8 * i |
| SceneObjects.ScanStep | Blocks/SceneObject.cpp:25-53 | one iteration of the scan loop, keeping the previous first token on a blank line; `OtherLinesIgnored` and `BlankLineAfterVertex` state branches of it |
| SceneObjects.Scan | Blocks/SceneObject.cpp:23-54 | the scan loop over the lines, stopping at the `o` line after the target; `ScanMatchesReference` and `NoTargetNoVertices` state what it collects |
| SceneObjects.SceneObject.constructor | Blocks/SceneObject.cpp:9-55 | the object keeps its name, and its vertices are those collected by the line scan over the file, stopping at the next `o` line after the target |
| SceneObjects.OtherLinesIgnored | Blocks/SceneObject.cpp:26-53 | a line starting with neither `o` nor `v` leaves the vertices and the located flag unchanged |
| SceneObjects.BlankLineAfterVertex | Blocks/SceneObject.cpp:25-52 | a blank line keeps the previous token, so after a `v` line inside the target it adds one more vertex |
| SceneObjects.ScanLocated | Blocks/SceneObject.cpp:29-53 | when no remaining line is blank, once the target is located the scan collects the `v` lines up to the next `o` line |
| SceneObjects.ScanSearching | Blocks/SceneObject.cpp:29-43 | on files without blank lines, before the target is located the scan collects exactly the reference vertices |
| SceneObjects.ScanMatchesReference | Blocks/SceneObject.cpp:20-54 | on a file without blank lines the object holds the `v` points after the first `o <name>` and before the next `o`, in order |
| SceneObjects.BlankLineBreaksReference | Blocks/SceneObject.cpp:25-52 | on `o A`, `v 1`, a blank line, `o B`, the object gets two vertices where the reference lists one: the blank-line condition of `ScanMatchesReference` cannot be dropped |
| SceneObjects.NoTargetNoVertices | Blocks/SceneObject.cpp:38-43 | if no line declares the target the object has no vertices, blank lines or not |
| SceneObjects.SkipUndeclared | Blocks/SceneObject.cpp:29-43 | lines before the target's declaration do not affect the result |
| SceneObjects.SectionOfBody | Blocks/SceneObject.cpp:44-52 | the section up to the next `o` line yields the points of its `v` lines |
| SceneObjects.TargetSection | Blocks/SceneObject.cpp:20-54 | in a file laid out as pre, `o name`, body, `o other`, post, the object gets exactly the `v` points of body |
| Camera.RotX | Headphones/headphones.cpp:149-155 | the rotation about X by s1 degrees, with the degree cosine and sine as parameters |
| Camera.RotY | Headphones/headphones.cpp:158-164 | the rotation about Y, built from the cosine and sine of the negated angle |
| Camera.RotZ | Headphones/headphones.cpp:167-173 | the rotation about Z by s3 degrees |
| Camera.Translation | Headphones/headphones.cpp:176-182 | the translation to (x, y, z), held in the bottom row (row-vector convention) |
| Camera.CameraToWorld | Headphones/headphones.cpp:146-195 | `getCameraToWorld`: the staged product rotX * rotY * rotZ * translation; `CameraToWorldClosedForm` and `CameraToWorldAffine` state what it is |
| Camera.ClosedForm | Headphones/headphones.cpp:185-192 | the independent one-formula version of that product, against which `CameraToWorldClosedForm` proves the staged product |
| Camera.RotXYProduct | Headphones/headphones.cpp:149-186 | rotX * rotY has the closed form built from cos/sin of s1 and of -s2 |
| Camera.RotXYZProduct | Headphones/headphones.cpp:167-189 | (rotX * rotY) * rotZ has the closed-form rotation rows |
| Camera.ThenTranslate | Headphones/headphones.cpp:176-192 | multiplying an affine matrix by the translation keeps its rotation rows and makes (x, y, z, 1) the bottom row |
| Camera.CameraToWorldClosedForm | Headphones/headphones.cpp:146-195 | the staged product rotX * rotY * rotZ * translation equals the closed formula |
| Camera.CameraToWorldAffine | Headphones/headphones.cpp:146-195 | the camera-to-world matrix is affine: last column (0, 0, 0, 1), bottom row the camera position |
| Camera.NoRotationIsTranslation | Headphones/headphones.cpp:146-195 | with all cosines 1 and all sines 0 the matrix is the translation |
| Camera.OriginCameraIsIdentity | Headphones/headphones.cpp:146-195 | a camera at the origin with no rotation gives the identity |
| Projection.ScreenPoint | Headphones/headphones.cpp:221-222 | the perspective divide onto the canvas at distance `near`, the camera looking down -Z |
| Projection.Ndc | Headphones/headphones.cpp:226-227 | screen coordinates rescaled by the right and top bounds; `NdcMonotone` states that each NDC coordinate does not decrease as the screen coordinate grows |
| Projection.RasterOf | Headphones/headphones.cpp:230-231 | NDC scaled to the image with Y flipped and each coordinate cast to int; `RasterOrientation` and `VisibleLandsOnImage` state its orientation and range |
| Projection.InCanvas | Headphones/headphones.cpp:234-236 | the visibility test; `ComputeCoordinates` states it as inclusive bounds |
| Projection.ComputeCoordinates | Headphones/headphones.cpp:202-239 | the point is visible exactly when its screen coordinates lie within [l, r] x [b, t], bounds included |
| Projection.CanvasBounds | Headphones/headphones.cpp:266-269 | the canvas is symmetric (bottom = -top, left = -right); top * focal length = aperture height / 2 * near, and likewise for right; positive settings give positive bounds |
| Projection.RasterIndependentOfVisibility | Headphones/headphones.cpp:230-236 | the raster point is written whatever the visibility and does not depend on l and b |
| Projection.VisibleLandsOnImage | Headphones/headphones.cpp:226-236 | on a symmetric canvas a visible point lands within 0..width x 0..height |
| Projection.RightOfCanvasLandsOffImage | Headphones/headphones.cpp:226-236 | a point right of the canvas is invisible and lands at or beyond the image's right edge |
| Projection.AxisLandsAtCentre | Headphones/headphones.cpp:221-236 | a point on the optical axis in front of the camera is visible and lands at (trunc(w / 2), trunc(h / 2)) |
| Projection.AxisLandsAtPixel256 | Headphones/headphones.cpp:230-231 | for the 512 x 512 image that is pixel (256, 256) |
| Projection.CornerIsVisible | Headphones/headphones.cpp:235 | a point exactly on the canvas corner (r, t) is visible |
| Projection.RasterOrientation | Headphones/headphones.cpp:226-231 | raster x grows with screen x and raster y shrinks as screen y grows: the image origin is top-left |
| Projection.Colour | Headphones/headphones.cpp:292 | 0 (black) for a visible triangle, 255 (red) otherwise |
| Projection.TriangleEdges | Headphones/headphones.cpp:295-297 | the three SVG lines of one triangle; `TriangleEdgesMeaning` states their loop and colour |
| Projection.Wireframe | Headphones/headphones.cpp:277-298 | the edges of the first n triangles; `WireframeLayout` states its layout and `RenderTriangles` is proved against it |
| Projection.TriangleEdgesMeaning | Headphones/headphones.cpp:285-297 | a triangle gives three edges v0-v1, v1-v2, v2-v0 forming a closed loop in one colour: 0 exactly when all three corners are visible, 255 otherwise |
| Projection.WireframeLayout | Headphones/headphones.cpp:277-298 | the wireframe of n triangles has 3n edges, triangle i's at positions 3i to 3i+2 |
| Projection.RenderTriangles | Headphones/headphones.cpp:277-298 | the loop's edges are the wireframe of every complete triangle, in order |
| Projection.RenderObject | Headphones/headphones.cpp:245-301 | with the canvas from the camera settings and a 512 x 512 image, it yields three edges per complete triangle (an incomplete trailing triangle is dropped), triangle i's edges being those of its projected corners |
| Cube.Transform | cube.cc:88-96 | the column-vector transform over the first row's width, rows 0-2; `Transform3x3`, `TransformAdditive` and `NarrowMatrixIgnoresZ` state what it is |
| Cube.RotX3 | cube.cc:58-63 | `rot_x` with cosine c and sine s; `RotXMixesYZ` and `RotXKeepsRadius` state its effect |
| Cube.ProjectX | cube.cc:104-108 | the printed x: W ((x / -z) d + 1) / 2; `CentreColumn` and `CanvasMapsOntoScreen` state where it lands |
| Cube.ProjectY | cube.cc:105-109 | the printed y: H ((y / -z) d + 1) / 2 with no flip; `NoYFlip` states its orientation |
| Cube.CubeCorners | cube.cc:30-40 | the eight corners of the 2 x 2 x 2 cube, in the program's order |
| Cube.ApplyTransformR3 | cube.cc:80-97 | the result is the transform: coordinate i is row i times the point, over the first row's width |
| Cube.TransformCorners | cube.cc:70-73 | every corner is replaced by its transform, in place; count and order kept |
| Cube.Transform3x3 | cube.cc:88-94 | with three columns the transform is the column-vector product M * p |
| Cube.IdentityKeepsPoint | cube.cc:80-97 | the identity matrix leaves the point unchanged |
| Cube.RotXMixesYZ | cube.cc:58-94 | rot_x keeps x; y' = c y + s z and z' = -s y + c z |
| Cube.RotXKeepsRadius | cube.cc:58-63 | when c^2 + s^2 = 1, rot_x keeps y^2 + z^2 |
| Cube.TransformAdditive | cube.cc:88-94 | the transform is additive |
| Cube.NarrowMatrixIgnoresZ | cube.cc:84-93 | a matrix of at most two columns never reads z |
| Cube.PrintCoords | cube.cc:99-112 | one line per point, numbered from 1, holding W ((x / -z) d + 1) / 2 and H ((y / -z) d + 1) / 2 |
| Cube.CentreColumn | cube.cc:104-108 | a point with x = 0 lands at screen x 256 |
| Cube.CanvasMapsOntoScreen | cube.cc:103-108 | canvas x in [-1, 1] lands in [0, 512] |
| Cube.NoYFlip | cube.cc:105-109 | at a fixed depth in front of the camera, screen y grows with y (no flip) |
| Cube.FirstCornerOnScreen | cube.cc:32-109 | the corner (1, -1, -5) is printed at (307.2, 204.8) |
| Cube.RotatedCubeInFront | cube.cc:70-73 | for 0 <= s <= c every rotated corner stays in front of the camera |
| Cube.CubeProgram | cube.cc:27-78 | the first listing is the cube's projection and the second that of its rotated corners, eight numbered lines each |

## Left out

- File access and output are not modelled. This covers opening and reading
  files, the error messages, the SVG text, `printf`/`cout`, the
  `SceneObject::print` method and every `main` driver's I/O. A file is a
  sequence of lines; `None` stands for a file that did not open. The SVG
  output is a sequence of `Edge` records.
- Text-to-number conversion is a parameter of the model. This covers
  `stringstream` extraction of floats and ints, and the partial reads on a
  malformed line.
- Floating point is modelled with exact reals. This covers `float` rounding,
  overflow, infinities and NaN, and the 32-bit range of `int` and
  `uint32_t`.
- Degree cosine and sine are parameters (`cosDeg`, `sinDeg`), as are the
  cube's cosine and sine of pi/12.
- `Matrix44f::inverse` and `multVecMatrix` come from `geometry.h`, which is
  not part of this model. The world-to-camera transform is a parameter.
- `Matrix44f::multiply` also comes from `geometry.h`. `Geometry.Multiply`
  takes it to be the standard row-by-column product of 4 x 4 matrices.
- OBJ lines reach `SceneObject` already split into whitespace-separated
  tokens. The `iss >> temp` string extraction is not modelled; a blank line
  is an empty token list, which keeps the previous token as the source does.
- Vectors.TruncDiv, Vectors.Div2: require a non-zero divisor. Integer
  division by zero is undefined behaviour in C++.
- `magnitude` and `unit` (Leaf/Vectors.h:14-23, 55-65) are left out: they
  use `sqrt` on doubles.
- `str` (Leaf/Vectors.h:30-35, 72-77) is left out: it only formats text.
- The `Vec3` operators `+ - * /` (Leaf/Vectors.h:67-70) are left out. They
  return a `Vec2` built from three values, so no instantiation of them can
  compile.
- Leaf/main.cpp and Leaf/Camera.cpp are not part of this model.
- The far clipping plane `fCP` is accepted by `RenderObject` and, as in the
  source, never used.
- `readingVertices` and `readingTris` are declared without an initial value
  (Headphones/headphones.cpp:93-94). The model starts both at false.
- Projection.ComputeCoordinates: requires camera-space z, r and t to be
  non-zero. The source divides by them and would produce an infinity or NaN,
  which exact reals cannot represent.
- Projection.RenderObject: requires a non-zero focal length, apertures and
  near plane, so that the canvas bounds it divides by are non-zero. It also
  requires every index of a complete triangle to name a vertex off the
  camera plane. The source reads out of bounds or divides by zero otherwise.
- Projection.RenderTriangles: has the same scene requirement as
  `RenderObject`.
- Cube.PrintCoords: requires every point's z to be non-zero, for the same
  reason as `ComputeCoordinates`.
- Cube.CubeProgram: requires 0 <= s <= c (which holds for pi/12), so that the
  rotated corners stay in front of the camera.
- Cube.ApplyTransformR3: requires at least three rows, at most three
  columns, and rows at least as wide as the first. Outside that the source
  indexes past the end of its vectors.
- Raster coordinates are truncated toward zero by the code's `(int)` cast
  (Headphones/headphones.cpp:230-231); `Geometry.TruncIsNotFloor` shows where
  truncation and the floor differ.
