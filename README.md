# Perlin terrain generator: planar mesh and free-fly camera

This project models two parts of a small OpenGL terrain renderer.

- **The planar mesh generator** (`geometry.hpp`).
  - `line` lays `div + 1` evenly spaced points on a segment and writes them into a flat float buffer.
  - `plane` stacks `div + 1` such lines between the edges v0→v3 and v1→v2 of a quadrilateral. The result is a `(div + 1) × (div + 1)` vertex grid.
  - `planeIndices` stitches that grid into a triangle list with two triangles per cell.
- **The free-fly camera** (`camera.hpp`, `camera.cpp`). The camera holds:
  - a position and a world-up vector;
  - yaw and pitch in degrees;
  - a movement speed, a look sensitivity and a zoom factor;
  - the front/right/up basis derived from yaw, pitch and world-up.

  Key and pointer input update it through `look`, `move`, `handleZoom` and `setPosition`.

The project has three modules.

- `Vectors` (`vectors.dfy`) is a three-component vector over the reals, with the operations the two parts use.
- `Geometry` (`geometry.dfy`):
  - `Line`, `Plane` and `PlaneIndices` are methods whose loops grow a sequence in the source's order. The source makes one `emplace_back` per value. `Line` appends one point (three floats) per iteration, `Plane`'s copy loop appends one float at a time, and `PlaneIndices` appends one cell (six indices) per iteration. The resulting buffers are the same.
  - Each method is proved against a specification function: `IsLine`, `PlaneRows`/`GridVertex`, and `PlaneIndexList`/`Cell`.
  - Lemmas state the listed facts about those specifications: lengths, endpoints and corners, index bounds, the per-cell pattern, row-major order and non-degenerate triangles.
- `FreeCamera` (`camera.dfy`):
  - The camera is a class with the source's fields, and each method names in `modifies` exactly the fields the source writes.
  - The invariant `Valid()` says two things:
    - zoom lies in [0.1, 3];
    - the stored basis is `BasisFor(yaw, pitch, worldUp)`, so it depends on those three values alone and never on the previous front.

    Every method preserves it.
  - The maths library's degree-to-radian conversion, cosine, sine and inverse square root enter as a `MathLib` value of functions. The camera holds that value as a constant.
  - Normalisation (`v * inversesqrt(dot(v, v))`) and the cross product are written out over those functions.

`look` clamps pitch into the closed interval [-89, 89] (`camera.cpp:39`, `max(-89, min(pitch, 89))`).

## Model

| member | source | states |
|---|---|---|
| Geometry.Line | geometry.hpp:10-22 | For 1 <= div with `div * 3` within `int`: the buffer has exactly 3 * (div + 1) floats, and triple j (j = 0 .. div) is the point start + (j / div) * (end - start), in order. |
| Geometry.StepIsLerp | geometry.hpp:11-15 | The source's step, start + ((end - start) / div) * i, is the point i / div of the way from start to end. |
| Geometry.LineEndpoints | geometry.hpp:14-20 | In any line buffer, point 0 is exactly `start` and point `div` is exactly `end`. |
| Geometry.Plane | geometry.hpp:26-48 | The buffer has exactly 3 * (div + 1)^2 floats. For all 0 <= i, j <= div, the point at position i * (div + 1) + j is point j of row i. Row i is the line from v0 + (i / div)(v3 - v0) to v1 + (i / div)(v2 - v1). Rows are appended in order of i. |
| Geometry.PlaneRowsLength | geometry.hpp:39-46 | A buffer made of `rows` appended grid lines holds 3 * (div + 1) * rows floats. |
| Geometry.PlaneRowsPoint | geometry.hpp:39-46 | In such a buffer, grid vertex (i, j) of every appended row i sits at vertex position i * (div + 1) + j. |
| Geometry.AppendRow | geometry.hpp:42-45 | Appending the line of row i to a buffer holding rows 0 .. i - 1 gives a buffer holding rows 0 .. i. |
| Geometry.PlaneCorners | geometry.hpp:30-34 | A buffer holding the grid of v0 v1 v2 v3 has v0, v1, v2 and v3 at grid positions (0, 0), (0, div), (div, div) and (div, 0). |
| Geometry.GridCorners | geometry.hpp:36-42 | Row i starts at v0 + (i / div)(v3 - v0) and ends at v1 + (i / div)(v2 - v1). Row 0 runs v0→v1 and row div runs v3→v2. The grid corners are v0, v1, v2 and v3. |
| Geometry.VertexIndexBound | geometry.hpp:61 | For 0 <= i, j <= div, the vertex number i * (div + 1) + j lies in [0, (div + 1)^2). |
| Geometry.VertexIndexInjective | geometry.hpp:61 | Two grid positions with the same vertex number are the same position. |
| Geometry.RowOrder | geometry.hpp:59-61 | Every vertex of an earlier row has a smaller number than every vertex of a later row. |
| Geometry.PlaneIndices | geometry.hpp:50-74 | For 0 <= div with every index within `int`, the result is `PlaneIndexList(div)`. <br>It holds exactly 6 * div * div entries, and every entry lies in [0, (div + 1)^2). <br>Positions 6 * (i * div + j) .. + 5 hold cell (i, j), for all i, j < div. <br>With div = 0 it is empty. |
| Geometry.CellPattern | geometry.hpp:61-69 | With idx = i * (div + 1) + j, cell (i, j) is idx, idx + div + 2, idx + div + 1, idx, idx + 1, idx + div + 2. These are the corners (i, j), (i+1, j+1), (i+1, j) and (i, j), (i, j+1), (i+1, j+1). |
| Geometry.CellTrianglesDistinct | geometry.hpp:62-69 | Within each of a cell's two triangles, the three indices are pairwise distinct. |
| Geometry.CellInBounds | geometry.hpp:61-69 | Every index of a cell inside the grid is below (div + 1)^2. |
| Geometry.RowCellsLength | geometry.hpp:60-70 | The cells of one row, up to column `cols`, take 6 * cols entries. |
| Geometry.CellRowsLength | geometry.hpp:59-71 | The first `rows` rows of cells take 6 * div * rows entries. |
| Geometry.RowCellsAt | geometry.hpp:60-70 | Within a row, cell j occupies entries 6j .. 6j + 5. |
| Geometry.CellRowsAt | geometry.hpp:59-71 | Cell (i, j) occupies entries 6 * (i * div + j) .. + 5. Cells are emitted row-major, i outer and j inner. |
| Geometry.RowCellsInBounds | geometry.hpp:60-70 | Every entry of a row of cells is in [0, (div + 1)^2). |
| Geometry.CellRowsInBounds | geometry.hpp:59-71 | Every entry of the first `rows` rows of cells is in [0, (div + 1)^2). So every index refers to a vertex of the plane built with the same div. |
| Geometry.MaxIndexIsLast | geometry.hpp:61-69 | For div >= 1, the last entry is (div + 1)^2 - 1. Together with the bound, this is the maximum index. |
| Geometry.SingleCellIndices | geometry.hpp:59-71 | For div = 1 the index buffer is exactly [0, 3, 2, 0, 1, 3]. |
| Geometry.PlaneMesh | main.cpp:68-71 | A vertex buffer and an index buffer built with the same div fit each other: <br>every index's xyz triple lies inside the vertex buffer; <br>the grid corners (0, 0), (0, div), (div, div) and (div, 0) are v0, v1, v2 and v3. |
| Vectors.CrossPerpendicular | camera.cpp:25-26 | A cross product is perpendicular to both of its factors. |
| FreeCamera.BasisPerpendicular | camera.cpp:15-27 | Front, right and up are mutually perpendicular, and right is perpendicular to world-up. This holds for every real-valued library. |
| FreeCamera.DefaultBasis | camera.cpp:15-27 | Assume a library that is exact at yaw -90 and pitch 0 and has inversesqrt(1) = 1. Then the default yaw, pitch and world-up give front (0, 0, -1) (the default front), right (1, 0, 0) and up (0, 1, 0). |
| FreeCamera.LevelPitchLevelFront | camera.cpp:20-22 | A pitch whose sine is 0 gives a front with y = 0. |
| FreeCamera.Clamp | camera.cpp:39 | The clamp of v into [lo, hi] lies in [lo, hi]. It is v when v is inside, lo when v is below and hi when v is above. |
| FreeCamera.ClampIsMaxOfMin | camera.cpp:39 | The source's max(lo, min(v, hi)) is that clamp. |
| FreeCamera.Displacement | camera.cpp:45-61 | Every direction except Up displaces by a vector with y = 0. |
| FreeCamera.OppositeMovesCancel | camera.cpp:49-60 | Forward then Backward, or Left then Right, with the same speed and dt, returns exactly to the start. |
| FreeCamera.UpDisplacement | camera.cpp:46-47 | Moving Up displaces by worldUp * (speed * dt). |
| FreeCamera.UpMoveIsVertical | camera.cpp:46-47 | With the default world-up (0, 1, 0), moving Up changes only y, and by speed * dt. |
| FreeCamera.Camera.constructor | camera.cpp:11-13 | The default camera has pos (0, 10, 3), world-up (0, 1, 0), yaw -90, pitch 0, speed 10, sensitivity 0.16 and zoom 1, with the basis computed from these. <br>Zoom 1 is in [0.1, 3] and pitch 0 is in [-89, 89]. |
| FreeCamera.Camera.WithPose | camera.cpp:3-9 | Position, world-up, yaw and pitch are stored as given; pitch is not clamped. <br>Speed, sensitivity and zoom take their defaults, and the basis is computed from these. |
| FreeCamera.Camera.UpdateDirectionVectors | camera.cpp:15-27 | Only front, right and up change. <br>Afterwards they equal `BasisFor(yaw, pitch, worldUp)`, so the previous front plays no part. |
| FreeCamera.Camera.Look | camera.cpp:31-43 | Only yaw, pitch and the basis change. <br>yaw' = yaw + x * sensitivity. <br>pitch' = clamp(pitch + y * sensitivity, -89, 89) when constrainPitch holds (the default), and pitch + y * sensitivity otherwise. <br>The basis is recomputed, and `look(0, 0, c)` changes nothing when pitch is already in [-89, 89] or c is false. |
| FreeCamera.Camera.Move | camera.cpp:45-61 | Only the position changes, by `Displacement`. <br>Forward, Backward, Left and Right keep pos.y. |
| FreeCamera.Camera.HandleZoom | camera.cpp:67-75 | Only zoom changes. <br>zoom' = clamp(zoom - y * 0.05, 0.1, 3), so zoom' is in [0.1, 3]. <br>x has no effect. |
| FreeCamera.Camera.Zoom | camera.cpp:77-79 | Returns the zoom, which lies in [0.1, 3] for every valid camera. |
| FreeCamera.Camera.SetPosition | camera.cpp:85-87 | Only pos changes, and afterwards the getter `Position()` (camera.cpp:81-83) returns the new position. |
| FreeCamera.ForwardAndBack | camera.cpp:49-54 | Calling `move(FORWARD, dt)` then `move(BACKWARD, dt)` changes only pos and returns the camera to its position. Every other field keeps its value. |
| FreeCamera.SidewaysLookFromDefault | camera.cpp:31-43 | Take the default camera and a library where sin(radians(0)) = 0. A look with y = 0 leaves pitch at 0 and the front level, and sets yaw to -90 + x * 0.16. |

## Left out

- `main.cpp` is left out, except for the mesh construction modelled by `PlaneMesh`. The rest is window and context creation, GL loader set-up, buffer upload, the render loop and driver queries: all I/O and calls into the graphics API.
- `shader.cpp` and `shader.hpp` are left out. They do file reading, shader compilation and uniform upload through the graphics API.
- `Camera::getViewMatrix` (camera.cpp:63-65) is left out. It is a single call to the maths library's `lookAt` and builds a float matrix.
- `reserve` calls (geometry.hpp:13, 28, 57) are left out. For the div values the preconditions admit, they size storage only and do not change any result.
- The heightmap and tessellation meshes are left out. No such code is among the modelled files.
- `GLfloat`, `float` and the `double` arithmetic in `handleZoom` are modelled as exact reals, so rounding is not modelled. The clamp, level-move and index facts do not depend on it. Some facts hold only over exact reals:
  - `FreeCamera.OppositeMovesCancel` and `FreeCamera.ForwardAndBack`: in float arithmetic, `(p + d) - d` need not equal `p`.
  - The far-end interpolation identities: point `div` is `end` in `Geometry.LineEndpoints`, and the v1, v2 and v3 corners in `Geometry.GridCorners`, `Geometry.PlaneCorners` and `Geometry.PlaneMesh`. In float, `start + ((end - start) / div) * div` can differ from `end` in the last bits. Point 0 and corner v0 are exact in float too.
- `FreeCamera.BasisFor` depends on the supplied library. The degree-to-radian conversion, cosine, sine and inverse square root are a `MathLib` parameter, not the real functions. Only the facts that hold for every such library are proved: perpendicularity and dependence on yaw, pitch and world-up alone. Unit length and orthonormality are not proved.
- `FreeCamera.BasisPerpendicular`: IEEE NaN and infinity are not modelled.
  - Normalising a zero vector gives the zero vector in the model. In the source it gives NaN, because `0 * inversesqrt(0)` is `0 * inf`. This happens for a zero world-up or a world-up parallel to the front. The source's right and up are then NaN, and no dot product is 0.
  - Likewise, in `FreeCamera.Camera.HandleZoom` a NaN scroll offset leaves zoom NaN in the source, because both comparisons are false. The zoom range holds only for non-NaN offsets.
- `FreeCamera.DefaultBasis` and `FreeCamera.SidewaysLookFromDefault` assume the library is exact at the angles involved. They state that assumption as a precondition.
- `Geometry.Line`, `Geometry.Plane`: these require div >= 1.
  - div = 0 divides by zero in floating point, and every point becomes NaN.
  - A negative div makes `reserve` throw `std::length_error`.

  Neither outcome is representable over the reals, and exceptions are not modelled.
- `Geometry.PlaneIndices` requires div >= 0, because a negative div makes `reserve` throw.
- `Geometry.Line`, `Geometry.Plane`, `Geometry.PlaneIndices`: these require div to be small enough that the 32-bit `int` products `div * 3`, `2 * div`, `6 * div` and `i * (div + 1) + j + div + 2` do not overflow. Signed overflow has no defined result in C++.
- `FreeCamera.Camera.constructor`: the body assigns the front's initial value, (0, 0, -1), but the contract does not state it. It is overwritten by the basis computation before anyone can observe it, because the source copies it into `direction` and then replaces all three components.
- The destructor (camera.cpp:29) is left out. It does nothing.
