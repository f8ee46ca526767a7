# Spinning wireframe cube: the transform pipeline

This project models the core of two nearly identical demo programs,
`example_cube_sdl3.cc` and `example_cube_sdl2.cc`. Each one draws a wireframe
cube that spins. `dot`, `transform` and `translate` are the same text in both
programs. `getRotationMatrix` is not: the SDL3 program calls `SDL_cos` and
`SDL_sin`, the SDL2 program the `<cmath>` `cos` and `sin`. These are two
library implementations, so as doubles the two programs need not build the
same rotation matrix. The model takes `cos` and `sin` as parameters, so one
Dafny module, `Cube` in `cube.dfy`, covers both programs. The module covers:

- `dot`, the general matrix product over `std::vector<std::vector<double>>`.
  It is modelled by the method `Dot`, which keeps the source's zero-filled
  result and its triple loop with in-place `+=`. The loop is checked against
  the specification function `Product`, whose entries are the partial sums
  `EntrySum`.
- `transform`: the point is turned into a 3x1 column, multiplied, and read
  back from column 0. `translate`: componentwise addition. These are the pure
  functions `Transform` and `Translate`.
- `getRotationMatrix`: the elementary rotations `RotationX`, `RotationY` and
  `RotationZ` at the fixed angles 0.001, 0.002 and 0.003, composed as
  `Rz * (Ry * Rx)` by `RotationMatrix`. The library's `cos` and `sin` are
  parameters (`real -> real`).
- The program state is the class `App`. Its `points` field is an
  `array<Point>` of length 8, which both programs update in place. Its
  `rotation` field is the matrix computed once at start-up. `screenShift` and
  `screenShiftOpposite` never change, so they are the module constants
  `ScreenShift` and `ScreenShiftOpposite`.
- Start-up (`App.Setup`, `Start`): the scaling loop sets every coordinate to
  `200 * c + screenShift.c`. The default member initialiser leaves
  `screenShift.z` at 0. So a corner (x, y, z) goes to
  (200x + 500, 200y + 500, 200z); for example (-1, 1, 1) goes to
  (300, 700, 200).
- The per-frame body of `SDL_AppIterate` and `mainloop` (`App.Iterate`).
  Every point is shifted to the origin, rotated and shifted back, in place.
  Then the edge loop (`Edges`) produces the twelve index pairs that
  `connect` would draw.

All `double` arithmetic is exact `real` arithmetic in the model.

Two points about the code are easy to get wrong:

- The z coordinate of a placed corner is 200z, not 200z + 500, because
  `screenShift` is initialised with two values only.
- `dot` does not need exactly compatible shapes. It always needs a first row
  in `b`, because it reads `b[0].size()`. When `b[0]` is non-empty, every row
  of `a` needs at least `|b|` entries. When `a` is non-empty, every row of `b`
  needs at least `|b[0]|` entries. When `a` or `b[0]` is empty, the loops do
  not run and the result has no entries. `Conformable` states exactly these
  requirements.

## Model

| member | source | states |
|---|---|---|
| `Cube.Dot` | example_cube_sdl3.cc:15-25 | The result has `|a|` rows of `|b[0]|` entries. Entry (i, j) is the sum over k < `|b|` of `a[i][k]*b[k][j]`. Inside the k loop the entry holds the partial sum of the first k terms. The result equals `Product(a, b)`. The code is identical at example_cube_sdl2.cc:16-26. |
| `Cube.ProductIdentityLeft` | example_cube_sdl3.cc:15-25 | `dot(I, a) == a` for every non-empty rectangular `a`. |
| `Cube.ProductIdentityRight` | example_cube_sdl2.cc:16-26 | `dot(a, I) == a` for every `a` whose rows all have n > 0 entries. |
| `Cube.ProductEmptyCases` | example_cube_sdl3.cc:16-18 | For every `b` with a first row, `Conformable` admits an empty `a` and the result is empty. For every `a` and every `b` whose first row is empty, `Conformable` admits the pair and the result has `|a|` rows, each empty. |
| `Cube.Product3` | example_cube_sdl3.cc:15-25 | The product of two 3x3 matrices, each of its nine entries written out as a three-term sum. |
| `Cube.Column` | example_cube_sdl3.cc:28 | A point as the 3x1 matrix `{{x}, {y}, {z}}`: three rows of one entry, holding x, y and z. |
| `Cube.Transform` | example_cube_sdl3.cc:27-31 | Column 0 of `m` times the column `[x; y; z]` is the matrix-vector product: `r.x = m00 x + m01 y + m02 z`, and likewise for rows 1 and 2. |
| `Cube.TransformIdentity` | example_cube_sdl2.cc:28-32 | The identity matrix leaves every point unchanged. |
| `Cube.TransformProduct` | example_cube_sdl3.cc:27-31 | Transforming by `dot(a, b)` is the same as transforming by `b` and then by `a` (3x3 matrices). |
| `Cube.Translate` | example_cube_sdl3.cc:33-35 | Componentwise addition of the shift; subtracting the shift componentwise recovers the original point. |
| `Cube.TranslateCompose` | example_cube_sdl3.cc:33-35 | Translating by t and then by s is the same as translating once by `translate(s, t)`, because translation is componentwise addition. |
| `Cube.ShiftsOpposite` | example_cube_sdl3.cc:70-71 | `screenShift` is (500, 500, 0), and `screenShiftOpposite` is exactly its negation. |
| `Cube.TranslateRoundTrip` | example_cube_sdl2.cc:64-65 | Translating by `screenShiftOpposite` and then by `screenShift`, in either order, returns the original point. |
| `Cube.RotationX` | example_cube_sdl3.cc:44-46 | The rotation about x built from the cosine and sine of alpha, as a 3x3 matrix; with cos = 1 and sin = 0 it is the identity. |
| `Cube.RotationY` | example_cube_sdl3.cc:49-51 | The rotation about y built from the cosine and sine of beta, as a 3x3 matrix; with cos = 1 and sin = 0 it is the identity. |
| `Cube.RotationZ` | example_cube_sdl3.cc:54-56 | The rotation about z built from the cosine and sine of gamma, as a 3x3 matrix; with cos = 1 and sin = 0 it is the identity. |
| `Cube.RotationMatrix` | example_cube_sdl3.cc:42-58 | `dot(rotationZ, dot(rotationY, rotationX))` at the fixed angles 0.001, 0.002 and 0.003. Its own `ensures` gives only the 3x3 shape; the entries are proved in `RotationMatrixEntries`. |
| `Cube.RotationMatrixAtZero` | example_cube_sdl2.cc:44-58 | If every cosine is 1 and every sine is 0, then `Rz * (Ry * Rx)` is the identity. |
| `Cube.RotationYX` | example_cube_sdl3.cc:44-58 | `Ry * Rx`, entry by entry, in terms of the cosines and sines of alpha and beta. |
| `Cube.RotationZYX` | example_cube_sdl3.cc:53-58 | `Rz * (Ry * Rx)`, entry by entry, in terms of the cosines and sines of the three angles. |
| `Cube.RotationMatrixEntries` | example_cube_sdl3.cc:42-58 | `getRotationMatrix()` equals that closed form, taken at alpha = 0.001, beta = 0.002 and gamma = 0.003. |
| `Cube.Place` | example_cube_sdl3.cc:118-123 | One point after the scaling loop is (200x + 500, 200y + 500, 200z), since `screenShift.z` is 0. |
| `Cube.PlacedCorners` | example_cube_sdl2.cc:107-116 | With the initial corner list, (-1, 1, 1) is placed at (300, 700, 200) and (1, -1, -1) at (700, 300, -200). |
| `Cube.App.constructor` | example_cube_sdl3.cc:66-72 | The global initialisers: eight points equal to the unit corners in source order, and `rotationXYZ = getRotationMatrix()`. |
| `Cube.App.Setup` | example_cube_sdl3.cc:118-123 | The scaling loop replaces each of the 8 points, in place, by its placed image. The order is kept. |
| `Cube.Start` | example_cube_sdl2.cc:107-116 | After start-up there are exactly 8 points, and point k is the placed image of unit corner k. |
| `Cube.App.Iterate` | example_cube_sdl3.cc:74-92 | Each of the 8 points becomes `translate(screenShift, transform(rotationXYZ, translate(screenShiftOpposite, old p)))`, in the same order. Nothing else changes. The pairs drawn are the twelve cube edges. |
| `Cube.FrameStepFixesCentre` | example_cube_sdl3.cc:75-79 | For any rotation matrix, the screen centre is a fixed point of the per-frame update. |
| `Cube.FrameStep` | example_cube_sdl3.cc:76-78 | One point's update is `translate(screenShift, transform(rotationXYZ, translate(screenShiftOpposite, p)))`; its offset from the screen centre afterwards is the old offset rotated by the matrix. |
| `Cube.FrameStepIdentity` | example_cube_sdl3.cc:75-79 | With the identity matrix, a frame leaves every point unchanged. |
| `Cube.FrameStepAfter` | example_cube_sdl2.cc:78-82 | One frame after an offset rotated by m leaves the offset rotated by `rotation * m`. |
| `Cube.FramesArePower` | example_cube_sdl2.cc:121-123 | n frames of the loop rotate the offset from the screen centre by the n-th power of the rotation matrix (exact arithmetic). |
| `Cube.Edges` | example_cube_sdl3.cc:84-88 | The loop emits the pairs in drawing order. There are 12 of them and all indices are in 0..7. The endpoints of each pair differ in exactly one coordinate of the initial corners. No undirected pair repeats. Every such corner pair is present. |
| `Cube.CubeEdgeListIsCube` | example_cube_sdl2.cc:87-91 | The twelve pairs of the edge loop are exactly the edges of the cube: in range, adjacent, pairwise distinct as undirected pairs, and complete. |

## Left out

- All SDL and emscripten calls are foreign I/O and are not modelled. This covers window and renderer creation, clearing and presenting, VSync, `SDL_Delay`, `emscripten_set_main_loop`, `SDL_DestroyWindow` and `SDL_Quit`. `connect` appears only as the index pair it would draw.
- Event handling (`SDL_AppEvent`, the `SDL_PollEvent` loop and the `close` flag) only maps library event types to a quit decision.
- `App.Iterate` does not model the `SDL_APP_CONTINUE` that `SDL_AppIterate` always returns.
- The initialisation error paths are library failures only. In the SDL3 program they return `SDL_APP_FAILURE`; the SDL2 program prints the error of `SDL_Init` and carries on, and does not check window or renderer creation. `App.Setup` and `Start` model the successful path.
- IEEE double rounding is not modelled. Every coordinate and matrix entry is an exact real, so float error and drift over many frames are not covered.
- `sin` and `cos` are parameters, so nothing about their values is assumed. As a result, orthogonality of the rotation matrix and length preservation, which rest on trigonometric identities, are not proved.
- The narrowing of coordinates to the draw call's argument type (float in SDL3, `int` in SDL2) is not modelled.
- TransformProduct: associativity of `dot` for arbitrary rectangular matrices is not proved. The program only composes 3x3 rotations applied to a point, and `TransformProduct` covers that case.
