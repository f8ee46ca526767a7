/** A model of the linear-algebra pipeline behind the spinning wireframe cube:
    matrix product, point rotation and translation, the composed rotation
    matrix, the cube set-up, the per-frame update and the edge enumeration.
    Doubles are modelled as exact reals; sin and cos are parameters. */
module Cube {

  // ---------------------------------------------------------------------------
  // Points and matrices
  // ---------------------------------------------------------------------------

  /** A vertex in 3D space. */
  datatype Point = Point(x: real, y: real, z: real)

  /** A matrix as a sequence of rows. */
  type Matrix = seq<seq<real>>

  /** m has exactly `rows` rows, each of exactly `cols` entries. */
  predicate IsMatrix(m: Matrix, rows: nat, cols: nat) {
    |m| == rows && forall i :: 0 <= i < |m| ==> |m[i]| == cols
  }

  /** Exactly what the triple loop of dot reads without going out of bounds:
      b has a first row (its size is read even when a is empty); when the
      j loop runs (b[0] non-empty), every row of a has at least |b| entries;
      when the i loop runs (a non-empty), every row of b is at least as long
      as the first one. */
  predicate Conformable(a: Matrix, b: Matrix) {
    |b| > 0 &&
    (|b[0]| > 0 ==> forall i :: 0 <= i < |a| ==> |a[i]| >= |b|) &&
    (|a| > 0 ==> forall k :: 0 <= k < |b| ==> |b[k]| >= |b[0]|)
  }

  /** The partial sum a[i][0]*b[0][j] + ... + a[i][n-1]*b[n-1][j], added up
      in the order of the innermost loop of dot. */
  function EntrySum(a: Matrix, b: Matrix, i: nat, j: nat, n: nat): real
    requires i < |a| && n <= |a[i]| && n <= |b|
    requires forall k :: 0 <= k < n ==> j < |b[k]|
  {
    if n == 0 then 0.0 else EntrySum(a, b, i, j, n - 1) + a[i][n - 1] * b[n - 1][j]
  }

  /** A length-3 entry sum written out. */
  lemma EntrySum3(a: Matrix, b: Matrix, i: nat, j: nat)
    requires i < |a| && 3 <= |a[i]| && 3 <= |b|
    requires forall k :: 0 <= k < 3 ==> j < |b[k]|
    ensures EntrySum(a, b, i, j, 3) == a[i][0] * b[0][j] + a[i][1] * b[1][j] + a[i][2] * b[2][j]
  {
    assert EntrySum(a, b, i, j, 1) == a[i][0] * b[0][j];
    assert EntrySum(a, b, i, j, 2) == a[i][0] * b[0][j] + a[i][1] * b[1][j];
  }

  /** The matrix product as a value: |a| rows of |b[0]| full entry sums. */
  function Product(a: Matrix, b: Matrix): (r: Matrix)
    requires Conformable(a, b)
    ensures IsMatrix(r, |a|, |b[0]|)
  {
    seq(|a|, i requires 0 <= i < |a| =>
      seq(|b[0]|, j requires 0 <= j < |b[0]| => EntrySum(a, b, i, j, |b|)))
  }

  /** The n-by-n identity matrix. */
  function Identity(n: nat): (r: Matrix)
    ensures IsMatrix(r, n, n)
  {
    seq(n, i => seq(n, j => if i == j then 1.0 else 0.0))
  }

  /** The empty cases of dot: with no rows in a only b[0] is read and the
      result is empty; with an empty first row of b nothing of a is read and
      every row of the result is empty. */
  lemma ProductEmptyCases(a: Matrix, b: Matrix)
    requires |b| > 0
    ensures Conformable([], b) && Product([], b) == []
    ensures |b[0]| == 0 ==> Conformable(a, b) && Product(a, b) == seq(|a|, _ => [])
  {
    if |b[0]| == 0 {
      var r := Product(a, b);
      forall i | 0 <= i < |a|
        ensures r[i] == []
      {
      }
    }
  }

  /** The 3-by-3 identity written out. */
  lemma Identity3()
    ensures Identity(3) == [[1.0, 0.0, 0.0], [0.0, 1.0, 0.0], [0.0, 0.0, 1.0]]
  {
    var id := Identity(3);
    assert id[0] == [1.0, 0.0, 0.0];
    assert id[1] == [0.0, 1.0, 0.0];
    assert id[2] == [0.0, 0.0, 1.0];
  }

  /** dot: a zero matrix of |a| rows and |b[0]| columns, filled by a triple
      loop that adds a[i][k]*b[k][j] into entry (i, j) in place. */
  method Dot(a: Matrix, b: Matrix) returns (r: Matrix)
    requires Conformable(a, b)
    ensures IsMatrix(r, |a|, |b[0]|)
    ensures forall i, j :: 0 <= i < |a| && 0 <= j < |b[0]| ==> r[i][j] == EntrySum(a, b, i, j, |b|)
    ensures r == Product(a, b)
  {
    var m, p, n := |a|, |b[0]|, |b|;
    r := seq(m, _ => seq(p, _ => 0.0));
    var i := 0;
    while i < m
      invariant 0 <= i <= m
      invariant IsMatrix(r, m, p)
      invariant forall t, l :: 0 <= t < i && 0 <= l < p ==> r[t][l] == EntrySum(a, b, t, l, n)
      invariant forall t, l :: i <= t < m && 0 <= l < p ==> r[t][l] == 0.0
    {
      var j := 0;
      while j < p
        invariant 0 <= j <= p
        invariant IsMatrix(r, m, p)
        invariant forall t, l :: 0 <= t < i && 0 <= l < p ==> r[t][l] == EntrySum(a, b, t, l, n)
        invariant forall t, l :: i < t < m && 0 <= l < p ==> r[t][l] == 0.0
        invariant forall l :: 0 <= l < j ==> r[i][l] == EntrySum(a, b, i, l, n)
        invariant forall l :: j <= l < p ==> r[i][l] == 0.0
      {
        ghost var before := r;
        var k := 0;
        while k < n
          invariant 0 <= k <= n
          invariant IsMatrix(r, m, p)
          invariant forall t :: 0 <= t < m && t != i ==> r[t] == before[t]
          invariant forall l :: 0 <= l < p && l != j ==> r[i][l] == before[i][l]
          invariant r[i][j] == EntrySum(a, b, i, j, k)
        {
          r := r[i := r[i][j := r[i][j] + a[i][k] * b[k][j]]];
          k := k + 1;
        }
        j := j + 1;
      }
      i := i + 1;
    }
    forall t | 0 <= t < m
      ensures r[t] == Product(a, b)[t]
    {
    }
  }

  // ---------------------------------------------------------------------------
  // Geometry: transform and translate
  // ---------------------------------------------------------------------------

  /** A point as the 3x1 column matrix [x; y; z]. */
  function Column(p: Point): (r: Matrix)
    ensures IsMatrix(r, 3, 1)
    ensures r[0][0] == p.x && r[1][0] == p.y && r[2][0] == p.z
  {
    [[p.x], [p.y], [p.z]]
  }

  /** The shape transform needs: at least three rows, every row at least
      three long. */
  predicate Rotates(m: Matrix) {
    |m| >= 3 && forall i :: 0 <= i < |m| ==> |m[i]| >= 3
  }

  /** transform: the point read back from rows 0..2 of column 0 of m times the
      column of p, which is the matrix-vector product. */
  function Transform(m: Matrix, p: Point): (r: Point)
    requires Rotates(m)
    ensures r.x == m[0][0] * p.x + m[0][1] * p.y + m[0][2] * p.z
    ensures r.y == m[1][0] * p.x + m[1][1] * p.y + m[1][2] * p.z
    ensures r.z == m[2][0] * p.x + m[2][1] * p.y + m[2][2] * p.z
  {
    var c := Product(m, Column(p));
    EntrySum3(m, Column(p), 0, 0);
    EntrySum3(m, Column(p), 1, 0);
    EntrySum3(m, Column(p), 2, 0);
    Point(c[0][0], c[1][0], c[2][0])
  }

  /** The shift that undoes s. */
  function Negate(s: Point): Point {
    Point(-s.x, -s.y, -s.z)
  }

  /** translate: the point moved by shift; subtracting the shift recovers it. */
  function Translate(shift: Point, p: Point): (r: Point)
    ensures Point(r.x - shift.x, r.y - shift.y, r.z - shift.z) == p
  {
    Point(p.x + shift.x, p.y + shift.y, p.z + shift.z)
  }

  // ---------------------------------------------------------------------------
  // Rotation matrix
  // ---------------------------------------------------------------------------

  /** The fixed per-frame angles about x, y and z. */
  const Alpha: real := 0.001
  const Beta: real := 0.002
  const Gamma: real := 0.003

  /** Rotation about x, given the cosine c and the sine s of the angle;
      the identity at angle zero. */
  function RotationX(c: real, s: real): (r: Matrix)
    ensures IsMatrix(r, 3, 3)
    ensures c == 1.0 && s == 0.0 ==> r == Identity(3)
  {
    Identity3();
    [[1.0, 0.0, 0.0],
     [0.0, c, -s],
     [0.0, s, c]]
  }

  /** Rotation about y, given the cosine c and the sine s of the angle;
      the identity at angle zero. */
  function RotationY(c: real, s: real): (r: Matrix)
    ensures IsMatrix(r, 3, 3)
    ensures c == 1.0 && s == 0.0 ==> r == Identity(3)
  {
    Identity3();
    [[c, 0.0, s],
     [0.0, 1.0, 0.0],
     [-s, 0.0, c]]
  }

  /** Rotation about z, given the cosine c and the sine s of the angle;
      the identity at angle zero. */
  function RotationZ(c: real, s: real): (r: Matrix)
    ensures IsMatrix(r, 3, 3)
    ensures c == 1.0 && s == 0.0 ==> r == Identity(3)
  {
    Identity3();
    [[c, -s, 0.0],
     [s, c, 0.0],
     [0.0, 0.0, 1.0]]
  }

  /** getRotationMatrix: Rz * (Ry * Rx) at the fixed angles, with the
      library's cosine and sine passed in. */
  function RotationMatrix(cos: real -> real, sin: real -> real): (r: Matrix)
    ensures IsMatrix(r, 3, 3)
  {
    var rx := RotationX(cos(Alpha), sin(Alpha));
    var ry := RotationY(cos(Beta), sin(Beta));
    var rz := RotationZ(cos(Gamma), sin(Gamma));
    Product(rz, Product(ry, rx))
  }

  // ---------------------------------------------------------------------------
  // The cube
  // ---------------------------------------------------------------------------

  const Width: int := 1000
  const Height: int := 1000
  const Scale: int := 200

  /** screenShift: half the window in x and y; z keeps its default 0. */
  const ScreenShift: Point := Point(Width as real / 2.0, Height as real / 2.0, 0.0)

  /** screenShiftOpposite: minus half the window in x and y; z keeps its default 0. */
  const ScreenShiftOpposite: Point := Point((-Width) as real / 2.0, (-Height) as real / 2.0, 0.0)

  /** The eight corners of the unit cube in their initial order: 0..3 the
      front face (z = 1), 4..7 the back face in corresponding order. */
  const UnitCorners: seq<Point> := [
    Point(-1.0, 1.0, 1.0), Point(1.0, 1.0, 1.0), Point(1.0, -1.0, 1.0), Point(-1.0, -1.0, 1.0),
    Point(-1.0, 1.0, -1.0), Point(1.0, 1.0, -1.0), Point(1.0, -1.0, -1.0), Point(-1.0, -1.0, -1.0)]

  /** The set-up step for one point: scaled by 200 and shifted by screenShift. */
  function Place(p: Point): (r: Point)
    ensures r == Point(200.0 * p.x + 500.0, 200.0 * p.y + 500.0, 200.0 * p.z)
  {
    Point(Scale as real * p.x + ScreenShift.x,
          Scale as real * p.y + ScreenShift.y,
          Scale as real * p.z + ScreenShift.z)
  }

  /** One point's per-frame update: to the origin, rotate, back to the
      centre; so the offset from the centre is rotated. */
  function FrameStep(rotation: Matrix, p: Point): (r: Point)
    requires Rotates(rotation)
    ensures Translate(ScreenShiftOpposite, r) == Transform(rotation, Translate(ScreenShiftOpposite, p))
  {
    Translate(ScreenShift, Transform(rotation, Translate(ScreenShiftOpposite, p)))
  }

  /** The update applied n times. */
  function Frames(rotation: Matrix, n: nat, p: Point): Point
    requires Rotates(rotation)
  {
    if n == 0 then p else FrameStep(rotation, Frames(rotation, n - 1, p))
  }

  /** rotation multiplied by itself n times. */
  function Power(rotation: Matrix, n: nat): (r: Matrix)
    requires IsMatrix(rotation, 3, 3)
    ensures IsMatrix(r, 3, 3)
  {
    if n == 0 then Identity(3) else Product(rotation, Power(rotation, n - 1))
  }

  /** The number of coordinates in which p and q differ. */
  function Differences(p: Point, q: Point): nat {
    (if p.x != q.x then 1 else 0) + (if p.y != q.y then 1 else 0) + (if p.z != q.z then 1 else 0)
  }

  /** Corners i and j of the initial list are joined by an edge of the cube. */
  predicate Adjacent(i: int, j: int)
    requires 0 <= i < 8 && 0 <= j < 8
  {
    Differences(UnitCorners[i], UnitCorners[j]) == 1
  }

  /** e and f join the same two corners, in either direction. */
  predicate SameEdge(e: (int, int), f: (int, int)) {
    e == f || (e.0 == f.1 && e.1 == f.0)
  }

  /** The pairs the edge loop hands to connect, in drawing order. */
  const CubeEdgeList: seq<(int, int)> := [
    (0, 1), (4, 5), (0, 4),
    (1, 2), (5, 6), (1, 5),
    (2, 3), (6, 7), (2, 6),
    (3, 0), (7, 4), (3, 7)]

  /** The edges of the cube: twelve index pairs of adjacent corners, no edge
      twice, and every edge of the cube present. */
  predicate IsCubeEdgeList(edges: seq<(int, int)>) {
    |edges| == 12 &&
    (forall n :: 0 <= n < |edges| ==>
       0 <= edges[n].0 < 8 && 0 <= edges[n].1 < 8 && Adjacent(edges[n].0, edges[n].1)) &&
    (forall m, n :: 0 <= m < n < |edges| ==> !SameEdge(edges[m], edges[n])) &&
    (forall i, j :: 0 <= i < 8 && 0 <= j < 8 && Adjacent(i, j) ==> (i, j) in edges || (j, i) in edges)
  }

  /** The edge loop: for i in 0..3 the front edge i -> (i+1)%4, the back edge
      i+4 -> (i+1)%4+4 and the connecting edge i -> i+4. */
  method Edges() returns (edges: seq<(int, int)>)
    ensures edges == CubeEdgeList
    ensures IsCubeEdgeList(edges)
  {
    edges := [];
    for i := 0 to 4
      invariant |edges| == 3 * i
      invariant forall n :: 0 <= n < |edges| ==> edges[n] == CubeEdgeList[n]
    {
      assert i == 0 || i == 1 || i == 2 || i == 3;
      edges := edges + [(i, (i + 1) % 4)];
      edges := edges + [(i + 4, ((i + 1) % 4) + 4)];
      edges := edges + [(i, i + 4)];
    }
    CubeEdgeListIsCube();
  }

  /** The program state: the eight cube points, updated in place, and the
      rotation matrix computed once at start-up. */
  class App {
    const points: array<Point>
    const rotation: Matrix

    predicate Valid() {
      points.Length == 8 && IsMatrix(rotation, 3, 3)
    }

    /** The global initialisers: the unit corners and getRotationMatrix(). */
    constructor (cos: real -> real, sin: real -> real)
      ensures Valid() && fresh(points)
      ensures points[..] == UnitCorners
      ensures rotation == RotationMatrix(cos, sin)
    {
      points := new Point[8](k requires 0 <= k < 8 => UnitCorners[k]);
      rotation := RotationMatrix(cos, sin);
    }

    /** The start-up scaling loop: each coordinate of each point becomes
        scale * coordinate + the matching coordinate of screenShift. */
    method Setup()
      requires Valid()
      modifies points
      ensures forall k :: 0 <= k < points.Length ==> points[k] == Place(old(points[k]))
    {
      for k := 0 to points.Length
        invariant forall t :: 0 <= t < k ==> points[t] == Place(old(points[t]))
        invariant forall t :: k <= t < points.Length ==> points[t] == old(points[t])
      {
        points[k] := points[k].(x := Scale as real * points[k].x + ScreenShift.x);
        points[k] := points[k].(y := Scale as real * points[k].y + ScreenShift.y);
        points[k] := points[k].(z := Scale as real * points[k].z + ScreenShift.z);
      }
    }

    /** One frame: every point shifted to the origin, rotated and shifted back
        in place, then the cube's edges enumerated for drawing. */
    method Iterate() returns (edges: seq<(int, int)>)
      requires Valid()
      modifies points
      ensures forall k :: 0 <= k < points.Length ==> points[k] == FrameStep(rotation, old(points[k]))
      ensures edges == CubeEdgeList && IsCubeEdgeList(edges)
    {
      for k := 0 to points.Length
        invariant forall t :: 0 <= t < k ==> points[t] == FrameStep(rotation, old(points[t]))
        invariant forall t :: k <= t < points.Length ==> points[t] == old(points[t])
      {
        points[k] := Translate(ScreenShiftOpposite, points[k]);
        points[k] := Transform(rotation, points[k]);
        points[k] := Translate(ScreenShift, points[k]);
      }
      edges := Edges();
    }
  }

  /** Start-up as both programs do it: the initial corners, then the scaling
      loop; every point ends at 200 * corner + (500, 500, 0). */
  method Start(cos: real -> real, sin: real -> real) returns (app: App)
    ensures app.Valid() && fresh(app.points)
    ensures app.rotation == RotationMatrix(cos, sin)
    ensures forall k :: 0 <= k < 8 ==> app.points[k] == Place(UnitCorners[k])
  {
    app := new App(cos, sin);
    app.Setup();
  }

  // ---------------------------------------------------------------------------
  // Lemmas
  // ---------------------------------------------------------------------------

  /** Multiplying by the identity on the left keeps the first k terms of an
      entry sum only where the row index is below k. */
  lemma {:induction false} EntrySumIdentityLeft(a: Matrix, i: nat, j: nat, k: nat)
    requires |a| > 0 && i < |a| && k <= |a|
    requires forall t :: 0 <= t < |a| ==> j < |a[t]|
    ensures EntrySum(Identity(|a|), a, i, j, k) == if i < k then a[i][j] else 0.0
  {
    if k > 0 {
      EntrySumIdentityLeft(a, i, j, k - 1);
    }
  }

  /** Multiplying by the identity on the right keeps the first k terms of an
      entry sum only where the column index is below k. */
  lemma {:induction false} EntrySumIdentityRight(a: Matrix, n: nat, i: nat, j: nat, k: nat)
    requires i < |a| && |a[i]| == n && j < n && k <= n
    ensures EntrySum(a, Identity(n), i, j, k) == if j < k then a[i][j] else 0.0
  {
    if k > 0 {
      EntrySumIdentityRight(a, n, i, j, k - 1);
    }
  }

  /** dot(Identity, a) == a for every non-empty rectangular a. */
  lemma ProductIdentityLeft(a: Matrix)
    requires |a| > 0 && forall i :: 0 <= i < |a| ==> |a[i]| == |a[0]|
    ensures Product(Identity(|a|), a) == a
  {
    var r := Product(Identity(|a|), a);
    forall i, j | 0 <= i < |a| && 0 <= j < |a[0]|
      ensures r[i][j] == a[i][j]
    {
      EntrySumIdentityLeft(a, i, j, |a|);
    }
    forall i | 0 <= i < |a|
      ensures r[i] == a[i]
    {
    }
  }

  /** dot(a, Identity) == a for every a whose rows all have n > 0 entries. */
  lemma ProductIdentityRight(a: Matrix, n: nat)
    requires n > 0 && forall i :: 0 <= i < |a| ==> |a[i]| == n
    ensures Product(a, Identity(n)) == a
  {
    var r := Product(a, Identity(n));
    forall i, j | 0 <= i < |a| && 0 <= j < n
      ensures r[i][j] == a[i][j]
    {
      EntrySumIdentityRight(a, n, i, j, n);
    }
    forall i | 0 <= i < |a|
      ensures r[i] == a[i]
    {
    }
  }

  /** The identity matrix leaves every point where it is. */
  lemma TransformIdentity(p: Point)
    ensures Transform(Identity(3), p) == p
  {
  }

  /** One row of a 3x3 product applied to a column equals the row applied
      to the column already transformed. */
  lemma RowReassociate(a0: real, a1: real, a2: real, b: Matrix, p: Point)
    requires IsMatrix(b, 3, 3)
    ensures (a0 * b[0][0] + a1 * b[1][0] + a2 * b[2][0]) * p.x
          + (a0 * b[0][1] + a1 * b[1][1] + a2 * b[2][1]) * p.y
          + (a0 * b[0][2] + a1 * b[1][2] + a2 * b[2][2]) * p.z
         == a0 * (b[0][0] * p.x + b[0][1] * p.y + b[0][2] * p.z)
          + a1 * (b[1][0] * p.x + b[1][1] * p.y + b[1][2] * p.z)
          + a2 * (b[2][0] * p.x + b[2][1] * p.y + b[2][2] * p.z)
  {
  }

  /** Rotating by a product of 3x3 matrices is rotating by each in turn. */
  lemma TransformProduct(a: Matrix, b: Matrix, p: Point)
    requires IsMatrix(a, 3, 3) && IsMatrix(b, 3, 3)
    ensures Transform(Product(a, b), p) == Transform(a, Transform(b, p))
  {
    var c := Product(a, b);
    forall i, j | 0 <= i < 3 && 0 <= j < 3
      ensures c[i][j] == a[i][0] * b[0][j] + a[i][1] * b[1][j] + a[i][2] * b[2][j]
    {
      EntrySum3(a, b, i, j);
    }
    RowReassociate(a[0][0], a[0][1], a[0][2], b, p);
    RowReassociate(a[1][0], a[1][1], a[1][2], b, p);
    RowReassociate(a[2][0], a[2][1], a[2][2], b, p);
  }

  /** translate is componentwise addition, so shifts compose by adding them. */
  lemma TranslateCompose(s: Point, t: Point, p: Point)
    ensures Translate(s, Translate(t, p)) == Translate(Translate(s, t), p)
  {
  }

  /** screenShiftOpposite is exactly the negation of screenShift. */
  lemma ShiftsOpposite()
    ensures ScreenShiftOpposite == Negate(ScreenShift)
    ensures ScreenShift == Point(500.0, 500.0, 0.0)
  {
  }

  /** Shifting to the origin and back, in either order, returns the point. */
  lemma TranslateRoundTrip(p: Point)
    ensures Translate(ScreenShift, Translate(ScreenShiftOpposite, p)) == p
    ensures Translate(ScreenShiftOpposite, Translate(ScreenShift, p)) == p
  {
  }

  /** When every cosine is 1 and every sine 0, the composed matrix is the identity. */
  lemma RotationMatrixAtZero(cos: real -> real, sin: real -> real)
    requires cos(Alpha) == 1.0 && cos(Beta) == 1.0 && cos(Gamma) == 1.0
    requires sin(Alpha) == 0.0 && sin(Beta) == 0.0 && sin(Gamma) == 0.0
    ensures RotationMatrix(cos, sin) == Identity(3)
  {
    ProductIdentityLeft(Identity(3));
  }

  /** Two 3x3 matrices that agree entry by entry are equal. */
  lemma Equal3(m: Matrix, n: Matrix)
    requires IsMatrix(m, 3, 3) && IsMatrix(n, 3, 3)
    requires m[0][0] == n[0][0] && m[0][1] == n[0][1] && m[0][2] == n[0][2]
    requires m[1][0] == n[1][0] && m[1][1] == n[1][1] && m[1][2] == n[1][2]
    requires m[2][0] == n[2][0] && m[2][1] == n[2][1] && m[2][2] == n[2][2]
    ensures m == n
  {
    assert m[0] == n[0];
    assert m[1] == n[1];
    assert m[2] == n[2];
  }

  /** The product of two 3x3 matrices written out entry by entry. */
  lemma Product3(a: Matrix, b: Matrix)
    requires IsMatrix(a, 3, 3) && IsMatrix(b, 3, 3)
    ensures Product(a, b) ==
         [
          [a[0][0] * b[0][0] + a[0][1] * b[1][0] + a[0][2] * b[2][0],
           a[0][0] * b[0][1] + a[0][1] * b[1][1] + a[0][2] * b[2][1],
           a[0][0] * b[0][2] + a[0][1] * b[1][2] + a[0][2] * b[2][2]],
          [a[1][0] * b[0][0] + a[1][1] * b[1][0] + a[1][2] * b[2][0],
           a[1][0] * b[0][1] + a[1][1] * b[1][1] + a[1][2] * b[2][1],
           a[1][0] * b[0][2] + a[1][1] * b[1][2] + a[1][2] * b[2][2]],
          [a[2][0] * b[0][0] + a[2][1] * b[1][0] + a[2][2] * b[2][0],
           a[2][0] * b[0][1] + a[2][1] * b[1][1] + a[2][2] * b[2][1],
           a[2][0] * b[0][2] + a[2][1] * b[1][2] + a[2][2] * b[2][2]]]
  {
    var c := Product(a, b);
    forall i, j | 0 <= i < 3 && 0 <= j < 3
      ensures c[i][j] == a[i][0] * b[0][j] + a[i][1] * b[1][j] + a[i][2] * b[2][j]
    {
      EntrySum3(a, b, i, j);
    }
    assert c[0][0] == a[0][0] * b[0][0] + a[0][1] * b[1][0] + a[0][2] * b[2][0];
    assert c[0][1] == a[0][0] * b[0][1] + a[0][1] * b[1][1] + a[0][2] * b[2][1];
    assert c[0][2] == a[0][0] * b[0][2] + a[0][1] * b[1][2] + a[0][2] * b[2][2];
    assert c[1][0] == a[1][0] * b[0][0] + a[1][1] * b[1][0] + a[1][2] * b[2][0];
    assert c[1][1] == a[1][0] * b[0][1] + a[1][1] * b[1][1] + a[1][2] * b[2][1];
    assert c[1][2] == a[1][0] * b[0][2] + a[1][1] * b[1][2] + a[1][2] * b[2][2];
    assert c[2][0] == a[2][0] * b[0][0] + a[2][1] * b[1][0] + a[2][2] * b[2][0];
    assert c[2][1] == a[2][0] * b[0][1] + a[2][1] * b[1][1] + a[2][2] * b[2][1];
    assert c[2][2] == a[2][0] * b[0][2] + a[2][1] * b[1][2] + a[2][2] * b[2][2];
    assert c[0] == [a[0][0] * b[0][0] + a[0][1] * b[1][0] + a[0][2] * b[2][0],
                     a[0][0] * b[0][1] + a[0][1] * b[1][1] + a[0][2] * b[2][1],
                     a[0][0] * b[0][2] + a[0][1] * b[1][2] + a[0][2] * b[2][2]];
    assert c[1] == [a[1][0] * b[0][0] + a[1][1] * b[1][0] + a[1][2] * b[2][0],
                     a[1][0] * b[0][1] + a[1][1] * b[1][1] + a[1][2] * b[2][1],
                     a[1][0] * b[0][2] + a[1][1] * b[1][2] + a[1][2] * b[2][2]];
    assert c[2] == [a[2][0] * b[0][0] + a[2][1] * b[1][0] + a[2][2] * b[2][0],
                     a[2][0] * b[0][1] + a[2][1] * b[1][1] + a[2][2] * b[2][1],
                     a[2][0] * b[0][2] + a[2][1] * b[1][2] + a[2][2] * b[2][2]];
    assert c == [c[0], c[1], c[2]];
  }

  /** Ry * Rx written out. */
  lemma RotationYX(ca: real, sa: real, cb: real, sb: real)
    ensures Product(RotationY(cb, sb), RotationX(ca, sa))
         == [[cb, sb * sa, sb * ca], [0.0, ca, -sa], [-sb, cb * sa, cb * ca]]
  {
    Product3(RotationY(cb, sb), RotationX(ca, sa));
    Equal3(Product(RotationY(cb, sb), RotationX(ca, sa)),
           [[cb, sb * sa, sb * ca], [0.0, ca, -sa], [-sb, cb * sa, cb * ca]]);
  }

  /** Rz * (Ry * Rx) written out. */
  lemma RotationZYX(ca: real, sa: real, cb: real, sb: real, cg: real, sg: real)
    ensures Product(RotationZ(cg, sg), Product(RotationY(cb, sb), RotationX(ca, sa)))
         == [[cg * cb, cg * sb * sa - sg * ca, cg * sb * ca + sg * sa],
             [sg * cb, sg * sb * sa + cg * ca, sg * sb * ca - cg * sa],
             [-sb, cb * sa, cb * ca]]
  {
    var yx := [[cb, sb * sa, sb * ca], [0.0, ca, -sa], [-sb, cb * sa, cb * ca]];
    RotationYX(ca, sa, cb, sb);
    Product3(RotationZ(cg, sg), yx);
    Equal3(Product(RotationZ(cg, sg), yx),
           [[cg * cb, cg * sb * sa - sg * ca, cg * sb * ca + sg * sa],
            [sg * cb, sg * sb * sa + cg * ca, sg * sb * ca - cg * sa],
            [-sb, cb * sa, cb * ca]]);
  }

  /** The entries of the matrix getRotationMatrix returns, with ca, sa the
      cosine and sine of alpha and so on. */
  lemma RotationMatrixEntries(cos: real -> real, sin: real -> real)
    ensures var ca, sa, cb, sb, cg, sg := cos(Alpha), sin(Alpha), cos(Beta), sin(Beta), cos(Gamma), sin(Gamma);
      RotationMatrix(cos, sin)
        == [[cg * cb, cg * sb * sa - sg * ca, cg * sb * ca + sg * sa],
            [sg * cb, sg * sb * sa + cg * ca, sg * sb * ca - cg * sa],
            [-sb, cb * sa, cb * ca]]
  {
    RotationZYX(cos(Alpha), sin(Alpha), cos(Beta), sin(Beta), cos(Gamma), sin(Gamma));
  }

  /** The screen centre is the fixed point of the per-frame update. */
  lemma FrameStepFixesCentre(rotation: Matrix)
    requires Rotates(rotation)
    ensures FrameStep(rotation, ScreenShift) == ScreenShift
  {
  }

  /** With the identity rotation a frame leaves every point unchanged. */
  lemma FrameStepIdentity(p: Point)
    ensures FrameStep(Identity(3), p) == p
  {
  }

  /** One more frame after rotating the offset by m rotates it by rotation * m. */
  lemma FrameStepAfter(rotation: Matrix, m: Matrix, q: Point)
    requires IsMatrix(rotation, 3, 3) && IsMatrix(m, 3, 3)
    ensures FrameStep(rotation, Translate(ScreenShift, Transform(m, q)))
         == Translate(ScreenShift, Transform(Product(rotation, m), q))
  {
    TranslateRoundTrip(Transform(m, q));
    TransformProduct(rotation, m, q);
  }

  /** n frames rotate the offset from the centre by the n-th power of the matrix. */
  lemma {:induction false} FramesArePower(rotation: Matrix, n: nat, p: Point)
    requires IsMatrix(rotation, 3, 3)
    ensures Frames(rotation, n, p)
         == Translate(ScreenShift, Transform(Power(rotation, n), Translate(ScreenShiftOpposite, p)))
  {
    var q := Translate(ScreenShiftOpposite, p);
    if n == 0 {
      TransformIdentity(q);
      TranslateRoundTrip(p);
    } else {
      FramesArePower(rotation, n - 1, p);
      FrameStepAfter(rotation, Power(rotation, n - 1), q);
    }
  }

  /** The corner list after set-up; (-1, 1, 1) goes to (300, 700, 200). */
  lemma PlacedCorners()
    ensures Place(UnitCorners[0]) == Point(300.0, 700.0, 200.0)
    ensures Place(UnitCorners[6]) == Point(700.0, 300.0, -200.0)
  {
  }

  /** The indices 0..11. */
  lemma Below12(n: int)
    requires 0 <= n < 12
    ensures n == 0 || n == 1 || n == 2 || n == 3 || n == 4 || n == 5
         || n == 6 || n == 7 || n == 8 || n == 9 || n == 10 || n == 11
  {
  }

  /** The indices 0..7. */
  lemma Below8(n: int)
    requires 0 <= n < 8
    ensures n == 0 || n == 1 || n == 2 || n == 3 || n == 4 || n == 5 || n == 6 || n == 7
  {
  }

  /** The pairs the edge loop emits are exactly the twelve edges of the cube. */
  lemma CubeEdgeListIsCube()
    ensures IsCubeEdgeList(CubeEdgeList)
  {
    var e := CubeEdgeList;
    forall n | 0 <= n < |e|
      ensures 0 <= e[n].0 < 8 && 0 <= e[n].1 < 8 && Adjacent(e[n].0, e[n].1)
    {
      Below12(n);
    }
    forall m, n | 0 <= m < n < |e|
      ensures !SameEdge(e[m], e[n])
    {
      Below12(m);
      Below12(n);
    }
    forall i, j | 0 <= i < 8 && 0 <= j < 8 && Adjacent(i, j)
      ensures (i, j) in e || (j, i) in e
    {
      Below8(i);
      Below8(j);
    }
  }
}
