/**
 * The integer side of the tori demo base class (GLToriDemo.h): the scaled
 * framebuffer extent, and the grid walk of `renderTori` that lays out and
 * draws the tori one by one.
 *
 * `renderTori` derives the grid width `numX` and a first row estimate from
 * the window aspect ratio with `ceil(sqrt(...))` in floating point; the model
 * takes both as given naturals and keeps everything that follows them.
 */
module ToriDemo {
  import opened Gl

  /* ---------------------------------------------------------------------
   * Framebuffer scaling
   * --------------------------------------------------------------------- */

  /**
   * `getFramebufferWidth` / `getFramebufferHeight`: the window extent divided
   * by the framebuffer scaling, rounded up, as `(winSize + scaling - 1) / scaling`.
   * The scaling is 1 initially and the user interface keeps it in 1..16.
   */
  function FramebufferExtent(winSize: nat, scaling: int): (r: nat)
    requires scaling >= 1
    ensures r * scaling >= winSize
    ensures (r - 1) * scaling < winSize || r == 0
    ensures scaling == 1 ==> r == winSize
  {
    var n := winSize + scaling - 1;
    var q := n / scaling;
    DivBounds(n, scaling);
    q
  }

  /** The quotient of Euclidean division brackets its dividend. */
  lemma DivBounds(n: nat, d: int)
    requires d >= 1
    ensures (n / d) * d <= n < (n / d) * d + d
  {
    var q, r := n / d, n % d;
    assert n == q * d + r;
  }

  /** An extent no larger than the window, and at least 1 for a non-empty window. */
  lemma FramebufferExtentBounds(winSize: nat, scaling: int)
    requires scaling >= 1
    ensures FramebufferExtent(winSize, scaling) <= winSize
    ensures winSize > 0 ==> FramebufferExtent(winSize, scaling) >= 1
  {
    var r := FramebufferExtent(winSize, scaling);
    if r >= 1 {
      MulMonotone(1, scaling, r - 1);
    }
  }

  /* ---------------------------------------------------------------------
   * The torus grid
   * --------------------------------------------------------------------- */

  const LightBlue: Rgb := Rgb(0.0, 0.7, 1.0)
  const Green: Rgb := Rgb(0.0, 1.0, 0.0)

  /** Every fifth torus (index 4 modulo 5) is green, the others light blue. */
  function TorusColor(index: nat): Rgb
  {
    if index % 5 == 4 then Green else LightBlue
  }

  /** Tori in even columns are rotated by +45 degrees about X, those in odd columns by -45. */
  function RotationDegrees(column: nat): int
  {
    if column % 2 == 1 then -45 else 45
  }

  /** The rows of the grid: the estimate, plus one when `numX` columns of it cannot hold every torus. */
  function GridRows(numberOfTori: nat, numX: nat, numYEstimate: nat): nat
  {
    if numX * numYEstimate < numberOfTori then numYEstimate + 1 else numYEstimate
  }

  /** How many tori are drawn: all of them, unless the grid has fewer cells. */
  function ToriDrawn(numberOfTori: nat, numX: nat, numYEstimate: nat): nat
  {
    Min(numberOfTori, numX * GridRows(numberOfTori, numX, numYEstimate))
  }

  function Min(a: nat, b: nat): nat
  {
    if a <= b then a else b
  }

  /** The four commands for torus `index` in a grid of `numX` columns: row-major position, colour, upload, draw. */
  function TorusOps(index: nat, numX: nat, primitive: Primitive): seq<GlOp>
    requires numX > 0
  {
    var column := index % numX;
    [ SetModelMatrix(index / numX, column, RotationDegrees(column)),
      SetObjectColor(TorusColor(index)),
      UpdateObjectUniforms,
      DrawTorus(primitive) ]
  }

  /** The commands for tori 0 .. count-1, in increasing order. */
  function TorusSequence(count: nat, numX: nat, primitive: Primitive): seq<GlOp>
    requires numX > 0 || count == 0
  {
    if count == 0 then [] else TorusSequence(count - 1, numX, primitive) + TorusOps(count - 1, numX, primitive)
  }

  /** Everything `renderTori` issues: the buffer state around the tori it draws. */
  function RenderToriOps(numberOfTori: nat, primitive: Primitive, numX: nat, numYEstimate: nat): seq<GlOp>
  {
    [SetBufferState] + TorusSequence(ToriDrawn(numberOfTori, numX, numYEstimate), numX, primitive) + [UnsetBufferState]
  }

  /**
   * `renderTori`, without its floating-point placement: set the buffer state,
   * walk the grid row by row while tori remain, issue the commands of each
   * torus, and unset the buffer state.
   */
  method RenderTori(numberOfTori: nat, primitive: Primitive, numX: nat, numYEstimate: nat) returns (ops: seq<GlOp>)
    ensures ops == RenderToriOps(numberOfTori, primitive, numX, numYEstimate)
  {
    ops := [SetBufferState];
    var numY := numYEstimate;
    if numX * numY < numberOfTori {
      numY := numY + 1;
    }
    var torusIndex := 0;
    var i := 0;
    while i < numY && torusIndex < numberOfTori
      invariant i <= numY
      invariant torusIndex == Min(i * numX, numberOfTori)
      invariant numX > 0 || torusIndex == 0
      invariant ops == [SetBufferState] + TorusSequence(torusIndex, numX, primitive)
    {
      var j := 0;
      while j < numX && torusIndex < numberOfTori
        invariant j <= numX
        invariant torusIndex == i * numX + j <= numberOfTori
        invariant numX > 0 || torusIndex == 0
        invariant ops == [SetBufferState] + TorusSequence(torusIndex, numX, primitive)
      {
        var rotation := if j % 2 == 1 then -45 else 45;
        var color := if torusIndex % 5 == 4 then Green else LightBlue;
        var torus := [SetModelMatrix(i, j, rotation), SetObjectColor(color), UpdateObjectUniforms, DrawTorus(primitive)];
        NextTorus(torusIndex, i, j, numX, primitive);
        AppendAssoc([SetBufferState], TorusSequence(torusIndex, numX, primitive), torus);
        ops := ops + torus;
        torusIndex := torusIndex + 1;
        j := j + 1;
      }
      RowFinished(i, j, numX, torusIndex, numberOfTori);
      i := i + 1;
    }
    GridFinished(i, numY, numX, torusIndex, numberOfTori);
    ops := ops + [UnsetBufferState];
  }

  /** The torus at cell (row, column) extends the sequence by the commands the grid walk issues there. */
  lemma NextTorus(index: nat, row: nat, column: nat, numX: nat, primitive: Primitive)
    requires column < numX && index == row * numX + column
    ensures TorusSequence(index + 1, numX, primitive) == TorusSequence(index, numX, primitive) +
      [SetModelMatrix(row, column, RotationDegrees(column)), SetObjectColor(TorusColor(index)), UpdateObjectUniforms, DrawTorus(primitive)]
  {
    RowMajor(row, column, numX);
  }

  /** After a row of the walk, the index has reached the end of that row or the last torus. */
  lemma RowFinished(row: nat, column: nat, numX: nat, index: nat, n: nat)
    requires column <= numX && index == row * numX + column <= n
    requires column == numX || index >= n
    ensures index == Min((row + 1) * numX, n)
  {
    assert (row + 1) * numX == row * numX + numX;
  }

  /** When the walk stops, it has visited every cell of the grid or every torus. */
  lemma GridFinished(rows: nat, numY: nat, numX: nat, index: nat, n: nat)
    requires rows <= numY && index == Min(rows * numX, n)
    requires rows == numY || index >= n
    ensures index == Min(n, numX * numY)
  {
    MulMonotone(rows, numY, numX);
    assert numY * numX == numX * numY;
  }

  /** Cell (row, column) of a grid `numX` wide holds torus `row * numX + column`. */
  lemma RowMajor(row: nat, column: nat, numX: nat)
    requires column < numX
    ensures (row * numX + column) / numX == row
    ensures (row * numX + column) % numX == column
  {
    var k := row * numX + column;
    var q, r := k / numX, k % numX;
    assert k == q * numX + r && 0 <= r < numX;
    LessMeansRowBelow(q, row, numX);
    LessMeansRowBelow(row, q, numX);
  }

  /** One more row of `c` cells. */
  lemma MulSucc(a: nat, b: nat, c: nat)
    requires b == a + 1
    ensures a * c + c == b * c
  {
  }

  lemma MulMonotone(a: nat, b: nat, c: nat)
    requires a <= b
    ensures a * c <= b * c
  {
  }

  /** A lower row ends no later than a higher row starts. */
  lemma LessMeansRowBelow(a: nat, b: nat, d: nat)
    ensures a < b ==> a * d + d <= b * d
  {
    if a < b {
      MulMonotone(a + 1, b, d);
    }
  }

  /** Torus sequences of `count` tori hold four commands per torus. */
  lemma {:induction false} TorusSequenceLength(count: nat, numX: nat, primitive: Primitive)
    requires numX > 0
    ensures |TorusSequence(count, numX, primitive)| == 4 * count
  {
    if count > 0 {
      TorusSequenceLength(count - 1, numX, primitive);
    }
  }

  /**
   * Torus k is drawn at the k-th place of the sequence: at row k / numX and
   * column k % numX, in its colour, uploaded before it is drawn.
   */
  lemma {:induction false} TorusSequenceAt(count: nat, numX: nat, primitive: Primitive, k: nat)
    requires numX > 0 && k < count
    ensures |TorusSequence(count, numX, primitive)| == 4 * count
    ensures TorusSequence(count, numX, primitive)[4 * k .. 4 * k + 4] == TorusOps(k, numX, primitive)
  {
    TorusSequenceLength(count, numX, primitive);
    TorusSequenceLength(count - 1, numX, primitive);
    var prefix := TorusSequence(count - 1, numX, primitive);
    if k < count - 1 {
      TorusSequenceAt(count - 1, numX, primitive, k);
      SliceOfFirst(prefix, TorusOps(count - 1, numX, primitive), 4 * k, 4 * k + 4);
    } else {
      assert TorusSequence(count, numX, primitive)[4 * k ..] == TorusOps(k, numX, primitive);
    }
  }

  /** The bump fills the grid when the estimate was short by at most a row, and never adds a row that is not needed. */
  lemma GridRowsBump(numberOfTori: nat, numX: nat, numYEstimate: nat)
    ensures GridRows(numberOfTori, numX, numYEstimate) == numYEstimate <==> numX * numYEstimate >= numberOfTori
    ensures GridRows(numberOfTori, numX, numYEstimate) == numYEstimate + 1 <==> numX * numYEstimate < numberOfTori
    ensures numX * (numYEstimate + 1) >= numberOfTori ==> numX * GridRows(numberOfTori, numX, numYEstimate) >= numberOfTori
  {
  }

  /** At most `numberOfTori` tori are drawn, and exactly that many when the grid has enough cells. */
  lemma ToriDrawnCount(numberOfTori: nat, numX: nat, numYEstimate: nat)
    ensures ToriDrawn(numberOfTori, numX, numYEstimate) <= numberOfTori
    ensures ToriDrawn(numberOfTori, numX, numYEstimate) == numberOfTori <==>
      numX * GridRows(numberOfTori, numX, numYEstimate) >= numberOfTori
  {
  }

  /** `renderTori` issues one draw per torus drawn, all with the requested primitive. */
  lemma {:induction false} DrawsPerTorus(count: nat, numX: nat, primitive: Primitive)
    requires numX > 0
    ensures Count(TorusSequence(count, numX, primitive), DrawTorus(primitive)) == count
  {
    if count > 0 {
      DrawsPerTorus(count - 1, numX, primitive);
      var ops := TorusOps(count - 1, numX, primitive);
      var x := DrawTorus(primitive);
      CountFour(ops[0], ops[1], ops[2], ops[3], x);
      assert ops == [ops[0], ops[1], ops[2], ops[3]];
      CountAppend(TorusSequence(count - 1, numX, primitive), ops, x);
    }
  }

  /** No draw in `renderTori` uses any primitive but the requested one. */
  lemma {:induction false} DrawsUseOnePrimitive(count: nat, numX: nat, primitive: Primitive, other: Primitive)
    requires numX > 0 && other != primitive
    ensures DrawTorus(other) !in TorusSequence(count, numX, primitive)
  {
    if count > 0 {
      DrawsUseOnePrimitive(count - 1, numX, primitive, other);
    }
  }
}
