/** `PointCloudVisualizer.createVertices`: a `Float32Array` of
    `width * height * 3` zeros in which vertex j gets x = j % width and
    y = floor(j / width), so the vertices enumerate the grid row by row. */
module PointCloudVisualizer {

  /** Component k of the vertex buffer: x, y or z of vertex k / 3. */
  function GridValue(width: nat, k: int): int
  {
    if width == 0 || k < 0 then 0
    else if k % 3 == 0 then (k / 3) % width
    else if k % 3 == 1 then (k / 3) / width
    else 0
  }

  /** The whole buffer the loop produces. */
  function Grid(width: nat, height: nat): seq<int>
  {
    seq(width * height * 3, k => GridValue(width, k))
  }

  /** The attribute's `count`. */
  function AttributeCount(width: nat, height: nat): (n: nat)
    ensures n * 3 == |Grid(width, height)|
  {
    width * height
  }

  /** The `Float32Array` is zero-filled; the loop writes x and y of vertex j at
      3j and 3j + 1 and never touches 3j + 2. */
  method CreateVertices(width: nat, height: nat) returns (vertices: array<int>)
    ensures vertices.Length == width * height * 3
    ensures vertices[..] == Grid(width, height)
  {
    var n := width * height;
    vertices := new int[n * 3](_ => 0);
    var i, j := 0, 0;
    while i < vertices.Length
      invariant i == 3 * j && 0 <= j <= n
      invariant forall k :: 0 <= k < i ==> vertices[k] == GridValue(width, k)
      invariant forall k :: i <= k < vertices.Length ==> vertices[k] == 0
    {
      GridValueAt(width, j);
      vertices[i] := j % width;
      vertices[i + 1] := j / width;
      i, j := i + 3, j + 1;
    }
    assert vertices[..] == Grid(width, height) by {
      forall k | 0 <= k < vertices.Length
        ensures vertices[..][k] == Grid(width, height)[k]
      {
      }
    }
  }

  /** The three components of vertex j, read off the component formula. */
  lemma GridValueAt(width: nat, j: nat)
    requires width > 0
    ensures GridValue(width, 3 * j) == j % width
    ensures GridValue(width, 3 * j + 1) == j / width
    ensures GridValue(width, 3 * j + 2) == 0
  {
    assert (3 * j) / 3 == j && (3 * j) % 3 == 0;
    assert (3 * j + 1) / 3 == j && (3 * j + 1) % 3 == 1;
    assert (3 * j + 2) % 3 == 2;
  }

  /** Quotient and remainder are unique. */
  lemma DivModUnique(a: nat, w: nat, q: nat, r: nat)
    requires w > 0 && r < w && a == q * w + r
    ensures a / w == q && a % w == r
  {
    var q', r' := a / w, a % w;
    assert q' * w + r' == q * w + r;
    if q' > q {
      assert q' * w >= (q + 1) * w by { MulMonotone(q + 1, q', w); }
    } else if q' < q {
      assert q * w >= (q' + 1) * w by { MulMonotone(q' + 1, q, w); }
    }
  }

  lemma MulMonotone(a: nat, b: nat, w: nat)
    requires a <= b
    ensures a * w <= b * w
  {
  }

  /** Vertex j of the buffer is (j % width, j / width, 0), and its row lies on the grid. */
  lemma {:induction false} GridVertex(width: nat, height: nat, j: nat)
    requires j < width * height
    ensures width > 0 && 3 * j + 2 < |Grid(width, height)|
    ensures Grid(width, height)[3 * j] == j % width
    ensures Grid(width, height)[3 * j + 1] == j / width
    ensures Grid(width, height)[3 * j + 2] == 0
    ensures j / width < height
  {
    var g := Grid(width, height);
    assert g[3 * j] == GridValue(width, 3 * j);
    assert g[3 * j + 1] == GridValue(width, 3 * j + 1);
    assert g[3 * j + 2] == GridValue(width, 3 * j + 2);
    if j / width >= height {
      MulMonotone(height, j / width, width);
      assert false;
    }
  }

  /** Every grid cell (x, y) is the vertex of exactly one index j < width * height. */
  lemma GridCoversEachCellOnce(width: nat, height: nat, x: nat, y: nat)
    requires x < width && y < height
    ensures var j := y * width + x;
      j < width * height && Grid(width, height)[3 * j] == x && Grid(width, height)[3 * j + 1] == y
    ensures forall j' :: 0 <= j' < width * height && j' % width == x && j' / width == y ==>
      j' == y * width + x
  {
    var j := y * width + x;
    MulMonotone(y + 1, height, width);
    assert j < width * height;
    DivModUnique(j, width, y, x);
    GridVertex(width, height, j);
    forall j' | 0 <= j' < width * height && j' % width == x && j' / width == y
      ensures j' == y * width + x
    {
      assert j' == (j' / width) * width + j' % width;
    }
  }
}
