/**
  The vertex layout of MetalCircle's AudioVisualizer: createVertexPoints
  walks the circle in half-degree steps, appending one perimeter point per
  step and the origin after every odd step, so that consecutive triplets form
  the triangle strip that the draw call renders with a hard-coded count of
  1081 vertices.

  cos and sin are not modelled: a perimeter vertex records the angle, in
  degrees, whose cosine and sine are its coordinates.
*/
module AudioVisualizer {

  /** One simd_float2 of circleVertices. */
  datatype Vertex =
    | Perimeter(degrees: real)   // (cos d, sin d) for d degrees
    | Origin                     // simd_float2(0, 0)

  /** `for i in 0...720`: the number of perimeter points. */
  const PerimeterSteps: nat := 721
  /** The vertexCount of drawPrimitives. */
  const DrawVertexCount: nat := 1081
  /** MemoryLayout<simd_float2>.stride in bytes. */
  const VertexStride: nat := 8

  /** The angle of perimeter step i: Float(i)/2.0 degrees. */
  function StepAngle(i: nat): real
  {
    i as real / 2.0
  }

  /** What the first n iterations of createVertexPoints' loop append. */
  function Layout(n: nat): seq<Vertex>
  {
    if n == 0 then []
    else
      var i := n - 1;
      Layout(i) + [Perimeter(StepAngle(i))] + (if (i + 1) % 2 == 0 then [Origin] else [])
  }

  /** Closed form of the layout: every third vertex, starting at index 2, is
      the origin; the others are perimeter steps 2*(k/3) and 2*(k/3)+1. */
  function VertexAt(k: nat): Vertex
  {
    if k % 3 == 2 then Origin else Perimeter(StepAngle(2 * (k / 3) + k % 3))
  }

  /** VertexAt on the three positions of step pair m. */
  lemma VertexAtTriplet(m: nat)
    ensures VertexAt(3 * m) == Perimeter(StepAngle(2 * m))
    ensures VertexAt(3 * m + 1) == Perimeter(StepAngle(2 * m + 1))
    ensures VertexAt(3 * m + 2) == Origin
  {
    assert (3 * m) % 3 == 0 && (3 * m) / 3 == m;
    assert (3 * m + 1) % 3 == 1 && (3 * m + 1) / 3 == m;
    assert (3 * m + 2) % 3 == 2;
  }

  /** The layout after n steps has n + n/2 vertices and agrees with VertexAt
      at every index. */
  lemma {:induction false} LayoutShape(n: nat)
    ensures |Layout(n)| == n + n / 2
    ensures forall k :: 0 <= k < |Layout(n)| ==> Layout(n)[k] == VertexAt(k)
  {
    if n > 0 {
      var i := n - 1;
      LayoutShape(i);
      var prefix := Layout(i);
      var m := i / 2;
      VertexAtTriplet(m);
      if i % 2 == 0 {
        assert i == 2 * m && |prefix| == 3 * m;
        assert Layout(n) == prefix + [Perimeter(StepAngle(i))];
        assert n / 2 == m;
      } else {
        assert i == 2 * m + 1 && |prefix| == 3 * m + 1;
        assert Layout(n) == prefix + [Perimeter(StepAngle(i))] + [Origin];
        assert n / 2 == m + 1;
      }
      forall k | 0 <= k < |Layout(n)|
        ensures Layout(n)[k] == VertexAt(k)
      {
        if k < |prefix| {
          assert Layout(n)[k] == prefix[k];
        }
      }
    }
  }

  /** Perimeter step i sits at index i + i/2. */
  lemma PerimeterIndex(n: nat, i: nat)
    requires i < n
    ensures i + i / 2 < |Layout(n)|
    ensures Layout(n)[i + i / 2] == Perimeter(StepAngle(i))
  {
    LayoutShape(n);
    var m := i / 2;
    if i % 2 == 0 {
      assert i + i / 2 == 3 * m;
    } else {
      assert i + i / 2 == 3 * m + 1;
    }
  }

  /** The vertex right after perimeter step i is the origin exactly when i is
      odd. */
  lemma OriginFollowsOddSteps(n: nat, i: nat)
    requires i < n
    ensures i % 2 == 1 <==> (i + i / 2 + 1 < |Layout(n)| && Layout(n)[i + i / 2 + 1] == Origin)
  {
    LayoutShape(n);
    var m := i / 2;
    if i % 2 == 0 {
      assert i + i / 2 + 1 == 3 * m + 1;
    } else {
      assert i + i / 2 + 1 == 3 * m + 2;
    }
  }

  /** No two origins are adjacent. */
  lemma NoAdjacentOrigins(n: nat)
    ensures forall k :: 0 <= k && k + 1 < |Layout(n)| ==> !(Layout(n)[k] == Origin && Layout(n)[k + 1] == Origin)
  {
    LayoutShape(n);
  }

  /** The number of origins in a vertex sequence. */
  function Origins(s: seq<Vertex>): nat
  {
    if s == [] then 0 else (if s[0] == Origin then 1 else 0) + Origins(s[1..])
  }

  lemma {:induction false} OriginsAppend(a: seq<Vertex>, b: seq<Vertex>)
    ensures Origins(a + b) == Origins(a) + Origins(b)
  {
    if a == [] {
      assert a + b == b;
    } else {
      assert (a + b)[0] == a[0];
      assert (a + b)[1..] == a[1..] + b;
      OriginsAppend(a[1..], b);
    }
  }

  /** n steps append n/2 origins, one per odd step. */
  lemma {:induction false} LayoutOrigins(n: nat)
    ensures Origins(Layout(n)) == n / 2
  {
    if n > 0 {
      var i := n - 1;
      LayoutOrigins(i);
      var tail: seq<Vertex> := [Perimeter(StepAngle(i))] + (if (i + 1) % 2 == 0 then [Origin] else []);
      assert Layout(n) == Layout(i) + tail;
      OriginsAppend(Layout(i), tail);
      assert tail[0] == Perimeter(StepAngle(i));
      assert tail[1..] == (if (i + 1) % 2 == 0 then [Origin] else []);
      if (i + 1) % 2 == 0 {
        assert Origins(tail[1..]) == 1 && n / 2 == i / 2 + 1;
      } else {
        assert Origins(tail[1..]) == 0 && n / 2 == i / 2;
      }
    }
  }

  /** The full loop: 1081 vertices, the count drawn; 721 perimeter steps and
      360 origins; the first vertex is the point at 0 degrees and the last the
      point at 360 degrees, not an origin. */
  lemma FullCircle()
    ensures |Layout(PerimeterSteps)| == DrawVertexCount
    ensures Origins(Layout(PerimeterSteps)) == 360
    ensures Layout(PerimeterSteps)[0] == Perimeter(0.0)
    ensures Layout(PerimeterSteps)[DrawVertexCount - 1] == Perimeter(360.0)
    ensures forall k :: 0 <= k < DrawVertexCount && Layout(PerimeterSteps)[k].Perimeter? ==>
              0.0 <= Layout(PerimeterSteps)[k].degrees <= 360.0
  {
    LayoutShape(PerimeterSteps);
    LayoutOrigins(PerimeterSteps);
    assert VertexAt(1080) == Perimeter(StepAngle(720));
    forall k | 0 <= k < DrawVertexCount && Layout(PerimeterSteps)[k].Perimeter?
      ensures 0.0 <= Layout(PerimeterSteps)[k].degrees <= 360.0
    {
      var step := 2 * (k / 3) + k % 3;
      assert k / 3 < 360 || k == 1080;
      assert step <= 720;
      assert Layout(PerimeterSteps)[k] == Perimeter(StepAngle(step));
    }
  }

  /** The renderer's circle: the vertices appended by createVertexPoints and
      the byte length of the Metal buffer built from them. */
  class AudioVisualizer {
    var circleVertices: seq<Vertex>
    var vertexBufferLength: nat

    /** The state init leaves behind: the whole layout in the array and a
        buffer of exactly its size. */
    ghost predicate Valid()
      reads this
    {
      circleVertices == Layout(PerimeterSteps) &&
      vertexBufferLength == |circleVertices| * VertexStride
    }

    /** init: start from the empty array, append the layout, then copy
        circleVertices.count * stride bytes into the vertex buffer. */
    constructor ()
      ensures Valid()
      ensures |circleVertices| == DrawVertexCount
    {
      circleVertices := [];
      vertexBufferLength := 0;
      new;
      CreateVertexPoints();
      vertexBufferLength := |circleVertices| * VertexStride;
      FullCircle();
    }

    /** createVertexPoints: only appends; what was already there stays. It is
        init's private helper: called once on the empty array it builds the
        layout, and a further call would double it and not preserve Valid(). */
    method CreateVertexPoints()
      modifies this`circleVertices
      ensures circleVertices == old(circleVertices) + Layout(PerimeterSteps)
    {
      for i := 0 to PerimeterSteps
        invariant circleVertices == old(circleVertices) + Layout(i)
      {
        circleVertices := circleVertices + [Perimeter(StepAngle(i))];
        if (i + 1) % 2 == 0 {
          circleVertices := circleVertices + [Origin];
        }
      }
    }

    /** The vertices draw renders: vertexStart 0 and vertexCount 1081 cover
        the whole buffer, and not a byte beyond it. */
    function DrawnVertices(): (drawn: seq<Vertex>)
      reads this
      requires Valid()
      ensures drawn == circleVertices
      ensures DrawVertexCount * VertexStride == vertexBufferLength
    {
      FullCircle();
      circleVertices[..DrawVertexCount]
    }
  }
}
