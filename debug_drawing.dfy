/** The line data that the debug-lines pass consumes: the line primitive, the
    per-entity component that owns a list of lines, and the global pool that
    arbitrary code submits lines to and that the pass drains every frame. */
module DebugDrawing {

  datatype Point = Point(x: real, y: real, z: real)

  datatype Color = Color(r: real, g: real, b: real, a: real)

  /** One debug line segment: two endpoints, each with its own color. */
  datatype Line = Line(start: Point, startColor: Color, end: Point, endColor: Color)

  /** A component attached to one entity, owning the lines drawn for it. */
  datatype DebugLinesComponent = DebugLinesComponent(lines: seq<Line>)

  /** All the components' lines, one component after the other, in the given order. */
  function Concat(components: seq<DebugLinesComponent>): seq<Line>
    decreases |components|
  {
    if components == [] then [] else components[0].lines + Concat(components[1..])
  }

  /** Collecting two runs of components is collecting each and joining the results. */
  lemma {:induction false} ConcatAppend(a: seq<DebugLinesComponent>, b: seq<DebugLinesComponent>)
    ensures Concat(a + b) == Concat(a) + Concat(b)
    decreases |a|
  {
    if a == [] {
      assert a + b == b;
    } else {
      assert (a + b)[0] == a[0];
      assert (a + b)[1..] == a[1..] + b;
      ConcatAppend(a[1..], b);
    }
  }

  /** Every line of component `k` sits in the collected sequence, at the offset
      given by the lines of the components before it. */
  lemma {:induction false} ConcatPlacesComponent(components: seq<DebugLinesComponent>, k: nat)
    requires k < |components|
    ensures Concat(components) ==
            Concat(components[..k]) + components[k].lines + Concat(components[k + 1..])
  {
    assert components == components[..k] + ([components[k]] + components[k + 1..]);
    ConcatAppend(components[..k], [components[k]] + components[k + 1..]);
    assert ([components[k]] + components[k + 1..])[1..] == components[k + 1..];
  }

  /** The process-wide pool of lines submitted for drawing. */
  class DebugLines {
    var lines: seq<Line>

    constructor (lines: seq<Line>)
      ensures this.lines == lines
    {
      this.lines := lines;
    }

    /** Removes and returns every queued line, oldest first. */
    method Drain() returns (drained: seq<Line>)
      modifies this
      ensures drained == old(lines)
      ensures lines == []
    {
      drained := lines;
      lines := [];
    }
  }
}
