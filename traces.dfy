/** The trace records a figure accumulates, one constructor per trace kind,
    each with its style options. */
module Traces {
  import opened Wrappers
  import opened PyValues

  /** The float values a histogram outline uses: the finite bin edges and
      the two infinities that bracket them. */
  datatype ExtReal = NegInf | Fin(r: real) | PosInf

  predicate ExtLeq(a: ExtReal, b: ExtReal) {
    a.NegInf? || b.PosInf? || (a.Fin? && b.Fin? && a.r <= b.r)
  }

  datatype Trace =
    /** {'type': 'scatter', 'data': {'x': x, 'y': y}, **style} */
    | Scatter(x: Value, y: Value, style: map<string, Value>)
    /** {'type': 'histogram', 'data': {'x', 'y', 'bin_edges', 'bin_count'}, **style} */
    | Histogram(outlineX: seq<ExtReal>, outlineY: seq<real>, binEdges: seq<real>, binCount: seq<real>,
                style: map<string, Value>)
    /** {'type': 'heatmap', 'data': {'x', 'y', 'z'}, 'zscale', 'zlabel', 'zlim', **style} */
    | Heatmap(x: Value, y: Value, z: Value, zscale: string, zlabel: Option<string>,
              zlim: Option<(real, real)>, style: map<string, Value>)
}
