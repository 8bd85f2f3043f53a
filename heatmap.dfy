/** The validation chain of Figure.heatmap and the trace it appends. */
module Heatmaps {
  import opened Wrappers
  import opened PyValues
  import opened Errors
  import opened Kwargs
  import opened Traces
  import opened Properties

  /** The arguments of heatmap(x, y, z, zscale='lin', zlabel=None, zlim=None, **kwargs). */
  datatype HeatmapCall = HeatmapCall(x: Value, y: Value, z: Value, zscale: Value, zlabel: Value, zlim: Value,
                                     kwargs: Kwargs)

  /** zlabel must be None or a string. */
  function CheckZlabel(v: Value): (r: Result<Option<string>, Error>)
    ensures r.Ok? <==> v.VNone? || v.VStr?
    ensures r.Ok? ==> TextValue(r.value) == v
    ensures r.Err? ==> r.error == ZlabelNotString(v) && Raised(r.error) == TypeError
  {
    match v
    case VNone => Ok(None)
    case VStr(s) => Ok(Some(s))
    case _ => Err(ZlabelNotString(v))
  }

  /** zlim, unless None, must convert with tuple() to exactly two items that
      each convert with float(); whatever goes wrong becomes one ValueError. */
  predicate ZlimConvertible(v: Value) {
    ToTuple(v).Some? && |ToTuple(v).value| == 2
    && ToFloat(ToTuple(v).value[0]).Some? && ToFloat(ToTuple(v).value[1]).Some?
  }

  function CheckZlim(v: Value): (r: Result<Option<(real, real)>, Error>)
    ensures r == Ok(None) <==> v == VNone
    ensures r.Ok? <==> v == VNone || ZlimConvertible(v)
    ensures r.Ok? && r.value.Some? ==>
      r.value.value == (ToFloat(ToTuple(v).value[0]).value, ToFloat(ToTuple(v).value[1]).value)
    ensures r.Err? ==> r.error == InvalidZlim && Raised(r.error) == ValueError
  {
    if v == VNone then Ok(None)
    else match ToTuple(v)
      case None => Err(InvalidZlim)
      case Some(items) =>
        if |items| != 2 then Err(InvalidZlim)
        else match (ToFloat(items[0]), ToFloat(items[1]))
          case (Some(lo), Some(hi)) => Ok(Some((lo, hi)))
          case _ => Err(InvalidZlim)
  }

  /** np.array(v).shape, or the ValueError numpy raises for a ragged nesting. */
  function Coerce(argument: string, v: Value): (r: Result<seq<nat>, Error>)
    ensures r.Ok? <==> ArrayShape(v).Some?
    ensures r.Ok? ==> r.value == ArrayShape(v).value
    ensures r.Err? ==> r.error == RaggedArray(argument)
  {
    match ArrayShape(v)
    case None => Err(RaggedArray(argument))
    case Some(shape) => Ok(shape)
  }

  /** A list or tuple whose items have different shapes is ragged: np.array raises. */
  lemma RaggedRaises(items: seq<Value>, i: nat, j: nat, argument: string)
    requires i < |items| && j < |items| && ArrayShape(items[i]) != ArrayShape(items[j])
    ensures Coerce(argument, VList(items)) == Err(RaggedArray(argument))
    ensures Coerce(argument, VTuple(items)) == Err(RaggedArray(argument))
  {
    assert ArrayShape(VList(items)) == ItemsShape(VList(items), items);
    assert ArrayShape(VTuple(items)) == ItemsShape(VTuple(items), items);
  }

  /** A list or tuple with a ragged item is ragged too. */
  lemma ItemRaises(items: seq<Value>, i: nat, argument: string)
    requires i < |items| && ArrayShape(items[i]).None?
    ensures Coerce(argument, VList(items)) == Err(RaggedArray(argument))
    ensures Coerce(argument, VTuple(items)) == Err(RaggedArray(argument))
  {
    assert ArrayShape(VList(items)) == ItemsShape(VList(items), items);
    assert ArrayShape(VTuple(items)) == ItemsShape(VTuple(items), items);
  }

  /** A non-empty list or tuple whose items all share one shape s is not
      ragged: np.array gives it shape [len] + s. */
  lemma UniformItemsCoerce(items: seq<Value>, s: seq<nat>, argument: string)
    requires |items| > 0 && forall i :: 0 <= i < |items| ==> ArrayShape(items[i]) == Some(s)
    ensures Coerce(argument, VList(items)) == Ok([|items|] + s)
    ensures Coerce(argument, VTuple(items)) == Ok([|items|] + s)
  {
    assert ArrayShape(VList(items)) == ItemsShape(VList(items), items);
    assert ArrayShape(VTuple(items)) == ItemsShape(VTuple(items), items);
  }

  /** The array checks of heatmap: x, y and z are coerced with np.array in
      that order, then x and y must be one-dimensional, z two-dimensional and
      of shape (len(y), len(x)). */
  function CheckGrid(c: HeatmapCall): (r: Result<(nat, nat), Error>)
    ensures r.Ok? ==> ((c.x.VList? || c.x.VTuple?) && (c.y.VList? || c.y.VTuple?)
      && r.value == (Len(c.y), Len(c.x))
      && ArrayShape(c.x) == Some([Len(c.x)]) && ArrayShape(c.y) == Some([Len(c.y)])
      && ArrayShape(c.z) == Some([Len(c.y), Len(c.x)]))
  {
    var xs :- Coerce("x", c.x);
    var ys :- Coerce("y", c.y);
    var zs :- Coerce("z", c.z);
    if |xs| != 1 || |ys| != 1 then Err(NotOneDimensional(|xs|, |ys|))
    else if |zs| != 2 then Err(NotTwoDimensional(|zs|))
    else if zs != [Len(c.y), Len(c.x)] then Err(ShapeMismatch(zs, Len(c.y), Len(c.x)))
    else
      assert xs == [xs[0]] && ys == [ys[0]];
      Ok((Len(c.y), Len(c.x)))
  }

  /** Figure.heatmap's checks in the order the code runs them. */
  function HeatmapTrace(c: HeatmapCall): (r: Result<Trace, Error>)
    ensures r.Ok? ==> (r.value.Heatmap?
      && r.value.x == c.x && r.value.y == c.y && r.value.z == c.z && r.value.style == c.kwargs
      && c.kwargs.Keys <= HeatmapOptions
      && r.value.zscale in AxisScales && c.zscale == VStr(r.value.zscale)
      && TextValue(r.value.zlabel) == c.zlabel
      && CheckZlim(c.zlim) == Ok(r.value.zlim)
      && CheckGrid(c).Ok?)
  {
    var style :- ValidateKwargs(HeatmapOptions, c.kwargs);
    var zscale :- CheckAxisScale("zscale", c.zscale);
    var zlabel :- CheckZlabel(c.zlabel);
    var zlim :- CheckZlim(c.zlim);
    var _ :- CheckGrid(c);
    Ok(Heatmap(c.x, c.y, c.z, zscale, zlabel, zlim, style))
  }

  /** The checks on the keyword arguments, each stated on its own. */
  function ArgumentChecks(c: HeatmapCall): seq<Option<Error>> {
    [ ErrorOf(ValidateKwargs(HeatmapOptions, c.kwargs)),
      ErrorOf(CheckAxisScale("zscale", c.zscale)),
      ErrorOf(CheckZlabel(c.zlabel)),
      ErrorOf(CheckZlim(c.zlim)) ]
  }

  /** heatmap's defaults zscale='lin', zlabel=None, zlim=None with no
      options pass every argument check, so only the array checks remain. */
  lemma DefaultArgumentsPass(x: Value, y: Value, z: Value)
    ensures var c := HeatmapCall(x, y, z, VStr("lin"), VNone, VNone, map[]);
      FirstError(ArgumentChecks(c)).None? && ErrorOf(HeatmapTrace(c)) == ErrorOf(CheckGrid(c))
  {
    var c := HeatmapCall(x, y, z, VStr("lin"), VNone, VNone, map[]);
    ArgumentChecksInOrder(c);
    NoFirstErrorMeansAllPass(ArgumentChecks(c));
  }

  /** The checks on the arrays, each stated on its own; a check that needs
      a coerced array passes when the coercion itself failed, since the
      coercion raised first. */
  function GridChecks(c: HeatmapCall): seq<Option<Error>> {
    var xs, ys, zs := ArrayShape(c.x), ArrayShape(c.y), ArrayShape(c.z);
    var coerced := xs.Some? && ys.Some? && zs.Some?;
    var lines := coerced && |xs.value| == 1 && |ys.value| == 1;
    [ ErrorOf(Coerce("x", c.x)),
      ErrorOf(Coerce("y", c.y)),
      ErrorOf(Coerce("z", c.z)),
      if coerced && !lines then Some(NotOneDimensional(|xs.value|, |ys.value|)) else None,
      if lines && |zs.value| != 2 then Some(NotTwoDimensional(|zs.value|)) else None,
      if lines && |zs.value| == 2 && zs.value != [Len(c.y), Len(c.x)]
      then Some(ShapeMismatch(zs.value, Len(c.y), Len(c.x))) else None ]
  }

  /** All the checks of heatmap, in the order the code runs them. */
  function HeatmapChecks(c: HeatmapCall): seq<Option<Error>> {
    ArgumentChecks(c) + GridChecks(c)
  }

  function FirstError(checks: seq<Option<Error>>): Option<Error> {
    if checks == [] then None
    else if checks[0].Some? then checks[0]
    else FirstError(checks[1..])
  }

  lemma {:induction false} FirstErrorAt(checks: seq<Option<Error>>, k: nat)
    requires k < |checks| && checks[k].Some?
    requires forall i :: 0 <= i < k ==> checks[i].None?
    ensures FirstError(checks) == checks[k]
  {
    if k > 0 {
      FirstErrorAt(checks[1..], k - 1);
    }
  }

  lemma {:induction false} FirstErrorAppend(a: seq<Option<Error>>, b: seq<Option<Error>>)
    ensures FirstError(a + b) == if FirstError(a).Some? then FirstError(a) else FirstError(b)
  {
    if a != [] {
      assert (a + b)[1..] == a[1..] + b;
      FirstErrorAppend(a[1..], b);
    } else {
      assert a + b == b;
    }
  }

  lemma GridChecksInOrder(c: HeatmapCall)
    ensures ErrorOf(CheckGrid(c)) == FirstError(GridChecks(c))
  {
    var checks := GridChecks(c);
    NoFirstErrorMeansAllPass(checks);
    if checks[0].Some? { FirstErrorAt(checks, 0); }
    else if checks[1].Some? { FirstErrorAt(checks, 1); }
    else if checks[2].Some? { FirstErrorAt(checks, 2); }
    else if checks[3].Some? { FirstErrorAt(checks, 3); }
    else if checks[4].Some? { FirstErrorAt(checks, 4); }
    else if checks[5].Some? { FirstErrorAt(checks, 5); }
  }

  lemma ArgumentChecksInOrder(c: HeatmapCall)
    ensures FirstError(ArgumentChecks(c)).Some? ==> ErrorOf(HeatmapTrace(c)) == FirstError(ArgumentChecks(c))
    ensures FirstError(ArgumentChecks(c)).None? ==> ErrorOf(HeatmapTrace(c)) == ErrorOf(CheckGrid(c))
  {
    var checks := ArgumentChecks(c);
    NoFirstErrorMeansAllPass(checks);
    if checks[0].Some? { FirstErrorAt(checks, 0); }
    else if checks[1].Some? { FirstErrorAt(checks, 1); }
    else if checks[2].Some? { FirstErrorAt(checks, 2); }
    else if checks[3].Some? { FirstErrorAt(checks, 3); }
  }

  /** heatmap raises the error of the first check that fails, in the order
      options, zscale, zlabel, zlim, coercion of x, y and z, ndim of x and y,
      ndim of z, shape of z; it appends a trace exactly when every check passes. */
  lemma HeatmapChecksInOrder(c: HeatmapCall)
    ensures ErrorOf(HeatmapTrace(c)) == FirstError(HeatmapChecks(c))
    ensures HeatmapTrace(c).Ok? <==> forall i :: 0 <= i < |HeatmapChecks(c)| ==> HeatmapChecks(c)[i].None?
  {
    ArgumentChecksInOrder(c);
    GridChecksInOrder(c);
    FirstErrorAppend(ArgumentChecks(c), GridChecks(c));
    NoFirstErrorMeansAllPass(HeatmapChecks(c));
  }

  lemma {:induction false} NoFirstErrorMeansAllPass(checks: seq<Option<Error>>)
    ensures FirstError(checks).None? <==> forall i :: 0 <= i < |checks| ==> checks[i].None?
  {
    if checks != [] {
      NoFirstErrorMeansAllPass(checks[1..]);
      assert forall i :: 1 <= i < |checks| ==> checks[i] == checks[1..][i - 1];
    }
  }

  predicate Scalar(v: Value) {
    !(v.VList? || v.VTuple?)
  }

  /** A list of n scalars coerces to a one-dimensional array of length n. */
  lemma ScalarListShape(items: seq<Value>)
    requires forall i :: 0 <= i < |items| ==> Scalar(items[i])
    ensures ArrayShape(VList(items)) == Some([|items|])
  {
    var v := VList(items);
    if |items| > 0 {
      forall i | 0 <= i < |items| ensures ArrayShape(items[i]) == Some([]) {
      }
      assert [|items|] + [] == [|items|];
      assert ItemsShape(v, items) == Some([|items|]);
    }
    assert ArrayShape(v) == ItemsShape(v, items);
  }

  /** m rows of n scalars each coerce to an (m, n) array. */
  lemma GridShape(rows: seq<Value>, n: nat)
    requires |rows| > 0
    requires forall i :: 0 <= i < |rows| ==> rows[i].VList? && |rows[i].items| == n
                                             && forall j :: 0 <= j < n ==> Scalar(rows[i].items[j])
    ensures ArrayShape(VList(rows)) == Some([|rows|, n])
  {
    forall i | 0 <= i < |rows| ensures ArrayShape(rows[i]) == Some([n]) {
      ScalarListShape(rows[i].items);
      assert rows[i] == VList(rows[i].items);
    }
    var v := VList(rows);
    assert ArrayShape(rows[0]) == Some([n]);
    assert [|rows|] + [n] == [|rows|, n];
    assert ItemsShape(v, rows) == Some([|rows|] + [n]);
    assert ArrayShape(v) == ItemsShape(v, rows);
  }

  /** The calls of the heatmap demo: numeric x and y, a z of len(y) rows of
      len(x) numbers, zscale 'lin' or 'log', zlabel None or any string,
      zlim None or (.5, 1.5), and no option but alpha. Each is accepted and
      stores its arguments, with zlim as floats. */
  lemma HeatmapAcceptsGrid(xs: seq<Value>, ys: seq<Value>, rows: seq<Value>, zscale: Value, zlabel: Value,
                           zlim: Value, kwargs: Kwargs)
    requires forall i :: 0 <= i < |xs| ==> Scalar(xs[i])
    requires forall i :: 0 <= i < |ys| ==> Scalar(ys[i])
    requires |rows| == |ys| > 0
    requires forall i :: 0 <= i < |rows| ==> rows[i].VList? && |rows[i].items| == |xs|
                                             && forall j :: 0 <= j < |xs| ==> Scalar(rows[i].items[j])
    requires zscale == VStr("lin") || zscale == VStr("log")
    requires zlabel.VNone? || zlabel.VStr?
    requires zlim == VNone || zlim == VTuple([VReal(0.5), VReal(1.5)])
    requires kwargs.Keys <= {"alpha"}
    ensures var r := HeatmapTrace(HeatmapCall(VList(xs), VList(ys), VList(rows), zscale, zlabel, zlim, kwargs));
      r.Ok? && r.value.style == kwargs && VStr(r.value.zscale) == zscale && TextValue(r.value.zlabel) == zlabel
      && r.value.zlim == (if zlim == VNone then None else Some((0.5, 1.5)))
  {
    ScalarListShape(xs);
    ScalarListShape(ys);
    GridShape(rows, |xs|);
  }

  /** z with one row more than len(y) fails the shape check, which reports
      both the shape of z and (len(y), len(x)). */
  lemma HeatmapRejectsExtraRow(xs: seq<Value>, ys: seq<Value>, rows: seq<Value>)
    requires forall i :: 0 <= i < |xs| ==> Scalar(xs[i])
    requires forall i :: 0 <= i < |ys| ==> Scalar(ys[i])
    requires |rows| == |ys| + 1
    requires forall i :: 0 <= i < |rows| ==> rows[i].VList? && |rows[i].items| == |xs|
                                             && forall j :: 0 <= j < |xs| ==> Scalar(rows[i].items[j])
    ensures HeatmapTrace(HeatmapCall(VList(xs), VList(ys), VList(rows), VStr("lin"), VNone, VNone, map[]))
            == Err(ShapeMismatch([|ys| + 1, |xs|], |ys|, |xs|))
  {
    ScalarListShape(xs);
    ScalarListShape(ys);
    GridShape(rows, |xs|);
  }

  /** zlim (1, 'a') and a three-item zlim are refused; (1, 2) is stored as (1.0, 2.0). */
  lemma ZlimExamples()
    ensures CheckZlim(VTuple([VInt(1), VStr("a")])) == Err(InvalidZlim)
    ensures CheckZlim(VTuple([VInt(1), VInt(2), VInt(3)])) == Err(InvalidZlim)
    ensures CheckZlim(VTuple([VInt(1), VInt(2)])) == Ok(Some((1.0, 2.0)))
  {
    assert DotIndex("a") == 1;
  }
}
