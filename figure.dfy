/** The Figure: its properties, its ordered traces and its own default
    colour queue, with the trace constructors that validate their arguments
    and append one trace record. */
module Figures {
  import opened Wrappers
  import opened PyValues
  import opened Errors
  import opened Kwargs
  import opened Properties
  import opened ColorCycle
  import opened Traces
  import opened Histograms
  import opened Scatters
  import opened Heatmaps

  /** kwargs.get('color') is not None */
  predicate ColorGiven(kwargs: Kwargs) {
    "color" in kwargs && kwargs["color"] != VNone
  }

  /** The style options once a missing or None colour is replaced by the
      picked default colour. */
  function StyleWithColor(kwargs: Kwargs, picked: Color): (style: Kwargs)
    ensures ColorGiven(style)
    ensures ColorGiven(kwargs) ==> style["color"] == kwargs["color"]
    ensures !ColorGiven(kwargs) ==> style["color"] == ColorValue(picked)
    ensures forall k :: k != "color" ==> (k in style <==> k in kwargs) && (k in style ==> style[k] == kwargs[k])
  {
    if ColorGiven(kwargs) then kwargs else kwargs["color" := ColorValue(picked)]
  }

  /** On a figure that has made `picks` picks, the style a trace gets keeps
      the caller's colour when one was given, and otherwise holds
      DEFAULT_COLORS[picks]; every other option is passed through as given. */
  lemma StyleColour(kwargs: Kwargs, picks: nat)
    requires picks < |DefaultColors|
    ensures var s := StyleWithColor(kwargs, Rotated(DefaultColors, picks)[0]);
      s["color"] == (if ColorGiven(kwargs) then kwargs["color"] else ColorValue(DefaultColors[picks]))
      && forall k :: k != "color" ==> (k in s <==> k in kwargs) && (k in s ==> s[k] == kwargs[k])
  {
    RotatedFront(DefaultColors, picks);
  }

  /** What every trace the figure holds satisfies. */
  predicate WellFormed(t: Trace) {
    match t
    case Scatter(x, y, style) =>
      Iterable(x) && Iterable(y) && Len(x) == Len(y) && style.Keys <= LineOptions && ColorGiven(style)
    case Histogram(outlineX, outlineY, edges, counts, style) =>
      |edges| > 0 && |counts| == |edges| + 1
      && outlineX == OutlineX(edges) && outlineY == Doubled(counts)
      && style.Keys <= LineOptions && ColorGiven(style)
    case Heatmap(x, y, z, zscale, _, _, style) =>
      (x.VList? || x.VTuple?) && (y.VList? || y.VTuple?)
      && ArrayShape(x) == Some([Len(x)]) && ArrayShape(y) == Some([Len(y)])
      && ArrayShape(z) == Some([Len(y), Len(x)])
      && zscale in AxisScales && style.Keys <= HeatmapOptions
  }

  class Figure {
    var title: Option<string>
    var showTitle: Value
    var subtitle: Option<string>
    var xlabel: Option<string>
    var ylabel: Option<string>
    var xscale: Option<string>
    var yscale: Option<string>
    var aspect: Option<string>
    /** In insertion order, which is drawing order. */
    var traces: seq<Trace>
    /** This figure's DEFAULT_COLORS, rotated by each pick. */
    var colors: seq<Color>
    /** How many picks, modulo the palette size, the queue has seen. */
    ghost var picks: nat

    function CurrentProps(): Props
      reads this
    {
      Props(title, showTitle, subtitle, xlabel, ylabel, xscale, yscale, aspect)
    }

    ghost predicate Valid()
      reads this
    {
      PropsValid(CurrentProps())
      && picks < |DefaultColors| && colors == Rotated(DefaultColors, picks)
      && forall i :: 0 <= i < |traces| ==> WellFormed(traces[i])
    }

    constructor ()
      ensures Valid()
      ensures CurrentProps() == InitialProps && traces == [] && colors == DefaultColors && picks == 0
    {
      title, subtitle, xlabel, ylabel := None, None, None, None;
      showTitle := VBool(true);
      xscale, yscale, aspect := None, None, None;
      traces := [];
      colors := DefaultColors;
      picks := 0;
    }

    method SetTitle(v: Value, toStr: Value -> string)
      requires Valid()
      modifies this`title
      ensures Valid()
      ensures CurrentProps() == old(CurrentProps()).(title := Some(toStr(v)))
    {
      title := Some(toStr(v));
    }

    method SetSubtitle(v: Value, toStr: Value -> string)
      requires Valid()
      modifies this`subtitle
      ensures Valid()
      ensures CurrentProps() == old(CurrentProps()).(subtitle := Some(toStr(v)))
    {
      subtitle := Some(toStr(v));
    }

    method SetXlabel(v: Value, toStr: Value -> string)
      requires Valid()
      modifies this`xlabel
      ensures Valid()
      ensures CurrentProps() == old(CurrentProps()).(xlabel := Some(toStr(v)))
    {
      xlabel := Some(toStr(v));
    }

    method SetYlabel(v: Value, toStr: Value -> string)
      requires Valid()
      modifies this`ylabel
      ensures Valid()
      ensures CurrentProps() == old(CurrentProps()).(ylabel := Some(toStr(v)))
    {
      ylabel := Some(toStr(v));
    }

    method SetShowTitle(v: Value) returns (err: Option<Error>)
      requires Valid()
      modifies this`showTitle
      ensures Valid()
      ensures err == ErrorOf(CheckShowTitle(v))
      ensures CurrentProps() == if err.None? then old(CurrentProps()).(showTitle := v) else old(CurrentProps())
    {
      match CheckShowTitle(v)
      case Err(e) => err := Some(e);
      case Ok(s) => showTitle := s; err := None;
    }

    method SetXscale(v: Value) returns (err: Option<Error>)
      requires Valid()
      modifies this`xscale
      ensures Valid()
      ensures err == ErrorOf(CheckAxisScale("xscale", v))
      ensures CurrentProps() == if err.None? then old(CurrentProps()).(xscale := Some(v.s)) else old(CurrentProps())
    {
      match CheckAxisScale("xscale", v)
      case Err(e) => err := Some(e);
      case Ok(s) => xscale := Some(s); err := None;
    }

    method SetYscale(v: Value) returns (err: Option<Error>)
      requires Valid()
      modifies this`yscale
      ensures Valid()
      ensures err == ErrorOf(CheckAxisScale("yscale", v))
      ensures CurrentProps() == if err.None? then old(CurrentProps()).(yscale := Some(v.s)) else old(CurrentProps())
    {
      match CheckAxisScale("yscale", v)
      case Err(e) => err := Some(e);
      case Ok(s) => yscale := Some(s); err := None;
    }

    method SetAspect(v: Value) returns (err: Option<Error>)
      requires Valid()
      modifies this`aspect
      ensures Valid()
      ensures err == ErrorOf(CheckAspect(v))
      ensures CurrentProps() == if err.None? then old(CurrentProps()).(aspect := CheckAspect(v).value)
                              else old(CurrentProps())
    {
      match CheckAspect(v)
      case Err(e) => err := Some(e);
      case Ok(a) => aspect := a; err := None;
    }

    /** setattr(self, key, v) for a property: the matching setter runs. */
    method SetAttr(key: string, v: Value, toStr: Value -> string) returns (err: Option<Error>)
      requires Valid()
      modifies this`title, this`showTitle, this`subtitle, this`xlabel, this`ylabel,
               this`xscale, this`yscale, this`aspect
      ensures Valid()
      ensures var r := SetProperty(old(CurrentProps()), key, v, toStr);
        err == ErrorOf(r) && CurrentProps() == if r.Ok? then r.value else old(CurrentProps())
    {
      if key == "title" {
        SetTitle(v, toStr);
        err := None;
      } else if key == "subtitle" {
        SetSubtitle(v, toStr);
        err := None;
      } else if key == "xlabel" {
        SetXlabel(v, toStr);
        err := None;
      } else if key == "ylabel" {
        SetYlabel(v, toStr);
        err := None;
      } else if key == "show_title" {
        err := SetShowTitle(v);
      } else if key == "xscale" {
        err := SetXscale(v);
      } else if key == "yscale" {
        err := SetYscale(v);
      } else if key == "aspect" {
        err := SetAspect(v);
      } else {
        err := Some(UnknownProperty(key));
      }
    }

    /** set(**kwargs): each key in turn goes through its property's setter;
        the first key that is not a property, or whose setter raises, stops
        the loop with the earlier keys already applied. */
    method Set(kwargs: seq<(string, Value)>, toStr: Value -> string) returns (err: Option<Error>)
      requires Valid()
      modifies this`title, this`showTitle, this`subtitle, this`xlabel, this`ylabel,
               this`xscale, this`yscale, this`aspect
      ensures Valid()
      ensures var o := ApplyKwargs(old(CurrentProps()), kwargs, toStr);
        CurrentProps() == o.props && err == o.error
    {
      var i := 0;
      while i < |kwargs|
        invariant 0 <= i <= |kwargs|
        invariant Valid()
        invariant ApplyKwargs(CurrentProps(), kwargs[i..], toStr) == ApplyKwargs(old(CurrentProps()), kwargs, toStr)
      {
        assert kwargs[i..][0] == kwargs[i] && kwargs[i..][1..] == kwargs[i + 1..];
        var e := SetAttr(kwargs[i].0, kwargs[i].1, toStr);
        if e.Some? {
          return e;
        }
        i := i + 1;
      }
      return None;
    }

    /** pick_default_color: the front colour, which moves to the back. */
    method PickDefaultColor() returns (c: Color)
      requires Valid()
      modifies this`colors, this`picks
      ensures Valid()
      ensures c == old(colors)[0] && colors == Rotate(old(colors))
      ensures c == DefaultColors[old(picks)] && picks == (old(picks) + 1) % |DefaultColors|
    {
      RotatedIsShift(DefaultColors, picks);
      assert DefaultColors[picks..][0] == DefaultColors[picks];
      c := colors[0];
      colors := colors[1..] + [colors[0]];
      if picks + 1 == |DefaultColors| {
        RotatedFullTurn(DefaultColors);
      }
      picks := (picks + 1) % |DefaultColors|;
    }

    /** scatter and histogram fill in the colour first: a missing or None
        colour is replaced by a freshly picked default before the options
        are validated. */
    method DefaultColor(kwargs: Kwargs) returns (style: Kwargs)
      requires Valid()
      modifies this`colors, this`picks
      ensures Valid()
      ensures style == StyleWithColor(kwargs, old(colors)[0])
      ensures ColorGiven(kwargs) ==> colors == old(colors) && picks == old(picks)
      ensures !ColorGiven(kwargs) ==> colors == Rotate(old(colors)) && picks == (old(picks) + 1) % |DefaultColors|
    {
      style := kwargs;
      if !ColorGiven(kwargs) {
        var c := PickDefaultColor();
        style := kwargs["color" := ColorValue(c)];
      }
    }

    method Scatter(x: Value, y: Value, kwargs: Kwargs) returns (err: Option<Error>)
      requires Valid()
      modifies this`traces, this`colors, this`picks
      ensures Valid()
      ensures ColorGiven(kwargs) ==> colors == old(colors)
      ensures !ColorGiven(kwargs) ==> colors == Rotate(old(colors))
      ensures var r := ScatterTrace(x, y, StyleWithColor(kwargs, old(colors)[0]));
        err == ErrorOf(r) && traces == old(traces) + (if r.Ok? then [r.value] else [])
    {
      var style := DefaultColor(kwargs);
      var r := ScatterTrace(x, y, style);
      match r
      case Err(e) => err := Some(e);
      case Ok(t) => traces := traces + [t]; err := None;
    }

    /** histogram: binning stands for np.histogram with the caller's bins
        and density, and is applied to the samples that are not NaN. */
    method Histogram(samples: seq<Option<real>>, binning: seq<real> -> Bins, kwargs: Kwargs)
      returns (err: Option<Error>)
      requires Valid()
      requires BinsShaped(binning(Present(samples)))
      modifies this`traces, this`colors, this`picks
      ensures Valid()
      ensures ColorGiven(kwargs) ==> colors == old(colors)
      ensures !ColorGiven(kwargs) ==> colors == Rotate(old(colors))
      ensures var style := StyleWithColor(kwargs, old(colors)[0]);
        err == ErrorOf(ValidateKwargs(LineOptions, style))
        && (err.Some? ==> traces == old(traces))
        && (err.None? ==>
              var b := binning(Present(samples));
              traces == old(traces) + [Trace.Histogram(OutlineX(b.edges), Doubled(BinCount(samples, b)),
                                                       b.edges, BinCount(samples, b), style)])
    {
      var style := DefaultColor(kwargs);
      var checked := ValidateKwargs(LineOptions, style);
      if checked.Err? {
        return Some(checked.error);
      }
      var b := binning(Present(samples));
      var under := CountBelow(samples, b.edges[0]) as real;
      var over := CountAbove(samples, b.edges[|b.edges| - 1]) as real;
      var x, y := BuildOutline(under, b.hist, b.edges, over);
      var counts := [y[0]] + b.hist + [y[|y| - 1]];
      assert counts == BinCount(samples, b) by {
        var c := BinCount(samples, b);
        DoubledAt(c, 0);
        DoubledAt(c, |c| - 1);
        assert y[0] == c[0] && y[|y| - 1] == c[|c| - 1];
      }
      var t := Trace.Histogram(x, y, b.edges, counts, checked.value);
      assert WellFormed(t);
      traces := traces + [t];
      err := None;
    }

    /** heatmap: no colour is picked; a trace is appended only once every
        check has passed. */
    method Heatmap(x: Value, y: Value, z: Value, zscale: Value, zlabel: Value, zlim: Value, kwargs: Kwargs)
      returns (err: Option<Error>)
      requires Valid()
      modifies this`traces
      ensures Valid()
      ensures var r := HeatmapTrace(HeatmapCall(x, y, z, zscale, zlabel, zlim, kwargs));
        err == ErrorOf(r) && traces == old(traces) + (if r.Ok? then [r.value] else [])
    {
      var r := HeatmapTrace(HeatmapCall(x, y, z, zscale, zlabel, zlim, kwargs));
      match r
      case Err(e) => err := Some(e);
      case Ok(t) =>
        assert CheckGrid(HeatmapCall(x, y, z, zscale, zlabel, zlim, kwargs)).Ok?;
        traces := traces + [t];
        err := None;
    }
  }
}
