/** Figure-level properties (title, labels, axis scales, aspect) as a
    value: the validation each setter applies, the getter view, and the bulk
    assignment `set(**kwargs)`. */
module Properties {
  import opened Wrappers
  import opened PyValues
  import opened Errors

  /** _VALID_AXIS_SCALES */
  const AxisScales: set<string> := {"lin", "log"}

  /** Properties whose setter stores str(value). */
  const TextProperties: set<string> := {"title", "subtitle", "xlabel", "ylabel"}

  const PropertyNames: set<string> := TextProperties + {"show_title", "xscale", "yscale", "aspect"}

  /** The values Python's `v in [True, False]` lets through. */
  const BoolLike: set<Value> := {VBool(true), VBool(false), VInt(1), VInt(0), VReal(1.0), VReal(0.0)}

  /** What each property currently holds; None is "never set". */
  datatype Props = Props(
    title: Option<string>,
    showTitle: Value,
    subtitle: Option<string>,
    xlabel: Option<string>,
    ylabel: Option<string>,
    xscale: Option<string>,
    yscale: Option<string>,
    aspect: Option<string>)

  /** The properties of a fresh figure: only show_title is set, to True. */
  const InitialProps: Props := Props(None, VBool(true), None, None, None, None, None, None)

  /** What the setters can leave behind. */
  predicate PropsValid(p: Props) {
    p.showTitle in BoolLike
    && (p.xscale.Some? ==> p.xscale.value in AxisScales)
    && (p.yscale.Some? ==> p.yscale.value in AxisScales)
    && (p.aspect.Some? ==> p.aspect.value == "equal")
  }

  function TextValue(t: Option<string>): Value {
    match t
    case None => VNone
    case Some(s) => VStr(s)
  }

  /** getattr(figure, name) for a property name: the stored value, or None
      when the property was never set. */
  function Get(p: Props, name: string): Value
    requires name in PropertyNames
  {
    if name == "title" then TextValue(p.title)
    else if name == "show_title" then p.showTitle
    else if name == "subtitle" then TextValue(p.subtitle)
    else if name == "xlabel" then TextValue(p.xlabel)
    else if name == "ylabel" then TextValue(p.ylabel)
    else if name == "xscale" then TextValue(p.xscale)
    else if name == "yscale" then TextValue(p.yscale)
    else TextValue(p.aspect)
  }

  /** The show_title setter's check: `show in [True, False]` compares with ==,
      so 1, 0, 1.0 and 0.0 pass as well as the two booleans. */
  function CheckShowTitle(v: Value): (r: Result<Value, Error>)
    ensures r.Ok? <==> v in BoolLike
    ensures r.Ok? ==> r.value == v
    ensures r.Err? ==> r.error == ShowTitleNotBool(v) && Raised(r.error) == TypeError
  {
    if Numeric(v) == Some(1.0) || Numeric(v) == Some(0.0) then Ok(v)
    else Err(ShowTitleNotBool(v))
  }

  /** The xscale, yscale (and heatmap zscale) check `v in {'lin','log'}`;
      hashing an unhashable value raises TypeError first. */
  function CheckAxisScale(property: string, v: Value): (r: Result<string, Error>)
    ensures r.Ok? <==> v == VStr("lin") || v == VStr("log")
    ensures r.Ok? ==> r.value in AxisScales && v == VStr(r.value)
    ensures r.Err? ==> (Raised(r.error) == TypeError <==> !Hashable(v))
    ensures r.Err? && Hashable(v) ==> r.error == InvalidAxisScale(property, v)
  {
    if !Hashable(v) then Err(Unhashable(v))
    else if v.VStr? && v.s in AxisScales then Ok(v.s)
    else Err(InvalidAxisScale(property, v))
  }

  /** The aspect setter's check `v in {'equal', None}`. */
  function CheckAspect(v: Value): (r: Result<Option<string>, Error>)
    ensures r.Ok? <==> v == VNone || v == VStr("equal")
    ensures r.Ok? ==> TextValue(r.value) == v
    ensures r.Err? ==> (Raised(r.error) == TypeError <==> !Hashable(v))
  {
    if !Hashable(v) then Err(Unhashable(v))
    else if v == VNone then Ok(None)
    else if v == VStr("equal") then Ok(Some("equal"))
    else Err(InvalidAspect(v))
  }

  /** Which values the setter of a property accepts. */
  predicate Accepts(name: string, v: Value) {
    name in TextProperties
    || (name == "show_title" && v in BoolLike)
    || ((name == "xscale" || name == "yscale") && (v == VStr("lin") || v == VStr("log")))
    || (name == "aspect" && (v == VNone || v == VStr("equal")))
  }

  /** `setattr(figure, key, v)` restricted to the figure's properties;
      `toStr` is Python's builtin str. */
  function SetProperty(p: Props, key: string, v: Value, toStr: Value -> string): (r: Result<Props, Error>)
    ensures key !in PropertyNames ==> r == Err(UnknownProperty(key))
    ensures key in PropertyNames ==> (r.Ok? <==> Accepts(key, v))
    ensures r.Ok? ==> Get(r.value, key) == if key in TextProperties then VStr(toStr(v)) else v
    ensures r.Ok? ==> forall n :: n in PropertyNames && n != key ==> Get(r.value, n) == Get(p, n)
    ensures r.Ok? && PropsValid(p) ==> PropsValid(r.value)
    ensures key == "show_title" ==> ErrorOf(r) == ErrorOf(CheckShowTitle(v))
    ensures key == "xscale" || key == "yscale" ==> ErrorOf(r) == ErrorOf(CheckAxisScale(key, v))
    ensures key == "aspect" ==> ErrorOf(r) == ErrorOf(CheckAspect(v))
  {
    if key == "title" then Ok(p.(title := Some(toStr(v))))
    else if key == "subtitle" then Ok(p.(subtitle := Some(toStr(v))))
    else if key == "xlabel" then Ok(p.(xlabel := Some(toStr(v))))
    else if key == "ylabel" then Ok(p.(ylabel := Some(toStr(v))))
    else if key == "show_title" then
      var s :- CheckShowTitle(v); Ok(p.(showTitle := s))
    else if key == "xscale" then
      var s :- CheckAxisScale("xscale", v); Ok(p.(xscale := Some(s)))
    else if key == "yscale" then
      var s :- CheckAxisScale("yscale", v); Ok(p.(yscale := Some(s)))
    else if key == "aspect" then
      var a :- CheckAspect(v); Ok(p.(aspect := a))
    else Err(UnknownProperty(key))
  }

  datatype SetOutcome = SetOutcome(props: Props, error: Option<Error>)

  /** `set(**kwargs)`: the keys are assigned one after the other in order;
      the first failing key stops the loop with the keys before it already
      applied. */
  function ApplyKwargs(p: Props, kwargs: seq<(string, Value)>, toStr: Value -> string): (o: SetOutcome)
    ensures PropsValid(p) ==> PropsValid(o.props)
    ensures kwargs == [] ==> o == SetOutcome(p, None)
    decreases |kwargs|
  {
    if kwargs == [] then SetOutcome(p, None)
    else
      match SetProperty(p, kwargs[0].0, kwargs[0].1, toStr)
      case Err(e) => SetOutcome(p, Some(e))
      case Ok(q) => ApplyKwargs(q, kwargs[1..], toStr)
  }

  /** Applying a prefix that succeeds, then the rest, is applying the whole. */
  lemma {:induction false} ApplyKwargsSplit(p: Props, kwargs: seq<(string, Value)>, j: nat, toStr: Value -> string)
    requires j <= |kwargs|
    requires ApplyKwargs(p, kwargs[..j], toStr).error.None?
    ensures ApplyKwargs(p, kwargs, toStr) == ApplyKwargs(ApplyKwargs(p, kwargs[..j], toStr).props, kwargs[j..], toStr)
    decreases j
  {
    if j > 0 {
      var q := SetProperty(p, kwargs[0].0, kwargs[0].1, toStr);
      assert kwargs[..j][0] == kwargs[0];
      assert kwargs[..j][1..] == kwargs[1..][..j - 1];
      assert q.Ok?;
      ApplyKwargsSplit(q.value, kwargs[1..], j - 1, toStr);
      assert kwargs[1..][j - 1..] == kwargs[j..];
    }
  }

  /** `set` raises on the first key that is not a property; the keys before
      it stay applied and the keys after it are not applied. There is no
      validation pass before the assignments. */
  lemma SetStopsAtUnknownKey(p: Props, kwargs: seq<(string, Value)>, j: nat, toStr: Value -> string)
    requires j < |kwargs| && kwargs[j].0 !in PropertyNames
    requires ApplyKwargs(p, kwargs[..j], toStr).error.None?
    ensures ApplyKwargs(p, kwargs, toStr)
            == SetOutcome(ApplyKwargs(p, kwargs[..j], toStr).props, Some(UnknownProperty(kwargs[j].0)))
  {
    ApplyKwargsSplit(p, kwargs, j, toStr);
    assert kwargs[j..][0] == kwargs[j];
  }

  /** A `set` that raises nothing named only properties, each with a value
      its setter accepts at that point. */
  lemma {:induction false} SetSucceedsOnlyOnProperties(p: Props, kwargs: seq<(string, Value)>, toStr: Value -> string)
    requires ApplyKwargs(p, kwargs, toStr).error.None?
    ensures forall i :: 0 <= i < |kwargs| ==> kwargs[i].0 in PropertyNames && Accepts(kwargs[i].0, kwargs[i].1)
    decreases |kwargs|
  {
    if kwargs != [] {
      var q := SetProperty(p, kwargs[0].0, kwargs[0].1, toStr);
      SetSucceedsOnlyOnProperties(q.value, kwargs[1..], toStr);
      forall i | 0 <= i < |kwargs|
        ensures kwargs[i].0 in PropertyNames && Accepts(kwargs[i].0, kwargs[i].1)
      {
        if i > 0 { assert kwargs[i] == kwargs[1..][i - 1]; }
      }
    }
  }

  /** A fresh figure shows its title and reads None for every other property. */
  lemma FreshPropertiesUnset()
    ensures PropsValid(InitialProps)
    ensures Get(InitialProps, "show_title") == VBool(true)
    ensures forall n :: n in PropertyNames && n != "show_title" ==> Get(InitialProps, n) == VNone
  {
  }

  /** `set(title='a', bogus=1)` raises ValueError after the title was set. */
  lemma SetIsNotAtomic(toStr: Value -> string)
    requires toStr(VStr("a")) == "a"
    ensures ApplyKwargs(InitialProps, [("title", VStr("a")), ("bogus", VInt(1))], toStr)
            == SetOutcome(InitialProps.(title := Some("a")), Some(UnknownProperty("bogus")))
  {
    SetStopsAtUnknownKey(InitialProps, [("title", VStr("a")), ("bogus", VInt(1))], 1, toStr);
  }
}
