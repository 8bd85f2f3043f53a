/** The checks of Figure.scatter and the trace it appends. */
module Scatters {
  import opened Wrappers
  import opened PyValues
  import opened Errors
  import opened Kwargs
  import opened Traces

  /** A scatter trace from x, y and the style options (the default colour is
      already filled in): the options are filtered first, then both
      arguments must be iterable, then of equal length; x and y are stored
      as given. */
  function ScatterTrace(x: Value, y: Value, kwargs: Kwargs): (r: Result<Trace, Error>)
    ensures r.Ok? <==> kwargs.Keys <= LineOptions && Iterable(x) && Iterable(y) && Len(x) == Len(y)
    ensures r.Ok? ==> r.value == Scatter(x, y, kwargs)
    ensures !(kwargs.Keys <= LineOptions) ==> r == Err(UnsupportedOptions(kwargs.Keys - LineOptions))
    ensures kwargs.Keys <= LineOptions && !(Iterable(x) && Iterable(y)) ==> r == Err(NotIterable)
    ensures kwargs.Keys <= LineOptions && Iterable(x) && Iterable(y) && Len(x) != Len(y)
            ==> r == Err(LengthMismatch(Len(x), Len(y)))
    ensures r.Err? ==> Raised(r.error) == ValueError
  {
    var style :- ValidateKwargs(LineOptions, kwargs);
    if !Iterable(x) || !Iterable(y) then Err(NotIterable)
    else if Len(x) != Len(y) then Err(LengthMismatch(Len(x), Len(y)))
    else Ok(Scatter(x, y, style))
  }
}
