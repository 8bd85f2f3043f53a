/** The keyword filter every trace constructor applies to its style
    options, and the option names each trace kind accepts. */
module Kwargs {
  import opened Wrappers
  import opened PyValues
  import opened Errors

  type Kwargs = map<string, Value>

  /** Style options of scatter and histogram traces. */
  const LineOptions: set<string> := {"label", "color", "marker", "linestyle", "linewidth", "alpha"}

  /** Style options of heatmap traces. */
  const HeatmapOptions: set<string> := {"alpha"}

  /** validate_kwargs(allowed, kwargs): the options unchanged when every key
      is allowed, otherwise a ValueError naming the keys that are not. */
  function ValidateKwargs(allowed: set<string>, kwargs: Kwargs): (r: Result<Kwargs, Error>)
    ensures r.Ok? <==> kwargs.Keys <= allowed
    ensures r.Ok? ==> r.value == kwargs
    ensures r.Err? ==> r.error == UnsupportedOptions(kwargs.Keys - allowed)
                       && r.error.keys !! allowed
                       && Raised(r.error) == ValueError
  {
    if kwargs.Keys <= allowed then Ok(kwargs)
    else Err(UnsupportedOptions(kwargs.Keys - allowed))
  }
}
