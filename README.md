# Figure of the unified plotting interface, in Dafny

This project models the `Figure` class of grafica's unified plotting
interface (`unifiedplottinginterface/figure.py`). A `Figure` holds three things
until some plotter package draws it:

- its figure-wide properties: title, show_title, subtitle, axis labels, axis
  scales and aspect;
- an ordered list of trace records: scatter, histogram and heatmap;
- its own copy of the default colour palette, which rotates each time a
  colour is picked.

The model has one Dafny module per concern:

| module | file | what it holds |
|---|---|---|
| `Wrappers` | wrappers.dfy | `Option`, `Result` and `ErrorOf` |
| `PyValues` | pyvalues.dfy | the Python values that reach the figure as a datatype, with the questions the code asks of them: hashability, `__iter__`, `len`, `float()`, `tuple()`, and the shape `np.array` gives them |
| `Errors` | errors.dfy | every exception the class raises, with whether it is a `ValueError` or a `TypeError` |
| `Kwargs` | kwargs.dfy | the allowed-options check on style keyword arguments |
| `Properties` | properties.dfy | the property setters as pure functions on a `Props` record, and `set(**kwargs)` as a fold over its arguments |
| `ColorCycle` | colorcycle.dfy | `DEFAULT_COLORS` and its rotation |
| `Traces` | traces.dfy | the three trace records |
| `Histograms` | histogram.dfy | the outline a histogram trace stores, and the loop that builds it |
| `Scatters` | scatter.dfy | the scatter checks |
| `Heatmaps` | heatmap.dfy | the heatmap validation chain |
| `Figures` | figure.dfy | the `Figure` class: mutable fields, setters, `set`, `pick_default_color` and the three trace methods |

`Figure` is a Dafny `class` because the Python object updates its attributes
in place. `Valid()` is the invariant that every method keeps:

- the properties are well-formed;
- the palette is `DEFAULT_COLORS` rotated by the number of picks made so far;
- every stored trace is well-formed.

Every well-formed trace has only allowed options. Scatter and histogram
traces also have a colour; heatmap traces have none. Scatter traces
have `x` and `y` of equal length. Histogram outlines are built from their bin
edges and counts. Heatmaps have a two-dimensional `z` of shape
`(len(y), len(x))`.

The methods return the raised exception as an `Option<Error>`. When an
exception is raised, the contract says exactly which state changes anyway:

- a colour picked before the style options are validated stays picked;
- in `set`, the keys before the failing one stay applied.

The model follows the code:

- `show_title` accepts anything equal to `True` or `False`, so `1`, `0`, `1.0`
  and `0.0` are stored as given.
- `set` applies the keys one at a time. It does not pre-validate them, so a
  bad key or value leaves the earlier keys set.
- These raise `ValueError`: unknown options, non-iterable or unequal-length
  scatter data, bad `xscale`/`yscale`/`zscale`, bad `aspect`, bad `zlim`,
  wrong array dimensions and shapes.
- These raise `TypeError`: a `show_title` that is not `True`/`False`, a
  non-string `zlabel`, and an unhashable value tested against the scale or
  aspect sets.
- `heatmap` validates its keyword options first, then the zscale, zlabel and
  zlim checks, then the array checks.
- `scatter` and `histogram` pick a default colour before they validate
  anything.

## Model

| member | source | states |
|---|---|---|
| Kwargs.ValidateKwargs | unifiedplottinginterface/figure.py:99 | succeeds exactly when every key is allowed, and then returns the options unchanged; otherwise it raises a ValueError (which keys the error carries is this model's choice) |
| Properties.CheckShowTitle | unifiedplottinginterface/figure.py:30-34 | accepts exactly the values equal to True or False (True, False, 1, 0, 1.0, 0.0) and stores them as given; anything else raises a TypeError that carries the value |
| Properties.CheckAxisScale | unifiedplottinginterface/figure.py:61-64 | accepts exactly 'lin' and 'log' and stores the string; an unhashable value raises a TypeError; any other hashable value raises a ValueError naming the property and the value |
| Properties.CheckAspect | unifiedplottinginterface/figure.py:78-83 | accepts exactly None and 'equal', and the stored aspect reads back as the given value; an unhashable value raises a TypeError, any other value a ValueError |
| Properties.SetProperty | unifiedplottinginterface/figure.py:23-83 | setting a name that is not a property fails with "invalid property"; on a property it succeeds exactly when that property's setter accepts the value; text properties then read back str(value) and the others read back the value; every other property is unchanged and the properties stay well-formed; a rejected show_title, xscale, yscale or aspect raises exactly its setter's error (TypeError for show_title, ValueError or, for unhashable values, TypeError for the others) |
| Properties.ApplyKwargs | unifiedplottinginterface/figure.py:85-89 | set over an argument list keeps the properties well-formed, and an empty call changes nothing |
| Properties.ApplyKwargsSplit | unifiedplottinginterface/figure.py:86-89 | once the first j keys succeed, set on the whole list equals set on the remaining keys starting from the properties the first j left behind |
| Properties.SetStopsAtUnknownKey | unifiedplottinginterface/figure.py:87-88 | the first key that is not a property raises "invalid property", and only the keys before it have been applied |
| Properties.SetSucceedsOnlyOnProperties | unifiedplottinginterface/figure.py:85-89 | a set that raises nothing had only property names as keys, and every property's setter accepted its value |
| Properties.SetIsNotAtomic | unifiedplottinginterface/figure.py:85-89 | set(title='a', bogus=1) raises for 'bogus' and still leaves the title set to 'a' |
| Properties.FreshPropertiesUnset | unifiedplottinginterface/figure.py:12-22 | a new figure shows its title, and every other property reads None |
| ColorCycle.RotatedIsShift | unifiedplottinginterface/figure.py:204 | k picks leave the queue as q[k..] + q[..k] |
| ColorCycle.RotatedAdd | unifiedplottinginterface/figure.py:204 | a picks followed by b picks rotate the palette exactly as a + b picks do |
| ColorCycle.RotatedFullTurn | unifiedplottinginterface/figure.py:191-204 | after as many picks as the palette holds, the queue is back to its first order |
| ColorCycle.RotatedKeepsColors | unifiedplottinginterface/figure.py:204 | rotating never adds or loses a colour: the queue stays a permutation of the palette |
| ColorCycle.RotatedFront | unifiedplottinginterface/figure.py:203-204 | after k picks the front colour is palette[k mod 9] |
| ColorCycle.PicksAt | unifiedplottinginterface/figure.py:202-205 | the k-th colour picked is the front of the queue after k earlier picks |
| ColorCycle.PicksAreRoundRobin | unifiedplottinginterface/figure.py:202-205 | the k-th pick returns palette[k mod 9]: the palette is handed out round-robin |
| ColorCycle.FreshPicks | unifiedplottinginterface/figure.py:191-205 | a new figure's first nine picks are the nine default colours in order, and the tenth pick is the first colour again |
| Histograms.CountsIgnoreMissing | unifiedplottinginterface/figure.py:129-139 | NaN samples are never counted below the first edge or above the last: counting over all samples equals counting over the present ones |
| Histograms.BuildOutline | unifiedplottinginterface/figure.py:129-141 | the loop produces x = -inf, then every edge twice, then +inf, and y = every entry of [underflow] + hist + [overflow] twice |
| Histograms.HalvedDoubled | unifiedplottinginterface/figure.py:130-141 | taking every other element of the doubled list recovers the original list |
| Histograms.OutlineIndices | unifiedplottinginterface/figure.py:129-141 | point by point: x[0] = -inf, x[2i+1] = x[2i+2] = edge i, x[last] = +inf; y starts with the underflow count, y[2i+2] = hist[i], each step repeats the previous height, and the last two heights are the overflow count |
| Histograms.OutlineRecoversBins | unifiedplottinginterface/figure.py:141 | the stored bin_count, and the edges, can be read back off the stored outline |
| Histograms.OutlineIsStepLine | unifiedplottinginterface/figure.py:129-141 | every segment of the outline is horizontal (even k) or vertical (odd k), so it draws as a step line |
| Histograms.OutlineXAt | unifiedplottinginterface/figure.py:131-138 | every inner x point is x[k] = edge (k-1)/2 |
| Histograms.OutlineXNonDecreasing | unifiedplottinginterface/figure.py:129-140 | with sorted edges, as np.histogram returns them, the outline's x values never decrease |
| Histograms.HistogramIgnoresMissing | unifiedplottinginterface/figure.py:122-141 | two sample sets with the same non-NaN values give the same bin_count; that they get the same binning holds by construction, since binning is applied to the non-NaN samples only, as at line 124 |
| Histograms.ThreeBinExample | unifiedplottinginterface/figure.py:129-141 | samples [1,2,2,3,3,3] on edges [1,2,3,4] give bin_count [0,1,2,3,0], y [0,0,1,1,2,2,3,3,0,0] and x [-inf,1,1,2,2,3,3,4,4,+inf] |
| Scatters.ScatterTrace | unifiedplottinginterface/figure.py:99-106 | succeeds exactly when the options are allowed, x and y are iterable and len(x) == len(y); it then stores x, y and the options; otherwise the errors come in code order (options, then iterability, then lengths, carrying both lengths), all ValueError |
| PyValues.ToFloat | unifiedplottinginterface/figure.py:170 | float() of a bool, int or real is its numeric value; float() succeeds on nothing but those and strings |
| PyValues.IntegerStringToFloat | unifiedplottinginterface/figure.py:170 | float() of a digit string, unsigned, with '+' or with '-', is the integer it spells, with that sign |
| PyValues.DecimalStringToFloat | unifiedplottinginterface/figure.py:170 | float() of "w.f", for digit strings w and f not both empty, is w + f / 10^len(f) |
| PyValues.FloatStringCharacters | unifiedplottinginterface/figure.py:170 | the model's float() accepts a string only when it is non-empty and made of digits and points after an optional leading sign; Python's float() accepts more (see the PyValues.ToFloat line under "## Left out") |
| PyValues.FloatStringExamples | unifiedplottinginterface/figure.py:170 | float('1.5') is 1.5, float('-2') is -2.0 and float('.25') is 0.25 |
| PyValues.FloatStringRejections | unifiedplottinginterface/figure.py:170 | float('.'), float('+'), float('1.2.3'), float('a') and float('') raise, as in Python |
| PyValues.ToTuple | unifiedplottinginterface/figure.py:167 | tuple() succeeds exactly on iterables; a list or tuple gives its own items, and a string gives its one-character strings, as many as len() |
| PyValues.ArrayShape | unifiedplottinginterface/figure.py:173-175 | np.array gives a scalar the shape (); a list or tuple gets its length as the first dimension |
| Heatmaps.CheckZlabel | unifiedplottinginterface/figure.py:163-164 | accepts exactly None and strings; the stored label reads back as given; anything else raises a TypeError |
| Heatmaps.CheckZlim | unifiedplottinginterface/figure.py:165-172 | None is kept as None; otherwise it succeeds exactly when tuple(zlim) has two float-convertible items, and then stores their float values; every failure is the single ValueError |
| Heatmaps.Coerce | unifiedplottinginterface/figure.py:173-175 | np.array raises the ragged-array ValueError for the argument exactly when the input has no common shape, and otherwise gives that shape; which inputs are ragged is stated by the three lemmas below |
| Heatmaps.RaggedRaises | unifiedplottinginterface/figure.py:173-175 | a list or tuple with two items of different shapes makes np.array raise the ragged-array ValueError |
| Heatmaps.ItemRaises | unifiedplottinginterface/figure.py:173-175 | a list or tuple with a ragged item is itself ragged, and np.array raises |
| Heatmaps.UniformItemsCoerce | unifiedplottinginterface/figure.py:173-175 | a non-empty list or tuple whose items all have shape s coerces to shape [len] + s |
| Heatmaps.CheckGrid | unifiedplottinginterface/figure.py:173-181 | when the arrays pass, x and y are one-dimensional with shapes (len x) and (len y), and z has shape (len(y), len(x)) |
| Heatmaps.HeatmapTrace | unifiedplottinginterface/figure.py:159-186 | an accepted call stores x, y, z, the allowed options, a valid zscale, the zlabel as given, and the zlim converted to floats; its arrays passed every check |
| Heatmaps.DefaultArgumentsPass | unifiedplottinginterface/figure.py:146 | with the defaults zscale='lin', zlabel=None, zlim=None and no options, every argument check passes, and the call raises exactly what the array checks raise |
| Heatmaps.FirstErrorAt | unifiedplottinginterface/figure.py:159-181 | when checks 0..k-1 pass and check k fails, check k's error is the one raised |
| Heatmaps.FirstErrorAppend | unifiedplottinginterface/figure.py:159-181 | checks in two stages raise the first stage's error if it has one, else the second stage's |
| Heatmaps.GridChecksInOrder | unifiedplottinginterface/figure.py:173-181 | the array checks raise the first failing check among: coerce x, y, z; x and y 1-D; z 2-D; shape |
| Heatmaps.ArgumentChecksInOrder | unifiedplottinginterface/figure.py:159-172 | a failing option, zscale, zlabel or zlim check is raised before any array check runs |
| Heatmaps.HeatmapChecksInOrder | unifiedplottinginterface/figure.py:159-181 | heatmap raises the first failing check of the ten, in code order, and succeeds exactly when all ten pass |
| Heatmaps.NoFirstErrorMeansAllPass | unifiedplottinginterface/figure.py:159-181 | there is no first error exactly when every check passes |
| Heatmaps.ScalarListShape | unifiedplottinginterface/figure.py:173-174 | a list of numbers becomes a one-dimensional array of its length |
| Heatmaps.GridShape | unifiedplottinginterface/figure.py:175 | a non-empty list of equal-length rows becomes a (rows, n) array |
| Heatmaps.HeatmapAcceptsGrid | tests/plotter_tests/test_heatmap.py:15-57 | every call of the demo's shape is accepted: numeric x and y, a z of len(y) rows of len(x) numbers, zscale 'lin' or 'log', zlabel None or any string, zlim None or (.5, 1.5), and options drawn from alpha; the trace stores the options, the zscale and the zlabel as given, and zlim as (0.5, 1.5) or None |
| Heatmaps.HeatmapRejectsExtraRow | unifiedplottinginterface/figure.py:180-181 | z with one row more than len(y) raises the shape error, which reports both z's shape and (len(y), len(x)) |
| Heatmaps.ZlimExamples | unifiedplottinginterface/figure.py:165-172 | zlim (1, 'a') and a three-item zlim are refused; (1, 2) is stored as (1.0, 2.0) |
| Figures.StyleWithColor | unifiedplottinginterface/figure.py:97-98 | after the default is filled in, the options always have a colour that is not None: the caller's own colour when one was given, the picked colour otherwise; every other option is kept as given |
| Figures.StyleColour | unifiedplottinginterface/figure.py:117-118 | on a figure that has made k picks, a trace with no colour given gets DEFAULT_COLORS[k mod 9], a given colour is kept, and every other option passes through unchanged |
| Figures.Figure.constructor | unifiedplottinginterface/figure.py:12-14 | a new figure shows its title, has no other property set, holds no traces, and has the unrotated default palette |
| Figures.Figure.SetTitle | unifiedplottinginterface/figure.py:23-25 | the title becomes str(value), and nothing else changes |
| Figures.Figure.SetSubtitle | unifiedplottinginterface/figure.py:39-41 | the subtitle becomes str(value), and nothing else changes |
| Figures.Figure.SetXlabel | unifiedplottinginterface/figure.py:46-48 | the x label becomes str(value), and nothing else changes |
| Figures.Figure.SetYlabel | unifiedplottinginterface/figure.py:53-55 | the y label becomes str(value), and nothing else changes |
| Figures.Figure.SetShowTitle | unifiedplottinginterface/figure.py:30-34 | raises what CheckShowTitle raises; stores the value when accepted and changes nothing otherwise |
| Figures.Figure.SetXscale | unifiedplottinginterface/figure.py:60-64 | raises what CheckAxisScale raises; stores 'lin' or 'log' when accepted and changes nothing otherwise |
| Figures.Figure.SetYscale | unifiedplottinginterface/figure.py:69-73 | raises what CheckAxisScale raises; stores 'lin' or 'log' when accepted and changes nothing otherwise |
| Figures.Figure.SetAspect | unifiedplottinginterface/figure.py:78-83 | raises what CheckAspect raises; stores the aspect when accepted and changes nothing otherwise |
| Figures.Figure.SetAttr | unifiedplottinginterface/figure.py:87-89 | setattr on one key runs that property's setter: the new properties and the error are exactly those of SetProperty |
| Figures.Figure.Set | unifiedplottinginterface/figure.py:85-89 | set(**kwargs) leaves exactly the properties, and raises exactly the error, of the fold ApplyKwargs, with the figure invariant kept |
| Figures.Figure.PickDefaultColor | unifiedplottinginterface/figure.py:202-205 | returns the front colour, which is DEFAULT_COLORS[picks], and moves it to the back of the queue; the invariant that the queue is the palette rotated by the picks is kept |
| Figures.Figure.DefaultColor | unifiedplottinginterface/figure.py:97-98 | a colour is picked only when none (or None) was given, and the options then carry it |
| Figures.Figure.Scatter | unifiedplottinginterface/figure.py:92-107 | rotates the palette exactly when no colour was given, even if a check then fails; appends the ScatterTrace record exactly when it is accepted; raises its error otherwise; old traces are untouched |
| Figures.Figure.Histogram | unifiedplottinginterface/figure.py:109-144 | rotates the palette exactly when no colour was given; on allowed options it appends a histogram holding the outline of the binned non-NaN samples, the bin edges and [underflow] + hist + [overflow]; otherwise it raises the options error and appends nothing |
| Figures.Figure.Heatmap | unifiedplottinginterface/figure.py:146-187 | the palette is untouched; appends the HeatmapTrace record exactly when every check passes, and raises the first failing check's error otherwise |

## Left out

- np.histogram is the `binning` parameter of `Figures.Figure.Histogram`, a function from the non-NaN samples to (hist, bin_edges). The model does not compute the `bins` and `density` options; it assumes only that there is one more edge than bins.
- Figures.Figure.Histogram: the `<samples> must be iterable` check cannot fail in the model, because samples are already a sequence of optional reals (None standing for NaN). Non-numeric samples are not represented.
- validate_kwargs is modelled only by its contract as used here: it lets through exactly the allowed keys and raises ValueError for any other. validation.py is not part of this model, so what the error message holds is not known; the set of unsupported keys carried by `UnsupportedOptions` is this model's choice.
- str() is the `toStr` parameter of the text-property setters. No property of Python's str() is assumed.
- PyValues.ToFloat: the model's float() of a string accepts only an optional sign and decimal digits with an optional point. It does not model exponents, 'inf'/'nan', surrounding whitespace or underscores, and it does not model OverflowError for huge integers.
- PyValues.ArrayShape: np.array is modelled only for the shape it gives, not for dtype coercion. Ragged input raises ValueError, as in numpy 1.24 and later.
- Floating point: reals are exact, and NaN and infinity are not values of `VReal`. The outline's infinities are the separate `ExtReal` type.
- Properties.ApplyKwargs, and so Figures.Figure.Set, only succeed for the eight properties. The code's hasattr check would also let through any other attribute of the object, such as `traces`, a method name or `DEFAULT_COLORS`, and setattr would then overwrite it; the model reports those keys as invalid.
- Both "aspect never set" and "aspect set to None" read back None in the code, and the model stores them the same way.
- DEFAULT_COLORS is a class attribute that the first pick shadows with an instance attribute. The model gives every figure its own queue from construction, which behaves the same unless the class attribute itself is changed.
- Figures.Figure.Heatmap takes every argument explicitly: Dafny has no default arguments, so a call that relies on zscale='lin', zlabel=None and zlim=None passes those values itself (Heatmaps.DefaultArgumentsPass states what they do).
- Trace records are modelled as datatypes, not as the dictionaries the code builds; `np.array` copies of x, y and z are kept as the given values.
- Drawing, the plotter packages, the figure manager, setup.py and the demo scripts are not part of this model.
