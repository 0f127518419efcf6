/** `taper_timeseries`: validation of the tapering request and dispatch to
    the lalsimulation taper. The taper itself is an opaque `window` that
    gives the new value of each sample; only the choice of arguments it is
    called with is modelled. */
module Taper {
  import opened Outcomes
  import opened Signals

  /** The lalsimulation tapering constants. */
  datatype TaperFlag = TaperStart | TaperEnd | TaperStartEnd

  /** The dtype of the samples; only the two float widths can be tapered. */
  datatype DType = Float32 | Float64 | OtherDType(name: string)

  /** `taper_map`: method name to lalsimulation constant, None for no taper. */
  const TaperMap: map<string, Option<TaperFlag>> :=
    map[
      "TAPER_NONE" := None,
      "TAPER_START" := Some(TaperStart),
      "start" := Some(TaperStart),
      "TAPER_END" := Some(TaperEnd),
      "end" := Some(TaperEnd),
      "TAPER_STARTEND" := Some(TaperStartEnd),
      "startend" := Some(TaperStartEnd)
    ]

  /** The method names the docstring of taper_timeseries lists. */
  const MethodNames: set<string> :=
    {"TAPER_NONE", "TAPER_START", "TAPER_END", "TAPER_STARTEND", "start", "end", "startend"}

  /** The external taper (`SimInspiralREAL4WaveTaper` or
      `SimInspiralREAL8WaveTaper`, chosen by dtype): the value sample i holds
      after tapering `data` in place with `flag`. */
  type Window = (DType, TaperFlag, seq<real>, nat) -> real

  /** The whole series after the external taper has run over it. */
  function Tapered(window: Window, dtype: DType, flag: TaperFlag, data: seq<real>): (r: seq<real>)
    ensures |r| == |data|
  {
    seq(|data|, i requires 0 <= i < |data| => window(dtype, flag, data, i))
  }

  /** `taper_timeseries(tsdata, tapermethod)`: a missing method, then an
      unknown method, then an unsupported dtype are refused, in that order. */
  function TaperTimeseries(ts: TimeSeries<real>, dtype: DType, tapermethod: Option<string>,
                           window: Window): (r: Result<TimeSeries<real>>)
    ensures tapermethod.None? ==> r == Err(MissingTaperMethod)
    ensures tapermethod.Some? && tapermethod.value !in MethodNames ==>
              r == Err(UnknownTaperMethod(tapermethod.value))
    ensures tapermethod.Some? && tapermethod.value in MethodNames && dtype.OtherDType? ==>
              r == Err(UnsupportedDType)
    ensures r.Ok? <==> tapermethod.Some? && tapermethod.value in MethodNames && !dtype.OtherDType?
    ensures r.Ok? ==> r.value.deltaT == ts.deltaT && r.value.epoch == ts.epoch
    ensures r.Ok? && tapermethod.value == "TAPER_NONE" ==> r.value == ts
    ensures r.Ok? && tapermethod.value in {"TAPER_START", "start"} ==>
              r.value.data == Tapered(window, dtype, TaperStart, ts.data)
    ensures r.Ok? && tapermethod.value in {"TAPER_END", "end"} ==>
              r.value.data == Tapered(window, dtype, TaperEnd, ts.data)
    ensures r.Ok? && tapermethod.value in {"TAPER_STARTEND", "startend"} ==>
              r.value.data == Tapered(window, dtype, TaperStartEnd, ts.data)
  {
    match tapermethod
    case None => Err(MissingTaperMethod)
    case Some(name) =>
      if name !in TaperMap then Err(UnknownTaperMethod(name))
      else if dtype.OtherDType? then Err(UnsupportedDType)
      else
        match TaperMap[name]
        case None => Ok(ts)
        case Some(flag) => Ok(TimeSeries(Tapered(window, dtype, flag, ts.data), ts.deltaT, ts.epoch))
  }

  /** The failures raise the exception classes the source names: ValueError
      for the method, TypeError for the dtype. */
  lemma TaperErrorClasses(ts: TimeSeries<real>, dtype: DType, tapermethod: Option<string>,
                          window: Window)
    ensures var r := TaperTimeseries(ts, dtype, tapermethod, window);
            r.Err? ==> (r.error.Raises() == TypeError <==> tapermethod.Some? && tapermethod.value in MethodNames)
  {
  }

  /** Every name of the map is a method the docstring lists and the reverse, and the
      short and long spellings of a method select the same constant. */
  lemma TaperMapNames()
    ensures TaperMap.Keys == MethodNames
    ensures TaperMap["start"] == TaperMap["TAPER_START"]
    ensures TaperMap["end"] == TaperMap["TAPER_END"]
    ensures TaperMap["startend"] == TaperMap["TAPER_STARTEND"]
  {
  }
}
