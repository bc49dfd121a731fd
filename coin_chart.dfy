/** The parts of the `CoinChart` component that decide what is shown: the active-indicator
    list and the branch `renderCharts` takes. */
module CoinChart {
  import opened Wrappers
  import opened Toggle

  datatype Indicator = MovingAverage | Volume | Macd | Rsi

  /** The chart area `renderCharts` produces. */
  datatype View =
    | Spinner
    | ErrorPanel(message: string)
    | NoData
    | Charts(volumePanel: bool, macdPanel: bool, rsiPanel: bool)
    | RenderFailed

  /** `renderCharts`. `error` is the component's error state, absent for `null`; `buildSucceeds`
      says whether building the chart data and options completes without throwing. */
  function RenderCharts(loading: bool, error: Option<string>, dataLength: nat,
                        indicators: seq<Indicator>, buildSucceeds: bool): (v: View)
    ensures v == Spinner <==> loading
    ensures v.ErrorPanel? <==> !loading && TruthyStr(error)
    ensures v.ErrorPanel? ==> v.message == error.value
    ensures v == NoData <==> !loading && !TruthyStr(error) && dataLength == 0
    ensures v == RenderFailed <==> !loading && !TruthyStr(error) && dataLength > 0 && !buildSucceeds
    ensures v.Charts? ==> (v.volumePanel <==> Volume in indicators)
    ensures v.Charts? ==> (v.macdPanel <==> Macd in indicators)
    ensures v.Charts? ==> (v.rsiPanel <==> Rsi in indicators)
  {
    if loading then Spinner
    else if TruthyStr(error) then ErrorPanel(error.value)
    else if dataLength == 0 then NoData
    else if !buildSucceeds then RenderFailed
    else Charts(Volume in indicators, Macd in indicators, Rsi in indicators)
  }

  /** The state of the chart component this model keeps: its indicator list. */
  class ChartState {
    var indicators: seq<Indicator>

    constructor (initial: seq<Indicator>)
      ensures indicators == initial
    {
      indicators := initial;
    }

    /** `toggleIndicator` */
    method ToggleIndicator(indicator: Indicator)
      modifies this
      ensures indicators == Toggled(old(indicators), indicator)
      ensures indicator in old(indicators) ==> indicator !in indicators
      ensures indicator !in old(indicators) ==> indicators == old(indicators) + [indicator]
    {
      indicators := Toggled(indicators, indicator);
    }
  }

  /** Toggling an absent indicator twice restores the list. */
  method ToggleTwice(c: ChartState, indicator: Indicator)
    requires indicator !in c.indicators
    modifies c
    ensures c.indicators == old(c.indicators)
  {
    c.ToggleIndicator(indicator);
    c.ToggleIndicator(indicator);
    ToggleTwiceAbsent(old(c.indicators), indicator);
  }
}
