/** The `App` component: three pieces of presentation state, the one
    fetch that settles them, and the choice of what to render. */
module App {
  import opened Wrappers
  import opened Charts

  /** What the single GET of the quote endpoint produced: a response body,
      or a rejection carrying the error's `message`. */
  datatype FetchOutcome = Response(body: Body) | Rejected(message: string)

  /** What the component renders. `ChartsView(None)` is the chart layout
      returned with undefined chart data (`chartData` is `{}`); `Crashed` is a
      fault raised by `processData` while rendering. */
  datatype View<N> =
    | LoadingView
    | ErrorView(message: string)
    | ChartsView(chartData: Option<ChartData<N>>)
    | Crashed(fault: Fault)

  /** JavaScript truthiness of the `error` state: `null` and the empty
      string are falsy. */
  predicate Truthy(error: Option<string>) {
    error.Some? && error.value != ""
  }

  class App {
    var stockData: Option<Body>
    var loading: bool
    var error: Option<string>

    /** The state before the fetch: nothing has arrived yet. */
    ghost predicate Initial()
      reads this
    {
      stockData.None? && loading && error.None?
    }

    /** The state after the fetch: no longer loading, and exactly one of
        the data or the error has been set. */
    ghost predicate Settled()
      reads this
    {
      !loading && (stockData.Some? != error.Some?)
    }

    /** `useState(null)`, `useState(true)`, `useState(null)`. */
    constructor ()
      ensures Initial()
    {
      stockData := None;
      loading := true;
      error := None;
    }

    /** `fetchStockData`: a response sets the data, a rejection sets the
        error to its message, and either way loading ends. */
    method FetchStockData(outcome: FetchOutcome)
      modifies this
      ensures !loading
      ensures outcome.Response? ==> stockData == Some(outcome.body) && error == old(error)
      ensures outcome.Rejected? ==> error == Some(outcome.message) && stockData == old(stockData)
      ensures old(Initial()) ==> Settled()
    {
      match outcome {
        case Response(body) =>
          stockData := Some(body);
        case Rejected(message) =>
          error := Some(message);
      }
      loading := false;
    }

    /** The render: loading wins over an error, an error over the data, and
        `processData` runs only on data that has arrived. */
    function Render<N>(parseFloat: string -> N): (v: View<N>)
      reads this
      ensures loading <==> v == LoadingView
      ensures v.ErrorView? <==> !loading && Truthy(error)
      ensures v.ErrorView? ==> v.message == error.value
      ensures v.ChartsView? && v.chartData.None? <==> !loading && !Truthy(error) && stockData.None?
      ensures v.ChartsView? && v.chartData.Some? ==>
        !loading && !Truthy(error) && stockData.Some? && ProcessData(stockData.value, parseFloat) == Success(v.chartData.value)
      ensures v.Crashed? ==>
        !loading && !Truthy(error) && stockData.Some? && ProcessData(stockData.value, parseFloat) == Failure(v.fault)
    {
      if loading then LoadingView
      else if Truthy(error) then ErrorView(error.value)
      else if stockData.None? then ChartsView(None)
      else match ProcessData(stockData.value, parseFloat)
        case Success(chartData) => ChartsView(Some(chartData))
        case Failure(fault) => Crashed(fault)
    }
  }

  /** One lifetime of the component: mount and render, run the one fetch,
      render again. The first render always shows the loading message; the
      second never does, and shows the error message, the charts, or the
      fault `processData` raised on the body. */
  method Session<N>(outcome: FetchOutcome, parseFloat: string -> N) returns (first: View<N>, settled: View<N>)
    ensures first == LoadingView
    ensures settled != LoadingView
    ensures outcome.Rejected? && outcome.message != "" ==> settled == ErrorView(outcome.message)
    ensures outcome.Rejected? && outcome.message == "" ==> settled == ChartsView(None)
    ensures outcome.Response? ==>
      match ProcessData(outcome.body, parseFloat)
      case Success(c) => settled == ChartsView(Some(c))
      case Failure(f) => settled == Crashed(f)
  {
    var app := new App();
    first := app.Render(parseFloat);
    app.FetchStockData(outcome);
    settled := app.Render(parseFloat);
  }
}
