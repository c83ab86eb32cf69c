/** `processData`: reshapes one intraday time series into the inputs of
    the line chart (open price over time), the bar chart (volume over time)
    and the pie chart (open/high/low/close of one observation). */
module Charts {
  import opened Wrappers
  import opened Seqs
  import opened TimeSeries

  /** The response body, reduced to the one member `processData` reads:
      the object under the key "Time Series (5min)", None when the body
      has no such key. */
  datatype Body = Body(timeSeries: Option<Series>)

  /** One dataset of the line chart; `legend` is Chart.js's `label`
      (a reserved word in Dafny). */
  datatype LineDataset = LineDataset(legend: string, data: seq<string>, fill: bool, borderColor: string, tension: real)

  /** One dataset of the bar chart. */
  datatype BarDataset = BarDataset(legend: string, data: seq<string>, backgroundColor: string, borderColor: string, borderWidth: nat)

  /** One dataset of the pie chart; `N` is whatever number type
      `parseFloat` produces. */
  datatype PieDataset<N> = PieDataset(legend: string, data: seq<N>, backgroundColor: seq<string>)

  /** The `{ labels, datasets }` object a chart component takes. */
  datatype Chart<D> = Chart(labels: seq<string>, datasets: seq<D>)

  /** The object `processData` returns. */
  datatype ChartData<N> = ChartData(line: Chart<LineDataset>, bar: Chart<BarDataset>, pie: Chart<PieDataset<N>>)

  /** The runtime faults `processData` can raise on a malformed body:
      `Object.keys(undefined)` when the series key is absent, and a field
      read on `undefined` when the series is empty. */
  datatype Fault = KeysOfUndefined | ReadOfUndefined

  /** The selectors `item => item["1. open"]` and `item => item["5. volume"]`. */
  function OpenOf(item: Record): string { item.open }
  function VolumeOf(item: Record): string { item.volume }

  const PieLabels: seq<string> := ["Open", "High", "Low", "Close"]
  const PieColours: seq<string> := ["#FF6384", "#36A2EB", "#FFCE56", "#FF5733"]

  /** `processData(data)`, with `parseFloat` left abstract. Prices and
      volumes stay the raw strings of the records; only the four pie
      values are parsed. */
  function ProcessData<N>(data: Body, parseFloat: string -> N): (r: Result<ChartData<N>, Fault>)
    ensures r == Failure(KeysOfUndefined) <==> data.timeSeries.None?
    ensures r == Failure(ReadOfUndefined) <==> data.timeSeries == Some([])
    ensures r.Success? <==> data.timeSeries.Some? && data.timeSeries.value != []
  {
    match data.timeSeries
    case None => Failure(KeysOfUndefined)
    case Some(timeSeries) =>
      var labels := Reverse(Keys(timeSeries));
      var prices := Reverse(Map(OpenOf, Values(timeSeries)));
      var volumes := Reverse(Map(VolumeOf, Values(timeSeries)));
      // `labels[0]` of an empty array is undefined, and indexing an object
      // with undefined reads its key "undefined"
      var lastDayData := Lookup(timeSeries, if labels != [] then labels[0] else "undefined");
      match lastDayData
      case None => Failure(ReadOfUndefined)
      case Some(last) =>
        var pie := Chart(PieLabels, [PieDataset("Stock Prices",
          [parseFloat(last.open), parseFloat(last.high), parseFloat(last.low), parseFloat(last.close)],
          PieColours)]);
        Success(ChartData(
          Chart(labels, [LineDataset("Stock Price", prices, false, "rgb(75, 192, 192)", 0.1)]),
          Chart(labels, [BarDataset("Volume", volumes, "rgba(75, 192, 192, 0.2)", "rgb(75, 192, 192)", 1)]),
          pie))
  }

  /** How a successful result is built from a non-empty series: the
      helper the lemmas below start from. */
  lemma SuccessParts<N>(ts: Series, parseFloat: string -> N)
    requires ts != []
    ensures ProcessData(Body(Some(ts)), parseFloat).Success?
    ensures var c := ProcessData(Body(Some(ts)), parseFloat).value;
      && c.line.labels == c.bar.labels == Reverse(Keys(ts))
      && |c.line.datasets| == 1 && |c.bar.datasets| == 1
      && c.line.datasets[0].data == Reverse(Map(OpenOf, Values(ts)))
      && c.bar.datasets[0].data == Reverse(Map(VolumeOf, Values(ts)))
  {
  }

  /** The line and the bar chart share one label sequence with one entry
      per observation, and each carries a single dataset, "Stock Price"
      over the prices and "Volume" over the volumes, as long as the labels. */
  lemma ChartShapes<N>(ts: Series, parseFloat: string -> N)
    requires ts != []
    ensures ProcessData(Body(Some(ts)), parseFloat).Success?
    ensures var c := ProcessData(Body(Some(ts)), parseFloat).value;
      && c.line.labels == c.bar.labels
      && |c.line.labels| == |ts|
      && |c.line.datasets| == 1 && c.line.datasets[0].legend == "Stock Price"
      && |c.bar.datasets| == 1 && c.bar.datasets[0].legend == "Volume"
      && |c.line.datasets[0].data| == |c.bar.datasets[0].data| == |ts|
  {
    SuccessParts(ts, parseFloat);
  }

  /** The labels are the keys in reverse stored order, so reversing them
      once more gives back the key order. */
  lemma LabelsReverseKeys<N>(ts: Series, parseFloat: string -> N)
    requires ts != []
    ensures ProcessData(Body(Some(ts)), parseFloat).Success?
    ensures var labels := ProcessData(Body(Some(ts)), parseFloat).value.line.labels;
      && |labels| == |ts|
      && (forall i :: 0 <= i < |ts| ==> labels[i] == ts[|ts| - 1 - i].0)
      && Reverse(labels) == Keys(ts)
  {
    SuccessParts(ts, parseFloat);
    ReverseReverse(Keys(ts));
  }

  /** `labels`, `prices` and `volumes` are index-aligned views of the
      series: one entry per observation, and at every index the label is
      the key under which the series holds the record whose "1. open" and
      "5. volume" are the price and the volume there; that record is the
      one at the same distance from the end of the stored order. */
  ghost predicate Aligned(ts: Series, labels: seq<string>, prices: seq<string>, volumes: seq<string>) {
    && |labels| == |prices| == |volumes| == |ts|
    && forall i :: 0 <= i < |ts| ==>
      && Lookup(ts, labels[i]) == Some(ts[|ts| - 1 - i].1)
      && prices[i] == ts[|ts| - 1 - i].1.open
      && volumes[i] == ts[|ts| - 1 - i].1.volume
  }

  /** Index alignment of the line and bar outputs. */
  lemma SeriesAligned<N>(ts: Series, parseFloat: string -> N)
    requires ts != []
    ensures ProcessData(Body(Some(ts)), parseFloat).Success?
    ensures var c := ProcessData(Body(Some(ts)), parseFloat).value;
      && |c.line.datasets| == 1 && |c.bar.datasets| == 1
      && Aligned(ts, c.line.labels, c.line.datasets[0].data, c.bar.datasets[0].data)
  {
    SuccessParts(ts, parseFloat);
    ReversedSeriesAligned(ts);
  }

  /** The reversed keys, opens and volumes of any series are aligned. */
  lemma ReversedSeriesAligned(ts: Series)
    ensures Aligned(ts, Reverse(Keys(ts)), Reverse(Map(OpenOf, Values(ts))), Reverse(Map(VolumeOf, Values(ts))))
  {
    forall i | 0 <= i < |ts| {
      ReversedAt(ts, i);
    }
  }

  /** At one index, the reversed key, open and volume all come from the
      stored entry at the same distance from the end. */
  lemma {:induction false} ReversedAt(ts: Series, i: nat)
    requires i < |ts|
    ensures Lookup(ts, Reverse(Keys(ts))[i]) == Some(ts[|ts| - 1 - i].1)
    ensures Reverse(Map(OpenOf, Values(ts)))[i] == ts[|ts| - 1 - i].1.open
    ensures Reverse(Map(VolumeOf, Values(ts)))[i] == ts[|ts| - 1 - i].1.volume
  {
    LookupAt(ts, |ts| - 1 - i);
  }

  /** The pie chart always has the four labels Open, High, Low, Close, in
      that order, and one dataset whose values are the parsed "1. open",
      "2. high", "3. low" and "4. close" of the record under the first
      label: the record that came last in stored order. The backend sends
      the newest observation first, so this is the oldest observation of
      the window, whatever the name `lastDayData` suggests. */
  lemma PieSnapshot<N>(ts: Series, parseFloat: string -> N)
    requires ts != []
    ensures ProcessData(Body(Some(ts)), parseFloat).Success?
    ensures var c := ProcessData(Body(Some(ts)), parseFloat).value;
      var last := ts[|ts| - 1];
      && c.line.labels != [] && c.line.labels[0] == last.0
      && c.pie.labels == ["Open", "High", "Low", "Close"]
      && c.pie.datasets == [PieDataset("Stock Prices",
           [parseFloat(last.1.open), parseFloat(last.1.high), parseFloat(last.1.low), parseFloat(last.1.close)],
           ["#FF6384", "#36A2EB", "#FFCE56", "#FF5733"])]
  {
    SuccessParts(ts, parseFloat);
    LookupAt(ts, |ts| - 1);
  }

  /** Two observations, stored newest first. */
  const TwoObservations: Series :=
    [("2024-01-01 09:30", Record("1", "2", "0.5", "1.5", "100")),
     ("2024-01-01 09:25", Record("0.9", "1.8", "0.4", "1.2", "90"))]

  /** On two observations stored newest first, the labels come out oldest
      first, prices and volumes stay unparsed strings in the same order,
      and the pie reads the 09:25 observation. */
  lemma TwoObservationsCharts<N>(parseFloat: string -> N)
    ensures ProcessData(Body(Some(TwoObservations)), parseFloat).Success?
    ensures var c := ProcessData(Body(Some(TwoObservations)), parseFloat).value;
      && c.line.labels == c.bar.labels == ["2024-01-01 09:25", "2024-01-01 09:30"]
      && c.line.datasets[0].data == ["0.9", "1"]
      && c.bar.datasets[0].data == ["90", "100"]
      && c.pie.datasets[0].data == [parseFloat("0.9"), parseFloat("1.8"), parseFloat("0.4"), parseFloat("1.2")]
  {
    var ts := TwoObservations;
    SuccessParts(ts, parseFloat);
    assert Keys(ts) == ["2024-01-01 09:30", "2024-01-01 09:25"];
    assert Map(OpenOf, Values(ts)) == ["1", "0.9"];
    assert Map(VolumeOf, Values(ts)) == ["100", "90"];
    PieSnapshot(ts, parseFloat);
  }
}
