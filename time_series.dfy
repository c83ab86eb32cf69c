/** The intraday time-series object of the quote response: timestamp keys,
    each holding one observation record. A JavaScript object is modelled as
    the sequence of its (key, value) entries in iteration order; the
    timestamp keys are not integer-like, so that order is insertion order,
    and `Object.keys` and `Object.values` both walk this one sequence. */
module TimeSeries {
  import opened Wrappers
  import opened Seqs

  /** One observation: the fields "1. open", "2. high", "3. low",
      "4. close" and "5. volume", each the decimal string the backend sends. */
  datatype Record = Record(open: string, high: string, low: string, close: string, volume: string)

  /** An object never holds the same key twice. */
  ghost predicate DistinctKeys(entries: seq<(string, Record)>) {
    forall i, j :: 0 <= i < j < |entries| ==> entries[i].0 != entries[j].0
  }

  /** The value under "Time Series (5min)": entries in stored order. */
  type Series = entries: seq<(string, Record)> | DistinctKeys(entries) witness []

  /** The key and the value of one entry. */
  function KeyOf(entry: (string, Record)): string { entry.0 }
  function ValueOf(entry: (string, Record)): Record { entry.1 }

  /** `Object.keys(series)`: the keys in stored order. */
  function Keys(entries: seq<(string, Record)>): (keys: seq<string>)
    ensures |keys| == |entries|
    ensures forall i :: 0 <= i < |entries| ==> keys[i] == entries[i].0
  {
    Map(KeyOf, entries)
  }

  /** `Object.values(series)`: the records in the same stored order. */
  function Values(entries: seq<(string, Record)>): (values: seq<Record>)
    ensures |values| == |entries|
    ensures forall i :: 0 <= i < |entries| ==> values[i] == entries[i].1
  {
    Map(ValueOf, entries)
  }

  /** The property read `series[key]` for an own key: the record stored
      under `key`, or `undefined` (None) when `key` is not one of the
      object's own keys. Properties inherited from `Object.prototype`
      (`toString`, `constructor`, ...) are not modelled. Which record a key
      that occurs gives back is LookupAt's business. */
  function Lookup(entries: seq<(string, Record)>, key: string): (r: Option<Record>)
    ensures r.Some? <==> key in Keys(entries)
  {
    if entries == [] then None
    else if entries[0].0 == key then Some(entries[0].1)
    else Lookup(entries[1..], key)
  }

  /** Because keys are distinct, reading an entry's own key gives back
      that entry's record, wherever it stands. */
  lemma {:induction false} LookupAt(entries: Series, i: nat)
    requires i < |entries|
    ensures Lookup(entries, entries[i].0) == Some(entries[i].1)
  {
    if i > 0 {
      assert entries[0].0 != entries[i].0;
      var tail: seq<(string, Record)> := entries[1..];
      assert forall p, q :: 0 <= p < q < |tail| ==> tail[p] == entries[p + 1] && tail[q] == entries[q + 1];
      LookupAt(tail, i - 1);
    }
  }
}
