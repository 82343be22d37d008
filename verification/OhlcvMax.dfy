/** `_ohlcv_max_ts`: the greatest timestamp in nested OHLCV data. */
module OhlcvMax {
  import opened Prelude

  /** Python data as JSON gives it; dictionaries are lists of entries. */
  datatype Data =
    | Null
    | Bool(b: bool)
    | Int(i: int)
    | Float(r: real)
    | Text(s: string)
    | List(items: seq<Data>)
    | Dict(entries: seq<Entry>)

  datatype Entry = Entry(key: string, value: Data)

  /** The timestamp of a row: its first cell, if it is a number; Python counts booleans as integers. */
  function RowTime(row: Data): Option<int> {
    if row.List? && row.items != [] then
      match row.items[0]
      case Int(i) => Some(i)
      case Float(r) => Some(Truncate(r))
      case Bool(b) => Some(if b then 1 else 0)
      case _ => None
    else None
  }

  /** A row's timestamp is its first cell, cut towards zero; what follows does not matter, and other rows have none. */
  lemma RowTimes(row: Data, rest: seq<Data>, i: int, x: real, b: bool, s: string)
    ensures RowTime(List([Int(i)] + rest)) == Some(i)
    ensures RowTime(List([Float(x)] + rest)).Some?
    ensures var cut := RowTime(List([Float(x)] + rest)).value as real;
      (x >= 0.0 ==> cut <= x < cut + 1.0) && (x <= 0.0 ==> cut - 1.0 < x <= cut)
    ensures RowTime(List([Bool(b)] + rest)) == Some(if b then 1 else 0)
    ensures RowTime(List([Text(s)] + rest)) == RowTime(List([Null] + rest)) == RowTime(List([])) == None
    ensures RowTime(row).Some? ==> row.List? && row.items != []
  {
    TruncateCuts(x);
  }

  /**
   The timestamps the traversal can reach: first cells of a list's rows, and those of the
   values two levels down in a dictionary of dictionaries, to any depth.
   */
  ghost predicate Reachable(data: Data, ts: int)
    decreases data
  {
    match data
    case List(items) => exists k :: 0 <= k < |items| && RowTime(items[k]) == Some(ts)
    case Dict(entries) =>
      exists k, l ::
        && 0 <= k < |entries| && entries[k].value.Dict?
        && 0 <= l < |entries[k].value.entries|
        && Reachable(entries[k].value.entries[l].value, ts)
    case _ => false
  }

  /** No timestamp reachable through these entries is greater than the best so far. */
  ghost predicate Covered(entries: seq<Entry>, best: Option<int>) {
    forall i, j, ts ::
      (&& 0 <= i < |entries| && entries[i].value.Dict?
       && 0 <= j < |entries[i].value.entries|
       && Reachable(entries[i].value.entries[j].value, ts)) ==>
      best.Some? && ts <= best.value
  }

  /** The maximum of the reachable timestamps: attained, an upper bound, and absent exactly when there are none. */
  method OhlcvMaxTs(data: Data) returns (best: Option<int>)
    ensures best.Some? ==> Reachable(data, best.value)
    ensures forall ts :: Reachable(data, ts) ==> best.Some? && ts <= best.value
    decreases data
  {
    best := None;
    if data.Dict? {
      var entries := data.entries;
      for k := 0 to |entries|
        invariant best.Some? ==> Reachable(data, best.value)
        invariant Covered(entries[..k], best)
      {
        if !entries[k].value.Dict? {
          continue;
        }
        var inner := entries[k].value.entries;
        for l := 0 to |inner|
          invariant best.Some? ==> Reachable(data, best.value)
          invariant Covered(entries[..k], best)
          invariant forall j, ts :: 0 <= j < l && Reachable(inner[j].value, ts) ==> best.Some? && ts <= best.value
        {
          var ts := OhlcvMaxTs(inner[l].value);
          if ts.Some? && (best.None? || ts.value > best.value) {
            best := ts;
            assert Reachable(entries[k].value.entries[l].value, ts.value);
          }
        }
      }
      return;
    }
    if data.List? {
      for k := 0 to |data.items|
        invariant best.Some? ==> Reachable(data, best.value)
        invariant forall i :: 0 <= i < k && RowTime(data.items[i]).Some? ==>
          best.Some? && RowTime(data.items[i]).value <= best.value
      {
        var ts := RowTime(data.items[k]);
        if ts.Some? && (best.None? || ts.value > best.value) {
          best := ts;
          assert RowTime(data.items[k]) == Some(ts.value);
        }
      }
    }
  }
}
