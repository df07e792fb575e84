/** The dataset's date range (`get_date_range`) and the effective inclusive
    window built from it and the user's optional bounds
    (`get_user_date_range` and the clamping in `process_streaming_files`). */
module DateRange {
  import opened Records

  /** Why `get_date_range` raises instead of returning. */
  datatype RangeError =
    | UnparsableTimestamp  // `strptime` raises on some entry's `ts`
    | NoTimestamps         // `min` of an empty list raises

  /** The parsed `ts` of every entry carrying one, in order; `None` when
      some `ts` cannot be parsed (the comprehension raises). */
  function Timestamps(entries: seq<Entry>): (r: Option<seq<DateTime>>)
    ensures r.None? <==> exists i | 0 <= i < |entries| :: entries[i].ts.Unusable?
    ensures r.Some? ==> forall t | t in r.value :: exists i | 0 <= i < |entries| :: entries[i].ts == Present(t)
    ensures r.Some? ==> forall i | 0 <= i < |entries| && entries[i].ts.Present? :: entries[i].ts.value in r.value
  {
    if entries == [] then Some([])
    else
      var rest := Timestamps(entries[1..]);
      assert forall i | 1 <= i < |entries| :: entries[i] == entries[1..][i - 1];
      match entries[0].ts
      case Missing => rest
      case Unusable => None
      case Present(t) => if rest.None? then None else Some([t] + rest.value)
  }

  /** `min`: the first earliest instant of a non-empty list. */
  function Earliest(ts: seq<DateTime>): (r: DateTime)
    requires ts != []
    ensures r in ts
    ensures forall i | 0 <= i < |ts| :: NotAfter(r, ts[i])
  {
    if |ts| == 1 then ts[0]
    else
      var m := Earliest(ts[1..]);
      assert forall i | 1 <= i < |ts| :: ts[i] == ts[1..][i - 1];
      if Before(m, ts[0]) then m else ts[0]
  }

  /** `max`: the first latest instant of a non-empty list. */
  function Latest(ts: seq<DateTime>): (r: DateTime)
    requires ts != []
    ensures r in ts
    ensures forall i | 0 <= i < |ts| :: NotAfter(ts[i], r)
  {
    if |ts| == 1 then ts[0]
    else
      var m := Latest(ts[1..]);
      assert forall i | 1 <= i < |ts| :: ts[i] == ts[1..][i - 1];
      if Before(ts[0], m) then m else ts[0]
  }

  /** `get_date_range`: the earliest and the latest `ts` of the dataset. */
  function GetDateRange(entries: seq<Entry>): (r: Result<(DateTime, DateTime), RangeError>)
  {
    match Timestamps(entries)
    case None => Failure(UnparsableTimestamp)
    case Some(ts) => if ts == [] then Failure(NoTimestamps) else Success((Earliest(ts), Latest(ts)))
  }

  /** On success every `ts` lies within the range and both ends are some
      entry's `ts`; it fails exactly when some `ts` cannot be parsed or no
      entry carries one. */
  lemma GetDateRangeSpec(entries: seq<Entry>)
    ensures var r := GetDateRange(entries);
      && (r.Success? ==>
            && (forall i | 0 <= i < |entries| && entries[i].ts.Present? ::
                  NotAfter(r.value.0, entries[i].ts.value) && NotAfter(entries[i].ts.value, r.value.1))
            && (exists i | 0 <= i < |entries| :: entries[i].ts == Present(r.value.0))
            && (exists j | 0 <= j < |entries| :: entries[j].ts == Present(r.value.1)))
      && (r == Failure(UnparsableTimestamp) <==> exists i | 0 <= i < |entries| :: entries[i].ts.Unusable?)
      && (r == Failure(NoTimestamps) <==>
            && (forall i | 0 <= i < |entries| :: !entries[i].ts.Unusable?)
            && (forall i | 0 <= i < |entries| :: entries[i].ts.Missing?))
  {
    var ots := Timestamps(entries);
    if ots.Some? {
      var ts := ots.value;
      if ts != [] {
        var lo, hi := Earliest(ts), Latest(ts);
        forall i | 0 <= i < |entries| && entries[i].ts.Present?
          ensures NotAfter(lo, entries[i].ts.value) && NotAfter(entries[i].ts.value, hi)
        {
          var k :| 0 <= k < |ts| && ts[k] == entries[i].ts.value;
        }
      }
    }
  }

  /** The inclusive instant window the aggregation keeps. */
  datatype Window = Window(from: DateTime, to: DateTime)

  /** The user's optional bounds, with an omitted bound or one outside the
      dataset's range replaced by the dataset's own bound. */
  function ResolveWindow(earliest: DateTime, latest: DateTime, userFrom: Option<Date>, userTo: Option<Date>): (w: Window)
    ensures NotAfter(earliest, w.from) && NotAfter(w.to, latest)
    ensures userFrom.None? ==> w.from == earliest
    ensures userFrom.Some? ==>
      (if Before(StartOfDay(userFrom.value), earliest) then w.from == earliest else w.from == StartOfDay(userFrom.value))
    ensures userTo.None? ==> w.to == latest
    ensures userTo.Some? ==>
      (if Before(latest, EndOfDay(userTo.value)) then w.to == latest else w.to == EndOfDay(userTo.value))
  {
    var from :=
      match userFrom
      case None => earliest
      case Some(d) => if Before(StartOfDay(d), earliest) then earliest else StartOfDay(d);
    var to :=
      match userTo
      case None => latest
      case Some(d) => if Before(latest, EndOfDay(d)) then latest else EndOfDay(d);
    Window(from, to)
  }

  /** The entry is not skipped by `entry_date < from or entry_date > to`. */
  predicate InWindow(w: Window, t: DateTime) {
    !(Before(t, w.from) || Before(w.to, t))
  }

  /** Both ends of the window are inclusive. */
  lemma InWindowInclusive(w: Window, t: DateTime)
    ensures InWindow(w, t) <==> NotAfter(w.from, t) && NotAfter(t, w.to)
    ensures InWindow(w, w.from) <==> NotAfter(w.from, w.to)
    ensures InWindow(w, w.to) <==> NotAfter(w.from, w.to)
  {
  }

  /** With a "to" day inside the dataset's range, an instant with a real time
      of day is kept by the upper bound exactly when it falls on that day or
      earlier: 23:59:59 is in, one second later is out. */
  lemma ToDayInclusive(earliest: DateTime, latest: DateTime, userFrom: Option<Date>, d: Date, t: DateTime)
    requires ValidClock(t)
    requires NotAfter(EndOfDay(d), latest)
    ensures var w := ResolveWindow(earliest, latest, userFrom, Some(d));
      !Before(w.to, t) <==> !DayBefore(d, DateOf(t))
  {
    EndOfDayInclusive(d, t);
  }
}
