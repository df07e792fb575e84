/** Listening-event records of a streaming-history export, and the
    calendar instants they carry. */
module Records {

  datatype Option<T> = None | Some(value: T)

  datatype Result<T, E> = Success(value: T) | Failure(error: E)

  /** One field of a JSON record: the key is absent, or present with a value
      the program cannot use (JSON null, a string `strptime` rejects, a value
      that cannot be added to an int), or present with a usable value. */
  datatype Field<T> = Missing | Unusable | Present(value: T)

  /** A calendar day, as `datetime.strptime(s, "%Y-%m-%d")` reads it. */
  datatype Date = Date(year: int, month: int, day: int)

  /** A naive instant, as `datetime.strptime(s, "%Y-%m-%dT%H:%M:%SZ")` reads it. */
  datatype DateTime = DateTime(year: int, month: int, day: int, hour: int, minute: int, second: int)

  /** The fields of one exported listening event that the report reads:
      `ts`, `ms_played`, `master_metadata_track_name` and
      `master_metadata_album_artist_name`. */
  datatype Entry = Entry(ts: Field<DateTime>, msPlayed: Field<int>, track: Field<string>, artist: Field<string>)

  /** The key of the per-song accumulator. */
  datatype SongKey = SongKey(track: string, artist: string)

  /** Python truthiness of a name: a non-empty string (null and "" are falsy). */
  predicate Truthy(name: Field<string>) {
    name.Present? && name.value != ""
  }

  /** The clock of an instant is a real time of day. */
  predicate ValidClock(t: DateTime) {
    0 <= t.hour <= 23 && 0 <= t.minute <= 59 && 0 <= t.second <= 59
  }

  function DateOf(t: DateTime): Date {
    Date(t.year, t.month, t.day)
  }

  /** A parsed "YYYY-MM-DD" date: midnight of that day. */
  function StartOfDay(d: Date): (t: DateTime)
    ensures DateOf(t) == d && ValidClock(t)
  {
    DateTime(d.year, d.month, d.day, 0, 0, 0)
  }

  /** The parsed "to" date with `replace(hour=23, minute=59, second=59)`. */
  function EndOfDay(d: Date): (t: DateTime)
    ensures DateOf(t) == d && ValidClock(t)
  {
    DateTime(d.year, d.month, d.day, 23, 59, 59)
  }

  /** Chronological order of instants (`<` on datetime): field by field. */
  predicate Before(a: DateTime, b: DateTime) {
    if a.year != b.year then a.year < b.year
    else if a.month != b.month then a.month < b.month
    else if a.day != b.day then a.day < b.day
    else if a.hour != b.hour then a.hour < b.hour
    else if a.minute != b.minute then a.minute < b.minute
    else a.second < b.second
  }

  /** `a <= b` on datetime. */
  predicate NotAfter(a: DateTime, b: DateTime) {
    !Before(b, a)
  }

  /** Chronological order of calendar days. */
  predicate DayBefore(a: Date, b: Date) {
    if a.year != b.year then a.year < b.year
    else if a.month != b.month then a.month < b.month
    else a.day < b.day
  }

  lemma BeforeIsStrictTotalOrder(a: DateTime, b: DateTime, c: DateTime)
    ensures !Before(a, a)
    ensures Before(a, b) && Before(b, c) ==> Before(a, c)
    ensures a == b || Before(a, b) || Before(b, a)
    ensures NotAfter(a, b) <==> Before(a, b) || a == b
  {
  }

  /** Day granularity of the stretched "to" bound: an instant with a real
      time of day is at or before 23:59:59 of day `d` exactly when its day is
      not after `d`; so one second after that bound is already excluded. */
  lemma EndOfDayInclusive(d: Date, t: DateTime)
    requires ValidClock(t)
    ensures NotAfter(t, EndOfDay(d)) <==> !DayBefore(d, DateOf(t))
  {
  }

  /** Likewise midnight of the "from" day admits the whole of that day. */
  lemma StartOfDayInclusive(d: Date, t: DateTime)
    requires ValidClock(t)
    ensures NotAfter(StartOfDay(d), t) <==> !DayBefore(DateOf(t), d)
  {
  }
}
