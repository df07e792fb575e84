/** The single filtering-and-accumulating pass of `process_streaming_files`
    over all loaded entries: per-year and per-(track, artist) sums of
    `ms_played`. */
module Aggregation {
  import opened Records
  import opened DateRange
  import Tally

  /** What the loop body does with one entry. */
  datatype Effect =
    | Skip                                      // a key is missing, `ts` does not parse, or `ts` is outside the window
    | TouchYear(year: int)                      // `yearly_playtime[year] += ms` inserts year: 0, then the addition raises
    | AddYear(year: int, ms: int)               // a name is falsy: only the yearly total grows
    | AddBoth(year: int, key: SongKey, ms: int) // both names truthy: both totals grow

  /** The entry has all four keys, a parsable `ts`, and `ts` inside the window:
      it reaches the yearly accumulator. */
  predicate Reaches(e: Entry, w: Window) {
    && !e.msPlayed.Missing? && !e.track.Missing? && !e.artist.Missing?
    && e.ts.Present? && InWindow(w, e.ts.value)
  }

  function EffectOf(e: Entry, w: Window): Effect {
    if !Reaches(e, w) then Skip
    else if e.msPlayed.Unusable? then TouchYear(e.ts.value.year)
    else if Truthy(e.track) && Truthy(e.artist) then
      AddBoth(e.ts.value.year, SongKey(e.track.value, e.artist.value), e.msPlayed.value)
    else AddYear(e.ts.value.year, e.msPlayed.value)
  }

  /** The contribution of one entry to `yearly_playtime`; an insertion that
      adds nothing is a contribution of 0. */
  function YearItem(e: Entry, w: Window): seq<(int, int)> {
    match EffectOf(e, w)
    case Skip => []
    case TouchYear(y) => [(y, 0)]
    case AddYear(y, ms) => [(y, ms)]
    case AddBoth(y, _, ms) => [(y, ms)]
  }

  /** The contribution of one entry to `song_playtime`. */
  function SongItem(e: Entry, w: Window): seq<(SongKey, int)> {
    match EffectOf(e, w)
    case AddBoth(_, k, ms) => [(k, ms)]
    case _ => []
  }

  function YearItems(entries: seq<Entry>, w: Window): seq<(int, int)> {
    if entries == [] then []
    else YearItems(entries[..|entries| - 1], w) + YearItem(entries[|entries| - 1], w)
  }

  function SongItems(entries: seq<Entry>, w: Window): seq<(SongKey, int)> {
    if entries == [] then []
    else SongItems(entries[..|entries| - 1], w) + SongItem(entries[|entries| - 1], w)
  }

  lemma ItemsStep(entries: seq<Entry>, i: nat, w: Window)
    requires i < |entries|
    ensures YearItems(entries[..i + 1], w) == YearItems(entries[..i], w) + YearItem(entries[i], w)
    ensures SongItems(entries[..i + 1], w) == SongItems(entries[..i], w) + SongItem(entries[i], w)
  {
    assert entries[..i + 1][..i] == entries[..i];
  }

  /** The aggregation loop. The two maps are the `defaultdict`s after the
      pass; `songOrder` is the insertion order of `song_playtime`, the order
      in which `song_playtime.items()` lists them. */
  method Aggregate(entries: seq<Entry>, w: Window)
    returns (songPlaytime: map<SongKey, int>, songOrder: seq<SongKey>, yearlyPlaytime: map<int, int>)
    ensures yearlyPlaytime.Keys == Tally.Keys(YearItems(entries, w))
    ensures forall y | y in yearlyPlaytime :: yearlyPlaytime[y] == Tally.SumFor(YearItems(entries, w), y)
    ensures songPlaytime.Keys == Tally.Keys(SongItems(entries, w))
    ensures forall k | k in songPlaytime :: songPlaytime[k] == Tally.SumFor(SongItems(entries, w), k)
    ensures songOrder == Tally.Order(SongItems(entries, w))
  {
    songPlaytime, songOrder, yearlyPlaytime := map[], [], map[];
    for i := 0 to |entries|
      invariant Tally.Accumulates(yearlyPlaytime, YearItems(entries[..i], w))
      invariant Tally.Accumulates(songPlaytime, SongItems(entries[..i], w))
      invariant songOrder == Tally.Order(SongItems(entries[..i], w))
    {
      var entry := entries[i];
      ItemsStep(entries, i, w);
      ghost var years, songs := YearItems(entries[..i], w), SongItems(entries[..i], w);
      assert years + [] == years && songs + [] == songs;
      if !entry.msPlayed.Missing? && !entry.track.Missing? && !entry.artist.Missing? && !entry.ts.Missing? {
        if entry.ts.Unusable? {
          // `strptime` raises and the entry is skipped
          continue;
        }
        var entryDate := entry.ts.value;
        if Before(entryDate, w.from) || Before(w.to, entryDate) {
          continue;
        }
        var year := entryDate.year;
        if entry.msPlayed.Unusable? {
          // the `defaultdict` inserts the year before `+=` raises
          Tally.UpsertStep(yearlyPlaytime, years, year, 0);
          yearlyPlaytime := Tally.Upsert(yearlyPlaytime, year, 0);
          continue;
        }
        var msPlayed := entry.msPlayed.value;
        Tally.UpsertStep(yearlyPlaytime, years, year, msPlayed);
        yearlyPlaytime := Tally.Upsert(yearlyPlaytime, year, msPlayed);
        if Truthy(entry.track) && Truthy(entry.artist) {
          var key := SongKey(entry.track.value, entry.artist.value);
          Tally.UpsertStep(songPlaytime, songs, key, msPlayed);
          if key !in songPlaytime {
            songOrder := songOrder + [key];
          }
          songPlaytime := Tally.Upsert(songPlaytime, key, msPlayed);
        }
      }
    }
    assert entries[..|entries|] == entries;
  }

  /** The `ms_played` an entry adds to year `y`'s total: an entry that
      reaches the accumulator with a usable duration, whatever its names. */
  function MsTowardYear(e: Entry, w: Window, y: int): int {
    if Reaches(e, w) && e.msPlayed.Present? && e.ts.value.year == y then e.msPlayed.value else 0
  }

  /** The `ms_played` an entry adds to song `k`'s total: an entry that
      reaches the accumulator with a usable duration and exactly these two
      names, both non-empty. */
  function MsTowardSong(e: Entry, w: Window, k: SongKey): int {
    if MakesSong(e, w, k) then e.msPlayed.value else 0
  }

  /** `sum(f(e) for e in entries)`. */
  function SumOf(entries: seq<Entry>, f: Entry -> int): int {
    if entries == [] then 0 else f(entries[0]) + SumOf(entries[1..], f)
  }

  lemma {:induction false} SumOfAppend(entries: seq<Entry>, e: Entry, f: Entry -> int)
    ensures SumOf(entries + [e], f) == SumOf(entries, f) + f(e)
  {
    if entries != [] {
      assert (entries + [e])[1..] == entries[1..] + [e];
      SumOfAppend(entries[1..], e, f);
    }
  }

  /** The duration an entry that reaches the accumulators adds: `ms_played`,
      or nothing when it cannot be added. */
  function Usable(e: Entry): int {
    if e.msPlayed.Present? then e.msPlayed.value else 0
  }

  lemma ItemShape(e: Entry, w: Window)
    ensures YearItem(e, w) == if Reaches(e, w) then [(e.ts.value.year, Usable(e))] else []
    ensures SongItem(e, w) ==
      if Reaches(e, w) && e.msPlayed.Present? && Truthy(e.track) && Truthy(e.artist)
      then [(SongKey(e.track.value, e.artist.value), e.msPlayed.value)] else []
  {
  }

  lemma ItemsLast(entries: seq<Entry>, w: Window)
    requires entries != []
    ensures YearItems(entries, w) == YearItems(entries[..|entries| - 1], w) + YearItem(entries[|entries| - 1], w)
    ensures SongItems(entries, w) == SongItems(entries[..|entries| - 1], w) + SongItem(entries[|entries| - 1], w)
  {
  }

  /** After the pass, year `y`'s total is the sum of `ms_played` over the
      entries with all four keys and a parsable `ts` inside the window whose
      year is `y`, whether or not their names are null or empty. */
  lemma {:induction false} YearlyTotalMeaning(entries: seq<Entry>, w: Window, y: int)
    ensures Tally.SumFor(YearItems(entries, w), y) == SumOf(entries, e => MsTowardYear(e, w, y))
  {
    if entries != [] {
      var init, last := entries[..|entries| - 1], entries[|entries| - 1];
      assert entries == init + [last];
      YearlyTotalMeaning(init, w, y);
      SumOfAppend(init, last, e => MsTowardYear(e, w, y));
      ItemsLast(entries, w);
      ItemShape(last, w);
      var xs := YearItems(init, w);
      if Reaches(last, w) {
        Tally.AppendOne(xs, (last.ts.value.year, Usable(last)), y);
      } else {
        assert xs + [] == xs;
      }
    }
  }

  predicate InYear(e: Entry, w: Window, y: int) {
    Reaches(e, w) && e.ts.value.year == y
  }

  /** Year `y` is a key after the pass exactly when some entry with all four
      keys has a parsable `ts` inside the window in year `y` (an unusable
      `ms_played` still inserts the key). */
  lemma {:induction false} YearlyKeyMeaning(entries: seq<Entry>, w: Window, y: int)
    ensures y in Tally.Keys(YearItems(entries, w)) <==>
      exists i | 0 <= i < |entries| :: InYear(entries[i], w, y)
  {
    if entries != [] {
      var init, last := entries[..|entries| - 1], entries[|entries| - 1];
      YearlyKeyMeaning(init, w, y);
      ItemsLast(entries, w);
      ItemShape(last, w);
      var xs := YearItems(init, w);
      assert y in Tally.Keys(YearItems(entries, w)) <==> y in Tally.Keys(xs) || InYear(last, w, y) by {
        if Reaches(last, w) {
          Tally.AppendOne(xs, (last.ts.value.year, Usable(last)), y);
        } else {
          assert xs + [] == xs;
        }
      }
      InYearSplit(entries, init, w, y);
    }
  }

  lemma InYearSplit(entries: seq<Entry>, init: seq<Entry>, w: Window, y: int)
    requires entries != [] && init == entries[..|entries| - 1]
    ensures (exists i | 0 <= i < |entries| :: InYear(entries[i], w, y)) <==>
            (exists i | 0 <= i < |init| :: InYear(init[i], w, y)) || InYear(entries[|entries| - 1], w, y)
  {
    if exists i | 0 <= i < |entries| :: InYear(entries[i], w, y) {
      var i :| 0 <= i < |entries| && InYear(entries[i], w, y);
      if i < |init| {
        assert init[i] == entries[i];
      }
    }
    if exists i | 0 <= i < |init| :: InYear(init[i], w, y) {
      var i :| 0 <= i < |init| && InYear(init[i], w, y);
      assert init[i] == entries[i];
    }
  }

  /** After the pass, song `k`'s total is the sum of `ms_played` over the
      entries with all four keys, a parsable `ts` inside the window and
      exactly these two non-empty names. Entries with a null or empty name
      add nothing. */
  lemma {:induction false} SongTotalMeaning(entries: seq<Entry>, w: Window, k: SongKey)
    ensures Tally.SumFor(SongItems(entries, w), k) == SumOf(entries, e => MsTowardSong(e, w, k))
  {
    if entries != [] {
      var init, last := entries[..|entries| - 1], entries[|entries| - 1];
      assert entries == init + [last];
      SongTotalMeaning(init, w, k);
      SumOfAppend(init, last, e => MsTowardSong(e, w, k));
      ItemsLast(entries, w);
      ItemShape(last, w);
      var xs := SongItems(init, w);
      if SongItem(last, w) != [] {
        Tally.AppendOne(xs, SongItem(last, w)[0], k);
      } else {
        assert xs + [] == xs;
      }
    }
  }

  /** The song `k` is a key after the pass exactly when some entry with all
      four keys, a parsable `ts` inside the window and a usable duration
      carries exactly these two names, both non-empty. */
  lemma {:induction false} SongKeyMeaning(entries: seq<Entry>, w: Window, k: SongKey)
    ensures k in Tally.Keys(SongItems(entries, w)) <==>
      exists i | 0 <= i < |entries| :: MakesSong(entries[i], w, k)
  {
    if entries != [] {
      var init, last := entries[..|entries| - 1], entries[|entries| - 1];
      SongKeyMeaning(init, w, k);
      SongKeyStep(entries, w, k);
      assert entries == init + [last];
      MakesSongStep(init, last, w, k);
    }
  }

  /** One more entry adds `k` to the song keys exactly when it makes that song. */
  lemma SongKeyStep(entries: seq<Entry>, w: Window, k: SongKey)
    requires entries != []
    ensures k in Tally.Keys(SongItems(entries, w)) <==>
      k in Tally.Keys(SongItems(entries[..|entries| - 1], w)) || MakesSong(entries[|entries| - 1], w, k)
  {
    var last := entries[|entries| - 1];
    var xs := SongItems(entries[..|entries| - 1], w);
    ItemsLast(entries, w);
    ItemShape(last, w);
    if SongItem(last, w) != [] {
      Tally.AppendOne(xs, SongItem(last, w)[0], k);
    } else {
      assert xs + [] == xs;
    }
  }

  lemma MakesSongStep(init: seq<Entry>, last: Entry, w: Window, k: SongKey)
    ensures (exists i | 0 <= i < |init + [last]| :: MakesSong((init + [last])[i], w, k)) <==>
      (exists i | 0 <= i < |init| :: MakesSong(init[i], w, k)) || MakesSong(last, w, k)
  {
    var entries := init + [last];
    if exists i | 0 <= i < |entries| :: MakesSong(entries[i], w, k) {
      var i :| 0 <= i < |entries| && MakesSong(entries[i], w, k);
      if i < |init| {
        assert init[i] == entries[i];
      }
    }
    if exists i | 0 <= i < |init| :: MakesSong(init[i], w, k) {
      var i :| 0 <= i < |init| && MakesSong(init[i], w, k);
      assert init[i] == entries[i];
    }
    assert entries[|init|] == last;
  }

  predicate MakesSong(e: Entry, w: Window, k: SongKey) {
    && Reaches(e, w) && e.msPlayed.Present?
    && e.track == Present(k.track) && e.artist == Present(k.artist)
    && k.track != "" && k.artist != ""
  }

  /** Every duration that reaches a song total also reaches a yearly total,
      so with non-negative durations all song totals together never exceed
      all yearly totals together. */
  lemma {:induction false} SongsWithinYears(entries: seq<Entry>, w: Window)
    requires forall i | 0 <= i < |entries| && entries[i].msPlayed.Present? :: entries[i].msPlayed.value >= 0
    ensures Tally.Total(SongItems(entries, w)) <= Tally.Total(YearItems(entries, w))
  {
    if entries != [] {
      var init, last := entries[..|entries| - 1], entries[|entries| - 1];
      SongsWithinYears(init, w);
      ItemsLast(entries, w);
      ItemShape(last, w);
      var songs, years := SongItems(init, w), YearItems(init, w);
      if Reaches(last, w) {
        Tally.AppendOne(years, YearItem(last, w)[0], 0);
      } else {
        assert years + [] == years;
      }
      if SongItem(last, w) != [] {
        Tally.AppendOne(songs, SongItem(last, w)[0], SongItem(last, w)[0].0);
      } else {
        assert songs + [] == songs;
      }
    }
  }
}
