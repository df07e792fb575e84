/** `process_streaming_files` after the files are loaded: the dataset's
    range, the effective window, the aggregation pass and the song ranking. */
module Pipeline {
  import opened Records
  import Tally
  import opened DateRange
  import opened Aggregation
  import opened SongRanking

  /** `(ranked_songs, yearly_playtime)`, durations kept in milliseconds. */
  datatype Report = Report(ranked: seq<RankedSong>, yearly: map<int, int>)

  /** The whole pass over the loaded entries `allData`, given the dates the
      user typed. It fails exactly as `get_date_range` does; otherwise the
      yearly map accumulates the in-window entries, and the ranking holds
      each song of the window once with its total, longest first, adding
      up to all the time credited to songs. */
  method ProcessStreamingFiles(allData: seq<Entry>, userFrom: Option<Date>, userTo: Option<Date>)
    returns (r: Result<Report, RangeError>)
    ensures r.Failure? <==> GetDateRange(allData).Failure?
    ensures r.Failure? ==> r.error == GetDateRange(allData).error
    ensures r.Success? ==>
      var range := GetDateRange(allData).value;
      var w := ResolveWindow(range.0, range.1, userFrom, userTo);
      var songs := SongItems(allData, w);
      && Tally.Accumulates(r.value.yearly, YearItems(allData, w))
      && SortedDesc(r.value.ranked)
      && |r.value.ranked| == |Tally.Keys(songs)|
      && (forall i | 0 <= i < |r.value.ranked| ::
            KeyOf(r.value.ranked[i]) in Tally.Keys(songs)
            && r.value.ranked[i].ms == Tally.SumFor(songs, KeyOf(r.value.ranked[i])))
      && (forall i, j | 0 <= i < j < |r.value.ranked| :: KeyOf(r.value.ranked[i]) != KeyOf(r.value.ranked[j]))
      && Duration(r.value.ranked) == Tally.Total(songs)
      && ((forall i | 0 <= i < |allData| && allData[i].msPlayed.Present? :: allData[i].msPlayed.value >= 0) ==>
            Duration(r.value.ranked) <= Tally.Total(YearItems(allData, w)))
  {
    var range := GetDateRange(allData);
    if range.Failure? {
      return Failure(range.error);
    }
    var (earliest, latest) := range.value;
    var w := ResolveWindow(earliest, latest, userFrom, userTo);
    var songPlaytime, songOrder, yearlyPlaytime := Aggregate(allData, w);
    var ranked := RankSongs(songPlaytime, songOrder);
    ghost var songs := SongItems(allData, w);
    OnePerKey(songPlaytime, songOrder, ranked);
    Tally.SumOverSums(songPlaytime, songs, songOrder);
    Tally.Conservation(songs, songOrder);
    DistinctKeys(songOrder, songs);
    if forall i | 0 <= i < |allData| && allData[i].msPlayed.Present? :: allData[i].msPlayed.value >= 0 {
      SongsWithinYears(allData, w);
    }
    r := Success(Report(ranked, yearlyPlaytime));
  }

  lemma DistinctKeys(order: seq<SongKey>, songs: seq<(SongKey, int)>)
    requires order == Tally.Order(songs)
    ensures |order| == |Tally.Keys(songs)|
  {
    Tally.DistinctCount(order);
    assert (set k | k in order) == Tally.Keys(songs);
  }

  /** Three plays, two of them of the same song, all in 2023. */
  function ThreePlaysData(): seq<Entry> {
    [ Entry(Present(DateTime(2023, 1, 1, 10, 0, 0)), Present(120000), Present("A"), Present("X")),
      Entry(Present(DateTime(2023, 1, 1, 11, 0, 0)), Present(60000), Present("B"), Present("X")),
      Entry(Present(DateTime(2023, 6, 1, 0, 0, 0)), Present(180000), Present("A"), Present("X")) ]
  }

  lemma ThreePlaysRange()
    ensures GetDateRange(ThreePlaysData()) == Success((DateTime(2023, 1, 1, 10, 0, 0), DateTime(2023, 6, 1, 0, 0, 0)))
  {
    var d := ThreePlaysData();
    var ts := [d[0].ts.value, d[1].ts.value, d[2].ts.value];
    assert d[2..][1..] == [];
    assert Timestamps(d[2..][1..]) == Some([]);
    assert [ts[2]] + [] == ts[2..];
    assert Timestamps(d[2..]) == Some(ts[2..]);
    assert d[1..][1..] == d[2..];
    assert [ts[1]] + ts[2..] == ts[1..];
    assert Timestamps(d[1..]) == Some(ts[1..]);
    assert [ts[0]] + ts[1..] == ts;
    assert Timestamps(d) == Some(ts);
    assert ts[1..][1..] == ts[2..];
    assert Earliest(ts[1..]) == ts[1] && Latest(ts[1..]) == ts[2];
  }

  lemma ThreePlaysItems(w: Window)
    requires w == ResolveWindow(DateTime(2023, 1, 1, 10, 0, 0), DateTime(2023, 6, 1, 0, 0, 0), None, None)
    ensures SongItems(ThreePlaysData(), w)
         == [(SongKey("A", "X"), 120000), (SongKey("B", "X"), 60000), (SongKey("A", "X"), 180000)]
    ensures YearItems(ThreePlaysData(), w) == [(2023, 120000), (2023, 60000), (2023, 180000)]
  {
    var d := ThreePlaysData();
    assert InWindow(w, d[0].ts.value) && InWindow(w, d[1].ts.value) && InWindow(w, d[2].ts.value);
    ItemsLast(d, w);
    ItemsLast(d[..2], w);
    assert d[..2][..1] == d[..1];
    ItemsLast(d[..1], w);
    assert d[..1][..0] == [];
  }

  lemma ThreePlaysSongs()
    ensures var items := [(SongKey("A", "X"), 120000), (SongKey("B", "X"), 60000), (SongKey("A", "X"), 180000)];
      && Tally.Order(items) == [SongKey("A", "X"), SongKey("B", "X")]
      && Tally.SumFor(items, SongKey("A", "X")) == 300000
      && Tally.SumFor(items, SongKey("B", "X")) == 60000
  {
    var a, b := SongKey("A", "X"), SongKey("B", "X");
    ThreePlaysSongOrder(a, b);
    ThreePlaysSongSum(a, b, a);
    ThreePlaysSongSum(a, b, b);
  }

  lemma ThreePlaysSongOrder(a: SongKey, b: SongKey)
    requires a != b
    ensures Tally.Order([(a, 120000), (b, 60000), (a, 180000)]) == [a, b]
  {
    var one := [(a, 120000)];
    var two := one + [(b, 60000)];
    assert [] + [(a, 120000)] == one;
    Tally.AppendOne([], (a, 120000), a);
    Tally.AppendOne(one, (b, 60000), a);
    Tally.AppendOne(two, (a, 180000), a);
    assert two + [(a, 180000)] == [(a, 120000), (b, 60000), (a, 180000)];
  }

  lemma ThreePlaysSongSum(a: SongKey, b: SongKey, k: SongKey)
    ensures Tally.SumFor([(a, 120000), (b, 60000), (a, 180000)], k)
         == (if a == k then 300000 else 0) + (if b == k then 60000 else 0)
  {
    var one := [(a, 120000)];
    var two := one + [(b, 60000)];
    assert [] + [(a, 120000)] == one;
    Tally.AppendOne([], (a, 120000), k);
    Tally.AppendOne(one, (b, 60000), k);
    Tally.AppendOne(two, (a, 180000), k);
    assert two + [(a, 180000)] == [(a, 120000), (b, 60000), (a, 180000)];
  }

  lemma ThreePlaysYears()
    ensures var years := [(2023, 120000), (2023, 60000), (2023, 180000)];
      Tally.Keys(years) == {2023} && Tally.SumFor(years, 2023) == 360000
  {
    var years := [(2023, 120000), (2023, 60000), (2023, 180000)];
    assert [] + [years[0]] == years[..1];
    Tally.AppendOne([], years[0], 2023);
    assert years[..1] + [years[1]] == years[..2];
    Tally.AppendOne(years[..1], years[1], 2023);
    assert years[..2] + [years[2]] == years;
    Tally.AppendOne(years[..2], years[2], 2023);
  }

  /** Over the full range, the song totals of the three plays are 300000 ms
      and 60000 ms, in that order of first appearance, and the single year
      2023 gets all 360000 ms. */
  lemma ThreePlays()
    ensures
      var w := ResolveWindow(DateTime(2023, 1, 1, 10, 0, 0), DateTime(2023, 6, 1, 0, 0, 0), None, None);
      var songs, years := SongItems(ThreePlaysData(), w), YearItems(ThreePlaysData(), w);
      && GetDateRange(ThreePlaysData()) == Success((DateTime(2023, 1, 1, 10, 0, 0), DateTime(2023, 6, 1, 0, 0, 0)))
      && Tally.Order(songs) == [SongKey("A", "X"), SongKey("B", "X")]
      && Tally.SumFor(songs, SongKey("A", "X")) == 300000
      && Tally.SumFor(songs, SongKey("B", "X")) == 60000
      && Tally.Keys(years) == {2023}
      && Tally.SumFor(years, 2023) == 360000
  {
    ThreePlaysRange();
    ThreePlaysItems(ResolveWindow(DateTime(2023, 1, 1, 10, 0, 0), DateTime(2023, 6, 1, 0, 0, 0), None, None));
    ThreePlaysSongs();
    ThreePlaysYears();
  }

  /** The only ranking of those two song totals, longest first. */
  lemma ThreePlaysRanking(ranked: seq<RankedSong>)
    requires SortedDesc(ranked)
    requires multiset(ranked) == multiset{RankedSong("A", "X", 300000), RankedSong("B", "X", 60000)}
    ensures ranked == [RankedSong("A", "X", 300000), RankedSong("B", "X", 60000)]
  {
    assert |ranked| == |multiset(ranked)| == 2;
    assert ranked[0] in multiset(ranked) && ranked[1] in multiset(ranked);
    assert ranked[0].ms >= ranked[1].ms;
  }
}
