/** The artist statistics of `print_artist_rankings`: per-artist totals and
    chart positions gathered from the song ranking, the mean of each
    artist's best (at most five) positions, and the two orderings of the
    artists, by total time and by that mean. */
module ArtistRanking {
  import opened Records
  import Tally
  import Sorting
  import opened SongRanking

  type Positive = n: int | n >= 1 witness 1

  /** `(artist, total_minutes, avg_position, num_songs, top_count)`, with the
      average kept exact as the sum of the `topCount` best positions. */
  datatype ArtistStat = ArtistStat(artist: string, totalMs: int, positionSum: int, topCount: Positive, numSongs: Positive)

  /** The contributions `(artist, duration)` of the ranking rows to
      `artist_playtime`, in ranking order. */
  function ArtistItems(rankings: seq<RankedSong>): seq<(string, int)> {
    if rankings == [] then []
    else ArtistItems(rankings[..|rankings| - 1]) + [(rankings[|rankings| - 1].artist, rankings[|rankings| - 1].ms)]
  }

  /** The 1-based positions of `artist`'s rows in the ranking, in ranking
      order: `artist_positions[artist]` after the loop. */
  function PositionsOf(rankings: seq<RankedSong>, artist: string): seq<int> {
    if rankings == [] then []
    else
      PositionsOf(rankings[..|rankings| - 1], artist)
      + (if rankings[|rankings| - 1].artist == artist then [|rankings|] else [])
  }

  /** One more row adds one contribution, and one position to its artist. */
  lemma RowStep(rows: seq<RankedSong>, row: RankedSong, artist: string)
    ensures ArtistItems(rows + [row]) == ArtistItems(rows) + [(row.artist, row.ms)]
    ensures PositionsOf(rows + [row], artist)
         == PositionsOf(rows, artist) + (if row.artist == artist then [|rows| + 1] else [])
  {
    assert (rows + [row])[..|rows|] == rows;
  }

  /** `artist_positions` after the rows `rows`: each artist's list holds
      its positions among them. */
  predicate PositionsMatch(positions: map<string, seq<int>>, rows: seq<RankedSong>) {
    forall a | a in positions :: positions[a] == PositionsOf(rows, a)
  }

  /** The three accumulators after the rows `rows`: `artist_playtime` holds
      each artist's summed durations, `artist_positions` the same artists with
      their positions, and `order` is the insertion order of the dict. */
  predicate Grouped(playtime: map<string, int>, positions: map<string, seq<int>>, order: seq<string>, rows: seq<RankedSong>) {
    && Tally.Accumulates(playtime, ArtistItems(rows))
    && order == Tally.Order(ArtistItems(rows))
    && positions.Keys == playtime.Keys
    && PositionsMatch(positions, rows)
  }

  /** The first loop: `artist_playtime[artist] += minutes` and
      `artist_positions[artist].append(position)` for every row, numbering
      rows from 1. `artistOrder` is the insertion order of
      `artist_playtime`. */
  method GroupByArtist(rankings: seq<RankedSong>)
    returns (artistPlaytime: map<string, int>, artistPositions: map<string, seq<int>>, artistOrder: seq<string>)
    ensures artistPlaytime.Keys == artistPositions.Keys == Tally.Keys(ArtistItems(rankings))
    ensures forall a | a in artistPlaytime :: artistPlaytime[a] == Tally.SumFor(ArtistItems(rankings), a)
    ensures forall a | a in artistPositions :: artistPositions[a] == PositionsOf(rankings, a)
    ensures artistOrder == Tally.Order(ArtistItems(rankings))
  {
    artistPlaytime, artistPositions, artistOrder := map[], map[], [];
    for i := 0 to |rankings|
      invariant Grouped(artistPlaytime, artistPositions, artistOrder, rankings[..i])
    {
      var position, artist, ms := i + 1, rankings[i].artist, rankings[i].ms;
      var current: seq<int> := [];
      if artist in artistPositions {
        current := artistPositions[artist];
      }
      SliceStep(rankings, i);
      GroupStep(artistPlaytime, artistPositions, artistOrder, rankings[..i], rankings[i], current);
      if artist !in artistPlaytime {
        artistOrder := artistOrder + [artist];
      }
      artistPlaytime := Tally.Upsert(artistPlaytime, artist, ms);
      artistPositions := artistPositions[artist := current + [position]];
    }
    assert rankings[..|rankings|] == rankings;
  }

  lemma SliceStep<T>(s: seq<T>, i: nat)
    requires i < |s|
    ensures s[..i + 1] == s[..i] + [s[i]]
    ensures |s[..i]| == i
  {
  }

  /** One iteration of the first loop keeps the accumulators in step with
      the rows seen. */
  lemma GroupStep(playtime: map<string, int>, positions: map<string, seq<int>>, order: seq<string>, rows: seq<RankedSong>, row: RankedSong,
                  current: seq<int>)
    requires Grouped(playtime, positions, order, rows)
    requires row.artist in positions ==> current == positions[row.artist]
    requires row.artist !in positions ==> current == []
    ensures Grouped(Tally.Upsert(playtime, row.artist, row.ms),
                    positions[row.artist := current + [|rows| + 1]],
                    if row.artist in playtime then order else order + [row.artist],
                    rows + [row])
  {
    TallyStep(playtime, order, rows, row);
    if row.artist !in positions {
      PositionsAbsent(rows, row.artist);
    }
    PositionsStep(positions, rows, row, current);
  }

  /** `artist_playtime[artist] += minutes` keeps the map and its insertion
      order in step with the rows seen. */
  lemma TallyStep(playtime: map<string, int>, order: seq<string>, rows: seq<RankedSong>, row: RankedSong)
    requires Tally.Accumulates(playtime, ArtistItems(rows))
    requires order == Tally.Order(ArtistItems(rows))
    ensures Tally.Accumulates(Tally.Upsert(playtime, row.artist, row.ms), ArtistItems(rows + [row]))
    ensures (if row.artist in playtime then order else order + [row.artist]) == Tally.Order(ArtistItems(rows + [row]))
  {
    RowStep(rows, row, row.artist);
    Tally.UpsertStep(playtime, ArtistItems(rows), row.artist, row.ms);
  }

  /** `artist_positions[artist].append(position)` keeps every list equal to
      the positions of its artist in the rows seen so far. */
  lemma PositionsStep(positions: map<string, seq<int>>, rows: seq<RankedSong>, row: RankedSong, current: seq<int>)
    requires PositionsMatch(positions, rows)
    requires current == PositionsOf(rows, row.artist)
    ensures PositionsMatch(positions[row.artist := current + [|rows| + 1]], rows + [row])
  {
    var next := positions[row.artist := current + [|rows| + 1]];
    forall a | a in next ensures next[a] == PositionsOf(rows + [row], a) {
      RowStep(rows, row, a);
    }
  }

  /** An artist with no row has no positions. */
  lemma {:induction false} PositionsAbsent(rankings: seq<RankedSong>, artist: string)
    requires artist !in Tally.Keys(ArtistItems(rankings))
    ensures PositionsOf(rankings, artist) == []
  {
    if rankings != [] {
      PositionsAbsent(rankings[..|rankings| - 1], artist);
    }
  }

  /** Position `p` is among `artist`'s positions exactly when row `p` of the
      ranking is by `artist`: the position lists partition `1..len(rankings)`. */
  lemma {:induction false} PositionsPartition(rankings: seq<RankedSong>, artist: string, p: int)
    ensures p in PositionsOf(rankings, artist) <==> 1 <= p <= |rankings| && rankings[p - 1].artist == artist
  {
    if rankings != [] {
      var init := rankings[..|rankings| - 1];
      PositionsPartition(init, artist, p);
      if 1 <= p <= |init| {
        assert init[p - 1] == rankings[p - 1];
      }
    }
  }

  /** Each artist's position list is strictly ascending, within `1..len(rankings)`. */
  lemma {:induction false} PositionsAscending(rankings: seq<RankedSong>, artist: string)
    ensures forall i | 0 <= i < |PositionsOf(rankings, artist)| :: 1 <= PositionsOf(rankings, artist)[i] <= |rankings|
    ensures forall i, j | 0 <= i < j < |PositionsOf(rankings, artist)| :: PositionsOf(rankings, artist)[i] < PositionsOf(rankings, artist)[j]
  {
    if rankings != [] {
      var init := rankings[..|rankings| - 1];
      PositionsAscending(init, artist);
      var ps, prev := PositionsOf(rankings, artist), PositionsOf(init, artist);
      assert |init| == |rankings| - 1;
      if rankings[|rankings| - 1].artist == artist {
        assert ps == prev + [|rankings|];
        forall i | 0 <= i < |ps| ensures 1 <= ps[i] <= |rankings| {
          if i < |prev| {
            assert ps[i] == prev[i];
            assert 1 <= prev[i] <= |init|;
          }
        }
        forall i, j | 0 <= i < j < |ps| ensures ps[i] < ps[j] {
          assert ps[i] == prev[i];
          assert prev[i] <= |init|;
          if j < |prev| {
            assert ps[j] == prev[j];
            assert prev[i] < prev[j];
          }
        }
      } else {
        assert ps == prev;
      }
    }
  }

  /** An artist has a position list exactly when it has a row, and then the
      list is not empty. */
  lemma {:induction false} PositionsNonEmpty(rankings: seq<RankedSong>, artist: string)
    ensures PositionsOf(rankings, artist) != [] <==> artist in Tally.Keys(ArtistItems(rankings))
  {
    if rankings != [] {
      var init := rankings[..|rankings| - 1];
      PositionsNonEmpty(init, artist);
      Tally.AppendOne(ArtistItems(init), (rankings[|rankings| - 1].artist, rankings[|rankings| - 1].ms), artist);
    }
  }

  /** The sum of the durations of the rows at the given 1-based positions
      (a position off the ranking adds nothing). */
  function DurationAt(rankings: seq<RankedSong>, ps: seq<int>): int {
    if ps == [] then 0
    else
      var p := ps[|ps| - 1];
      DurationAt(rankings, ps[..|ps| - 1]) + (if 1 <= p <= |rankings| then rankings[p - 1].ms else 0)
  }

  lemma {:induction false} DurationAtExtend(rankings: seq<RankedSong>, more: seq<RankedSong>, ps: seq<int>)
    requires forall k | 0 <= k < |ps| :: 1 <= ps[k] <= |rankings|
    ensures DurationAt(rankings + more, ps) == DurationAt(rankings, ps)
  {
    if ps != [] {
      var init := ps[..|ps| - 1];
      forall k | 0 <= k < |init| ensures 1 <= init[k] <= |rankings| {
        assert init[k] == ps[k];
      }
      DurationAtExtend(rankings, more, init);
      var p := ps[|ps| - 1];
      assert (rankings + more)[p - 1] == rankings[p - 1];
    }
  }

  /** An artist's total is the sum of the durations of that artist's songs,
      read off through its positions. */
  lemma {:induction false} ArtistTotalIsItsSongs(rankings: seq<RankedSong>, artist: string)
    ensures Tally.SumFor(ArtistItems(rankings), artist) == DurationAt(rankings, PositionsOf(rankings, artist))
  {
    if rankings != [] {
      var init, last := rankings[..|rankings| - 1], rankings[|rankings| - 1];
      var prev := PositionsOf(init, artist);
      assert init + [last] == rankings;
      RowStep(init, last, artist);
      ArtistTotalIsItsSongs(init, artist);
      PositionsAscending(init, artist);
      DurationAtExtend(init, [last], prev);
      Tally.AppendOne(ArtistItems(init), (last.artist, last.ms), artist);
      if last.artist == artist {
        assert PositionsOf(rankings, artist) == prev + [|rankings|];
        DurationAtLast(rankings, prev);
      } else {
        assert PositionsOf(rankings, artist) == prev;
      }
    }
  }

  /** Reading off the last row adds its duration. */
  lemma DurationAtLast(rankings: seq<RankedSong>, ps: seq<int>)
    requires rankings != []
    ensures DurationAt(rankings, ps + [|rankings|]) == DurationAt(rankings, ps) + rankings[|rankings| - 1].ms
  {
    assert (ps + [|rankings|])[..|ps|] == ps;
  }

  /** The artist contributions add up to the ranking's total duration. */
  lemma {:induction false} ArtistItemsTotal(rankings: seq<RankedSong>)
    ensures Tally.Total(ArtistItems(rankings)) == Duration(rankings)
  {
    if rankings != [] {
      var init, last := rankings[..|rankings| - 1], rankings[|rankings| - 1];
      ArtistItemsTotal(init);
      Tally.AppendOne(ArtistItems(init), (last.artist, last.ms), last.artist);
      assert rankings == init + [last];
      DurationConcat(init, [last]);
    }
  }

  /** Conservation: the artist totals, over every artist once, add up to
      the total over all ranked songs. */
  lemma ArtistConservation(rankings: seq<RankedSong>, artistPlaytime: map<string, int>, artistOrder: seq<string>)
    requires artistOrder == Tally.Order(ArtistItems(rankings))
    requires forall a | a in artistOrder :: a in artistPlaytime && artistPlaytime[a] == Tally.SumFor(ArtistItems(rankings), a)
    ensures Tally.SumOver(artistPlaytime, artistOrder) == Duration(rankings)
  {
    Tally.SumOverSums(artistPlaytime, ArtistItems(rankings), artistOrder);
    Tally.Conservation(ArtistItems(rankings), artistOrder);
    ArtistItemsTotal(rankings);
  }

  /** The order `sorted` puts positions in: ascending. */
  predicate AtMost(p: int, q: int) {
    p <= q
  }

  function Sum(s: seq<int>): int {
    if s == [] then 0 else Sum(s[..|s| - 1]) + s[|s| - 1]
  }

  function Min(a: int, b: int): int {
    if a <= b then a else b
  }

  /** `sorted_positions[:top_count]`: the first `min(5, num_songs)` positions
      after sorting. */
  function Top(positions: seq<int>): seq<int> {
    var sorted := Sorting.SortBy(positions, AtMost);
    sorted[..Min(5, |sorted|)]
  }

  /** One `artist_stats` tuple: the artist, its total, the sum of its best
      positions, how many songs it has and how many of them are averaged. */
  function StatFor(artist: string, totalMs: int, positions: seq<int>): (r: ArtistStat)
    requires positions != []
    ensures r.artist == artist && r.totalMs == totalMs
    ensures r.numSongs == |positions|
    ensures r.topCount == if |positions| < 5 then |positions| else 5
    ensures r.positionSum == Sum(Top(positions))
  {
    var top := Top(positions);
    ArtistStat(artist, totalMs, Sum(top), |top|, |positions|)
  }

  /** The averaged positions are the `top_count` smallest ones, in
      ascending order: each position left out is at least each one kept. */
  lemma TopSmallest(positions: seq<int>)
    ensures |Top(positions)| == Min(5, |positions|)
    ensures multiset(Top(positions)) <= multiset(positions)
    ensures forall i, j | 0 <= i < j < |Top(positions)| :: Top(positions)[i] <= Top(positions)[j]
    ensures forall x, y | x in Top(positions) && y in multiset(positions) - multiset(Top(positions)) :: x <= y
  {
    var sorted := Sorting.SortBy(positions, AtMost);
    Sorting.SortBySorted(positions, AtMost);
    var k := Min(5, |sorted|);
    assert Top(positions) == sorted[..k];
    SplitMultiset(sorted, k);
    SplitOrdered(sorted, k);
  }

  lemma SplitMultiset(s: seq<int>, k: nat)
    requires k <= |s|
    ensures multiset(s[..k]) <= multiset(s)
    ensures multiset(s) - multiset(s[..k]) == multiset(s[k..])
  {
    assert s == s[..k] + s[k..];
  }

  /** In an ascending list, everything before `k` is at most everything from `k` on. */
  lemma SplitOrdered(sorted: seq<int>, k: nat)
    requires Sorting.SortedBy(sorted, AtMost)
    requires k <= |sorted|
    ensures forall i, j | 0 <= i < j < |sorted[..k]| :: sorted[..k][i] <= sorted[..k][j]
    ensures forall x, y | x in sorted[..k] && y in multiset(sorted[k..]) :: x <= y
  {
    forall x, y | x in sorted[..k] && y in multiset(sorted[k..]) ensures x <= y {
      var i :| 0 <= i < k && sorted[i] == x;
      var j :| k <= j < |sorted| && sorted[j] == y;
      assert AtMost(sorted[i], sorted[j]);
    }
  }

  /** Every element of `s` lies in `lo..hi`, so its sum lies between
      `|s| * lo` and `|s| * hi`. */
  lemma {:induction false} SumBounds(s: seq<int>, lo: int, hi: int)
    requires forall i | 0 <= i < |s| :: lo <= s[i] <= hi
    ensures |s| * lo <= Sum(s) <= |s| * hi
  {
    if s != [] {
      var init := s[..|s| - 1];
      SumBounds(init, lo, hi);
      assert |s| * lo == |init| * lo + lo;
      assert |s| * hi == |init| * hi + hi;
    }
  }

  /** `avg_position = sum(top_positions) / len(top_positions)` lies between
      the smallest and the largest averaged position (scaled by `top_count`);
      with a single song the average is that song's position. */
  lemma AverageBounds(artist: string, totalMs: int, positions: seq<int>)
    requires positions != []
    ensures var r, top := StatFor(artist, totalMs, positions), Top(positions);
      && |top| == r.topCount
      && r.topCount * top[0] <= r.positionSum <= r.topCount * top[r.topCount - 1]
      && (r.numSongs == 1 ==> r.topCount == 1 && r.positionSum == positions[0])
  {
    var top := Top(positions);
    TopSmallest(positions);
    assert StatFor(artist, totalMs, positions).positionSum == Sum(top);
    SumBounds(top, top[0], top[|top| - 1]);
    if |positions| == 1 {
      SingleTop(positions);
    }
  }

  /** A single position is its own top list. */
  lemma SingleTop(positions: seq<int>)
    requires |positions| == 1
    ensures Top(positions) == positions
    ensures Sum(Top(positions)) == positions[0]
  {
    assert positions[1..] == [];
    assert Sorting.SortBy(positions, AtMost) == [positions[0]];
    assert positions[..0] == [];
  }

  /** The key of `playtime_sorted` with `reverse=True`: more listening time first. */
  predicate LongerOrEqual(s: ArtistStat, t: ArtistStat) {
    s.totalMs >= t.totalMs
  }

  /** The key of `position_sorted`: `s`'s average position is at most `t`'s,
      compared exactly by cross-multiplying by the positive counts. */
  predicate AvgNotAbove(s: ArtistStat, t: ArtistStat) {
    s.positionSum * t.topCount <= t.positionSum * s.topCount
  }

  lemma CrossMulTransitive(a: int, ca: int, b: int, cb: int, c: int, cc: int)
    requires ca >= 1 && cb >= 1 && cc >= 1
    requires a * cb <= b * ca && b * cc <= c * cb
    ensures a * cc <= c * ca
  {
    assert a * cb * cc <= b * ca * cc by {
      MulMonotone(a * cb, b * ca, cc);
    }
    assert b * cc * ca <= c * cb * ca by {
      MulMonotone(b * cc, c * cb, ca);
    }
    assert (a * cc) * cb <= (c * ca) * cb;
    if a * cc > c * ca {
      MulStrict(c * ca, a * cc, cb);
    }
  }

  lemma MulMonotone(x: int, y: int, k: int)
    requires x <= y && k >= 0
    ensures x * k <= y * k
  {
  }

  lemma MulStrict(x: int, y: int, k: int)
    requires x < y && k >= 1
    ensures x * k < y * k
  {
  }

  lemma OrdersArePreorders()
    ensures Sorting.TotalPreorder(LongerOrEqual)
    ensures Sorting.TotalPreorder(AvgNotAbove)
  {
    forall s: ArtistStat, t: ArtistStat, u: ArtistStat | AvgNotAbove(s, t) && AvgNotAbove(t, u)
      ensures AvgNotAbove(s, u)
    {
      CrossMulTransitive(s.positionSum, s.topCount, t.positionSum, t.topCount, u.positionSum, u.topCount);
    }
  }

  /** The average of `s` is at most that of `t` as real numbers. */
  lemma AvgNotAboveMeaning(s: ArtistStat, t: ArtistStat)
    ensures AvgNotAbove(s, t) <==> (s.positionSum as real) / (s.topCount as real) <= (t.positionSum as real) / (t.topCount as real)
  {
  }

  /** The second loop: one `artist_stats` tuple per artist, in the insertion
      order of `artist_playtime`. */
  method ComputeStats(artistPlaytime: map<string, int>, artistPositions: map<string, seq<int>>, artistOrder: seq<string>)
    returns (stats: seq<ArtistStat>)
    requires forall a | a in artistOrder :: a in artistPlaytime && a in artistPositions && artistPositions[a] != []
    ensures |stats| == |artistOrder|
    ensures forall i | 0 <= i < |stats| ::
      stats[i] == StatFor(artistOrder[i], artistPlaytime[artistOrder[i]], artistPositions[artistOrder[i]])
  {
    stats := [];
    for i := 0 to |artistOrder|
      invariant |stats| == i
      invariant forall j | 0 <= j < i ::
        stats[j] == StatFor(artistOrder[j], artistPlaytime[artistOrder[j]], artistPositions[artistOrder[j]])
    {
      var artist := artistOrder[i];
      stats := stats + [StatFor(artist, artistPlaytime[artist], artistPositions[artist])];
    }
  }

  /** The total listening time over some artist statistics. */
  function TotalOf(stats: seq<ArtistStat>): int {
    if stats == [] then 0 else stats[0].totalMs + TotalOf(stats[1..])
  }

  lemma {:induction false} StatsTotal(stats: seq<ArtistStat>, artistPlaytime: map<string, int>, artistOrder: seq<string>)
    requires |stats| == |artistOrder|
    requires forall a | a in artistOrder :: a in artistPlaytime
    requires forall i | 0 <= i < |stats| :: stats[i].totalMs == artistPlaytime[artistOrder[i]]
    ensures TotalOf(stats) == Tally.SumOver(artistPlaytime, artistOrder)
  {
    if stats != [] {
      StatsTotal(stats[1..], artistPlaytime, artistOrder[1..]);
    }
  }

  /** `print_artist_rankings` up to its print loops: the statistics of every
      artist of the ranking once, in first-appearance order, and the two
      views of them, by total time (longest first) and by average position
      (best first), each a reordering of the statistics. The totals add up
      to the time of the whole ranking. */
  method ArtistRankings(rankings: seq<RankedSong>)
    returns (stats: seq<ArtistStat>, playtimeSorted: seq<ArtistStat>, positionSorted: seq<ArtistStat>)
    ensures forall a | a in Tally.Order(ArtistItems(rankings)) :: PositionsOf(rankings, a) != []
    ensures var order := Tally.Order(ArtistItems(rankings));
      && |stats| == |order|
      && forall i | 0 <= i < |stats| ::
           stats[i] == StatFor(order[i], Tally.SumFor(ArtistItems(rankings), order[i]), PositionsOf(rankings, order[i]))
    ensures TotalOf(stats) == Duration(rankings)
    ensures multiset(playtimeSorted) == multiset(stats)
    ensures forall i, j | 0 <= i < j < |playtimeSorted| :: playtimeSorted[i].totalMs >= playtimeSorted[j].totalMs
    ensures multiset(positionSorted) == multiset(stats)
    ensures forall i, j | 0 <= i < j < |positionSorted| :: AvgNotAbove(positionSorted[i], positionSorted[j])
  {
    var artistPlaytime, artistPositions, artistOrder := GroupByArtist(rankings);
    forall a | a in artistOrder ensures PositionsOf(rankings, a) != [] {
      PositionsNonEmpty(rankings, a);
    }
    stats := ComputeStats(artistPlaytime, artistPositions, artistOrder);
    ArtistConservation(rankings, artistPlaytime, artistOrder);
    StatsTotal(stats, artistPlaytime, artistOrder);
    OrdersArePreorders();
    playtimeSorted := Sorting.SortBy(stats, LongerOrEqual);
    Sorting.SortBySorted(stats, LongerOrEqual);
    positionSorted := Sorting.SortBy(stats, AvgNotAbove);
    Sorting.SortBySorted(stats, AvgNotAbove);
  }

  /** `total_artists`: the number of distinct artists in the ranking. */
  function TotalArtists(rankings: seq<RankedSong>): nat {
    |set r | r in rankings :: r.artist|
  }

  lemma {:induction false} ArtistKeys(rankings: seq<RankedSong>)
    ensures Tally.Keys(ArtistItems(rankings)) == set r | r in rankings :: r.artist
  {
    if rankings != [] {
      var init, last := rankings[..|rankings| - 1], rankings[|rankings| - 1];
      ArtistKeys(init);
      Tally.AppendOne(ArtistItems(init), (last.artist, last.ms), last.artist);
      assert rankings == init + [last];
    }
  }

  /** There is one statistic per distinct artist, so the artist views have
      `total_artists` rows. */
  lemma OneStatPerArtist(rankings: seq<RankedSong>)
    ensures |Tally.Order(ArtistItems(rankings))| == TotalArtists(rankings)
  {
    var order := Tally.Order(ArtistItems(rankings));
    ArtistKeys(rankings);
    Tally.DistinctCount(order);
    assert (set x | x in order) == set r | r in rankings :: r.artist;
  }
}
