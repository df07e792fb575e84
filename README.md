# Listening-history report: a verified model

`timelistened.py` turns a music-streaming history export (a list of
listening events with `ts`, `ms_played`, `master_metadata_track_name` and
`master_metadata_album_artist_name`) into three reports: songs ranked by
total listening time, artists ranked by total time and by the average of
their best chart positions, and listening time per year. The user picks an
optional date window and display limits at prompts.

This project models the pipeline in between in Dafny and proves what it
computes:

- `records.dfy` (`Records`): events, fields that can be missing or unusable,
  calendar instants compared as Python's `datetime` compares them, and the
  start and end of a typed day.
- `date_range.dfy` (`DateRange`): `get_date_range`, and the effective
  inclusive window the user's bounds give after clamping.
- `tally.dfy` (`Tally`): the `defaultdict(int)` accumulator. A map built by
  "insert 0 if absent, then add" is described by the list of
  `(key, amount)` contributions fed to it. The list gives its keys, its
  per-key sums, its total and its insertion order.
- `aggregation.dfy` (`Aggregation`): the filtering-and-accumulating loop of
  `process_streaming_files`, as a method whose maps are proved equal to
  those sums. Lemmas say what each yearly and each song total means in terms
  of the events.
- `song_ranking.dfy` (`SongRanking`): the list of song items and its
  in-place sort by duration, longest first, as an insertion sort on an
  array.
- `sorting.dfy` (`Sorting`): Python's non-mutating `sorted`, as a stable
  insertion sort over a comparison.
- `artist_ranking.dfy` (`ArtistRanking`): `print_artist_rankings` without
  its print loops. It covers grouping by artist, the per-artist statistics
  and the two artist orderings.
- `limits.dfy` (`Limits`): the validation and clamping of the display
  limits, and the `rankings[:limit]` slice that applies them.
- `pipeline.dfy` (`Pipeline`): `process_streaming_files` after loading,
  end to end, and the worked example of three plays.

Durations stay in integer milliseconds throughout. An average position is
kept as the pair (sum of the averaged positions, how many were averaged),
and two averages are compared by cross-multiplying.

Behaviour of the code that the model keeps, some of which a reader might
not expect:

- `get_date_range` parses the `ts` of every event that has the key, before
  any filtering. One unparsable or null `ts` anywhere stops the whole run,
  not just that event (`DateRange.GetDateRange` returns
  `Failure(UnparsableTimestamp)`). With no `ts` at all, `min` of an empty
  list stops it (`Failure(NoTimestamps)`).
- A typed "from" date means midnight of that day. A typed "to" date means
  23:59:59 of that day. Only a "from" before the dataset's first instant and
  a "to" after its last instant are clamped. A "from" after the last instant
  or a "to" before the first is kept, and the window is then empty.
- An event reaches the yearly total when it has all four keys and its `ts`
  is in the window, even when a name is null or empty. The yearly totals
  therefore cover only the chosen window.
- When `ms_played` cannot be added (null or a string), the `defaultdict`
  has already inserted the year with 0 before `+=` raises. The year then
  appears with no time. The model counts this as a contribution of 0 to
  that year.
- With a ranking of 0 rows, a positive display limit is clamped to 0 rather
  than to "no limit". Both show the same (empty) rows.

A few further points where the code is stricter or narrower than a
reader might assume:

- One might expect only an event with an unparsable `ts` to be skipped
  while the range is found; the code stops on any unparsable `ts`
  (timelistened.py:10).
- One might expect a duration to count toward its year whenever the event
  has `ts` and `ms_played`; the code also requires both name keys to be
  present, though they may be null (timelistened.py:110-113).
- One might expect any bound outside the dataset to be clamped to the
  dataset's bound; the code clamps only a "from" before the first instant
  and a "to" after the last (timelistened.py:98-103).

## Model

| member | source | states |
|---|---|---|
| Records.StartOfDay | timelistened.py:22-23 | a typed "from" day becomes an instant on that day with a valid clock (midnight) |
| Records.EndOfDay | timelistened.py:24-27 | a typed "to" day becomes an instant on that day with a valid clock (23:59:59) |
| Records.BeforeIsStrictTotalOrder | timelistened.py:98-118 | instants compare as a strict total order, and "not after" is "before or equal" |
| Records.EndOfDayInclusive | timelistened.py:27 | an instant is at or before the end of day `d` exactly when its day is not after `d` |
| Records.StartOfDayInclusive | timelistened.py:23 | an instant is at or after the start of day `d` exactly when its day is not before `d` |
| DateRange.Timestamps | timelistened.py:10-11 | the comprehension fails exactly when some `ts` is unusable; otherwise it holds exactly the `ts` of the events that carry one |
| DateRange.Earliest | timelistened.py:12 | `min` returns an element of the list that is at or before every element |
| DateRange.Latest | timelistened.py:12 | `max` returns an element of the list that is at or after every element |
| DateRange.GetDateRangeSpec | timelistened.py:8-12 | on success every `ts` lies between the two results, which are both some event's `ts`; it fails with `UnparsableTimestamp` exactly when some `ts` is unusable, and with `NoTimestamps` exactly when no event has a `ts` |
| DateRange.ResolveWindow | timelistened.py:97-103 | the window lies within the dataset's range; a missing or earlier "from" gives the earliest instant, otherwise midnight of the typed day; a missing or later "to" gives the latest instant, otherwise 23:59:59 of the typed day |
| DateRange.InWindowInclusive | timelistened.py:118-119 | an instant is kept exactly when from <= instant <= to, so both ends are kept |
| DateRange.ToDayInclusive | timelistened.py:24-27 | with a "to" day inside the dataset, an instant passes the upper bound exactly when its day is not after that day (23:59:59 in, the next second out) |
| Tally.Upsert | timelistened.py:127 | `d[k] += v` on a `defaultdict(int)`: adds `k`, adds `v` to its old value or to 0, and changes no other key |
| Tally.Order | timelistened.py:138 | the dict's insertion order lists each key once, and exactly the keys of the contributions |
| Tally.UpsertStep | timelistened.py:127-130 | one more `+=` keeps the map equal to the sums of the contributions so far, and appends the key to the order when it is new |
| Tally.Conservation | timelistened.py:130 | the per-key sums, over a list of all keys each once, add up to the total of all contributions |
| Tally.SumOverSums | timelistened.py:138 | summing a map that holds the per-key sums equals summing those sums |
| Sorting.SortBy | timelistened.py:171 | `sorted` returns a permutation of its input |
| Sorting.SortBySorted | timelistened.py:188-189 | for a total preorder, the result of `sorted` is in order |
| Aggregation.Aggregate | timelistened.py:108-133 | after the loop the yearly and song maps hold exactly the keys of their contributions with their sums, and the song order is the dict's insertion order |
| Aggregation.YearlyTotalMeaning | timelistened.py:110-127 | `yearly_playtime[y]` is the sum of `ms_played` over the events with all four keys, in the window and in year `y` |
| Aggregation.YearlyKeyMeaning | timelistened.py:110-127 | year `y` is a key exactly when some event with all four keys lies in the window in year `y`, including events with a null or empty name or an unusable `ms_played` |
| Aggregation.SongTotalMeaning | timelistened.py:121-130 | `song_playtime[(t, a)]` is the sum of `ms_played` over the events in the window with a usable `ms_played` and truthy names `t` and `a` |
| Aggregation.SongKeyMeaning | timelistened.py:129-130 | `(t, a)` is a key exactly when such an event exists; an event with a falsy name adds no key |
| Aggregation.SongsWithinYears | timelistened.py:125-130 | with no negative `ms_played`, the song totals add up to at most the yearly totals |
| SongRanking.InsertRow | timelistened.py:140 | one insertion step extends the sorted prefix by a row: the first `i + 1` rows end non-increasing by duration and are a reordering of the old first `i + 1` rows, and the rows after `i` stay where they were |
| SongRanking.SortByDurationDesc | timelistened.py:140 | the in-place sort leaves the array non-increasing by duration and a permutation of its old contents |
| SongRanking.RankSongs | timelistened.py:136-140 | the ranking is non-increasing by duration and a permutation of the items of `song_playtime` |
| SongRanking.DurationPermutation | timelistened.py:140 | reordering rows keeps their total duration |
| SongRanking.OnePerKey | timelistened.py:136-140 | the ranking has one row per key of `song_playtime`, each with that key's total, and the rows add up to the sum of the map |
| ArtistRanking.GroupByArtist | timelistened.py:157-163 | each artist's total is the sum of its rows' durations as contributions, its position list is `PositionsOf`, and the artists are in first-appearance order |
| ArtistRanking.PositionsPartition | timelistened.py:161-163 | `p` is one of an artist's positions exactly when row `p` of the ranking is by that artist, so the lists partition `1..len(rankings)` |
| ArtistRanking.PositionsAscending | timelistened.py:161-163 | each artist's positions lie in `1..len(rankings)` and strictly ascend |
| ArtistRanking.PositionsNonEmpty | timelistened.py:163 | an artist has a non-empty position list exactly when it is a key of `artist_playtime` |
| ArtistRanking.ArtistTotalIsItsSongs | timelistened.py:161-163 | an artist's total is the sum of the durations of the rows at its positions |
| ArtistRanking.ArtistConservation | timelistened.py:161-162 | the artist totals, over every artist once, add up to the total duration of the ranking |
| ArtistRanking.StatFor | timelistened.py:167-185 | the tuple carries the artist and its total, `num_songs` is the number of positions, `top_count` is `min(5, num_songs)` and `position_sum` is the sum of the first `top_count` sorted positions |
| ArtistRanking.TopSmallest | timelistened.py:170-174 | the averaged positions are `min(5, n)` of the artist's positions, ascending, and none left out is smaller than one kept |
| ArtistRanking.SumBounds | timelistened.py:177 | a sum of values within `lo..hi` lies between `n * lo` and `n * hi` |
| ArtistRanking.AverageBounds | timelistened.py:176-177 | the average lies between the smallest and the largest averaged position, and equals the single position when the artist has one song |
| ArtistRanking.OrdersArePreorders | timelistened.py:188-189 | "more time or equal" and "average not above" are total preorders, so `sorted` by either key orders the list |
| ArtistRanking.AvgNotAboveMeaning | timelistened.py:177 | the cross-multiplied comparison agrees with comparing the exact averages |
| ArtistRanking.ComputeStats | timelistened.py:166-185 | the loop builds one statistic per artist, in `artist_playtime` order, from that artist's total and positions |
| ArtistRanking.StatsTotal | timelistened.py:179-181 | the totals in the statistics add up to the sum of `artist_playtime` |
| ArtistRanking.ArtistRankings | timelistened.py:155-189 | one statistic per artist in first-appearance order, from its total and its positions; the totals add up to the ranking's duration; `playtime_sorted` is non-increasing by total and `position_sorted` non-decreasing by average, each a permutation of the statistics |
| ArtistRanking.OneStatPerArtist | timelistened.py:237-238 | the number of statistics is `total_artists`, the number of distinct artists in the ranking |
| Limits.NormaliseLimit | timelistened.py:55-65 | 0 becomes "no limit", and only 0 does; a request above the total becomes the total; any other request is kept |
| Limits.UserLimits | timelistened.py:44-67 | the round is rejected exactly when either number is negative; otherwise both limits are normalised against their own totals |
| Limits.Shown | timelistened.py:152 | the rows shown are a prefix of the list |
| Limits.LimitRange | timelistened.py:55-65 | a returned limit is "no limit" or lies in `1..total`, except 0 when the total is 0 and a positive number was asked for |
| Limits.ShownRows | timelistened.py:150-153 | with the normalised limit, 0 shows every row and a positive request shows `min(request, total)` rows |
| Pipeline.ProcessStreamingFiles | timelistened.py:90-148 | it fails exactly as `get_date_range` does; otherwise the yearly map accumulates the window's events, and the ranking has each song of the window once with its total, longest first, adding up to all time credited to songs (at most the yearly time when no `ms_played` is negative) |
| Pipeline.ThreePlays | timelistened.py:108-133 | three plays over the full range give song totals of 300000 ms and 60000 ms, in that order, and 360000 ms for the year 2023 |
| Pipeline.ThreePlaysRanking | timelistened.py:136-140 | the only ranking of those two totals, longest first, is ("A", "X") then ("B", "X") |

## Left out

- Loading the files (timelistened.py:79-88): `open`, `json.load` and the per-file error messages are I/O. The model starts from the concatenated list of events.
- The prompts (timelistened.py:14-31, 44-70): `input()` and the retry loops are console I/O. Parsed dates and numbers are parameters. A rejected round of `get_user_limits` is `None`. Text that does not parse as a date or a number is not modelled.
- `datetime.strptime`: timestamps arrive already parsed as `DateTime` values, or marked unusable. Calendar validity of a parsed date is not modelled.
- JSON types other than those the model gives each field. A name is a string, null or missing, so a truthy non-string name (a number, say, which Python would use as part of a song key) is not modelled. `ms_played` is an integer or unusable, so a boolean or float `ms_played`, which Python would add, is not modelled. An event that is not a JSON object is not modelled either.
- Conversion to minutes and hours and `round` (timelistened.py:137, 144, 194): durations stay in integer milliseconds. Sorting by minutes gives the same order as sorting by milliseconds.
- ArtistRanking.AvgNotAbove: compares averages exactly by cross-multiplication. The source compares floating-point quotients, which can tie or misorder averages that differ only past double precision.
- SongRanking.SortByDurationDesc: the source uses Python's Timsort. The model uses a stable insertion sort and proves the same result properties (sorted and a permutation). The tie order among equal durations is not stated.
- Sorting.SortBy: models `sorted` by an insertion sort. Only sortedness and permutation are proved; stability is not stated.
- Printing (timelistened.py:92, 100, 103, 105, 133, 150-153, 191-202, 208-211), including the headers and the year sort in `print_yearly_stats`.
- Script-level code (timelistened.py:213-249): the fixed file list and the top-level calls.
- The `except Exception` report at timelistened.py:132-133 is not modelled as a message. The event is simply skipped, after the partial year insertion described above.
