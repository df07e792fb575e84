/** The song ranking of `process_streaming_files`: the items of
    `song_playtime` as a list, sorted in place by listening time, longest
    first. */
module SongRanking {
  import opened Records
  import Tally

  /** One `(track_name, artist_name, duration)` row of the ranking. */
  datatype RankedSong = RankedSong(track: string, artist: string, ms: int)

  function KeyOf(s: RankedSong): SongKey {
    SongKey(s.track, s.artist)
  }

  /** The list comprehension over `song_playtime.items()`, in the dict's
      insertion order `order`. */
  function Items(songs: map<SongKey, int>, order: seq<SongKey>): seq<RankedSong>
    requires forall k | k in order :: k in songs
  {
    seq(|order|, i requires 0 <= i < |order| => RankedSong(order[i].track, order[i].artist, songs[order[i]]))
  }

  predicate SortedDesc(s: seq<RankedSong>) {
    forall i, j | 0 <= i < j < |s| :: s[i].ms >= s[j].ms
  }

  /** Exchanges rows `i` and `j`. */
  method Swap(a: array<RankedSong>, i: int, j: int)
    requires 0 <= i < j < a.Length
    modifies a
    ensures a[..] == old(a[..])[i := old(a[j])][j := old(a[i])]
  {
    a[i], a[j] := a[j], a[i];
  }

  /** One step of the insertion sort: row `i` moves left past every shorter
      row before it, and stops behind the first row at least as long (so rows
      of equal duration keep their order). The first `i + 1` rows end up
      sorted and are the same rows as before; the rows after `i` stay put. */
  method InsertRow(a: array<RankedSong>, i: int)
    requires 0 <= i < a.Length
    requires SortedDesc(a[..i])
    modifies a
    ensures SortedDesc(a[..i + 1])
    ensures multiset(a[..i + 1]) == old(multiset(a[..i + 1]))
    ensures a[i + 1..] == old(a[i + 1..])
    ensures multiset(a[..]) == old(multiset(a[..]))
  {
    ghost var orig := a[..];
    InsertStart(orig, i);
    var j := i;
    while 0 < j && a[j - 1].ms < a[j].ms
      invariant Inserting(a[..], orig, i, j)
      decreases j
    {
      ghost var before := a[..];
      Swap(a, j - 1, j);
      InsertSwap(before, a[..], orig, i, j);
      j := j - 1;
    }
    InsertDone(a[..], orig, i, j);
  }

  /** Rows `s` while `InsertRow` moves row `i` of `orig` down: it now sits at
      `j`, ahead of the shorter rows it passed; the other rows up to `i` stay
      sorted, and only rows up to `i` have moved. */
  ghost predicate Inserting(s: seq<RankedSong>, orig: seq<RankedSong>, i: int, j: int) {
    && 0 <= j <= i < |s| == |orig|
    && (forall p, q | 0 <= p < q <= i && p != j && q != j :: s[p].ms >= s[q].ms)
    && (forall q | j < q <= i :: s[j].ms > s[q].ms)
    && (forall m | i < m < |s| :: s[m] == orig[m])
    && multiset(s) == multiset(orig)
  }

  lemma InsertStart(s: seq<RankedSong>, i: int)
    requires 0 <= i < |s|
    requires SortedDesc(s[..i])
    ensures Inserting(s, s, i, i)
  {
    forall p, q | 0 <= p < q <= i && p != i && q != i ensures s[p].ms >= s[q].ms {
      assert s[..i][p] == s[p] && s[..i][q] == s[q];
    }
  }

  lemma InsertSwap(s: seq<RankedSong>, t: seq<RankedSong>, orig: seq<RankedSong>, i: int, j: int)
    requires Inserting(s, orig, i, j)
    requires 0 < j && s[j - 1].ms < s[j].ms
    requires t == s[j - 1 := s[j]][j := s[j - 1]]
    ensures Inserting(t, orig, i, j - 1)
  {
    assert t == s[..j - 1] + [s[j], s[j - 1]] + s[j + 1..];
    assert s == s[..j - 1] + [s[j - 1], s[j]] + s[j + 1..];
  }

  lemma InsertDone(s: seq<RankedSong>, orig: seq<RankedSong>, i: int, j: int)
    requires Inserting(s, orig, i, j)
    requires j == 0 || s[j - 1].ms >= s[j].ms
    ensures SortedDesc(s[..i + 1])
    ensures multiset(s[..i + 1]) == multiset(orig[..i + 1])
    ensures s[i + 1..] == orig[i + 1..]
  {
    KeepsTail(orig, s, i + 1);
  }

  /** Two reorderings of each other that agree from `n` on are reorderings
      of each other below `n`. */
  lemma KeepsTail<T>(s: seq<T>, t: seq<T>, n: int)
    requires 0 <= n <= |s| == |t|
    requires multiset(s) == multiset(t)
    requires forall m | n <= m < |s| :: t[m] == s[m]
    ensures t[n..] == s[n..]
    ensures multiset(t[..n]) == multiset(s[..n])
  {
    assert t[n..] == s[n..];
    SplitAt(s, n);
    SplitAt(t, n);
    assert multiset(t[..n]) == multiset(t) - multiset(t[n..]);
    assert multiset(s[..n]) == multiset(s) - multiset(s[n..]);
  }

  lemma SplitAt<T>(s: seq<T>, n: int)
    requires 0 <= n <= |s|
    ensures multiset(s) == multiset(s[..n]) + multiset(s[n..])
  {
    assert s == s[..n] + s[n..];
  }

  /** `ranked_songs.sort(key=lambda x: x[2], reverse=True)`, as a stable
      insertion sort. */
  method SortByDurationDesc(a: array<RankedSong>)
    modifies a
    ensures SortedDesc(a[..])
    ensures multiset(a[..]) == old(multiset(a[..]))
  {
    var i := 0;
    while i < a.Length
      invariant 0 <= i <= a.Length
      invariant SortedDesc(a[..i])
      invariant multiset(a[..]) == old(multiset(a[..]))
    {
      InsertRow(a, i);
      i := i + 1;
    }
    assert a[..a.Length] == a[..];
  }

  /** The ranking: every `(track, artist, duration)` item of the song map
      once, longest listening time first. */
  method RankSongs(songs: map<SongKey, int>, order: seq<SongKey>) returns (ranked: seq<RankedSong>)
    requires Tally.Distinct(order)
    requires forall k | k in order :: k in songs
    requires forall k | k in songs :: k in order
    ensures SortedDesc(ranked)
    ensures multiset(ranked) == multiset(Items(songs, order))
  {
    var items := Items(songs, order);
    var a := new RankedSong[|items|](i requires 0 <= i < |items| => items[i]);
    assert a[..] == items;
    SortByDurationDesc(a);
    ranked := a[..];
  }

  /** The sum of the durations of some rows. */
  function Duration(s: seq<RankedSong>): int {
    if s == [] then 0 else s[0].ms + Duration(s[1..])
  }

  lemma {:induction false} DurationConcat(s: seq<RankedSong>, t: seq<RankedSong>)
    ensures Duration(s + t) == Duration(s) + Duration(t)
  {
    if s == [] {
      assert s + t == t;
    } else {
      assert (s + t)[1..] == s[1..] + t;
      DurationConcat(s[1..], t);
    }
  }

  /** Reordering rows does not change their total duration. */
  lemma {:induction false} DurationPermutation(s: seq<RankedSong>, t: seq<RankedSong>)
    requires multiset(s) == multiset(t)
    ensures Duration(s) == Duration(t)
  {
    if s == [] {
      assert |t| == |multiset(t)| == 0;
    } else {
      assert s[0] in multiset(t);
      var j :| 0 <= j < |t| && t[j] == s[0];
      var rest := t[..j] + t[j + 1..];
      RemoveOne(s, t, j);
      DurationPermutation(s[1..], rest);
      DurationWithout(t, j);
    }
  }

  /** Taking the same row out of two reorderings of each other leaves two
      reorderings of each other. */
  lemma RemoveOne(s: seq<RankedSong>, t: seq<RankedSong>, j: int)
    requires multiset(s) == multiset(t)
    requires s != [] && 0 <= j < |t| && t[j] == s[0]
    ensures multiset(s[1..]) == multiset(t[..j] + t[j + 1..])
  {
    assert t == t[..j] + [t[j]] + t[j + 1..];
    assert multiset(t) == multiset(t[..j]) + multiset{t[j]} + multiset(t[j + 1..]);
    assert s == [s[0]] + s[1..];
    assert multiset(s) == multiset{s[0]} + multiset(s[1..]);
    var rest := t[..j] + t[j + 1..];
    assert multiset(rest) == multiset(t[..j]) + multiset(t[j + 1..]);
    assert multiset(s[1..]) == multiset(s) - multiset{s[0]};
    assert multiset(rest) == multiset(t) - multiset{t[j]};
  }

  /** The duration of a list is that of one row plus that of the others. */
  lemma DurationWithout(t: seq<RankedSong>, j: int)
    requires 0 <= j < |t|
    ensures Duration(t) == t[j].ms + Duration(t[..j] + t[j + 1..])
  {
    assert t == t[..j] + ([t[j]] + t[j + 1..]);
    DurationConcat(t[..j], [t[j]] + t[j + 1..]);
    DurationConcat([t[j]], t[j + 1..]);
    DurationConcat(t[..j], t[j + 1..]);
    assert Duration([t[j]]) == t[j].ms + Duration([]);
  }

  lemma {:induction false} ItemsDuration(songs: map<SongKey, int>, order: seq<SongKey>)
    requires forall k | k in order :: k in songs
    ensures Duration(Items(songs, order)) == Tally.SumOver(songs, order)
  {
    if order != [] {
      assert Items(songs, order)[1..] == Items(songs, order[1..]);
      ItemsDuration(songs, order[1..]);
    }
  }

  lemma {:induction false} DistinctOnce<T>(s: seq<T>, x: T)
    requires Tally.Distinct(s)
    ensures multiset(s)[x] <= 1
  {
    if s != [] {
      var init := s[..|s| - 1];
      assert s == init + [s[|s| - 1]];
      assert Tally.Distinct(init);
      DistinctOnce(init, x);
      if s[|s| - 1] == x {
        assert x !in init;
      }
    }
  }

  lemma TwiceCounted<T>(s: seq<T>, i: int, j: int)
    requires 0 <= i < j < |s| && s[i] == s[j]
    ensures multiset(s)[s[i]] >= 2
  {
    assert s == s[..j] + s[j..];
    assert s[i] in s[..j] && s[j] in s[j..];
  }

  /** Any reordering of the items of the song map, such as the ranking,
      has one row per `(track, artist)` key, carrying that key's total. */
  lemma OnePerKey(songs: map<SongKey, int>, order: seq<SongKey>, ranked: seq<RankedSong>)
    requires Tally.Distinct(order)
    requires forall k | k in order :: k in songs
    requires forall k | k in songs :: k in order
    requires multiset(ranked) == multiset(Items(songs, order))
    ensures |ranked| == |order|
    ensures forall i | 0 <= i < |ranked| :: KeyOf(ranked[i]) in songs && ranked[i].ms == songs[KeyOf(ranked[i])]
    ensures forall k | k in songs :: exists i | 0 <= i < |ranked| :: KeyOf(ranked[i]) == k
    ensures forall i, j | 0 <= i < j < |ranked| :: KeyOf(ranked[i]) != KeyOf(ranked[j])
    ensures Duration(ranked) == Tally.SumOver(songs, order)
  {
    var items := Items(songs, order);
    assert |ranked| == |multiset(ranked)| == |multiset(items)| == |items|;
    forall i | 0 <= i < |ranked| ensures KeyOf(ranked[i]) in songs && ranked[i].ms == songs[KeyOf(ranked[i])] {
      assert ranked[i] in multiset(items);
    }
    forall k | k in songs ensures exists i | 0 <= i < |ranked| :: KeyOf(ranked[i]) == k {
      var m :| 0 <= m < |order| && order[m] == k;
      assert items[m] in multiset(ranked);
    }
    assert Tally.Distinct(items);
    forall i, j | 0 <= i < j < |ranked| ensures KeyOf(ranked[i]) != KeyOf(ranked[j]) {
      if KeyOf(ranked[i]) == KeyOf(ranked[j]) {
        TwiceCounted(ranked, i, j);
        DistinctOnce(items, ranked[i]);
      }
    }
    DurationPermutation(ranked, items);
    ItemsDuration(songs, order);
  }
}
