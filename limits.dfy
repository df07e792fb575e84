/** The display limits of `get_user_limits` and how the print functions
    apply them with `rankings[:limit]`. */
module Limits {
  import opened Records

  /** `None` (show everything) or a number of rows. */
  datatype Limit = NoLimit | UpTo(n: nat)

  /** One requested limit, already known to be non-negative: 0 means no
      limit, and a request above the total is lowered to the total. */
  function NormaliseLimit(requested: nat, total: nat): (l: Limit)
    ensures l.NoLimit? <==> requested == 0
    ensures l.UpTo? ==> l.n <= total
    ensures l.UpTo? && requested <= total ==> l.n == requested
    ensures l.UpTo? && requested > total ==> l.n == total
  {
    if requested == 0 then NoLimit
    else if requested > total then UpTo(total)
    else UpTo(requested)
  }

  /** One round of the prompt loop, given the two parsed numbers: `None`
      when either is negative (the loop asks again), otherwise the two
      normalised limits. */
  function UserLimits(songLimit: int, artistLimit: int, totalSongs: nat, totalArtists: nat): (r: Option<(Limit, Limit)>)
    ensures r.None? <==> songLimit < 0 || artistLimit < 0
    ensures r.Some? ==> r.value.0 == NormaliseLimit(songLimit, totalSongs)
    ensures r.Some? ==> r.value.1 == NormaliseLimit(artistLimit, totalArtists)
  {
    if songLimit < 0 || artistLimit < 0 then None
    else Some((NormaliseLimit(songLimit, totalSongs), NormaliseLimit(artistLimit, totalArtists)))
  }

  /** `xs[:limit]`: a slice past the end stops at the end. */
  function Shown<T>(xs: seq<T>, l: Limit): (r: seq<T>)
    ensures r <= xs
  {
    match l
    case NoLimit => xs
    case UpTo(n) => if n <= |xs| then xs[..n] else xs
  }

  /** A returned limit is "no limit" or lies in `1..total`, except that with
      nothing to show a positive request becomes 0. */
  lemma LimitRange(requested: nat, total: nat)
    ensures var l := NormaliseLimit(requested, total);
      l.NoLimit? || (1 <= l.n <= total) || (total == 0 && l.n == 0 && requested > 0)
  {
  }

  /** Applied to a list of `total` rows, the normalised limit shows all rows
      for 0 and the first `min(requested, total)` rows otherwise; in
      particular a request of 0 on an empty list and the clamped 0 show the
      same (empty) rows. */
  lemma ShownRows<T>(xs: seq<T>, requested: nat)
    ensures var r := Shown(xs, NormaliseLimit(requested, |xs|));
      && r <= xs
      && (requested == 0 ==> r == xs)
      && (requested > 0 ==> |r| == if requested < |xs| then requested else |xs|)
  {
  }
}
