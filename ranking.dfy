/**
 * The ranking half of `recommend`: resolve a title to its first row, pair
 * each score of that similarity row with its index, sort the pairs by
 * descending score (stably, as Python's `sorted(..., reverse=True)` does),
 * drop the first pair and keep the next `top_n`.
 */
module Ranking {
  import opened Wrappers

  /** One row of the movie table: its title and, when the column has one, its remote id. */
  datatype Movie = Movie(title: string, movieId: Option<int>)

  /** The movie table; rows are numbered from 0 like the similarity matrix. */
  datatype Catalog = Catalog(hasTitleColumn: bool, rows: seq<Movie>)

  /** One pair of `enumerate(distances)`: a row index and its score. */
  datatype Scored = Scored(index: nat, score: int)

  function Enumerate(row: seq<int>): (s: seq<Scored>)
    ensures |s| == |row|
    ensures forall i :: 0 <= i < |s| ==> s[i] == Scored(i, row[i])
  {
    seq(|row|, i requires 0 <= i < |row| => Scored(i, row[i]))
  }

  /** The index of the first row titled exactly `title`, if any. */
  function FirstMatch(rows: seq<Movie>, title: string): (r: Option<nat>)
    ensures r.Some? ==> r.value < |rows| && rows[r.value].title == title
    ensures r.Some? ==> forall j :: 0 <= j < r.value ==> rows[j].title != title
    ensures r.None? <==> forall j :: 0 <= j < |rows| ==> rows[j].title != title
  {
    if rows == [] then None
    else if rows[0].title == title then Some(0)
    else match FirstMatch(rows[1..], title)
      case None => None
      case Some(i) => Some(i + 1)
  }

  /** `a` comes before `b` in the ranking: a higher score, or an equal score and a smaller index. */
  predicate Before(a: Scored, b: Scored)
  {
    a.score > b.score || (a.score == b.score && a.index < b.index)
  }

  /** Every pair comes before every later pair. */
  predicate Ranked(s: seq<Scored>)
  {
    forall i, j :: 0 <= i < j < |s| ==> Before(s[i], s[j])
  }

  predicate IndicesIncrease(s: seq<Scored>)
  {
    forall i, j :: 0 <= i < j < |s| ==> s[i].index < s[j].index
  }

  /** Puts `x` before the first pair scoring no more than it, so `x`, the earliest index, precedes equal scores. */
  function Insert(x: Scored, t: seq<Scored>): seq<Scored>
  {
    if t == [] || x.score >= t[0].score then [x] + t else [t[0]] + Insert(x, t[1..])
  }

  /** A stable sort by descending score. */
  function SortByScore(s: seq<Scored>): seq<Scored>
  {
    if s == [] then [] else Insert(s[0], SortByScore(s[1..]))
  }

  /** `scored` in `recommend`: the row's pairs, best first. */
  function Scores(row: seq<int>): seq<Scored>
  {
    SortByScore(Enumerate(row))
  }

  /** A slice bound as Python normalises it: negative counts from the end, then clamped. */
  function SliceBound(b: int, n: nat): (r: nat)
    ensures r <= n
    ensures 0 <= b <= n ==> r == b
    ensures b > n ==> r == n
    ensures b < 0 ==> r == if b + n < 0 then 0 else b + n
  {
    if b < 0 then (if b + n < 0 then 0 else b + n) else if b > n then n else b
  }

  /** Python's `s[start:stop]`. */
  function PySlice<T>(s: seq<T>, start: int, stop: int): seq<T>
  {
    var lo, hi := SliceBound(start, |s|), SliceBound(stop, |s|);
    if lo < hi then s[lo..hi] else []
  }

  /**
   * The similarity row `recommend` ranks, or None in the three cases where it
   * returns an empty list: no `title` column, no row with that exact title,
   * or a row lookup in the similarity matrix that fails.
   */
  function QueryRow(cat: Catalog, sim: seq<seq<int>>, title: string): (r: Option<seq<int>>)
    ensures r.None? <==>
      || !cat.hasTitleColumn
      || (forall j :: 0 <= j < |cat.rows| ==> cat.rows[j].title != title)
      || FirstMatch(cat.rows, title).value >= |sim|
    ensures r.Some? ==> r.value == sim[FirstMatch(cat.rows, title).value]
  {
    if !cat.hasTitleColumn then None
    else match FirstMatch(cat.rows, title)
      case None => None
      case Some(i) => if i < |sim| then Some(sim[i]) else None
  }

  /** `candidates = scored[1 : top_n + 1]`, or nothing when the title does not resolve. */
  function Candidates(cat: Catalog, sim: seq<seq<int>>, title: string, topN: int): seq<Scored>
  {
    match QueryRow(cat, sim, title)
    case None => []
    case Some(row) => PySlice(Scores(row), 1, topN + 1)
  }
}
