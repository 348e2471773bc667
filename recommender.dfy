/**
 * `recommend`: the ranked candidates mapped back to (title, poster) pairs,
 * with one poster lookup per candidate whose row has a movie id.
 */
module Recommender {
  import opened Wrappers
  import opened CacheNames
  import opened PosterCache
  import opened Ranking

  /** One entry of the returned list: a title and the cached poster path, if any. */
  datatype Recommendation = Recommendation(title: string, poster: Option<string>)

  /**
   * What `recommend` ends with: the list it returns, or the IndexError that
   * `movies.iloc[idx]` raises for a candidate index past the end of the table.
   */
  datatype Outcome = Returned(recs: seq<Recommendation>) | RaisedIndexError

  /** A run of `recommend`: its outcome and the cache it leaves behind. */
  datatype Run = Run(outcome: Outcome, cache: Cache)

  function Prepend(recs: seq<Recommendation>, o: Outcome): Outcome
  {
    match o
    case Returned(rest) => Returned(recs + rest)
    case RaisedIndexError => RaisedIndexError
  }

  /** The poster lookup of one table row: only rows with a movie id consult the cache. */
  function RowPoster(cfg: Config, c: Cache, movie: Movie): Fetched
  {
    if movie.movieId.Some? then FetchSpec(cfg, c, movie.movieId.value, DefaultRetries) else Fetched(None, c)
  }

  /** The loop over `candidates`, in order, threading the cache through the lookups. */
  function FetchAll(cfg: Config, c: Cache, rows: seq<Movie>, cands: seq<Scored>): Run
    decreases |cands|
  {
    if cands == [] then Run(Returned([]), c)
    else if cands[0].index >= |rows| then Run(RaisedIndexError, c)
    else
      var movie := rows[cands[0].index];
      var f := RowPoster(cfg, c, movie);
      var rest := FetchAll(cfg, f.cache, rows, cands[1..]);
      Run(Prepend([Recommendation(movie.title, f.poster)], rest.outcome), rest.cache)
  }

  /** The whole of `recommend(title, top_n)`. */
  function RecommendSpec(cfg: Config, c: Cache, cat: Catalog, sim: seq<seq<int>>, title: string, topN: int): Run
  {
    FetchAll(cfg, c, cat.rows, Candidates(cat, sim, title, topN))
  }

  lemma PrependAssoc(a: seq<Recommendation>, b: seq<Recommendation>, o: Outcome)
    ensures Prepend(a, Prepend(b, o)) == Prepend(a + b, o)
  {
  }

  /** `recommend(title, top_n)` with the poster cache `store`. */
  method Recommend(store: PosterStore, cat: Catalog, sim: seq<seq<int>>, title: string, topN: int)
    returns (outcome: Outcome)
    modifies store
    ensures Run(outcome, store.Snapshot()) == RecommendSpec(store.Settings(), old(store.Snapshot()), cat, sim, title, topN)
  {
    var candidates := Candidates(cat, sim, title, topN);
    var recs: seq<Recommendation> := [];
    var k := 0;
    while k < |candidates|
      invariant 0 <= k <= |candidates|
      invariant var rest := FetchAll(store.Settings(), store.Snapshot(), cat.rows, candidates[k..]);
        Run(Prepend(recs, rest.outcome), rest.cache)
          == FetchAll(store.Settings(), old(store.Snapshot()), cat.rows, candidates)
    {
      var idx := candidates[k].index;
      if idx >= |cat.rows| {
        return RaisedIndexError;
      }
      var movie := cat.rows[idx];
      var poster := None;
      if movie.movieId.Some? {
        poster := store.FetchPoster(movie.movieId.value, DefaultRetries);
      }
      ghost var c := store.Snapshot();
      assert candidates[k..][1..] == candidates[k + 1..];
      PrependAssoc(recs, [Recommendation(movie.title, poster)],
                   FetchAll(store.Settings(), c, cat.rows, candidates[k + 1..]).outcome);
      recs := recs + [Recommendation(movie.title, poster)];
      k := k + 1;
    }
    assert recs + [] == recs;
    return Returned(recs);
  }
}
