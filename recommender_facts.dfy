/** What `recommend` promises about its returned list and the poster cache. */
module RecommenderFacts {
  import opened Wrappers
  import opened Numbers
  import opened CacheNames
  import opened PosterCache
  import opened PosterCacheFacts
  import opened Ranking
  import opened RankingFacts
  import opened Recommender

  /** The loop raises exactly when some candidate lies past the end of the table. */
  lemma {:induction false} FetchAllRaises(cfg: Config, c: Cache, rows: seq<Movie>, cands: seq<Scored>)
    ensures FetchAll(cfg, c, rows, cands).outcome.Returned?
        <==> forall k :: 0 <= k < |cands| ==> cands[k].index < |rows|
    decreases |cands|
  {
    if cands != [] && cands[0].index < |rows| {
      var f := RowPoster(cfg, c, rows[cands[0].index]);
      FetchAllRaises(cfg, f.cache, rows, cands[1..]);
      assert forall k :: 1 <= k < |cands| ==> cands[k] == cands[1..][k - 1];
    }
  }

  /** The cache only grows, by at most `2 * retries` requests per candidate. */
  lemma {:induction false} FetchAllGrows(cfg: Config, c: Cache, rows: seq<Movie>, cands: seq<Scored>)
    ensures var r := FetchAll(cfg, c, rows, cands);
      && c.files <= r.cache.files
      && c.requests <= r.cache.requests <= c.requests + 2 * DefaultRetries * |cands|
    decreases |cands|
  {
    if cands != [] && cands[0].index < |rows| {
      var movie := rows[cands[0].index];
      if movie.movieId.Some? {
        FetchShape(cfg, c, movie.movieId.value, DefaultRetries);
      }
      FetchAllGrows(cfg, RowPoster(cfg, c, movie).cache, rows, cands[1..]);
    }
  }

  /**
   * A returned list has one entry per candidate, in order, with that row's
   * title, and a poster only for a row with a movie id: the poster file of
   * that id, present in the cache afterwards.
   */
  lemma {:induction false} FetchAllEntries(cfg: Config, c: Cache, rows: seq<Movie>, cands: seq<Scored>)
    ensures var r := FetchAll(cfg, c, rows, cands);
      r.outcome.Returned? ==>
        && |r.outcome.recs| == |cands|
        && forall k :: 0 <= k < |cands| ==>
             && cands[k].index < |rows|
             && r.outcome.recs[k].title == rows[cands[k].index].title
             && (r.outcome.recs[k].poster.Some? ==>
                   && rows[cands[k].index].movieId.Some?
                   && r.outcome.recs[k].poster.value == PosterPath(cfg.dir, rows[cands[k].index].movieId.value)
                   && r.outcome.recs[k].poster.value in r.cache.files)
    decreases |cands|
  {
    var r := FetchAll(cfg, c, rows, cands);
    if cands != [] && cands[0].index < |rows| && r.outcome.Returned? {
      var movie := rows[cands[0].index];
      var f := RowPoster(cfg, c, movie);
      if movie.movieId.Some? {
        FetchShape(cfg, c, movie.movieId.value, DefaultRetries);
      }
      FetchAllEntries(cfg, f.cache, rows, cands[1..]);
      FetchAllGrows(cfg, f.cache, rows, cands[1..]);
      var rest := FetchAll(cfg, f.cache, rows, cands[1..]);
      assert r.outcome.recs == [Recommendation(movie.title, f.poster)] + rest.outcome.recs;
      forall k | 1 <= k < |cands|
        ensures r.outcome.recs[k] == rest.outcome.recs[k - 1] && cands[k] == cands[1..][k - 1]
      {
      }
    }
  }

  /** Without an API key no poster is looked up: every entry has None and the cache is untouched. */
  lemma {:induction false} NoApiKeyNoPosters(cfg: Config, c: Cache, rows: seq<Movie>, cands: seq<Scored>)
    requires cfg.apiKey == ""
    ensures var r := FetchAll(cfg, c, rows, cands);
      && r.cache == c
      && (r.outcome.Returned? ==> forall k :: 0 <= k < |r.outcome.recs| ==> r.outcome.recs[k].poster == None)
    decreases |cands|
  {
    if cands != [] && cands[0].index < |rows| {
      NoApiKeyNoPosters(cfg, c, rows, cands[1..]);
      var r := FetchAll(cfg, c, rows, cands);
      var rest := FetchAll(cfg, c, rows, cands[1..]);
      if r.outcome.Returned? {
        forall k | 1 <= k < |r.outcome.recs| ensures r.outcome.recs[k] == rest.outcome.recs[k - 1] {
        }
      }
    }
  }

  /**
   * An unknown title, a table without a `title` column, or a failing row
   * lookup gives the empty list and no lookup at all.
   */
  lemma UnresolvedTitleGivesNothing(cfg: Config, c: Cache, cat: Catalog, sim: seq<seq<int>>, title: string, topN: int)
    requires !cat.hasTitleColumn
          || (forall j :: 0 <= j < |cat.rows| ==> cat.rows[j].title != title)
          || FirstMatch(cat.rows, title).value >= |sim|
    ensures RecommendSpec(cfg, c, cat, sim, title, topN) == Run(Returned([]), c)
  {
  }

  /**
   * With a similarity row no longer than the table (the two are aligned by
   * row index), `recommend` returns `min(top_n, n - 1)` entries for
   * `top_n >= 0`, best first, none of them the top-ranked pair, each with the
   * title of its row.
   */
  lemma AlignedRecommendation(cfg: Config, c: Cache, cat: Catalog, sim: seq<seq<int>>, title: string, topN: int)
    requires QueryRow(cat, sim, title).Some? && |QueryRow(cat, sim, title).value| <= |cat.rows|
    ensures var row, cands := QueryRow(cat, sim, title).value, Candidates(cat, sim, title, topN);
      var r := RecommendSpec(cfg, c, cat, sim, title, topN);
      && r.outcome.Returned?
      && (topN >= 0 ==> |r.outcome.recs| == Min(topN, Max0(|row| - 1)))
      && |r.outcome.recs| == |cands|
      && (forall k :: 0 <= k < |cands| ==>
            cands[k].index < |cat.rows| && r.outcome.recs[k].title == cat.rows[cands[k].index].title)
      && (forall k :: 0 <= k < |cands| ==> cands[k].index != Scores(row)[0].index)
  {
    var row, cands := QueryRow(cat, sim, title).value, Candidates(cat, sim, title, topN);
    CandidatesOrdered(cat, sim, title, topN);
    FetchAllRaises(cfg, c, cat.rows, cands);
    FetchAllEntries(cfg, c, cat.rows, cands);
    if topN >= 0 {
      CandidatesLength(cat, sim, title, topN);
    }
    if |row| > 0 {
      TopPairExcluded(cat, sim, title, topN);
    }
  }
}
