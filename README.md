# Movie recommender: ranking and poster cache, modelled in Dafny

This project models the core of a small movie recommender (`recommender.py`).
It has two parts.

- **`recommend(movie_title, top_n)`** resolves a title to the first table row
  with exactly that title. It pairs every score of that row of the similarity
  matrix with its index and sorts the pairs by descending score. Python's
  sort is stable, so equal scores keep increasing index order. It then drops
  the first pair, which is assumed to be the query itself, keeps the next
  `top_n` pairs and maps each index back to `(title, poster)`.
- **`fetch_poster(movie_id, retries)`** is a per-id memo kept as files in a
  cache directory. A downloaded poster is kept as `<id>.jpg` and a permanent
  failure as the marker `<id>.fail`. In front of it sits a bounded retry loop
  over the remote movie database: a metadata request, then an image request.

Modules, one per component:

- `Wrappers`, `Numbers` (`wrappers.dfy`): `Option`, `Min`, `Max0`.
- `CacheNames` (`cache_names.dfy`): how an id becomes a file name. The decimal
  text of an id has an inverse (`ParseId`), so different ids get different
  files, and a poster file is never a marker file.
- `PosterCache` (`poster_cache.dfy`): the remote's replies, the cache value
  and the specification `FetchSpec` / `Attempts` of one call. The class
  `PosterStore` owns the directory (a `set<string>` of file names) and the
  request counters. Its method `FetchPoster` runs the source's loop and is
  proved equal to `FetchSpec`. `EntryOf` reads the three states Unknown /
  Success / Failed off the directory, and an image file wins over a marker.
- `PosterCacheFacts` (`poster_cache_facts.dfy`): what `fetch_poster` promises,
  proved of `FetchSpec`.
- `Ranking`, `RankingFacts` (`ranking.dfy`, `ranking_facts.dfy`): the title
  lookup, the stable descending sort, Python's slice `scored[1 : top_n + 1]`
  and their properties.
- `Recommender`, `RecommenderFacts` (`recommender.dfy`, `recommender_facts.dfy`):
  the loop of `recommend` over the candidates, calling the poster lookup for
  every row that has a movie id. The method `Recommend` is proved equal to
  the specification `RecommendSpec`. The lemmas describe the list it returns
  and the cache it leaves.

Environment as inputs:

- The remote is a script `remote: nat -> Reply`: the reply to the k-th
  request ever sent, where k is the request counter.
- The API key is a string; the empty string stands for "not configured"
  (both `None` and `""` are falsy in the source).
- The cache directory is a string parameter, joined to file names with `/`.
- `time.sleep` has no effect on the model.

Behaviour of the code that a naive reading ("every failure is remembered, the query is always excluded") would miss:

- An unknown title gives an empty list, not an error.
- A transient failure (a raised request exception, or a status other than
  404 that `raise_for_status` rejects) writes no marker. The id stays
  Unknown, and the next call sends its requests again
  (`TransientFailuresRepeatNextCall`).
- A transient failure of the image download restarts the attempt from the
  metadata request (`ImageFailureRetriesMetadata`).
- The skipped pair is whichever index sorts first, not necessarily the query.
  The query sorts first exactly when its score is a largest of its row and
  every earlier row scores strictly less (`SortsFirstIff`); then it is never
  recommended (`SelfExcludedWhenFirst`; `SelfExcludedWhenStrictMax` is the
  strict case). When an earlier row ties it, that row is skipped instead and
  the query can be recommended (`TieReturnsQueryItself` is one instance); it
  is certainly recommended once `top_n >= n - 1` (`SelfIncludedWhenNotFirst`).

## Model

| member | source | states |
|---|---|---|
| `CacheNames.Digits` | recommender.py:24-29 | the decimal text of a number is non-empty, made of digits, with no leading zero |
| `CacheNames.IdTextRoundTrip` | recommender.py:24-29 | reading back the text an id is written as gives the id |
| `CacheNames.IdTextInjective` | recommender.py:24-29 | two ids have the same text exactly when they are equal |
| `CacheNames.IdText` | recommender.py:25 | the text of an id is non-empty and starts with `-` exactly for a negative id; `IdTextRoundTrip` gives its inverse |
| `CacheNames.IsValidMovieId` | recommender.py:44-49 | an id is accepted exactly when its text is a plain numeral, with no sign and other than `0` (a positive int) |
| `CacheNames.PosterPath` | recommender.py:24-25 | the poster file is the cache directory, `/`, the id's text and `.jpg` |
| `CacheNames.FailMarkerPath` | recommender.py:28-29 | the marker file is the cache directory, `/`, the id's text and `.fail` |
| `CacheNames.NamesAreDistinct` | recommender.py:13-29 | poster files of two ids coincide exactly when the ids do, the same for markers, and no poster file is a marker file |
| `PosterCache.PosterStore.constructor` | recommender.py:12-16 | a store over a given directory content, with no request sent yet |
| `PosterCache.PosterStore.HasFailMarker` | recommender.py:32-33 | true only for an id that is no longer Unknown, and, when no poster file exists, true exactly for a Failed id |
| `PosterCache.PosterStore.WriteFailMarker` | recommender.py:36-41 | the marker of the id is present afterwards; nothing else changes |
| `PosterCache.PosterStore.Get` | recommender.py:83-97 | one request: the reply is the remote's answer to the next request number, and the counters go up by one |
| `PosterCache.PosterStore.FetchPoster` | recommender.py:52-114 | the returned path, the new directory and the new counters are exactly those of the specification FetchSpec of the old state |
| `PosterCacheFacts.NoApiKeyIsInert` | recommender.py:63-65 | without an API key: None, no request, cache unchanged |
| `PosterCacheFacts.InvalidIdIsMarked` | recommender.py:44-69 | an id that is not a positive integer gets a marker before the cache is consulted, returns None with no request, and ends Failed unless an image was already present |
| `PosterCacheFacts.CachedPosterIsReturned` | recommender.py:71-73 | a present poster file is returned at once, even beside a marker, with no request |
| `PosterCacheFacts.FailedIsSticky` | recommender.py:67-76 | a Failed id gives None and leaves the cache as it was, whatever the key or the id |
| `PosterCacheFacts.AttemptsShape` | recommender.py:80-114 | the loop sends at most one metadata request per remaining attempt and at most one image request per metadata request; it creates only the poster file (exactly when it returns its path) or the marker of the id |
| `PosterCacheFacts.FetchShape` | recommender.py:52-114 | a call sends at most `retries` metadata requests and `2 * retries` requests, creates only files of its id, returns only the id's poster path and then the id is Success, and never changes an id that was Success or Failed |
| `PosterCacheFacts.OtherIdsUntouched` | recommender.py:24-106 | a call for one id leaves the state of every other id unchanged |
| `PosterCacheFacts.MetadataNotFoundMarks` | recommender.py:84-87 | from Unknown, a 404 on metadata gives None after one request and marks the id Failed |
| `PosterCacheFacts.MissingPosterPathMarks` | recommender.py:89-94 | from Unknown, metadata without a non-empty `poster_path` gives None after one request and marks the id Failed |
| `PosterCacheFacts.ImageNotFoundMarks` | recommender.py:96-100 | from Unknown, a 404 on the image gives None after two requests and marks the id Failed |
| `PosterCacheFacts.DownloadStoresPoster` | recommender.py:96-106 | from Unknown, a downloaded image is stored after two requests, its path returned and the id is Success |
| `PosterCacheFacts.ImageFailureRetriesMetadata` | recommender.py:81-112 | a transient image failure before the last attempt leads to the next attempt, which starts with a new metadata request |
| `PosterCacheFacts.AllTransientMetadata` | recommender.py:81-114 | when every metadata request of the remaining attempts raises, the loop returns None, writes nothing and sends one metadata request per attempt |
| `PosterCacheFacts.TransientFailuresLeaveUnknown` | recommender.py:107-114 | from Unknown, when every metadata request raises, the call returns None, writes nothing and sends exactly `retries` requests |
| `PosterCacheFacts.MarkerIffPermanentReply` | recommender.py:81-114 | the retry loop leaves a marker exactly when it ends, with None, on a reply that did not raise (a 404 or metadata without `poster_path`) at any attempt; a run ending on a raised request, or sending nothing, writes none |
| `PosterCacheFacts.FetchMarksIffPermanentReply` | recommender.py:61-114 | from Unknown, the id ends Failed exactly when the last reply was permanent, and stays Unknown exactly when the call returns None after sending nothing or after a last request that raised, on metadata or image, at any attempt |
| `PosterCacheFacts.MixedTransientFailuresExample` | recommender.py:81-112 | path then raised image, raised metadata, path then error status on the image: None, no file written, five requests |
| `PosterCacheFacts.SuccessIsCachedForNextCall` | recommender.py:71-106 | after a call that returned a path, the next call returns the same path with no request |
| `PosterCacheFacts.FailureIsCachedForNextCall` | recommender.py:75-76 | after a call that left the id Failed, the next call returns None with no request |
| `PosterCacheFacts.TransientFailuresRepeatNextCall` | recommender.py:107-112 | with a remote that only raises, two calls both return None, write nothing and send `2 * retries` requests |
| `Ranking.FirstMatch` | recommender.py:153-158 | the first row with exactly the title, or None exactly when no row has it |
| `Ranking.SliceBound` | recommender.py:168 | a slice bound normalised as Python does: negative counts from the end, then clamped to the length |
| `Ranking.QueryRow` | recommender.py:150-164 | no row exactly when the title column is missing, no row matches, or the first match has no similarity row; otherwise the similarity row of the first match |
| `RankingFacts.SortPermutes` | recommender.py:166 | the sort rearranges its input: same multiset, same length |
| `RankingFacts.SortRanks` | recommender.py:166 | on pairs in increasing index order the sort puts every pair before each pair scoring less, and equal scores keep increasing index (stability) |
| `RankingFacts.ScoresRanked` | recommender.py:166 | `scored` holds every index of the row, each with its own score, best first, ties by increasing index |
| `RankingFacts.SliceFromOne` | recommender.py:168 | Python's `s[1:stop]` for positive, zero/one and negative `stop` |
| `RankingFacts.CandidatesWindow` | recommender.py:168 | the candidates are a window `scored[1..hi]` of the ranked pairs |
| `RankingFacts.CandidatesLength` | recommender.py:166-168 | for `top_n >= 0` there are `min(top_n, max(n - 1, 0))` candidates, and none when the title does not resolve |
| `RankingFacts.NegativeTopN` | recommender.py:168 | `top_n = -1` gives nothing, and `top_n = -m` for m >= 2 gives `max(n - m, 0)` candidates |
| `RankingFacts.CandidatesOrdered` | recommender.py:166-171 | candidates have non-increasing scores, equal scores in increasing index, each an index of the row with its own score, no index twice |
| `RankingFacts.TopPairExcluded` | recommender.py:166-168 | `scored[0]` holds a largest score of the row and is never a candidate |
| `RankingFacts.SelfExcludedWhenStrictMax` | recommender.py:158-168 | when the query's own score is strictly the largest in its row, the query is never a candidate |
| `RankingFacts.SortsFirstIff` | recommender.py:166 | an index is `scored[0]` exactly when its score is a largest of the row and every earlier index scores strictly less |
| `RankingFacts.SelfExcludedWhenFirst` | recommender.py:158-168 | when the query sorts first (a largest score, every earlier row strictly less) it is never a candidate |
| `RankingFacts.SelfIncludedWhenNotFirst` | recommender.py:158-168 | when the query does not sort first and `top_n >= n - 1`, the query itself is a candidate |
| `RankingFacts.CandidatesAreBest` | recommender.py:166-168 | every index that is neither `scored[0]` nor a candidate ranks after every candidate |
| `RankingFacts.ThreeMovieExample` | recommender.py:166-168 | for A's row scoring A 10, B 9 and C 1 and `top_n = 2`, the candidates are B then C |
| `RankingFacts.TieReturnsQueryItself` | recommender.py:166-168 | when an earlier row ties the query's self-score, the query itself is a candidate |
| `Recommender.Recommend` | recommender.py:140-178 | the outcome and the new cache are exactly those of the specification RecommendSpec of the old cache |
| `RecommenderFacts.FetchAllRaises` | recommender.py:171-172 | building the list raises IndexError exactly when some candidate index is past the end of the table |
| `RecommenderFacts.FetchAllGrows` | recommender.py:171-176 | the cache only grows, by at most `2 * retries` requests per candidate |
| `RecommenderFacts.FetchAllEntries` | recommender.py:170-178 | one entry per candidate, in order, with that row's title, and a poster only for a row with a movie id, as that id's poster file, present in the cache |
| `RecommenderFacts.NoApiKeyNoPosters` | recommender.py:170-176 | without an API key every entry has no poster and the cache is untouched |
| `RecommenderFacts.UnresolvedTitleGivesNothing` | recommender.py:150-164 | a missing title column, an unknown title or a failing row lookup gives the empty list and no lookup |
| `RecommenderFacts.AlignedRecommendation` | recommender.py:166-178 | with a similarity row no longer than the table, the list is returned, has `min(top_n, n - 1)` entries for `top_n >= 0`, carries each candidate's title and never the top-ranked pair |

## Left out

- `load_movies` and `load_similarity`: pickle and pandas loading, column renaming and `lru_cache` are library calls. The table and the matrix are inputs.
- HTTP itself (`requests.get`, `raise_for_status`, `resp.json()`), timeouts (floats) and `time.sleep`: the remote is a script of replies and the pause does nothing.
- The URL strings, including the image URL and its `lstrip("/")`: the model only needs whether `poster_path` is non-empty.
- The image bytes: the model records that the file exists, not its content.
- Filesystem errors: writing a marker or an image always succeeds. The source swallows `OSError` on a marker and would propagate one on an image.
- Directory creation at import (`os.makedirs`): the directory is assumed to exist.
- `int(movie_id)` on non-int values such as strings or floats: ids are integers, and "valid" means positive.
- Truthy non-object JSON bodies and truthy non-string `poster_path` values: the source raises `AttributeError` on them (`.get` on the body, `.lstrip` on the path), which the model does not capture. Falsy bodies (`null`, `[]`, `0`, `""`, `false`) become `{}` and falsy `poster_path` values are treated as missing; both are the model's `Ok(None)` and are modelled.
- A body that fails to decode counts as a transient reply; this holds where `resp.json()` raises `requests.exceptions.JSONDecodeError`, a `RequestException` (a requests version whose decode error is not one would propagate it instead).
- Scores are integers; floating-point similarity, including NaN ordering, is not modelled.
- pandas label against position indexing: labels are taken to equal row positions.
- A similarity lookup that fails for a reason other than a row past the end of the matrix.
- Concurrent access to the cache directory.
- `app.py`, the Streamlit UI: title filter, rendering, placeholder.
