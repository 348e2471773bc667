/** What `fetch_poster` promises, proved of its specification FetchSpec. */
module PosterCacheFacts {
  import opened Wrappers
  import opened Numbers
  import opened CacheNames
  import opened PosterCache

  /** Without an API key the lookup is skipped: None, no request, nothing written. */
  lemma NoApiKeyIsInert(cfg: Config, c: Cache, id: int, retries: int)
    requires cfg.apiKey == ""
    ensures FetchSpec(cfg, c, id, retries) == Fetched(None, c)
  {
  }

  /**
   * An id that is not a positive integer gets a marker before the cache is
   * consulted, gives None and sends no request.
   */
  lemma InvalidIdIsMarked(cfg: Config, c: Cache, id: int, retries: int)
    requires cfg.apiKey != "" && !IsValidMovieId(id)
    ensures var r := FetchSpec(cfg, c, id, retries);
      && r.poster == None
      && r.cache == c.(files := c.files + {FailMarkerPath(cfg.dir, id)})
      && EntryOf(cfg.dir, r.cache.files, id) == (if PosterPath(cfg.dir, id) in c.files then Success else Failed)
  {
  }

  /** A poster already in the cache is returned at once, even when a marker is present too. */
  lemma CachedPosterIsReturned(cfg: Config, c: Cache, id: int, retries: int)
    requires cfg.apiKey != "" && IsValidMovieId(id)
    requires EntryOf(cfg.dir, c.files, id) == Success
    ensures FetchSpec(cfg, c, id, retries) == Fetched(Some(PosterPath(cfg.dir, id)), c)
  {
  }

  /** A marker is honoured: None and no request. This holds for invalid ids and without a key too. */
  lemma FailedIsSticky(cfg: Config, c: Cache, id: int, retries: int)
    requires EntryOf(cfg.dir, c.files, id) == Failed
    ensures FetchSpec(cfg, c, id, retries) == Fetched(None, c)
  {
  }

  /**
   * The shape of every run of the retry loop: at most one metadata request per
   * remaining attempt, at most one image request per metadata request, and the
   * only file it may create is the poster or the marker of `id`, the poster
   * exactly when it returns its path.
   */
  lemma {:induction false} AttemptsShape(cfg: Config, id: int, c: Cache, retries: int, attempt: nat)
    ensures var r := Attempts(cfg, id, c, retries, attempt);
      && c.metadataRequests <= r.cache.metadataRequests <= c.metadataRequests + Max0(retries - attempt)
      && r.cache.requests - c.requests <= 2 * (r.cache.metadataRequests - c.metadataRequests)
      && c.requests <= r.cache.requests
      && (attempt < retries ==> c.metadataRequests < r.cache.metadataRequests)
      && (r.poster.Some? ==> r.poster.value == PosterPath(cfg.dir, id)
                             && r.cache.files == c.files + {PosterPath(cfg.dir, id)})
      && (r.poster.None? ==> r.cache.files == c.files
                             || r.cache.files == c.files + {FailMarkerPath(cfg.dir, id)})
    decreases retries - attempt
  {
    if attempt < retries {
      var meta := cfg.remote(c.requests);
      var c1 := Sent(c, true);
      if IsRequestException(meta) && attempt < retries - 1 {
        AttemptsShape(cfg, id, c1, retries, attempt + 1);
      } else if meta.Ok? && HasPosterPath(meta) {
        var c2 := Sent(c1, false);
        if IsRequestException(cfg.remote(c1.requests)) && attempt < retries - 1 {
          AttemptsShape(cfg, id, c2, retries, attempt + 1);
        }
      }
    }
  }

  /**
   * The shape of every call: the counters never go down, at most `retries`
   * metadata requests and `2 * retries` requests in all, only files of `id` are
   * created, a returned path is the poster file of `id`, and an id that was no
   * longer Unknown keeps its state.
   */
  lemma FetchShape(cfg: Config, c: Cache, id: int, retries: int)
    ensures var r := FetchSpec(cfg, c, id, retries);
      && c.metadataRequests <= r.cache.metadataRequests <= c.metadataRequests + Max0(retries)
      && c.requests <= r.cache.requests <= c.requests + 2 * Max0(retries)
      && c.files <= r.cache.files
      && r.cache.files - c.files <= {PosterPath(cfg.dir, id), FailMarkerPath(cfg.dir, id)}
      && (r.poster.Some? ==> r.poster.value == PosterPath(cfg.dir, id)
                             && EntryOf(cfg.dir, r.cache.files, id) == Success)
      && (EntryOf(cfg.dir, c.files, id) != Unknown ==>
            EntryOf(cfg.dir, r.cache.files, id) == EntryOf(cfg.dir, c.files, id))
  {
    AttemptsShape(cfg, id, c, retries, 0);
  }

  /** A call for one id never changes what the cache says about another id. */
  lemma OtherIdsUntouched(cfg: Config, c: Cache, id: int, other: int, retries: int)
    requires other != id
    ensures EntryOf(cfg.dir, FetchSpec(cfg, c, id, retries).cache.files, other) == EntryOf(cfg.dir, c.files, other)
  {
    FetchShape(cfg, c, id, retries);
    NamesAreDistinct(cfg.dir, other, id);
    NamesAreDistinct(cfg.dir, id, other);
    var added := FetchSpec(cfg, c, id, retries).cache.files - c.files;
    assert PosterPath(cfg.dir, other) !in added;
    assert FailMarkerPath(cfg.dir, other) !in added;
  }

  /** Starting from Unknown, a 404 on the metadata request marks the id Failed after one request. */
  lemma MetadataNotFoundMarks(cfg: Config, c: Cache, id: int, retries: int)
    requires cfg.apiKey != "" && IsValidMovieId(id) && EntryOf(cfg.dir, c.files, id) == Unknown
    requires retries >= 1 && cfg.remote(c.requests) == NotFound
    ensures var r := FetchSpec(cfg, c, id, retries);
      && r == Fetched(None, WithMarker(cfg.dir, Sent(c, true), id))
      && EntryOf(cfg.dir, r.cache.files, id) == Failed
  {
  }

  /** Starting from Unknown, metadata without a usable `poster_path` marks the id Failed. */
  lemma MissingPosterPathMarks(cfg: Config, c: Cache, id: int, retries: int)
    requires cfg.apiKey != "" && IsValidMovieId(id) && EntryOf(cfg.dir, c.files, id) == Unknown
    requires retries >= 1 && cfg.remote(c.requests).Ok? && !HasPosterPath(cfg.remote(c.requests))
    ensures var r := FetchSpec(cfg, c, id, retries);
      && r == Fetched(None, WithMarker(cfg.dir, Sent(c, true), id))
      && EntryOf(cfg.dir, r.cache.files, id) == Failed
  {
  }

  /** Starting from Unknown, a 404 on the image marks the id Failed after two requests. */
  lemma ImageNotFoundMarks(cfg: Config, c: Cache, id: int, retries: int)
    requires cfg.apiKey != "" && IsValidMovieId(id) && EntryOf(cfg.dir, c.files, id) == Unknown
    requires retries >= 1 && HasPosterPath(cfg.remote(c.requests)) && cfg.remote(c.requests + 1) == NotFound
    ensures var r := FetchSpec(cfg, c, id, retries);
      && r == Fetched(None, WithMarker(cfg.dir, Sent(Sent(c, true), false), id))
      && EntryOf(cfg.dir, r.cache.files, id) == Failed
  {
  }

  /** Starting from Unknown, a downloaded image is stored and its path returned. */
  lemma DownloadStoresPoster(cfg: Config, c: Cache, id: int, retries: int)
    requires cfg.apiKey != "" && IsValidMovieId(id) && EntryOf(cfg.dir, c.files, id) == Unknown
    requires retries >= 1 && HasPosterPath(cfg.remote(c.requests)) && cfg.remote(c.requests + 1).Ok?
    ensures var r := FetchSpec(cfg, c, id, retries);
      && r.poster == Some(PosterPath(cfg.dir, id))
      && r.cache.requests == c.requests + 2
      && EntryOf(cfg.dir, r.cache.files, id) == Success
  {
  }

  /**
   * A transient failure of the image download starts the next attempt from
   * the metadata request again.
   */
  lemma ImageFailureRetriesMetadata(cfg: Config, id: int, c: Cache, retries: int, attempt: nat)
    requires attempt < retries - 1
    requires HasPosterPath(cfg.remote(c.requests)) && IsRequestException(cfg.remote(c.requests + 1))
    ensures Attempts(cfg, id, c, retries, attempt) == Attempts(cfg, id, Sent(Sent(c, true), false), retries, attempt + 1)
  {
  }

  /**
   * When every metadata request of the remaining attempts raises, no marker is
   * written and one metadata request is sent per attempt.
   */
  lemma {:induction false} AllTransientMetadata(cfg: Config, id: int, c: Cache, retries: int, attempt: nat)
    requires forall j :: c.requests <= j < c.requests + (retries - attempt) ==> IsRequestException(cfg.remote(j))
    ensures Attempts(cfg, id, c, retries, attempt)
         == Fetched(None, c.(requests := c.requests + Max0(retries - attempt),
                             metadataRequests := c.metadataRequests + Max0(retries - attempt)))
    decreases retries - attempt
  {
    if attempt < retries - 1 {
      AllTransientMetadata(cfg, id, Sent(c, true), retries, attempt + 1);
    }
  }

  /**
   * Transient failures never mark: on an Unknown id whose remote only raises,
   * the call returns None, the id stays Unknown and exactly `retries` requests go out.
   */
  lemma TransientFailuresLeaveUnknown(cfg: Config, c: Cache, id: int, retries: int)
    requires cfg.apiKey != "" && IsValidMovieId(id) && EntryOf(cfg.dir, c.files, id) == Unknown
    requires forall j :: c.requests <= j < c.requests + retries ==> IsRequestException(cfg.remote(j))
    ensures var r := FetchSpec(cfg, c, id, retries);
      && r.poster == None
      && r.cache.files == c.files
      && r.cache.requests == c.requests + Max0(retries)
      && r.cache.metadataRequests == c.metadataRequests + Max0(retries)
  {
    AllTransientMetadata(cfg, id, c, retries, 0);
  }

  /** After a call that returned a path, the next call returns the same path without a request. */
  lemma SuccessIsCachedForNextCall(cfg: Config, c: Cache, id: int, retries: int, retries2: int)
    ensures var r := FetchSpec(cfg, c, id, retries);
      r.poster.Some? ==> FetchSpec(cfg, r.cache, id, retries2) == Fetched(r.poster, r.cache)
  {
    FetchShape(cfg, c, id, retries);
  }

  /** After a call that left the marker of an id, the next call for it sends nothing. */
  lemma FailureIsCachedForNextCall(cfg: Config, c: Cache, id: int, retries: int, retries2: int)
    ensures var r := FetchSpec(cfg, c, id, retries);
      EntryOf(cfg.dir, r.cache.files, id) == Failed ==> FetchSpec(cfg, r.cache, id, retries2) == Fetched(None, r.cache)
  {
  }

  /**
   * Transient failures are not remembered: when the remote only raises, a
   * second call for the same Unknown id sends its `retries` requests again,
   * so two calls send `2 * retries` requests and both return None.
   */
  lemma TransientFailuresRepeatNextCall(cfg: Config, c: Cache, id: int, retries: int)
    requires cfg.apiKey != "" && IsValidMovieId(id) && EntryOf(cfg.dir, c.files, id) == Unknown
    requires retries >= 0
    requires forall j :: c.requests <= j < c.requests + 2 * retries ==> IsRequestException(cfg.remote(j))
    ensures var r1 := FetchSpec(cfg, c, id, retries);
      var r2 := FetchSpec(cfg, r1.cache, id, retries);
      && r1.poster == None && r2.poster == None
      && r2.cache.files == c.files
      && r2.cache.requests == c.requests + 2 * retries
  {
    TransientFailuresLeaveUnknown(cfg, c, id, retries);
    var r1 := FetchSpec(cfg, c, id, retries);
    TransientFailuresLeaveUnknown(cfg, r1.cache, id, retries);
  }

  /**
   * Which runs of the retry loop leave a marker: exactly those that end on a
   * reply that did not raise without returning a path, that is on a 404
   * (metadata or image) or on metadata without a usable `poster_path`, at
   * whatever attempt it comes. A run that ends because its last request
   * raised, or that sends nothing, writes no marker.
   */
  lemma {:induction false} MarkerIffPermanentReply(cfg: Config, id: int, c: Cache, retries: int, attempt: nat)
    requires FailMarkerPath(cfg.dir, id) !in c.files
    ensures var r := Attempts(cfg, id, c, retries, attempt);
      (FailMarkerPath(cfg.dir, id) in r.cache.files)
        <==> (r.poster.None? && r.cache.requests > c.requests && !IsRequestException(cfg.remote(r.cache.requests - 1)))
    decreases retries - attempt
  {
    NamesAreDistinct(cfg.dir, id, id);
    if attempt < retries {
      var meta := cfg.remote(c.requests);
      var c1 := Sent(c, true);
      if IsRequestException(meta) && attempt < retries - 1 {
        MarkerIffPermanentReply(cfg, id, c1, retries, attempt + 1);
        AttemptsShape(cfg, id, c1, retries, attempt + 1);
      } else if meta.Ok? && HasPosterPath(meta) {
        var c2 := Sent(c1, false);
        if IsRequestException(cfg.remote(c1.requests)) && attempt < retries - 1 {
          MarkerIffPermanentReply(cfg, id, c2, retries, attempt + 1);
          AttemptsShape(cfg, id, c2, retries, attempt + 1);
        }
      }
    }
  }

  /**
   * From Unknown, a call marks the id Failed exactly when its last reply was
   * a permanent one (a 404 or metadata without a usable `poster_path`), and it
   * leaves the id Unknown exactly when it returns None after sending nothing
   * or after a last request that raised: transient failures never mark, on
   * the metadata request or on the image request, at any attempt.
   */
  lemma FetchMarksIffPermanentReply(cfg: Config, c: Cache, id: int, retries: int)
    requires cfg.apiKey != "" && IsValidMovieId(id) && EntryOf(cfg.dir, c.files, id) == Unknown
    ensures var r := FetchSpec(cfg, c, id, retries);
      && ((EntryOf(cfg.dir, r.cache.files, id) == Failed)
            <==> (r.poster.None? && r.cache.requests > c.requests && !IsRequestException(cfg.remote(r.cache.requests - 1))))
      && ((EntryOf(cfg.dir, r.cache.files, id) == Unknown)
            <==> (r.poster.None? && (r.cache.requests > c.requests ==> IsRequestException(cfg.remote(r.cache.requests - 1)))))
  {
    MarkerIffPermanentReply(cfg, id, c, retries, 0);
    AttemptsShape(cfg, id, c, retries, 0);
    NamesAreDistinct(cfg.dir, id, id);
  }

  /**
   * A run that mixes transient failures of both requests: a path then an
   * image request that raises, a metadata request that raises, a path then an
   * error status on the image. The call returns None after five requests and
   * the id stays Unknown.
   */
  lemma MixedTransientFailuresExample(cfg: Config, c: Cache, id: int)
    requires cfg.apiKey != "" && IsValidMovieId(id) && EntryOf(cfg.dir, c.files, id) == Unknown
    requires var k := c.requests;
      && cfg.remote(k) == Ok(Some("/p.jpg")) && cfg.remote(k + 1) == Transient
      && cfg.remote(k + 2) == Transient
      && cfg.remote(k + 3) == Ok(Some("/p.jpg")) && cfg.remote(k + 4) == ErrorStatus
    ensures var r := FetchSpec(cfg, c, id, 3);
      r.poster == None && r.cache.files == c.files && r.cache.requests == c.requests + 5
  {
  }
}
