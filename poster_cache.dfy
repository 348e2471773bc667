/**
 * The poster cache of `fetch_poster`: a per-id memo kept as files in a cache
 * directory (`<id>.jpg` on success, `<id>.fail` for a permanent failure) in
 * front of a bounded retry loop over the remote movie database.
 *
 * The directory is the set of file names present in it; the remote is a
 * script giving the reply to the k-th request ever sent; the request
 * counters are kept beside the directory.
 */
module PosterCache {
  import opened Wrappers
  import opened CacheNames

  /** The default number of attempts of `fetch_poster`. */
  const DefaultRetries: int := 3

  /** What one HTTP request to the remote gives back. */
  datatype Reply =
    | NotFound                          // status 404
    | ErrorStatus                       // any other status `raise_for_status` rejects
    | Transient                         // the request itself raised (timeout, connection error, bad JSON)
    | Ok(posterPath: Option<string>)    // accepted; for metadata, the `poster_path` field if present

  /** True for the replies that raise a `RequestException` in the source. */
  predicate IsRequestException(r: Reply)
  {
    r.ErrorStatus? || r.Transient?
  }

  /** True when a metadata reply names a usable (non-empty) poster path. */
  predicate HasPosterPath(r: Reply)
  {
    r.Ok? && r.posterPath.Some? && r.posterPath.value != ""
  }

  /**
   * The environment of a lookup: the cache directory, the API key (the empty
   * string when none is configured) and the remote's reply to request number k.
   */
  datatype Config = Config(dir: string, apiKey: string, remote: nat -> Reply)

  /** The cache directory's file names and the numbers of requests sent so far. */
  datatype Cache = Cache(files: set<string>, requests: nat, metadataRequests: nat)

  /** What one lookup returns, with the cache it leaves behind. */
  datatype Fetched = Fetched(poster: Option<string>, cache: Cache)

  /** The three states a movie id can be in, read off the cache directory. */
  datatype Entry = Unknown | Success | Failed

  /** The image file decides first; otherwise a marker means a permanent failure. */
  function EntryOf(dir: string, files: set<string>, id: int): Entry
  {
    if PosterPath(dir, id) in files then Success
    else if FailMarkerPath(dir, id) in files then Failed
    else Unknown
  }

  /** Sending one request: the reply is the script's entry for the current count. */
  function Sent(c: Cache, metadata: bool): Cache
  {
    c.(requests := c.requests + 1,
       metadataRequests := if metadata then c.metadataRequests + 1 else c.metadataRequests)
  }

  function WithMarker(dir: string, c: Cache, id: int): Cache
  {
    c.(files := c.files + {FailMarkerPath(dir, id)})
  }

  /**
   * The retry loop from attempt `attempt` of `retries` on, for a valid id with
   * neither file present: each attempt asks for metadata and then for the image.
   */
  function Attempts(cfg: Config, id: int, c: Cache, retries: int, attempt: nat): Fetched
    decreases retries - attempt
  {
    if attempt >= retries then Fetched(None, c)
    else
      var meta := cfg.remote(c.requests);
      var c1 := Sent(c, true);
      if meta.NotFound? then Fetched(None, WithMarker(cfg.dir, c1, id))
      else if IsRequestException(meta) then GiveUpOrRetry(cfg, id, c1, retries, attempt)
      else if !HasPosterPath(meta) then Fetched(None, WithMarker(cfg.dir, c1, id))
      else
        var image := cfg.remote(c1.requests);
        var c2 := Sent(c1, false);
        if image.NotFound? then Fetched(None, WithMarker(cfg.dir, c2, id))
        else if IsRequestException(image) then GiveUpOrRetry(cfg, id, c2, retries, attempt)
        else Fetched(Some(PosterPath(cfg.dir, id)), c2.(files := c2.files + {PosterPath(cfg.dir, id)}))
  }

  /** The `except RequestException` branch: sleep and go on, or give up on the last attempt. */
  function GiveUpOrRetry(cfg: Config, id: int, c: Cache, retries: int, attempt: nat): Fetched
    requires attempt < retries
    decreases retries - attempt, 0
  {
    if attempt < retries - 1 then Attempts(cfg, id, c, retries, attempt + 1)
    else Fetched(None, c)
  }

  /** The whole of `fetch_poster(id, retries=retries)` on cache `c`. */
  function FetchSpec(cfg: Config, c: Cache, id: int, retries: int): Fetched
  {
    if cfg.apiKey == "" then Fetched(None, c)
    else if !IsValidMovieId(id) then Fetched(None, WithMarker(cfg.dir, c, id))
    else if PosterPath(cfg.dir, id) in c.files then Fetched(Some(PosterPath(cfg.dir, id)), c)
    else if FailMarkerPath(cfg.dir, id) in c.files then Fetched(None, c)
    else Attempts(cfg, id, c, retries, 0)
  }

  /** The cache directory together with the remote it consults. */
  class PosterStore {
    const dir: string
    const apiKey: string
    const remote: nat -> Reply
    var files: set<string>
    var requests: nat
    var metadataRequests: nat

    function Snapshot(): Cache
      reads this
    {
      Cache(files, requests, metadataRequests)
    }

    function Settings(): Config
    {
      Config(dir, apiKey, remote)
    }

    constructor (dir: string, apiKey: string, remote: nat -> Reply, files: set<string>)
      ensures this.dir == dir && this.apiKey == apiKey && this.remote == remote
      ensures Snapshot() == Cache(files, 0, 0)
    {
      this.dir := dir;
      this.apiKey := apiKey;
      this.remote := remote;
      this.files := files;
      this.requests := 0;
      this.metadataRequests := 0;
    }

    /** `_has_fail_marker`: whether the marker file of `id` exists. */
    function HasFailMarker(id: int): (marked: bool)
      reads this
      ensures marked ==> EntryOf(dir, files, id) != Unknown
      ensures PosterPath(dir, id) !in files ==> (marked <==> EntryOf(dir, files, id) == Failed)
    {
      FailMarkerPath(dir, id) in files
    }

    /** `_write_fail_marker`: creates the (empty) marker file of `id`, keeping it if present. */
    method WriteFailMarker(id: int)
      modifies this
      ensures Snapshot() == WithMarker(dir, old(Snapshot()), id)
    {
      files := files + {FailMarkerPath(dir, id)};
    }

    /** One `requests.get`: the reply is the remote's answer to the next request. */
    method Get(metadata: bool) returns (reply: Reply)
      modifies this
      ensures reply == remote(old(requests))
      ensures Snapshot() == Sent(old(Snapshot()), metadata)
    {
      reply := remote(requests);
      requests := requests + 1;
      if metadata {
        metadataRequests := metadataRequests + 1;
      }
    }

    /** `fetch_poster(id, retries=retries)`: the cached poster path, or None. */
    method FetchPoster(id: int, retries: int) returns (poster: Option<string>)
      modifies this
      ensures Fetched(poster, Snapshot()) == FetchSpec(Settings(), old(Snapshot()), id, retries)
    {
      if apiKey == "" {
        return None;
      }
      if !IsValidMovieId(id) {
        WriteFailMarker(id);
        return None;
      }
      var cachePath := PosterPath(dir, id);
      if cachePath in files {
        return Some(cachePath);
      }
      if HasFailMarker(id) {
        return None;
      }
      var attempt: nat := 0;
      while attempt < retries
        invariant Attempts(Settings(), id, Snapshot(), retries, attempt)
               == FetchSpec(Settings(), old(Snapshot()), id, retries)
        decreases retries - attempt
      {
        var meta := Get(true);
        if meta.NotFound? {
          WriteFailMarker(id);
          return None;
        }
        if meta.Ok? {
          if !HasPosterPath(meta) {
            WriteFailMarker(id);
            return None;
          }
          var image := Get(false);
          if image.NotFound? {
            WriteFailMarker(id);
            return None;
          }
          if image.Ok? {
            files := files + {cachePath};
            return Some(cachePath);
          }
        }
        // A RequestException: retry after a pause unless this was the last attempt.
        if attempt < retries - 1 {
          // time.sleep(1) has no effect on the model
        } else {
          return None;
        }
        attempt := attempt + 1;
      }
      return None;
    }
  }
}
