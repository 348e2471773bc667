/**
 * How the poster cache names its files: a movie id is written in decimal,
 * as Python's f-string `f"{movie_id}"` writes an int, and the cache keeps
 * `<id>.jpg` for a downloaded poster and `<id>.fail` for a permanent failure,
 * both directly inside the cache directory.
 */
module CacheNames {

  /** The character of one decimal digit. */
  function DigitChar(d: nat): (c: char)
    requires d < 10
    ensures '0' <= c <= '9'
    ensures c as int - '0' as int == d
  {
    ('0' as int + d) as char
  }

  /** Decimal digits of a natural number, most significant first, without leading zeros. */
  function Digits(n: nat): (s: string)
    ensures |s| > 0
    ensures forall k :: 0 <= k < |s| ==> '0' <= s[k] <= '9'
    ensures n > 0 ==> s[0] != '0'
    decreases n
  {
    if n < 10 then [DigitChar(n)] else Digits(n / 10) + [DigitChar(n % 10)]
  }

  /** The value of a string of decimal digits (the inverse of Digits). */
  function DigitsValue(s: string): int
  {
    if s == [] then 0 else DigitsValue(s[..|s| - 1]) * 10 + (s[|s| - 1] as int - '0' as int)
  }

  /** Python's `str(i)` for an int: an optional minus sign, then the digits of the magnitude. */
  function IdText(id: int): (s: string)
    ensures |s| > 0
    ensures s[0] == '-' <==> id < 0
  {
    if id < 0 then "-" + Digits(-id) else Digits(id)
  }

  /** Reads back a text written by IdText. */
  function ParseId(s: string): int
  {
    if |s| > 0 && s[0] == '-' then -DigitsValue(s[1..]) else DigitsValue(s)
  }

  lemma {:induction false} DigitsRoundTrip(n: nat)
    ensures DigitsValue(Digits(n)) == n
    decreases n
  {
    if n >= 10 {
      var s := Digits(n);
      assert s[..|s| - 1] == Digits(n / 10);
      DigitsRoundTrip(n / 10);
    }
  }

  /** Parsing the text of an id gives the id back. */
  lemma IdTextRoundTrip(id: int)
    ensures ParseId(IdText(id)) == id
  {
    if id < 0 {
      DigitsRoundTrip(-id);
      assert IdText(id)[1..] == Digits(-id);
    } else {
      DigitsRoundTrip(id);
    }
  }

  /** Two ids have the same text exactly when they are the same id. */
  lemma IdTextInjective(a: int, b: int)
    ensures IdText(a) == IdText(b) <==> a == b
  {
    IdTextRoundTrip(a);
    IdTextRoundTrip(b);
  }

  /**
   * `_is_valid_movie_id` on an int: a positive id. These are exactly the ids
   * whose text is a plain numeral, with no sign and other than "0".
   */
  function IsValidMovieId(id: int): (valid: bool)
    ensures valid <==> (forall k :: 0 <= k < |IdText(id)| ==> '0' <= IdText(id)[k] <= '9') && IdText(id) != "0"
  {
    id > 0
  }

  /** `os.path.join(cache_dir, f"{id}.jpg")`: where the downloaded poster of `id` is kept. */
  function PosterPath(dir: string, id: int): (p: string)
    ensures |p| == |dir| + 1 + |IdText(id)| + 4
    ensures p[..|dir| + 1] == dir + "/"
    ensures p[|dir| + 1..|p| - 4] == IdText(id)
    ensures p[|p| - 4..] == ".jpg"
  {
    var p := dir + "/" + IdText(id) + ".jpg";
    assert p == (dir + "/") + IdText(id) + ".jpg";
    p
  }

  /** `os.path.join(cache_dir, f"{id}.fail")`: the permanent-failure marker of `id`. */
  function FailMarkerPath(dir: string, id: int): (p: string)
    ensures |p| == |dir| + 1 + |IdText(id)| + 5
    ensures p[..|dir| + 1] == dir + "/"
    ensures p[|dir| + 1..|p| - 5] == IdText(id)
    ensures p[|p| - 5..] == ".fail"
  {
    var p := dir + "/" + IdText(id) + ".fail";
    assert p == (dir + "/") + IdText(id) + ".fail";
    p
  }

  /**
   * The file names separate ids and kinds: two ids never share a poster file or a
   * marker, and no poster file is ever a marker file.
   */
  lemma NamesAreDistinct(dir: string, a: int, b: int)
    ensures PosterPath(dir, a) == PosterPath(dir, b) <==> a == b
    ensures FailMarkerPath(dir, a) == FailMarkerPath(dir, b) <==> a == b
    ensures PosterPath(dir, a) != FailMarkerPath(dir, b)
  {
    IdTextInjective(a, b);
    var p, q := PosterPath(dir, a), FailMarkerPath(dir, b);
    assert p[|p| - 1] == p[|p| - 4..][3] == 'g';
    assert q[|q| - 1] == q[|q| - 5..][4] == 'l';
  }
}
