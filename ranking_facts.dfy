/** What `recommend` promises about its ranking, proved of Candidates. */
module RankingFacts {
  import opened Wrappers
  import opened Numbers
  import opened Ranking

  lemma {:induction false} InsertPermutes(x: Scored, t: seq<Scored>)
    ensures multiset(Insert(x, t)) == multiset(t) + multiset{x}
    ensures |Insert(x, t)| == |t| + 1
  {
    if t != [] && x.score < t[0].score {
      InsertPermutes(x, t[1..]);
      assert t == [t[0]] + t[1..];
    }
  }

  /** The sort rearranges its input and nothing more. */
  lemma {:induction false} SortPermutes(s: seq<Scored>)
    ensures multiset(SortByScore(s)) == multiset(s)
    ensures |SortByScore(s)| == |s|
  {
    if s != [] {
      SortPermutes(s[1..]);
      InsertPermutes(s[0], SortByScore(s[1..]));
      assert s == [s[0]] + s[1..];
    }
  }

  lemma {:induction false} InsertRanked(x: Scored, t: seq<Scored>)
    requires Ranked(t)
    requires forall k :: 0 <= k < |t| ==> x.index < t[k].index
    ensures Ranked(Insert(x, t))
  {
    if t == [] || x.score >= t[0].score {
      var r := [x] + t;
      forall i, j | 0 <= i < j < |r| ensures Before(r[i], r[j]) {
        if i == 0 {
          assert j - 1 == 0 || Before(t[0], t[j - 1]);
        }
      }
    } else {
      var rest := Insert(x, t[1..]);
      InsertRanked(x, t[1..]);
      InsertPermutes(x, t[1..]);
      var r := [t[0]] + rest;
      forall i, j | 0 <= i < j < |r| ensures Before(r[i], r[j]) {
        if i == 0 {
          var e := rest[j - 1];
          assert e in multiset(rest);
          if e != x {
            assert e in t[1..];
            var m :| 0 <= m < |t[1..]| && t[1..][m] == e;
            assert Before(t[0], t[m + 1]);
          }
        }
      }
    }
  }

  /**
   * The sort is stable and descending: on pairs listed in increasing index
   * order, as `enumerate` lists them, every pair ends up before every pair
   * with a lower score, and equal scores keep their increasing indices.
   */
  lemma {:induction false} SortRanks(s: seq<Scored>)
    requires IndicesIncrease(s)
    ensures Ranked(SortByScore(s))
  {
    if s != [] {
      var t := SortByScore(s[1..]);
      SortRanks(s[1..]);
      SortPermutes(s[1..]);
      forall k | 0 <= k < |t| ensures s[0].index < t[k].index {
        assert t[k] in multiset(s[1..]);
        var m :| 0 <= m < |s[1..]| && s[1..][m] == t[k];
        assert s[m + 1] == t[k];
      }
      InsertRanked(s[0], t);
    }
  }

  /**
   * `scored` holds each index of the row exactly once, with its own score,
   * best first and ties in increasing index.
   */
  lemma ScoresRanked(row: seq<int>)
    ensures |Scores(row)| == |row|
    ensures Ranked(Scores(row))
    ensures forall k :: 0 <= k < |row| ==>
      Scores(row)[k].index < |row| && Scores(row)[k].score == row[Scores(row)[k].index]
    ensures forall j :: 0 <= j < |row| ==> Scored(j, row[j]) in Scores(row)
  {
    var e := Enumerate(row);
    SortPermutes(e);
    SortRanks(e);
    var s := Scores(row);
    forall k | 0 <= k < |row| ensures s[k].index < |row| && s[k].score == row[s[k].index] {
      assert s[k] in multiset(e);
      var i :| 0 <= i < |e| && e[i] == s[k];
    }
    forall j | 0 <= j < |row| ensures Scored(j, row[j]) in s {
      assert e[j] in multiset(s);
    }
  }

  /** Python's `s[1 : stop]` for the slices `recommend` takes. */
  lemma SliceFromOne<T>(s: seq<T>, stop: int)
    ensures stop >= 1 ==> PySlice(s, 1, stop) == if |s| == 0 then [] else s[1..Min(stop, |s|)]
    ensures 0 <= stop <= 1 ==> PySlice(s, 1, stop) == []
    ensures stop < 0 ==> PySlice(s, 1, stop) == if |s| + stop <= 1 then [] else s[1..|s| + stop]
  {
  }

  /** For `top_n >= 0` the result has `min(top_n, n - 1)` entries, n the row's length (0 if empty). */
  lemma CandidatesLength(cat: Catalog, sim: seq<seq<int>>, title: string, topN: int)
    requires topN >= 0
    ensures |Candidates(cat, sim, title, topN)| ==
      match QueryRow(cat, sim, title)
      case None => 0
      case Some(row) => Min(topN, Max0(|row| - 1))
  {
    if QueryRow(cat, sim, title).Some? {
      var row := QueryRow(cat, sim, title).value;
      ScoresRanked(row);
      SliceFromOne(Scores(row), topN + 1);
    }
  }

  /**
   * A negative `top_n` follows Python's slicing: -1 gives nothing and
   * `-m` (m >= 2) drops the last `m - 1` pairs besides the first.
   */
  lemma NegativeTopN(cat: Catalog, sim: seq<seq<int>>, title: string, topN: int)
    requires topN < 0 && QueryRow(cat, sim, title).Some?
    ensures var row := QueryRow(cat, sim, title).value;
      |Candidates(cat, sim, title, topN)| == if topN == -1 then 0 else Max0(|row| + topN)
  {
    var row := QueryRow(cat, sim, title).value;
    ScoresRanked(row);
    SliceFromOne(Scores(row), topN + 1);
  }

  /**
   * The candidates are `scored[lo..hi]` for the bounds Python's slice picks:
   * lo is 1 unless the row is empty.
   */
  lemma CandidatesWindow(row: seq<int>, topN: int) returns (hi: nat)
    ensures |Scores(row)| == |row|
    ensures |row| == 0 ==> PySlice(Scores(row), 1, topN + 1) == []
    ensures |row| > 0 ==> 1 <= hi <= |row| && PySlice(Scores(row), 1, topN + 1) == Scores(row)[1..hi]
  {
    ScoresRanked(row);
    var s := Scores(row);
    var lo, h := SliceBound(1, |s|), SliceBound(topN + 1, |s|);
    hi := if lo < h then h else lo;
    if |row| > 0 {
      assert lo == 1;
    }
  }

  /**
   * The candidates come best first: scores never increase, and equal scores
   * appear in increasing row index. Each candidate is an index of the row
   * with its own score, and no index appears twice.
   */
  lemma CandidatesOrdered(cat: Catalog, sim: seq<seq<int>>, title: string, topN: int)
    requires QueryRow(cat, sim, title).Some?
    ensures var row, c := QueryRow(cat, sim, title).value, Candidates(cat, sim, title, topN);
      && (forall i, j :: 0 <= i < j < |c| ==>
            c[i].score >= c[j].score && (c[i].score == c[j].score ==> c[i].index < c[j].index))
      && (forall k :: 0 <= k < |c| ==> c[k].index < |row| && c[k].score == row[c[k].index])
      && (forall i, j :: 0 <= i < j < |c| ==> c[i].index != c[j].index)
  {
    var row := QueryRow(cat, sim, title).value;
    ScoresRanked(row);
    var hi := CandidatesWindow(row, topN);
    var s, c := Scores(row), Candidates(cat, sim, title, topN);
    if |row| > 0 {
      forall i, j | 0 <= i < j < |c| ensures Before(c[i], c[j]) {
        assert c[i] == s[i + 1] && c[j] == s[j + 1];
      }
      forall k | 0 <= k < |c| ensures c[k].index < |row| && c[k].score == row[c[k].index] {
        assert c[k] == s[k + 1];
      }
    }
  }

  /**
   * The top-ranked pair `scored[0]` is never returned, and it holds a largest
   * score of the row.
   */
  lemma TopPairExcluded(cat: Catalog, sim: seq<seq<int>>, title: string, topN: int)
    requires QueryRow(cat, sim, title).Some? && |QueryRow(cat, sim, title).value| > 0
    ensures var row, c := QueryRow(cat, sim, title).value, Candidates(cat, sim, title, topN);
      && (forall j :: 0 <= j < |row| ==> row[j] <= Scores(row)[0].score)
      && (forall k :: 0 <= k < |c| ==> c[k].index != Scores(row)[0].index)
  {
    var row := QueryRow(cat, sim, title).value;
    ScoresRanked(row);
    var hi := CandidatesWindow(row, topN);
    var s, c := Scores(row), Candidates(cat, sim, title, topN);
    forall j | 0 <= j < |row| ensures row[j] <= s[0].score {
      var t :| 0 <= t < |s| && s[t] == Scored(j, row[j]);
      assert t == 0 || Before(s[0], s[t]);
    }
    forall k | 0 <= k < |c| ensures c[k].index != s[0].index {
      assert c[k] == s[k + 1] && Before(s[0], s[k + 1]);
    }
  }

  /**
   * When the query's own score is strictly the largest in its row, the query
   * itself is never recommended.
   */
  lemma SelfExcludedWhenStrictMax(cat: Catalog, sim: seq<seq<int>>, title: string, topN: int)
    requires QueryRow(cat, sim, title).Some?
    requires var q, row := FirstMatch(cat.rows, title).value, QueryRow(cat, sim, title).value;
      q < |row| && forall j :: 0 <= j < |row| && j != q ==> row[j] < row[q]
    ensures var q := FirstMatch(cat.rows, title).value;
      forall k :: 0 <= k < |Candidates(cat, sim, title, topN)| ==> Candidates(cat, sim, title, topN)[k].index != q
  {
    var q, row := FirstMatch(cat.rows, title).value, QueryRow(cat, sim, title).value;
    ScoresRanked(row);
    TopPairExcluded(cat, sim, title, topN);
    var s := Scores(row);
    assert s[0].score == row[s[0].index];
    assert s[0].index == q;
  }

  /**
   * Which index sorts first: index `q` is `scored[0]` exactly when its score
   * is a largest of the row and every earlier index scores strictly less.
   */
  lemma SortsFirstIff(row: seq<int>, q: nat)
    requires q < |row|
    ensures |Scores(row)| == |row|
    ensures Scores(row)[0].index == q
        <==> (forall j :: 0 <= j < |row| ==> row[j] <= row[q]) && (forall j :: 0 <= j < q ==> row[j] < row[q])
  {
    ScoresRanked(row);
    var s := Scores(row);
    var t :| 0 <= t < |s| && s[t] == Scored(q, row[q]);
    assert t == 0 || Before(s[0], s[t]);
    assert s[0].score == row[s[0].index];
    forall j | 0 <= j < |row| && s[0].index == q
      ensures row[j] <= row[q] && (j < q ==> row[j] < row[q])
    {
      var u :| 0 <= u < |s| && s[u] == Scored(j, row[j]);
      assert u == 0 || Before(s[0], s[u]);
    }
  }

  /**
   * The query is left out whenever it sorts first: its score is a largest of
   * its row and every earlier row scores strictly less.
   */
  lemma SelfExcludedWhenFirst(cat: Catalog, sim: seq<seq<int>>, title: string, topN: int)
    requires QueryRow(cat, sim, title).Some?
    requires var q, row := FirstMatch(cat.rows, title).value, QueryRow(cat, sim, title).value;
      && q < |row|
      && (forall j :: 0 <= j < |row| ==> row[j] <= row[q])
      && (forall j :: 0 <= j < q ==> row[j] < row[q])
    ensures var q := FirstMatch(cat.rows, title).value;
      forall k :: 0 <= k < |Candidates(cat, sim, title, topN)| ==> Candidates(cat, sim, title, topN)[k].index != q
  {
    var q, row := FirstMatch(cat.rows, title).value, QueryRow(cat, sim, title).value;
    SortsFirstIff(row, q);
    TopPairExcluded(cat, sim, title, topN);
  }

  /**
   * Otherwise the query is recommended once `top_n` reaches the rest of the
   * row: when it does not sort first and `top_n >= n - 1`, it is a candidate.
   */
  lemma SelfIncludedWhenNotFirst(cat: Catalog, sim: seq<seq<int>>, title: string, topN: int)
    requires QueryRow(cat, sim, title).Some?
    requires var q, row := FirstMatch(cat.rows, title).value, QueryRow(cat, sim, title).value;
      && q < |row|
      && !((forall j :: 0 <= j < |row| ==> row[j] <= row[q]) && (forall j :: 0 <= j < q ==> row[j] < row[q]))
      && topN >= |row| - 1
    ensures var q, c := FirstMatch(cat.rows, title).value, Candidates(cat, sim, title, topN);
      exists k :: 0 <= k < |c| && c[k].index == q
  {
    var q, row := FirstMatch(cat.rows, title).value, QueryRow(cat, sim, title).value;
    SortsFirstIff(row, q);
    ScoresRanked(row);
    var s, c := Scores(row), Candidates(cat, sim, title, topN);
    SliceFromOne(s, topN + 1);
    assert c == s[1..];
    var t :| 0 <= t < |s| && s[t] == Scored(q, row[q]);
    assert c[t - 1].index == q;
  }

  /**
   * No candidate is left behind by a better one: every index of the row that
   * is neither `scored[0]` nor a candidate ranks after every candidate.
   */
  lemma CandidatesAreBest(cat: Catalog, sim: seq<seq<int>>, title: string, topN: int)
    requires QueryRow(cat, sim, title).Some?
    ensures var row, c := QueryRow(cat, sim, title).value, Candidates(cat, sim, title, topN);
      forall j :: 0 <= j < |row| && j != Scores(row)[0].index && Scored(j, row[j]) !in c ==>
        forall k :: 0 <= k < |c| ==> Before(c[k], Scored(j, row[j]))
  {
    var row := QueryRow(cat, sim, title).value;
    ScoresRanked(row);
    var hi := CandidatesWindow(row, topN);
    var s, c := Scores(row), Candidates(cat, sim, title, topN);
    if |row| > 0 {
      assert forall u :: 1 <= u < hi ==> s[u] == c[u - 1];
      forall j, k | 0 <= j < |row| && j != s[0].index && Scored(j, row[j]) !in c && 0 <= k < |c|
        ensures Before(c[k], Scored(j, row[j]))
      {
        var t :| 0 <= t < |s| && s[t] == Scored(j, row[j]);
        assert c[k] == s[k + 1];
      }
    }
  }

  /** Catalog {A, B, C} with A's row scoring itself 10, B 9 and C 1: the two recommendations are B then C. */
  lemma ThreeMovieExample()
    ensures var cat := Catalog(true, [Movie("A", Some(1)), Movie("B", Some(2)), Movie("C", Some(3))]);
      var sim := [[10, 9, 1], [9, 10, 2], [1, 2, 10]];
      Candidates(cat, sim, "A", 2) == [Scored(1, 9), Scored(2, 1)]
  {
    assert Enumerate([10, 9, 1]) == [Scored(0, 10), Scored(1, 9), Scored(2, 1)];
  }

  /**
   * When another movie ties the query's self-similarity and comes first, the
   * skipped pair is that movie and the query itself is recommended.
   */
  lemma TieReturnsQueryItself()
    ensures var cat := Catalog(true, [Movie("X", Some(1)), Movie("Y", Some(2)), Movie("Z", Some(3))]);
      var sim := [[10, 10, 5], [10, 10, 5], [5, 5, 10]];
      Candidates(cat, sim, "Y", 2) == [Scored(1, 10), Scored(2, 5)]
  {
    assert Enumerate([10, 10, 5]) == [Scored(0, 10), Scored(1, 10), Scored(2, 5)];
  }
}
