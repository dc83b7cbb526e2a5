/** The dashboard's aggregation of the session history: per-label counts,
    the average confidence, the dominant label, the first-five against
    last-five mood trend, the last three results, the distribution rows
    and the colour lookup. */
module Dashboard {
  import opened EmotionTypes
  import opened SeqUtil

  // ---------------------------------------------------------------------
  // Counts

  /** Number of history items carrying label `e`. */
  function Count(h: seq<EmotionData>, e: Emotion): (n: nat)
    ensures n <= |h|
  {
    if |h| == 0 then 0
    else Count(h[..|h| - 1], e) + (if h[|h| - 1].emotion == e then 1 else 0)
  }

  /** Starts from the ten zero entries and increments the entry of each
      item's label in one pass over the history. */
  method CountEmotions(history: seq<EmotionData>) returns (counts: map<Emotion, nat>)
    ensures forall e :: e in counts && counts[e] == Count(history, e)
  {
    AllEmotionsClosed();
    counts := map e | e in AllEmotions :: 0;
    assert history[..0] == [];
    for i := 0 to |history|
      invariant forall e :: e in counts && counts[e] == Count(history[..i], e)
    {
      assert history[..i + 1][..i] == history[..i];
      counts := counts[history[i].emotion := counts[history[i].emotion] + 1];
    }
    assert history[..|history|] == history;
  }

  /** The counts of the labels listed in `es`, added up. */
  function CountSum(h: seq<EmotionData>, es: seq<Emotion>): nat
  {
    if |es| == 0 then 0 else CountSum(h, es[..|es| - 1]) + Count(h, es[|es| - 1])
  }

  lemma {:induction false} CountSumSnoc(h: seq<EmotionData>, d: EmotionData, es: seq<Emotion>)
    ensures CountSum(h + [d], es) == CountSum(h, es) + Occurrences(es, d.emotion)
  {
    assert (h + [d])[..|h|] == h;
    if |es| > 0 {
      CountSumSnoc(h, d, es[..|es| - 1]);
    }
  }

  /** In a list without repetitions a value occurs once if it is listed
      and not at all otherwise. */
  lemma {:induction false} OccurrencesOfDistinct<T>(s: seq<T>, x: T)
    requires forall i, j :: 0 <= i < j < |s| ==> s[i] != s[j]
    ensures Occurrences(s, x) == if x in s then 1 else 0
  {
    if |s| > 0 {
      var p := s[..|s| - 1];
      OccurrencesOfDistinct(p, x);
      assert s == p + [s[|s| - 1]];
    }
  }

  lemma EachLabelListedOnce(e: Emotion)
    ensures Occurrences(AllEmotions, e) == 1
  {
    AllEmotionsClosed();
    OccurrencesOfDistinct(AllEmotions, e);
  }

  /** The ten counts add up to the number of recordings. */
  lemma {:induction false} CountsSumToLength(h: seq<EmotionData>)
    ensures CountSum(h, AllEmotions) == |h|
  {
    if |h| == 0 {
      ZeroCountSum(h, AllEmotions);
    } else {
      var p := h[..|h| - 1];
      CountsSumToLength(p);
      CountSumSnoc(p, h[|h| - 1], AllEmotions);
      EachLabelListedOnce(h[|h| - 1].emotion);
      assert p + [h[|h| - 1]] == h;
    }
  }

  lemma {:induction false} ZeroCountSum(h: seq<EmotionData>, es: seq<Emotion>)
    requires |h| == 0
    ensures CountSum(h, es) == 0
  {
    if |es| > 0 {
      ZeroCountSum(h, es[..|es| - 1]);
    }
  }

  // ---------------------------------------------------------------------
  // Average confidence

  /** The confidences added up from the left. */
  function TotalConfidence(h: seq<EmotionData>): real
  {
    if |h| == 0 then 0.0 else TotalConfidence(h[..|h| - 1]) + h[|h| - 1].confidence
  }

  /** Mean confidence of a non-empty list of results: the number that,
      taken once per result, gives the total. */
  function AverageConfidence(h: seq<EmotionData>): (a: real)
    requires |h| > 0
    ensures a * (|h| as real) == TotalConfidence(h)
  {
    TotalConfidence(h) / (|h| as real)
  }

  /** Every confidence lies in [lo, hi]. */
  predicate ConfidencesWithin(h: seq<EmotionData>, lo: real, hi: real)
  {
    forall i :: 0 <= i < |h| ==> lo <= h[i].confidence <= hi
  }

  lemma {:induction false} TotalWithin(h: seq<EmotionData>, lo: real, hi: real)
    requires ConfidencesWithin(h, lo, hi)
    ensures (|h| as real) * lo <= TotalConfidence(h) <= (|h| as real) * hi
  {
    if |h| > 0 {
      var p := h[..|h| - 1];
      assert ConfidencesWithin(p, lo, hi);
      TotalWithin(p, lo, hi);
      var n := |p| as real;
      assert (n + 1.0) * lo == n * lo + lo;
      assert (n + 1.0) * hi == n * hi + hi;
    }
  }

  lemma QuotientWithin(t: real, n: real, lo: real, hi: real)
    requires n > 0.0 && n * lo <= t <= n * hi
    ensures lo <= t / n <= hi
  {
    assert t / n * n == t;
  }

  /** The average lies within any bounds that hold for every confidence. */
  lemma AverageWithin(h: seq<EmotionData>, lo: real, hi: real)
    requires |h| > 0 && ConfidencesWithin(h, lo, hi)
    ensures lo <= AverageConfidence(h) <= hi
  {
    TotalWithin(h, lo, hi);
    QuotientWithin(TotalConfidence(h), |h| as real, lo, hi);
  }

  /** Position of a smallest confidence. */
  function ArgMinConfidence(h: seq<EmotionData>): (i: nat)
    requires |h| > 0
    ensures i < |h| && forall j :: 0 <= j < |h| ==> h[i].confidence <= h[j].confidence
  {
    if |h| == 1 then 0
    else
      var k := ArgMinConfidence(h[..|h| - 1]);
      if h[|h| - 1].confidence < h[k].confidence then |h| - 1 else k
  }

  /** Position of a largest confidence. */
  function ArgMaxConfidence(h: seq<EmotionData>): (i: nat)
    requires |h| > 0
    ensures i < |h| && forall j :: 0 <= j < |h| ==> h[j].confidence <= h[i].confidence
  {
    if |h| == 1 then 0
    else
      var k := ArgMaxConfidence(h[..|h| - 1]);
      if h[|h| - 1].confidence > h[k].confidence then |h| - 1 else k
  }

  /** The average confidence lies between the smallest and the largest
      confidence in the history. */
  lemma AverageBetweenExtremes(h: seq<EmotionData>)
    requires |h| > 0
    ensures h[ArgMinConfidence(h)].confidence <= AverageConfidence(h) <= h[ArgMaxConfidence(h)].confidence
  {
    AverageWithin(h, h[ArgMinConfidence(h)].confidence, h[ArgMaxConfidence(h)].confidence);
  }

  // ---------------------------------------------------------------------
  // Dominant label

  /** Position the pairwise reduce over `keys` ends on: the running winner
      is kept only when its count is strictly larger, so among the largest
      counts the last key wins. */
  function DominantIndex(counts: map<Emotion, nat>, keys: seq<Emotion>): (p: nat)
    requires |keys| > 0 && forall k :: k in keys ==> k in counts
    ensures p < |keys|
    ensures forall j :: 0 <= j < |keys| ==> counts[keys[j]] <= counts[keys[p]]
    ensures forall j :: p < j < |keys| ==> counts[keys[j]] < counts[keys[p]]
  {
    if |keys| == 1 then 0
    else
      var a := DominantIndex(counts, keys[..|keys| - 1]);
      if counts[keys[a]] > counts[keys[|keys| - 1]] then a else |keys| - 1
  }

  /** The dominant label of a count record keyed by every label, reduced in
      declaration order: no label has a larger count, and every label
      declared after it has a strictly smaller one. */
  function Dominant(counts: map<Emotion, nat>): (d: Emotion)
    requires forall e :: e in counts
    ensures forall e :: counts[e] <= counts[d]
    ensures forall e :: Index(e) > Index(d) ==> counts[e] < counts[d]
  {
    var p := DominantIndex(counts, AllEmotions);
    AllEmotionsClosed();
    assert Index(AllEmotions[p]) == p by {
      var i := Index(AllEmotions[p]);
      assert AllEmotions[i] == AllEmotions[p];
    }
    assert forall e :: counts[e] <= counts[AllEmotions[p]] by {
      forall e ensures counts[e] <= counts[AllEmotions[p]] {
        assert counts[AllEmotions[Index(e)]] <= counts[AllEmotions[p]];
      }
    }
    AllEmotions[p]
  }

  /** The tie-break in action: two happy and two sad results give sad. */
  lemma TieGoesToLaterLabel(d1: EmotionData, d2: EmotionData, d3: EmotionData, d4: EmotionData)
    requires d1.emotion == Happy && d2.emotion == Sad && d3.emotion == Happy && d4.emotion == Sad
    ensures Dominant(CountsOf([d1, d2, d3, d4])) == Sad
  {
    var h := [d1, d2, d3, d4];
    assert [] + [d1] == [d1] && [d1] + [d2] == [d1, d2];
    assert [d1, d2] + [d3] == [d1, d2, d3] && [d1, d2, d3] + [d4] == h;
    forall e
      ensures Count(h, e) == if e == Happy || e == Sad then 2 else 0
    {
      CountSnoc([], d1, e);
      CountSnoc([d1], d2, e);
      CountSnoc([d1, d2], d3, e);
      CountSnoc([d1, d2, d3], d4, e);
    }
    var c := CountsOf(h);
    assert c[Sad] <= c[Dominant(c)];
  }

  /** The count record of a history, every label present. */
  function CountsOf(h: seq<EmotionData>): (c: map<Emotion, nat>)
    ensures forall e :: e in c && c[e] == Count(h, e)
  {
    AllEmotionsClosed();
    map e: Emotion | e in AllEmotions :: Count(h, e)
  }

  lemma CountSnoc(h: seq<EmotionData>, d: EmotionData, e: Emotion)
    ensures Count(h + [d], e) == Count(h, e) + (if d.emotion == e then 1 else 0)
  {
    assert (h + [d])[..|h|] == h;
  }

  // ---------------------------------------------------------------------
  // Mood trend

  /** The first five results (all of them when there are fewer). */
  function Early(h: seq<EmotionData>): (r: seq<EmotionData>)
  {
    if |h| <= 5 then h else h[..5]
  }

  /** Compares the average of the last five results with that of the first
      five, with a dead band of 0.1 either way: improving exactly when the
      recent average is more than 0.1 above the early one, declining exactly
      when it is more than 0.1 below, stable otherwise. */
  function MoodTrendOf(h: seq<EmotionData>): (t: MoodTrend)
    requires |h| > 0
    ensures var d := AverageConfidence(LastN(h, 5)) - AverageConfidence(Early(h));
            && (t == Improving <==> d > 0.1)
            && (t == Declining <==> d < -0.1)
            && (t == Stable <==> -0.1 <= d <= 0.1)
  {
    var recentAvg := AverageConfidence(LastN(h, 5));
    var earlyAvg := AverageConfidence(Early(h));
    if recentAvg > earlyAvg + 0.1 then Improving
    else if recentAvg < earlyAvg - 0.1 then Declining
    else Stable
  }

  /** With at most five results both windows are the whole history, so the
      mood is stable. */
  lemma ShortHistoryIsStable(h: seq<EmotionData>)
    requires 0 < |h| <= 5
    ensures MoodTrendOf(h) == Stable
  {
    assert LastN(h, 5) == Early(h);
  }

  /** If every confidence lies within a band no wider than 0.1 the mood is
      stable, however long the history. */
  lemma NarrowBandIsStable(h: seq<EmotionData>, lo: real)
    requires |h| > 0 && ConfidencesWithin(h, lo, lo + 0.1)
    ensures MoodTrendOf(h) == Stable
  {
    var recent := LastN(h, 5);
    LastNSuffix(h, 5);
    assert forall i :: 0 <= i < |recent| ==> recent[i] == h[|h| - |recent| + i];
    assert ConfidencesWithin(recent, lo, lo + 0.1);
    assert ConfidencesWithin(Early(h), lo, lo + 0.1);
    AverageWithin(recent, lo, lo + 0.1);
    AverageWithin(Early(h), lo, lo + 0.1);
  }

  // ---------------------------------------------------------------------
  // Statistics

  /** What the dashboard shows for a non-empty history: the summary
      record plus the number of recordings and the last three results. */
  datatype Stats = Stats(
    totalRecordings: nat,
    summary: EmotionSummary,
    recentEmotions: seq<EmotionData>)

  /** `emotionStats`: nothing for an empty history; otherwise the length,
      the counts, the dominant label, the average confidence, the trend and
      the last three results. */
  method ComputeEmotionStats(history: seq<EmotionData>) returns (stats: Option<Stats>)
    ensures stats.None? <==> |history| == 0
    ensures stats.Some? ==>
              && stats.value.summary.Valid()
              && stats.value.totalRecordings == |history|
              && (forall e :: e in stats.value.summary.emotionCounts &&
                               stats.value.summary.emotionCounts[e] == Count(history, e))
              && stats.value.summary.dominantEmotion == Dominant(CountsOf(history))
              && stats.value.summary.averageConfidence == AverageConfidence(history)
              && stats.value.summary.moodTrend == MoodTrendOf(history)
              && stats.value.recentEmotions == LastN(history, 3)
  {
    if |history| == 0 {
      return None;
    }
    var emotionCounts := CountEmotions(history);
    assert emotionCounts == CountsOf(history);
    var averageConfidence := TotalConfidence(history) / (|history| as real);
    var summary := EmotionSummary(Dominant(emotionCounts), averageConfidence,
                                  emotionCounts, MoodTrendOf(history));
    stats := Some(Stats(|history|, summary, LastN(history, 3)));
  }

  /** The last three results are the tail of the history in order. */
  lemma RecentAreTail(h: seq<EmotionData>)
    ensures |LastN(h, 3)| == (if |h| < 3 then |h| else 3)
    ensures forall i :: 0 <= i < |LastN(h, 3)| ==> LastN(h, 3)[i] == h[|h| - |LastN(h, 3)| + i]
  {
    if |h| > 3 {
      assert LastN(h, 3) == h[|h| - 3..];
    }
  }

  // ---------------------------------------------------------------------
  // Distribution rows

  /** One row of the distribution list. */
  datatype Row = Row(emotion: Emotion, count: nat)

  /** Share of the recordings, in percent. */
  function Percentage(count: nat, total: nat): real
    requires total > 0
  {
    (count as real / total as real) * 100.0
  }

  /** Rows for the keys in `keys` whose count is positive, in key order. */
  function PositiveRows(counts: map<Emotion, nat>, keys: seq<Emotion>): (rows: seq<Row>)
    requires forall k :: k in keys ==> k in counts
    ensures forall i :: 0 <= i < |rows| ==> rows[i].count > 0 && rows[i].emotion in keys
                                             && rows[i].count == counts[rows[i].emotion]
  {
    if |keys| == 0 then []
    else
      var k := keys[|keys| - 1];
      PositiveRows(counts, keys[..|keys| - 1]) + (if counts[k] > 0 then [Row(k, counts[k])] else [])
  }

  /** Rows in non-increasing order of count. */
  predicate SortedByCount(rows: seq<Row>)
  {
    forall i, j :: 0 <= i < j < |rows| ==> rows[i].count >= rows[j].count
  }

  /** Places `r` after every leading row whose count is at least its own,
      which is where a stable sort puts it (see `InsertKeepsTies`). */
  function Insert(r: Row, rows: seq<Row>): seq<Row>
  {
    if |rows| == 0 then [r]
    else if rows[0].count >= r.count then [rows[0]] + Insert(r, rows[1..])
    else [r] + rows
  }

  /** Inserting adds exactly `r` to the contents. */
  lemma {:induction false} InsertPermutes(r: Row, rows: seq<Row>)
    ensures multiset(Insert(r, rows)) == multiset(rows) + multiset{r}
  {
    if |rows| > 0 && rows[0].count >= r.count {
      InsertPermutes(r, rows[1..]);
      assert rows == [rows[0]] + rows[1..];
    }
  }

  /** Inserting into a sorted list keeps it sorted. */
  lemma {:induction false} InsertSorted(r: Row, rows: seq<Row>)
    requires SortedByCount(rows)
    ensures SortedByCount(Insert(r, rows))
  {
    if |rows| > 0 && rows[0].count >= r.count {
      var tail := Insert(r, rows[1..]);
      InsertSorted(r, rows[1..]);
      InsertPermutes(r, rows[1..]);
      forall j | 0 <= j < |tail|
        ensures tail[j].count <= rows[0].count
      {
        assert tail[j] in multiset(tail);
        if tail[j] != r {
          assert tail[j] in rows[1..];
        }
      }
    }
  }

  /** Sort by descending count, stable (see `SortKeepsKeyOrder`). */
  function SortByCount(rows: seq<Row>): (out: seq<Row>)
    ensures SortedByCount(out)
    ensures multiset(out) == multiset(rows)
  {
    if |rows| == 0 then []
    else
      var init := rows[..|rows| - 1];
      assert rows == init + [rows[|rows| - 1]];
      InsertSorted(rows[|rows| - 1], SortByCount(init));
      InsertPermutes(rows[|rows| - 1], SortByCount(init));
      Insert(rows[|rows| - 1], SortByCount(init))
  }

  /** Rows of equal count appear in declaration order of their labels. */
  predicate TiesInKeyOrder(rows: seq<Row>)
  {
    forall i, j :: 0 <= i < j < |rows| && rows[i].count == rows[j].count ==>
      Index(rows[i].emotion) < Index(rows[j].emotion)
  }

  /** Rows whose labels are in strictly increasing declaration order. */
  predicate InKeyOrder(rows: seq<Row>)
  {
    forall i, j :: 0 <= i < j < |rows| ==> Index(rows[i].emotion) < Index(rows[j].emotion)
  }

  /** Every row of the result is `r` or a row that was there before. */
  lemma InsertMembers(r: Row, rows: seq<Row>)
    ensures forall x :: x in Insert(r, rows) ==> x == r || x in rows
  {
    InsertPermutes(r, rows);
    forall x | x in Insert(r, rows)
      ensures x == r || x in rows
    {
      assert x in multiset(Insert(r, rows));
    }
  }

  /** A row placed in front keeps ties in declaration order when it comes
      before every row of the same count. */
  lemma PrependKeepsTies(x: Row, rows: seq<Row>)
    requires TiesInKeyOrder(rows)
    requires forall y :: y in rows && y.count == x.count ==> Index(x.emotion) < Index(y.emotion)
    ensures TiesInKeyOrder([x] + rows)
  {
    var out := [x] + rows;
    forall i, j | 0 <= i < j < |out| && out[i].count == out[j].count
      ensures Index(out[i].emotion) < Index(out[j].emotion)
    {
      assert out[j] == rows[j - 1] && rows[j - 1] in rows;
      if i > 0 {
        assert out[i] == rows[i - 1];
      }
    }
  }

  /** Inserting a row whose label comes after every label already present
      puts it behind every row of the same count. */
  lemma {:induction false} InsertKeepsTies(r: Row, rows: seq<Row>)
    requires SortedByCount(rows) && TiesInKeyOrder(rows)
    requires forall x :: x in rows ==> Index(x.emotion) < Index(r.emotion)
    ensures TiesInKeyOrder(Insert(r, rows))
  {
    if |rows| > 0 {
      var rest := rows[1..];
      if rows[0].count >= r.count {
        InsertKeepsTies(r, rest);
        InsertMembers(r, rest);
        forall y | y in Insert(r, rest) && y.count == rows[0].count
          ensures Index(rows[0].emotion) < Index(y.emotion)
        {
          if y != r {
            var k :| 0 <= k < |rest| && rest[k] == y;
            assert rows[k + 1] == y;
          }
        }
        PrependKeepsTies(rows[0], Insert(r, rest));
      } else {
        forall y | y in rows
          ensures y.count < r.count
        {
          var k :| 0 <= k < |rows| && rows[k] == y;
          assert rows[0].count >= rows[k].count;
        }
        PrependKeepsTies(r, rows);
      }
    }
  }

  /** Sorting rows given in declaration order leaves the rows of equal count
      in that order. */
  lemma {:induction false} SortKeepsKeyOrder(rows: seq<Row>)
    requires InKeyOrder(rows)
    ensures TiesInKeyOrder(SortByCount(rows))
  {
    if |rows| > 0 {
      var init := rows[..|rows| - 1];
      var last := rows[|rows| - 1];
      SortKeepsKeyOrder(init);
      forall x | x in SortByCount(init)
        ensures Index(x.emotion) < Index(last.emotion)
      {
        assert x in multiset(SortByCount(init));
        assert x in init;
      }
      InsertKeepsTies(last, SortByCount(init));
    }
  }

  /** Keys in declaration order give rows in declaration order. */
  lemma {:induction false} PositiveRowsInKeyOrder(counts: map<Emotion, nat>, keys: seq<Emotion>)
    requires forall k :: k in keys ==> k in counts
    requires forall i, j :: 0 <= i < j < |keys| ==> Index(keys[i]) < Index(keys[j])
    ensures InKeyOrder(PositiveRows(counts, keys))
  {
    if |keys| > 0 {
      var init := keys[..|keys| - 1];
      var k := keys[|keys| - 1];
      PositiveRowsInKeyOrder(counts, init);
      forall x | x in init
        ensures Index(x) < Index(k)
      {
        var m :| 0 <= m < |init| && init[m] == x;
        assert keys[m] == x;
      }
    }
  }

  /** The distribution list: positive counts in key order, sorted by count.
      It is sorted by count, ties in declaration order; it holds only
      labels with a positive count, each with that count, and every such
      label. */
  function DistributionRows(counts: map<Emotion, nat>): (rows: seq<Row>)
    requires forall e :: e in counts
    ensures SortedByCount(rows) && TiesInKeyOrder(rows)
    ensures forall i :: 0 <= i < |rows| ==> 0 < rows[i].count == counts[rows[i].emotion]
    ensures forall e :: counts[e] > 0 ==> Row(e, counts[e]) in rows
  {
    var positive := PositiveRows(counts, AllEmotions);
    DeclarationOrder();
    PositiveRowsInKeyOrder(counts, AllEmotions);
    SortKeepsKeyOrder(positive);
    SortedRowsExact(counts, positive);
    SortByCount(positive)
  }

  /** Labels listed in `AllEmotions` are in declaration order. */
  lemma DeclarationOrder()
    ensures forall i, j :: 0 <= i < j < |AllEmotions| ==> Index(AllEmotions[i]) < Index(AllEmotions[j])
  {
    forall i, j | 0 <= i < j < |AllEmotions|
      ensures Index(AllEmotions[i]) < Index(AllEmotions[j])
    {
      AllEmotionsClosed();
      assert AllEmotions[Index(AllEmotions[i])] == AllEmotions[i];
      assert AllEmotions[Index(AllEmotions[j])] == AllEmotions[j];
    }
  }

  /** The sorted positive rows carry each positive count, and only those. */
  lemma SortedRowsExact(counts: map<Emotion, nat>, positive: seq<Row>)
    requires forall e :: e in counts
    requires positive == PositiveRows(counts, AllEmotions)
    ensures var rows := SortByCount(positive);
            && (forall i :: 0 <= i < |rows| ==> 0 < rows[i].count == counts[rows[i].emotion])
            && (forall e :: counts[e] > 0 ==> Row(e, counts[e]) in rows)
  {
    var rows := SortByCount(positive);
    forall i | 0 <= i < |rows|
      ensures 0 < rows[i].count == counts[rows[i].emotion]
    {
      assert rows[i] in multiset(positive);
    }
    forall e | counts[e] > 0
      ensures Row(e, counts[e]) in rows
    {
      AllEmotionsClosed();
      PositiveRowsComplete(counts, AllEmotions, e);
      assert Row(e, counts[e]) in multiset(rows);
    }
  }

  /** Sum of the counts of some rows. */
  function RowTotal(rows: seq<Row>): nat
  {
    if |rows| == 0 then 0 else RowTotal(rows[..|rows| - 1]) + rows[|rows| - 1].count
  }

  /** Sum of the percentages of some rows. */
  function PercentageTotal(rows: seq<Row>, total: nat): real
    requires total > 0
  {
    if |rows| == 0 then 0.0
    else PercentageTotal(rows[..|rows| - 1], total) + Percentage(rows[|rows| - 1].count, total)
  }

  lemma {:induction false} PercentageTotalIsShare(rows: seq<Row>, total: nat)
    requires total > 0
    ensures PercentageTotal(rows, total) == Percentage(RowTotal(rows), total)
  {
    if |rows| > 0 {
      var p := rows[..|rows| - 1];
      PercentageTotalIsShare(p, total);
      ShareAdds(RowTotal(p), rows[|rows| - 1].count, total);
    }
  }

  lemma ShareAdds(a: nat, b: nat, total: nat)
    requires total > 0
    ensures Percentage(a, total) + Percentage(b, total) == Percentage(a + b, total)
  {
    var t := total as real;
    assert a as real / t + b as real / t == (a + b) as real / t;
  }

  lemma {:induction false} RowTotalAppend(a: seq<Row>, b: seq<Row>)
    ensures RowTotal(a + b) == RowTotal(a) + RowTotal(b)
    decreases |b|
  {
    if |b| > 0 {
      RowTotalAppend(a, b[..|b| - 1]);
      assert (a + b)[..|a + b| - 1] == a + b[..|b| - 1];
    } else {
      assert a + b == a;
    }
  }

  lemma RowTotalSingle(x: Row)
    ensures RowTotal([x]) == x.count
  {
    assert [x][..0] == [];
  }

  lemma {:induction false} InsertTotal(r: Row, rows: seq<Row>)
    ensures RowTotal(Insert(r, rows)) == RowTotal(rows) + r.count
  {
    if |rows| == 0 {
      RowTotalSingle(r);
    } else if rows[0].count >= r.count {
      InsertTotal(r, rows[1..]);
      RowTotalSingle(rows[0]);
      RowTotalAppend([rows[0]], Insert(r, rows[1..]));
      RowTotalAppend([rows[0]], rows[1..]);
      assert rows == [rows[0]] + rows[1..];
    } else {
      RowTotalSingle(r);
      RowTotalAppend([r], rows);
    }
  }

  /** Sorting keeps the total count. */
  lemma {:induction false} SortTotal(rows: seq<Row>)
    ensures RowTotal(SortByCount(rows)) == RowTotal(rows)
  {
    if |rows| > 0 {
      var init := rows[..|rows| - 1];
      SortTotal(init);
      InsertTotal(rows[|rows| - 1], SortByCount(init));
    }
  }

  lemma {:induction false} PositiveRowsTotal(counts: map<Emotion, nat>, h: seq<EmotionData>, keys: seq<Emotion>)
    requires forall e :: e in counts && counts[e] == Count(h, e)
    ensures RowTotal(PositiveRows(counts, keys)) == CountSum(h, keys)
  {
    if |keys| > 0 {
      var k := keys[|keys| - 1];
      var p := PositiveRows(counts, keys[..|keys| - 1]);
      PositiveRowsTotal(counts, h, keys[..|keys| - 1]);
      RowTotalAppend(p, if counts[k] > 0 then [Row(k, counts[k])] else []);
      assert RowTotal([Row(k, counts[k])]) == counts[k] by {
        assert [Row(k, counts[k])][..0] == [];
      }
    }
  }

  /** The percentages of the distribution list add up to 100. */
  lemma DistributionPercentagesSum(h: seq<EmotionData>)
    requires |h| > 0
    ensures PercentageTotal(DistributionRows(CountsOf(h)), |h|) == 100.0
  {
    var counts := CountsOf(h);
    var positive := PositiveRows(counts, AllEmotions);
    var rows := SortByCount(positive);
    PositiveRowsTotal(counts, h, AllEmotions);
    CountsSumToLength(h);
    SortTotal(positive);
    assert RowTotal(rows) == |h|;
    PercentageTotalIsShare(rows, |h|);
    WholeShare(|h|);
  }

  lemma WholeShare(n: nat)
    requires n > 0
    ensures Percentage(n, n) == 100.0
  {
  }

  lemma {:induction false} PositiveRowsComplete(counts: map<Emotion, nat>, keys: seq<Emotion>, e: Emotion)
    requires forall k :: k in keys ==> k in counts
    requires e in keys && counts[e] > 0
    ensures Row(e, counts[e]) in PositiveRows(counts, keys)
  {
    var k := keys[|keys| - 1];
    if k != e {
      assert keys == keys[..|keys| - 1] + [k];
      PositiveRowsComplete(counts, keys[..|keys| - 1], e);
    }
  }

  // ---------------------------------------------------------------------
  // Colours

  /** The dot colour of a label. */
  function ColorOf(e: Emotion): string
  {
    match e
    case Happy => "bg-emotion-happy"
    case Sad => "bg-emotion-sad"
    case Angry => "bg-emotion-angry"
    case Calm => "bg-emotion-calm"
    case Excited => "bg-emotion-excited"
    case Anxious => "bg-emotion-anxious"
    case Neutral => "bg-emotion-neutral"
    case Surprised => "bg-purple-500"
    case Disgusted => "bg-green-600"
    case Fearful => "bg-red-700"
  }

  const FallbackColor := "bg-gray-500"

  /** `getEmotionColor`: the table's entry for a label's literal; for a name
      every object inherits, that inherited member, which is truthy and not
      a colour (`None`); gray for any other key. */
  function EmotionColor(key: string): (c: Option<string>)
    ensures forall e :: key == Name(e) ==> c == Some(ColorOf(e))
    ensures key in InheritedKeys ==> c == None
    ensures (forall e :: key != Name(e)) && key !in InheritedKeys ==> c == Some(FallbackColor)
  {
    if key in InheritedKeys then
      assert forall e :: key != Name(e) by {
        forall e ensures key != Name(e) { NamesNotInherited(e); }
      }
      None
    else
      match Parse(key)
      case Some(e) =>
        assert forall e' :: key == Name(e') ==> e' == e by {
          forall e' | key == Name(e') { ParseName(e'); }
        }
        Some(ColorOf(e))
      case None =>
        assert forall e' :: key != Name(e') by {
          forall e' { ParseName(e'); }
        }
        Some(FallbackColor)
  }

  /** Each label has its own colour and none of them is the fallback. */
  lemma ColorsDistinct(a: Emotion, b: Emotion)
    ensures ColorOf(a) != FallbackColor
    ensures a != b ==> ColorOf(a) != ColorOf(b)
  {
  }
}
