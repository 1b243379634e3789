/**
 * The statistics cards of the dashboard
 * (src/pages/dashboard/components/StatsCards.jsx): success rate, most used
 * content type, the unit of the average time and the performance message,
 * computed from the statistics `getGenerationStats` returns.
 */
module StatsCards {
  import Text
  import R = Rounding
  import CS = ContentService

  /** An average given as a sum and a count: `sum / count`, or 0 when there is nothing to average. */
  datatype Average = Average(sum: int, count: nat)

  /** The average of the statistics the service computes itself: the time sum over the row count. */
  function AverageOf(stats: CS.Stats): Average {
    Average(stats.timeSum, stats.total)
  }

  /** The average is below `bound` (an exact comparison of `sum / count` with `bound`). */
  predicate Below(avg: Average, bound: int) {
    if avg.count == 0 then 0 < bound else avg.sum < bound * avg.count
  }

  // ---------------------------------------------------------- success rate

  /** `getSuccessRate`: 0 without generations, else the completed share in percent, rounded. */
  function SuccessRate(completed: nat, total: nat): int {
    if total == 0 then 0 else R.RoundedPercent(completed, total)
  }

  /**
   * With no more completed than total generations the rate lies in 0..100; it
   * is 100 exactly when at most half a percent failed to complete, and more
   * completions never lower it.
   */
  lemma SuccessRateBounds(completed: nat, total: nat, more: nat)
    requires completed <= more <= total
    ensures 0 <= SuccessRate(completed, total) <= 100
    ensures total > 0 ==> (SuccessRate(completed, total) == 100 <==> 200 * (total - completed) <= total)
    ensures SuccessRate(completed, total) <= SuccessRate(more, total)
  {
    if total > 0 {
      R.PercentBounds(completed, total);
      R.PercentMonotone(completed, more, total);
    }
  }

  /** For the service's own statistics the completed count never exceeds the total, so the rate is a percentage. */
  lemma ComputedSuccessRate(rows: seq<CS.StatRow>)
    ensures 0 <= SuccessRate(CS.StatsOf(rows).completed, CS.StatsOf(rows).total) <= 100
  {
    var s := CS.StatsOf(rows);
    SuccessRateBounds(s.completed, s.total, s.completed);
  }

  // ------------------------------------------------------- most used type

  /**
   * `entries.reduce((a, b) => a[1] > b[1] ? a : b)`, as the index of the entry
   * it keeps: a maximal count, and since only a strictly greater count replaces
   * the kept entry, the last of the entries with that count.
   */
  function MaxIndex(entries: seq<(string, nat)>): (k: nat)
    requires |entries| > 0
    ensures k < |entries|
    ensures forall j | 0 <= j < |entries| :: entries[j].1 <= entries[k].1
    ensures forall j | k < j < |entries| :: entries[j].1 < entries[k].1
    decreases |entries|
  {
    if |entries| == 1 then 0
    else
      var a := MaxIndex(entries[..|entries| - 1]);
      assert forall j | 0 <= j < |entries| - 1 :: entries[..|entries| - 1][j] == entries[j];
      if entries[a].1 > entries[|entries| - 1].1 then a else |entries| - 1
  }

  /** `\w` of a regular expression without the `u` flag. */
  predicate IsWordChar(c: char) {
    ('a' <= c <= 'z') || ('A' <= c <= 'Z') || ('0' <= c <= '9') || c == '_'
  }

  /** `.replace(/\b\w/g, l => l.toUpperCase())`: every word character that starts a word is upper-cased. */
  function CapitalizeWords(s: string): (r: string)
    ensures |r| == |s|
  {
    seq(|s|, i requires 0 <= i < |s| =>
      if IsWordChar(s[i]) && (i == 0 || !IsWordChar(s[i - 1])) then Text.UpperChar(s[i]) else s[i])
  }

  /** The label of a content type: the first `'_'` becomes a space, then words are capitalised. */
  function TypeLabel(key: string): string {
    CapitalizeWords(Text.ReplaceFirst(key, '_', ' '))
  }

  /**
   * The label differs from the key only in the case of letters and in its
   * first underscore.
   */
  lemma TypeLabelKeepsLetters(key: string)
    ensures |TypeLabel(key)| == |key|
    ensures Text.ToLower(TypeLabel(key)) == Text.ToLower(Text.ReplaceFirst(key, '_', ' '))
  {
    var s := Text.ReplaceFirst(key, '_', ' ');
    assert forall i | 0 <= i < |s| :: Text.LowerChar(Text.UpperChar(s[i])) == Text.LowerChar(s[i]);
  }

  /** Only the first underscore becomes a space, and a later one does not start a word: `a_b_c` reads `A B_c`. */
  lemma OnlyFirstUnderscore()
    ensures TypeLabel("a_b_c") == "A B_c"
  {
    var s := Text.ReplaceFirst("a_b_c", '_', ' ');
    assert Text.ReplaceFirst("_b_c", '_', ' ') == " b_c";
    assert s == "a b_c";
    var r := CapitalizeWords(s);
    assert r[0] == 'A' && r[1] == ' ' && r[2] == 'B' && r[3] == '_' && r[4] == 'c';
  }

  /** `getMostUsedContentType`: `None` for an empty breakdown, else the label of the kept entry. */
  function MostUsedContentType(breakdown: seq<(string, nat)>): string {
    if |breakdown| == 0 then "None" else TypeLabel(breakdown[MaxIndex(breakdown)].0)
  }

  /**
   * For a non-empty breakdown the card names some entry of maximal count, and
   * no later entry has that count.
   */
  lemma MostUsedIsLastMaximum(breakdown: seq<(string, nat)>)
    requires |breakdown| > 0
    ensures exists k | 0 <= k < |breakdown| ::
      && MostUsedContentType(breakdown) == TypeLabel(breakdown[k].0)
      && (forall j | 0 <= j < |breakdown| :: breakdown[j].1 <= breakdown[k].1)
      && (forall j | k < j < |breakdown| :: breakdown[j].1 < breakdown[k].1)
  {
    var k := MaxIndex(breakdown);
    assert MostUsedContentType(breakdown) == TypeLabel(breakdown[k].0);
  }

  // ----------------------------------------------------------- average time

  datatype TimeUnit = Millis | Seconds | Minutes

  /** The branch `formatTime` takes: ms below 1000, s below 60000, m otherwise. */
  function TimeUnitOf(avg: Average): (u: TimeUnit)
    ensures u == Millis <==> Below(avg, 1000)
    ensures u == Seconds <==> !Below(avg, 1000) && Below(avg, 60000)
    ensures u == Minutes <==> !Below(avg, 60000)
  {
    if Below(avg, 1000) then Millis else if Below(avg, 60000) then Seconds else Minutes
  }

  /** The millisecond text: `${Math.round(ms)}ms`. */
  function MillisText(avg: Average): string {
    Text.IntToString(if avg.count == 0 then 0 else R.RoundDiv(avg.sum, avg.count)) + "ms"
  }

  /**
   * The millisecond text of a non-negative average is its nearest whole number
   * of milliseconds (halves up) followed by `ms`; with nothing to average it is `0ms`.
   */
  lemma MillisTextIsNearest(avg: Average)
    requires avg.sum >= 0
    ensures avg.count == 0 ==> MillisText(avg) == "0ms"
    ensures avg.count > 0 ==>
      var n := R.RoundDiv(avg.sum, avg.count);
      && n >= 0
      && MillisText(avg) == Text.NatToString(n) + "ms"
      && (2 * n - 1) * avg.count <= 2 * avg.sum < (2 * n + 1) * avg.count
  {
    if avg.count > 0 {
      R.RoundDivIsNearest(avg.sum, avg.count);
    } else {
      assert Text.NatToString(0) == "0";
    }
  }

  /** The units are ordered by the average: a longer average never gets a smaller unit. */
  lemma TimeUnitMonotone(a: Average, b: Average)
    requires a.count > 0 && b.count > 0 && a.sum * b.count <= b.sum * a.count
    ensures TimeUnitOf(a) == Minutes ==> TimeUnitOf(b) == Minutes
    ensures TimeUnitOf(b) == Millis ==> TimeUnitOf(a) == Millis
  {
    if !Below(a, 60000) {
      assert 60000 * a.count * b.count <= a.sum * b.count <= b.sum * a.count;
    }
    if Below(b, 1000) {
      assert a.sum * b.count <= b.sum * a.count < 1000 * b.count * a.count;
    }
  }

  // -------------------------------------------------------- performance

  datatype Performance = LightningFast | Good | ConsiderSmallerModel

  /** The three conditional sentences of the summary, as the one that is shown. */
  function PerformanceOf(avg: Average): (p: Performance)
    ensures p == LightningFast <==> Below(avg, 5000)
    ensures p == Good <==> !Below(avg, 5000) && Below(avg, 15000)
    ensures p == ConsiderSmallerModel <==> !Below(avg, 15000)
  {
    if Below(avg, 5000) then LightningFast else if Below(avg, 15000) then Good else ConsiderSmallerModel
  }

  /** The summary shows once loading ended and there is at least one generation. */
  predicate ShowsSummary(loading: bool, total: nat) {
    !loading && total > 0
  }

  /**
   * For the service's own statistics, the summary shows once loading ended
   * exactly when there is a row, and never while loading; when it shows, the
   * average it describes has a count.
   */
  lemma SummaryNeedsRows(rows: seq<CS.StatRow>)
    ensures ShowsSummary(false, CS.StatsOf(rows).total) <==> |rows| > 0
    ensures !ShowsSummary(true, CS.StatsOf(rows).total)
    ensures ShowsSummary(false, CS.StatsOf(rows).total) ==> AverageOf(CS.StatsOf(rows)).count > 0
  {
  }
}
