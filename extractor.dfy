/**
 * The row loop of `JDExtractor.extract_from_excel_background` in
 * services/jd/extractor.py: count the non-empty descriptions, start
 * tracking that many, run the orchestrator on each non-empty row, count
 * successes and failures, increment the tracker once per row tried, and
 * cache a summary of the successful rows.
 *
 * The orchestrator is an oracle from description text to its result or
 * the error it raised. Reading the spreadsheet (with saving the request)
 * and persisting the results (with building the workbook) are I/O: each
 * is reduced to whether it raised.
 */
module Extractor {
  import opened Wrappers
  import opened Text
  import opened JdResult
  import opened Errors
  import opened Tracker

  /** `extract_jd` for one row: the extracted record, or the error it raised. */
  type Oracle = string -> Result<JDExtractionResult, AIError>

  /** A row is skipped when its text is all whitespace: `jd.strip()` is empty and so falsy. */
  predicate Blank(jdText: string) {
    AllSpace(jdText)
  }

  /** The blank rows are exactly those that `strip()` empties. */
  lemma BlankIsEmptyStrip(jdText: string)
    ensures Blank(jdText) <==> Strip(jdText) == []
  {
  }

  /** The number of rows that are not blank. */
  function NonEmptyCount(rows: seq<string>): (n: nat)
    ensures n <= |rows|
  {
    if rows == [] then 0
    else NonEmptyCount(rows[..|rows| - 1]) + if Blank(rows[|rows| - 1]) then 0 else 1
  }

  /** The running state of the row loop: the rows extracted, and the two counters. */
  datatype Tally = Tally(results: seq<ExcelJDRow>, successCount: nat, failureCount: nat)

  /** The loop's state after the first `n` rows. */
  function TallyUpTo(rows: seq<string>, extract: Oracle, n: nat): Tally
    requires n <= |rows|
  {
    if n == 0 then Tally([], 0, 0)
    else
      var t := TallyUpTo(rows, extract, n - 1);
      var jdText := rows[n - 1];
      if Blank(jdText) then t
      else match extract(jdText)
        case Ok(extracted) => Tally(t.results + [ExcelJDRow(n - 1, jdText, extracted)], t.successCount + 1, t.failureCount)
        case Err(_) => t.(failureCount := t.failureCount + 1)
  }

  /** One more row of the loop: a blank row changes nothing, a success adds its result, a failure is counted. */
  lemma TallyStep(rows: seq<string>, extract: Oracle, n: nat)
    requires n < |rows|
    ensures var t := TallyUpTo(rows, extract, n);
      TallyUpTo(rows, extract, n + 1) ==
        if Blank(rows[n]) then t
        else if extract(rows[n]).Ok? then Tally(t.results + [ExcelJDRow(n, rows[n], extract(rows[n]).value)], t.successCount + 1, t.failureCount)
        else t.(failureCount := t.failureCount + 1)
  {
  }

  /** The dictionary cached under the request id once all rows are done. */
  function Summary(requestId: string, t: Tally): (r: ExcelJDResponse)
    ensures r.requestId == requestId && r.results == t.results
    ensures r.totalProcessed == |t.results| && r.successCount == t.successCount && r.failureCount == t.failureCount
  {
    ExcelJDResponse(requestId, t.results, |t.results|, t.successCount, t.failureCount)
  }

  /** Every non-blank row is counted once, as a success or as a failure, and there is one
      result per success. */
  lemma {:induction false} TallyCounts(rows: seq<string>, extract: Oracle, n: nat)
    requires n <= |rows|
    ensures var t := TallyUpTo(rows, extract, n);
      t.successCount + t.failureCount == NonEmptyCount(rows[..n]) && |t.results| == t.successCount
  {
    if n > 0 {
      TallyCounts(rows, extract, n - 1);
      assert rows[..n][..n - 1] == rows[..n - 1];
    }
  }

  /** Each result carries its row's index and text and what the orchestrator returned for it;
      the rows are non-blank and among the first `n`, and the indices strictly increase. */
  ghost predicate ResultsFaithful(rows: seq<string>, extract: Oracle, rs: seq<ExcelJDRow>, n: nat)
    requires n <= |rows|
  {
    && (forall k :: 0 <= k < |rs| ==>
          0 <= rs[k].rowIndex < n && rs[k].originalJd == rows[rs[k].rowIndex] && !Blank(rs[k].originalJd)
          && extract(rs[k].originalJd) == Ok(rs[k].extractedData))
    && (forall k, l :: 0 <= k < l < |rs| ==> rs[k].rowIndex < rs[l].rowIndex)
  }

  /** The results of the loop are faithful to the rows they came from, in row order. */
  lemma {:induction false} TallyResultsInOrder(rows: seq<string>, extract: Oracle, n: nat)
    requires n <= |rows|
    ensures ResultsFaithful(rows, extract, TallyUpTo(rows, extract, n).results, n)
  {
    if n > 0 {
      TallyResultsInOrder(rows, extract, n - 1);
      var before := TallyUpTo(rows, extract, n - 1).results;
      var rs := TallyUpTo(rows, extract, n).results;
      if !Blank(rows[n - 1]) && extract(rows[n - 1]).Ok? {
        assert rs == before + [ExcelJDRow(n - 1, rows[n - 1], extract(rows[n - 1]).value)];
        assert forall k :: 0 <= k < |before| ==> rs[k] == before[k];
      } else {
        assert rs == before;
      }
    }
  }

  /** Conversely, every non-blank row the orchestrator extracted appears among the results. */
  lemma {:induction false} TallyResultsComplete(rows: seq<string>, extract: Oracle, n: nat, i: nat)
    requires i < n <= |rows|
    requires !Blank(rows[i]) && extract(rows[i]).Ok?
    ensures exists k :: (0 <= k < |TallyUpTo(rows, extract, n).results| &&
      TallyUpTo(rows, extract, n).results[k] == ExcelJDRow(i, rows[i], extract(rows[i]).value))
  {
    var rs := TallyUpTo(rows, extract, n).results;
    if i == n - 1 {
      assert rs[|rs| - 1] == ExcelJDRow(i, rows[i], extract(rows[i]).value);
    } else {
      TallyResultsComplete(rows, extract, n - 1, i);
      var k :| 0 <= k < |TallyUpTo(rows, extract, n - 1).results|
        && TallyUpTo(rows, extract, n - 1).results[k] == ExcelJDRow(i, rows[i], extract(rows[i]).value);
      assert rs[k] == TallyUpTo(rows, extract, n - 1).results[k];
    }
  }

  /** The tracker after the row loop: started with the non-blank rows as its total and incremented once per such row. */
  function TrackedRun(v: map<string, Entry>, requestId: string, rows: seq<string>, now: int): map<string, Entry> {
    IncrementedTimes(Started(v, requestId, NonEmptyCount(rows), now), requestId, NonEmptyCount(rows))
  }

  /** `JDExtractor` with the state the background task writes: the progress tracker and the results cache. */
  class JDExtractor {
    const tracker: ProgressTracker
    /** `_results_cache`: the summary of every finished request. */
    var resultsCache: map<string, ExcelJDResponse>

    constructor(tracker: ProgressTracker)
      ensures this.tracker == tracker && resultsCache == map[]
    {
      this.tracker := tracker;
      resultsCache := map[];
    }

    /** The row loop: every non-blank row goes to the orchestrator, and its outcome is counted and
        reported to the tracker, success or failure alike; blank rows are skipped. */
    method ProcessRows(requestId: string, jdTexts: seq<string>, extract: Oracle)
      returns (results: seq<ExcelJDRow>, successCount: nat, failureCount: nat)
      requires tracker.Valid() && requestId in tracker.states
      modifies tracker.states[requestId]
      ensures tracker.Valid() && tracker.states == old(tracker.states)
      ensures Tally(results, successCount, failureCount) == TallyUpTo(jdTexts, extract, |jdTexts|)
      ensures tracker.View() == IncrementedTimes(old(tracker.View()), requestId, successCount + failureCount)
    {
      ghost var started := tracker.View();
      ghost var tried: nat := 0;
      results, successCount, failureCount := [], 0, 0;
      for idx := 0 to |jdTexts|
        invariant tracker.Valid() && tracker.states == old(tracker.states)
        invariant Tally(results, successCount, failureCount) == TallyUpTo(jdTexts, extract, idx)
        invariant tried == successCount + failureCount
        invariant tracker.View() == IncrementedTimes(started, requestId, tried)
      {
        var jdText := jdTexts[idx];
        TallyStep(jdTexts, extract, idx);
        if !Blank(jdText) {
          var extracted := extract(jdText);
          if extracted.Ok? {
            results := results + [ExcelJDRow(idx, jdText, extracted.value)];
            successCount := successCount + 1;
          } else {
            failureCount := failureCount + 1;
          }
          tracker.IncrementProgress(requestId);
          IncrementedTimesStep(started, requestId, tried);
          tried := tried + 1;
        }
      }
    }

    /** `extract_from_excel_background`. `columnData` is the column read from the sheet, `None` when reading
        it or saving the request raised; `persisted` is false when saving the results or building the
        workbook raised. An exception ends tracking of the request; the normal path leaves it in place. */
    method ExtractFromExcelBackground(requestId: string, columnData: Option<seq<string>>, persisted: bool,
        extract: Oracle, now: int)
      requires tracker.Valid()
      modifies this, tracker
      ensures tracker.Valid()
      ensures columnData.None? ==> tracker.View() == Stopped(old(tracker.View()), requestId) && resultsCache == old(resultsCache)
      ensures columnData.Some? && persisted ==>
        && tracker.View() == TrackedRun(old(tracker.View()), requestId, columnData.value, now)
        && resultsCache == old(resultsCache)[requestId := Summary(requestId, TallyUpTo(columnData.value, extract, |columnData.value|))]
      ensures columnData.Some? && !persisted ==>
        tracker.View() == Stopped(TrackedRun(old(tracker.View()), requestId, columnData.value, now), requestId)
        && resultsCache == old(resultsCache)
    {
      if columnData.None? {
        tracker.StopTracking(requestId);
        return;
      }
      var jdTexts := columnData.value;
      var nonEmptyCount := NonEmptyCount(jdTexts);
      tracker.StartTracking(requestId, nonEmptyCount, now);
      var results, successCount, failureCount := ProcessRows(requestId, jdTexts, extract);
      TallyCounts(jdTexts, extract, |jdTexts|);
      assert jdTexts[..|jdTexts|] == jdTexts;
      assert successCount + failureCount == nonEmptyCount;
      if !persisted {
        tracker.StopTracking(requestId);
        return;
      }
      resultsCache := resultsCache[requestId := Summary(requestId, Tally(results, successCount, failureCount))];
    }
  }

  /** After a run that raised nothing, the request shows every non-blank row processed and is complete. */
  lemma BackgroundRunCompletes(v: map<string, Entry>, requestId: string, rows: seq<string>, now: int)
    ensures requestId in TrackedRun(v, requestId, rows, now)
    ensures ProgressOf(TrackedRun(v, requestId, rows, now), requestId) == Some(Progress(NonEmptyCount(rows), NonEmptyCount(rows)))
    ensures Complete(TrackedRun(v, requestId, rows, now)[requestId])
  {
    StartThenIncrementsComplete(v, requestId, NonEmptyCount(rows), now, NonEmptyCount(rows));
  }

  /** The cached summary of a run: its counters add up to the non-blank rows and it reports one
      processed row per result. */
  lemma SummaryCounts(requestId: string, rows: seq<string>, extract: Oracle)
    ensures var s := Summary(requestId, TallyUpTo(rows, extract, |rows|));
      s.successCount + s.failureCount == NonEmptyCount(rows)
      && s.totalProcessed == |s.results| == s.successCount
  {
    TallyCounts(rows, extract, |rows|);
    assert rows[..|rows|] == rows;
  }
}
