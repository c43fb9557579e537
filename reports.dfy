/** The bookkeeping of the runners' reports: the batch status list of
    `00_OVERALL_SUMMARY.md` (`update_overall_summary`), the grouping of the
    results by batch number in `00_FINAL_SUMMARY.md`
    (`generate_final_summary_report`), the per-window statistics of the
    basic runner's final report and the numbered failure list.  Only counts,
    ranges and classifications are modelled, not the Markdown text. */
module Reports {
  import opened Common
  import opened Windows
  import opened Runner

  // ---------------------------------------------------------------------
  // Batch status list
  // ---------------------------------------------------------------------

  datatype BatchState = Completed | InProgress | Pending

  /** One line of the batch status list: the batch number, its URL range
      `start_idx + 1 .. end_idx`, its state and, in the checkpointed
      runner's list, the success and failure counts of a completed batch
      that has results. */
  datatype StatusLine = StatusLine(batch: nat, first: nat, last: nat, state: BatchState, counts: Option<(nat, nat)>)

  /** `batch_num_iter <= current_batch`: completed; the next one: in progress; the rest: pending. */
  function StateOf(k: nat, current: nat): BatchState {
    if k <= current then Completed else if k == current + 1 then InProgress else Pending
  }

  /** The results stamped with batch number `key`, in order:
      `[r for r in all_results if r.get('batch_num') == key]`. */
  function InBatch(all: seq<CrawlResult>, key: Option<nat>): seq<CrawlResult>
    decreases |all|
  {
    if all == [] then []
    else if all[|all| - 1].batchNum == key then InBatch(all[..|all| - 1], key) + [all[|all| - 1]]
    else InBatch(all[..|all| - 1], key)
  }

  /** Line `k` of the resumable runner's list, whose range ends at the
      explicitly passed total `total_urls_overall`. */
  function StatusOf(k: nat, bs: nat, total: nat, current: nat): StatusLine
    requires k >= 1
  {
    StatusLine(k, (k - 1) * bs + 1, Min((k - 1) * bs + bs, total), StateOf(k, current), None)
  }

  /** `for batch_num_iter in range(1, total_batches + 1)` of the resumable runner. */
  function StatusLines(bs: nat, total: nat, current: nat, nb: nat): seq<StatusLine> {
    seq(nb, i requires 0 <= i < nb => StatusOf(i + 1, bs, total, current))
  }

  /** Line `k` of the checkpointed runner's list as written: the range ends
      at `total_urls = len(all_results)`, and a completed batch with results
      shows their counts. */
  function SafeStatusOf(all: seq<CrawlResult>, k: nat, bs: nat, current: nat): StatusLine
    requires k >= 1
  {
    var g := InBatch(all, Some(k));
    StatusLine(k, (k - 1) * bs + 1, Min((k - 1) * bs + bs, |all|), StateOf(k, current),
               if k <= current && g != [] then Some((CountSuccess(g), |g| - CountSuccess(g))) else None)
  }

  /** `for batch_num_iter in range(1, total_batches + 1)` of the checkpointed runner. */
  function SafeStatusLines(all: seq<CrawlResult>, bs: nat, current: nat, nb: nat): seq<StatusLine> {
    seq(nb, i requires 0 <= i < nb => SafeStatusOf(all, i + 1, bs, current))
  }

  /** The status list after `current` of `nb` batches: the first `current`
      lines completed, then one in progress unless all are done, then the
      rest pending. */
  lemma StatusListShape(bs: nat, total: nat, current: nat, nb: nat, i: nat)
    requires current <= nb && i < nb
    ensures StatusLines(bs, total, current, nb)[i].batch == i + 1
    ensures StatusLines(bs, total, current, nb)[i].state == Completed <==> i < current
    ensures StatusLines(bs, total, current, nb)[i].state == InProgress <==> i == current
    ensures StatusLines(bs, total, current, nb)[i].state == Pending <==> i > current
  {
  }

  /** The resumable runner's ranges are the windows: line `k` covers
      exactly window `k - 1`, so the lines together number every URL once,
      each range starting right after the one before. */
  lemma StatusRanges(bs: nat, total: nat, current: nat, k: nat)
    requires bs > 0 && 1 <= k <= NumBatches(total, bs)
    ensures StatusOf(k, bs, total, current).first == (k - 1) * bs + 1
    ensures StatusOf(k, bs, total, current).last == WindowEnd(total, bs, k - 1)
    ensures StatusOf(k, bs, total, current).first <= StatusOf(k, bs, total, current).last
    ensures k > 1 ==> StatusOf(k, bs, total, current).first == StatusOf(k - 1, bs, total, current).last + 1
    ensures k == NumBatches(total, bs) ==> StatusOf(k, bs, total, current).last == total
  {
    WindowFacts(total, bs, k - 1);
    if k > 1 {
      WindowFacts(total, bs, k - 2);
      assert (k - 2) * bs + bs == (k - 1) * bs;
    }
  }

  /** In the checkpointed runner, after `current` full windows of a longer
      list the list of results is `current * batch_size` long, and every
      batch after them shows a range that ends before it starts. */
  lemma SafeRangesInverted(all: seq<CrawlResult>, bs: nat, current: nat, nb: nat, k: nat)
    requires bs > 0 && |all| == current * bs && current < k <= nb
    ensures SafeStatusOf(all, k, bs, current).last == |all| < SafeStatusOf(all, k, bs, current).first
  {
    MulMono(current, k - 1, bs);
  }

  /** For twelve records in batches of five, after the first batch the
      checkpointed runner lists batch 2 as `URL 6-5`. */
  lemma SafeRangeExample()
    ensures var all := seq(5, i => CrawlResult(true, "", "", "", None, Some(1)));
      && SafeStatusLines(all, 5, 1, NumBatches(12, 5))[1].first == 6
      && SafeStatusLines(all, 5, 1, NumBatches(12, 5))[1].last == 5
  {
    var all := seq(5, i => CrawlResult(true, "", "", "", None, Some(1)));
    assert NumBatches(12, 5) == 3;
    assert SafeStatusLines(all, 5, 1, 3)[1] == SafeStatusOf(all, 2, 5, 1);
  }

  // ---------------------------------------------------------------------
  // Results grouped by batch number
  // ---------------------------------------------------------------------

  /** Every result carries the batch number of its position:
      `batch_num == i // batch_size + 1`. */
  predicate Stamped(all: seq<CrawlResult>, bs: nat)
    requires bs > 0
  {
    forall i :: 0 <= i < |all| ==> all[i].batchNum == Some(i / bs + 1)
  }

  /** `x // batch_size == k` exactly for the positions of window `k`. */
  lemma DivIs(bs: nat, k: nat, x: nat)
    requires bs > 0
    ensures x / bs == k <==> k * bs <= x < k * bs + bs
  {
    if k * bs <= x < k * bs + bs {
      DivInWindow(bs, k, x - k * bs);
    } else {
      assert (x / bs) * bs + x % bs == x;
      if x / bs == k {
        assert false;
      }
    }
  }

  /** Grouping distributes over concatenation. */
  lemma {:induction false} InBatchAppend(a: seq<CrawlResult>, b: seq<CrawlResult>, key: Option<nat>)
    ensures InBatch(a + b, key) == InBatch(a, key) + InBatch(b, key)
    decreases |b|
  {
    if b == [] {
      assert a + b == a;
    } else {
      var init := b[..|b| - 1];
      InBatchAppend(a, init, key);
      assert (a + b)[..|a + b| - 1] == a + init;
      assert (a + b)[|a + b| - 1] == b[|b| - 1];
    }
  }

  /** A stamped result carries batch number `k + 1` exactly in window `k`. */
  lemma StampAt(all: seq<CrawlResult>, bs: nat, k: nat, i: nat)
    requires bs > 0 && Stamped(all, bs) && i < |all|
    ensures all[i].batchNum == Some(k + 1) <==> k * bs <= i < k * bs + bs
  {
    DivIs(bs, k, i);
  }

  /** Results that all carry `key` form one group, whole. */
  lemma {:induction false} InBatchWhole(s: seq<CrawlResult>, key: Option<nat>)
    requires forall j :: 0 <= j < |s| ==> s[j].batchNum == key
    ensures InBatch(s, key) == s
  {
    if s != [] {
      InBatchWhole(s[..|s| - 1], key);
    }
  }

  /** The group of a list cut in three is the groups of the parts, in order. */
  lemma InBatchSplit(all: seq<CrawlResult>, key: Option<nat>, lo: nat, hi: nat)
    requires lo <= hi <= |all|
    ensures InBatch(all, key) == InBatch(all[..lo], key) + InBatch(all[lo..hi], key) + InBatch(all[hi..], key)
  {
    assert all[..hi] == all[..lo] + all[lo..hi];
    assert all == all[..hi] + all[hi..];
    InBatchAppend(all[..hi], all[hi..], key);
    InBatchAppend(all[..lo], all[lo..hi], key);
  }

  /** A list whose middle part alone carries `key` has that part as its group. */
  lemma InBatchMiddle(all: seq<CrawlResult>, key: Option<nat>, lo: nat, hi: nat)
    requires lo <= hi <= |all|
    requires forall j :: 0 <= j < |all| ==> (all[j].batchNum == key <==> lo <= j < hi)
    ensures InBatch(all, key) == all[lo..hi]
  {
    InBatchSplit(all, key, lo, hi);
    assert InBatch(all[..lo], key) == [] by {
      InBatchAbsent(all[..lo], key);
    }
    assert InBatch(all[lo..hi], key) == all[lo..hi] by {
      forall j | 0 <= j < hi - lo ensures all[lo..hi][j].batchNum == key {
        assert all[lo..hi][j] == all[lo + j];
      }
      InBatchWhole(all[lo..hi], key);
    }
    assert InBatch(all[hi..], key) == [] by {
      forall j | 0 <= j < |all| - hi ensures all[hi..][j].batchNum != key {
        assert all[hi..][j] == all[hi + j];
      }
      InBatchAbsent(all[hi..], key);
    }
  }

  /** Grouping stamped results by batch number recovers the windows: the
      results stamped `k + 1` are window `k`, in order. */
  lemma InBatchWindow(all: seq<CrawlResult>, bs: nat, k: nat)
    requires bs > 0 && Stamped(all, bs) && k < NumBatches(|all|, bs)
    ensures InBatch(all, Some(k + 1)) == Window(all, bs, k)
  {
    WindowFacts(|all|, bs, k);
    var lo, hi := k * bs, WindowEnd(|all|, bs, k);
    forall j | 0 <= j < |all| ensures all[j].batchNum == Some(k + 1) <==> lo <= j < hi {
      StampAt(all, bs, k, j);
    }
    InBatchMiddle(all, Some(k + 1), lo, hi);
  }

  /** What the first windows of a checkpointed run produce is stamped. */
  lemma RunPrefixStamped(items: seq<Item>, fetch: string -> FetchOutcome, bs: nat, m: nat)
    requires bs > 0 && m <= |items|
    ensures Stamped(RunResults(items, fetch, bs, true)[..m], bs)
  {
  }

  /** After `current` windows of the checkpointed runner, the counts the
      status list shows for a completed batch `k` are those of the batch
      file saved for it. */
  lemma SafeCountsMatchFiles(items: seq<Item>, fetch: string -> FetchOutcome, bs: nat, current: nat, k: nat)
    requires bs > 0 && 1 <= k <= current <= NumBatches(|items|, bs)
    ensures var final := RunResults(items, fetch, bs, true);
      var file := SavedBatch(Window(final, bs, k - 1), k, (k - 1) * bs);
      SafeStatusOf(final[..Covered(|items|, bs, current)], k, bs, current).counts
        == Some((file.successCount, file.failCount))
  {
    var final := RunResults(items, fetch, bs, true);
    var m := Covered(|items|, bs, current);
    WindowOfPrefix(final, bs, current, k - 1);
    var all := final[..m];
    RunPrefixStamped(items, fetch, bs, m);
    InBatchWindow(all, bs, k - 1);
    WindowLengths(final, bs, k - 1);
  }

  /** `groups` holds one entry per batch number carried in `s`, the results
      carrying it in order. */
  ghost predicate Grouped(groups: map<Option<nat>, seq<CrawlResult>>, s: seq<CrawlResult>) {
    && (forall key :: key in groups <==> exists j :: 0 <= j < |s| && s[j].batchNum == key)
    && (forall key :: key in groups ==> groups[key] == InBatch(s, key))
  }

  /** `batch_wise_results`: the results grouped by `batch_num`, each group in
      the order of `all_results`; a result without a batch number is
      grouped under `None`. */
  method GroupByBatch(all: seq<CrawlResult>) returns (groups: map<Option<nat>, seq<CrawlResult>>)
    ensures forall key :: key in groups <==> exists i :: 0 <= i < |all| && all[i].batchNum == key
    ensures forall key :: key in groups ==> groups[key] == InBatch(all, key)
  {
    groups := map[];
    for i := 0 to |all|
      invariant Grouped(groups, all[..i])
    {
      groups := AddToGroup(groups, all, i);
    }
    assert all[..|all|] == all;
  }

  /** One pass of `for result in all_results`: the result joins the group of
      its batch number, opened empty when it is the first with that number. */
  method AddToGroup(groups0: map<Option<nat>, seq<CrawlResult>>, all: seq<CrawlResult>, i: nat)
    returns (groups: map<Option<nat>, seq<CrawlResult>>)
    requires i < |all| && Grouped(groups0, all[..i])
    ensures Grouped(groups, all[..i + 1])
  {
    groups := groups0;
    var r := all[i];
    var key := r.batchNum;
    if key !in groups {
      groups := groups[key := []];
      InBatchAbsent(all[..i], key);
    }
    groups := groups[key := groups[key] + [r]];
    GroupStep(all, i);
    assert all[..i + 1][i] == r;
    forall j | 0 <= j < i ensures all[..i + 1][j] == all[..i][j] {
    }
  }

  /** A key no result carries has an empty group. */
  lemma {:induction false} InBatchAbsent(all: seq<CrawlResult>, key: Option<nat>)
    requires forall j :: 0 <= j < |all| ==> all[j].batchNum != key
    ensures InBatch(all, key) == []
  {
    if all != [] {
      InBatchAbsent(all[..|all| - 1], key);
    }
  }

  lemma GroupStep(all: seq<CrawlResult>, i: nat)
    requires i < |all|
    ensures forall key :: InBatch(all[..i + 1], key)
                       == if all[i].batchNum == key then InBatch(all[..i], key) + [all[i]] else InBatch(all[..i], key)
  {
    assert all[..i + 1][..i] == all[..i];
  }

  // ---------------------------------------------------------------------
  // Final statistics of the basic runner and the failure list
  // ---------------------------------------------------------------------

  /** `all_results[start:end]` with Python's clamping of slice bounds. */
  function PySlice<T>(s: seq<T>, lo: nat, hi: nat): seq<T> {
    if lo >= |s| || hi <= lo then [] else s[lo..Min(hi, |s|)]
  }

  /** One section of the basic runner's final report: batch number, URL
      range, successes and failures in the slice of `all_results`. */
  datatype BatchStats = BatchStats(batch: nat, first: nat, last: nat, success: nat, fail: nat)

  function FinalBatchStats(all: seq<CrawlResult>, bs: nat, total: nat, b: nat): BatchStats {
    var w := PySlice(all, b * bs, Min(b * bs + bs, total));
    BatchStats(b + 1, b * bs + 1, Min(b * bs + bs, total), CountSuccess(w), |w| - CountSuccess(w))
  }

  /** `for batch_num in range(total_batches)` of the final report. */
  function FinalStats(all: seq<CrawlResult>, bs: nat, total: nat): seq<BatchStats>
    requires bs > 0
  {
    seq(NumBatches(total, bs), b requires 0 <= b < NumBatches(total, bs) => FinalBatchStats(all, bs, total, b))
  }

  function SumSuccess(stats: seq<BatchStats>): nat
    decreases |stats|
  {
    if stats == [] then 0 else SumSuccess(stats[..|stats| - 1]) + stats[|stats| - 1].success
  }

  function SumFail(stats: seq<BatchStats>): nat
    decreases |stats|
  {
    if stats == [] then 0 else SumFail(stats[..|stats| - 1]) + stats[|stats| - 1].fail
  }

  /** With one result per record, section `b` counts window `b`: its
      successes and failures add up to the window's length. */
  lemma FinalBatchWindow(all: seq<CrawlResult>, bs: nat, b: nat)
    requires bs > 0 && b < NumBatches(|all|, bs)
    ensures PySlice(all, b * bs, Min(b * bs + bs, |all|)) == Window(all, bs, b)
    ensures FinalBatchStats(all, bs, |all|, b).success + FinalBatchStats(all, bs, |all|, b).fail == |Window(all, bs, b)|
    ensures FinalBatchStats(all, bs, |all|, b).last == WindowEnd(|all|, bs, b)
  {
    WindowFacts(|all|, bs, b);
  }

  /** The sections of the first `k` windows count the successes and the
      failures among the results those windows cover. */
  lemma {:induction false} FinalStatsPrefix(all: seq<CrawlResult>, bs: nat, k: nat)
    requires bs > 0 && k <= NumBatches(|all|, bs)
    ensures SumSuccess(FinalStats(all, bs, |all|)[..k]) == CountSuccess(all[..Covered(|all|, bs, k)])
    ensures SumFail(FinalStats(all, bs, |all|)[..k])
         == Covered(|all|, bs, k) - CountSuccess(all[..Covered(|all|, bs, k)])
  {
    var stats := FinalStats(all, bs, |all|);
    if k > 0 {
      FinalStatsPrefix(all, bs, k - 1);
      assert stats[..k][..k - 1] == stats[..k - 1];
      FinalBatchWindow(all, bs, k - 1);
      WindowExtends(all, bs, k - 1, 0);
      CoveredBefore(|all|, bs, k - 1);
      CountSuccessAppend(all[..Covered(|all|, bs, k - 1)], Window(all, bs, k - 1));
    }
  }

  /** The basic runner's final report splits its totals over the windows:
      the sections' successes add up to the successes of the whole list,
      and their failures to the rest. */
  lemma FinalStatsTotals(all: seq<CrawlResult>, bs: nat)
    requires bs > 0
    ensures SumSuccess(FinalStats(all, bs, |all|)) == CountSuccess(all)
    ensures SumFail(FinalStats(all, bs, |all|)) == |all| - CountSuccess(all)
  {
    var stats := FinalStats(all, bs, |all|);
    FinalStatsPrefix(all, bs, NumBatches(|all|, bs));
    assert stats[..|stats|] == stats;
    CoveredAll(|all|, bs);
    assert all[..|all|] == all;
  }

  /** The results that failed, in order: `[r for r in all_results if not r['success']]`. */
  function Failures(all: seq<CrawlResult>): (fs: seq<CrawlResult>)
    ensures |fs| <= |all|
    decreases |all|
  {
    if all == [] then []
    else if all[|all| - 1].success then Failures(all[..|all| - 1])
    else Failures(all[..|all| - 1]) + [all[|all| - 1]]
  }

  /** One entry of the failure section: its running number and the result. */
  datatype FailureEntry = FailureEntry(number: nat, result: CrawlResult)

  /** The failure section: every result that failed, numbered with the
      running `failed_count` from 1 on. */
  method NumberFailures(all: seq<CrawlResult>) returns (entries: seq<FailureEntry>)
    ensures |entries| == |Failures(all)|
    ensures forall j :: 0 <= j < |entries| ==> entries[j] == FailureEntry(j + 1, Failures(all)[j])
  {
    entries := [];
    var failedCount := 0;
    for i := 0 to |all|
      invariant failedCount == |entries| == |Failures(all[..i])|
      invariant forall j :: 0 <= j < |entries| ==> entries[j] == FailureEntry(j + 1, Failures(all[..i])[j])
    {
      assert all[..i + 1][..i] == all[..i];
      if !all[i].success {
        failedCount := failedCount + 1;
        entries := entries + [FailureEntry(failedCount, all[i])];
      }
    }
    assert all[..|all|] == all;
  }

  /** The failure list holds exactly the results that did not succeed, as
      many as the results minus the successes. */
  lemma {:induction false} FailuresFacts(all: seq<CrawlResult>)
    ensures |Failures(all)| == |all| - CountSuccess(all)
    ensures forall r :: r in Failures(all) <==> r in all && !r.success
  {
    if all != [] {
      var init := all[..|all| - 1];
      FailuresFacts(init);
      assert all == init + [all[|all| - 1]];
    }
  }
}
