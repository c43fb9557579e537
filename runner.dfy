/** The content runners: `crawl_multiple_webpages_to_markdown` of the basic
    runner (`get_content_jyxx.py`), of the checkpointed runner
    (`safe_get_content.py`) and of the resumable runner (`test11.py`), with
    the per-record step they share and `save_batch_results`.

    The page fetch (`crawl_single_webpage_to_markdown`) is the parameter
    `fetch`, from a URL to an outcome; the runners report every URL they
    hand to it, in order, so that the records it is not called for are
    visible.  Every clock reading is the one string `now`. */
module Runner {
  import opened Common
  import opened Text
  import opened Windows
  import opened Checkpoint

  /** One record of the URL manifest as the runners read it: `None` is a
      missing key.  A `final_url` that is `None` or `""` is falsy. */
  datatype Item = Item(source: Option<string>, name: Option<string>, finalUrl: Option<string>)

  /** What the fetch reports: success with the page title and content, or an error message. */
  datatype FetchOutcome = Fetched(title: string, content: string) | FetchFailed(error: string)

  /** One element of `all_results`; title and content are not modelled.
      `batchNum` is absent in the basic runner, which does not stamp it. */
  datatype CrawlResult = CrawlResult(
    success: bool,
    source: string,
    name: string,
    url: string,
    error: Option<string>,
    batchNum: Option<nat>)

  const EmptyUrlError: string := "URL为空"
  const Unknown: string := "Unknown"

  /** `item.get('final_url')` is truthy. */
  predicate HasUrl(item: Item) {
    Truthy(item.finalUrl)
  }

  /** The `source_info` handed to the fetch, which it stores as the result's source. */
  function FetchLabel(item: Item): string {
    item.source.GetOr(Unknown) + " - " + item.name.GetOr(Unknown)
  }

  /** The result the loop body stores for one record. */
  function ItemResult(item: Item, fetch: string -> FetchOutcome, batch: Option<nat>): CrawlResult {
    var name := item.name.GetOr(Unknown);
    if !HasUrl(item) then CrawlResult(false, item.source.GetOr(Unknown), name, "", Some(EmptyUrlError), batch)
    else
      var url := item.finalUrl.value;
      match fetch(url)
      case Fetched(_, _) => CrawlResult(true, FetchLabel(item), name, url, None, batch)
      case FetchFailed(e) => CrawlResult(false, FetchLabel(item), name, url, Some(e), batch)
  }

  /** A record without a URL fails with `URL为空` and an empty URL; any other
      record succeeds exactly when the fetch of its URL does, and keeps that
      URL.  Either way the result carries the record's name and the batch
      number given. */
  lemma ItemResultFacts(item: Item, fetch: string -> FetchOutcome, batch: Option<nat>)
    ensures var r := ItemResult(item, fetch, batch);
      && r.name == item.name.GetOr(Unknown) && r.batchNum == batch
      && (!HasUrl(item) ==> !r.success && r.url == "" && r.error == Some(EmptyUrlError))
      && (HasUrl(item) ==> r.url == item.finalUrl.value && (r.success <==> fetch(r.url).Fetched?))
      && (r.success <==> r.error.None?)
  {
  }

  /** `sum(1 for r in results if r['success'])`. */
  function CountSuccess(rs: seq<CrawlResult>): (c: nat)
    ensures c <= |rs|
    decreases |rs|
  {
    if rs == [] then 0
    else if rs[|rs| - 1].success then CountSuccess(rs[..|rs| - 1]) + 1
    else CountSuccess(rs[..|rs| - 1])
  }

  lemma {:induction false} CountSuccessAppend(a: seq<CrawlResult>, b: seq<CrawlResult>)
    ensures CountSuccess(a + b) == CountSuccess(a) + CountSuccess(b)
    decreases |b|
  {
    if b != [] {
      var b' := b[..|b| - 1];
      CountSuccessAppend(a, b');
      assert (a + b)[..|a + b| - 1] == a + b';
      assert (a + b)[|a + b| - 1] == b[|b| - 1];
    } else {
      assert a + b == a;
    }
  }

  /** The URLs the fetch is called with while processing `items`, in order. */
  function FetchedUrls(items: seq<Item>): seq<string>
    decreases |items|
  {
    if items == [] then []
    else if HasUrl(items[|items| - 1]) then FetchedUrls(items[..|items| - 1]) + [items[|items| - 1].finalUrl.value]
    else FetchedUrls(items[..|items| - 1])
  }

  lemma {:induction false} FetchedUrlsAppend(a: seq<Item>, b: seq<Item>)
    ensures FetchedUrls(a + b) == FetchedUrls(a) + FetchedUrls(b)
    decreases |b|
  {
    if b != [] {
      var b' := b[..|b| - 1];
      FetchedUrlsAppend(a, b');
      assert (a + b)[..|a + b| - 1] == a + b';
      assert (a + b)[|a + b| - 1] == b[|b| - 1];
    } else {
      assert a + b == a;
    }
  }

  /** The fetch is called exactly for the records with a URL, once each. */
  lemma {:induction false} FetchedUrlsFacts(items: seq<Item>)
    ensures |FetchedUrls(items)| <= |items|
    ensures forall u :: u in FetchedUrls(items) ==> exists i :: 0 <= i < |items| && HasUrl(items[i]) && items[i].finalUrl.value == u
    ensures forall i :: 0 <= i < |items| && HasUrl(items[i]) ==> items[i].finalUrl.value in FetchedUrls(items)
    decreases |items|
  {
    if items != [] {
      var init := items[..|items| - 1];
      FetchedUrlsFacts(init);
      forall u | u in FetchedUrls(items)
        ensures exists i :: 0 <= i < |items| && HasUrl(items[i]) && items[i].finalUrl.value == u
      {
        if u in FetchedUrls(init) {
          var i :| 0 <= i < |init| && HasUrl(init[i]) && init[i].finalUrl.value == u;
          assert items[i] == init[i];
        }
      }
      forall i | 0 <= i < |items| && HasUrl(items[i]) ensures items[i].finalUrl.value in FetchedUrls(items) {
        if i < |init| {
          assert init[i] == items[i];
        }
      }
    }
  }

  /** The results of a window, every one stamped with `batch`. */
  function WindowResults(window: seq<Item>, fetch: string -> FetchOutcome, batch: Option<nat>): seq<CrawlResult> {
    seq(|window|, i requires 0 <= i < |window| => ItemResult(window[i], fetch, batch))
  }

  // ---------------------------------------------------------------------
  // One window, one batch file
  // ---------------------------------------------------------------------

  /** The body of the inner loop for one record: a record without a URL
      fails without a fetch; otherwise the URL is fetched (`call`) and the
      outcome decides the result. */
  method ProcessItem(item: Item, batch: Option<nat>, fetch: string -> FetchOutcome)
    returns (result: CrawlResult, call: Option<string>)
    ensures result == ItemResult(item, fetch, batch)
    ensures call == (if HasUrl(item) then Some(item.finalUrl.value) else None)
  {
    var name := item.name.GetOr(Unknown);
    if !HasUrl(item) {
      result := CrawlResult(false, item.source.GetOr(Unknown), name, "", Some(EmptyUrlError), batch);
      call := None;
    } else {
      var url := item.finalUrl.value;
      call := Some(url);
      var outcome := fetch(url);
      match outcome {
        case Fetched(_, _) =>
          result := CrawlResult(true, FetchLabel(item), name, url, None, batch);
        case FetchFailed(e) =>
          result := CrawlResult(false, FetchLabel(item), name, url, Some(e), batch);
      }
    }
  }

  /** The inner loop `for i, item in enumerate(current_batch)`: one result per
      record, the fetch skipped for records without a URL, and exactly one
      of the two counters incremented per record. */
  method RunWindow(window: seq<Item>, batch: Option<nat>, fetch: string -> FetchOutcome, successful0: nat, failed0: nat)
    returns (results: seq<CrawlResult>, calls: seq<string>, successful: nat, failed: nat)
    ensures results == WindowResults(window, fetch, batch)
    ensures calls == FetchedUrls(window)
    ensures successful == successful0 + CountSuccess(results)
    ensures failed == failed0 + (|results| - CountSuccess(results))
  {
    results := [];
    calls := [];
    successful := successful0;
    failed := failed0;
    for i := 0 to |window|
      invariant |results| == i
      invariant forall k :: 0 <= k < i ==> results[k] == ItemResult(window[k], fetch, batch)
      invariant calls == FetchedUrls(window[..i])
      invariant successful == successful0 + CountSuccess(results)
      invariant failed == failed0 + (|results| - CountSuccess(results))
    {
      var result, call := ProcessItem(window[i], batch, fetch);
      assert window[..i + 1][..i] == window[..i];
      if call.Some? {
        calls := calls + [call.value];
      }
      assert (results + [result])[..i] == results;
      results := results + [result];
      if result.success {
        successful := successful + 1;
      } else {
        failed := failed + 1;
      }
    }
    assert window[..|window|] == window;
  }

  /** What `save_batch_results` writes: the batch number, the range of record
      numbers, the counts, and the file indices of the successes it saves. */
  datatype BatchFile = BatchFile(batchNum: nat, first: nat, last: nat, size: nat,
                                 successCount: nat, failCount: nat, files: seq<nat>)

  /** `file_index = start_index + i + 1` of every successful result, in order. */
  function SuccessFiles(results: seq<CrawlResult>, start: nat): seq<nat>
    decreases |results|
  {
    if results == [] then []
    else if results[|results| - 1].success then SuccessFiles(results[..|results| - 1], start) + [start + |results|]
    else SuccessFiles(results[..|results| - 1], start)
  }

  /** The batch file of `results` saved as batch `batchNum` from `start_index`. */
  function SavedBatch(results: seq<CrawlResult>, batchNum: nat, start: nat): BatchFile {
    var ok := CountSuccess(results);
    BatchFile(batchNum, start + 1, start + |results|, |results|, ok, |results| - ok, SuccessFiles(results, start))
  }

  /** One file is saved per successful result, each within the batch's
      range and belonging to a successful result. */
  lemma {:induction false} SuccessFilesFacts(results: seq<CrawlResult>, start: nat)
    ensures |SuccessFiles(results, start)| == CountSuccess(results)
    ensures forall f :: f in SuccessFiles(results, start) ==>
      start < f <= start + |results| && results[f - start - 1].success
    decreases |results|
  {
    if results != [] {
      var init := results[..|results| - 1];
      SuccessFilesFacts(init, start);
      forall f | f in SuccessFiles(init, start) ensures results[f - start - 1] == init[f - start - 1] {
      }
    }
  }

  /** The files are saved in ascending index order. */
  lemma {:induction false} SuccessFilesAscending(results: seq<CrawlResult>, start: nat)
    ensures forall k, l :: 0 <= k < l < |SuccessFiles(results, start)| ==>
      SuccessFiles(results, start)[k] < SuccessFiles(results, start)[l]
    decreases |results|
  {
    if results != [] {
      var init := results[..|results| - 1];
      SuccessFilesAscending(init, start);
      SuccessFilesFacts(init, start);
      var fi := SuccessFiles(init, start);
      forall k | 0 <= k < |fi| ensures fi[k] < start + |results| {
        assert fi[k] in fi;
      }
    }
  }

  /** The file of index `start + i + 1` is saved whenever result `i` succeeded. */
  lemma {:induction false} SuccessFilesComplete(results: seq<CrawlResult>, start: nat)
    ensures forall i :: 0 <= i < |results| && results[i].success ==> start + i + 1 in SuccessFiles(results, start)
    decreases |results|
  {
    if results != [] {
      var init := results[..|results| - 1];
      SuccessFilesComplete(init, start);
      forall i | 0 <= i < |init| && results[i].success ensures start + i + 1 in SuccessFiles(init, start) {
        assert init[i] == results[i];
      }
    }
  }

  /** `save_batch_results(results, output_dir, batch_num, start_index)`: the
      count loop, the batch file, and the number of successes returned. */
  method SaveBatchResults(results: seq<CrawlResult>, batchNum: nat, start: nat) returns (successful: nat, file: BatchFile)
    ensures successful == CountSuccess(results)
    ensures file == SavedBatch(results, batchNum, start)
  {
    successful := 0;
    var files: seq<nat> := [];
    for i := 0 to |results|
      invariant successful == CountSuccess(results[..i])
      invariant files == SuccessFiles(results[..i], start)
    {
      assert results[..i + 1][..i] == results[..i];
      var fileIndex := start + i + 1;
      if results[i].success {
        successful := successful + 1;
        files := files + [fileIndex];
      }
    }
    assert results[..|results|] == results;
    file := BatchFile(batchNum, start + 1, start + |results|, |results|, successful, |results| - successful, files);
  }

  /** A batch file counts every result of its batch once: its successes and
      failures add up to its size, and its range covers exactly the records
      `start + 1 .. start + len(results)`. */
  lemma SavedBatchFacts(results: seq<CrawlResult>, batchNum: nat, start: nat)
    ensures var f := SavedBatch(results, batchNum, start);
      && f.successCount + f.failCount == f.size == |results|
      && f.last - f.first + 1 == |results|
      && |f.files| == f.successCount
  {
    SuccessFilesFacts(results, start);
  }

  // ---------------------------------------------------------------------
  // One batch, shared by the three runners
  // ---------------------------------------------------------------------

  /** The batch number a runner stamps on the results of window `b`: the
      checkpointed and resumable runners stamp `batch_num + 1`, the basic
      runner nothing. */
  function BatchStamp(stamped: bool, b: nat): Option<nat> {
    if stamped then Some(b + 1) else None
  }

  /** The results of a whole run over `items`, each stamped with the batch
      `i // batch_size + 1` it falls in, or not stamped. */
  function RunResults(items: seq<Item>, fetch: string -> FetchOutcome, bs: nat, stamped: bool): seq<CrawlResult>
    requires bs > 0
  {
    seq(|items|, i requires 0 <= i < |items| => ItemResult(items[i], fetch, StampOf(stamped, i, bs)))
  }

  /** The stamp of position `i`: `batch_num + 1` of the window it falls in. */
  function StampOf(stamped: bool, i: nat, bs: nat): Option<nat>
    requires bs > 0
  {
    if stamped then Some(i / bs + 1) else None
  }

  /** Every position of window `b` carries the stamp of batch `b + 1`. */
  lemma StampInWindow(stamped: bool, bs: nat, b: nat, j: nat)
    requires j < bs
    ensures StampOf(stamped, b * bs + j, bs) == BatchStamp(stamped, b)
  {
    DivInWindow(bs, b, j);
  }

  /** The results of window `b` processed on its own are window `b` of the
      run's results: every position in it belongs to batch `b + 1`. */
  lemma WindowOfRun(items: seq<Item>, fetch: string -> FetchOutcome, bs: nat, stamped: bool, b: nat)
    requires bs > 0 && b < NumBatches(|items|, bs)
    ensures WindowResults(Window(items, bs, b), fetch, BatchStamp(stamped, b)) == Window(RunResults(items, fetch, bs, stamped), bs, b)
  {
    var w := Window(items, bs, b);
    var lhs := WindowResults(w, fetch, BatchStamp(stamped, b));
    var r := RunResults(items, fetch, bs, stamped);
    var rhs := Window(r, bs, b);
    assert |r| == |items|;
    WindowLengths(items, bs, b);
    WindowLengths(r, bs, b);
    forall j | 0 <= j < |w| ensures lhs[j] == rhs[j] {
      WindowOfRunAt(items, fetch, bs, stamped, b, j);
    }
  }

  lemma WindowOfRunAt(items: seq<Item>, fetch: string -> FetchOutcome, bs: nat, stamped: bool, b: nat, j: nat)
    requires bs > 0 && b < NumBatches(|items|, bs) && j < |Window(items, bs, b)|
    ensures j < |Window(RunResults(items, fetch, bs, stamped), bs, b)|
    ensures WindowResults(Window(items, bs, b), fetch, BatchStamp(stamped, b))[j] == Window(RunResults(items, fetch, bs, stamped), bs, b)[j]
  {
    WindowFacts(|items|, bs, b);
    var i := b * bs + j;
    StampInWindow(stamped, bs, b, j);
    var r := RunResults(items, fetch, bs, stamped);
    assert Window(items, bs, b)[j] == items[i];
    assert Window(r, bs, b)[j] == r[i];
  }

  /** The calls of the windows before `b`, then those of window `b`, are
      those of the list up to the end of window `b`. */
  lemma CallsExtend(items: seq<Item>, bs: nat, b: nat, lo: nat)
    requires bs > 0 && b < NumBatches(|items|, bs) && lo <= Covered(|items|, bs, b)
    ensures Covered(|items|, bs, b) <= Covered(|items|, bs, b + 1)
    ensures FetchedUrls(items[lo..Covered(|items|, bs, b)]) + FetchedUrls(Window(items, bs, b))
         == FetchedUrls(items[lo..Covered(|items|, bs, b + 1)])
  {
    WindowExtends(items, bs, b, lo);
    FetchedUrlsAppend(items[lo..Covered(|items|, bs, b)], Window(items, bs, b));
  }

  /** The counters after appending one batch's results. */
  lemma CountersExtend(prior: seq<CrawlResult>, batch: seq<CrawlResult>, successful: nat, failed: nat)
    requires successful == CountSuccess(prior) && failed == |prior| - successful
    ensures successful + CountSuccess(batch) == CountSuccess(prior + batch)
    ensures failed + (|batch| - CountSuccess(batch)) == |prior + batch| - CountSuccess(prior + batch)
  {
    CountSuccessAppend(prior, batch);
  }

  /** The part of `for batch_num in range(total_batches)` the three runners
      share: window `b` is processed record by record with its results
      stamped as the runner does, the counters advance by the window's
      successes and failures, and the batch file is saved from
      `start_index = batch_num * batch_size`. */
  method ProcessBatch(items: seq<Item>, bs: nat, b: nat, fetch: string -> FetchOutcome, stamped: bool,
                      successful0: nat, failed0: nat)
    returns (batchResults: seq<CrawlResult>, batchCalls: seq<string>, successful: nat, failed: nat, file: BatchFile)
    requires bs > 0 && b < NumBatches(|items|, bs)
    ensures batchResults == Window(RunResults(items, fetch, bs, stamped), bs, b)
    ensures batchCalls == FetchedUrls(Window(items, bs, b))
    ensures successful == successful0 + CountSuccess(batchResults)
    ensures failed == failed0 + (|batchResults| - CountSuccess(batchResults))
    ensures file == SavedBatch(batchResults, b + 1, b * bs)
  {
    var n := |items|;
    var start := b * bs;
    var end := Min(start + bs, n);
    ProcessedAt(n, bs, b);
    WindowLengths(items, bs, b);
    var window := items[start..end];
    assert window == Window(items, bs, b);
    batchResults, batchCalls, successful, failed := RunWindow(window, BatchStamp(stamped, b), fetch, successful0, failed0);
    var batchSuccessful;
    batchSuccessful, file := SaveBatchResults(batchResults, b + 1, start);
    WindowOfRun(items, fetch, bs, stamped, b);
  }

  /** The batch files of the `m` windows of a run from window `k0` on. */
  function BatchFiles(final: seq<CrawlResult>, bs: nat, k0: nat, m: nat): seq<BatchFile>
    requires bs > 0 && (m == 0 || k0 + m <= NumBatches(|final|, bs))
  {
    seq(m, j requires 0 <= j < m => SavedBatch(Window(final, bs, k0 + j), k0 + j + 1, (k0 + j) * bs))
  }

  lemma BatchFilesStep(final: seq<CrawlResult>, bs: nat, k0: nat, m: nat)
    requires bs > 0 && k0 + m < NumBatches(|final|, bs)
    ensures BatchFiles(final, bs, k0, m + 1)
         == BatchFiles(final, bs, k0, m) + [SavedBatch(Window(final, bs, k0 + m), k0 + m + 1, (k0 + m) * bs)]
  {
  }

  /** The files saved so far, then the file of the next window. */
  lemma FilesStep(final: seq<CrawlResult>, bs: nat, k0: nat, m: nat, files: seq<BatchFile>, file: BatchFile)
    requires bs > 0 && k0 + m < NumBatches(|final|, bs)
    requires files == BatchFiles(final, bs, k0, m)
    requires file == SavedBatch(Window(final, bs, k0 + m), k0 + m + 1, (k0 + m) * bs)
    ensures files + [file] == BatchFiles(final, bs, k0, m + 1)
  {
    BatchFilesStep(final, bs, k0, m);
  }

  /** One pass of `for batch_num in range(total_batches)` from a fresh
      start, up to the progress log write: the results, calls and counters
      that cover the windows before `b` come to cover window `b` too. */
  method ExtendBatch(items: seq<Item>, bs: nat, b: nat, fetch: string -> FetchOutcome, stamped: bool,
                     allResults0: seq<CrawlResult>, calls0: seq<string>, successful0: nat, failed0: nat)
    returns (allResults: seq<CrawlResult>, calls: seq<string>, successful: nat, failed: nat, file: BatchFile)
    requires bs > 0 && b < NumBatches(|items|, bs)
    requires allResults0 == RunResults(items, fetch, bs, stamped)[..Covered(|items|, bs, b)]
    requires calls0 == FetchedUrls(items[..Covered(|items|, bs, b)])
    requires successful0 == CountSuccess(allResults0) && failed0 == |allResults0| - successful0
    ensures allResults == RunResults(items, fetch, bs, stamped)[..Covered(|items|, bs, b + 1)]
    ensures calls == FetchedUrls(items[..Covered(|items|, bs, b + 1)])
    ensures successful == CountSuccess(allResults) && failed == |allResults| - successful
    ensures file == SavedBatch(Window(RunResults(items, fetch, bs, stamped), bs, b), b + 1, b * bs)
  {
    ghost var final := RunResults(items, fetch, bs, stamped);
    var batchResults, batchCalls;
    batchResults, batchCalls, successful, failed, file := ProcessBatch(items, bs, b, fetch, stamped, successful0, failed0);
    allResults := allResults0 + batchResults;
    calls := calls0 + batchCalls;
    assert allResults == final[..Covered(|items|, bs, b + 1)] by {
      WindowExtends(final, bs, b, 0);
    }
    assert calls == FetchedUrls(items[..Covered(|items|, bs, b + 1)]) by {
      CallsExtend(items, bs, b, 0);
    }
    assert successful == CountSuccess(allResults) && failed == |allResults| - successful by {
      CountersExtend(allResults0, batchResults, successful0, failed0);
    }
  }

  /** `processed_count = end_index` is what the first `b + 1` windows cover. */
  lemma ProcessedAt(n: nat, bs: nat, b: nat)
    requires bs > 0 && b < NumBatches(n, bs)
    ensures Min(b * bs + bs, n) == WindowEnd(n, bs, b) == Covered(n, bs, b + 1)
  {
    WindowFacts(n, bs, b);
  }

  // ---------------------------------------------------------------------
  // The basic runner (get_content_jyxx.py)
  // ---------------------------------------------------------------------

  /** `save_progress_log` of the basic runner after window `b` of a run whose
      results are `final`: the records processed so far and the counters
      over their results. */
  function BasicCheckpoint(final: seq<CrawlResult>, bs: nat, b: nat, now: string): ProgressLog {
    var e := WindowEnd(|final|, bs, b);
    var ok := CountSuccess(final[..e]);
    BasicProgressLog(e, |final|, ok, e - ok, now)
  }

  /** The checkpoints after each of the first `k` windows. */
  function Checkpoints(final: seq<CrawlResult>, bs: nat, k: nat, now: string): seq<ProgressLog> {
    seq(k, c requires 0 <= c < k => BasicCheckpoint(final, bs, c, now))
  }

  /** The checkpoints written so far, then the checkpoint of the next window. */
  lemma CheckpointsStep(final: seq<CrawlResult>, bs: nat, k: nat, now: string, logs: seq<ProgressLog>, log: ProgressLog)
    requires logs == Checkpoints(final, bs, k, now) && log == BasicCheckpoint(final, bs, k, now)
    ensures logs + [log] == Checkpoints(final, bs, k + 1, now)
  {
  }

  /** The checkpoints of a run advance with every window and never pass
      the end of the list. */
  lemma CheckpointsAdvance(final: seq<CrawlResult>, bs: nat, b: nat, c: nat, now: string)
    requires bs > 0 && b < c < NumBatches(|final|, bs)
    ensures BasicCheckpoint(final, bs, b, now).processedCount < BasicCheckpoint(final, bs, c, now).processedCount
    ensures BasicCheckpoint(final, bs, c, now).processedCount <= |final|
  {
    EndsAscend(|final|, bs, b, c);
  }

  /** The checkpoint of window `b` counts every processed record as a
      success or a failure, and the last checkpoint covers the whole list. */
  lemma CheckpointCounts(final: seq<CrawlResult>, bs: nat, b: nat, now: string)
    requires bs > 0 && b < NumBatches(|final|, bs)
    ensures var p := BasicCheckpoint(final, bs, b, now);
      && p.successfulCount + p.failedCount == p.processedCount
      && p.totalCount == |final|
      && (b + 1 == NumBatches(|final|, bs) ==> p.processedCount == |final| && p.successfulCount == CountSuccess(final))
  {
    WindowFacts(|final|, bs, b);
    assert final[..|final|] == final;
  }

  /** The log the basic runner writes after window `b` from its counters
      is the checkpoint of window `b`. */
  lemma BasicLogAt(final: seq<CrawlResult>, bs: nat, b: nat, now: string, successful: nat, failed: nat)
    requires bs > 0 && b < NumBatches(|final|, bs)
    requires successful == CountSuccess(final[..Covered(|final|, bs, b + 1)])
    requires failed == Covered(|final|, bs, b + 1) - successful
    ensures BasicProgressLog(Min(b * bs + bs, |final|), |final|, successful, failed, now) == BasicCheckpoint(final, bs, b, now)
  {
    ProcessedAt(|final|, bs, b);
  }

  /** One pass of `for batch_num in range(total_batches)` of the basic
      runner: window `b` is processed and appended, and the log written is
      the checkpoint of window `b`. */
  method BasicBatch(items: seq<Item>, bs: nat, b: nat, fetch: string -> FetchOutcome, now: string,
                    allResults0: seq<CrawlResult>, calls0: seq<string>, successful0: nat, failed0: nat)
    returns (allResults: seq<CrawlResult>, calls: seq<string>, successful: nat, failed: nat,
             file: BatchFile, log: ProgressLog)
    requires bs > 0 && b < NumBatches(|items|, bs)
    requires allResults0 == RunResults(items, fetch, bs, false)[..Covered(|items|, bs, b)]
    requires calls0 == FetchedUrls(items[..Covered(|items|, bs, b)])
    requires successful0 == CountSuccess(allResults0) && failed0 == |allResults0| - successful0
    ensures allResults == RunResults(items, fetch, bs, false)[..Covered(|items|, bs, b + 1)]
    ensures calls == FetchedUrls(items[..Covered(|items|, bs, b + 1)])
    ensures successful == CountSuccess(allResults) && failed == |allResults| - successful
    ensures file == SavedBatch(Window(RunResults(items, fetch, bs, false), bs, b), b + 1, b * bs)
    ensures log == BasicCheckpoint(RunResults(items, fetch, bs, false), bs, b, now)
  {
    var n := |items|;
    allResults, calls, successful, failed, file := ExtendBatch(items, bs, b, fetch, false, allResults0, calls0, successful0, failed0);
    var processed := Min(b * bs + bs, n);
    log := BasicProgressLog(processed, n, successful, failed, now);
    BasicLogAt(RunResults(items, fetch, bs, false), bs, b, now, successful, failed);
  }

  /** The checkpoints and the batch files of the first `b` windows. */
  ghost predicate BasicWritten(final: seq<CrawlResult>, bs: nat, b: nat, now: string,
                               logs: seq<ProgressLog>, files: seq<BatchFile>)
    requires bs > 0 && b <= NumBatches(|final|, bs)
  {
    logs == Checkpoints(final, bs, b, now) && files == BatchFiles(final, bs, 0, b)
  }

  lemma BasicWrittenStep(final: seq<CrawlResult>, bs: nat, b: nat, now: string,
                         logs: seq<ProgressLog>, files: seq<BatchFile>, log: ProgressLog, file: BatchFile)
    requires bs > 0 && b < NumBatches(|final|, bs) && BasicWritten(final, bs, b, now, logs, files)
    requires log == BasicCheckpoint(final, bs, b, now)
    requires file == SavedBatch(Window(final, bs, b), b + 1, b * bs)
    ensures BasicWritten(final, bs, b + 1, now, logs + [log], files + [file])
  {
    FilesStep(final, bs, 0, b, files, file);
    CheckpointsStep(final, bs, b, now, logs, log);
  }

  /** `for batch_num in range(total_batches)` of the basic runner: every
      window processed in order, one batch file and one checkpoint each. */
  method BasicBatches(items: seq<Item>, bs: nat, fetch: string -> FetchOutcome, now: string)
    returns (allResults: seq<CrawlResult>, calls: seq<string>, logs: seq<ProgressLog>, files: seq<BatchFile>)
    requires bs > 0
    ensures allResults == RunResults(items, fetch, bs, false)
    ensures calls == FetchedUrls(items)
    ensures logs == Checkpoints(allResults, bs, NumBatches(|items|, bs), now)
    ensures files == BatchFiles(allResults, bs, 0, NumBatches(|items|, bs))
  {
    var n := |items|;
    allResults, calls, logs, files := [], [], [], [];
    var total := NumBatches(n, bs);
    var successful: nat, failed: nat := 0, 0;
    ghost var final := RunResults(items, fetch, bs, false);
    for b := 0 to total
      invariant allResults == final[..Covered(n, bs, b)]
      invariant calls == FetchedUrls(items[..Covered(n, bs, b)])
      invariant successful == CountSuccess(allResults) && failed == |allResults| - successful
      invariant BasicWritten(final, bs, b, now, logs, files)
    {
      var file, log;
      allResults, calls, successful, failed, file, log := BasicBatch(items, bs, b, fetch, now, allResults, calls, successful, failed);
      BasicWrittenStep(final, bs, b, now, logs, files, log, file);
      logs := logs + [log];
      files := files + [file];
    }
    CoveredAll(n, bs);
    assert final[..n] == final;
    assert items[..n] == items;
  }

  /** `crawl_multiple_webpages_to_markdown(url_list, batch_size)` of the basic
      runner: every record processed once and in order, the fetch called
      exactly for the records with a URL, one batch file and one checkpoint
      per window; an empty list returns at once. */
  method RunBasic(items: seq<Item>, bs: nat, fetch: string -> FetchOutcome, now: string)
    returns (allResults: seq<CrawlResult>, calls: seq<string>, logs: seq<ProgressLog>, files: seq<BatchFile>)
    requires bs > 0
    ensures allResults == RunResults(items, fetch, bs, false)
    ensures calls == FetchedUrls(items)
    ensures logs == Checkpoints(allResults, bs, NumBatches(|items|, bs), now)
    ensures files == BatchFiles(allResults, bs, 0, NumBatches(|items|, bs))
    ensures |items| == 0 ==> logs == [] && files == []
  {
    if |items| == 0 {
      return [], [], [], [];
    }
    allResults, calls, logs, files := BasicBatches(items, bs, fetch, now);
  }

  // ---------------------------------------------------------------------
  // The checkpointed runner (safe_get_content.py)
  // ---------------------------------------------------------------------

  /** `save_progress_log` of the checkpointed runner after window `k` of a
      run whose results are `final`, over the log `prev` it finds on disk;
      `k == total_batches` is the closing write after the loop.  Only the
      last window's write and the closing write carry an end time. */
  function TimedCheckpoint(prev: ProgressLog, final: seq<CrawlResult>, bs: nat, k: nat, now: string): ProgressLog
    requires bs > 0
  {
    var nb := NumBatches(|final|, bs);
    var e := if k < nb then WindowEnd(|final|, bs, k) else |final|;
    var ok := CountSuccess(final[..e]);
    TimedProgressLog(Stored(prev), e, |final|, ok, e - ok, None, if k + 1 >= nb then Some(now) else None, now)
  }

  /** Every write after the first is the checkpoint of its position over
      the write before it. */
  predicate TimedChain(logs: seq<ProgressLog>, final: seq<CrawlResult>, bs: nat, now: string)
    requires bs > 0
  {
    forall k :: 0 <= k < |logs| - 1 ==> logs[k + 1] == TimedCheckpoint(logs[k], final, bs, k, now)
  }

  lemma TimedChainStep(logs: seq<ProgressLog>, final: seq<CrawlResult>, bs: nat, now: string)
    requires bs > 0 && |logs| > 0 && TimedChain(logs, final, bs, now)
    ensures TimedChain(logs + [TimedCheckpoint(logs[|logs| - 1], final, bs, |logs| - 1, now)], final, bs, now)
  {
  }

  /** The start time of the first write is kept by every later one. */
  lemma {:induction false} TimedChainStart(logs: seq<ProgressLog>, final: seq<CrawlResult>, bs: nat, now: string, k: nat)
    requires bs > 0 && TimedChain(logs, final, bs, now) && k < |logs|
    ensures logs[k].startTime == logs[0].startTime
  {
    if k > 0 {
      TimedChainStart(logs, final, bs, now, k - 1);
      assert logs[k] == TimedCheckpoint(logs[k - 1], final, bs, k - 1, now);
    }
  }

  /** What write `k > 0` of a checkpointed run records: after window
      `k - 1` the records up to the end of that window, each counted once as
      a success or a failure; the end time and the completion flag only from
      the last window on; and the closing write the whole list. */
  lemma TimedWriteFacts(logs: seq<ProgressLog>, final: seq<CrawlResult>, bs: nat, now: string, k: nat)
    requires bs > 0 && |final| > 0 && TimedChain(logs, final, bs, now)
    requires |logs| == NumBatches(|final|, bs) + 2 && 0 < k < |logs|
    ensures logs[k].successfulCount + logs[k].failedCount == logs[k].processedCount
    ensures k < |logs| - 1 ==> logs[k].processedCount == WindowEnd(|final|, bs, k - 1)
    ensures k == |logs| - 1 ==> logs[k].processedCount == |final| && logs[k].successfulCount == CountSuccess(final)
    ensures logs[k].endTime == Some(now) <==> k >= NumBatches(|final|, bs)
    ensures logs[k].isCompleted == Flag(true) <==> k >= NumBatches(|final|, bs)
  {
    var nb := NumBatches(|final|, bs);
    assert logs[k] == TimedCheckpoint(logs[k - 1], final, bs, k - 1, now);
    if k - 1 < nb {
      WindowFacts(|final|, bs, k - 1);
    } else {
      assert final[..|final|] == final;
    }
  }

  /** The log the checkpointed runner writes after window `b` from its
      counters is the checkpoint of window `b`. */
  lemma TimedLogAt(prev: ProgressLog, final: seq<CrawlResult>, bs: nat, b: nat, now: string, successful: nat, failed: nat)
    requires bs > 0 && b < NumBatches(|final|, bs)
    requires successful == CountSuccess(final[..Covered(|final|, bs, b + 1)])
    requires failed == Covered(|final|, bs, b + 1) - successful
    ensures TimedProgressLog(Stored(prev), Min(b * bs + bs, |final|), |final|, successful, failed, None,
                             if b == NumBatches(|final|, bs) - 1 then Some(now) else None, now)
         == TimedCheckpoint(prev, final, bs, b, now)
  {
    ProcessedAt(|final|, bs, b);
  }

  /** One pass of `for batch_num in range(total_batches)` of the
      checkpointed runner: window `b` is processed and appended with its
      results stamped, and the log written over `prev` is the checkpoint of
      window `b`. */
  method TimedBatch(items: seq<Item>, bs: nat, b: nat, fetch: string -> FetchOutcome, now: string, prev: ProgressLog,
                    allResults0: seq<CrawlResult>, calls0: seq<string>, successful0: nat, failed0: nat)
    returns (allResults: seq<CrawlResult>, calls: seq<string>, successful: nat, failed: nat,
             file: BatchFile, log: ProgressLog)
    requires bs > 0 && b < NumBatches(|items|, bs)
    requires allResults0 == RunResults(items, fetch, bs, true)[..Covered(|items|, bs, b)]
    requires calls0 == FetchedUrls(items[..Covered(|items|, bs, b)])
    requires successful0 == CountSuccess(allResults0) && failed0 == |allResults0| - successful0
    ensures allResults == RunResults(items, fetch, bs, true)[..Covered(|items|, bs, b + 1)]
    ensures calls == FetchedUrls(items[..Covered(|items|, bs, b + 1)])
    ensures successful == CountSuccess(allResults) && failed == |allResults| - successful
    ensures file == SavedBatch(Window(RunResults(items, fetch, bs, true), bs, b), b + 1, b * bs)
    ensures log == TimedCheckpoint(prev, RunResults(items, fetch, bs, true), bs, b, now)
  {
    var n := |items|;
    allResults, calls, successful, failed, file := ExtendBatch(items, bs, b, fetch, true, allResults0, calls0, successful0, failed0);
    var processed := Min(b * bs + bs, n);
    var isFinalBatch := b == NumBatches(n, bs) - 1;
    log := TimedProgressLog(Stored(prev), processed, n, successful, failed, None, if isFinalBatch then Some(now) else None, now);
    TimedLogAt(prev, RunResults(items, fetch, bs, true), bs, b, now, successful, failed);
  }

  /** The closing write after the loop is the checkpoint past the last window. */
  lemma TimedClosing(prev: ProgressLog, final: seq<CrawlResult>, bs: nat, now: string, successful: nat, failed: nat)
    requires bs > 0 && successful == CountSuccess(final) && failed == |final| - successful
    ensures TimedProgressLog(Stored(prev), |final|, |final|, successful, failed, None, Some(now), now)
         == TimedCheckpoint(prev, final, bs, NumBatches(|final|, bs), now)
  {
    assert final[..|final|] == final;
  }

  /** The batch loop of the checkpointed runner from the opening write
      `first`: one write per window, each the checkpoint of its window over
      the write before it. */
  method TimedBatches(items: seq<Item>, bs: nat, fetch: string -> FetchOutcome, now: string, first: ProgressLog)
    returns (allResults: seq<CrawlResult>, calls: seq<string>, logs: seq<ProgressLog>, files: seq<BatchFile>,
             successful: nat, failed: nat)
    requires bs > 0
    ensures allResults == RunResults(items, fetch, bs, true)
    ensures calls == FetchedUrls(items)
    ensures files == BatchFiles(allResults, bs, 0, NumBatches(|items|, bs))
    ensures |logs| == NumBatches(|items|, bs) + 1 && logs[0] == first
    ensures TimedChain(logs, allResults, bs, now)
    ensures successful == CountSuccess(allResults) && failed == |allResults| - successful
  {
    var n := |items|;
    allResults, calls, logs, files := [], [], [first], [];
    var total := NumBatches(n, bs);
    successful, failed := 0, 0;
    ghost var final := RunResults(items, fetch, bs, true);
    for b := 0 to total
      invariant allResults == final[..Covered(n, bs, b)]
      invariant calls == FetchedUrls(items[..Covered(n, bs, b)])
      invariant successful == CountSuccess(allResults) && failed == |allResults| - successful
      invariant files == BatchFiles(final, bs, 0, b)
      invariant |logs| == b + 1 && logs[0] == first
      invariant TimedChain(logs, final, bs, now)
    {
      var file, log;
      allResults, calls, successful, failed, file, log :=
        TimedBatch(items, bs, b, fetch, now, logs[|logs| - 1], allResults, calls, successful, failed);
      FilesStep(final, bs, 0, b, files, file);
      TimedChainStep(logs, final, bs, now);
      logs := logs + [log];
      files := files + [file];
    }
    CoveredAll(n, bs);
    assert final[..n] == final;
    assert items[..n] == items;
  }

  /** `crawl_multiple_webpages_to_markdown(url_list, batch_size)` of the
      checkpointed runner: the results and calls of the basic runner with
      every result stamped with its batch number, and a chain of progress
      log writes: the opening one with the start time, one per window, and
      the closing one.  An empty list writes nothing. */
  method RunCheckpointed(items: seq<Item>, bs: nat, fetch: string -> FetchOutcome, existing: LogFile, now: string)
    returns (allResults: seq<CrawlResult>, calls: seq<string>, logs: seq<ProgressLog>, files: seq<BatchFile>)
    requires bs > 0
    ensures allResults == RunResults(items, fetch, bs, true)
    ensures calls == FetchedUrls(items)
    ensures files == BatchFiles(allResults, bs, 0, NumBatches(|items|, bs))
    ensures |items| == 0 ==> logs == []
    ensures |items| > 0 ==> |logs| == NumBatches(|items|, bs) + 2
    ensures |items| > 0 ==> logs[0] == TimedProgressLog(existing, 0, |items|, 0, 0, Some(now), None, now)
    ensures TimedChain(logs, allResults, bs, now)
  {
    var n := |items|;
    if n == 0 {
      return [], [], [], [];
    }
    var startTime := now;
    var opening := TimedProgressLog(existing, 0, n, 0, 0, Some(startTime), None, now);
    var successful, failed;
    allResults, calls, logs, files, successful, failed := TimedBatches(items, bs, fetch, now, opening);
    var closing := TimedProgressLog(Stored(logs[|logs| - 1]), n, n, successful, failed, None, Some(now), now);
    TimedClosing(logs[|logs| - 1], allResults, bs, now, successful, failed);
    TimedChainStep(logs, allResults, bs, now);
    logs := logs + [closing];
  }

  // ---------------------------------------------------------------------
  // The resumable runner (test11.py)
  // ---------------------------------------------------------------------

  const PreviousRun: string := "Previous Run"

  /** The result the resumable runner appends for position `i`, processed by
      an earlier run: a success stamped with the batch of `i`, named after
      the record when the list has one there and after its position
      otherwise. */
  function Placeholder(items: seq<Item>, bs: nat, i: nat): CrawlResult
    requires bs > 0
  {
    var dummy := if i < |items| then items[i] else Item(None, None, None);
    CrawlResult(true, dummy.source.GetOr(PreviousRun), dummy.name.GetOr("Dummy URL " + NatToString(i + 1)),
                dummy.finalUrl.GetOr("dummy_url_" + NatToString(i + 1)), None, StampOf(true, i, bs))
  }

  /** The placeholders for the first `start` positions. */
  function Placeholders(items: seq<Item>, bs: nat, start: nat): seq<CrawlResult>
    requires bs > 0
  {
    seq(start, i requires 0 <= i < start => Placeholder(items, bs, i))
  }

  /** `all_results` of a resumed run that processes every window from the
      one holding `start` on: the placeholders, then the results of an
      uninterrupted run from that window's first record. */
  function ResumedResults(items: seq<Item>, fetch: string -> FetchOutcome, bs: nat, start: nat): seq<CrawlResult>
    requires bs > 0
  {
    Placeholders(items, bs, start) + RunResults(items, fetch, bs, true)[Covered(|items|, bs, start / bs)..]
  }

  /** `for i in range(start_index_for_crawl): all_results.append({...})`. */
  method MakePlaceholders(items: seq<Item>, bs: nat, start: nat) returns (rs: seq<CrawlResult>)
    requires bs > 0
    ensures rs == Placeholders(items, bs, start)
  {
    rs := [];
    for i := 0 to start
      invariant |rs| == i
      invariant forall k :: 0 <= k < i ==> rs[k] == Placeholder(items, bs, k)
    {
      rs := rs + [Placeholder(items, bs, i)];
    }
  }

  /** Every placeholder counts as a success, whatever the earlier run found. */
  lemma {:induction false} PlaceholdersSucceed(items: seq<Item>, bs: nat, start: nat)
    requires bs > 0
    ensures CountSuccess(Placeholders(items, bs, start)) == start
  {
    if start > 0 {
      var ps := Placeholders(items, bs, start);
      assert ps[..start - 1] == Placeholders(items, bs, start - 1);
      PlaceholdersSucceed(items, bs, start - 1);
    }
  }

  /** Where the batch loop of a resumable run starts from: the batch
      `processed_count // batch_size`, the processed count and the two
      counters, as loaded or zero. */
  datatype ResumePoint = ResumePoint(batch: nat, start: nat, successful: nat, failed: nat)

  function ResumeFrom(loaded: Option<(ProgressLog, string)>, bs: nat): ResumePoint
    requires bs > 0
  {
    match loaded
    case Some((p, _)) => ResumePoint(p.processedCount / bs, p.processedCount, p.successfulCount, p.failedCount)
    case None => ResumePoint(0, 0, 0, 0)
  }

  /** `save_progress_log` of the resumable runner over the log `prev` it
      finds on disk, after the `j + 1`-th window of the session that starts
      at `rp`; `j == Remaining` is the closing write after the loop.  The
      processed count is the length of `all_results`: the placeholders and
      the windows of this session. */
  function ResumedCheckpoint(prev: ProgressLog, final: seq<CrawlResult>, bs: nat, rp: ResumePoint, j: nat,
                             dir: string, now: string): ProgressLog
    requires bs > 0
  {
    var m := Remaining(|final|, bs, rp.batch);
    var done := Session(final, bs, rp.batch, if j < m then j + 1 else m);
    var ok := CountSuccess(done);
    NamedProgressLog(Stored(prev), if j < m then rp.start + |done| else |final|, |final|, rp.successful + ok,
                     rp.failed + (|done| - ok), None, if j + 1 >= m then Some(now) else None, Some(dir), now)
  }

  /** Every log after the first is the checkpoint of its position over the
      log before it; the first is the log on disk when the batch loop
      starts, the opening write or the loaded log. */
  predicate ResumedChain(logs: seq<ProgressLog>, final: seq<CrawlResult>, bs: nat, rp: ResumePoint, dir: string,
                         now: string)
    requires bs > 0
  {
    forall k :: 0 <= k < |logs| - 1 ==> logs[k + 1] == ResumedCheckpoint(logs[k], final, bs, rp, k, dir, now)
  }

  lemma ResumedChainStep(logs: seq<ProgressLog>, final: seq<CrawlResult>, bs: nat, rp: ResumePoint, dir: string,
                         now: string)
    requires bs > 0 && |logs| > 0 && ResumedChain(logs, final, bs, rp, dir, now)
    ensures ResumedChain(logs + [ResumedCheckpoint(logs[|logs| - 1], final, bs, rp, |logs| - 1, dir, now)],
                         final, bs, rp, dir, now)
  {
  }

  /** The log the resumable runner writes after the `j + 1`-th window of
      its session from its counters is the checkpoint of that window. */
  lemma ResumedLogAt(prev: ProgressLog, final: seq<CrawlResult>, bs: nat, rp: ResumePoint, j: nat, dir: string,
                     now: string, processed: nat, successful: nat, failed: nat)
    requires bs > 0 && j < Remaining(|final|, bs, rp.batch)
    requires processed == rp.start + |Session(final, bs, rp.batch, j + 1)|
    requires successful == rp.successful + CountSuccess(Session(final, bs, rp.batch, j + 1))
    requires failed == rp.failed + (|Session(final, bs, rp.batch, j + 1)| - CountSuccess(Session(final, bs, rp.batch, j + 1)))
    ensures NamedProgressLog(Stored(prev), processed, |final|, successful, failed, None,
                             if rp.batch + j == NumBatches(|final|, bs) - 1 then Some(now) else None, Some(dir), now)
         == ResumedCheckpoint(prev, final, bs, rp, j, dir, now)
  {
  }

  /** One pass of `for batch_num_idx in range(current_batch_start_index,
      total_batches)` up to the progress log write: the `j + 1`-th window of
      the session is processed and appended after the placeholders `prefix`
      and the windows before it, and the counters go on from those loaded. */
  method ExtendSession(items: seq<Item>, bs: nat, fetch: string -> FetchOutcome, rp: ResumePoint, j: nat,
                       ghost prefix: seq<CrawlResult>,
                       allResults0: seq<CrawlResult>, calls0: seq<string>, successful0: nat, failed0: nat)
    returns (allResults: seq<CrawlResult>, calls: seq<string>, successful: nat, failed: nat, file: BatchFile)
    requires bs > 0 && j < Remaining(|items|, bs, rp.batch)
    requires allResults0 == prefix + Session(RunResults(items, fetch, bs, true), bs, rp.batch, j)
    requires calls0 == FetchedUrls(Session(items, bs, rp.batch, j))
    requires successful0 == rp.successful + CountSuccess(Session(RunResults(items, fetch, bs, true), bs, rp.batch, j))
    requires failed0 == rp.failed + (|Session(RunResults(items, fetch, bs, true), bs, rp.batch, j)|
                                     - CountSuccess(Session(RunResults(items, fetch, bs, true), bs, rp.batch, j)))
    ensures allResults == prefix + Session(RunResults(items, fetch, bs, true), bs, rp.batch, j + 1)
    ensures calls == FetchedUrls(Session(items, bs, rp.batch, j + 1))
    ensures successful == rp.successful + CountSuccess(Session(RunResults(items, fetch, bs, true), bs, rp.batch, j + 1))
    ensures failed == rp.failed + (|Session(RunResults(items, fetch, bs, true), bs, rp.batch, j + 1)|
                                   - CountSuccess(Session(RunResults(items, fetch, bs, true), bs, rp.batch, j + 1)))
    ensures file == SavedBatch(Window(RunResults(items, fetch, bs, true), bs, rp.batch + j), rp.batch + j + 1, (rp.batch + j) * bs)
  {
    var b := rp.batch + j;
    ghost var final := RunResults(items, fetch, bs, true);
    var batchResults, batchCalls;
    batchResults, batchCalls, successful, failed, file := ProcessBatch(items, bs, b, fetch, true, successful0, failed0);
    allResults := allResults0 + batchResults;
    calls := calls0 + batchCalls;
    ResultsStep(final, bs, rp.batch, j, prefix, allResults0, batchResults);
    CallsStep(items, bs, rp.batch, j, calls0, batchCalls);
    CountersStep(final, bs, rp, j, batchResults, successful0, failed0);
  }

  lemma ResultsStep(final: seq<CrawlResult>, bs: nat, k0: nat, j: nat, prefix: seq<CrawlResult>,
                    allResults0: seq<CrawlResult>, batch: seq<CrawlResult>)
    requires bs > 0 && k0 + j < NumBatches(|final|, bs)
    requires allResults0 == prefix + Session(final, bs, k0, j) && batch == Window(final, bs, k0 + j)
    ensures allResults0 + batch == prefix + Session(final, bs, k0, j + 1)
  {
    SessionExtends(final, bs, k0, j);
    assert allResults0 + batch == prefix + (Session(final, bs, k0, j) + batch);
  }

  lemma CallsStep(items: seq<Item>, bs: nat, k0: nat, j: nat, calls0: seq<string>, batchCalls: seq<string>)
    requires bs > 0 && k0 + j < NumBatches(|items|, bs)
    requires calls0 == FetchedUrls(Session(items, bs, k0, j)) && batchCalls == FetchedUrls(Window(items, bs, k0 + j))
    ensures calls0 + batchCalls == FetchedUrls(Session(items, bs, k0, j + 1))
  {
    SessionExtends(items, bs, k0, j);
    FetchedUrlsAppend(Session(items, bs, k0, j), Window(items, bs, k0 + j));
  }

  /** The counters after appending one window to the session's results. */
  lemma CountersStep(final: seq<CrawlResult>, bs: nat, rp: ResumePoint, j: nat, batch: seq<CrawlResult>,
                     successful: nat, failed: nat)
    requires bs > 0 && rp.batch + j < NumBatches(|final|, bs) && batch == Window(final, bs, rp.batch + j)
    requires successful == rp.successful + CountSuccess(Session(final, bs, rp.batch, j))
    requires failed == rp.failed + (|Session(final, bs, rp.batch, j)| - CountSuccess(Session(final, bs, rp.batch, j)))
    ensures successful + CountSuccess(batch) == rp.successful + CountSuccess(Session(final, bs, rp.batch, j + 1))
    ensures failed + (|batch| - CountSuccess(batch))
         == rp.failed + (|Session(final, bs, rp.batch, j + 1)| - CountSuccess(Session(final, bs, rp.batch, j + 1)))
  {
    SessionExtends(final, bs, rp.batch, j);
    CountSuccessAppend(Session(final, bs, rp.batch, j), batch);
  }

  /** One pass of the resumable batch loop: the window is processed as in
      `ExtendSession`, and the log written over `prev` is the checkpoint of
      that window. */
  method ResumedBatch(items: seq<Item>, bs: nat, fetch: string -> FetchOutcome, now: string, dir: string,
                      rp: ResumePoint, j: nat, prev: ProgressLog, ghost prefix: seq<CrawlResult>,
                      allResults0: seq<CrawlResult>, calls0: seq<string>, successful0: nat, failed0: nat)
    returns (allResults: seq<CrawlResult>, calls: seq<string>, successful: nat, failed: nat,
             file: BatchFile, log: ProgressLog)
    requires bs > 0 && j < Remaining(|items|, bs, rp.batch) && |prefix| == rp.start
    requires allResults0 == prefix + Session(RunResults(items, fetch, bs, true), bs, rp.batch, j)
    requires calls0 == FetchedUrls(Session(items, bs, rp.batch, j))
    requires successful0 == rp.successful + CountSuccess(Session(RunResults(items, fetch, bs, true), bs, rp.batch, j))
    requires failed0 == rp.failed + (|Session(RunResults(items, fetch, bs, true), bs, rp.batch, j)|
                                     - CountSuccess(Session(RunResults(items, fetch, bs, true), bs, rp.batch, j)))
    ensures allResults == prefix + Session(RunResults(items, fetch, bs, true), bs, rp.batch, j + 1)
    ensures calls == FetchedUrls(Session(items, bs, rp.batch, j + 1))
    ensures successful == rp.successful + CountSuccess(Session(RunResults(items, fetch, bs, true), bs, rp.batch, j + 1))
    ensures failed == rp.failed + (|Session(RunResults(items, fetch, bs, true), bs, rp.batch, j + 1)|
                                   - CountSuccess(Session(RunResults(items, fetch, bs, true), bs, rp.batch, j + 1)))
    ensures file == SavedBatch(Window(RunResults(items, fetch, bs, true), bs, rp.batch + j), rp.batch + j + 1, (rp.batch + j) * bs)
    ensures log == ResumedCheckpoint(prev, RunResults(items, fetch, bs, true), bs, rp, j, dir, now)
  {
    var n := |items|;
    allResults, calls, successful, failed, file := ExtendSession(items, bs, fetch, rp, j, prefix, allResults0, calls0, successful0, failed0);
    var isFinalBatch := rp.batch + j == NumBatches(n, bs) - 1;
    log := NamedProgressLog(Stored(prev), |allResults|, n, successful, failed, None,
                            if isFinalBatch then Some(now) else None, Some(dir), now);
    ResumedLogAt(prev, RunResults(items, fetch, bs, true), bs, rp, j, dir, now, |allResults|, successful, failed);
  }

  /** The closing write after the loop is the checkpoint past the session's last window. */
  lemma ResumedClosing(prev: ProgressLog, final: seq<CrawlResult>, bs: nat, rp: ResumePoint, dir: string,
                       now: string, successful: nat, failed: nat)
    requires bs > 0
    requires successful == rp.successful + CountSuccess(Session(final, bs, rp.batch, Remaining(|final|, bs, rp.batch)))
    requires failed == rp.failed + (|Session(final, bs, rp.batch, Remaining(|final|, bs, rp.batch))|
                                    - CountSuccess(Session(final, bs, rp.batch, Remaining(|final|, bs, rp.batch))))
    ensures NamedProgressLog(Stored(prev), |final|, |final|, successful, failed, None, Some(now), Some(dir), now)
         == ResumedCheckpoint(prev, final, bs, rp, Remaining(|final|, bs, rp.batch), dir, now)
  {
  }

  /** The batch loop of the resumable runner from the resume point `rp`,
      after the placeholders `prefix`, with the log `first` on disk: one
      write per window left, each the checkpoint of its window over the log
      before it. */
  method ResumedBatches(items: seq<Item>, bs: nat, fetch: string -> FetchOutcome, now: string, dir: string,
                        rp: ResumePoint, first: ProgressLog, prefix: seq<CrawlResult>)
    returns (allResults: seq<CrawlResult>, calls: seq<string>, logs: seq<ProgressLog>, files: seq<BatchFile>,
             successful: nat, failed: nat)
    requires bs > 0 && |prefix| == rp.start
    ensures allResults == prefix + Session(RunResults(items, fetch, bs, true), bs, rp.batch, Remaining(|items|, bs, rp.batch))
    ensures calls == FetchedUrls(Session(items, bs, rp.batch, Remaining(|items|, bs, rp.batch)))
    ensures files == BatchFiles(RunResults(items, fetch, bs, true), bs, rp.batch, Remaining(|items|, bs, rp.batch))
    ensures |logs| == Remaining(|items|, bs, rp.batch) + 1 && logs[0] == first
    ensures ResumedChain(logs, RunResults(items, fetch, bs, true), bs, rp, dir, now)
    ensures successful == rp.successful
                          + CountSuccess(Session(RunResults(items, fetch, bs, true), bs, rp.batch, Remaining(|items|, bs, rp.batch)))
    ensures failed == rp.failed
                      + (|Session(RunResults(items, fetch, bs, true), bs, rp.batch, Remaining(|items|, bs, rp.batch))|
                         - CountSuccess(Session(RunResults(items, fetch, bs, true), bs, rp.batch, Remaining(|items|, bs, rp.batch))))
  {
    var n := |items|;
    var m := Remaining(n, bs, rp.batch);
    ghost var final := RunResults(items, fetch, bs, true);
    allResults, calls, logs, files := prefix, [], [first], [];
    successful, failed := rp.successful, rp.failed;
    assert Session(final, bs, rp.batch, 0) == [] && Session(items, bs, rp.batch, 0) == [];
    for j := 0 to m
      invariant allResults == prefix + Session(final, bs, rp.batch, j)
      invariant calls == FetchedUrls(Session(items, bs, rp.batch, j))
      invariant successful == rp.successful + CountSuccess(Session(final, bs, rp.batch, j))
      invariant failed == rp.failed + (|Session(final, bs, rp.batch, j)| - CountSuccess(Session(final, bs, rp.batch, j)))
      invariant files == BatchFiles(final, bs, rp.batch, j)
      invariant |logs| == j + 1 && logs[0] == first
      invariant ResumedChain(logs, final, bs, rp, dir, now)
    {
      var file, log;
      allResults, calls, successful, failed, file, log :=
        ResumedBatch(items, bs, fetch, now, dir, rp, j, logs[|logs| - 1], prefix, allResults, calls, successful, failed);
      FilesStep(final, bs, rp.batch, j, files, file);
      ResumedChainStep(logs, final, bs, rp, dir, now);
      logs := logs + [log];
      files := files + [file];
    }
  }

  /** `crawl_multiple_webpages_to_markdown(url_list, batch_size)` of the
      resumable runner.  An empty list does nothing.  Otherwise the newest
      unfinished run directory is looked for; when there is one the run
      resumes in it from its `processed_count`, with a placeholder for each
      record processed before and the loaded counters, and when there is
      none a fresh directory `crawl_results_<timestamp>` is opened with a
      first write.  The batch loop then starts at the window holding the
      resume position, and a closing write marks the run completed. */
  method RunResumable(items: seq<Item>, bs: nat, fetch: string -> FetchOutcome, dirs: seq<DirEntry>,
                      logFiles: map<string, LogFile>, timestamp: string, now: string)
    returns (allResults: seq<CrawlResult>, calls: seq<string>, writes: seq<ProgressLog>, files: seq<BatchFile>,
             loaded: Option<(ProgressLog, string)>, dir: string, rp: ResumePoint)
    requires bs > 0
    ensures |items| == 0 ==> allResults == [] && calls == [] && writes == [] && files == [] && loaded == None
    ensures loaded.Some? ==> Unfinished(logFiles, loaded.value.1) && logFiles[loaded.value.1] == Stored(loaded.value.0)
    ensures loaded.Some? ==> exists e :: e in dirs && RunDir(e) && e.name == loaded.value.1
    ensures loaded.Some? ==> forall e :: e in dirs && RunDir(e) && Unfinished(logFiles, e.name) ==> LexLe(e.name, loaded.value.1)
    ensures |items| > 0 ==> (loaded.None? <==> forall e :: e in dirs && RunDir(e) ==> !Unfinished(logFiles, e.name))
    ensures |items| > 0 ==> RunPrefix <= dir && dir == if loaded.Some? then loaded.value.1 else RunPrefix + timestamp
    ensures rp == ResumeFrom(loaded, bs)
    ensures |items| > 0 ==>
      allResults == ResumedResults(items, fetch, bs, rp.start)
    ensures |items| > 0 ==> calls == FetchedUrls(items[Covered(|items|, bs, rp.batch)..])
    ensures |items| > 0 ==> files == BatchFiles(RunResults(items, fetch, bs, true), bs, rp.batch, Remaining(|items|, bs, rp.batch))
    ensures |items| > 0 && loaded.None? ==> |writes| == Remaining(|items|, bs, rp.batch) + 2
    ensures |items| > 0 && loaded.None? ==>
      writes[0] == NamedProgressLog(LogAt(logFiles, dir), 0, |items|, 0, 0, Some(now), None, Some(dir), now)
    ensures |items| > 0 && loaded.None? ==> ResumedChain(writes, RunResults(items, fetch, bs, true), bs, rp, dir, now)
    ensures |items| > 0 && loaded.Some? ==> |writes| == Remaining(|items|, bs, rp.batch) + 1
    ensures |items| > 0 && loaded.Some? ==>
      ResumedChain([loaded.value.0] + writes, RunResults(items, fetch, bs, true), bs, rp, dir, now)
  {
    var n := |items|;
    if n == 0 {
      return [], [], [], [], None, "", ResumeFrom(None, bs);
    }
    loaded := LoadProgressLog(dirs, logFiles);
    rp := ResumeFrom(loaded, bs);
    var prefix: seq<CrawlResult>;
    var first: ProgressLog;
    if loaded.Some? {
      var (p, existingDir) := loaded.value;
      dir := existingDir;
      prefix := MakePlaceholders(items, bs, p.processedCount);
      first := p;
    } else {
      dir := RunPrefix + timestamp;
      prefix := [];
      first := NamedProgressLog(LogAt(logFiles, dir), 0, n, 0, 0, Some(now), None, Some(dir), now);
    }
    var logs, successful, failed;
    allResults, calls, logs, files, successful, failed := ResumedBatches(items, bs, fetch, now, dir, rp, first, prefix);
    ghost var final := RunResults(items, fetch, bs, true);
    var closing := NamedProgressLog(Stored(logs[|logs| - 1]), n, n, successful, failed, None, Some(now), Some(dir), now);
    ResumedClosing(logs[|logs| - 1], final, bs, rp, dir, now, successful, failed);
    ResumedChainStep(logs, final, bs, rp, dir, now);
    SessionAll(final, bs, rp.batch);
    SessionAll(items, bs, rp.batch);
    if loaded.Some? {
      writes := logs[1..] + [closing];
      assert [loaded.value.0] + writes == logs + [closing];
    } else {
      writes := logs + [closing];
    }
  }

  /** The start time of the log on disk when the batch loop starts is kept
      by every later write. */
  lemma {:induction false} ResumedChainStart(logs: seq<ProgressLog>, final: seq<CrawlResult>, bs: nat, rp: ResumePoint,
                                             dir: string, now: string, k: nat)
    requires bs > 0 && ResumedChain(logs, final, bs, rp, dir, now) && k < |logs|
    ensures logs[k].startTime == logs[0].startTime
  {
    if k > 0 {
      ResumedChainStart(logs, final, bs, rp, dir, now, k - 1);
      assert logs[k] == ResumedCheckpoint(logs[k - 1], final, bs, rp, k - 1, dir, now);
    }
  }

  /** What write `k > 0` of a resumable run records, whatever it resumed
      from: the run directory, the length of `all_results` after the `k`-th
      window of the session, an end time only from the last window on, and
      in the closing write the whole list, completed. */
  lemma ResumedWriteFacts(logs: seq<ProgressLog>, final: seq<CrawlResult>, bs: nat, rp: ResumePoint, dir: string,
                          now: string, k: nat)
    requires bs > 0 && dir != "" && ResumedChain(logs, final, bs, rp, dir, now)
    requires |logs| == Remaining(|final|, bs, rp.batch) + 2 && 0 < k < |logs|
    ensures logs[k].outputDirName == Some(dir) && logs[k].totalCount == |final|
    ensures k < |logs| - 1 ==> logs[k].processedCount == rp.start + |Session(final, bs, rp.batch, k)|
    ensures k == |logs| - 1 ==> logs[k].processedCount == |final| && logs[k].isCompleted == Flag(true)
    ensures logs[k].endTime == Some(now) <==> k >= Remaining(|final|, bs, rp.batch)
  {
    assert logs[k] == ResumedCheckpoint(logs[k - 1], final, bs, rp, k - 1, dir, now);
  }

  /** A run that starts its batch loop at a window boundary with counters
      that account for every record before it -- a fresh run, or one resumed
      from a log such a run wrote -- keeps the log consistent: every write
      counts each processed record once as a success or a failure, the
      processed count after the `k`-th window is what the windows so far
      cover, and only the write after the last window and the closing write
      mark the run completed. */
  lemma ResumedCounts(logs: seq<ProgressLog>, final: seq<CrawlResult>, bs: nat, rp: ResumePoint, dir: string,
                      now: string, k: nat)
    requires bs > 0 && ResumedChain(logs, final, bs, rp, dir, now)
    requires |logs| == Remaining(|final|, bs, rp.batch) + 2 && 0 < k < |logs|
    requires rp.start == Covered(|final|, bs, rp.batch) && rp.successful + rp.failed == rp.start
    ensures logs[k].successfulCount + logs[k].failedCount == logs[k].processedCount
    ensures k < |logs| - 1 ==> logs[k].processedCount == Covered(|final|, bs, rp.batch + k)
    ensures logs[k].isCompleted == Flag(true) <==> k >= Remaining(|final|, bs, rp.batch)
  {
    var m := Remaining(|final|, bs, rp.batch);
    assert logs[k] == ResumedCheckpoint(logs[k - 1], final, bs, rp, k - 1, dir, now);
    CoveredMono(|final|, bs, rp.batch, rp.batch + k);
    if k - 1 < m {
      BatchBound(|final|, bs, rp.batch + k);
      if k == m {
        CoveredAll(|final|, bs);
      }
    } else {
      SessionAll(final, bs, rp.batch);
      CoveredMono(|final|, bs, rp.batch, rp.batch + m);
    }
  }

  /** Resumed from a multiple of `batch_size` within the list, the results
      hold exactly one entry per record, stamped with its batch, and from
      the resume position on they are those of an uninterrupted run. */
  lemma ResumeAtBoundary(items: seq<Item>, fetch: string -> FetchOutcome, bs: nat, start: nat)
    requires bs > 0 && start <= |items| && start % bs == 0
    ensures var all := ResumedResults(items, fetch, bs, start);
      && |all| == |items|
      && (forall i :: 0 <= i < |all| ==> all[i].batchNum == Some(i / bs + 1))
      && (forall i :: start <= i < |all| ==> all[i] == RunResults(items, fetch, bs, true)[i])
  {
    ResumeStart(start, bs);
    var final := RunResults(items, fetch, bs, true);
    var all := ResumedResults(items, fetch, bs, start);
    assert Covered(|items|, bs, start / bs) == start;
    assert all == Placeholders(items, bs, start) + final[start..];
    forall i | 0 <= i < |all| ensures all[i].batchNum == Some(i / bs + 1) {
      if i < start {
        assert all[i] == Placeholder(items, bs, i);
      } else {
        assert all[i] == final[i];
      }
    }
  }

  /** Resumed from a position inside a window, the records of that window
      before the position are processed again: the results hold one more
      entry than the list has records for each of them.  Each record `i` of
      that window before the position appears once as its placeholder and
      once more, `start % batch_size` entries later, as the result of
      fetching it again. */
  lemma ResumeMidBatch(items: seq<Item>, fetch: string -> FetchOutcome, bs: nat, start: nat)
    requires bs > 0 && start <= |items| && start % bs != 0
    ensures |ResumedResults(items, fetch, bs, start)| == |items| + start % bs
    ensures forall i :: (start / bs) * bs <= i < start ==>
      && ResumedResults(items, fetch, bs, start)[i] == Placeholder(items, bs, i)
      && ResumedResults(items, fetch, bs, start)[i + start % bs] == RunResults(items, fetch, bs, true)[i]
  {
    ResumeStart(start, bs);
    var base := (start / bs) * bs;
    assert base + start % bs == start;
    assert Covered(|items|, bs, start / bs) == base;
    var final := RunResults(items, fetch, bs, true);
    var all := ResumedResults(items, fetch, bs, start);
    assert all == Placeholders(items, bs, start) + final[base..];
    forall i | base <= i < start
      ensures all[i] == Placeholder(items, bs, i) && all[i + start % bs] == final[i]
    {
      assert all[i + start % bs] == final[base..][i - base];
    }
  }
}
