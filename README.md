# Two-phase scraping pipeline: a verified model of its bookkeeping

The pipeline runs in two phases.

1. **URL collection.** `get_url_jyxx.py` and `safe_get_url.py` walk the pages of a listing site and click every item. They follow the popup's redirects (`get_final_redirect_url`) and store one record per item in a JSON manifest. The resumable script saves the manifest every `batch_size` pages and can resume from the page named in the last saved record.
2. **Content fetching.** Three runners cut the manifest into windows of `batch_size` records, fetch every record's page, write one batch directory per window and record the progress in `progress_log.json`. They are `get_content_jyxx.py` (basic), `safe_get_content.py` (checkpointed, with start and end times) and `test11.py` (resumable from the newest unfinished run directory). The checkpointed and resumable runners also write status reports.

This project models the bookkeeping of both phases in Dafny and proves what it promises:

- the redirect chain invariants;
- the round trip between the source label and the resume page;
- the success tallies;
- the page loop's record, save and stop rules;
- the window partition;
- one result per record, with the fetch skipped for records without a URL and exactly one counter incremented per record;
- the progress log chain and its completion flag;
- the selection of the run to resume, and what a resumed run produces;
- the batch status list, the grouping by batch number and the failure list.

The browser, the crawler, the file system and the clock become inputs:

- the URLs observed on a page;
- the items and "next" control of each listing page;
- a fetch function from URL to outcome;
- the manifest and progress-log files as values;
- a directory listing;
- one clock reading.

Modules, one file each:

- `common.dfy` (`Common`): `Option`, the zero-guarded percentage, Python's `or` on optional strings.
- `text.dfy` (`Text`): `str(n)`, `int(s)` on digit strings, `split`, string order and `sorted`.
- `redirect.dfy` (`Redirect`): `get_final_redirect_url`.
- `manifest.dfy` (`Manifest`): the record label and its parse, `load_existing_data`, the tallies of `save_urls_to_json[_batch]`, `print_summary`.
- `enumerator.dfy` (`Enumerator`): the page loops of both URL scripts.
- `windows.dfy` (`Windows`): the window arithmetic shared by the runners and the reports.
- `checkpoint.dfy` (`Checkpoint`): the three `save_progress_log` variants and `load_progress_log`.
- `runner.dfy` (`Runner`): the per-record step, `save_batch_results` and the three runners.
- `reports.dfy` (`Reports`): the batch status lists, the grouping by `batch_num`, the final per-batch statistics and the failure list.

## Model

| member | source | states |
|---|---|---|
| Common.Percentage | test11.py:219 | the percentage is the zero marker exactly when the total is 0, otherwise the ratio of the given counts |
| Common.PyOr | test11.py:212 | `a or b`: `a` when it is a non-empty string, `b` otherwise |
| Text.NatToString | safe_get_url.py:265 | `str(n)` is a non-empty string of decimal digits |
| Text.ParseNatToString | safe_get_url.py:103 | `int(str(n)) == n` for every non-negative `n` |
| Text.IndexFromFacts | safe_get_url.py:102 | the search used by `split` finds an occurrence exactly when one exists, and it is the first one |
| Text.FirstOccurrence | safe_get_url.py:102 | `split` cuts at the first occurrence of the separator |
| Text.LexLeTotal | test11.py:246 | the order `sort()` uses on directory names is total |
| Text.LexLeTransitive | test11.py:246 | that order is transitive |
| Text.LexLeAntisymmetric | test11.py:246 | that order is antisymmetric |
| Text.InsertNameSorted | test11.py:246 | inserting a name into a sorted list keeps it sorted and adds exactly that name |
| Text.SortNames | test11.py:246 | `existing_dirs.sort()` returns a sorted permutation of the names |
| Redirect.ResolveRedirect | safe_get_url.py:9-76 | the polling loop returns the resolution of the observations. The chain starts with the initial URL, has no two equal neighbours and holds at most `2*wait_time + 3` entries. On success `final_url` is its last entry and `total_redirects == len(chain) - 1`. On failure `final_url` is the initial URL, with 0 redirects and an error |
| Redirect.CollapseFacts | safe_get_url.py:27-50 | appending only URLs that differ from the current one keeps the chain as a prefix, adds at most one entry per observation, creates no repeated neighbours and ends on the last URL observed |
| Redirect.CollapseStaysIff | safe_get_url.py:29-50 | the chain gains no entry exactly when every observation equals the current URL |
| Redirect.ResolutionFacts | get_url_jyxx.py:8-75 | the same chain facts for the basic script's copy. The result succeeds exactly when `goto` did not raise, and on failure the chain is just the initial URL with the title `获取失败` |
| Redirect.NoRedirectIff | get_url_jyxx.py:20-63 | `total_redirects == 0` exactly when every URL read from the page is the initial URL |
| Manifest.ParsePageOfLabel | safe_get_url.py:100-103 | parsing a label `第 {p} 页第 {i} 个元素` gives back `p` |
| Manifest.LoadExistingData | safe_get_url.py:78-117 | a missing or unreadable manifest gives `([], 0)`; a loaded one gives its records, and with no records the page is 0 |
| Manifest.SplitTallies | safe_get_url.py:131-133 | every record counts as a success or a failure, never both: the success records are those without the sentinel, and the two lists together are a permutation of the records |
| Manifest.SuccessesAppend | safe_get_url.py:132 | the success tally of a longer list is the old tally plus that of the new records |
| Manifest.FailuresAppend | safe_get_url.py:133 | the same for the failure tally |
| Manifest.SaveUrlsBatch | safe_get_url.py:119-149 | the total, success and failed counts are the sizes of the tallies; the rate is `"0%"` exactly when there are no records; `is_complete == is_final`; the start time is kept when one is given |
| Manifest.SaveUrls | get_url_jyxx.py:237-267 | the same counts and rate guard, with no start time and no completion flag |
| Manifest.SaveLoadRoundTrip | safe_get_url.py:196-201 | saving a manifest and loading it back gives the same records and the page named in the last record's label |
| Manifest.PrintSummary | get_url_jyxx.py:288-297 | one line per record, marked successful exactly when the record is not the sentinel; the marked lines number the successes |
| Manifest.PrintRecentSummary | safe_get_url.py:391-400 | the same lines for the last ten records only |
| Enumerator.ElementRecordFacts | safe_get_url.py:264-313 | each item yields one record, labelled with its page and position (the label parses back to the page). Its name is the item's title or `未知`. It holds the sentinel only when no popup opened; a failed navigation stores the popup's URL and a successful one the settled URL |
| Enumerator.ProcessElement | safe_get_url.py:264-313 | the element body computes exactly that record |
| Enumerator.ProcessPage | get_url_jyxx.py:130-190 | the item loop appends one record per item, in item order |
| Enumerator.PageStepFacts | safe_get_url.py:250-374 | one page of the loop either records the page and goes on (clicking "next" unless it is the last page) or ends the loop. When it ends, it records nothing (the items did not appear) or that one page. Snapshots are added only when `(page_num + 1) % batch_size == 0` or on an error. A missing or disabled control stops the loop without a save |
| Enumerator.SkipCount | safe_get_url.py:233-248 | the skip loop clicks "next" until `start_page` clicks or the first control that cannot be clicked |
| Enumerator.StartState | safe_get_url.py:192-204 | a run starts from the stored records and page only when resuming was asked for, records exist and the answer is yes; with no records it starts at page 0 |
| Enumerator.SkipPages | safe_get_url.py:235-248 | the skip loop method computes that count |
| Enumerator.RunPages | safe_get_url.py:250-376 | the page loop method computes the page loop function |
| Enumerator.CollectUrls | safe_get_url.py:173-389 | the whole resumable enumerator method computes its specification, `Collect` |
| Enumerator.BasicStep | get_url_jyxx.py:118-228 | the basic page step never saves |
| Enumerator.CollectUrlsBasic | get_url_jyxx.py:77-235 | the basic enumerator method computes its specification; an exception that reaches the outer handler returns `[]` |
| Enumerator.PageRecordsPages | get_url_jyxx.py:134 | every record of a page names that page in its label |
| Enumerator.RecordsPages | safe_get_url.py:250-265 | every record of consecutive pages names one of those pages |
| Enumerator.PageLoopRecords | safe_get_url.py:250-313 | the page loop appends exactly the records of the pages it recorded, one per item, and never goes past `max_pages` |
| Enumerator.PageLoopSaves | safe_get_url.py:318-374 | the loop keeps earlier snapshots, and every snapshot it adds is a prefix of its final records |
| Enumerator.PageLoopStop | safe_get_url.py:329-374 | why the loop stopped, read off the pages. Every page before the last had a clickable control. An exhausted loop reached `max_pages`. A missing, disabled or failing control belongs to the last recorded page. A failed page did not show its items, or `batch_size` was 0 |
| Enumerator.BatchSaves | safe_get_url.py:318-322 | after every recorded page whose 1-based number is a multiple of `batch_size`, the records up to that page are saved |
| Enumerator.BasicMatchesBatched | get_url_jyxx.py:118-228 | the basic loop records the same pages and stops for the same reason as the batched loop |
| Enumerator.ResumeContinues | safe_get_url.py:196-265 | a resumed run keeps the stored records. Every new record names a page after the last stored one and at most `max_pages` |
| Enumerator.BasicResult | get_url_jyxx.py:118-232 | the basic script returns either `[]` or the records of its first `n <= max_pages` pages |
| Windows.BatchBound | test11.py:544 | window `b` exists exactly when `b * batch_size < n` |
| Windows.CoveredAll | test11.py:544 | the `total_batches` windows together cover all `n` records |
| Windows.WindowFacts | safe_get_content.py:515-516 | `end_index` of window `b` is what the first `b + 1` windows cover. It lies after `start_index` and at most `batch_size` past it, equals `start_index + batch_size` unless the window is the last, and equals `n` for the last window |
| Windows.EndsAscend | safe_get_content.py:575-578 | the ends of the windows strictly increase |
| Windows.ConcatWindows | get_content_jyxx.py:233-238 | the first `k` windows, one after the other, are the list up to what they cover |
| Windows.WindowsPartition | test11.py:594-597 | the windows cover the list exactly once and in order |
| Windows.WindowLengths | get_content_jyxx.py:236-238 | every window is non-empty, and only the last one may be shorter than `batch_size` |
| Windows.WindowOf | test11.py:569 | record `i` lies in window `i // batch_size`, at offset `i % batch_size` |
| Windows.DivInWindow | test11.py:595 | every position of window `b` has `position // batch_size == b` |
| Windows.ResumeStart | test11.py:592 | the resume window `p // batch_size` starts at or before `p`, less than one window before it, and exactly at `p` when `p` is a multiple of `batch_size` |
| Windows.SessionExtends | test11.py:594-654 | each window processed extends what the session from the resume window has covered |
| Windows.SessionAll | test11.py:594 | the windows from the resume window on reach the end of the list |
| Windows.WindowOfPrefix | safe_get_content.py:572 | after `c` windows the partial list has the same earlier windows as the whole list |
| Checkpoint.BasicProgressLog | get_content_jyxx.py:187-202 | the log records the counts given, with the percentage guarded against a zero total and no times, flag or directory |
| Checkpoint.TimedProgressLog | safe_get_content.py:187-226 | the log records the counts; `is_completed` iff processed >= total; the zero-total guard; the end time given; the start time given, or else the one of the existing log |
| Checkpoint.NamedProgressLog | test11.py:188-235 | the same, and the directory name given, or else the one of the existing log |
| Checkpoint.UnreadableIsFresh | test11.py:204-209 | an unreadable existing log is treated exactly as a missing one |
| Checkpoint.RunDirNames | test11.py:242 | the names listed are exactly those of the directories starting with `crawl_results_` |
| Checkpoint.LoadProgressLog | test11.py:237-266 | the returned run directory is one of them and has an unfinished log: `is_completed` is false or `null`, and a log without the key counts as finished. Its name is the greatest among those. Nothing is returned exactly when no run directory has an unfinished log |
| Checkpoint.SortedMaximum | test11.py:249-257 | scanning the sorted names from the newest, the first unfinished one is the greatest unfinished name |
| Checkpoint.NoneUnfinished | test11.py:265-266 | a scan that finds none means no run directory has an unfinished log |
| Runner.ItemResultFacts | test11.py:618-646 | a record without a URL fails with URL `''` and error `URL为空`. Any other record keeps its URL and succeeds exactly when the fetch does. Every result carries the record's name and its batch stamp, and has an error exactly when it failed |
| Runner.CountSuccess | safe_get_content.py:130-134 | the success count never exceeds the number of results |
| Runner.CountSuccessAppend | test11.py:656 | the successes of `all_results.extend(batch)` are those before plus those of the batch |
| Runner.FetchedUrlsFacts | test11.py:618-635 | the fetch is called only with the URLs of records that have one, and for every such record |
| Runner.ProcessItem | safe_get_content.py:537-565 | the item body computes the record's result, and calls the fetch exactly when the record has a URL |
| Runner.RunWindow | get_content_jyxx.py:251-289 | the inner loop gives one result per record of the window, in order. The fetch calls are those of the records with a URL. The success counter grows by the successes and the failure counter by the rest |
| Runner.SuccessFilesFacts | test11.py:129-134 | one file is saved per successful result, with an index in `start_index + 1 .. start_index + len(results)` belonging to a successful result |
| Runner.SuccessFilesAscending | get_content_jyxx.py:129-136 | the file indices are saved in ascending order |
| Runner.SuccessFilesComplete | safe_get_content.py:131-136 | the file with index `start_index + i + 1` is saved whenever result `i` succeeded |
| Runner.SaveBatchResults | test11.py:113-186 | `save_batch_results` returns the number of successes and writes the batch file of the results |
| Runner.SavedBatchFacts | safe_get_content.py:166-171 | the batch file's successes and failures add up to its size, and its range `start_index + 1 .. start_index + len(results)` has one number per result |
| Runner.StampInWindow | safe_get_content.py:545 | every result of window `b` is stamped `b + 1` |
| Runner.WindowOfRun | safe_get_content.py:514-572 | the results of window `b`, processed on their own, are window `b` of the results of a whole run |
| Runner.CallsExtend | get_content_jyxx.py:235-291 | the fetch calls of the windows so far, then those of the next window, are those of the records so far |
| Runner.CountersExtend | test11.py:629-646 | after a batch the counters equal the successes and failures of the extended `all_results` |
| Runner.ProcessBatch | test11.py:594-654 | one window: its results are window `b` of the whole run. The fetch calls are those of its records. The counters advance by its successes and failures. The batch file is saved as batch `b + 1` from `start_index = b * batch_size` |
| Runner.ExtendBatch | safe_get_content.py:514-572 | after window `b`, `all_results` is the run's results up to the window's end, and the counters are the successes and failures among them |
| Runner.ProcessedAt | safe_get_content.py:575 | `processed_count = end_index` is what the first `b + 1` windows cover |
| Runner.CheckpointsAdvance | safe_get_content.py:575-578 | the processed count of the checkpoints strictly increases and never exceeds `n` |
| Runner.CheckpointCounts | get_content_jyxx.py:294-295 | every checkpoint has successful + failed == processed, and the last one covers the whole list |
| Runner.BasicLogAt | get_content_jyxx.py:294-295 | the log written from the counters after window `b` is the checkpoint of window `b` |
| Runner.BasicBatch | get_content_jyxx.py:235-295 | one pass of the basic batch loop extends the results, calls and counters and writes that checkpoint |
| Runner.BasicBatches | get_content_jyxx.py:233-295 | the basic batch loop gives one result per record, in order, and calls the fetch exactly for the records with a URL. It writes one batch file and one checkpoint per window |
| Runner.RunBasic | get_content_jyxx.py:204-372 | the basic runner does that loop, and an empty list returns at once and writes nothing |
| Runner.TimedChainStart | safe_get_content.py:203 | every later write of the checkpointed runner keeps the start time of the opening write |
| Runner.TimedWriteFacts | safe_get_content.py:575-600 | each write after the opening one has successful + failed == processed, and `processed_count == end_index` of its window. The closing write covers the whole list. The end time and `is_completed` appear only from the last window on |
| Runner.TimedLogAt | safe_get_content.py:575-578 | the log written from the counters after window `b` is the checkpoint of window `b` over the log on disk |
| Runner.TimedBatch | safe_get_content.py:514-578 | one pass of the checkpointed batch loop stamps, appends and counts window `b` and writes that checkpoint |
| Runner.TimedClosing | safe_get_content.py:599-600 | the closing write is the checkpoint past the last window |
| Runner.TimedBatches | safe_get_content.py:512-596 | the checkpointed batch loop gives the stamped results of the whole run and one batch file per window; each write is the checkpoint of its window over the one before it |
| Runner.RunCheckpointed | safe_get_content.py:479-615 | the checkpointed runner: an empty list writes nothing; otherwise an opening write with the start time, the loop's writes, then the closing write |
| Runner.MakePlaceholders | test11.py:559-575 | the placeholder loop appends one placeholder per record processed before |
| Runner.PlaceholdersSucceed | test11.py:567-568 | every placeholder counts as a success |
| Runner.ResumedLogAt | test11.py:659-662 | the log written after the `j + 1`-th window of a session, with `processed_count = len(all_results)`, is that window's checkpoint |
| Runner.ExtendSession | test11.py:594-656 | one pass of the resumable loop appends the window to the placeholders and the session so far. The counters go on from the loaded ones |
| Runner.ResumedBatch | test11.py:594-662 | the same pass with its progress log write |
| Runner.ResumedClosing | test11.py:683-684 | the closing write is the checkpoint past the session's last window |
| Runner.ResumedBatches | test11.py:592-680 | the resumable loop runs from the resume window to the end with one batch file and one write per window, each the checkpoint of its window over the log before it |
| Runner.RunResumable | test11.py:516-699 | an empty list does nothing. The run resumes in the directory `load_progress_log` returns: a `crawl_results_` directory with an unfinished log whose name is the greatest among those. Otherwise the run opens `crawl_results_<timestamp>` with a first write. The results are the placeholders for `processed_count` records, then those of an uninterrupted run from the resume window on. The fetch is called for the records from that window on |
| Runner.ResumedChainStart | test11.py:212 | every write keeps the start time of the log on disk when the loop starts |
| Runner.ResumedWriteFacts | test11.py:659-684 | every write names the run directory and the total. The processed count is the length of `all_results`. The end time appears only from the last window on. The closing write covers the list and is completed |
| Runner.ResumedCounts | test11.py:629-662 | for a session that starts at a window boundary with consistent counters: successful + failed == processed at every write; processed is what the windows so far cover; only the last two writes are completed |
| Runner.ResumeAtBoundary | test11.py:559-640 | resumed at a multiple of `batch_size`, the results hold one entry per record, and entry `i` is stamped `i // batch_size + 1`. From the resume position on they equal those of an uninterrupted run |
| Runner.ResumeMidBatch | test11.py:592-597 | resumed inside a window, the results hold `start % batch_size` entries more than the list has records. Each record of that window before the resume position appears twice: once as its placeholder, and `start % batch_size` entries later as the result of fetching it again |
| Reports.StatusListShape | test11.py:337-353 | batch `k` is completed iff `k <= current_batch`, in progress iff `k == current_batch + 1`, and pending otherwise |
| Reports.StatusRanges | test11.py:337-339 | with the total passed in, line `k` shows window `k - 1`: `(k-1)*bs + 1 .. min(k*bs, total)`. Each range is non-empty and starts right after the previous one, and the last ends at the total |
| Reports.SafeRangesInverted | safe_get_content.py:234 | with `total_urls = len(all_results)`, after `current` full windows every later batch shows a range that ends before it starts |
| Reports.SafeRangeExample | safe_get_content.py:299-301 | twelve records in batches of five: after batch 1, batch 2 is listed as `URL 6-5` |
| Reports.StampAt | safe_get_content.py:305 | a result stamped by the runner carries batch number `k + 1` exactly in window `k` |
| Reports.InBatchAppend | test11.py:445-449 | grouping distributes over concatenation |
| Reports.InBatchWindow | safe_get_content.py:305 | the results stamped `k + 1` are exactly window `k`, in order |
| Reports.RunPrefixStamped | safe_get_content.py:545-559 | the results of the first windows of a checkpointed run are stamped with their batch |
| Reports.SafeCountsMatchFiles | safe_get_content.py:303-309 | the success and failure counts the status list shows for a completed batch are those of the batch file saved for it |
| Reports.GroupByBatch | test11.py:444-449 | `batch_wise_results` has a key exactly for each batch number carried by a result, and each group holds the results carrying it, in order |
| Reports.AddToGroup | safe_get_content.py:411-415 | one result joins the group of its batch number, which is opened when it is the first |
| Reports.InBatchAbsent | test11.py:447 | a batch number no result carries has no results |
| Reports.FinalBatchWindow | get_content_jyxx.py:340-344 | the slice `all_results[start_idx:end_idx]` is window `b`; its successes and failures add up to its length |
| Reports.FinalStatsPrefix | get_content_jyxx.py:339-344 | the sections of the first `k` windows count the successes and failures among the results those windows cover |
| Reports.FinalStatsTotals | get_content_jyxx.py:339-344 | summed over all sections, the successes are those of the whole list and the failures the rest |
| Reports.Failures | safe_get_content.py:324 | the failure list is no longer than the results |
| Reports.NumberFailures | get_content_jyxx.py:352-360 | the failures are numbered `1..k` with the running `failed_count`, in input order |
| Reports.FailuresFacts | safe_get_content.py:324 | the failure list holds exactly the results that did not succeed, and its length is the results minus the successes |

## Left out

- The browser (Playwright) and the crawler (crawl4ai, BeautifulSoup, html2text) are not modelled. Pages are replaced by the URLs, items and controls they show, and the fetch by a function from URL to outcome. Page titles and content are not kept in the results.
- File and directory I/O and JSON are not modelled. Manifests, progress logs and batch files are values, and the directory listing is a sequence of entries with a map from name to log file. A JSON document of another shape (not a dictionary, or values of other types) is folded into "unreadable".
- A missing key and a JSON `null` are not told apart in the progress log's counts, times and directory name. They are told apart only for `is_completed`, where `load_progress_log` treats them differently. `progress_data.get("processed_count", 0)` and the loaded counters are always present numbers in the model.
- The clock is one reading (`now`, and `timestamp` for the directory name). Durations (`total_duration_*`) and date parsing are left out.
- Percentages are floating point and are not modelled. Only the zero-total branch of the guard is kept. The unguarded rates in the report texts are not modelled either.
- The Markdown text of batch files and reports is not modelled, only its counts, ranges, states, groups and numbering. The filename sanitisation (`replace('/', '_')`) is not modelled.
- `Runner.Item`: a record key holding JSON `null` is read as a missing key. Python's `item.get('name', 'Unknown')` returns `None` for a `null` name, where the model uses `Unknown` in results, fetch labels and placeholders. The URL writer never writes a `null`.
- `Runner.RunResumable`: the start time it passes to the reports on resume is not modelled, because it is used only in report text.
- The failure section of the resumable runner's overall summary (test11.py:359) is not modelled. Its slice bound depends only on the counters and is text-only.
- Sorting the group keys (test11.py:451) is not modelled. `Reports.InBatchWindow` shows that for a stamped run the groups are the windows `1..total_batches`, which is that order.
- `update_overall_summary`'s completion text and rates are not modelled; its status list is.
- `time.sleep` and `asyncio.sleep` are left out, because they do not change results. The runs are sequential.
- The interactive `input()` prompt is not modelled. It is a boolean `answer`, true for `y`.
- `int()` on a page number accepts only ASCII digit strings in the model. Signs, whitespace and underscores are left out; they are not produced by the label writer.
- A `batch_size` of 0 or less is excluded for the content runners (`requires bs > 0`); the scripts pass 50 or 5. With 0 and a non-empty list, Python raises an uncaught ZeroDivisionError at `total_batches`. Two cases that Python does run are not modelled. With an empty list, every runner returns `[]` before it divides. With a negative `batch_size`, floor division gives windows that do not cover the list. For 5 records and -2, `total_batches` is -1 and no window runs. The checkpointed and resumable runners then still write a closing log that marks the run completed (safe_get_content.py:600, test11.py:684). The URL page loop models `batch_size == 0` (the modulo raises and the page error handler saves and stops). It uses only `% batch_size == 0`, where Python's and Dafny's remainders agree.
- The `get_urls` loaders of the content scripts and the demo scripts (test01.py, test03.py, test10.py) are not part of this model.

## Findings

| source | as written | input that shows it | evidently intended | confidence | as-written member | corrected member |
|---|---|---|---|---|---|---|
| safe_get_content.py:234 | the overall summary's status list ends each range at `total_urls = len(all_results)`, the results so far (safe_get_content.py:299-301) | 12 records, `batch_size` 5, after batch 1: `all_results` holds 5 results, so batch 2 is listed as `URL 6-5` and batch 3 as `URL 11-5` | ranges end at the number of records, as test11.py passes `total_urls_overall` (test11.py:275, 337-339): batch 2 is `URL 6-10` | not executed | Reports.SafeRangeExample | Reports.StatusRanges |
