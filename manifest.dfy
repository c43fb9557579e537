/** The URL manifest written by the first phase: one record per clicked
    element, the success tallies saved with it (`save_urls_to_json` and
    `save_urls_to_json_batch`), the resume point read back from it
    (`load_existing_data`) and the console summary (`print_summary`). */
module Manifest {
  import opened Common
  import opened Text

  /** `final_url` of a record whose redirect could not be followed. */
  const FailedUrl: string := "获取失败"
  /** `name` of a record whose element had no title link. */
  const UnknownName: string := "未知"

  /** One element of the `urls` list.  A missing `source` or `final_url`
      key is represented by the empty string, which the scripts treat the
      same way (`.get('source', '')`, `not item.get('final_url')`). */
  datatype UrlRecord = UrlRecord(source: string, name: string, finalUrl: string)

  predicate Succeeded(r: UrlRecord) {
    r.finalUrl != FailedUrl
  }

  // ---------------------------------------------------------------------
  // The source label and its parse
  // ---------------------------------------------------------------------

  /** `f'第 {page} 页第 {index} 个元素'` (both numbers are already 1-based). */
  function SourceLabel(page: nat, index: nat): string {
    "第 " + NatToString(page) + " 页第 " + NatToString(index) + " 个元素"
  }

  /** The page number `load_existing_data` reads from a `source` value:
      `int(s.split('第 ')[1].split(' 页')[0])` when both markers occur,
      and 0 when they do not or when `int()` fails. */
  function ParsePage(s: string): nat {
    if Contains(s, "第 ") && Contains(s, " 页") then
      ParseNat(Before(Before(After(s, "第 "), "第 "), " 页")).GetOr(0)
    else 0
  }

  /** Reading the page back from a label gives the page it was built with. */
  lemma ParsePageOfLabel(page: nat, index: nat)
    ensures ParsePage(SourceLabel(page, index)) == page
  {
    var p := NatToString(page);
    var rest := "第 " + (NatToString(index) + " 个元素");
    var head := p + " 页";
    var s := SourceLabel(page, index);
    assert s == "第 " + (head + rest);
    SkipFirstMarker(head + rest);
    HasPageMarker(p, rest);
    assert After(s, "第 ") == head + rest;
    CutAtSecondMarker(p, NatToString(index) + " 个元素");
    assert Before(head + rest, "第 ") == head;
    CutAtPageMarker(p);
    ParseNatToString(page);
  }

  /** The label holds ` 页` right after the page number. */
  lemma HasPageMarker(digits: string, rest: string)
    ensures Contains("第 " + ((digits + " 页") + rest), " 页")
  {
    var s := "第 " + ((digits + " 页") + rest);
    assert s[|digits| + 2..|digits| + 4] == " 页";
    OccursContains(s, " 页", |digits| + 2);
  }

  /** A label starts with the first `第 `, so the text after it is the rest. */
  lemma SkipFirstMarker(rest: string)
    ensures Contains("第 " + rest, "第 ") && After("第 " + rest, "第 ") == rest
  {
    FirstAfterPrefix([], "第 ", rest);
    assert [] + "第 " + rest == "第 " + rest;
  }

  /** The second `第 ` follows the page number and ` 页`. */
  lemma CutAtSecondMarker(digits: string, tail: string)
    requires AllDigits(digits)
    ensures Before(digits + " 页" + ("第 " + tail), "第 ") == digits + " 页"
  {
    var head := digits + " 页";
    forall k | 0 <= k < |head| ensures head[k] != '第' {
      if k < |digits| {
        assert head[k] == digits[k];
      }
    }
    FirstAfterPrefix(head, "第 ", tail);
    assert head + "第 " + tail == head + ("第 " + tail);
  }

  /** ` 页` directly follows the digits. */
  lemma CutAtPageMarker(digits: string)
    requires AllDigits(digits)
    ensures Before(digits + " 页", " 页") == digits
  {
    FirstAfterPrefix(digits, " 页", []);
    assert digits + " 页" + [] == digits + " 页";
  }

  // ---------------------------------------------------------------------
  // Loading the manifest back for a resumed run
  // ---------------------------------------------------------------------

  /** What the manifest saves: its metadata and the records themselves. */
  datatype ManifestData = ManifestData(
    timebegin: Option<string>,
    timestamp: string,
    totalCount: nat,
    successCount: nat,
    failedCount: int,
    successRate: Rate,
    isComplete: Option<bool>,
    urls: seq<UrlRecord>)

  /** The manifest file as `load_existing_data` finds it: absent, present
      but not loadable (bad JSON, not a dictionary, records not
      dictionaries), or loaded. */
  datatype ManifestFile = NoManifest | Unreadable | Stored(data: ManifestData)

  /** `last_page`: the page named in the last record's source, 0 when there is none. */
  function LastPage(urls: seq<UrlRecord>): nat {
    if urls == [] then 0 else ParsePage(urls[|urls| - 1].source)
  }

  /** `load_existing_data(filename)`: the stored records and the page to resume from. */
  function LoadExistingData(file: ManifestFile): (r: (seq<UrlRecord>, nat))
    ensures !file.Stored? ==> r == ([], 0)
    ensures file.Stored? ==> r.0 == file.data.urls
    ensures r.0 == [] ==> r.1 == 0
  {
    match file
    case Stored(data) => (data.urls, LastPage(data.urls))
    case _ => ([], 0)
  }

  // ---------------------------------------------------------------------
  // Tallies saved with the manifest
  // ---------------------------------------------------------------------

  /** `[url for url in urls if url.get('final_url') != '获取失败']`. */
  function Successes(urls: seq<UrlRecord>): seq<UrlRecord>
    decreases |urls|
  {
    if urls == [] then []
    else if Succeeded(urls[0]) then [urls[0]] + Successes(urls[1..])
    else Successes(urls[1..])
  }

  /** The records still holding the sentinel. */
  function Failures(urls: seq<UrlRecord>): seq<UrlRecord>
    decreases |urls|
  {
    if urls == [] then []
    else if Succeeded(urls[0]) then Failures(urls[1..])
    else [urls[0]] + Failures(urls[1..])
  }

  /** Every record lands in exactly one of the two lists, and each list holds
      only records of its kind. */
  lemma {:induction false} SplitTallies(urls: seq<UrlRecord>)
    ensures |Successes(urls)| + |Failures(urls)| == |urls|
    ensures forall r :: r in Successes(urls) ==> Succeeded(r)
    ensures forall r :: r in Failures(urls) ==> !Succeeded(r)
    ensures multiset(Successes(urls)) + multiset(Failures(urls)) == multiset(urls)
    decreases |urls|
  {
    if urls != [] {
      var rest := urls[1..];
      SplitTallies(rest);
      assert urls == [urls[0]] + rest;
      assert multiset(urls) == multiset{urls[0]} + multiset(rest);
    }
  }

  /** Counting a concatenation counts each part: the tally of records saved
      after more pages is the old tally plus that of the new records. */
  lemma {:induction false} SuccessesAppend(a: seq<UrlRecord>, b: seq<UrlRecord>)
    ensures Successes(a + b) == Successes(a) + Successes(b)
    decreases |a|
  {
    if a == [] {
      assert a + b == b;
    } else {
      var c := a + b;
      assert c[0] == a[0] && c[1..] == a[1..] + b;
      SuccessesAppend(a[1..], b);
    }
  }

  lemma {:induction false} FailuresAppend(a: seq<UrlRecord>, b: seq<UrlRecord>)
    ensures Failures(a + b) == Failures(a) + Failures(b)
    decreases |a|
  {
    if a == [] {
      assert a + b == b;
    } else {
      var c := a + b;
      assert c[0] == a[0] && c[1..] == a[1..] + b;
      FailuresAppend(a[1..], b);
    }
  }

  /** The metadata of `save_urls_to_json_batch(urls, filename, timebegin, is_final)`
      with the clock reading `now`. */
  function SaveUrlsBatch(urls: seq<UrlRecord>, timebegin: Option<string>, now: string, isFinal: bool): (m: ManifestData)
    ensures m.urls == urls && m.totalCount == |urls|
    ensures m.successCount == |Successes(urls)|
    ensures m.failedCount == |Failures(urls)|
    ensures m.successRate == NoTotal <==> urls == []
    ensures m.isComplete == Some(isFinal)
    ensures Truthy(timebegin) ==> m.timebegin == timebegin
    ensures !Truthy(timebegin) ==> m.timebegin == Some(now)
  {
    SplitTallies(urls);
    var success := |Successes(urls)|;
    ManifestData(PyOr(timebegin, Some(now)), now, |urls|, success, |urls| - success,
                 Percentage(success, |urls|), Some(isFinal), urls)
  }

  /** The metadata of `save_urls_to_json(urls, filename)`: no start time and no completion flag. */
  function SaveUrls(urls: seq<UrlRecord>, now: string): (m: ManifestData)
    ensures m.urls == urls && m.totalCount == |urls|
    ensures m.successCount == |Successes(urls)|
    ensures m.failedCount == |Failures(urls)|
    ensures m.successRate == NoTotal <==> urls == []
    ensures m.timebegin == None && m.isComplete == None
  {
    SplitTallies(urls);
    var success := |Successes(urls)|;
    ManifestData(None, now, |urls|, success, |urls| - success, Percentage(success, |urls|), None, urls)
  }

  /** Saving and loading again returns the records, and a resumed run
      starts from the page named in the last saved label. */
  lemma SaveLoadRoundTrip(urls: seq<UrlRecord>, timebegin: Option<string>, now: string, isFinal: bool,
                          page: nat, index: nat, name: string, finalUrl: string)
    requires urls != [] && urls[|urls| - 1] == UrlRecord(SourceLabel(page, index), name, finalUrl)
    ensures LoadExistingData(Stored(SaveUrlsBatch(urls, timebegin, now, isFinal))) == (urls, page)
  {
    var m := SaveUrlsBatch(urls, timebegin, now, isFinal);
    assert m.urls == urls;
    ParsePageOfLabel(page, index);
    assert LastPage(urls) == page;
  }

  // ---------------------------------------------------------------------
  // print_summary
  // ---------------------------------------------------------------------

  /** One summary entry: the status mark, the source, the name and the final URL. */
  datatype SummaryLine = SummaryLine(ok: bool, source: string, name: string, finalUrl: string)

  function OkCount(lines: seq<SummaryLine>): nat {
    if lines == [] then 0 else (if lines[0].ok then 1 else 0) + OkCount(lines[1..])
  }

  /** `print_summary(urls)` of the basic script: one entry per record, marked
      ✅ exactly when the record is not the failure sentinel. */
  method PrintSummary(urls: seq<UrlRecord>) returns (lines: seq<SummaryLine>)
    ensures |lines| == |urls|
    ensures forall k :: 0 <= k < |urls| ==>
      lines[k] == SummaryLine(Succeeded(urls[k]), urls[k].source, urls[k].name, urls[k].finalUrl)
    ensures OkCount(lines) == |Successes(urls)|
  {
    lines := [];
    for i := 0 to |urls|
      invariant |lines| == i
      invariant forall k :: 0 <= k < i ==>
        lines[k] == SummaryLine(Succeeded(urls[k]), urls[k].source, urls[k].name, urls[k].finalUrl)
      invariant OkCount(lines) == |Successes(urls[..i])|
    {
      var u := urls[i];
      var line := SummaryLine(u.finalUrl != FailedUrl, u.source, u.name, u.finalUrl);
      OkCountAppend(lines, line);
      SuccessesAppend(urls[..i], [u]);
      assert urls[..i + 1] == urls[..i] + [u];
      lines := lines + [line];
    }
    assert urls[..|urls|] == urls;
  }

  /** `print_summary(urls)` of the resumable script: the same entries for the last ten records only. */
  method PrintRecentSummary(urls: seq<UrlRecord>) returns (lines: seq<SummaryLine>)
    ensures |lines| == Min(10, |urls|)
    ensures forall k :: 0 <= k < |lines| ==>
      var u := urls[|urls| - |lines| + k];
      lines[k] == SummaryLine(Succeeded(u), u.source, u.name, u.finalUrl)
  {
    var n := Min(10, |urls|);
    var recent := urls[|urls| - n..];
    lines := PrintSummary(recent);
    forall k | 0 <= k < n
      ensures var u := urls[|urls| - n + k]; lines[k] == SummaryLine(Succeeded(u), u.source, u.name, u.finalUrl)
    {
      assert recent[k] == urls[|urls| - n + k];
    }
  }

  lemma {:induction false} OkCountAppend(lines: seq<SummaryLine>, line: SummaryLine)
    ensures OkCount(lines + [line]) == OkCount(lines) + (if line.ok then 1 else 0)
    decreases |lines|
  {
    if lines != [] {
      OkCountAppend(lines[1..], line);
      assert (lines + [line])[1..] == lines[1..] + [line];
    }
  }
}
