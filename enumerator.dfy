/** The page enumerator of both URL scripts (`get_all_popup_urls_with_redirect`).

    The listing site is replaced by what the enumerator meets on it: for
    each listing page, whether its items appear, the items themselves and
    the state of its "next" control.  Each item yields its title link (if
    any) and the popup it opens (absent when clicking or waiting for the
    popup raises); the popup's URL is then resolved by `ResolveRedirect`
    with `wait_time=3`, i.e. six polls. */
module Enumerator {
  import opened Common
  import opened Text
  import opened Redirect
  import opened Manifest

  /** The `a.next` control of a listing page. */
  datatype NextControl =
    | Absent       // `query_selector('a.next')` finds nothing
    | Disabled     // its class contains `disabled`
    | Clickable    // clicking it loads the following page
    | ClickFails   // scrolling to it, clicking it or waiting for the load raises

  /** The popup opened by clicking an item: its URL and what the redirect page then observes. */
  datatype Popup = Popup(initialUrl: string, nav: Navigation)

  /** One `[class="info-item"]` element: its title (`get_attribute('title') or
      inner_text().strip()` of its link, absent when it has no link) and its popup. */
  datatype Element = Element(title: Option<string>, popup: Option<Popup>)

  /** A listing page: `loads` is false when waiting for the items raises. */
  datatype Page = Page(loads: bool, elements: seq<Element>, next: NextControl)

  /** The listing as the browser walks it: whether the first page opens, and the pages in order. */
  datatype Site = Site(opens: bool, pages: seq<Page>)

  /** Why the page loop ended. */
  datatype Stop = Exhausted | NoNext | NextDisabled | NextFailed | PageFailed | SiteFailed

  /** What a run leaves behind: the records, the snapshots of the record list
      written by each `save_urls_to_json_batch` call, why the loop ended and
      how many pages had their items recorded. */
  datatype Harvest = Harvest(urls: seq<UrlRecord>, saves: seq<seq<UrlRecord>>, stop: Stop, pages: nat)

  /** Polls taken on each popup: `2 * wait_time` with `wait_time=3`. */
  const PopupWait: nat := 3

  predicate WellFormedElement(e: Element) {
    e.popup.Some? && e.popup.value.nav.Navigated? ==> |e.popup.value.nav.samples| == 2 * PopupWait
  }

  predicate WellFormedPage(pg: Page) {
    forall i :: 0 <= i < |pg.elements| ==> WellFormedElement(pg.elements[i])
  }

  predicate WellFormedPages(pages: seq<Page>) {
    forall k :: 0 <= k < |pages| ==> WellFormedPage(pages[k])
  }

  /** The page shown after `k` clicks on "next"; past the end of the listing nothing loads. */
  function PageAt(pages: seq<Page>, k: nat): (pg: Page)
    ensures WellFormedPages(pages) ==> WellFormedPage(pg)
    ensures k >= |pages| ==> !pg.loads
  {
    if k < |pages| then pages[k] else Page(false, [], Absent)
  }

  // ---------------------------------------------------------------------
  // One element, one page
  // ---------------------------------------------------------------------

  /** The record appended for item `i` (0-based) of page `pageNum` (0-based). */
  function ElementRecord(pageNum: nat, i: nat, e: Element): UrlRecord {
    var finalUrl := match e.popup
      case None => FailedUrl
      case Some(p) => Resolution(p.initialUrl, p.nav).finalUrl;
    UrlRecord(SourceLabel(pageNum + 1, i + 1), e.title.GetOr(UnknownName), finalUrl)
  }

  /** Each item's record is labelled with its page and position, is named
      after the item's title or `未知`, and holds the sentinel only when no
      popup opened: a failed navigation stores the popup's own URL and a
      successful one the URL the page settled on. */
  lemma ElementRecordFacts(pageNum: nat, i: nat, e: Element)
    ensures var r := ElementRecord(pageNum, i, e);
      && r.source == SourceLabel(pageNum + 1, i + 1)
      && ParsePage(r.source) == pageNum + 1
      && r.name == (if e.title.Some? then e.title.value else UnknownName)
      && (e.popup.None? ==> r.finalUrl == FailedUrl)
      && (e.popup.Some? && e.popup.value.nav.GotoFailed? ==> r.finalUrl == e.popup.value.initialUrl)
      && (e.popup.Some? && e.popup.value.nav.Navigated? ==> r.finalUrl == e.popup.value.nav.settled)
  {
    ParsePageOfLabel(pageNum + 1, i + 1);
  }

  /** The records of one page, one per item, in item order. */
  function PageRecords(pg: Page, pageNum: nat): seq<UrlRecord> {
    seq(|pg.elements|, i requires 0 <= i < |pg.elements| => ElementRecord(pageNum, i, pg.elements[i]))
  }

  /** The records of `count` consecutive pages starting at click `pos`, numbered from `pageNum`. */
  function Records(pages: seq<Page>, pos: nat, pageNum: nat, count: nat): seq<UrlRecord>
    decreases count
  {
    if count == 0 then [] else PageRecords(PageAt(pages, pos), pageNum) + Records(pages, pos + 1, pageNum + 1, count - 1)
  }

  /** Proof helper (a sequence identity, not a property of the program):
      stated on its own so that the lemmas below use it by name. */
  lemma AppendNil(a: seq<UrlRecord>)
    ensures a + [] == a
  {
  }

  /** Proof helper (a sequence identity, not a property of the program). */
  lemma AppendAssoc(a: seq<UrlRecord>, b: seq<UrlRecord>, c: seq<UrlRecord>)
    ensures a + (b + c) == (a + b) + c
  {
  }

  /** One page's worth of records. */
  lemma RecordsOne(pages: seq<Page>, pos: nat, pageNum: nat)
    ensures Records(pages, pos, pageNum, 1) == PageRecords(PageAt(pages, pos), pageNum)
  {
    AppendNil(PageRecords(PageAt(pages, pos), pageNum));
  }

  /** Appending the records of one page and then of the `count` pages after it
      appends the records of `count + 1` pages. */
  lemma RecordsStep(pages: seq<Page>, pos: nat, pageNum: nat, count: nat, urls: seq<UrlRecord>)
    ensures (urls + PageRecords(PageAt(pages, pos), pageNum)) + Records(pages, pos + 1, pageNum + 1, count)
         == urls + Records(pages, pos, pageNum, count + 1)
  {
    AppendAssoc(urls, PageRecords(PageAt(pages, pos), pageNum), Records(pages, pos + 1, pageNum + 1, count));
  }

  /** Processing one item: the title, the popup, the redirect resolution. */
  method ProcessElement(pageNum: nat, i: nat, e: Element) returns (r: UrlRecord)
    requires WellFormedElement(e)
    ensures r == ElementRecord(pageNum, i, e)
  {
    var name := UnknownName;
    var finalUrl := FailedUrl;
    if e.title.Some? {
      name := e.title.value;
    }
    if e.popup.Some? {
      var trace := ResolveRedirect(e.popup.value.initialUrl, PopupWait, e.popup.value.nav);
      finalUrl := trace.finalUrl;
    }
    r := UrlRecord(SourceLabel(pageNum + 1, i + 1), name, finalUrl);
  }

  /** The item loop of one page. */
  method ProcessPage(pg: Page, pageNum: nat) returns (rs: seq<UrlRecord>)
    requires WellFormedPage(pg)
    ensures rs == PageRecords(pg, pageNum)
  {
    rs := [];
    for i := 0 to |pg.elements|
      invariant |rs| == i
      invariant forall k :: 0 <= k < i ==> rs[k] == ElementRecord(pageNum, k, pg.elements[k])
    {
      var r := ProcessElement(pageNum, i, pg.elements[i]);
      rs := rs + [r];
    }
  }

  // ---------------------------------------------------------------------
  // The page loop with batch saves (the resumable URL script)
  // ---------------------------------------------------------------------

  /** The outcome of one page of the page loop: either the loop ends with a
      result, or it goes on from click `pos` with the records and snapshots
      so far. */
  datatype Step = Finished(result: Harvest) | Continue(pos: nat, urls: seq<UrlRecord>, saves: seq<seq<UrlRecord>>)

  /** One pass of the body of `for page_num in range(start_page, max_pages)`
      on page `pageNum`, shown after `pos` clicks, with records `urls`,
      snapshots `saves` and `done` pages recorded so far.  A page whose items
      do not appear, a `batch_size` of 0 (the modulo raises) and a failing
      click each save the records and end the loop; a missing or disabled
      control ends it without a save; the last page does not look at the
      control. */
  function PageStep(pages: seq<Page>, pos: nat, pageNum: nat, maxPages: nat, batchSize: int,
                    urls: seq<UrlRecord>, saves: seq<seq<UrlRecord>>, done: nat): Step
    requires pageNum < maxPages
  {
    var pg := PageAt(pages, pos);
    if !pg.loads then Finished(Harvest(urls, saves + [urls], PageFailed, done))
    else
      var more := urls + PageRecords(pg, pageNum);
      if batchSize == 0 then Finished(Harvest(more, saves + [more], PageFailed, done + 1))
      else
        var saved := if (pageNum + 1) % batchSize == 0 then saves + [more] else saves;
        if pageNum < maxPages - 1 then
          match pg.next
          case Absent => Finished(Harvest(more, saved, NoNext, done + 1))
          case Disabled => Finished(Harvest(more, saved, NextDisabled, done + 1))
          case ClickFails => Finished(Harvest(more, saved + [more], NextFailed, done + 1))
          case Clickable => Continue(pos + 1, more, saved)
        else Continue(pos, more, saved)
  }

  /** What one page does: it either records the page and goes on (clicking
      "next" unless it is the last page), or ends the loop after recording
      nothing or that one page, keeping earlier snapshots and adding only
      snapshots of the final records; a recorded page whose number is a
      multiple of `batch_size` is saved; the stop reason names the control
      or failure met. */
  lemma PageStepFacts(pages: seq<Page>, pos: nat, pageNum: nat, maxPages: nat, batchSize: int,
                      urls: seq<UrlRecord>, saves: seq<seq<UrlRecord>>, done: nat)
    requires pageNum < maxPages
    ensures var st := PageStep(pages, pos, pageNum, maxPages, batchSize, urls, saves, done);
      st.Continue? ==>
      && PageAt(pages, pos).loads && batchSize != 0
      && st.urls == urls + PageRecords(PageAt(pages, pos), pageNum)
      && st.saves == (if (pageNum + 1) % batchSize == 0 then saves + [st.urls] else saves)
      && st.pos == (if pageNum < maxPages - 1 then pos + 1 else pos)
      && (pageNum < maxPages - 1 ==> PageAt(pages, pos).next == Clickable)
    ensures var st := PageStep(pages, pos, pageNum, maxPages, batchSize, urls, saves, done);
      st.Finished? ==>
      var h := st.result;
      && done <= h.pages <= done + 1
      && h.urls == (if h.pages == done then urls else urls + PageRecords(PageAt(pages, pos), pageNum))
      && |saves| <= |h.saves| && h.saves[..|saves|] == saves
      && (forall j :: |saves| <= j < |h.saves| ==> h.saves[j] == h.urls)
      && (h.pages == done + 1 && batchSize != 0 && (pageNum + 1) % batchSize == 0 ==> |h.saves| > |saves|)
      && h.stop != Exhausted && h.stop != SiteFailed
      && (h.stop == NoNext ==> h.pages == done + 1 && PageAt(pages, pos).next == Absent)
      && (h.stop == NextDisabled ==> h.pages == done + 1 && PageAt(pages, pos).next == Disabled)
      && (h.stop == NextFailed ==> h.pages == done + 1 && PageAt(pages, pos).next == ClickFails)
      && (h.stop == PageFailed ==> (h.pages == done && !PageAt(pages, pos).loads)
                                   || (h.pages == done + 1 && batchSize == 0))
  {
  }

  /** The page loop from page `pageNum` to `maxPages`. */
  function PageLoop(pages: seq<Page>, pos: nat, pageNum: nat, maxPages: nat, batchSize: int,
                    urls: seq<UrlRecord>, saves: seq<seq<UrlRecord>>, done: nat): Harvest
    decreases maxPages - pageNum
  {
    if pageNum >= maxPages then Harvest(urls, saves, Exhausted, done)
    else match PageStep(pages, pos, pageNum, maxPages, batchSize, urls, saves, done)
      case Finished(h) => h
      case Continue(next, more, saved) => PageLoop(pages, next, pageNum + 1, maxPages, batchSize, more, saved, done + 1)
  }

  /** The number of "next" clicks the skip loop manages before `start`
      pages: it stops at the first control that is not clickable. */
  function SkipCount(pages: seq<Page>, from: nat, start: nat): (n: nat)
    requires from <= start
    ensures from <= n <= start
    ensures forall k :: from <= k < n ==> PageAt(pages, k).next == Clickable
    ensures n < start ==> PageAt(pages, n).next != Clickable
    decreases start - from
  {
    if from == start || PageAt(pages, from).next != Clickable then from
    else SkipCount(pages, from + 1, start)
  }

  /** The records and start page a run begins with: the stored ones when
      resuming was requested, a manifest with records exists and the
      operator answered yes; otherwise nothing, from page 0. */
  function StartState(file: ManifestFile, resume: bool, answer: bool): (s: (seq<UrlRecord>, nat))
    ensures s.0 == [] ==> s.1 == 0
  {
    var loaded := LoadExistingData(file);
    if resume && loaded.0 != [] && answer then loaded else ([], 0)
  }

  /** `get_all_popup_urls_with_redirect(...)` of the resumable URL script. */
  function Collect(site: Site, maxPages: nat, batchSize: int, file: ManifestFile, resume: bool, answer: bool): Harvest {
    var (urls, start) := StartState(file, resume, answer);
    if !site.opens then Harvest(urls, if urls != [] then [urls] else [], SiteFailed, 0)
    else PageLoop(site.pages, SkipCount(site.pages, 0, start), start, maxPages, batchSize, urls, [], 0)
  }

  /** The skip loop: click "next" up to `start` times, stopping at the first
      control that cannot be clicked. */
  method SkipPages(pages: seq<Page>, start: nat) returns (pos: nat)
    ensures pos == SkipCount(pages, 0, start)
  {
    pos := 0;
    for skip := 0 to start
      invariant pos == skip
      invariant SkipCount(pages, pos, start) == SkipCount(pages, 0, start)
    {
      if PageAt(pages, pos).next != Clickable {
        return;
      }
      pos := pos + 1;
    }
  }

  /** The page loop, batch saves and emergency saves included. */
  method RunPages(pages: seq<Page>, pos0: nat, start: nat, maxPages: nat, batchSize: int, urls0: seq<UrlRecord>)
    returns (h: Harvest)
    requires WellFormedPages(pages)
    ensures h == PageLoop(pages, pos0, start, maxPages, batchSize, urls0, [], 0)
  {
    var urls := urls0;
    var saves: seq<seq<UrlRecord>> := [];
    var pos := pos0;
    var done := 0;
    var pageNum := start;
    while pageNum < maxPages
      invariant PageLoop(pages, pos, pageNum, maxPages, batchSize, urls, saves, done)
             == PageLoop(pages, pos0, start, maxPages, batchSize, urls0, [], 0)
      decreases maxPages - pageNum
    {
      var pg := PageAt(pages, pos);
      if !pg.loads {
        saves := saves + [urls];
        return Harvest(urls, saves, PageFailed, done);
      }
      var recs := ProcessPage(pg, pageNum);
      urls := urls + recs;
      done := done + 1;
      if batchSize == 0 {
        saves := saves + [urls];
        return Harvest(urls, saves, PageFailed, done);
      }
      if (pageNum + 1) % batchSize == 0 {
        saves := saves + [urls];
      }
      if pageNum < maxPages - 1 {
        match pg.next {
          case Absent =>
            return Harvest(urls, saves, NoNext, done);
          case Disabled =>
            return Harvest(urls, saves, NextDisabled, done);
          case ClickFails =>
            saves := saves + [urls];
            return Harvest(urls, saves, NextFailed, done);
          case Clickable =>
            pos := pos + 1;
        }
      }
      pageNum := pageNum + 1;
    }
    h := Harvest(urls, saves, Exhausted, done);
  }

  /** `get_all_popup_urls_with_redirect(target_url, max_pages, batch_size=…, resume=…)`;
      `answer` is the operator's reply to the resume prompt. */
  method CollectUrls(site: Site, maxPages: nat, batchSize: int, file: ManifestFile, resume: bool, answer: bool)
    returns (h: Harvest)
    requires WellFormedPages(site.pages)
    ensures h == Collect(site, maxPages, batchSize, file, resume, answer)
  {
    var urls: seq<UrlRecord> := [];
    var start := 0;
    if resume {
      var existing, lastPage := LoadExistingData(file).0, LoadExistingData(file).1;
      if existing != [] && answer {
        urls := existing;
        start := lastPage;
      }
    }
    if !site.opens {
      var saves := if urls != [] then [urls] else [];
      return Harvest(urls, saves, SiteFailed, 0);
    }
    var pos := SkipPages(site.pages, start);
    h := RunPages(site.pages, pos, start, maxPages, batchSize, urls);
  }

  // ---------------------------------------------------------------------
  // The page loop of the basic URL script
  // ---------------------------------------------------------------------

  /** One pass of the body of `for page_num in range(max_pages)` of the
      basic script: no saves; a page whose items do not appear raises out
      of the loop. */
  function BasicStep(pages: seq<Page>, pos: nat, pageNum: nat, maxPages: nat, urls: seq<UrlRecord>, done: nat): (st: Step)
    requires pageNum < maxPages
    ensures st.Continue? ==> st.saves == []
    ensures st.Finished? ==> st.result.saves == []
  {
    var pg := PageAt(pages, pos);
    if !pg.loads then Finished(Harvest(urls, [], PageFailed, done))
    else
      var more := urls + PageRecords(pg, pageNum);
      if pageNum < maxPages - 1 then
        match pg.next
        case Absent => Finished(Harvest(more, [], NoNext, done + 1))
        case Disabled => Finished(Harvest(more, [], NextDisabled, done + 1))
        case ClickFails => Finished(Harvest(more, [], NextFailed, done + 1))
        case Clickable => Continue(pos + 1, more, [])
      else Continue(pos, more, [])
  }

  function BasicLoop(pages: seq<Page>, pos: nat, pageNum: nat, maxPages: nat, urls: seq<UrlRecord>, done: nat): Harvest
    decreases maxPages - pageNum
  {
    if pageNum >= maxPages then Harvest(urls, [], Exhausted, done)
    else match BasicStep(pages, pos, pageNum, maxPages, urls, done)
      case Finished(h) => h
      case Continue(next, more, _) => BasicLoop(pages, next, pageNum + 1, maxPages, more, done + 1)
  }

  /** `get_all_popup_urls_with_redirect(target_url, max_pages)` of the basic
      script: an exception reaching the outer handler returns `[]`. */
  function CollectBasic(site: Site, maxPages: nat): seq<UrlRecord> {
    if !site.opens then []
    else
      var h := BasicLoop(site.pages, 0, 0, maxPages, [], 0);
      if h.stop == PageFailed then [] else h.urls
  }

  method CollectUrlsBasic(site: Site, maxPages: nat) returns (urls: seq<UrlRecord>)
    requires WellFormedPages(site.pages)
    ensures urls == CollectBasic(site, maxPages)
  {
    if !site.opens {
      return [];
    }
    urls := [];
    var pos := 0;
    var done := 0;
    var pageNum := 0;
    while pageNum < maxPages
      invariant BasicLoop(site.pages, pos, pageNum, maxPages, urls, done)
             == BasicLoop(site.pages, 0, 0, maxPages, [], 0)
      decreases maxPages - pageNum
    {
      var pg := PageAt(site.pages, pos);
      if !pg.loads {
        return [];
      }
      var recs := ProcessPage(pg, pageNum);
      urls := urls + recs;
      done := done + 1;
      if pageNum < maxPages - 1 {
        if pg.next != Clickable {
          return;
        }
        pos := pos + 1;
      }
      pageNum := pageNum + 1;
    }
  }

  // ---------------------------------------------------------------------
  // Properties
  // ---------------------------------------------------------------------

  /** Every record of a page names that page in its label. */
  lemma PageRecordsPages(pg: Page, pageNum: nat)
    ensures forall k :: 0 <= k < |PageRecords(pg, pageNum)| ==>
      ParsePage(PageRecords(pg, pageNum)[k].source) == pageNum + 1
  {
    forall k | 0 <= k < |PageRecords(pg, pageNum)|
      ensures ParsePage(PageRecords(pg, pageNum)[k].source) == pageNum + 1
    {
      ParsePageOfLabel(pageNum + 1, k + 1);
    }
  }

  /** Every record of `count` pages from `pageNum` names a page in
      `pageNum + 1 .. pageNum + count` in its label. */
  lemma {:induction false} RecordsPages(pages: seq<Page>, pos: nat, pageNum: nat, count: nat)
    ensures forall k :: 0 <= k < |Records(pages, pos, pageNum, count)| ==>
      pageNum + 1 <= ParsePage(Records(pages, pos, pageNum, count)[k].source) <= pageNum + count
    decreases count
  {
    if count > 0 {
      var head: seq<UrlRecord> := PageRecords(PageAt(pages, pos), pageNum);
      var tail: seq<UrlRecord> := Records(pages, pos + 1, pageNum + 1, count - 1);
      PageRecordsPages(PageAt(pages, pos), pageNum);
      RecordsPages(pages, pos + 1, pageNum + 1, count - 1);
      assert Records(pages, pos, pageNum, count) == head + tail;
      forall k | 0 <= k < |head + tail|
        ensures pageNum + 1 <= ParsePage((head + tail)[k].source) <= pageNum + count
      {
        if k < |head| {
          assert (head + tail)[k] == head[k];
        } else {
          assert (head + tail)[k] == tail[k - |head|];
        }
      }
    }
  }

  /** The records the page loop gains are exactly those of the pages it
      recorded, one per item, and it never passes `maxPages`. */
  lemma {:induction false} PageLoopRecords(pages: seq<Page>, pos: nat, pageNum: nat, maxPages: nat, batchSize: int,
                                           urls: seq<UrlRecord>, saves: seq<seq<UrlRecord>>, done: nat)
    ensures var h := PageLoop(pages, pos, pageNum, maxPages, batchSize, urls, saves, done);
      && h.pages >= done
      && h.urls == urls + Records(pages, pos, pageNum, h.pages - done)
      && (pageNum <= maxPages ==> pageNum + (h.pages - done) <= maxPages)
    decreases maxPages - pageNum
  {
    var h := PageLoop(pages, pos, pageNum, maxPages, batchSize, urls, saves, done);
    if pageNum >= maxPages {
      AppendNil(urls);
    } else {
      var st := PageStep(pages, pos, pageNum, maxPages, batchSize, urls, saves, done);
      PageStepFacts(pages, pos, pageNum, maxPages, batchSize, urls, saves, done);
      RecordsOne(pages, pos, pageNum);
      if st.Finished? {
        assert h == st.result;
        AppendNil(urls);
      } else if st.pos == pos {
        assert h == Harvest(st.urls, st.saves, Exhausted, done + 1);
      } else {
        assert h == PageLoop(pages, st.pos, pageNum + 1, maxPages, batchSize, st.urls, st.saves, done + 1);
        PageLoopRecords(pages, st.pos, pageNum + 1, maxPages, batchSize, st.urls, st.saves, done + 1);
        RecordsStep(pages, pos, pageNum, h.pages - done - 1, urls);
      }
    }
  }

  /** The page loop keeps the snapshots saved before it, and every snapshot
      it adds is a prefix of its final records at least as long as the
      records it started with. */
  lemma {:induction false} PageLoopSaves(pages: seq<Page>, pos: nat, pageNum: nat, maxPages: nat, batchSize: int,
                                         urls: seq<UrlRecord>, saves: seq<seq<UrlRecord>>, done: nat)
    ensures var h := PageLoop(pages, pos, pageNum, maxPages, batchSize, urls, saves, done);
      && |saves| <= |h.saves| && h.saves[..|saves|] == saves
      && (forall j :: |saves| <= j < |h.saves| ==>
            |urls| <= |h.saves[j]| <= |h.urls| && h.saves[j] == h.urls[..|h.saves[j]|])
    decreases maxPages - pageNum
  {
    var h := PageLoop(pages, pos, pageNum, maxPages, batchSize, urls, saves, done);
    if pageNum < maxPages {
      var st := PageStep(pages, pos, pageNum, maxPages, batchSize, urls, saves, done);
      PageStepFacts(pages, pos, pageNum, maxPages, batchSize, urls, saves, done);
      if st.Continue? {
        assert h == PageLoop(pages, st.pos, pageNum + 1, maxPages, batchSize, st.urls, st.saves, done + 1);
        PageLoopSaves(pages, st.pos, pageNum + 1, maxPages, batchSize, st.urls, st.saves, done + 1);
        PageLoopRecords(pages, st.pos, pageNum + 1, maxPages, batchSize, st.urls, st.saves, done + 1);
        assert h.urls[..|st.urls|] == st.urls;
        assert h.saves[..|st.saves|][..|saves|] == saves;
        forall j | |saves| <= j < |h.saves|
          ensures |urls| <= |h.saves[j]| <= |h.urls| && h.saves[j] == h.urls[..|h.saves[j]|]
        {
          if j < |st.saves| {
            assert h.saves[j] == st.saves[j] == st.urls;
          }
        }
      }
    }
  }

  /** Why the loop stopped, read off the pages: every page recorded before
      the last one had a clickable control; an exhausted loop reached
      `maxPages`; a loop that stopped on the control stopped on that of the
      last recorded page; a failed page either did not show its items or
      met a zero batch size. */
  lemma {:induction false} PageLoopStop(pages: seq<Page>, pos: nat, pageNum: nat, maxPages: nat, batchSize: int,
                                        urls: seq<UrlRecord>, saves: seq<seq<UrlRecord>>, done: nat)
    requires pageNum <= maxPages
    ensures var h := PageLoop(pages, pos, pageNum, maxPages, batchSize, urls, saves, done);
      var n := h.pages - done;
      && h.pages >= done
      && (forall k :: pos <= k < pos + n - 1 ==> PageAt(pages, k).next == Clickable)
      && (h.stop == Exhausted ==> pageNum + n == maxPages)
      && (h.stop == NoNext ==> n > 0 && PageAt(pages, pos + n - 1).next == Absent)
      && (h.stop == NextDisabled ==> n > 0 && PageAt(pages, pos + n - 1).next == Disabled)
      && (h.stop == NextFailed ==> n > 0 && PageAt(pages, pos + n - 1).next == ClickFails)
      && (h.stop == PageFailed ==> batchSize == 0 || !PageAt(pages, pos + n).loads)
      && h.stop != SiteFailed
    decreases maxPages - pageNum
  {
    if pageNum < maxPages {
      var st := PageStep(pages, pos, pageNum, maxPages, batchSize, urls, saves, done);
      PageStepFacts(pages, pos, pageNum, maxPages, batchSize, urls, saves, done);
      if st.Continue? {
        var h := PageLoop(pages, st.pos, pageNum + 1, maxPages, batchSize, st.urls, st.saves, done + 1);
        PageLoopStop(pages, st.pos, pageNum + 1, maxPages, batchSize, st.urls, st.saves, done + 1);
        if st.pos == pos {
          PageLoopRecords(pages, st.pos, pageNum + 1, maxPages, batchSize, st.urls, st.saves, done + 1);
          assert h.pages == done + 1 && h.stop == Exhausted;
        }
      }
    }
  }

  /** A batch save follows every recorded page whose 1-based number is a
      multiple of `batch_size`, and it holds the records up to that page. */
  lemma {:induction false} BatchSaves(pages: seq<Page>, pos: nat, pageNum: nat, maxPages: nat, batchSize: int,
                                      urls: seq<UrlRecord>, saves: seq<seq<UrlRecord>>, done: nat, q: nat)
    requires batchSize != 0
    requires pageNum <= q && (q + 1) % batchSize == 0
    requires q - pageNum < PageLoop(pages, pos, pageNum, maxPages, batchSize, urls, saves, done).pages - done
    ensures urls + Records(pages, pos, pageNum, q - pageNum + 1)
            in PageLoop(pages, pos, pageNum, maxPages, batchSize, urls, saves, done).saves
    decreases maxPages - pageNum
  {
    var h := PageLoop(pages, pos, pageNum, maxPages, batchSize, urls, saves, done);
    var st := PageStep(pages, pos, pageNum, maxPages, batchSize, urls, saves, done);
    PageStepFacts(pages, pos, pageNum, maxPages, batchSize, urls, saves, done);
    RecordsOne(pages, pos, pageNum);
    if st.Finished? {
      assert h == st.result && q == pageNum;
      assert h.saves[|saves|] == h.urls == urls + Records(pages, pos, pageNum, 1);
      assert h.saves[|saves|] in h.saves;
    } else {
      assert h == PageLoop(pages, st.pos, pageNum + 1, maxPages, batchSize, st.urls, st.saves, done + 1);
      if q == pageNum {
        PageLoopSaves(pages, st.pos, pageNum + 1, maxPages, batchSize, st.urls, st.saves, done + 1);
        assert h.saves[..|st.saves|] == st.saves;
        assert h.saves[|st.saves| - 1] == st.urls == urls + Records(pages, pos, pageNum, 1);
        assert h.saves[|st.saves| - 1] in h.saves;
      } else {
        if st.pos == pos {
          assert false;
        }
        var m := q - pageNum;
        BatchSaves(pages, st.pos, pageNum + 1, maxPages, batchSize, st.urls, st.saves, done + 1, q);
        assert q - (pageNum + 1) + 1 == m;
        RecordsStep(pages, pos, pageNum, m, urls);
        assert st.urls + Records(pages, pos + 1, pageNum + 1, m) == urls + Records(pages, pos, pageNum, m + 1);
      }
    }
  }

  /** The basic loop records the same pages and stops for the same reason
      as the batched loop with any non-zero batch size. */
  lemma {:induction false} BasicMatchesBatched(pages: seq<Page>, pos: nat, pageNum: nat, maxPages: nat, batchSize: int,
                                               urls: seq<UrlRecord>, saves: seq<seq<UrlRecord>>, done: nat)
    requires batchSize != 0
    ensures var b := BasicLoop(pages, pos, pageNum, maxPages, urls, done);
      var h := PageLoop(pages, pos, pageNum, maxPages, batchSize, urls, saves, done);
      b.urls == h.urls && b.stop == h.stop && b.pages == h.pages
    decreases maxPages - pageNum
  {
    if pageNum < maxPages {
      var bs := BasicStep(pages, pos, pageNum, maxPages, urls, done);
      var st := PageStep(pages, pos, pageNum, maxPages, batchSize, urls, saves, done);
      PageStepFacts(pages, pos, pageNum, maxPages, batchSize, urls, saves, done);
      assert bs.Continue? == st.Continue?;
      if st.Continue? {
        assert bs.pos == st.pos && bs.urls == st.urls;
        BasicMatchesBatched(pages, st.pos, pageNum + 1, maxPages, batchSize, st.urls, st.saves, done + 1);
      }
    }
  }

  /** A resumed run keeps the stored records and labels every new record
      with a page after the last stored one and at most `maxPages`. */
  lemma ResumeContinues(site: Site, maxPages: nat, batchSize: int, file: ManifestFile, answer: bool)
    requires file.Stored? && file.data.urls != []
    ensures var h := Collect(site, maxPages, batchSize, file, true, answer);
      var last := LastPage(file.data.urls);
      && (answer ==> |file.data.urls| <= |h.urls| && h.urls[..|file.data.urls|] == file.data.urls)
      && (answer ==> forall k :: |file.data.urls| <= k < |h.urls| ==>
                        last < ParsePage(h.urls[k].source) <= maxPages)
  {
    var h := Collect(site, maxPages, batchSize, file, true, answer);
    var urls := file.data.urls;
    var last := LastPage(urls);
    if answer && site.opens {
      assert StartState(file, true, answer) == (urls, last);
      var pos := SkipCount(site.pages, 0, last);
      assert h == PageLoop(site.pages, pos, last, maxPages, batchSize, urls, [], 0);
      PageLoopRecords(site.pages, pos, last, maxPages, batchSize, urls, [], 0);
      var recs := Records(site.pages, pos, last, h.pages);
      RecordsPages(site.pages, pos, last, h.pages);
      assert h.urls == urls + recs;
      forall k | |urls| <= k < |h.urls| ensures last < ParsePage(h.urls[k].source) <= maxPages {
        assert h.urls[k] == recs[k - |urls|];
      }
    }
  }

  /** The basic script returns either nothing or the records of its first
      pages, one per item, with page labels `1 .. max_pages`. */
  lemma BasicResult(site: Site, maxPages: nat)
    ensures var r := CollectBasic(site, maxPages);
      r == [] || exists n :: 0 < n <= maxPages && r == Records(site.pages, 0, 0, n)
    ensures forall k :: 0 <= k < |CollectBasic(site, maxPages)| ==>
      1 <= ParsePage(CollectBasic(site, maxPages)[k].source) <= maxPages
  {
    if site.opens {
      var b := BasicLoop(site.pages, 0, 0, maxPages, [], 0);
      BasicMatchesBatched(site.pages, 0, 0, maxPages, 1, [], [], 0);
      PageLoopRecords(site.pages, 0, 0, maxPages, 1, [], [], 0);
      RecordsPages(site.pages, 0, 0, b.pages);
      assert b.urls == [] + Records(site.pages, 0, 0, b.pages);
      if b.stop != PageFailed && b.pages == 0 {
        assert b.urls == [];
      }
    }
  }
}
