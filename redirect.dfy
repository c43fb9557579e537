/** The redirect resolver of both URL scripts (`get_final_redirect_url`).

    The browser page is replaced by what the resolver observes on it: the URL
    after `goto`, the URL read at each of the `2 * wait_time` half-second
    polls, the URL after the network-idle wait, and the page title (absent
    when `page.title()` raises).  A `goto` that raises is the only exception
    the function can meet: the idle wait and the title read catch their own. */
module Redirect {
  import opened Common

  /** Page title stored when `page.title()` raises. */
  const TitleUnavailable: string := "无法获取标题"
  /** Page title stored when the navigation itself failed. */
  const TitleFailed: string := "获取失败"

  datatype Navigation =
    | GotoFailed(error: string)
    | Navigated(afterGoto: string, samples: seq<string>, settled: string, title: Option<string>)

  /** The dictionary the function returns. */
  datatype RedirectTrace = RedirectTrace(
    success: bool,
    initialUrl: string,
    finalUrl: string,
    chain: seq<string>,
    totalRedirects: int,
    pageTitle: string,
    error: Option<string>)

  function Last(s: seq<string>): string
    requires |s| > 0
  {
    s[|s| - 1]
  }

  predicate NoAdjacentRepeats(s: seq<string>) {
    forall k :: 0 < k < |s| ==> s[k - 1] != s[k]
  }

  /** One observation: the URL joins the chain only when it differs from the
      URL currently held, which is always the chain's last entry. */
  function Extend(chain: seq<string>, url: string): seq<string>
    requires |chain| > 0
  {
    if url != Last(chain) then chain + [url] else chain
  }

  /** The chain after a run of observations. */
  function Collapse(chain: seq<string>, observed: seq<string>): seq<string>
    requires |chain| > 0
    decreases |observed|
  {
    if observed == [] then chain else Collapse(Extend(chain, observed[0]), observed[1..])
  }

  /** Every URL read from the page, in order: after `goto`, the polls, after the idle wait. */
  function Observations(nav: Navigation): seq<string>
    requires nav.Navigated?
  {
    [nav.afterGoto] + nav.samples + [nav.settled]
  }

  /** What `get_final_redirect_url` returns for a given navigation. */
  function Resolution(initialUrl: string, nav: Navigation): RedirectTrace {
    match nav
    case GotoFailed(e) =>
      RedirectTrace(false, initialUrl, initialUrl, [initialUrl], 0, TitleFailed, Some(e))
    case Navigated(_, _, settled, title) =>
      var chain := Collapse([initialUrl], Observations(nav));
      RedirectTrace(true, initialUrl, settled, chain, |chain| - 1, title.GetOr(TitleUnavailable), None)
  }

  /** `get_final_redirect_url(page, initial_url, wait_time)`, polling loop included. */
  method ResolveRedirect(initialUrl: string, waitTime: nat, nav: Navigation) returns (trace: RedirectTrace)
    requires nav.Navigated? ==> |nav.samples| == 2 * waitTime
    ensures trace == Resolution(initialUrl, nav)
    ensures |trace.chain| > 0 && trace.chain[0] == initialUrl
    ensures NoAdjacentRepeats(trace.chain)
    ensures |trace.chain| <= 2 * waitTime + 3
    ensures trace.success ==> trace.finalUrl == Last(trace.chain) && trace.totalRedirects == |trace.chain| - 1
    ensures !trace.success ==> trace.finalUrl == initialUrl && trace.totalRedirects == 0 && trace.error.Some?
  {
    var chain := [initialUrl];
    var current := initialUrl;
    match nav {
      case GotoFailed(e) =>
        trace := RedirectTrace(false, initialUrl, initialUrl, chain, 0, TitleFailed, Some(e));
      case Navigated(afterGoto, samples, settled, title) =>
        ghost var all := Observations(nav);
        ghost var polled := samples + [settled];
        CollapseStepAt([initialUrl], all, 0);
        assert all[1..] == polled;
        current := afterGoto;
        if current != initialUrl {
          chain := chain + [current];
        }
        var i := 0;
        while i < 2 * waitTime
          invariant 0 <= i <= 2 * waitTime
          invariant |chain| > 0 && current == Last(chain)
          invariant Collapse(chain, polled[i..]) == Collapse([initialUrl], all)
        {
          var newUrl := samples[i];
          assert polled[i] == newUrl;
          CollapseStepAt(chain, polled, i);
          if newUrl != current {
            chain := chain + [newUrl];
            current := newUrl;
          }
          i := i + 1;
        }
        var finalUrl := settled;
        CollapseStepAt(chain, polled, i);
        assert polled[i + 1..] == [];
        if finalUrl != current {
          chain := chain + [finalUrl];
        }
        trace := RedirectTrace(true, initialUrl, finalUrl, chain, |chain| - 1, title.GetOr(TitleUnavailable), None);
    }
    ResolutionFacts(initialUrl, nav);
  }

  /** Collapsing the observations from position `i` on is extending the chain
      with observation `i` and collapsing the rest. */
  lemma CollapseStepAt(chain: seq<string>, observed: seq<string>, i: nat)
    requires |chain| > 0 && i < |observed|
    ensures Collapse(chain, observed[i..]) == Collapse(Extend(chain, observed[i]), observed[i + 1..])
  {
    assert observed[i..][1..] == observed[i + 1..];
  }

  /** Collapsing keeps the chain as a prefix, never repeats a URL twice in a
      row, grows by at most one entry per observation and ends on the last
      observation. */
  lemma {:induction false} CollapseFacts(chain: seq<string>, observed: seq<string>)
    requires |chain| > 0
    ensures |chain| <= |Collapse(chain, observed)| <= |chain| + |observed|
    ensures Collapse(chain, observed)[..|chain|] == chain
    ensures NoAdjacentRepeats(chain) ==> NoAdjacentRepeats(Collapse(chain, observed))
    ensures observed != [] ==> Last(Collapse(chain, observed)) == observed[|observed| - 1]
    decreases |observed|
  {
    if observed != [] {
      var next := Extend(chain, observed[0]);
      CollapseFacts(next, observed[1..]);
      assert next[..|chain|] == chain;
      var r := Collapse(next, observed[1..]);
      assert r[..|chain|] == r[..|next|][..|chain|];
      if observed[1..] == [] {
        assert Last(next) == observed[0];
      } else {
        assert observed[1..][|observed[1..]| - 1] == observed[|observed| - 1];
      }
    }
  }

  /** The chain stays a single entry exactly when every observation equals it. */
  lemma {:induction false} CollapseStaysIff(chain: seq<string>, observed: seq<string>)
    requires |chain| > 0
    ensures Collapse(chain, observed) == chain <==> forall k :: 0 <= k < |observed| ==> observed[k] == Last(chain)
    decreases |observed|
  {
    if observed != [] {
      var next := Extend(chain, observed[0]);
      CollapseStaysIff(next, observed[1..]);
      CollapseFacts(next, observed[1..]);
      if observed[0] == Last(chain) {
        assert forall k :: 0 < k < |observed| ==> observed[k] == observed[1..][k - 1];
      } else {
        assert |Collapse(chain, observed)| >= |chain| + 1;
      }
    }
  }

  /** The trace's chain starts with the initial URL, has no immediate repeats,
      is at most one entry longer than the number of URLs read, and on success
      ends on `final_url` with `total_redirects == len(chain) - 1`; a failed
      `goto` falls back to the initial URL with no redirects. */
  lemma ResolutionFacts(initialUrl: string, nav: Navigation)
    ensures var t := Resolution(initialUrl, nav);
      && |t.chain| > 0 && t.chain[0] == initialUrl
      && NoAdjacentRepeats(t.chain)
      && (nav.Navigated? ==> |t.chain| <= |nav.samples| + 3)
      && (t.success <==> nav.Navigated?)
      && (t.success ==> t.finalUrl == Last(t.chain) && t.totalRedirects == |t.chain| - 1)
      && (!t.success ==> t.finalUrl == initialUrl && t.chain == [initialUrl]
                         && t.totalRedirects == 0 && t.pageTitle == TitleFailed && t.error.Some?)
  {
    if nav.Navigated? {
      CollapseFacts([initialUrl], Observations(nav));
    }
  }

  /** A URL with no redirect: the resolution reports zero redirects exactly
      when every URL read from the page is the initial URL. */
  lemma NoRedirectIff(initialUrl: string, nav: Navigation)
    requires nav.Navigated?
    ensures Resolution(initialUrl, nav).totalRedirects == 0 <==>
            forall k :: 0 <= k < |Observations(nav)| ==> Observations(nav)[k] == initialUrl
  {
    CollapseStaysIff([initialUrl], Observations(nav));
    CollapseFacts([initialUrl], Observations(nav));
  }
}
