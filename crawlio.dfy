/**
 * The admission logic of the crawl scheduler in crawliocontexthandler.go:
 * which discovered links become new fetch work.
 *
 * The goroutines of the source are sequentialised. A spawned Crawler runs to
 * completion at once: it sends the resolved href of every link of its page
 * into the channel and then calls `Done`. The decisor receives candidates in
 * FIFO order, and when its receive would block (every worker has finished and
 * nothing is waiting) the controller's `crawlers.Wait()` returns and the
 * channel is closed, which ends the decisor.
 */
module Crawlio {
  import opened GoStrings
  import opened DomainUtil
  import opened Colly
  import opened Sync
  import opened Channels

  datatype Option<T> = None | Some(value: T)

  /** The message of the error `Init` returns. */
  const NO_CONTEXT := "No context available"

  /**
   * The crawl context. Its declaration is not part of this model; the core
   * reads `initialdomain` and `crawledurls` and calls `AddScrapedUrl`, which
   * is assumed to append its argument to `crawledurls`.
   */
  class CrawlioContext {
    const initialDomain: string
    var crawledUrls: seq<string>

    constructor (initialDomain: string)
      ensures this.initialDomain == initialDomain && crawledUrls == []
    {
      this.initialDomain := initialDomain;
      crawledUrls := [];
    }

    method AddScrapedUrl(url: string)
      modifies this
      ensures crawledUrls == old(crawledUrls) + [url]
    {
      crawledUrls := crawledUrls + [url];
    }
  }

  /** The elements of a sequence. */
  function Elements(s: seq<string>): set<string>
  {
    set x | x in s
  }

  /** No URL is recorded twice. */
  ghost predicate NoDuplicates(s: seq<string>)
  {
    forall i, j :: 0 <= i < j < |s| ==> s[i] != s[j]
  }

  /**
   * Every entry of `recorded` from position `|before|` on differs from all
   * the entries before it: the URLs added after `before` are distinct and
   * none of them was in `before`.
   */
  ghost predicate AddsNoDuplicate(before: seq<string>, recorded: seq<string>)
  {
    forall i, j :: 0 <= i < j < |recorded| && |before| <= j ==> recorded[i] != recorded[j]
  }

  /** A record that started duplicate-free and adds no duplicate stays duplicate-free. */
  lemma NoDuplicatesKept(before: seq<string>, recorded: seq<string>)
    requires before <= recorded && NoDuplicates(before) && AddsNoDuplicate(before, recorded)
    ensures NoDuplicates(recorded)
  {
    forall i, j | 0 <= i < j < |recorded|
      ensures recorded[i] != recorded[j]
    {
      if j < |before| {
        assert recorded[i] == before[i] && recorded[j] == before[j];
      }
    }
  }

  /**
   * The scope conditions of the crawl, stated without the string searches:
   * the URL has the seed's domain, no subdomain, no '#' anywhere and no ".."
   * anywhere.
   */
  ghost predicate InScope(domainutil: Util, initialDomain: string, url: string)
  {
    && domainutil.Domain(url) == domainutil.Domain(initialDomain)
    && !domainutil.HasSubdomain(url)
    && (forall i :: 0 <= i < |url| ==> url[i] != '#')
    && (forall i :: !OccursAt(url, "..", i))
  }

  /** `IsCrawlable`: a candidate is admitted exactly when it is in scope and not yet recorded. */
  function IsCrawlable(domainutil: Util, context: CrawlioContext, url: string): (r: bool)
    reads context
    ensures r <==> InScope(domainutil, context.initialDomain, url) && url !in context.crawledUrls
  {
    domainutil.Domain(url) == domainutil.Domain(context.initialDomain) &&
      url !in context.crawledUrls &&
      !domainutil.HasSubdomain(url) &&
      !ContainsRune(url, '#') &&
      !Contains(url, "..")
  }

  /** No two consecutive dots: ".." occurs nowhere. */
  lemma NoDoubleDot(url: string)
    requires forall i :: 0 <= i < |url| - 1 ==> !(url[i] == '.' && url[i + 1] == '.')
    ensures forall i :: !OccursAt(url, "..", i)
  {
    forall i | 0 <= i && i + 2 <= |url|
      ensures !OccursAt(url, "..", i)
    {
      assert url[i..i + 2][0] == url[i] && url[i..i + 2][1] == url[i + 1];
    }
  }

  /** A URL with a fragment is rejected, whatever its domain and the record. */
  lemma FragmentRejected(domainutil: Util, context: CrawlioContext)
    ensures !IsCrawlable(domainutil, context, "https://example.com/page#section")
  {
    assert "https://example.com/page#section"[24] == '#';
  }

  /** A URL holding ".." is rejected, whatever its domain and the record. */
  lemma TraversalRejected(domainutil: Util, context: CrawlioContext)
    ensures !IsCrawlable(domainutil, context, "https://example.com/../etc")
  {
    assert OccursAt("https://example.com/../etc", "..", 20);
  }

  /** An href with no domain that is not the bare root path is joined onto the page URL. */
  predicate IsRelative(domainutil: Util, href: string)
  {
    domainutil.Domain(href) == "" && href != "/"
  }

  /**
   * The candidate the `OnHTML` callback sends for an href found on the page
   * at `crawledUrl`: a relative href is appended to the page URL as it is,
   * with no path normalisation; any other href is sent unchanged.
   */
  function ResolveHref(domainutil: Util, crawledUrl: string, href: string): (candidate: string)
    ensures IsRelative(domainutil, href) ==>
              && |candidate| == |crawledUrl| + |href|
              && candidate[..|crawledUrl|] == crawledUrl
              && candidate[|crawledUrl|..] == href
    ensures !IsRelative(domainutil, href) ==> candidate == href
  {
    if IsRelative(domainutil, href) then crawledUrl + href else href
  }

  /** A root-relative href is appended to the full page URL, not to its host. */
  lemma ResolveRelativeExample(domainutil: Util)
    requires domainutil.Domain("/about") == ""
    ensures ResolveHref(domainutil, "https://example.com/blog/post", "/about") == "https://example.com/blog/post/about"
  {
  }

  /** The candidates of a page, in the order its hrefs are delivered. */
  function ResolveAll(domainutil: Util, crawledUrl: string, hrefs: seq<string>): seq<string>
  {
    seq(|hrefs|, i requires 0 <= i < |hrefs| => ResolveHref(domainutil, crawledUrl, hrefs[i]))
  }

  /** Resolving one more href extends the candidates by one. */
  lemma ResolveAllSnoc(domainutil: Util, crawledUrl: string, hrefs: seq<string>, i: nat)
    requires i < |hrefs|
    ensures ResolveAll(domainutil, crawledUrl, hrefs[..i + 1]) ==
            ResolveAll(domainutil, crawledUrl, hrefs[..i]) + [ResolveHref(domainutil, crawledUrl, hrefs[i])]
  {
  }

  /**
   * Every in-scope candidate found on a fetched page is recorded or still
   * waiting in the channel.
   */
  ghost predicate Complete(domainutil: Util, links: string -> seq<string>, initialDomain: string,
                           fetched: set<string>, recorded: seq<string>, waiting: seq<string>)
  {
    forall u, h :: u in fetched && h in links(u) ==>
      ResolveHref(domainutil, u, h) in recorded ||
      ResolveHref(domainutil, u, h) in waiting ||
      !InScope(domainutil, initialDomain, ResolveHref(domainutil, u, h))
  }

  /** `url` is the candidate of some href found on one of `pages`. */
  ghost predicate Discovered(domainutil: Util, links: string -> seq<string>, pages: set<string>, url: string)
  {
    exists u, h :: u in pages && h in links(u) && ResolveHref(domainutil, u, h) == url
  }

  /**
   * The candidates found on any in-scope page of `universe` that is not in
   * the record `before` the crawl began stay in `universe`. Out-of-scope
   * pages and pages recorded before are never fetched, so their links are
   * unconstrained.
   */
  ghost predicate LinksStayIn(domainutil: Util, links: string -> seq<string>, initialDomain: string,
                              before: seq<string>, universe: set<string>)
  {
    forall u, h :: u in universe && InScope(domainutil, initialDomain, u) && u !in before && h in links(u) ==>
      ResolveHref(domainutil, u, h) in universe
  }

  /** Right after a page is fetched, each of its candidates is waiting in the channel. */
  lemma FetchedPageComplete(domainutil: Util, links: string -> seq<string>, initialDomain: string,
                            page: string, recorded: seq<string>)
    ensures Complete(domainutil, links, initialDomain, {page}, recorded,
                     ResolveAll(domainutil, page, links(page)))
  {
    var waiting := ResolveAll(domainutil, page, links(page));
    forall u, h | u in {page} && h in links(u)
      ensures ResolveHref(domainutil, u, h) in waiting
    {
      var k :| 0 <= k < |links(u)| && links(u)[k] == h;
      assert waiting[k] == ResolveHref(domainutil, u, h);
    }
  }

  /** Receiving a candidate that is rejected keeps every fetched page complete. */
  lemma RejectKeepsComplete(domainutil: Util, links: string -> seq<string>, initialDomain: string,
                            fetched: set<string>, recorded: seq<string>, waiting: seq<string>)
    requires |waiting| > 0
    requires Complete(domainutil, links, initialDomain, fetched, recorded, waiting)
    requires waiting[0] in recorded || !InScope(domainutil, initialDomain, waiting[0])
    ensures Complete(domainutil, links, initialDomain, fetched, recorded, waiting[1..])
  {
  }

  /**
   * Receiving a candidate that is admitted, recording it and fetching its page
   * keeps every fetched page, the new one included, complete.
   */
  lemma AcceptKeepsComplete(domainutil: Util, links: string -> seq<string>, initialDomain: string,
                            fetched: set<string>, recorded: seq<string>, waiting: seq<string>)
    requires |waiting| > 0
    requires Complete(domainutil, links, initialDomain, fetched, recorded, waiting)
    ensures Complete(domainutil, links, initialDomain, fetched + {waiting[0]}, recorded + [waiting[0]],
                     waiting[1..] + ResolveAll(domainutil, waiting[0], links(waiting[0])))
  {
    var x := waiting[0];
    var waiting' := waiting[1..] + ResolveAll(domainutil, x, links(x));
    forall u, h | u in fetched + {x} && h in links(u)
      ensures ResolveHref(domainutil, u, h) in recorded + [x] ||
              ResolveHref(domainutil, u, h) in waiting' ||
              !InScope(domainutil, initialDomain, ResolveHref(domainutil, u, h))
    {
      var c := ResolveHref(domainutil, u, h);
      if u == x {
        var k :| 0 <= k < |links(x)| && links(x)[k] == h;
        assert ResolveAll(domainutil, x, links(x))[k] == c;
        assert waiting'[|waiting| - 1 + k] == c;
      } else if c in waiting && c != x {
        var k :| 0 <= k < |waiting| && waiting[k] == c;
        assert waiting'[k - 1] == c;
      }
    }
  }

  /** Recording a URL that is not yet recorded adds no duplicate. */
  lemma RecordKeepsNoDuplicates(before: seq<string>, recorded: seq<string>, url: string)
    requires AddsNoDuplicate(before, recorded) && url !in recorded
    ensures AddsNoDuplicate(before, recorded + [url])
  {
  }

  /** Recording a URL of `universe` leaves fewer URLs of `universe` unrecorded. */
  lemma RecordShrinksUnrecorded(universe: set<string>, recorded: seq<string>, url: string)
    requires url in universe && url !in recorded
    ensures Unrecorded(universe, recorded + [url]) < Unrecorded(universe, recorded)
  {
    var before := universe - Elements(recorded);
    assert universe - Elements(recorded + [url]) == before - {url};
    assert (before - {url}) + {url} == before;
  }

  /**
   * `Crawler`: fetch the page at `crawledUrl`, send the candidate of each of
   * its hrefs into the channel, and report completion (`defer crawlers.Done()`).
   */
  method Crawler(domainutil: Util, crawledUrl: string, urlschannel: Channel, crawlers: WaitGroup,
                 collector: Collector)
    requires !urlschannel.closed && crawlers.Counter() > 0
    modifies urlschannel, crawlers
    ensures urlschannel.queue == old(urlschannel.queue) + ResolveAll(domainutil, crawledUrl, collector.links(crawledUrl))
    ensures !urlschannel.closed
    ensures crawlers.added == old(crawlers.added) && crawlers.done == old(crawlers.done) + 1
  {
    var hrefs := collector.links(crawledUrl);
    var i := 0;
    while i < |hrefs|
      modifies urlschannel
      invariant 0 <= i <= |hrefs|
      invariant urlschannel.queue == old(urlschannel.queue) + ResolveAll(domainutil, crawledUrl, hrefs[..i])
      invariant !urlschannel.closed
    {
      var href := hrefs[i];
      ResolveAllSnoc(domainutil, crawledUrl, hrefs, i);
      if domainutil.Domain(href) == "" && href != "/" {
        urlschannel.Send(crawledUrl + href);
      } else {
        urlschannel.Send(href);
      }
      i := i + 1;
    }
    assert hrefs[..i] == hrefs;
    crawlers.Done();
  }

  /**
   * The body of the decisor's loop for one received candidate: when it is
   * crawlable it is recorded and one more worker is registered; otherwise
   * nothing changes.
   */
  method AdmitCandidate(domainutil: Util, context: CrawlioContext, url: string, crawlers: WaitGroup)
    returns (accepted: bool)
    modifies context, crawlers
    ensures accepted == old(IsCrawlable(domainutil, context, url))
    ensures context.crawledUrls == if accepted then old(context.crawledUrls) + [url] else old(context.crawledUrls)
    ensures crawlers.added == old(crawlers.added) + (if accepted then 1 else 0)
    ensures crawlers.done == old(crawlers.done)
  {
    accepted := IsCrawlable(domainutil, context, url);
    if accepted {
      context.AddScrapedUrl(url);
      crawlers.Add(1);
    }
  }

  /**
   * What the decisor keeps true of the record it extends (`before` is the
   * record it started from) and of the candidates waiting in the channel:
   * - the record only grows, and every URL it adds differs from all earlier
   *   entries;
   * - every URL it adds is in scope, in `universe`, and the candidate of an
   *   href on a page fetched before it was added (one of `fetched` or an
   *   earlier addition);
   * - every waiting candidate is in `universe` and the candidate of an href
   *   on a fetched page;
   * - every fetched page (those of `fetched` and every URL added) is complete.
   */
  ghost predicate DecisorInvariant(domainutil: Util, links: string -> seq<string>, initialDomain: string,
                                   universe: set<string>, fetched: set<string>,
                                   before: seq<string>, recorded: seq<string>, waiting: seq<string>)
  {
    && before <= recorded
    && AddsNoDuplicate(before, recorded)
    && (forall i :: |before| <= i < |recorded| ==>
          && InScope(domainutil, initialDomain, recorded[i])
          && recorded[i] in universe
          && Discovered(domainutil, links, fetched + Elements(recorded[|before|..i]), recorded[i]))
    && (forall u :: u in waiting ==>
          u in universe && Discovered(domainutil, links, fetched + Elements(recorded[|before|..]), u))
    && Complete(domainutil, links, initialDomain, fetched + Elements(recorded[|before|..]), recorded, waiting)
  }

  /**
   * Once the channel is drained, every URL added is in scope and of
   * `universe`, and every in-scope candidate of a fetched page is recorded.
   */
  lemma FinishedDecisor(domainutil: Util, links: string -> seq<string>, initialDomain: string,
                        universe: set<string>, fetched: set<string>,
                        before: seq<string>, recorded: seq<string>)
    requires DecisorInvariant(domainutil, links, initialDomain, universe, fetched, before, recorded, [])
    ensures forall x :: x in recorded[|before|..] ==> InScope(domainutil, initialDomain, x) && x in universe
    ensures forall u, h ::
              (u in fetched + Elements(recorded[|before|..]) && h in links(u) &&
               InScope(domainutil, initialDomain, ResolveHref(domainutil, u, h))) ==>
              ResolveHref(domainutil, u, h) in recorded
  {
    forall x | x in recorded[|before|..]
      ensures InScope(domainutil, initialDomain, x) && x in universe
    {
      var k :| 0 <= k < |recorded| - |before| && recorded[|before|..][k] == x;
      assert recorded[|before| + k] == x;
    }
  }

  /** A URL the decisor adds is of `universe` and was not in the record it started from. */
  lemma AddedAreNew(domainutil: Util, links: string -> seq<string>, initialDomain: string,
                    universe: set<string>, fetched: set<string>,
                    before: seq<string>, recorded: seq<string>, waiting: seq<string>, i: int)
    requires DecisorInvariant(domainutil, links, initialDomain, universe, fetched, before, recorded, waiting)
    requires |before| <= i < |recorded|
    ensures recorded[i] in universe && recorded[i] !in before
  {
    forall k | 0 <= k < |before|
      ensures before[k] != recorded[i]
    {
      assert before[k] == recorded[k];
    }
  }

  /**
   * The first URL the decisor adds is an in-scope candidate of an href on one
   * of the pages fetched on entry: nothing is recorded that was not found.
   */
  lemma FirstAddedWasFound(domainutil: Util, links: string -> seq<string>, initialDomain: string,
                           universe: set<string>, fetched: set<string>,
                           before: seq<string>, recorded: seq<string>, waiting: seq<string>)
    requires DecisorInvariant(domainutil, links, initialDomain, universe, fetched, before, recorded, waiting)
    requires |before| < |recorded|
    ensures InScope(domainutil, initialDomain, recorded[|before|])
    ensures exists u, h :: u in fetched && h in links(u) && ResolveHref(domainutil, u, h) == recorded[|before|]
  {
    var i := |before|;
    assert Discovered(domainutil, links, fetched + Elements(recorded[|before|..i]), recorded[i]);
    assert fetched + Elements(recorded[|before|..i]) == fetched;
  }

  /** A rejected candidate is dropped from the channel and the invariant is kept. */
  lemma RejectKeepsInvariant(domainutil: Util, links: string -> seq<string>, initialDomain: string,
                             universe: set<string>, fetched: set<string>,
                             before: seq<string>, recorded: seq<string>, waiting: seq<string>)
    requires |waiting| > 0
    requires DecisorInvariant(domainutil, links, initialDomain, universe, fetched, before, recorded, waiting)
    requires !(InScope(domainutil, initialDomain, waiting[0]) && waiting[0] !in recorded)
    ensures DecisorInvariant(domainutil, links, initialDomain, universe, fetched, before, recorded, waiting[1..])
  {
    RejectKeepsComplete(domainutil, links, initialDomain, fetched + Elements(recorded[|before|..]), recorded, waiting);
  }

  /**
   * An admitted candidate is recorded, its page's candidates join the
   * channel, and the invariant is kept; fewer URLs of `universe` remain
   * unrecorded.
   */
  lemma AcceptKeepsInvariant(domainutil: Util, links: string -> seq<string>, initialDomain: string,
                             universe: set<string>, fetched: set<string>,
                             before: seq<string>, recorded: seq<string>, waiting: seq<string>)
    requires |waiting| > 0
    requires LinksStayIn(domainutil, links, initialDomain, before, universe)
    requires DecisorInvariant(domainutil, links, initialDomain, universe, fetched, before, recorded, waiting)
    requires InScope(domainutil, initialDomain, waiting[0]) && waiting[0] !in recorded
    ensures DecisorInvariant(domainutil, links, initialDomain, universe, fetched, before, recorded + [waiting[0]],
                             waiting[1..] + ResolveAll(domainutil, waiting[0], links(waiting[0])))
    ensures Unrecorded(universe, recorded + [waiting[0]]) < Unrecorded(universe, recorded)
  {
    var x := waiting[0];
    var recorded' := recorded + [x];
    var waiting' := waiting[1..] + ResolveAll(domainutil, x, links(x));
    RecordKeepsNoDuplicates(before, recorded, x);
    RecordShrinksUnrecorded(universe, recorded, x);
    AcceptKeepsComplete(domainutil, links, initialDomain, fetched + Elements(recorded[|before|..]), recorded, waiting);
    AddedPagesSnoc(fetched, before, recorded, x);
    assert x !in before by {
      assert forall i :: 0 <= i < |before| ==> before[i] == recorded[i];
    }
    CandidatesStayIn(domainutil, links, initialDomain, before, universe, x);
    AddedStayDiscovered(domainutil, links, fetched, before, recorded, x);
    WaitingStayDiscovered(domainutil, links, fetched + Elements(recorded[|before|..]), waiting);
  }

  /** Recording the head `x` of the channel keeps every added URL traced to a page fetched before it. */
  lemma AddedStayDiscovered(domainutil: Util, links: string -> seq<string>, fetched: set<string>,
                            before: seq<string>, recorded: seq<string>, x: string)
    requires |before| <= |recorded|
    requires forall i :: |before| <= i < |recorded| ==>
               Discovered(domainutil, links, fetched + Elements(recorded[|before|..i]), recorded[i])
    requires Discovered(domainutil, links, fetched + Elements(recorded[|before|..]), x)
    ensures forall i :: |before| <= i < |recorded| + 1 ==>
              Discovered(domainutil, links, fetched + Elements((recorded + [x])[|before|..i]), (recorded + [x])[i])
  {
    var recorded' := recorded + [x];
    forall i | |before| <= i < |recorded'|
      ensures Discovered(domainutil, links, fetched + Elements(recorded'[|before|..i]), recorded'[i])
    {
      assert recorded'[|before|..i] == recorded[|before|..i];
      if i < |recorded| {
        assert recorded'[i] == recorded[i];
      }
    }
  }

  /**
   * Dropping the head `x` of the channel and queueing its page's candidates
   * keeps every waiting URL traced to a fetched page, `x` now among them.
   */
  lemma WaitingStayDiscovered(domainutil: Util, links: string -> seq<string>, pages: set<string>,
                              waiting: seq<string>)
    requires |waiting| > 0
    requires forall u :: u in waiting ==> Discovered(domainutil, links, pages, u)
    ensures forall u :: u in waiting[1..] + ResolveAll(domainutil, waiting[0], links(waiting[0])) ==>
              Discovered(domainutil, links, pages + {waiting[0]}, u)
  {
    var x := waiting[0];
    forall u | u in waiting[1..] + ResolveAll(domainutil, x, links(x))
      ensures Discovered(domainutil, links, pages + {x}, u)
    {
      if u in waiting[1..] {
        assert u in waiting && Discovered(domainutil, links, pages, u);
        var p, h :| p in pages && h in links(p) && ResolveHref(domainutil, p, h) == u;
        assert p in pages + {x};
      } else {
        var k :| 0 <= k < |links(x)| && ResolveAll(domainutil, x, links(x))[k] == u;
        assert links(x)[k] in links(x);
      }
    }
  }

  /** Recording `x` adds it to the pages fetched since `before`. */
  lemma AddedPagesSnoc(fetched: set<string>, before: seq<string>, recorded: seq<string>, x: string)
    requires |before| <= |recorded|
    ensures fetched + Elements((recorded + [x])[|before|..]) == fetched + Elements(recorded[|before|..]) + {x}
  {
    assert (recorded + [x])[|before|..] == recorded[|before|..] + [x];
  }

  /** The candidates of an in-scope page of `universe` not recorded before are in `universe`. */
  lemma CandidatesStayIn(domainutil: Util, links: string -> seq<string>, initialDomain: string,
                         before: seq<string>, universe: set<string>, page: string)
    requires LinksStayIn(domainutil, links, initialDomain, before, universe)
    requires page in universe && InScope(domainutil, initialDomain, page) && page !in before
    ensures forall u :: u in ResolveAll(domainutil, page, links(page)) ==> u in universe
  {
  }

  /** URLs of `universe` not yet recorded: a bound on the admissions still to come. */
  ghost function Unrecorded(universe: set<string>, recorded: seq<string>): nat
  {
    |universe - Elements(recorded)|
  }

  /**
   * The decisor's handling of a received candidate `url`, the head of
   * `waiting`: admit it and run its worker, or drop it. The invariant is kept,
   * one worker is registered and finishes for each admission, and either
   * fewer URLs of `universe` are unrecorded or nothing was recorded and the
   * channel is shorter.
   */
  method DecideReceived(domainutil: Util, context: CrawlioContext, urlschannel: Channel,
                        crawlers: WaitGroup, collector: Collector, url: string,
                        ghost universe: set<string>, ghost fetched: set<string>,
                        ghost before: seq<string>, ghost waiting: seq<string>)
    requires |waiting| > 0 && url == waiting[0] && urlschannel.queue == waiting[1..]
    requires !urlschannel.closed && crawlers.Counter() == 0
    requires LinksStayIn(domainutil, collector.links, context.initialDomain, before, universe)
    requires DecisorInvariant(domainutil, collector.links, context.initialDomain, universe, fetched,
                              before, context.crawledUrls, waiting)
    modifies context, urlschannel, crawlers
    ensures context.crawledUrls == if old(IsCrawlable(domainutil, context, url))
                                   then old(context.crawledUrls) + [url] else old(context.crawledUrls)
    ensures urlschannel.queue == if old(IsCrawlable(domainutil, context, url))
                                 then waiting[1..] + ResolveAll(domainutil, url, collector.links(url))
                                 else waiting[1..]
    ensures !urlschannel.closed
    ensures DecisorInvariant(domainutil, collector.links, context.initialDomain, universe, fetched,
                             before, context.crawledUrls, urlschannel.queue)
    ensures crawlers.added == old(crawlers.added) + (|context.crawledUrls| - |old(context.crawledUrls)|)
    ensures crawlers.done == old(crawlers.done) + (|context.crawledUrls| - |old(context.crawledUrls)|)
    ensures || Unrecorded(universe, context.crawledUrls) < Unrecorded(universe, old(context.crawledUrls))
            || (context.crawledUrls == old(context.crawledUrls) && |urlschannel.queue| < |waiting|)
  {
    ghost var recorded := context.crawledUrls;
    var accepted := AdmitCandidate(domainutil, context, url, crawlers);
    if accepted {
      AcceptKeepsInvariant(domainutil, collector.links, context.initialDomain, universe, fetched,
                           before, recorded, waiting);
      Crawler(domainutil, url, urlschannel, crawlers, collector);
    } else {
      RejectKeepsInvariant(domainutil, collector.links, context.initialDomain, universe, fetched,
                           before, recorded, waiting);
    }
  }

  /**
   * `UrlCrawlingDecisor`, sequentialised. `universe` is a finite set of URLs
   * that the candidates never leave, which bounds the crawl; `fetched` are the
   * pages whose candidates are already in the channel on entry.
   */
  method UrlCrawlingDecisor(domainutil: Util, context: CrawlioContext, urlschannel: Channel,
                            crawlers: WaitGroup, scheduler: WaitGroup, collector: Collector,
                            ghost universe: set<string>, ghost fetched: set<string>)
    requires crawlers != scheduler
    requires !urlschannel.closed
    requires crawlers.Counter() == 0 && scheduler.Counter() > 0
    requires LinksStayIn(domainutil, collector.links, context.initialDomain, context.crawledUrls, universe)
    requires DecisorInvariant(domainutil, collector.links, context.initialDomain, universe, fetched,
                              context.crawledUrls, context.crawledUrls, urlschannel.queue)
    modifies context, urlschannel, crawlers, scheduler
    ensures DecisorInvariant(domainutil, collector.links, context.initialDomain, universe, fetched,
                             old(context.crawledUrls), context.crawledUrls, [])
    ensures crawlers.added == old(crawlers.added) + (|context.crawledUrls| - |old(context.crawledUrls)|)
    ensures crawlers.Counter() == 0
    ensures scheduler.added == old(scheduler.added) && scheduler.done == old(scheduler.done) + 1
    ensures urlschannel.closed && urlschannel.queue == []
  {
    ghost var before := context.crawledUrls;
    var keepRunning := true;
    while keepRunning
      invariant keepRunning ==> !urlschannel.closed
      invariant !keepRunning ==> urlschannel.closed && urlschannel.queue == []
      invariant DecisorInvariant(domainutil, collector.links, context.initialDomain, universe, fetched,
                                 before, context.crawledUrls, urlschannel.queue)
      invariant crawlers.added == old(crawlers.added) + (|context.crawledUrls| - |before|)
      invariant crawlers.done == old(crawlers.done) + (|context.crawledUrls| - |before|)
      invariant scheduler.added == old(scheduler.added) && scheduler.done == old(scheduler.done)
      decreases Unrecorded(universe, context.crawledUrls), |urlschannel.queue|,
                if urlschannel.closed then 0 else 1, if keepRunning then 1 else 0
    {
      if urlschannel.queue == [] && !urlschannel.closed {
        // The receive would block here. Every worker has finished, so the
        // controller's crawlers.Wait() returns and it closes the channel.
        crawlers.Wait();
        urlschannel.Close();
      }
      ghost var waiting := urlschannel.queue;
      var url, ok := urlschannel.Receive();
      if ok {
        DecideReceived(domainutil, context, urlschannel, crawlers, collector, url,
                       universe, fetched, before, waiting);
      } else {
        keepRunning := false;
      }
    }
    scheduler.Done();
  }

  /** `DefaultCrawlioContextHandler`: the session controller. */
  class DefaultCrawlioContextHandler {
    var context: CrawlioContext?
    var collector: Collector?
    var urlschannel: Channel?
    var crawlers: WaitGroup?
    var scheduler: WaitGroup?

    /** The zero value of the struct: every field nil. */
    constructor ()
      ensures context == null && collector == null && urlschannel == null
      ensures crawlers == null && scheduler == null
    {
      context, collector, urlschannel, crawlers, scheduler := null, null, null, null, null;
    }

    /** Every field is set, and the two WaitGroups are distinct. */
    ghost predicate Ready()
      reads this
    {
      context != null && collector != null && urlschannel != null &&
      crawlers != null && scheduler != null && crawlers != scheduler
    }

    /**
     * `Init`: refuse a nil context or collector and leave the handler as it
     * was; otherwise store both with a fresh channel and two fresh WaitGroups.
     */
    method Init(context: CrawlioContext?, collector: Collector?) returns (err: Option<string>)
      modifies this
      ensures (context == null || collector == null) ==> err == Some(NO_CONTEXT) && unchanged(this)
      ensures (context != null && collector != null) ==>
                && err == None
                && this.context == context && this.collector == collector
                && Ready()
                && fresh(urlschannel) && fresh(crawlers) && fresh(scheduler)
                && urlschannel.queue == [] && !urlschannel.closed
                && crawlers.added == 0 && crawlers.done == 0
                && scheduler.added == 0 && scheduler.done == 0
    {
      if context == null || collector == null {
        return Some(NO_CONTEXT);
      }
      this.context := context;
      this.collector := collector;
      urlschannel := new Channel();
      crawlers := new WaitGroup();
      scheduler := new WaitGroup();
      err := None;
    }

    /**
     * `Crawl`: register the seed's worker and the decisor, fetch the seed,
     * run the decisor until the channel is closed and drained, then wait for
     * the decisor. The seed itself is not recorded. `universe` is a finite
     * set of URLs holding the seed's candidates that candidates never leave.
     */
    method Crawl(domainutil: Util, ghost universe: set<string>)
      requires Ready()
      requires urlschannel.queue == [] && !urlschannel.closed
      requires crawlers.Counter() == 0 && scheduler.Counter() == 0
      requires forall h :: h in collector.links(context.initialDomain) ==>
                 ResolveHref(domainutil, context.initialDomain, h) in universe
      requires LinksStayIn(domainutil, collector.links, context.initialDomain, context.crawledUrls, universe)
      modifies context, urlschannel, crawlers, scheduler
      ensures DecisorInvariant(domainutil, collector.links, context.initialDomain, universe, {context.initialDomain},
                               old(context.crawledUrls), context.crawledUrls, [])
      ensures crawlers.added == old(crawlers.added) + 1 + (|context.crawledUrls| - |old(context.crawledUrls)|)
      ensures crawlers.Counter() == 0
      ensures scheduler.added == old(scheduler.added) + 1 && scheduler.Counter() == 0
      ensures urlschannel.closed && urlschannel.queue == []
    {
      crawlers.Add(1);
      scheduler.Add(1);
      Crawler(domainutil, context.initialDomain, urlschannel, crawlers, collector);
      FetchedPageComplete(domainutil, collector.links, context.initialDomain, context.initialDomain, context.crawledUrls);
      assert context.crawledUrls[|context.crawledUrls|..] == [];
      forall u | u in urlschannel.queue
        ensures u in universe
        ensures Discovered(domainutil, collector.links,
                           {context.initialDomain} + Elements(context.crawledUrls[|context.crawledUrls|..]), u)
      {
        var candidates := ResolveAll(domainutil, context.initialDomain, collector.links(context.initialDomain));
        var k :| 0 <= k < |candidates| && candidates[k] == u;
        assert collector.links(context.initialDomain)[k] in collector.links(context.initialDomain);
      }
      UrlCrawlingDecisor(domainutil, context, urlschannel, crawlers, scheduler, collector,
                         universe, {context.initialDomain});
      scheduler.Wait();
    }
  }
}
