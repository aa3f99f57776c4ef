# crawlio admission logic in Dafny

This project models the scheduler of the crawlio web crawler
(`crawliocontexthandler.go`). Given a seed URL, the scheduler decides which
discovered links become new fetch work. It keeps a candidate when five
conditions all hold:

- the candidate has the seed's domain;
- it is not yet in the context's `crawledurls`;
- it has no subdomain;
- it contains no `#`;
- it contains no `..`.

Each kept candidate is recorded and gets its own `Crawler`, which fetches the
page and sends every href on it back to the decisor. A relative href is
joined onto the page URL by plain concatenation.

The modules follow the program's collaborators:

- `GoStrings` (`strings.dfy`): the Go `strings` functions the predicate calls.
- `DomainUtil` (`domainutil.dfy`): `domainutil.Domain` and
  `domainutil.HasSubdomain`, carried as a pair of uninterpreted functions
  (`Util`). Every member that depends on them takes a `domainutil: Util`
  parameter.
- `Colly` (`colly.dfy`): the page fetcher, reduced to `links: string -> seq<string>`.
  A failed fetch yields no hrefs.
- `Sync` and `Channels` (`sync.dfy`, `channel.dfy`): `sync.WaitGroup` as a
  counter, and `chan string` as a FIFO queue with a closed flag.
- `Crawlio` (`crawlio.dfy`): the core. It holds the context, `IsCrawlable`,
  href resolution, `Crawler`, the decisor loop, and the handler's `Init` and
  `Crawl`.
- `CrawlScenario` (`scenario.dfy`): a complete crawl of a four-link site, two
  sites whose only link from the seed leads off-site, and one whose only link
  from the seed is already recorded.

The schedule is sequential. A spawned `Crawler` runs to completion at once:
it sends its page's candidates, then calls `Done`. The decisor receives
candidates in FIFO order. When its receive would block, the queue is empty
and every worker has finished. At that point the controller's
`crawlers.Wait()` returns and it closes the channel. The model takes that
close at that point in the decisor's loop. `Wait` may only be called when the
counter is zero. In this one schedule, then, the channel is closed only when
no worker can still send. The Go program does not guarantee that under
other interleavings (see "## Left out").

`UrlCrawlingDecisor` and `Crawl` are proved to ensure the following:

- the record only grows;
- every URL added differs from every earlier entry, so a record that started
  duplicate-free stays so;
- every URL added is in scope;
- every URL added was found: it is the candidate of an href on a page
  fetched before it was added (the seed or an earlier addition);
- one worker is registered for the seed and one per recorded URL;
- both WaitGroups end at zero, and the channel ends closed and empty;
- the crawl is complete: every in-scope candidate found on any fetched page is
  recorded.

The seed itself is not recorded by `Crawl`. As a consequence, when the seed
is itself in scope and not yet recorded, a page that links back to it gets
the seed admitted and visited again. Whether colly fetches it again depends
on how the caller configured the collector. That follows from `IsCrawlable`
together with `Crawl`'s contract. A seed with a subdomain, a `#` or a `..`,
or one already recorded, is never admitted; an href of `/` is sent as `/`
and is not the seed either.

The record (`crawledurls`) is taken to be a slice, as its search with
`funk.Contains` and the appending `AddScrapedUrl` suggest; its declaration
is not part of this model. The model uses a sequence with a no-duplicates
invariant.

## Model

| member | source | states |
|---|---|---|
| `GoStrings.IndexRune` | crawliocontexthandler.go:108 | the result is the first index holding the rune, or -1 exactly when the rune occurs nowhere |
| `GoStrings.Index` | crawliocontexthandler.go:109 | the result is the first index at which the substring occurs, or -1 exactly when it occurs nowhere |
| `GoStrings.ContainsRune` | crawliocontexthandler.go:108 | true exactly when some position holds the rune |
| `GoStrings.Contains` | crawliocontexthandler.go:109 | true exactly when the substring occurs at some position |
| `Crawlio.IsCrawlable` | crawliocontexthandler.go:104-110 | true exactly when all five hold: same domain as the seed, not in `crawledurls`, no subdomain, no `#` at any position, no `..` at any position; so any single failed condition makes it false |
| `Crawlio.FragmentRejected` | crawliocontexthandler.go:108 | `https://example.com/page#section` is rejected, whatever the domain functions and the record say |
| `Crawlio.TraversalRejected` | crawliocontexthandler.go:109 | `https://example.com/../etc` is rejected, whatever the domain functions and the record say |
| `Crawlio.ResolveHref` | crawliocontexthandler.go:66-71 | an href with empty domain other than `/` becomes the page URL followed by the href, character for character; every other href, `/` included, is kept unchanged |
| `Crawlio.ResolveRelativeExample` | crawliocontexthandler.go:67-68 | `/about` found on `https://example.com/blog/post` becomes `https://example.com/blog/post/about` |
| `Crawlio.CrawlioContext.AddScrapedUrl` | crawliocontexthandler.go:92 | appends the URL to `crawledurls` (the assumed behaviour of the unseen method) |
| `Crawlio.Crawler` | crawliocontexthandler.go:60-79 | sends the resolved candidate of every href of the page, in order, and calls `Done` exactly once |
| `Crawlio.AdmitCandidate` | crawliocontexthandler.go:91-96 | a crawlable URL is appended to the record and the crawlers counter rises by exactly 1; a rejected one changes neither |
| `Crawlio.RecordKeepsNoDuplicates` | crawliocontexthandler.go:91-92 | recording a URL that the not-contained check passed adds no duplicate: it differs from every earlier entry |
| `Crawlio.NoDuplicatesKept` | crawliocontexthandler.go:91-92 | a record that started duplicate-free and only had such URLs added has no duplicate |
| `Crawlio.AddedAreNew` | crawliocontexthandler.go:91-92 | every URL the decisor adds is of the universe and was not in the record it started from |
| `Crawlio.FirstAddedWasFound` | crawliocontexthandler.go:89-92 | the first URL the decisor records is in scope and is the candidate of an href on a page fetched on entry |
| `Crawlio.FinishedDecisor` | crawliocontexthandler.go:88-100 | once the channel is drained, every URL added is in scope, and every in-scope candidate of a fetched page (one fetched on entry or any URL added) is recorded |
| `Crawlio.AddedStayDiscovered` | crawliocontexthandler.go:91-92 | recording the received URL keeps every added URL traced to a page fetched before it |
| `Crawlio.WaitingStayDiscovered` | crawliocontexthandler.go:89-95 | taking the received URL off the channel and sending its page's candidates keeps every waiting URL traced to a fetched page |
| `Crawlio.FetchedPageComplete` | crawliocontexthandler.go:65-71 | right after a fetch, every candidate of the page is waiting in the channel |
| `Crawlio.RejectKeepsComplete` | crawliocontexthandler.go:91 | dropping a rejected candidate loses no in-scope candidate of a fetched page |
| `Crawlio.AcceptKeepsComplete` | crawliocontexthandler.go:91-95 | recording an admitted candidate and sending its page's candidates keeps every fetched page, the new one included, complete |
| `Crawlio.RejectKeepsInvariant` | crawliocontexthandler.go:89-96 | a rejected candidate leaves the record as it is and keeps the decisor's invariant |
| `Crawlio.AcceptKeepsInvariant` | crawliocontexthandler.go:89-95 | an admitted candidate keeps the decisor's invariant (growth, no duplicate added, in scope, every added and waiting URL found on a fetched page, completeness) and leaves fewer URLs of the universe unrecorded |
| `Crawlio.DecideReceived` | crawliocontexthandler.go:89-96 | one received candidate: exactly when it was crawlable, it is appended to the record and its page's candidates follow the rest of the channel; otherwise the record is unchanged and the channel holds the rest; the invariant is kept, and one worker is registered and finishes per admission |
| `Crawlio.UrlCrawlingDecisor` | crawliocontexthandler.go:82-101 | terminates with: the record extended by distinct URLs not in it before, all in scope and each the candidate of an href on a page fetched before it was added; every in-scope candidate of every fetched page recorded; one registration per recorded URL; the crawlers counter at zero; the channel closed and drained; the scheduler's `Done` called once |
| `Crawlio.DefaultCrawlioContextHandler.Init` | crawliocontexthandler.go:28-38 | a nil context or collector yields the error "No context available" and changes no field; otherwise it returns no error, stores both, and sets a fresh open empty channel and two fresh zero WaitGroups |
| `Crawlio.DefaultCrawlioContextHandler.Crawl` | crawliocontexthandler.go:40-57 | registered crawlers are 1 for the seed plus one per recorded URL; the seed is fetched but not recorded; every added URL is distinct, not in the record before, in scope, and found on the seed or on an earlier addition; the crawl is complete; both counters end at zero; the channel ends closed |
| `CrawlScenario.CrawlSiteTest` | crawliocontexthandler.go:40-110 | seed `http://site.test/` whose page links `/a`, `http://site.test/b`, `http://other.test/c` and `http://sub.site.test/d` ends with exactly `{http://site.test//a, http://site.test/b}` recorded |
| `CrawlScenario.SiteOutcome` | crawliocontexthandler.go:82-110 | a decisor that has finished over the seed's candidates of that site has recorded exactly those two URLs: the other domain and the subdomain are out of scope, the relative and the same-domain link are in |
| `CrawlScenario.OffSiteOutcome` | crawliocontexthandler.go:82-110 | a seed linking only to another domain's page records nothing, even though that unfetched page links back into the site |
| `CrawlScenario.RecordedOutcome` | crawliocontexthandler.go:82-110 | a finished decisor over a seed whose only link is a page already recorded has added nothing, with that page as the whole universe |
| `CrawlScenario.CrawlRecordedTest` | crawliocontexthandler.go:40-110 | a crawl whose seed links only to an already recorded page, which starts an endless in-site chain of links, adds nothing to the record |
| `CrawlScenario.ChainOutcome` | crawliocontexthandler.go:82-110 | a finished decisor over a seed whose only link is an off-site page has recorded nothing, with that page as the whole universe |
| `CrawlScenario.CrawlChainTest` | crawliocontexthandler.go:40-110 | a crawl whose seed links only to an off-site page that starts an endless chain of links ends with nothing recorded |
| `Channels.Channel.constructor` | crawliocontexthandler.go:34 | `make(chan string)`: an open channel with nothing waiting |
| `Channels.Channel.Send` | crawliocontexthandler.go:68-70 | a send on an open channel appends the value to the queue |
| `Channels.Channel.Receive` | crawliocontexthandler.go:89-90 | yields the oldest waiting value and true, or, on a closed and drained channel, "" and false |
| `Channels.Channel.Close` | crawliocontexthandler.go:53 | closes an open channel with no sender waiting; a double close, or a close with a sender still blocked, is excluded where Go panics |
| `Sync.WaitGroup.constructor` | crawliocontexthandler.go:35-36 | `&sync.WaitGroup{}`: a counter at zero with nothing ever added |
| `Sync.WaitGroup.Add` | crawliocontexthandler.go:43 | raises the counter by the delta |
| `Sync.WaitGroup.Done` | crawliocontexthandler.go:63 | lowers a positive counter by one |
| `Sync.WaitGroup.Wait` | crawliocontexthandler.go:52-56 | returns only with the counter at zero; called only where it would not block |

## Left out

- Goroutines, the unbuffered rendezvous channel and WaitGroup blocking: the
  model runs one sequential schedule. It does not cover other interleavings.
  In the model, `close` happens inside the decisor's loop at the point where
  the decisor's receive would block.
- The premature close under other interleavings. Between the decisor's
  receive (crawliocontexthandler.go:89) and its `crawlers.Add(1)` (:94), the
  worker that sent the URL can run its deferred `Done` (:63) and drop the
  counter to zero. `crawlers.Wait()` (:52) then returns and the channel is
  closed (:53) while the decisor is still admitting that URL. The Crawler it
  spawns then panics when it sends on the closed channel (:68, :70), or the
  decisor exits (:98) while that Crawler is still running. The model's
  schedule never opens this window, so none of its results cover it.
- colly's `OnHTML`, `Visit` and `e.Attr`: a fetch is the function `links`.
  Each `Crawler` registers one more callback on the shared collector, and
  every `Visit` fires all the callbacks registered so far. In the source,
  then, each href of a visited page is sent once per `Crawler` that has
  registered its callback so far, the visiting one included, each time
  joined onto that `Crawler`'s own page URL. The model does not
  reproduce these repeated sends: each page's hrefs are sent once, joined
  onto that page's URL.
- The internals of `domainutil.Domain` and `domainutil.HasSubdomain` (public
  suffix logic): they are uninterpreted, and `CrawlSiteTest` states as a
  precondition (`SiteDomains`) the facts it needs about them.
- `PrintScrappedUrlsStats` (crawliocontexthandler.go:93): output only.
- The file declaring the `CrawlioContext` struct and `AddScrapedUrl` is not
  part of this model. The context is a class with `initialDomain` and
  `crawledUrls`, and `AddScrapedUrl` is assumed to append.
- Go strings are UTF-8 bytes and the model uses `seq<char>`. For the needles
  `#` and `..`, whether a match exists is the same in both views, because
  ASCII bytes never occur inside a multi-byte sequence. The index values
  differ: `GoStrings.IndexRune` and `GoStrings.Index` count characters, where
  Go counts bytes (Go's `strings.Index("é..", "..")` is 2, the model's is 1).
  Only the `Contains` results are used by the crawl.
- Crawlio.UrlCrawlingDecisor: takes a ghost finite `universe` of URLs that
  the candidates of in-scope pages never leave. Links of out-of-scope pages,
  and of pages already in the record when the crawl starts, are
  unconstrained, because such pages are never fetched. Dafny methods must
  terminate, but the source runs forever when the in-scope pages it can
  reach never end.
- Crawlio.DefaultCrawlioContextHandler.Crawl: takes the same ghost
  `universe`. It also requires a successful `Init` and an unused handler:
  in Go, a nil field panics, and a second `Crawl` panics on the closed
  channel.
