/**
 * A whole crawl of a small site: the seed page "http://site.test/" links to
 * "/a", "http://site.test/b", "http://other.test/c" and
 * "http://sub.site.test/d", and no other page has links. The relative href
 * is joined with a doubled slash, the other domain and the subdomain are
 * rejected, and exactly two URLs are recorded.
 */
module CrawlScenario {
  import opened DomainUtil
  import opened Colly
  import opened Crawlio

  const SEED := "http://site.test/"
  const A := "http://site.test//a"
  const B := "http://site.test/b"
  const C := "http://other.test/c"
  const D := "http://sub.site.test/d"

  /** The hrefs each page of the site delivers. */
  function SiteLinks(url: string): seq<string>
  {
    if url == SEED then ["/a", B, C, D] else []
  }

  /**
   * The domain facts the scenario relies on: "/a" is relative, A and B have
   * the seed's domain and no subdomain, C has another domain, D a subdomain.
   */
  ghost predicate SiteDomains(domainutil: Util)
  {
    && domainutil.Domain("/a") == ""
    && domainutil.Domain(A) == domainutil.Domain(SEED) && !domainutil.HasSubdomain(A)
    && domainutil.Domain(B) == domainutil.Domain(SEED) && !domainutil.HasSubdomain(B)
    && domainutil.Domain(B) != "" && domainutil.Domain(C) != "" && domainutil.Domain(D) != ""
    && domainutil.Domain(C) != domainutil.Domain(SEED)
    && domainutil.HasSubdomain(D)
  }

  /** What a finished decisor leaves after fetching the seed of the site: exactly A and B. */
  lemma SiteOutcome(domainutil: Util, recorded: seq<string>)
    requires SiteDomains(domainutil)
    requires DecisorInvariant(domainutil, SiteLinks, SEED, {A, B, C, D}, {SEED}, [], recorded, [])
    ensures Elements(recorded) == {A, B}
  {
    FinishedDecisor(domainutil, SiteLinks, SEED, {A, B, C, D}, {SEED}, [], recorded);
    assert recorded[0..] == recorded;
    forall x | x in recorded
      ensures x == A || x == B
    {
      assert InScope(domainutil, SEED, x) && x in {A, B, C, D};
    }
    NoDoubleDot(A);
    NoDoubleDot(B);
    assert "/a" in SiteLinks(SEED) && B in SiteLinks(SEED);
    assert ResolveHref(domainutil, SEED, "/a") == A;
    assert ResolveHref(domainutil, SEED, B) == B;
  }

  /** The crawl of the site records exactly the joined "/a" and the same-domain "b". */
  method CrawlSiteTest(domainutil: Util) returns (scraped: set<string>)
    requires SiteDomains(domainutil)
    ensures scraped == {A, B}
  {
    var context := new CrawlioContext(SEED);
    var collector := new Collector(SiteLinks);
    var handler := new DefaultCrawlioContextHandler();
    var err := handler.Init(context, collector);
    ghost var universe := {A, B, C, D};
    assert SEED + "/a" == A;
    assert forall u :: u in universe ==> SiteLinks(u) == [];
    handler.Crawl(domainutil, universe);
    SiteOutcome(domainutil, context.crawledUrls);
    scraped := Elements(context.crawledUrls);
  }

  const E := "http://site.test/e"

  /**
   * A second site: the seed links only to the other domain's page C, and C,
   * which the crawl never fetches, links back to the site's page E.
   */
  function OffSiteLinks(url: string): seq<string>
  {
    if url == SEED then [C] else if url == C then [E] else []
  }

  /**
   * On that site nothing is recorded: E is never found, because the only
   * page linking to it is out of scope and so never fetched.
   */
  lemma OffSiteOutcome(domainutil: Util, recorded: seq<string>)
    requires domainutil.Domain(C) != "" && domainutil.Domain(C) != domainutil.Domain(SEED)
    requires DecisorInvariant(domainutil, OffSiteLinks, SEED, {C, E}, {SEED}, [], recorded, [])
    ensures recorded == []
  {
    assert ResolveHref(domainutil, SEED, C) == C;
    if |recorded| > 0 {
      FirstAddedWasFound(domainutil, OffSiteLinks, SEED, {C, E}, {SEED}, [], recorded, []);
      assert false;
    }
  }

  /**
   * A third site: the seed links only to the other domain's page C, and every
   * other page links on to a longer URL, so the pages reachable through C
   * never end.
   */
  function ChainLinks(url: string): seq<string>
  {
    if url == SEED then [C] else [url + "x"]
  }

  /** A finished decisor over that site, with C as the whole universe, has recorded nothing. */
  lemma ChainOutcome(domainutil: Util, recorded: seq<string>)
    requires domainutil.Domain(C) != "" && domainutil.Domain(C) != domainutil.Domain(SEED)
    requires DecisorInvariant(domainutil, ChainLinks, SEED, {C}, {SEED}, [], recorded, [])
    ensures recorded == []
  {
    assert ResolveHref(domainutil, SEED, C) == C;
    if |recorded| > 0 {
      FirstAddedWasFound(domainutil, ChainLinks, SEED, {C}, {SEED}, [], recorded, []);
      assert false;
    }
  }

  /**
   * The crawl of that site ends with nothing recorded: C is rejected and
   * never fetched, so its endless chain of links is never followed.
   */
  method CrawlChainTest(domainutil: Util) returns (scraped: seq<string>)
    requires domainutil.Domain(C) != "" && domainutil.Domain(C) != domainutil.Domain(SEED)
    ensures scraped == []
  {
    var context := new CrawlioContext(SEED);
    var collector := new Collector(ChainLinks);
    var handler := new DefaultCrawlioContextHandler();
    var err := handler.Init(context, collector);
    handler.Crawl(domainutil, {C});
    ChainOutcome(domainutil, context.crawledUrls);
    scraped := context.crawledUrls;
  }

  const X := "http://site.test/x"

  /**
   * A fourth site: the seed links only to X, and every other page links on
   * to a longer URL of the same site, so the in-scope pages reachable through
   * X never end.
   */
  function RecordedLinks(url: string): seq<string>
  {
    if url == SEED then [X] else [url + "y"]
  }

  /** A finished decisor that started with X recorded, over the universe {X}, has added nothing. */
  lemma RecordedOutcome(domainutil: Util, recorded: seq<string>)
    requires DecisorInvariant(domainutil, RecordedLinks, SEED, {X}, {SEED}, [X], recorded, [])
    ensures recorded == [X]
  {
    assert recorded[0] == X;
    assert |recorded| == 1 ==> recorded == [X];
    if |recorded| > 1 {
      AddedAreNew(domainutil, RecordedLinks, SEED, {X}, {SEED}, [X], recorded, [], 1);
      assert false;
    }
  }

  /**
   * The crawl of that site with X already recorded adds nothing: X is
   * rejected as recorded and never fetched, so its endless chain of links
   * is never followed.
   */
  method CrawlRecordedTest(domainutil: Util) returns (scraped: seq<string>)
    requires domainutil.Domain(X) != "" && domainutil.Domain(X) == domainutil.Domain(SEED)
    ensures scraped == [X]
  {
    var context := new CrawlioContext(SEED);
    context.AddScrapedUrl(X);
    var collector := new Collector(RecordedLinks);
    var handler := new DefaultCrawlioContextHandler();
    var err := handler.Init(context, collector);
    handler.Crawl(domainutil, {X});
    RecordedOutcome(domainutil, context.crawledUrls);
    scraped := context.crawledUrls;
  }
}
