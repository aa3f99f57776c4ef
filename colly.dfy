/**
 * The colly page fetcher, reduced to what the crawler depends on: visiting a
 * URL yields the `href` attribute of every `a[href]` element of the page, in
 * document order, each delivered to the `OnHTML` callback. A failed fetch
 * yields no hrefs. The network, the HTML parser and the library's callback
 * bookkeeping are not part of this model.
 */
module Colly {

  class Collector {
    /** The hrefs that visiting a URL delivers to the callback. */
    const links: string -> seq<string>

    constructor (links: string -> seq<string>)
      ensures this.links == links
    {
      this.links := links;
    }
  }
}
