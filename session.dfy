/** The scraper's browser session (the module globals `browser`, `context`, `page`, `proxy_on`),
    the acquisition ladders built on it, and the two `scrape` entry points. Network, browser and
    environment are oracles collected in a `Web` value. */
module Session {
  import opened PyModel
  import opened Extract
  import opened Retry

  const Sources: seq<string> := ["amazon", "1688"]

  /** The user agents `initialize_browser` chooses from. */
  const UserAgents: seq<string> := [
    "Mozilla/5.0 (Windows NT 10.0; Win64; x64) AppleWebKit/537.36 (KHTML, like Gecko) Chrome/109.0.2227.0 Safari/537.36",
    "Mozilla/5.0 (Windows NT 10.0; Win64; x64) AppleWebKit/537.36 (KHTML, like Gecko) Chrome/110.0.0.0 Safari/537.36",
    "Mozilla/5.0 (Macintosh; Intel Mac OS X 10_15_7) AppleWebKit/537.36 (KHTML, like Gecko) Chrome/109.0.3497.92 Safari/537.36",
    "Mozilla/5.0 (Macintosh; Intel Mac OS X 10_15_0) AppleWebKit/537.36 (KHTML, like Gecko) Chrome/110.0.0.0 Safari/537.36"
  ]

  /** The default timeout set on every browser context, in milliseconds. */
  const DefaultTimeoutMs: int := 300000

  /** How many times `initialize_browser` asks the proxy source. */
  const ProxyAttempts: int := 3

  /** A launched browser: routed through a proxy server or not; never headless. */
  datatype BrowserHandle = BrowserHandle(proxyServer: Option<string>, headless: bool)
  datatype ContextHandle = ContextHandle(userAgent: string, ignoreHttpsErrors: bool, defaultTimeoutMs: int)
  datatype PageHandle = PageHandle

  /** What `requests.get` answered. */
  datatype Response = Response(status: int, text: string)

  /** The index `random.choice` picks among the user agents. */
  type AgentIndex = i: int | 0 <= i < 4

  /** Everything outside the process: each oracle is consulted where the source does the I/O. */
  datatype Web = Web(
    get: string -> Result<Response>,                    // requests.get(url); Err when it raised
    render: (bool, string) -> Option<string>,           // goto + content in the browser (proxied or not); None when it raised
    imageSearch: (bool, seq<string>) -> Result<Option<string>>, // the 1688 image search: Err when an image download
                                                        // or file write raised, None when the upload flow raised
    proxySource: nat -> Attempt<string>,                // the k-th call of get_free_proxy_2 within one initialisation
    agent: AgentIndex,                                  // random.choice(userAgentStrings)
    apiKey: Option<string>,                             // os.getenv('SCRAPER_API_KEY')
    extractAmazon: string -> Option<Extracted>,         // the three selectorlib extractors
    extract1688: string -> Option<Extracted>,
    extract1688Image: string -> Option<Extracted>)

  function AmazonSearchUrl(keyword: string): string
  {
    "https://www.amazon.com/s?k=" + keyword
  }

  function Search1688Url(keyword: string): string
  {
    "https://s.1688.com/selloffer/offer_search.htm?keywords=" + keyword
  }

  /** The page is requested through the scraping API instead of directly. */
  function ScraperApiUrl(key: string, url: string): string
  {
    "http://api.scraperapi.com?api_key=" + key + "&url=" + url
  }

  /** `os.getenv` gave a non-empty key. */
  predicate HasApiKey(key: Option<string>)
  {
    key.Some? && key.value != ""
  }

  /** Some attempt of the proxy source within the budget of `initialize_browser` gave an address. */
  ghost predicate ProxyFound(web: Web)
  {
    exists i :: 0 <= i < ProxyAttempts && Succeeded(web.proxySource(i))
  }

  /** What `download_with_driver` returns once the browser exists; `routed` says whether the
      browser goes through a proxy. */
  function DriverContents(web: Web, routed: bool, url: string, proxyUrl: bool): Option<string>
  {
    if proxyUrl && !HasApiKey(web.apiKey) then None
    else web.render(routed, if proxyUrl then ScraperApiUrl(web.apiKey.value, url) else url)
  }

  /** `get_amazon_corpus`: the body of a direct request, or the proxied driver result when the
      status is above 500; an exception of the request propagates. */
  function AmazonCorpus(web: Web, keyword: string, routed: bool): Result<Option<string>>
  {
    match web.get(AmazonSearchUrl(keyword))
    case Err(e) => Err(e)
    case Ok(response) =>
      if response.status > 500 then Ok(DriverContents(web, routed, AmazonSearchUrl(keyword), true))
      else Ok(Some(response.text))
  }

  /** `get_1688_corpus`: the driver's page when it passes the shape check, else a proxied retry. */
  function Corpus1688(web: Web, keyword: string, routed: bool): Option<string>
  {
    var first := DriverContents(web, routed, Search1688Url(keyword), false);
    if first.Some? && ShapeOk(web.extract1688(first.value)) then first
    else DriverContents(web, routed, Search1688Url(keyword), true)
  }

  function ScrapeCorpus(web: Web, keyword: string, source: string, routed: bool): Result<Option<string>>
  {
    if source == "amazon" then AmazonCorpus(web, keyword, routed) else Ok(Corpus1688(web, keyword, routed))
  }

  /** What `scrape` returns for a corpus step: its exception, or the extraction pipeline's result. */
  function ScrapeOutcome(corpus: Result<Option<string>>, extract: string -> Option<Extracted>,
                         removePartial: bool, maxResults: int): Result<Option<seq<Record>>>
  {
    match corpus
    case Err(e) => Err(e)
    case Ok(c) => Ok(FinishScrape(c, extract, removePartial, maxResults))
  }

  /** What `scrape_with_1688_image_search` returns for a corpus step: its exception, or the
      pipeline followed by the image-attribute loop. */
  function ImageScrapeOutcome(corpus: Result<Option<string>>, extract: string -> Option<Extracted>,
                              removePartial: bool, maxResults: int): Result<Option<seq<Record>>>
  {
    match corpus
    case Err(e) => Err(e)
    case Ok(c) => ImageSearchOutcome(FinishScrape(c, extract, removePartial, maxResults))
  }

  /** The proxy flag `download_with_1688_image_search` asks for: the given one, or the current one. */
  function RequestedProxy(proxyOn: Option<bool>, proxy: Option<bool>): Option<bool>
  {
    if proxy.None? then proxyOn else proxy
  }

  /** Its re-initialisation rule. */
  predicate NeedsReinit(browser: Option<BrowserHandle>, proxyOn: Option<bool>, proxy: Option<bool>)
  {
    browser.None? || proxyOn != RequestedProxy(proxyOn, proxy)
  }

  /** Without an explicit flag only a missing browser causes a re-initialisation; with one, a
      missing browser or a different proxy state does. */
  lemma NeedsReinitCases(browser: Option<BrowserHandle>, proxyOn: Option<bool>, proxy: Option<bool>)
    ensures proxy.None? ==> (NeedsReinit(browser, proxyOn, proxy) <==> browser.None?)
    ensures proxy.Some? ==> (NeedsReinit(browser, proxyOn, proxy) <==> browser.None? || proxyOn != proxy)
  {
  }

  /** A proxied request without an API key yields nothing, and the scraping API URL is used otherwise. */
  lemma DriverContentsProxy(web: Web, routed: bool, url: string)
    ensures !HasApiKey(web.apiKey) ==> DriverContents(web, routed, url, true) == None
    ensures HasApiKey(web.apiKey) ==> DriverContents(web, routed, url, true) == web.render(routed, ScraperApiUrl(web.apiKey.value, url))
    ensures DriverContents(web, routed, url, false) == web.render(routed, url)
  {
  }

  /** The Amazon escalation: only a status above 500 (and never 500 itself) leads to the driver. */
  lemma AmazonCorpusEscalation(web: Web, keyword: string, routed: bool)
    ensures web.get(AmazonSearchUrl(keyword)).Err? ==> AmazonCorpus(web, keyword, routed) == Err(web.get(AmazonSearchUrl(keyword)).error)
    ensures var response := web.get(AmazonSearchUrl(keyword));
      response.Ok? && response.value.status <= 500 ==> AmazonCorpus(web, keyword, routed) == Ok(Some(response.value.text))
    ensures var response := web.get(AmazonSearchUrl(keyword));
      response.Ok? && response.value.status > 500 ==>
        AmazonCorpus(web, keyword, routed) == Ok(DriverContents(web, routed, AmazonSearchUrl(keyword), true))
    ensures var response := web.get(AmazonSearchUrl(keyword));
      response.Ok? && response.value.status > 500 && !HasApiKey(web.apiKey) ==> AmazonCorpus(web, keyword, routed) == Ok(None)
  {
  }

  /** The 1688 escalation: a first page that passes the shape check is the answer; otherwise the
      answer is the proxied retry, whatever it is. */
  lemma Corpus1688Escalation(web: Web, keyword: string, routed: bool)
    ensures var first := web.render(routed, Search1688Url(keyword));
      && (first.Some? && ShapeOk(web.extract1688(first.value)) ==> Corpus1688(web, keyword, routed) == first)
      && (!(first.Some? && ShapeOk(web.extract1688(first.value))) ==>
            Corpus1688(web, keyword, routed) == DriverContents(web, routed, Search1688Url(keyword), true))
  {
  }

  /** The session globals of scrape_results_page.py. */
  class Scraper {
    var browser: Option<BrowserHandle>
    var context: Option<ContextHandle>
    var page: Option<PageHandle>
    var proxyOn: Option<bool>
    /** How many browsers have been launched; re-initialisation does not close the previous one. */
    ghost var launches: nat

    /** The four globals are set together and reset together; a running browser uses a proxy
        exactly when `proxy_on` is true. */
    ghost predicate Valid()
      reads this
    {
      && (browser.None? <==> context.None?)
      && (browser.None? <==> page.None?)
      && (browser.None? <==> proxyOn.None?)
      && (browser.Some? ==> proxyOn == Some(browser.value.proxyServer.Some?) && !browser.value.headless)
      && (context.Some? ==> context.value.userAgent in UserAgents && context.value.ignoreHttpsErrors
                            && context.value.defaultTimeoutMs == DefaultTimeoutMs)
    }

    /** At import time all four globals are None. */
    constructor ()
      ensures Valid()
      ensures browser == None && context == None && page == None && proxyOn == None
      ensures launches == 0
    {
      browser, context, page, proxyOn := None, None, None, None;
      launches := 0;
    }

    predicate ProxyActive()
      reads this
    {
      proxyOn == Some(true)
    }

    /** `initialize_browser`: `proxy_on` becomes true exactly when a proxy was asked for and the
        proxy source gave one; a fresh browser, context and page replace the old ones. */
    method InitializeBrowser(web: Web, withProxy: Option<bool> := Some(false))
      requires Valid()
      modifies this
      ensures Valid()
      ensures launches == old(launches) + 1
      ensures browser.Some? && page.Some?
      ensures proxyOn == Some(TruthyFlag(withProxy) && ProxyFound(web))
      ensures browser.value.proxyServer.Some? ==>
                exists i :: 0 <= i < ProxyAttempts && web.proxySource(i) == Returned(browser.value.proxyServer)
                            && forall j :: 0 <= j < i ==> !Succeeded(web.proxySource(j))
      ensures context == Some(ContextHandle(UserAgents[web.agent], true, DefaultTimeoutMs))
    {
      var address: Option<string> := None;
      if TruthyFlag(withProxy) {
        var outcome, calls, handled := CallUntilNotExceptionOrNone(ProxyAttempts, web.proxySource);
        address := outcome.value;
        if address.Some? {
          assert web.proxySource(calls - 1) == Returned(address);
        }
      }
      proxyOn := Some(address.Some?);
      browser := Some(BrowserHandle(address, false));
      context := Some(ContextHandle(UserAgents[web.agent], true, DefaultTimeoutMs));
      page := Some(PageHandle);
      launches := launches + 1;
    }

    /** `close_browser_instance`: all four globals go back to None. */
    method CloseBrowserInstance()
      requires Valid()
      modifies this
      ensures Valid()
      ensures browser == None && context == None && page == None && proxyOn == None
      ensures launches == old(launches)
    {
      browser, context, page, proxyOn := None, None, None, None;
    }

    /** `download_with_driver`: starts a browser without proxy if none runs (even when it then
        returns None for a missing API key), and returns the rendered page or None. */
    method DownloadWithDriver(url: string, web: Web, proxyUrl: bool := false) returns (contents: Option<string>)
      requires Valid()
      modifies this
      ensures Valid() && browser.Some?
      ensures old(browser).Some? ==> unchanged(this)
      ensures old(browser).None? ==> launches == old(launches) + 1 && proxyOn == Some(false)
      ensures contents == DriverContents(web, old(ProxyActive()), url, proxyUrl)
    {
      if browser.None? {
        InitializeBrowser(web);
      }
      var target := url;
      if proxyUrl {
        if !HasApiKey(web.apiKey) {
          return None;
        }
        target := ScraperApiUrl(web.apiKey.value, url);
      }
      contents := web.render(ProxyActive(), target);
    }

    /** `download_with_1688_image_search`: re-initialises exactly when no browser runs or the
        requested proxy flag (by default the current one) differs from `proxy_on`. */
    method DownloadWith1688ImageSearch(imageUrls: seq<string>, web: Web, proxy: Option<bool> := None)
      returns (content: Result<Option<string>>)
      requires Valid()
      modifies this
      ensures Valid() && browser.Some?
      ensures NeedsReinit(old(browser), old(proxyOn), proxy) ==>
                launches == old(launches) + 1
                && proxyOn == Some(TruthyFlag(RequestedProxy(old(proxyOn), proxy)) && ProxyFound(web))
      ensures !NeedsReinit(old(browser), old(proxyOn), proxy) ==> unchanged(this)
      ensures proxy == Some(false) ==> proxyOn == Some(false)
      ensures content == web.imageSearch(ProxyActive(), imageUrls)
    {
      var requested := RequestedProxy(proxyOn, proxy);
      if browser.None? || proxyOn != requested {
        InitializeBrowser(web, requested);
      }
      content := web.imageSearch(ProxyActive(), imageUrls);
    }

    /** `get_amazon_corpus`. */
    method GetAmazonCorpus(keyword: string, web: Web) returns (corpus: Result<Option<string>>)
      requires Valid()
      modifies this
      ensures Valid()
      ensures corpus == AmazonCorpus(web, keyword, old(ProxyActive()))
      ensures var response := web.get(AmazonSearchUrl(keyword));
        response.Err? || response.value.status <= 500 || old(browser).Some? ==> unchanged(this)
      ensures var response := web.get(AmazonSearchUrl(keyword));
        response.Ok? && response.value.status > 500 && old(browser).None? ==>
          launches == old(launches) + 1 && proxyOn == Some(false)
    {
      var url := AmazonSearchUrl(keyword);
      var response := web.get(url);
      if response.Err? {
        return Err(response.error);
      }
      if response.value.status > 500 {
        var contents := DownloadWithDriver(url, web, true);
        return Ok(contents);
      }
      return Ok(Some(response.value.text));
    }

    /** `get_1688_corpus`. */
    method Get1688Corpus(keyword: string, web: Web) returns (corpus: Option<string>)
      requires Valid()
      modifies this
      ensures Valid()
      ensures corpus == Corpus1688(web, keyword, old(ProxyActive()))
      ensures old(browser).Some? ==> unchanged(this)
      ensures old(browser).None? ==> launches == old(launches) + 1 && proxyOn == Some(false)
    {
      var url := Search1688Url(keyword);
      var first := DownloadWithDriver(url, web);
      if first.Some? {
        var extract := web.extract1688(first.value);
        if extract.Some? && extract.value.products.Some? {
          return first;
        }
      }
      corpus := DownloadWithDriver(url, web, true);
    }

    /** `get_1688_image_search_corpus`: the shape check is made, but both of its outcomes return
        the downloaded page. */
    method Get1688ImageSearchCorpus(imageUrls: seq<string>, web: Web) returns (corpus: Result<Option<string>>)
      requires Valid()
      modifies this
      ensures Valid()
      ensures corpus == web.imageSearch(ProxyActive(), imageUrls)
      ensures old(browser).Some? ==> unchanged(this)
      ensures old(browser).None? ==> launches == old(launches) + 1 && proxyOn == Some(false)
    {
      var downloaded := DownloadWith1688ImageSearch(imageUrls, web);
      if downloaded.Ok? && downloaded.value.Some? {
        var extract := web.extract1688Image(downloaded.value.value);
        if extract.Some? && extract.value.products.Some? {
          return downloaded;
        }
      }
      return downloaded;
    }

    /** `scrape`: the corpus from the source's ladder, then the extraction pipeline.
        `removeSponsored` is accepted and unused, as in the source. */
    method Scrape(keyword: string, source: string, web: Web, maxResults: int := 7,
                  removePartial: bool := false, removeSponsored: bool := false)
      returns (r: Result<Option<seq<Record>>>)
      requires Valid()
      requires source in Sources
      modifies this
      ensures Valid()
      ensures old(browser).Some? ==> unchanged(this)
      ensures old(browser).None? && source != "amazon" ==> launches == old(launches) + 1 && proxyOn == Some(false)
      ensures var response := web.get(AmazonSearchUrl(keyword));
        source == "amazon" && (response.Err? || response.value.status <= 500) ==> unchanged(this)
      ensures var response := web.get(AmazonSearchUrl(keyword));
        source == "amazon" && response.Ok? && response.value.status > 500 && old(browser).None? ==>
          launches == old(launches) + 1 && proxyOn == Some(false)
      ensures r == ScrapeOutcome(ScrapeCorpus(web, keyword, source, old(ProxyActive())),
                                 if source == "amazon" then web.extractAmazon else web.extract1688,
                                 removePartial, maxResults)
    {
      var fetched: Result<Option<string>>;
      if source == "amazon" {
        fetched := GetAmazonCorpus(keyword, web);
      } else {
        var page := Get1688Corpus(keyword, web);
        fetched := Ok(page);
      }
      assert fetched == ScrapeCorpus(web, keyword, source, old(ProxyActive()));
      if fetched.Err? {
        return Err(fetched.error);
      }
      var corpus := fetched.value;
      if corpus.None? {
        return Ok(None);
      }
      var result := if source == "amazon" then web.extractAmazon(corpus.value) else web.extract1688(corpus.value);
      if result.None? || result.value.products.None? {
        return Ok(None);
      }
      var products := result.value.products.value;
      if removePartial {
        products := KeepNonNullOnly(products);
      }
      return Ok(Some(SliceTo(products, maxResults)));
    }

    /** `scrape_with_1688_image_search`: as `scrape`, then the image attributes of the kept
        records are rewritten in place; an exception of that loop propagates. */
    method ScrapeWith1688ImageSearch(imageUrls: seq<string>, web: Web, maxResults: int := 20,
                                     removePartial: bool := false, removeSponsored: bool := false)
      returns (r: Result<Option<seq<Record>>>)
      requires Valid()
      modifies this
      ensures Valid()
      ensures old(browser).Some? ==> unchanged(this)
      ensures old(browser).None? ==> launches == old(launches) + 1 && proxyOn == Some(false)
      ensures ProxyActive() == old(ProxyActive())
      ensures r == ImageScrapeOutcome(web.imageSearch(ProxyActive(), imageUrls),
                                      web.extract1688Image, removePartial, maxResults)
    {
      var fetched := Get1688ImageSearchCorpus(imageUrls, web);
      if fetched.Err? {
        return Err(fetched.error);
      }
      var corpus := fetched.value;
      if corpus.None? {
        return Ok(None);
      }
      var result := web.extract1688Image(corpus.value);
      if result.None? || result.value.products.None? {
        return Ok(None);
      }
      var products := result.value.products.value;
      if removePartial {
        products := KeepNonNullOnly(products);
      }
      products := SliceTo(products, maxResults);
      var a := new Record[|products|](i requires 0 <= i < |products| => products[i]);
      assert a[..] == products;
      var err := RewriteImagesInPlace(a);
      if err.Some? {
        return Err(err.value);
      }
      return Ok(Some(a[..]));
    }
  }
}
