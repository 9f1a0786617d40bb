# A verified model of the product-sourcing scraper and analyst

The system finds a product sold on Amazon and looks for the same product on 1688, the Chinese
wholesale site. It then estimates what the product costs to source and what margin it leaves.
This project models three parts of it in Dafny and proves properties of the model:

- **The scraper** (`scraper/scrape_results_page.py`):
  - the post-extraction pipeline of `scrape` and `scrape_with_1688_image_search`: reject a
    missing product list, optionally drop partial records, cap the list, and rewrite the image
    attributes of image-search results;
  - the two bounded retry loops;
  - the browser session held in the module globals `browser`, `context`, `page` and `proxy_on`;
  - the escalation ladders that retry through a proxy.
- **The analyst** (`analyst.py`):
  - the currency and language helpers;
  - the list-shape check on model replies and the yes/no match verdict;
  - the loops that pair an Amazon listing with 1688 supplier listings and turn the pairs into a
    cost and a margin.
- **The conversation** (`api/conversation.py`): the transcript a `Conversation` object keeps, and
  how `message` extends it.

Files and modules:

| file | module | contents |
|---|---|---|
| `pymodel.dfy` | `PyModel` | `Option`, `Result`, the Python exceptions that escape, record values and truthiness |
| `extract.dfy` | `Extract` | `keep_non_null_only`, Python's `s[:n]`, the post-extraction pipeline, `extract_url_from_css` (the regular expression `url\("([^"]+)"\)` written out), the image-attribute loop |
| `retry.dfy` | `Retry` | `call_until_no_exception`, `call_until_not_exception_or_none` |
| `session.dfy` | `Session` | the class `Scraper`, whose fields are the four globals, and its methods |
| `analyst.dfy` | `Analyst` | `toUSD`, `languageOf`, `is_valid_list_of`, `match_pair`, `analyze_listing`, `analyze_keyword` |
| `chat.dfy` | `Chat` | the class `Conversation` |

Modelling choices:

- **Outside calls become oracles.** Everything outside the process is a function-typed field of
  an oracle value, consulted at the point where the source makes the call:
  - `Session.Web` holds `requests.get`, the browser's page render, the 1688 image-upload flow,
    the proxy source, the chosen user agent, the `SCRAPER_API_KEY` variable and the three
    selectorlib extractors;
  - `Analyst.Oracles` holds the two validated model exchanges, `ast.literal_eval`, `scrape(term,
    "1688")` and `float()` of a price text;
  - `Chat.Conversation.Message` takes the completion call as a parameter.
  
  Each oracle is a mathematical function, so two calls with the same arguments give the same
  answer.
- **Exceptions are values.** An exception that an oracle raises and the source does not catch
  is an `Err` of a `Result` that propagates.
  - `requests.get` in `get_amazon_corpus` can raise, and the error goes through `scrape`.
  - The image downloads and file writes of `download_with_1688_image_search` run before its
    `try`, so their error goes through `scrape_with_1688_image_search`.
  - `scrape(term, "1688")` inside `analyze_listing` and `scrape(keyword, "amazon")` inside
    `analyze_keyword` can raise too.
  - A retry handler is an oracle that may raise. A raising handler of `call_until_no_exception`,
    or a raising error handler of `call_until_not_exception_or_none`, ends the loop with an
    `Err`. A raising None handler runs inside the `try`, so its exception reaches the error
    handler for the same attempt. The only retry call, in `initialize_browser`, passes no
    handlers, so it never raises.
  
  Exceptions the source catches are folded into the oracle's answer: a render, or an upload flow
  inside the `try`, that raised gives `None`. The exceptions still not modelled are listed under
  "Left out".
- **Asserts come in two kinds.** An `assert` on an argument that must come from a fixed list
  (`source in sources`) is a `requires`. An `assert` on the keys of a record is an
  `Err(AssertionError)` path, because those records come from the extractor.
- **Prices are exact reals** and `round(x, 2)` is exact rounding, ties to even.

Behaviours of the code that the model keeps exactly as written:

- `message` does not roll back the user turn when the completion call raises.
  `Chat.FailureBreaksShape` shows the consequence.
- The shape check in `get_1688_image_search_corpus` has no effect. The fallback retry is
  commented out, so the page is returned whether or not the check passed.
- An `analyze_listing` result with pairs but no true verdict gives an estimated cost of 0.0. Only
  an empty pair list divides by zero.
- A search-term reply that parses to a dict, a set, a string or bytes is iterated like a list:
  over the keys, the members, the characters or the byte values.
- Iterating a `None` result of `scrape` in `analyze_keyword` raises `TypeError`.

## Model

| member | source | states |
|---|---|---|
| Extract.KeepNonNullOnly | scraper/scrape_results_page.py:364-365 | a record is kept exactly when it was in the input and every one of its values is non-null; the output is never longer than the input |
| Extract.KeepNonNullOnlyAppend | scraper/scrape_results_page.py:364-365 | filtering distributes over concatenation, so the kept records stay in their original order |
| Extract.KeepNonNullOnlyUnchanged | scraper/scrape_results_page.py:364-365 | the filter returns its input unchanged exactly when every record is complete |
| Extract.KeepNonNullOnlyIdempotent | scraper/scrape_results_page.py:364-365 | filtering twice is filtering once |
| Extract.SliceTo | scraper/scrape_results_page.py:60 | `s[:n]` is a prefix of `s` of length min(n, len) for n ≥ 0, and len + n clipped at 0 for negative n |
| Extract.PostprocessProperties | scraper/scrape_results_page.py:57-61 | the result is a prefix of the (optionally filtered) products; it is no longer than the products, at most `max_results` long when that is ≥ 0, holds only product records, and only complete records when filtering |
| Extract.FinishScrapeCases | scraper/scrape_results_page.py:41-61 | the pipeline gives None exactly when the corpus, the extractor result or its products are None; otherwise it gives the post-processed products |
| Extract.MatchAtCorrect | scraper/scrape_results_page.py:368-369 | the match attempted at one position succeeds exactly when the regular expression matches there, and then yields its group |
| Extract.SearchFromCorrect | scraper/scrape_results_page.py:368-369 | scanning from a position finds the leftmost match at or after it, and finds one whenever one exists |
| Extract.ExtractUrlFromCss | scraper/scrape_results_page.py:367-375 | a result is non-empty, quote-free, and the group of the leftmost `url("…")` match; None means the pattern occurs nowhere |
| Extract.ExtractUrlRoundTrip | scraper/scrape_results_page.py:367-375 | for a non-empty `u` without `"`, extracting from `url("` + u + `")` gives back `u` |
| Extract.UrlAtUnique | scraper/scrape_results_page.py:368 | at a given position the pattern has at most one group value |
| Extract.RewriteImagesShape | scraper/scrape_results_page.py:102-107 | when the loop finishes, there is one record per input record, each had and has an `image` key, no other key or value changes, and a truthy text attribute is replaced by the URL extracted from it (possibly None) |
| Extract.RewriteImagesFalsyReuses | scraper/scrape_results_page.py:102-107 | a falsy attribute takes the previous record's new image value, or the carried `image_url` for the first record |
| Extract.RewriteImagesUnbound | scraper/scrape_results_page.py:102-107 | a falsy attribute on the first record raises UnboundLocalError |
| Extract.RewriteImagesInPlace | scraper/scrape_results_page.py:102-107 | updating the array's records in place leaves exactly the records of the loop's specification, or reports the exception it raises |
| Retry.CallUntilNoException | scraper/scrape_results_page.py:386-399 | at most max(n, 0) calls; the handler gets attempt numbers 1..k for exactly the calls that raised; the first call that returns ends the loop with its result, even None; a handler that raises ends the loop with its exception, and only the last handler call can have raised; otherwise None after all n calls |
| Retry.CallUntilNotExceptionOrNone | scraper/scrape_results_page.py:401-422 | at most max(n, 0) calls; the handler calls are exactly those of the attempts made, in order; the loop ends at the first success, returning its result, or at the first attempt whose error handler raised, with that exception; otherwise None after all n calls; without an error handler the result is non-None exactly when one of the first n calls succeeds |
| Retry.AttemptLogCases | scraper/scrape_results_page.py:408-421 | an attempt makes no handler call exactly when it succeeds; a raising call makes one error-handler call; a None result makes one None-handler call, followed by an error-handler call for the same attempt when the None handler raised inside the `try` |
| Session.NeedsReinitCases | scraper/scrape_results_page.py:219-224 | without a proxy flag, only a missing browser re-initialises; with a flag, a missing browser or a different `proxy_on` does |
| Session.DriverContentsProxy | scraper/scrape_results_page.py:195-199 | a proxied download without an API key gives None; with a key it renders the scraping-API URL; otherwise the URL itself |
| Session.AmazonCorpusEscalation | scraper/scrape_results_page.py:133-144 | an exception of the request propagates; a status ≤ 500 returns the body of the direct request; above 500 the proxied driver decides, and gives None without an API key |
| Session.Corpus1688Escalation | scraper/scrape_results_page.py:151-161 | the first driver page is returned when its extraction has products; otherwise the proxied retry's result is |
| Session.Scraper.constructor | scraper/scrape_results_page.py:25 | a new session has no browser, context, page or proxy state |
| Session.Scraper.InitializeBrowser | scraper/scrape_results_page.py:272-320 | `proxy_on` becomes true exactly when a proxy was asked for and one of the three proxy attempts gave an address, and the browser's server is the address of the first attempt that gave one; the context uses the chosen user agent, ignores HTTPS errors and has the 300000 ms timeout |
| Session.Scraper.CloseBrowserInstance | scraper/scrape_results_page.py:424-429 | browser, context, page and `proxy_on` all become None |
| Session.Scraper.DownloadWithDriver | scraper/scrape_results_page.py:186-214 | an existing browser is left as it is, a missing one is initialised without proxy; the contents are the render of the (possibly scraping-API) URL, or None without an API key |
| Session.Scraper.DownloadWith1688ImageSearch | scraper/scrape_results_page.py:216-270 | re-initialises with the requested flag exactly when the re-initialisation rule says so, otherwise changes nothing; a request without proxy leaves `proxy_on` false; the outcome is the image search's in the resulting session: the exception of an image download or file write (outside the `try`) propagates, an exception of the upload flow gives None, otherwise the page |
| Session.Scraper.GetAmazonCorpus | scraper/scrape_results_page.py:117-144 | the corpus is the escalation ladder's value, including the request's exception; the session changes only when the proxied driver has to start a browser |
| Session.Scraper.Get1688Corpus | scraper/scrape_results_page.py:146-161 | the corpus is the shape-checked ladder's value; only a missing browser is initialised |
| Session.Scraper.Get1688ImageSearchCorpus | scraper/scrape_results_page.py:163-184 | the corpus is the image search's outcome, its exception included, whatever the shape check says |
| Session.Scraper.Scrape | scraper/scrape_results_page.py:27-69 | the result is the corpus step's exception, or the pipeline applied to the source's corpus with that source's extractor; a running session is unchanged; without one, a browser without proxy is started for 1688, and for Amazon exactly when the status is above 500 |
| Session.Scraper.ScrapeWith1688ImageSearch | scraper/scrape_results_page.py:71-115 | the result is the image search's exception, or the pipeline applied to its corpus followed by the image-attribute loop, whose exception propagates; a running session is unchanged, and without one a browser without proxy is started |
| Analyst.LanguageOf | analyst.py:104-106 | "english" exactly for amazon, "chinese" exactly for 1688; the source must be one of the two |
| Analyst.RoundHalfEven | analyst.py:110 | the nearest integer, within 0.5, and even on a tie |
| Analyst.RoundHalfEvenUnique | analyst.py:110 | those two properties determine the rounded value |
| Analyst.Round2 | analyst.py:110 | `round(x, 2)` is a whole number of hundredths within 0.005 of `x`, and an even number of hundredths on an exact half |
| Analyst.ToUSD | analyst.py:108-110 | amazon amounts pass through; 1688 amounts are a whole number of cents within half a cent of amount × 0.15, with an even number of cents on an exact half cent |
| Analyst.ToUSDUnique | analyst.py:108-110 | those three properties determine the 1688 conversion: any value that has them is `toUSD(amount, "1688")` |
| Analyst.ToUSDExact | analyst.py:108-110 | a 1688 amount that converts to whole cents converts exactly to amount × 0.15 |
| Analyst.ToUSDHundred | analyst.py:108-110 | 100 RMB is 15.0 dollars |
| Analyst.AllInstances | analyst.py:116 | true exactly when every element is an instance of the type |
| Analyst.IsValidListOf | analyst.py:112-122 | true exactly for a parsed list of the given length whose elements are all of the type; ValueError and SyntaxError give false; any other parser exception propagates unchanged |
| Analyst.IsValidListOfExamples | analyst.py:112-122 | for the search-term check, a list of five strings passes; a tuple, six strings, a non-string element or a syntax error fail; a bool counts as an int |
| Analyst.Lower | analyst.py:102 | lower-casing keeps the length, maps each ASCII capital to its small letter and leaves every other character |
| Analyst.Contains | analyst.py:102 | `t in s` holds exactly when `t` occurs in `s` at some position |
| Analyst.MatchPair | analyst.py:87-102 | AssertionError exactly when either listing lacks `name` or `image`; None exactly when the exchange gave no reply; otherwise true exactly when "yes" occurs in the lower-cased reply |
| Analyst.MatchPairAccepted | analyst.py:94-102 | under the exchange's acceptance test, the verdict is true exactly when the reply is "yes" in any case |
| Analyst.MatchPairSubstring | analyst.py:102 | without that test a reply such as "No eyes" counts as a match |
| Analyst.PyFloat | analyst.py:80 | `float()` keeps a number, parses a text (ValueError when it is not a number) and raises TypeError on None |
| Analyst.MakePairFields | analyst.py:78-82 | a pair holds the supplier listing, the verdict for it, and `toUSD(float(price), "1688")` |
| Analyst.SupplierPairsAreMadePairs | analyst.py:77-83 | the inner loop succeeds exactly when every supplier listing gives a pair, and then yields those pairs one per listing in order |
| Analyst.TermsPairsAreMadePairs | analyst.py:71-85 | the outer loop succeeds exactly when every scrape returned and every supplier listing of the successful ones gives a pair; the listing's pairs are then one per such supplier listing, in order; scrapes that gave None contribute nothing |
| Analyst.TermsPairsScrapesOk | analyst.py:71-75 | the outer loop succeeds only when no scrape raised |
| Analyst.TermsPairsOfScrapes | analyst.py:71-85 | when every scrape returned, the pairs are one per supplier listing of the successful scrapes, in order |
| Analyst.ScrapePairsAreMadePairs | analyst.py:72-83 | one returned scrape adds one pair per listing it gave, and succeeds exactly when each of them gives one |
| Analyst.SearchTerms | analyst.py:71 | `for` over the parsed reply visits a list's or tuple's elements, a dict's keys, a set's members, a string's characters as one-character strings and the integer values of bytes; it raises TypeError exactly for a literal that cannot be iterated |
| Analyst.SearchTermsDict | analyst.py:67-72 | a reply that parses to `{'lamp': 1}` searches "lamp"; one that parses to 5 raises TypeError |
| Analyst.AppendSupplierPairs | analyst.py:77-83 | the inner loop appends exactly the supplier listings' pairs to the results, or propagates the first exception of a verdict or a price conversion |
| Analyst.AppendScrapePairs | analyst.py:72-83 | one pass of the outer loop: a raising scrape propagates its exception, a None scrape leaves the results unchanged, otherwise the results grow by exactly that scrape's pairs |
| Analyst.AnalyzeListing | analyst.py:51-85 | the outer loop computes the specification of `analyze_listing`: AssertionError for a listing without name/price/image/url, None when the search-term exchange failed, else the pairs; exceptions of parsing, iteration, scraping, matching and price conversion propagate |
| Analyst.KeywordAnalyticsShape | analyst.py:33-49 | one entry per search result, in order, each the analytic of that listing; the loop succeeds exactly when every listing's analytic does |
| Analyst.ListingAnalyticCases | analyst.py:36-47 | an entry is None exactly when `analyze_listing` gave None; otherwise it holds the listing, the matched-cost sum divided by the number of all pairs, and `price - cost / price` |
| Analyst.AnalyzeEntry | analyst.py:36-47 | one pass of the loop of `analyze_keyword` computes that listing's entry: the exception of `analyze_listing`, of the division or of the margin, None, or the analytic |
| Analyst.AnalyzeKeyword | analyst.py:30-49 | the loop computes the specification of `analyze_keyword`; an exception of the Amazon scrape propagates and a None search result raises TypeError |
| Analyst.MatchedCostSumAppend | analyst.py:41 | the matched-cost sum splits over concatenation |
| Analyst.MatchedCostSumNoMatch | analyst.py:41 | pairs without a true verdict add nothing |
| Analyst.AverageCostNoMatch | analyst.py:41 | a non-empty pair list with no true verdict gives an estimated cost of 0.0 |
| Analyst.AverageCostDilutes | analyst.py:41 | adding an unmatched pair scales the estimate by n / (n + 1), because the sum is divided by all pairs |
| Analyst.MarginPrecedence | analyst.py:45 | the margin is `price - cost / price`, which equals `(price - cost) / price` only at price 1 |
| Chat.InitialTranscript | api/conversation.py:11 | one system entry holding the instruction when it is a non-empty string, otherwise empty |
| Chat.InitialWellFormed | api/conversation.py:11 | the seeded transcript has the transcript shape |
| Chat.UserTurn | api/conversation.py:14-24 | a user turn with the plain message when there are no images; else a text part first and one image part per URL, in order |
| Chat.UserTurnUrls | api/conversation.py:14-24 | the image parts carry exactly the given URLs, in order |
| Chat.WellFormedExtend | api/conversation.py:26-34 | a user turn followed by an assistant turn keeps the shape "optional system entry, then user/assistant pairs" |
| Chat.FailureBreaksShape | api/conversation.py:26-31 | a user turn left without its reply breaks that shape |
| Chat.ConsistentExtend | api/conversation.py:26-34 | both outcomes keep the weaker invariant: a system entry only first, and each assistant turn right after a user turn |
| Chat.WellFormedConsistent | api/conversation.py:11-34 | the shape implies the weaker invariant |
| Chat.Conversation.constructor | api/conversation.py:9-11 | stores the model and seeds the transcript, which has the shape |
| Chat.Conversation.Message | api/conversation.py:13-35 | the model receives the earlier transcript plus the new user turn; on a reply the transcript grows by exactly that user turn and an assistant turn holding the reply, and the reply is returned; when the call raises only the user turn was appended and ApiError propagates; earlier entries never change |

## Left out

- Network and browser actions are oracles. These include `requests.get`, Playwright navigation, clicks, uploads, the init script, cookie clearing (`reset_cookies`), `try_closing_1688_popup`, the `sleep` calls and `atexit`.
- `get_free_proxy` and `get_free_proxy_2` are not modelled: their pool cache and page parsing are I/O. `initialize_browser` sees only the stream of their answers.
- The random choice of user agent is a value of the oracle. The model states only that the agent comes from the fixed list.
- The selectorlib extractors, `ast.literal_eval` and `float()` of a text are oracles. An exception raised inside an extractor is not modelled: the extractors always return.
- Session.Scraper.InitializeBrowser: the browser launch, context creation, init script and page creation (scraper/scrape_results_page.py:290-316) always succeed in the model. Their exceptions, which would escape `download_with_driver` and `download_with_1688_image_search` because the initialisation runs outside their `try`, are not modelled.
- Extract.FinishScrapeCases: the products are a sequence by type. The `AssertionError` of scraper/scrape_results_page.py:57 and 96 for a products value that is not a list is not modelled.
- Analyst.SearchTerms: a set's members are visited in the order the parsed value lists them. Python's hash order is not modelled.
- File output is not modelled. This covers `corpus_output`, `result_output` and the contents of the downloaded image files; a download or write that raises is the `Err` answer of the image-search oracle.
- `remove_sponsored` is accepted and ignored, as in the source.
- Analyst.AnalyzeListing: `message_until_response_valid` is called but not defined in `api/conversation.py`. Each of its uses is an oracle that gives a reply or None and never raises. So the `AttributeError` that calling the missing method raises is not modelled, nor is any exception of the exchange itself.
- `summarize_keyword_conditions` is prompt formatting plus a model call, and is not modelled.
- recorder.py and the example scripts are not part of this model.
- Analyst.ToUSD: prices are exact reals. Binary floating point is not modelled, and neither is the way Python's `round` treats a tie that is not exact in binary.
- Analyst.Lower: lower-casing covers ASCII letters only, not Unicode case mapping.
- Chat.Conversation.Message: an assistant reply whose content is None is not modelled; the reply is always a string.
- The browser that re-initialisation replaces is not closed, as in the source. The model does not track open browsers.
- Extract.PostprocessProperties: the bound by `max_results` is stated only for `max_results` ≥ 0. A negative value follows Python's slice and drops elements from the end.
- Concurrency is not modelled. The module globals are assumed to be used by one caller at a time.
