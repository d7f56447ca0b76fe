# MarketFlipCrawler: analyzer stage manager and fetch worker

A Dafny model of two pieces of sequential decision logic in the
MarketFlipCrawler web crawler, with proofs of what they guarantee.

- **`AnalyzerManager`** (`analyzer_manager.dfy`) models
  `MFC_SourceCodeAnalyzerManager`. It runs a pool of at most
  `MFC_MAX_THREAD_COUNT` (3) analyzer tasks, fed from the document queue
  `bqMFSourceCode`. It forwards finished products to `bqMFProduct` only while
  that queue holds fewer than `MFC_MAX_ANALYZER_QUEUE_COUNT` (3) products.
  The class `SourceCodeAnalyzerManager` keeps the tracked futures
  (`futuresArray`), both queues and `docsAnalyzedCount` as fields. Its methods
  `FillFuturesArray`, `EmptyFuturesArray` and `Run` mirror the Java loops.
  Each one is proved against a pure function:
  - `Filled` performs one submission per step, like the `while` loop.
  - `Harvest` scans the futures from the last index down, like the `for` loop.
  - `RunRounds` repeats the loop test `docsAnalyzedCount < docLimit` before
    every round. Each round (`PlayRound`) is a fill, the task completions of
    that round, then a scan. A scan that hits the exception ends the run.

  The lemmas about these functions carry the properties: pool and queue
  ceilings, FIFO submission, conservation, held-not-dropped, reverse
  forwarding order, and that no round of `run` starts at or above the limit.
  A future is a `Slot` holding its document and a `Status`: `Running`, or
  `Finished` with an outcome `Product(p)`, `Null` or `Failed`. Documents and
  products are type parameters, so they stay opaque.
- **`NetCrawler`** (`net_crawler.dfy`) models `MFC_NetCrawler`. The class
  `Crawler` keeps `siteDoc`, `URLs` (`urls`), the database and the start URL's
  hash. `RunJSoup` takes the results of the two Jsoup calls as parameters: the
  content-type probe and the document fetch. Each result is either a value or
  one of the caught exception classes. `RunJSoup` is proved against the pure
  function `RunEffect`, and lemmas about `RunEffect` state which outcome
  records the URL, nulls the document or collects links.
  Three more pieces complete the model:
  - The database `TempDB` is the multiset of hashes inserted into it, so
    "inserted exactly once" can be stated.
  - SHA-256 is a function value `sha256Hex` given to the constructor and left
    uninterpreted.
  - A document is the list of `abs:href` values of its `a[href]` elements, in
    document order.
- **`Sequences`** (`sequences.dfy`) holds `Min`, a subsequence predicate and
  sequence reversal.

Four behaviours of the crawler code differ from what one might expect of a
crawler. The model follows the code:
- A URL that does not start with `http://` is not recorded as visited.
- A `MalformedURLException` or `HttpStatusException` is not recorded either.
- The content-type test checks prefixes, not an exact set of types. For
  example, `application/xml-dtd` is accepted.
- The fetched links are not filtered. Already-visited links, duplicates and
  the start URL itself are all collected.

Two behaviours of the code are modelled as the code has them:
- **Null product.** A finished analyzer task whose product is `null` is
  dereferenced at `MFC_SourceCodeAnalyzerManager.java:49`, before the null
  check on line 50. The resulting `NullPointerException` is not among the
  caught exceptions. It ends the scan, and with it the manager's `run`.
  `EmptyFuturesArray` reports this as `npe`, and `Run` stops with `Crashed`.
- **Failed task.** A finished task whose `get()` throws is caught and never
  removed. In one iteration, a fill submits nothing to a pool of three such
  tasks and a scan removes none of them (`PoolWedgedByFailures`). Completions
  cannot change them either, so over any number of later iterations the pool
  keeps exactly those three tasks and the count never grows. A `run` that is
  below its limit when this happens never gets there (`RunWedged`).

## Model

| member | source | states |
|---|---|---|
| `AnalyzerManager.SourceCodeAnalyzerManager.constructor` | MarketFlipCrawler/src/com/marketflip/crawler/scanalyzer/MFC_SourceCodeAnalyzerManager.java:24-30 | The manager starts with the given queues and limit, no tracked futures, and a zero count. |
| `AnalyzerManager.SourceCodeAnalyzerManager.FillFuturesArray` | MarketFlipCrawler/src/com/marketflip/crawler/scanalyzer/MFC_SourceCodeAnalyzerManager.java:68-86 | The first `FillCount` documents leave the front of the queue, and one running future per document is appended in queue order. A pool within its size stays within it. |
| `AnalyzerManager.Filled` | MarketFlipCrawler/src/com/marketflip/crawler/scanalyzer/MFC_SourceCodeAnalyzerManager.java:77-84 | The reference definition of the fill loop, one submission per step, that `FillFuturesArray` and the fill lemmas are proved against. Its own contract: the queue never grows and the tracked list never shrinks. |
| `AnalyzerManager.FillBlocked` | MarketFlipCrawler/src/com/marketflip/crawler/scanalyzer/MFC_SourceCodeAnalyzerManager.java:69 | An empty queue or a pool of 3 or more tracked futures leaves both unchanged. |
| `AnalyzerManager.FilledTakesFromFront` | MarketFlipCrawler/src/com/marketflip/crawler/scanalyzer/MFC_SourceCodeAnalyzerManager.java:77-83 | A fill takes min(queue length, free slots) documents from the front in FIFO order, each becoming exactly one new tracked future. |
| `AnalyzerManager.FillRespectsPool` | MarketFlipCrawler/src/com/marketflip/crawler/scanalyzer/MFC_SourceCodeAnalyzerManager.java:77-83 | Starting at most 3, the tracked count ends at most 3. Starting below 3, the fill ends with an empty queue or exactly 3 tracked. |
| `AnalyzerManager.FillConserves` | MarketFlipCrawler/src/com/marketflip/crawler/scanalyzer/MFC_SourceCodeAnalyzerManager.java:80-81 | Queue length plus tracked count is unchanged, and the tracked count never shrinks. |
| `AnalyzerManager.Harvest` | MarketFlipCrawler/src/com/marketflip/crawler/scanalyzer/MFC_SourceCodeAnalyzerManager.java:43-66 | The reference definition of the scan, last index first, that `EmptyFuturesArray` and the scan lemmas are proved against. Its own contract: every future ends either still tracked or forwarded, so the two counts add up to the input length. |
| `AnalyzerManager.Products` | MarketFlipCrawler/src/com/marketflip/crawler/scanalyzer/MFC_SourceCodeAnalyzerManager.java:52 | The reference definition of the products appended to the product queue, one per forwarded future, in forwarding order. Its own contract: there are never more products than futures. |
| `AnalyzerManager.SourceCodeAnalyzerManager.EmptyFuturesArray` | MarketFlipCrawler/src/com/marketflip/crawler/scanalyzer/MFC_SourceCodeAnalyzerManager.java:43-66 | The new futures, product queue, count and crash flag are those of `Harvest`. The count grows by exactly the number of products appended. A product queue within its ceiling stays within it. |
| `AnalyzerManager.HarvestForwardsDeliverable` | MarketFlipCrawler/src/com/marketflip/crawler/scanalyzer/MFC_SourceCodeAnalyzerManager.java:47-55 | Only finished futures carrying a product are removed and forwarded. |
| `AnalyzerManager.ProductsOfDeliverable` | MarketFlipCrawler/src/com/marketflip/crawler/scanalyzer/MFC_SourceCodeAnalyzerManager.java:52-53 | Each forwarded future contributes exactly its own product, in forwarding order, so the count and the queue grow together. |
| `AnalyzerManager.HarvestConserves` | MarketFlipCrawler/src/com/marketflip/crawler/scanalyzer/MFC_SourceCodeAnalyzerManager.java:47-55 | Every tracked future ends either still tracked or forwarded, exactly once (as multisets). |
| `AnalyzerManager.HarvestRespectsCeiling` | MarketFlipCrawler/src/com/marketflip/crawler/scanalyzer/MFC_SourceCodeAnalyzerManager.java:47-52 | A product queue starting at most 3 ends at most 3. |
| `AnalyzerManager.HarvestWhenFull` | MarketFlipCrawler/src/com/marketflip/crawler/scanalyzer/MFC_SourceCodeAnalyzerManager.java:47 | With 3 or more products queued, nothing is forwarded, nothing is removed and the scan does not crash. |
| `AnalyzerManager.HarvestKeepsOrder` | MarketFlipCrawler/src/com/marketflip/crawler/scanalyzer/MFC_SourceCodeAnalyzerManager.java:45-55 | The futures still tracked are a subsequence of the original list, in their original relative order. |
| `AnalyzerManager.HarvestForwardsLastFirst` | MarketFlipCrawler/src/com/marketflip/crawler/scanalyzer/MFC_SourceCodeAnalyzerManager.java:45 | Reversed, the forwarded futures are a subsequence of the tracked list, so products enter the queue in reverse tracking order. |
| `AnalyzerManager.HarvestHoldsOnlyWhenFull` | MarketFlipCrawler/src/com/marketflip/crawler/scanalyzer/MFC_SourceCodeAnalyzerManager.java:47 | After a complete scan, a finished future with a product that is still tracked implies the product queue reached 3: it was held by backpressure. |
| `AnalyzerManager.HarvestHoldsUndeliverable` | MarketFlipCrawler/src/com/marketflip/crawler/scanalyzer/MFC_SourceCodeAnalyzerManager.java:55-60 | Running futures and futures whose `get()` failed stay tracked, every occurrence of them. |
| `AnalyzerManager.HarvestCrashesOnlyOnNull` | MarketFlipCrawler/src/com/marketflip/crawler/scanalyzer/MFC_SourceCodeAnalyzerManager.java:48-50 | A scan ends early only on a finished future whose product is null, reached while the product queue still had room. That future stays tracked. |
| `AnalyzerManager.NullHeldOnlyWhenFull` | MarketFlipCrawler/src/com/marketflip/crawler/scanalyzer/MFC_SourceCodeAnalyzerManager.java:47-50 | The converse: the null check never protects. A scan that completes without the exception met every null product only when the product queue was already full. |
| `AnalyzerManager.PoolWedgedByFailures` | MarketFlipCrawler/src/com/marketflip/crawler/scanalyzer/MFC_SourceCodeAnalyzerManager.java:58-69 | With three failed futures, one fill submits nothing and one scan removes none of them. |
| `AnalyzerManager.PlayRound` | MarketFlipCrawler/src/com/marketflip/crawler/scanalyzer/MFC_SourceCodeAnalyzerManager.java:36-37 | The reference definition of one iteration of `run`'s loop: a fill, the round's completions, then a scan. Its own contract: the count never decreases. |
| `AnalyzerManager.RoundFacts` | MarketFlipCrawler/src/com/marketflip/crawler/scanalyzer/MFC_SourceCodeAnalyzerManager.java:36-37 | One iteration keeps at most 3 tracked futures and at most 3 queued products. An iteration whose scan hit the exception leaves a null future tracked. |
| `AnalyzerManager.RunRounds` | MarketFlipCrawler/src/com/marketflip/crawler/scanalyzer/MFC_SourceCodeAnalyzerManager.java:33-41 | The reference definition of `run` that `Run` is proved against: the loop test comes before every iteration, and the exception ends the loop. It records the count at the start of each iteration it executes. Its own contract: at most one iteration per round. |
| `AnalyzerManager.RunStartsBelowLimit` | MarketFlipCrawler/src/com/marketflip/crawler/scanalyzer/MFC_SourceCodeAnalyzerManager.java:35 | Every iteration starts with a count below `docLimit`, and the first one starts with the initial count. `LimitReached` means the count reached the limit. `Polling` means it is still below the limit and every round was used. At most one iteration runs per round, and the count never decreases. |
| `AnalyzerManager.RunCrashesOnNull` | MarketFlipCrawler/src/com/marketflip/crawler/scanalyzer/MFC_SourceCodeAnalyzerManager.java:35-37 | A run that stops `Crashed` ends with a future whose product is null still tracked. |
| `AnalyzerManager.RunKeepsBounds` | MarketFlipCrawler/src/com/marketflip/crawler/scanalyzer/MFC_SourceCodeAnalyzerManager.java:35-37 | A whole run keeps the pool at 3 or fewer tracked futures and the product queue at 3 or fewer products. |
| `AnalyzerManager.RunWedged` | MarketFlipCrawler/src/com/marketflip/crawler/scanalyzer/MFC_SourceCodeAnalyzerManager.java:35-37 | Three failed futures wedge `run` for good. Over any rounds, whatever their arrivals and completions, the pool keeps exactly those futures, the count stays where it was, and the run never crashes. |
| `AnalyzerManager.SourceCodeAnalyzerManager.Iterate` | MarketFlipCrawler/src/com/marketflip/crawler/scanalyzer/MFC_SourceCodeAnalyzerManager.java:36-37 | The state after one iteration, and whether it ended in the exception, are exactly those of `PlayRound`. |
| `AnalyzerManager.SourceCodeAnalyzerManager.Run` | MarketFlipCrawler/src/com/marketflip/crawler/scanalyzer/MFC_SourceCodeAnalyzerManager.java:33-41 | The final state and the stop reason are exactly those of `RunRounds`. `LimitReached` implies `docsAnalyzedCount >= docLimit`. `Polling` implies the count is still below it. `Crashed` implies a null future is still tracked. A count already at the limit changes nothing. Pool and queue ceilings hold, and the count never decreases. |
| `NetCrawler.Crawler.constructor` | MarketFlipCrawler/src/mfc_netcrawler/MFC_NetCrawler.java:49-59 | The stored hash is `sha256Hex(startURL)`. `siteDoc` is null and `URLs` is empty. |
| `NetCrawler.RunEffect` | MarketFlipCrawler/src/mfc_netcrawler/MFC_NetCrawler.java:67-133 | The reference definition of one run of `runJSoup` that `RunJSoup` and the crawler lemmas are proved against. Its own contract: links are collected only together with an assigned document whose hrefs they are, and with the URL recorded. A nulled document comes with no links and a recorded URL. |
| `NetCrawler.AcceptedContentType` | MarketFlipCrawler/src/mfc_netcrawler/MFC_NetCrawler.java:87-88 | The reference definition of the content-type test: three prefix tests. Its own contract: every accepted type starts with `text/` or `application/x`. |
| `NetCrawler.MarksVisitedOn` | MarketFlipCrawler/src/mfc_netcrawler/MFC_NetCrawler.java:110-132 | The reference definition of which catch clause inserts the start hash. Its own contract: all of them except the malformed-URL and HTTP-status clauses. |
| `NetCrawler.Crawler.RunJSoup` | MarketFlipCrawler/src/mfc_netcrawler/MFC_NetCrawler.java:67-133 | `siteDoc`, `URLs` and the database change exactly as `RunEffect` says (the two-state predicate `RanJSoup`). The database gains either nothing or one copy of `sha256Hex(startURL)`. |
| `NetCrawler.Crawler.HandleFailure` | MarketFlipCrawler/src/mfc_netcrawler/MFC_NetCrawler.java:110-132 | SSL, timeout and other I/O failures insert the start hash once. Malformed URL and HTTP status failures insert nothing. |
| `NetCrawler.Crawler.Call` | MarketFlipCrawler/src/mfc_netcrawler/MFC_NetCrawler.java:166-170 | Returns the same worker, which has undergone one run of `RunJSoup`: the same `RanJSoup` effect. |
| `NetCrawler.NonHttpIsIgnored` | MarketFlipCrawler/src/mfc_netcrawler/MFC_NetCrawler.java:77-109 | A start URL without `http://` leaves `siteDoc` alone, collects no links and records nothing. |
| `NetCrawler.AcceptedFetchCollectsAllLinks` | MarketFlipCrawler/src/mfc_netcrawler/MFC_NetCrawler.java:94-108 | For an accepted type and a successful fetch, `siteDoc` is the document, the links are exactly its hrefs in order, and the start URL is recorded. |
| `NetCrawler.SelfLinkScenario` | MarketFlipCrawler/src/mfc_netcrawler/MFC_NetCrawler.java:96-105 | A page linking to another page and back to itself yields both links, the start URL included. |
| `NetCrawler.RejectedTypeIsRecorded` | MarketFlipCrawler/src/mfc_netcrawler/MFC_NetCrawler.java:107-108 | A rejected content type nulls `siteDoc`, collects nothing and records the start URL. |
| `NetCrawler.FailureTable` | MarketFlipCrawler/src/mfc_netcrawler/MFC_NetCrawler.java:110-132 | A failed probe or fetch leaves `siteDoc` and the links alone. It records the start URL iff the failure is SSL, timeout or other I/O. |
| `NetCrawler.LinksOnlyFromAcceptedFetch` | MarketFlipCrawler/src/mfc_netcrawler/MFC_NetCrawler.java:77-105 | Links are collected only for an `http://` URL whose type was accepted and whose fetch succeeded, and they are that document's hrefs. |
| `NetCrawler.RecordedIff` | MarketFlipCrawler/src/mfc_netcrawler/MFC_NetCrawler.java:77-132 | The start URL is recorded iff it starts with `http://` and no Jsoup call ended in a malformed-URL or HTTP-status failure. |
| `NetCrawler.AcceptedIsPrefixClosed` | MarketFlipCrawler/src/mfc_netcrawler/MFC_NetCrawler.java:87-88 | The test checks prefixes: every extension of an accepted content type is accepted. |
| `NetCrawler.ContentTypeExamples` | MarketFlipCrawler/src/mfc_netcrawler/MFC_NetCrawler.java:87-88 | `text/html; charset=UTF-8`, `application/xml-dtd` and `application/xhtml+xml` are accepted. `image/png`, `Text/html` and `application/json` are rejected. |

## Left out

- Threads and the executor. Task completion is the method
  `SourceCodeAnalyzerManager.Complete` (`CompleteAll` for one round's list), and the other threads' activity
  during each iteration of `run` is a parameter of `Run` (`Round`: arriving
  documents, products taken downstream, completions). Interleavings inside
  one `fillFuturesArray` or `emptyFuturesArray` call are not modelled.
- `SourceCodeAnalyzerManager.Run`: the Java loop polls forever while below
  the limit. The model runs for the given rounds and reports `Polling` when
  they are used up still below the limit.
- `isDone()` timing: a future's state is fixed for the length of one scan.
- `ConcurrentModificationException` and `InterruptedException`, caught at
  `MFC_SourceCodeAnalyzerManager.java:58-63`, cannot arise in a sequential
  scan and are not modelled.
- The capacity of the `BlockingQueue`s is set where they are created, which
  is not part of this model. `add` is modelled as always succeeding.
- Java `int` overflow of `docsAnalyzedCount` is not modelled (counts are
  unbounded integers).
- Jsoup networking and HTML parsing (`connect`, `execute`, `get`, `select`).
  They are replaced by the two call results and a document's list of hrefs.
  The 10-second timeout appears only as the `SocketTimeout` outcome.
- A missing `Content-Type` header: the probe result is assumed to carry a
  string, so the `NullPointerException` of `new String(null)` is not modelled.
- SHA-256 (`DigestUtils.sha256Hex`) is an uninterpreted function value.
- `MFC_TempDB`, `MFC_SourceCodeAnalyzer` and `MF_Product` are not part of
  this model. The database is reduced to the multiset of inserted hashes.
- `testLink` and the commented-out trial blocks of `MFC_NetCrawler.java` are
  dead code. `MFC_DatabaseCrawler` has an empty `insert`.
- Console output, stack traces, the unused fields `callCount`,
  `MAX_SITE_DEPTH` and `resultSet`, and the getters. The getters read
  fields the model exposes directly.
