/** The fetch worker: one crawl of a start URL, deciding whether its hash is
  * recorded as visited, what becomes of the site document and which links
  * are collected. Jsoup's two network calls are given as their results. */
module NetCrawler {

  /** Java's String.startsWith. */
  predicate StartsWith(s: string, prefix: string)
  {
    |prefix| <= |s| && s[..|prefix|] == prefix
  }

  datatype Option<T> = None | Some(value: T)

  /** A parsed page, seen only through the `abs:href` attribute of each of its
    * `a[href]` elements, in document order. */
  datatype Document = Document(hrefs: seq<string>)

  /** The exception classes runJSoup catches, each the first catch clause
    * that matches it. */
  datatype Failure =
    | SSLHandshake     // SSLHandshakeException
    | Malformed        // MalformedURLException
    | HttpStatus       // HttpStatusException
    | SocketTimeout    // SocketTimeoutException
    | OtherIO          // any other IOException

  /** The result of one Jsoup call: a value, or the exception it threw. */
  datatype Response<T> = Ok(value: T) | Threw(failure: Failure)

  /** The content types the crawler parses: a prefix test, not an exact match. */
  predicate AcceptedContentType(contentType: string)
    ensures AcceptedContentType(contentType) ==>
      StartsWith(contentType, "text/") || StartsWith(contentType, "application/x")
  {
    StartsWith(contentType, "text/") ||
    StartsWith(contentType, "application/xml") ||
    StartsWith(contentType, "application/xhtml+xml")
  }

  /** Whether the catch clause for the failure records the start URL. */
  predicate MarksVisitedOn(f: Failure)
    ensures MarksVisitedOn(f) <==> f !in {Malformed, HttpStatus}
  {
    match f
    case SSLHandshake => true
    case Malformed => false
    case HttpStatus => false
    case SocketTimeout => true
    case OtherIO => true
  }

  /** What a run does to `siteDoc`. */
  datatype DocChange = Untouched | Assigned(doc: Document) | Nulled

  /** What one run of runJSoup does: its effect on `siteDoc`, the links it
    * appends to `URLs`, and whether it inserts the start hash. */
  datatype Effect = Effect(doc: DocChange, links: seq<string>, marksVisited: bool)

  /** The effect of runJSoup for the start URL, the content-type probe's result
    * and the document fetch's result (consulted only for accepted types). */
  function RunEffect(startURL: string, probe: Response<string>, fetch: Response<Document>): (e: Effect)
    ensures e.links != [] ==> e.doc.Assigned? && e.links == e.doc.doc.hrefs && e.marksVisited
    ensures e.doc.Nulled? ==> e.links == [] && e.marksVisited
  {
    if !StartsWith(startURL, "http://") then Effect(Untouched, [], false)
    else
      match probe
      case Threw(f) => Effect(Untouched, [], MarksVisitedOn(f))
      case Ok(contentType) =>
        if !AcceptedContentType(contentType) then Effect(Nulled, [], true)
        else
          match fetch
          case Threw(f) => Effect(Untouched, [], MarksVisitedOn(f))
          case Ok(doc) => Effect(Assigned(doc), doc.hrefs, true)
  }

  /** The new value of `siteDoc`, None standing for null. */
  function Apply(change: DocChange, siteDoc: Option<Document>): Option<Document>
  {
    match change
    case Untouched => siteDoc
    case Assigned(doc) => Some(doc)
    case Nulled => None
  }

  // ---------------------------------------------------------------------------
  // Properties of one run

  /** A start URL without the `http://` scheme is neither fetched nor recorded. */
  lemma NonHttpIsIgnored(startURL: string, probe: Response<string>, fetch: Response<Document>)
    requires !StartsWith(startURL, "http://")
    ensures RunEffect(startURL, probe, fetch) == Effect(Untouched, [], false)
  {
  }

  /** For an accepted type and a successful fetch, the links are exactly the
    * document's hrefs, duplicates and the start URL itself included. */
  lemma AcceptedFetchCollectsAllLinks(startURL: string, contentType: string, doc: Document)
    requires StartsWith(startURL, "http://") && AcceptedContentType(contentType)
    ensures RunEffect(startURL, Ok(contentType), Ok(doc)) == Effect(Assigned(doc), doc.hrefs, true)
  {
  }

  /** A rejected content type clears the document, collects nothing and
    * records the start URL. */
  lemma RejectedTypeIsRecorded(startURL: string, contentType: string, fetch: Response<Document>)
    requires StartsWith(startURL, "http://") && !AcceptedContentType(contentType)
    ensures RunEffect(startURL, Ok(contentType), fetch) == Effect(Nulled, [], true)
  {
  }

  /** A failing Jsoup call leaves the document and the links alone; the start
    * URL is recorded after SSL, timeout and other I/O failures, and not after
    * a malformed URL or an HTTP status failure. */
  lemma FailureTable(startURL: string, probe: Response<string>, fetch: Response<Document>, f: Failure)
    requires StartsWith(startURL, "http://")
    requires probe == Threw(f) || (probe.Ok? && AcceptedContentType(probe.value) && fetch == Threw(f))
    ensures var e := RunEffect(startURL, probe, fetch);
      e.doc == Untouched && e.links == [] &&
      (e.marksVisited <==> f == SSLHandshake || f == SocketTimeout || f == OtherIO)
  {
  }

  /** Links are collected only by a successful fetch of an accepted type. */
  lemma LinksOnlyFromAcceptedFetch(startURL: string, probe: Response<string>, fetch: Response<Document>)
    requires RunEffect(startURL, probe, fetch).links != []
    ensures StartsWith(startURL, "http://")
    ensures probe.Ok? && AcceptedContentType(probe.value)
    ensures fetch.Ok? && RunEffect(startURL, probe, fetch).links == fetch.value.hrefs
  {
  }

  /** The start URL is recorded iff the run got past the scheme check and
    * did not end in a malformed URL or an HTTP status failure. */
  lemma RecordedIff(startURL: string, probe: Response<string>, fetch: Response<Document>)
    ensures RunEffect(startURL, probe, fetch).marksVisited <==>
      StartsWith(startURL, "http://") &&
      !(probe.Threw? && probe.failure in {Malformed, HttpStatus}) &&
      !(probe.Ok? && AcceptedContentType(probe.value) && fetch.Threw? && fetch.failure in {Malformed, HttpStatus})
  {
  }

  /** A page of http://a.test linking to http://b.test and back to itself:
    * both links are collected, the start URL among them, and the start URL
    * is recorded once. */
  lemma SelfLinkScenario()
    ensures var doc := Document(["http://b.test", "http://a.test"]);
      RunEffect("http://a.test", Ok("text/html"), Ok(doc)) ==
      Effect(Assigned(doc), ["http://b.test", "http://a.test"], true)
  {
    assert "http://a.test"[..7] == "http://";
    assert "text/html"[..5] == "text/";
  }

  /** Any content type that extends an accepted one is accepted too. */
  lemma AcceptedIsPrefixClosed(contentType: string, rest: string)
    requires AcceptedContentType(contentType)
    ensures AcceptedContentType(contentType + rest)
  {
    var s := contentType + rest;
    forall p: string | StartsWith(contentType, p)
      ensures StartsWith(s, p)
    {
      assert s[..|p|] == contentType[..|p|];
    }
  }

  /** A few content types and how the prefix test classifies them. */
  lemma ContentTypeExamples()
    ensures AcceptedContentType("text/html; charset=UTF-8")
    ensures AcceptedContentType("application/xml-dtd")
    ensures AcceptedContentType("application/xhtml+xml")
    ensures !AcceptedContentType("image/png")
    ensures !AcceptedContentType("Text/html")
    ensures !AcceptedContentType("application/json")
  {
    assert "text/html; charset=UTF-8"[..5] == "text/";
    assert "application/xml-dtd"[..15] == "application/xml";
    assert "application/xhtml+xml"[..21] == "application/xhtml+xml";
    assert "image/png"[0] != "text/"[0] && "image/png"[0] != "application/xml"[0];
    assert "Text/html"[0] != "text/"[0] && "Text/html"[0] != "application/xml"[0];
    assert "application/json"[12] != "application/xml"[12];
    assert "application/json"[12] != "application/xhtml+xml"[12];
  }

  // ---------------------------------------------------------------------------
  // The database and the worker object

  /** The visited-URL table, seen as the multiset of hashes inserted into it. */
  class TempDB {
    var rows: multiset<string>

    constructor ()
      ensures rows == multiset{}
    {
      rows := multiset{};
    }

    method InsertURLToWebsiteTable(hash: string)
      modifies this
      ensures rows == old(rows) + multiset{hash}
    {
      rows := rows + multiset{hash};
    }
  }

  class Crawler {
    const database: TempDB
    const startURL: string
    /** The SHA-256 hex digest, left uninterpreted. */
    const sha256Hex: string -> string
    const startURLAfterHash: string
    var siteDoc: Option<Document>
    /** URLs: the links collected for the manager. */
    var urls: seq<string>

    ghost predicate Valid()
      reads this
    {
      startURLAfterHash == sha256Hex(startURL)
    }

    constructor (database: TempDB, startURL: string, sha256Hex: string -> string)
      ensures Valid()
      ensures this.database == database && this.startURL == startURL && this.sha256Hex == sha256Hex
      ensures siteDoc == None && urls == []
    {
      this.database := database;
      this.startURL := startURL;
      this.sha256Hex := sha256Hex;
      this.startURLAfterHash := sha256Hex(startURL);
      siteDoc := None;
      urls := [];
    }

    /** The catch clause for a failure of either Jsoup call. */
    method HandleFailure(f: Failure)
      modifies database
      ensures database.rows == old(database.rows) + (if MarksVisitedOn(f) then multiset{startURLAfterHash} else multiset{})
    {
      match f {
        case SSLHandshake =>
          database.InsertURLToWebsiteTable(startURLAfterHash);
        case Malformed =>
        case HttpStatus =>
        case SocketTimeout =>
          database.InsertURLToWebsiteTable(startURLAfterHash);
        case OtherIO =>
          database.InsertURLToWebsiteTable(startURLAfterHash);
      }
    }

    /** runJSoup, with the results of the content-type probe and of the
      * document fetch given. */
    /** What one run of runJSoup does to the worker and the database, as
      * `RunEffect` gives it. */
    twostate predicate RanJSoup(probe: Response<string>, fetch: Response<Document>)
      reads this, database
    {
      var e := RunEffect(startURL, probe, fetch);
      siteDoc == Apply(e.doc, old(siteDoc)) &&
      urls == old(urls) + e.links &&
      database.rows == old(database.rows) + (if e.marksVisited then multiset{sha256Hex(startURL)} else multiset{})
    }

    method RunJSoup(probe: Response<string>, fetch: Response<Document>)
      requires Valid()
      modifies this`siteDoc, this`urls, database
      ensures Valid()
      ensures RanJSoup(probe, fetch)
    {
      if StartsWith(startURL, "http://") {
        match probe {
          case Threw(f) =>
            HandleFailure(f);
          case Ok(contentType) =>
            if AcceptedContentType(contentType) {
              match fetch {
                case Threw(f) =>
                  HandleFailure(f);
                case Ok(doc) =>
                  siteDoc := Some(doc);
                  var links := doc.hrefs;
                  var i := 0;
                  while i < |links|
                    invariant 0 <= i <= |links|
                    invariant urls == old(urls) + links[..i]
                    modifies this`urls
                  {
                    urls := urls + [links[i]];
                    i := i + 1;
                  }
                  assert links[..i] == links;
                  database.InsertURLToWebsiteTable(startURLAfterHash);
              }
            } else {
              siteDoc := None;
              database.InsertURLToWebsiteTable(startURLAfterHash);
            }
        }
      }
    }

    /** call: run runJSoup once and hand back this worker. */
    method Call(probe: Response<string>, fetch: Response<Document>) returns (r: Crawler)
      requires Valid()
      modifies this`siteDoc, this`urls, database
      ensures r == this && Valid()
      ensures RanJSoup(probe, fetch)
    {
      RunJSoup(probe, fetch);
      r := this;
    }
  }
}
