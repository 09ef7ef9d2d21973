/**
  The crawl controller (cz.zcu.kiv.nlp.vs.Crawler), proved against the
  definitions of module CrawlerSpec.

  In Crawler.java the result table and the map of print streams are locals
  of crawl() that processUrl mutates in place; here they are the fields results
  and streams of the controller. A print stream is the sequence of lines
  printed to it. The ghost fields record what a run does in order (trace) and
  the order in which the frontier was walked (visited).
*/
module Crawler {
  import opened Wrappers
  import opened Links
  import opened Decimal
  import opened Collaborators
  import opened CrawlerSpec

  /** Java's int. */
  newtype int32 = x: int | -0x8000_0000 <= x < 0x8000_0000

  const DOWNLOADER_NULL: string := "Downloader may not be null"
  const INTERVAL_NOT_POSITIVE: string := "Politeness interval has to be a positive integer"
  const STORAGE_NULL: string := "Storage may not be null"

  /**
    The message of the IllegalArgumentException construction throws, or None
    when the arguments are accepted. The checks run in the order of the
    constructor of Crawler.java: downloader, interval, storage.
  */
  function ValidateParams(downloader: Downloader?, politenessIntervalMillis: int32, storage: Storage?): (r: Option<string>)
    ensures r == None <==> downloader != null && politenessIntervalMillis > 0 && storage != null
    ensures downloader == null ==> r == Some(DOWNLOADER_NULL)
    ensures downloader != null && politenessIntervalMillis <= 0 ==> r == Some(INTERVAL_NOT_POSITIVE)
    ensures downloader != null && politenessIntervalMillis > 0 && storage == null ==> r == Some(STORAGE_NULL)
  {
    if downloader == null then Some(DOWNLOADER_NULL)
    else if politenessIntervalMillis <= 0 then Some(INTERVAL_NOT_POSITIVE)
    else if storage == null then Some(STORAGE_NULL)
    else None
  }

  /** A fixed iteration order for a set: each element exactly once. */
  method SetToSeq(s: set<string>) returns (xs: seq<string>)
    ensures |xs| == |s| && Distinct(xs)
    ensures forall x :: x in xs <==> x in s
  {
    xs := [];
    var rest := s;
    while rest != {}
      invariant forall x :: x in s <==> x in rest || x in xs
      invariant forall x :: x in rest ==> x !in xs
      invariant Distinct(xs)
      invariant |xs| + |rest| == |s|
      decreases |rest|
    {
      var x :| x in rest;
      xs := xs + [x];
      rest := rest - {x};
    }
  }

  class Crawler {
    /** Waiting period between requests. */
    const politenessIntervalMillis: int32
    const downloader: Downloader
    const storage: Storage

    /** Channel name to (frontier URL to extracted fragments). */
    var results: Table
    /** Channel name to its print stream. */
    var streams: map<string, Stream>
    ghost var trace: seq<Effect>
    ghost var visited: seq<string>

    constructor (downloader: Downloader, politenessIntervalMillis: int32, storage: Storage)
      requires ValidateParams(downloader, politenessIntervalMillis, storage) == None
      ensures this.downloader == downloader && this.storage == storage
      ensures this.politenessIntervalMillis == politenessIntervalMillis
      ensures results == map[] && streams == map[] && trace == [] && visited == []
    {
      this.downloader := downloader;
      this.politenessIntervalMillis := politenessIntervalMillis;
      this.storage := storage;
      results := map[];
      streams := map[];
      trace := [];
      visited := [];
    }

    /** `new Crawler(...)`: either a crawler holding exactly the arguments, or the validation error. */
    static method Create(downloader: Downloader?, politenessIntervalMillis: int32, storage: Storage?)
      returns (crawler: Crawler?, error: Option<string>)
      ensures error == ValidateParams(downloader, politenessIntervalMillis, storage)
      ensures crawler == null <==> error.Some?
      ensures crawler != null ==>
                fresh(crawler) && crawler.downloader == downloader && crawler.storage == storage &&
                crawler.politenessIntervalMillis == politenessIntervalMillis
    {
      error := ValidateParams(downloader, politenessIntervalMillis, storage);
      if error.Some? {
        crawler := null;
      } else {
        crawler := new Crawler(downloader, politenessIntervalMillis, storage);
      }
    }

    /** Every channel of the table has an open stream, and only those. */
    ghost predicate RunReady()
      reads this
    {
      streams.Keys == results.Keys && forall k :: k in streams ==> streams[k].open
    }

    /**
      One run: resolve the frontier, save it, walk it once with a politeness
      pause after every URL, close the streams, report and clear the failed
      links. `failStamp` is the clock reading the failure slot's name starts with.
    */
    method Crawl(failStamp: string) returns (ghost frontier: set<string>, ghost failed: set<string>)
      modifies this`results, this`streams, this`trace, this`visited, downloader`failedLinks, downloader`requests, storage`slots
      ensures frontier == FrontierOf(old(storage.slots), downloader.web)
      ensures failed == old(downloader.failedLinks) + DiscoveryFailures(old(storage.slots), downloader.web) +
                        UnionOver(visited, downloader.web, FetchFailure)
      ensures |visited| == |frontier| && Distinct(visited)
      ensures forall u :: u in visited <==> u in frontier
      ensures results == TableAfter(EmptyTable(XPATH_MAP.Keys), visited, downloader.web)
      ensures streams == CloseAll(OpenStreams(XPATH_MAP.Keys, visited, downloader.web))
      ensures storage.slots == AfterReport(old(storage.slots)[URLS_STORAGE_PATH := frontier], failed, failStamp)
      ensures downloader.failedLinks == {}
      ensures downloader.requests ==
                old(downloader.requests) + DiscoveryRequests(old(storage.slots)) + PageRequests(visited)
      ensures trace ==
                old(trace) + DiscoveryEffects(old(storage.slots)) + [Save(URLS_STORAGE_PATH, frontier)] +
                RunEffects(visited, |frontier|, politenessIntervalMillis as int) + ReportEffects(failed, failStamp)
    {
      frontier := WalkFrontier();
      failed := downloader.failedLinks;
      FinishRun(failStamp);
    }

    /** The end of crawl(): the failed links are saved under a size-tagged slot, then forgotten. */
    method FinishRun(failStamp: string)
      modifies this`trace, downloader`failedLinks, storage`slots
      ensures storage.slots == AfterReport(old(storage.slots), old(downloader.failedLinks), failStamp)
      ensures downloader.failedLinks == {}
      ensures trace == old(trace) + ReportEffects(old(downloader.failedLinks), failStamp)
    {
      var failedLinks := downloader.GetFailedLinks();
      ReportProblems(failedLinks, failStamp);
      downloader.EmptyFailedLinks();
    }

    /** crawl() up to closing the streams: fresh table, frontier loaded and saved, every URL visited. */
    method WalkFrontier() returns (urls: set<string>)
      modifies this`results, this`streams, this`trace, this`visited, downloader`failedLinks, downloader`requests, storage`slots
      ensures urls == FrontierOf(old(storage.slots), downloader.web)
      ensures |visited| == |urls| && Distinct(visited)
      ensures forall u :: u in visited <==> u in urls
      ensures results == TableAfter(EmptyTable(XPATH_MAP.Keys), visited, downloader.web)
      ensures streams == CloseAll(OpenStreams(XPATH_MAP.Keys, visited, downloader.web))
      ensures storage.slots == old(storage.slots)[URLS_STORAGE_PATH := urls]
      ensures downloader.failedLinks ==
                old(downloader.failedLinks) + DiscoveryFailures(old(storage.slots), downloader.web) +
                UnionOver(visited, downloader.web, FetchFailure)
      ensures downloader.requests ==
                old(downloader.requests) + DiscoveryRequests(old(storage.slots)) + PageRequests(visited)
      ensures trace ==
                old(trace) + DiscoveryEffects(old(storage.slots)) + [Save(URLS_STORAGE_PATH, urls)] +
                RunEffects(visited, |urls|, politenessIntervalMillis as int)
    {
      InitResults();
      EmptyTableKeys(XPATH_MAP.Keys);
      urls := ResolveFrontier();
      VisitFrontier(urls);
    }

    /** crawl() from loadUrls to saving the frontier: the URL set is loaded or discovered, then persisted. */
    method ResolveFrontier() returns (urls: set<string>)
      modifies this`trace, downloader`failedLinks, downloader`requests, storage`slots
      ensures urls == FrontierOf(old(storage.slots), downloader.web)
      ensures storage.slots == old(storage.slots)[URLS_STORAGE_PATH := urls]
      ensures downloader.failedLinks == old(downloader.failedLinks) + DiscoveryFailures(old(storage.slots), downloader.web)
      ensures downloader.requests == old(downloader.requests) + DiscoveryRequests(old(storage.slots))
      ensures trace == old(trace) + DiscoveryEffects(old(storage.slots)) + [Save(URLS_STORAGE_PATH, urls)]
    {
      var urlsResult := LoadUrls();
      // loadUrls always answers with a present set, so the early return of crawl() never happens.
      urls := urlsResult.value;
      storage.SaveUrls(urls, URLS_STORAGE_PATH);
      trace := trace + [Save(URLS_STORAGE_PATH, urls)];
    }

    /** crawl() from opening the streams to closing them: every frontier URL processed once. */
    method VisitFrontier(urls: set<string>)
      modifies this`streams, this`results, this`trace, this`visited, downloader`failedLinks, downloader`requests
      ensures |visited| == |urls| && Distinct(visited)
      ensures forall u :: u in visited <==> u in urls
      ensures results == TableAfter(old(results), visited, downloader.web)
      ensures streams == CloseAll(OpenStreams(old(results).Keys, visited, downloader.web))
      ensures downloader.failedLinks == old(downloader.failedLinks) + UnionOver(visited, downloader.web, FetchFailure)
      ensures downloader.requests == old(downloader.requests) + PageRequests(visited)
      ensures trace == old(trace) + RunEffects(visited, |urls|, politenessIntervalMillis as int)
    {
      InitiatePrintStreams();
      CrawlUrls(urls);
      TableAfterKeys(old(results), visited, downloader.web);
      ghost var open := streams;
      ClosePrintStreams();
      assert streams == CloseAll(open);
    }

    /** The table crawl() starts from: one empty row map per channel. */
    method InitResults()
      modifies this`results
      ensures results == EmptyTable(XPATH_MAP.Keys)
    {
      var keys := SetToSeq(XPATH_MAP.Keys);
      results := map[];
      for j := 0 to |keys|
        invariant forall k :: k in results <==> k in keys[..j]
        invariant forall k :: k in results ==> results[k] == map[]
      {
        results := results[keys[j] := map[]];
      }
      assert keys[..|keys|] == keys;
    }

    /** The loop of crawl(): every frontier URL once, with its 0-based order, then a pause. */
    method CrawlUrls(urls: set<string>)
      requires streams == map k | k in results :: Stream([], true)
      modifies this`results, this`streams, this`trace, this`visited, downloader`failedLinks, downloader`requests
      ensures |visited| == |urls| && Distinct(visited)
      ensures forall u :: u in visited <==> u in urls
      ensures results == TableAfter(old(results), visited, downloader.web)
      ensures streams == OpenStreams(old(results).Keys, visited, downloader.web)
      ensures downloader.failedLinks == old(downloader.failedLinks) + UnionOver(visited, downloader.web, FetchFailure)
      ensures downloader.requests == old(downloader.requests) + PageRequests(visited)
      ensures trace == old(trace) + RunEffects(visited, |urls|, politenessIntervalMillis as int)
    {
      ghost var table0, keys0 := results, results.Keys;
      ghost var web, millis := downloader.web, politenessIntervalMillis as int;
      ghost var trace0, failed0, requests0 := trace, downloader.failedLinks, downloader.requests;
      FreshStreamsHoldNothing(keys0, web);
      var order := SetToSeq(urls);
      visited := [];
      var count := 0;
      while count < |order|
        invariant 0 <= count <= |order|
        invariant visited == order[..count]
        invariant results == TableAfter(table0, visited, web)
        invariant streams == OpenStreams(keys0, visited, web)
        invariant downloader.failedLinks == failed0 + UnionOver(visited, web, FetchFailure)
        invariant downloader.requests == requests0 + PageRequests(visited)
        invariant trace == trace0 + RunEffects(visited, |urls|, millis)
      {
        VisitUrl(order, count, |urls|, table0, trace0, failed0, requests0);
        count := count + 1;
      }
      assert visited == order;
    }

    /**
      One turn of the loop of crawl(): processUrl on the next URL of the
      iteration order with its 0-based index, then the pause. The table,
      streams, failed set and effects grow from those of the URLs before it to
      those of the URLs up to it.
    */
    method VisitUrl(order: seq<string>, count: nat, total: nat,
                    ghost table0: Table, ghost trace0: seq<Effect>, ghost failed0: set<string>,
                    ghost requests0: seq<Request>)
      requires count < |order| && visited == order[..count]
      requires results == TableAfter(table0, visited, downloader.web)
      requires streams == OpenStreams(table0.Keys, visited, downloader.web)
      requires downloader.failedLinks == failed0 + UnionOver(visited, downloader.web, FetchFailure)
      requires downloader.requests == requests0 + PageRequests(visited)
      requires trace == trace0 + RunEffects(visited, total, politenessIntervalMillis as int)
      modifies this`results, this`streams, this`trace, this`visited, downloader`failedLinks, downloader`requests
      ensures visited == order[..count + 1]
      ensures results == TableAfter(table0, visited, downloader.web)
      ensures streams == OpenStreams(table0.Keys, visited, downloader.web)
      ensures downloader.failedLinks == failed0 + UnionOver(visited, downloader.web, FetchFailure)
      ensures downloader.requests == requests0 + PageRequests(visited)
      ensures trace == trace0 + RunEffects(visited, total, politenessIntervalMillis as int)
    {
      var url := order[count];
      ghost var web, before, millis := downloader.web, visited, politenessIntervalMillis as int;
      TableAfterKeys(table0, before, web);
      OpenStreamsShape(table0.Keys, before, web);
      OpenStreamsStep(table0.Keys, before, web, url);
      RunStep(table0, before, url, web, total, millis);
      EffectsAssoc(trace0, RunEffects(before, total, millis), StepEffects(url, count, total, millis));
      ProcessUrl(url, count, total);
      WaitForPolitenessDuration();
      StepRegroup(old(trace), [Extract(Normalize(url))], ProgressEffect(count, total), [Wait(millis)]);
      assert order[..count + 1] == before + [url];
    }

    /** loadUrls: the cached set when the slot exists (no request is made), else the discovered set. */
    method LoadUrls() returns (urls: Option<set<string>>)
      modifies this`trace, downloader`failedLinks, downloader`requests
      ensures urls == Some(FrontierOf(storage.slots, downloader.web))
      ensures downloader.failedLinks == old(downloader.failedLinks) + DiscoveryFailures(storage.slots, downloader.web)
      ensures downloader.requests == old(downloader.requests) + DiscoveryRequests(storage.slots)
      ensures trace == old(trace) + DiscoveryEffects(storage.slots)
    {
      var storedUrls := storage.LoadUrls(URLS_STORAGE_PATH);
      if storedUrls.Some? {
        return storedUrls;
      }
      var discovered := CrawlUrlsFromWebsite();
      return Some(discovered);
    }

    /** crawlUrlsFromWebsite: query the eight listing pages in order and union their links. */
    method CrawlUrlsFromWebsite() returns (urlsSet: set<string>)
      modifies this`trace, downloader`failedLinks, downloader`requests
      ensures urlsSet == UnionOver(ListingAddresses(), downloader.web, PageLinks)
      ensures downloader.failedLinks == old(downloader.failedLinks) + UnionOver(ListingAddresses(), downloader.web, PageFailure)
      ensures downloader.requests == old(downloader.requests) + ListingRequests(ListingAddresses())
      ensures trace == old(trace) + QueryEffects(ListingAddresses())
    {
      ghost var pages := ListingAddresses();
      ghost var trace0, failed0, requests0 := trace, downloader.failedLinks, downloader.requests;
      urlsSet := {};
      var max := PAGE_MAX;
      var i := 0;
      ghost var k := 0;
      while i < max
        invariant 0 <= k <= |pages| && i == k * PAGE_STEP
        invariant urlsSet == UnionOver(pages[..k], downloader.web, PageLinks)
        invariant downloader.failedLinks == failed0 + UnionOver(pages[..k], downloader.web, PageFailure)
        invariant downloader.requests == requests0 + ListingRequests(pages[..k])
        invariant trace == trace0 + QueryEffects(pages[..k])
      {
        urlsSet := QueryListingPage(i, k, urlsSet, trace0, failed0, requests0);
        i := i + PAGE_STEP;
        k := k + 1;
      }
      assert pages[..k] == pages;
    }

    /**
      One turn of the loop of crawlUrlsFromWebsite: the listing page at the
      given offset is queried and its links are added to those found so far.
    */
    method QueryListingPage(offset: nat, ghost k: nat, found: set<string>, ghost trace0: seq<Effect>,
                            ghost failed0: set<string>, ghost requests0: seq<Request>)
      returns (urlsSet: set<string>)
      requires k < PAGE_MAX / PAGE_STEP && offset == k * PAGE_STEP
      requires found == UnionOver(ListingAddresses()[..k], downloader.web, PageLinks)
      requires downloader.failedLinks == failed0 + UnionOver(ListingAddresses()[..k], downloader.web, PageFailure)
      requires downloader.requests == requests0 + ListingRequests(ListingAddresses()[..k])
      requires trace == trace0 + QueryEffects(ListingAddresses()[..k])
      modifies this`trace, downloader`failedLinks, downloader`requests
      ensures urlsSet == UnionOver(ListingAddresses()[..k + 1], downloader.web, PageLinks)
      ensures downloader.failedLinks == failed0 + UnionOver(ListingAddresses()[..k + 1], downloader.web, PageFailure)
      ensures downloader.requests == requests0 + ListingRequests(ListingAddresses()[..k + 1])
      ensures trace == trace0 + QueryEffects(ListingAddresses()[..k + 1])
    {
      ghost var pages := ListingAddresses();
      var link := SITE + SITE_SUFFIX + "?pgf0=" + NatToString(offset);
      assert link == pages[k];
      ListingStep(pages, k, downloader.web);
      var links := downloader.GetLinks(link, LINK_QUERY);
      trace := trace + [Query(link)];
      urlsSet := found + links;
    }

    /** initiatePrintStreams: one fresh, open stream per channel of the table. */
    method InitiatePrintStreams()
      modifies this`streams
      ensures streams == map k | k in results :: Stream([], true)
    {
      var keys := SetToSeq(results.Keys);
      streams := map[];
      for j := 0 to |keys|
        invariant forall k :: k in streams <==> k in keys[..j]
        invariant forall k :: k in streams ==> streams[k] == Stream([], true)
      {
        streams := streams[keys[j] := Stream([], true)];
      }
      assert keys[..|keys|] == keys;
    }

    /** closePrintStreams: the stream of every channel of the table is closed, its lines kept. */
    method ClosePrintStreams()
      requires results.Keys <= streams.Keys
      modifies this`streams
      ensures streams.Keys == old(streams).Keys
      ensures forall k :: k in streams ==>
                streams[k] == if k in results then old(streams)[k].(open := false) else old(streams)[k]
    {
      var keys := SetToSeq(results.Keys);
      for j := 0 to |keys|
        invariant streams.Keys == old(streams).Keys
        invariant forall k :: k in streams ==>
                    streams[k] == if k in keys[..j] then old(streams)[k].(open := false) else old(streams)[k]
      {
        streams := streams[keys[j] := streams[keys[j]].(open := false)];
      }
      assert keys[..|keys|] == keys;
    }

    /**
      processUrl: fetch the normalised address once; for each channel the
      products hold, record the row under the original URL and print one line
      per fragment; channels the products lack are skipped.
    */
    method ProcessUrl(url: string, order: nat, totalCount: nat)
      requires RunReady()
      modifies this`results, this`streams, this`trace, this`visited, downloader`failedLinks, downloader`requests
      ensures RunReady()
      ensures results == RecordRow(old(results), url, Extracted(downloader.web, url))
      ensures streams == WriteRow(old(streams), url, Extracted(downloader.web, url))
      ensures downloader.failedLinks == old(downloader.failedLinks) + downloader.web.ExtractFailureOf(Normalize(url))
      ensures downloader.requests == old(downloader.requests) + [PageRequest(Normalize(url), XPATH_MAP)]
      ensures trace == old(trace) + [Extract(Normalize(url))] + ProgressEffect(order, totalCount)
      ensures visited == old(visited) + [url]
    {
      var link := PrependBaseUrlIfNeeded(url, SITE);
      var products := downloader.ProcessUrl(link, XPATH_MAP);
      trace := trace + [Extract(link)];
      if order % PROGRESS_EVERY == 0 {
        trace := trace + [Progress(order, totalCount)];
      }
      RouteProducts(url, products);
      visited := visited + [url];
    }

    /** The channel loop of processUrl: record and print what each channel of the table got. */
    method RouteProducts(url: string, products: map<string, seq<string>>)
      requires RunReady()
      modifies this`results, this`streams
      ensures RunReady()
      ensures results == RecordRow(old(results), url, products)
      ensures streams == WriteRow(old(streams), url, products)
    {
      ghost var r0, s0 := results, streams;
      var remaining := results.Keys;
      while remaining != {}
        invariant remaining <= r0.Keys
        invariant results == RecordRow(r0, url, HandledProducts(products, remaining))
        invariant streams == WriteRow(s0, url, HandledProducts(products, remaining))
        decreases |remaining|
      {
        var key :| key in remaining;
        HandledStep(products, remaining, key);
        if key in products {
          RecordRowOneMore(r0, url, HandledProducts(products, remaining), key, products[key]);
          WriteRowOneMore(s0, url, HandledProducts(products, remaining), key, products[key]);
        }
        RouteChannel(key, url, products);
        remaining := remaining - {key};
      }
      HandledAll(products);
    }

    /** One turn of that loop: a channel the products lack is skipped, else its row is recorded and printed. */
    method RouteChannel(key: string, url: string, products: map<string, seq<string>>)
      requires key in results && key in streams
      modifies this`results, this`streams
      ensures results == if key in products then old(results)[key := old(results)[key][url := products[key]]] else old(results)
      ensures streams == if key in products then old(streams)[key := AppendRow(old(streams)[key], url, products[key])] else old(streams)
    {
      if key !in products {
        return;
      }
      var list := products[key];
      results := results[key := results[key][url := list]];
      PrintLines(key, url, list);
    }

    /** The printing loop of processUrl: one `url TAB fragment` line per fragment, in list order. */
    method PrintLines(key: string, url: string, list: seq<string>)
      requires key in streams
      modifies this`streams
      ensures streams == old(streams)[key := AppendRow(old(streams)[key], url, list)]
    {
      ghost var s0 := streams[key];
      for i := 0 to |list|
        invariant streams.Keys == old(streams).Keys
        invariant forall k :: k in streams && k != key ==> streams[k] == old(streams)[k]
        invariant streams[key] == s0.(lines := s0.lines + Render(RowEntries(url, list[..i])))
      {
        assert Render(RowEntries(url, list[..i + 1])) == Render(RowEntries(url, list[..i])) + [url + "\t" + list[i]];
        streams := streams[key := streams[key].(lines := streams[key].lines + [url + "\t" + list[i]])];
      }
      assert list[..|list|] == list;
      assert streams == old(streams)[key := AppendRow(s0, url, list)];
    }

    /** waitForPolitenessDuration: a pause of the politeness interval (its timing is not modelled). */
    method WaitForPolitenessDuration()
      modifies this`trace
      ensures trace == old(trace) + [Wait(politenessIntervalMillis as int)]
    {
      trace := trace + [Wait(politenessIntervalMillis as int)];
    }

    /** reportProblems: nothing for an empty set, else the set saved under a slot naming its size. */
    method ReportProblems(failedLinks: set<string>, stamp: string)
      modifies this`trace, storage`slots
      ensures storage.slots == AfterReport(old(storage.slots), failedLinks, stamp)
      ensures trace == old(trace) + ReportEffects(failedLinks, stamp)
    {
      if failedLinks == {} {
        return;
      }
      var name := stamp + "_failed_links_size_" + NatToString(|failedLinks|) + ".txt";
      storage.SaveUrls(failedLinks, name);
      trace := trace + [Save(name, failedLinks)];
    }
  }
}
