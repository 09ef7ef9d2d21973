/**
  The two collaborators the crawler drives, reduced to what the crawler can
  observe of them.

  Downloader stands in for HTMLDownloaderInterface: which links a listing
  query finds, what the channel queries extract from a page, which addresses
  cannot be fetched and on which pages some channel query fails are a fixed
  oracle (Web). Its state is the set of addresses that failed so far, and,
  as a ghost log, the requests it has received in order. A failed fetch
  records its address and yields nothing; a failed channel query records the
  address while the channels that succeeded are still answered.

  Storage stands in for cz.zcu.kiv.nlp.Storage: a map from slot (file) name
  to the set of lines saved under it.
*/
module Collaborators {
  import opened Wrappers

  /**
    What the downloader answers for each address: the links a structural
    query finds on a reachable page, the fragments each named query extracts
    from it, and which addresses cannot be fetched at all. On a page in
    extractFailures some channel query fails: the address is recorded as
    failed, and the extractor's answer holds the channels that succeeded.
  */
  datatype Web = Web(linker: (string, string) -> set<string>,
                     extractor: (string, map<string, string>) -> map<string, seq<string>>,
                     unreachable: set<string>,
                     extractFailures: set<string>)
  {
    /** What getLinks answers for an address. */
    function LinksOf(address: string, query: string): set<string>
    {
      if address in unreachable then {} else linker(address, query)
    }

    /** What processUrl answers for an address. */
    function ProductsOf(address: string, queries: map<string, string>): map<string, seq<string>>
    {
      if address in unreachable then map[] else extractor(address, queries)
    }

    /** What a listing query on the address adds to the failed set. */
    function FailureOf(address: string): set<string>
    {
      if address in unreachable then {address} else {}
    }

    /** What an extraction from the address adds to the failed set: a failed fetch or a failed channel query. */
    function ExtractFailureOf(address: string): set<string>
    {
      if address in unreachable || address in extractFailures then {address} else {}
    }
  }

  /** A request the downloader receives. */
  datatype Request =
    | LinksRequest(address: string, query: string)
    | PageRequest(address: string, queries: map<string, string>)

  class Downloader {
    const web: Web
    /** Addresses that failed since the last EmptyFailedLinks. */
    var failedLinks: set<string>
    /** Every links or page request received so far, in order. */
    ghost var requests: seq<Request>

    constructor (web: Web)
      ensures this.web == web && failedLinks == {} && requests == []
    {
      this.web := web;
      failedLinks := {};
      requests := [];
    }

    method GetLinks(address: string, query: string) returns (links: set<string>)
      modifies this`failedLinks, this`requests
      ensures links == web.LinksOf(address, query)
      ensures failedLinks == old(failedLinks) + web.FailureOf(address)
      ensures requests == old(requests) + [LinksRequest(address, query)]
    {
      requests := requests + [LinksRequest(address, query)];
      if address in web.unreachable {
        failedLinks := failedLinks + {address};
        links := {};
      } else {
        links := web.linker(address, query);
      }
    }

    method ProcessUrl(address: string, queries: map<string, string>) returns (products: map<string, seq<string>>)
      modifies this`failedLinks, this`requests
      ensures products == web.ProductsOf(address, queries)
      ensures failedLinks == old(failedLinks) + web.ExtractFailureOf(address)
      ensures requests == old(requests) + [PageRequest(address, queries)]
    {
      requests := requests + [PageRequest(address, queries)];
      if address in web.unreachable {
        failedLinks := failedLinks + {address};
        products := map[];
      } else {
        products := web.extractor(address, queries);
        if address in web.extractFailures {
          failedLinks := failedLinks + {address};
        }
      }
    }

    method GetFailedLinks() returns (links: set<string>)
      ensures links == failedLinks
    {
      links := failedLinks;
    }

    method EmptyFailedLinks()
      modifies this`failedLinks
      ensures failedLinks == {}
    {
      failedLinks := {};
    }
  }

  class Storage {
    /** Saved URL sets, by slot name. */
    var slots: map<string, set<string>>

    constructor (slots: map<string, set<string>>)
      ensures this.slots == slots
    {
      this.slots := slots;
    }

    /** A slot that exists yields its set; a missing slot yields nothing. */
    method LoadUrls(slot: string) returns (urls: Option<set<string>>)
      ensures urls.Some? <==> slot in slots
      ensures urls.Some? ==> urls.value == slots[slot]
    {
      if slot in slots {
        urls := Some(slots[slot]);
      } else {
        urls := None;
      }
    }

    /** Saving overwrites the slot and leaves every other slot alone. */
    method SaveUrls(urls: set<string>, slot: string)
      modifies this`slots
      ensures slots == old(slots)[slot := urls]
    {
      slots := slots[slot := urls];
    }
  }
}
