# Crawl orchestration of the vysokeskoly.com crawler

This project models the controller `cz.zcu.kiv.nlp.vs.Crawler` and the URL helper
`cz.zcu.kiv.nlp.utils.Links` in Dafny and proves the properties below. A run
of the controller does the following in order:

- it resolves a frontier of URLs: the cached slot `_urls.txt` if storage holds
  one, otherwise the union of the links on the eight listing pages
  `?pgf0=0 … ?pgf0=700`;
- it saves that frontier back to `_urls.txt`;
- it opens one output stream per extraction channel (`allText`, `html`,
  `tidyText`);
- it walks the frontier once. For each URL it fetches the normalised address,
  records each channel's fragments under the original URL and prints one
  `url TAB fragment` line per fragment. It observes progress at every 100th
  URL and pauses for the politeness interval;
- it closes the streams, saves the failed links under a slot that names their
  count, and clears the downloader's failed set.

The modules are:

- `Wrappers`: `Option`, standing in for `java.util.Optional` and for nullable results.
- `Links`: `prependBaseUrlIfNeeded` and its lemmas.
- `Decimal`: the decimal rendering Java's string concatenation gives an `int`, and its inverse.
- `Collaborators`:
  - the downloader: a fixed oracle `Web`, plus the `Downloader` object. The oracle gives the links per address and query, the fragments per address and channel map, the unreachable addresses, and the pages on which some channel query fails. The object's state is its failed set and a ghost log of the requests it has received, in order;
  - the storage: `Storage`, a map from slot name to URL set.
- `CrawlerSpec`: the site constants and, as values, everything a run produces:
  - the frontier;
  - the result table after a sequence of URLs;
  - the lines each channel receives;
  - the ordered trace of observable effects (listing queries, page fetches, saves, progress observations, pauses);
  - the failure report.

  The lemmas about these definitions are also here.
- `Crawler`: the controller as a class. `results` and `streams` are fields that the methods update in place. The ghost fields `trace` and `visited` record the effects and the order of the walk. Each method is proved against the definitions in `CrawlerSpec`. Each method that talks to the downloader also states exactly which requests the downloader's own log gains. `CrawlRequestsMatchTrace` proves that these are the requests the `Query` and `Extract` entries of `trace` stand for.

A page on which one channel query fails while another succeeds is a partial success. Its row is kept for the channels that succeeded, and its address is also recorded as failed (`PartialSuccessIsKept`).

In a few places Crawler.java behaves differently from what its comments suggest. The model follows the code:

- `crawl()` calls `emptyFailedLinks()` even when the failed set is empty (Crawler.java:105-106). This happens after `reportProblems` returns early, not only after a non-empty report.
- The failure slot records every failed address: those from discovery as well as those from page fetches.
- The loop pauses after every URL, the last one included. `RunWaitsOncePerUrl` counts N pauses for N URLs.
- `loadUrls` always answers with a present set. An empty discovery result is crawled as an empty frontier, and the `isEmpty()` early return (Crawler.java:80-83) never triggers.
- A table row and a printed line are keyed by the URL as it stood in the frontier. Only the fetch uses the normalised address.

## Model

| member | source | states |
|---|---|---|
| Links.PrependBaseUrlIfNeeded | src/main/java/cz/zcu/kiv/nlp/utils/Links.java:5-7 | the result always starts with the base address |
| Links.UrlIsKeptAsSuffix | src/main/java/cz/zcu/kiv/nlp/utils/Links.java:6 | the result always ends with the given URL |
| Links.UnchangedIffAbsolute | src/main/java/cz/zcu/kiv/nlp/utils/Links.java:6 | the URL comes back unchanged exactly when it already starts with the base address |
| Links.RelativeGetsBasePrefixed | src/main/java/cz/zcu/kiv/nlp/utils/Links.java:6 | any other URL becomes exactly base + url |
| Links.PrependIsIdempotent | src/main/java/cz/zcu/kiv/nlp/utils/Links.java:6 | normalising a normalised URL changes nothing |
| Decimal.NatToString | src/main/java/cz/zcu/kiv/nlp/vs/Crawler.java:143 | the rendering of an offset is a non-empty digit string, one digit long exactly below 10 |
| Decimal.DigitsValueOfNatToString | src/main/java/cz/zcu/kiv/nlp/vs/Crawler.java:219-220 | reading the digits back gives the number |
| Decimal.NatToStringInjective | src/main/java/cz/zcu/kiv/nlp/vs/Crawler.java:219-220 | different counts give different renderings |
| Collaborators.Downloader.GetLinks | src/main/java/cz/zcu/kiv/nlp/vs/Crawler.java:144 | answers the oracle's links for a reachable page, else nothing; the failed set gains exactly the unreachable address; the request log gains exactly this links request |
| Collaborators.Downloader.ProcessUrl | src/main/java/cz/zcu/kiv/nlp/vs/Crawler.java:179 | answers the oracle's fragments for a reachable page, else the empty map; the failed set gains the address when the fetch or some channel query fails, even though the channels that succeeded are still answered; the request log gains exactly this page request |
| Collaborators.Downloader.GetFailedLinks | src/main/java/cz/zcu/kiv/nlp/vs/Crawler.java:105 | returns the current failed set |
| Collaborators.Downloader.EmptyFailedLinks | src/main/java/cz/zcu/kiv/nlp/vs/Crawler.java:106 | the failed set is empty afterwards |
| Collaborators.Storage.LoadUrls | src/main/java/cz/zcu/kiv/nlp/Storage.java:48-55 | present exactly when the slot exists, and then holds the slot's set |
| Collaborators.Storage.SaveUrls | src/main/java/cz/zcu/kiv/nlp/Storage.java:57-59 | the slot is overwritten with the set; no other slot changes |
| Crawler.ValidateParams | src/main/java/cz/zcu/kiv/nlp/vs/Crawler.java:56-69 | accepted exactly when downloader and storage are non-null and the interval is positive; otherwise the message of the first failing check, in the order of Crawler.java:58-68 |
| Crawler.Crawler.constructor | src/main/java/cz/zcu/kiv/nlp/vs/Crawler.java:47-54 | with valid arguments, the fields equal the arguments |
| Crawler.Crawler.Create | src/main/java/cz/zcu/kiv/nlp/vs/Crawler.java:47-54 | either a fresh crawler holding exactly the arguments or the validation error, never both |
| Crawler.SetToSeq | src/main/java/cz/zcu/kiv/nlp/vs/Crawler.java:91 | a set's iteration order: every element exactly once |
| Crawler.Crawler.Crawl | src/main/java/cz/zcu/kiv/nlp/vs/Crawler.java:71-117 | the frontier is the cached or discovered set; the frontier's URLs are walked exactly once each; the table and the closed streams hold exactly what the walk produced; storage gains the frontier slot and the failure report; the failed set ends empty; the downloader receives exactly the listing requests (none when cached) and then one page request per walked URL, normalised; all effects happen in order |
| Crawler.Crawler.WalkFrontier | src/main/java/cz/zcu/kiv/nlp/vs/Crawler.java:72-98 | starts from a fresh table, resolves and saves the frontier, walks it once and closes one stream per channel |
| Crawler.Crawler.ResolveFrontier | src/main/java/cz/zcu/kiv/nlp/vs/Crawler.java:79-86 | the frontier is loaded or discovered, then saved to `_urls.txt` before anything else happens |
| Crawler.Crawler.VisitFrontier | src/main/java/cz/zcu/kiv/nlp/vs/Crawler.java:88-98 | every frontier URL is processed once; the streams end closed with their lines kept |
| Crawler.Crawler.FinishRun | src/main/java/cz/zcu/kiv/nlp/vs/Crawler.java:105-106 | the failed set is reported, and then it is empty |
| Crawler.Crawler.InitResults | src/main/java/cz/zcu/kiv/nlp/vs/Crawler.java:72-77 | one empty row map per channel, and no other key |
| Crawler.Crawler.CrawlUrls | src/main/java/cz/zcu/kiv/nlp/vs/Crawler.java:90-96 | walks a distinct ordering of the frontier; the table, streams, failed set, request log and effects are those of processing that ordering with 0-based indices |
| Crawler.Crawler.VisitUrl | src/main/java/cz/zcu/kiv/nlp/vs/Crawler.java:92-96 | one iteration: the URL at the current index is visited, and the table, streams, failed set, request log and effects become those of the walk one URL longer |
| Crawler.Crawler.LoadUrls | src/main/java/cz/zcu/kiv/nlp/vs/Crawler.java:119-126 | always present. With `_urls.txt` it is that set and the downloader receives no request; otherwise it is the discovered set, and the downloader receives the eight listing requests |
| Crawler.Crawler.CrawlUrlsFromWebsite | src/main/java/cz/zcu/kiv/nlp/vs/Crawler.java:138-148 | queries the eight listing pages in order, sending exactly their eight links requests, and returns the union of their links |
| Crawler.Crawler.QueryListingPage | src/main/java/cz/zcu/kiv/nlp/vs/Crawler.java:143-144 | one iteration: page k is queried at offset k × 100; the found set, failed set, request log and effects become those of the first k + 1 pages |
| Crawler.Crawler.InitiatePrintStreams | src/main/java/cz/zcu/kiv/nlp/vs/Crawler.java:150-164 | one empty, open stream per channel of the table |
| Crawler.Crawler.ClosePrintStreams | src/main/java/cz/zcu/kiv/nlp/vs/Crawler.java:166-172 | every channel's stream is closed with its lines kept; other streams are untouched |
| Crawler.Crawler.ProcessUrl | src/main/java/cz/zcu/kiv/nlp/vs/Crawler.java:174-198 | the downloader receives exactly one request, the page request for the normalised address; each channel the answer holds gets the row and its lines under the original URL; a progress observation happens exactly at index % 100 == 0 |
| Crawler.Crawler.RouteProducts | src/main/java/cz/zcu/kiv/nlp/vs/Crawler.java:183-197 | the table and streams become exactly one row written for the URL; channels the products lack are skipped |
| Crawler.Crawler.RouteChannel | src/main/java/cz/zcu/kiv/nlp/vs/Crawler.java:184-196 | a channel that is absent changes nothing; otherwise only that channel's row and stream change |
| Crawler.Crawler.PrintLines | src/main/java/cz/zcu/kiv/nlp/vs/Crawler.java:193-196 | the stream gains `url TAB fragment` per fragment, in list order; other streams are untouched |
| Crawler.Crawler.WaitForPolitenessDuration | src/main/java/cz/zcu/kiv/nlp/vs/Crawler.java:200-206 | one pause of the politeness interval |
| Crawler.Crawler.ReportProblems | src/main/java/cz/zcu/kiv/nlp/vs/Crawler.java:213-222 | nothing for an empty set; otherwise exactly the set is saved under `<stamp>_failed_links_size_<n>.txt` |
| CrawlerSpec.ListingAddressesAreTheEightPages | src/main/java/cz/zcu/kiv/nlp/vs/Crawler.java:140-143 | discovery's pages are exactly the eight literal addresses with offsets 0 … 700 |
| CrawlerSpec.ListingPageIs | src/main/java/cz/zcu/kiv/nlp/vs/Crawler.java:142-143 | page d is addressed by the three-digit offset d00 |
| CrawlerSpec.ListingPrefixIsLiteral | src/main/java/cz/zcu/kiv/nlp/vs/Crawler.java:143 | the listing prefix is the literal `https://www.vysokeskoly.com/prehled-oboru/?pgf0=` |
| CrawlerSpec.HundredsRendering | src/main/java/cz/zcu/kiv/nlp/vs/Crawler.java:143 | d * 100 renders as the digit d followed by two zeros |
| CrawlerSpec.UnionOverMembership | src/main/java/cz/zcu/kiv/nlp/vs/Crawler.java:142-145 | an address is in an accumulated union exactly when some element's answer holds it |
| CrawlerSpec.ListingStep | src/main/java/cz/zcu/kiv/nlp/vs/Crawler.java:142-145 | querying one more page adds its links, its failures and its query effect to those of the earlier pages |
| CrawlerSpec.DiscoveredFrontierIsUnionOfPages | src/main/java/cz/zcu/kiv/nlp/vs/Crawler.java:119-148 | with no cache, a URL is in the frontier exactly when some listing page yields it |
| CrawlerSpec.NextRunReusesFrontier | src/main/java/cz/zcu/kiv/nlp/vs/Crawler.java:85-86 | after a run, the next run finds the identical frontier in storage, performs no discovery and sends no listing request |
| CrawlerSpec.FrontierPersistedBeforeAnyFetch | src/main/java/cz/zcu/kiv/nlp/vs/Crawler.java:85-92 | in a run's effect order, the frontier save comes right after discovery and before every page fetch |
| CrawlerSpec.EmptyTableKeys | src/main/java/cz/zcu/kiv/nlp/vs/Crawler.java:74-77 | the fresh table has exactly the channel keys |
| CrawlerSpec.TableAfterKeys | src/main/java/cz/zcu/kiv/nlp/vs/Crawler.java:183-190 | processing never adds or removes a channel |
| CrawlerSpec.TableAfterCell | src/main/java/cz/zcu/kiv/nlp/vs/Crawler.java:183-190 | a cell holds a processed URL's fragments exactly when the URL yielded that channel; other cells keep what they held |
| CrawlerSpec.RunTableCell | src/main/java/cz/zcu/kiv/nlp/vs/Crawler.java:183-190 | on a fresh table, a row exists exactly for processed URLs that yielded the channel, holding those fragments |
| CrawlerSpec.TableIndependentOfOrder | src/main/java/cz/zcu/kiv/nlp/vs/Crawler.java:91-96 | two walks over the same URLs, in any two orders, give the same table |
| CrawlerSpec.PartialSuccessIsKept | src/main/java/cz/zcu/kiv/nlp/vs/Crawler.java:179-190 | a walked URL on whose page one channel query fails keeps the rows of the channels that succeeded, and its address is in the failed set |
| CrawlerSpec.HandledStep | src/main/java/cz/zcu/kiv/nlp/vs/Crawler.java:183-188 | handling one more channel handles its products if it has any |
| CrawlerSpec.HandledAll | src/main/java/cz/zcu/kiv/nlp/vs/Crawler.java:183 | after the last channel every product is handled |
| CrawlerSpec.RecordRowOneMore | src/main/java/cz/zcu/kiv/nlp/vs/Crawler.java:184-190 | recording one more channel touches only that channel's row map |
| CrawlerSpec.WriteRowOneMore | src/main/java/cz/zcu/kiv/nlp/vs/Crawler.java:193-196 | printing one more channel touches only that channel's stream |
| CrawlerSpec.OpenStreamsShape | src/main/java/cz/zcu/kiv/nlp/vs/Crawler.java:150-164 | during the walk there is one stream per channel, and each is open |
| CrawlerSpec.FreshStreamsHoldNothing | src/main/java/cz/zcu/kiv/nlp/vs/Crawler.java:150-164 | streams just opened hold no lines |
| CrawlerSpec.OpenStreamsStep | src/main/java/cz/zcu/kiv/nlp/vs/Crawler.java:193-196 | writing one more URL's row extends each channel by exactly that URL's lines |
| CrawlerSpec.ChannelEntriesMembership | src/main/java/cz/zcu/kiv/nlp/vs/Crawler.java:193-196 | an entry is written to a channel exactly when a processed URL yielded that fragment there |
| CrawlerSpec.WrittenLineShape | src/main/java/cz/zcu/kiv/nlp/vs/Crawler.java:195 | every printed line is `url TAB fragment`, for a frontier URL and one of its fragments |
| CrawlerSpec.MissingChannelLeavesNoTrace | src/main/java/cz/zcu/kiv/nlp/vs/Crawler.java:185-188 | a channel absent from a URL's products gives neither a row nor a line for that URL |
| CrawlerSpec.RunStep | src/main/java/cz/zcu/kiv/nlp/vs/Crawler.java:91-96 | one more URL adds its row, its failures and its effects after those of the earlier URLs |
| CrawlerSpec.RunFetchesEachUrlOnce | src/main/java/cz/zcu/kiv/nlp/vs/Crawler.java:91-96 | the requests among a walk's effects are one page request per URL, for the normalised i-th URL at position i, and nothing else |
| CrawlerSpec.StepFetchesOnce | src/main/java/cz/zcu/kiv/nlp/vs/Crawler.java:177-179 | one iteration's effects stand for exactly one request, the page request for the normalised address |
| CrawlerSpec.QueriesRequestListings | src/main/java/cz/zcu/kiv/nlp/vs/Crawler.java:142-145 | the Query effects of discovery stand for exactly the links requests of the listing pages, in order |
| CrawlerSpec.DiscoveryRequestsMatchEffects | src/main/java/cz/zcu/kiv/nlp/vs/Crawler.java:119-126 | resolving the frontier sends exactly the requests its effects record: none when the frontier is cached |
| CrawlerSpec.CrawlRequestsMatchTrace | src/main/java/cz/zcu/kiv/nlp/vs/Crawler.java:71-117 | the requests among a whole crawl's effects are the discovery requests followed by one page request per walked URL |
| CrawlerSpec.RunRequestsStep | src/main/java/cz/zcu/kiv/nlp/vs/Crawler.java:91-96 | one more URL of a walk adds exactly its page request |
| CrawlerSpec.RequestsConcat | src/main/java/cz/zcu/kiv/nlp/vs/Crawler.java:71-117 | the requests of two stretches of effects are those of the first, followed by those of the second |
| CrawlerSpec.ProgressObservedIff | src/main/java/cz/zcu/kiv/nlp/vs/Crawler.java:180-182 | progress (i, t) is observed exactly when i < N, i % 100 == 0 and t is the frontier size |
| CrawlerSpec.RunWaitsOncePerUrl | src/main/java/cz/zcu/kiv/nlp/vs/Crawler.java:91-96 | N URLs pause N × interval milliseconds in all |
| CrawlerSpec.StepWaitsOnce | src/main/java/cz/zcu/kiv/nlp/vs/Crawler.java:95 | one iteration pauses exactly one interval |
| CrawlerSpec.FailedSlotNameEmbedsSize | src/main/java/cz/zcu/kiv/nlp/vs/Crawler.java:218-220 | the failure slot's name holds the failed count in decimal, which reads back as that count |
| CrawlerSpec.FailedSlotIsNotFrontierSlot | src/main/java/cz/zcu/kiv/nlp/vs/Crawler.java:218-220 | a failure report never overwrites `_urls.txt` |
| CrawlerSpec.TwoUrlScenario | src/main/java/cz/zcu/kiv/nlp/vs/Crawler.java:174-198 | frontier {"/a", "/b"}, where "/a" yields ["hello"] and "/b" yields nothing, in either order: the channel gets exactly the line "/a\thello", the table holds just that row, and when neither page fails the failed set gains nothing |
| CrawlerSpec.TwoUrlChannel | src/main/java/cz/zcu/kiv/nlp/vs/Crawler.java:193-196 | in that scenario, the channel receives only the line "/a\thello" |
| CrawlerSpec.TwoUrlTable | src/main/java/cz/zcu/kiv/nlp/vs/Crawler.java:183-190 | in that scenario, the table holds only the row "/a" -> ["hello"] |
| CrawlerSpec.TwoUrlFailures | src/main/java/cz/zcu/kiv/nlp/vs/Crawler.java:177-179 | a two-URL walk adds to the failed set exactly the failures of its two extractions |
| CrawlerSpec.OneUrlEntries | src/main/java/cz/zcu/kiv/nlp/vs/Crawler.java:91-96 | a one-URL walk writes exactly that URL's fragments to a channel |
| CrawlerSpec.OneUrlTable | src/main/java/cz/zcu/kiv/nlp/vs/Crawler.java:91-96 | a one-URL walk records exactly that URL's row |
| CrawlerSpec.TwoUrlEntries | src/main/java/cz/zcu/kiv/nlp/vs/Crawler.java:91-96 | in a two-URL walk, the second URL's lines follow the first's |
| CrawlerSpec.TwoUrlTableStep | src/main/java/cz/zcu/kiv/nlp/vs/Crawler.java:91-96 | in a two-URL walk, the second row is recorded on top of the first |

## Left out

- Thread.sleep and the swallowed InterruptedException (Crawler.java:200-206) are not modelled. A pause is a `Wait` effect in the trace, and its timing is not modelled.
- Real file and stream I/O is not modelled. A print stream is its sequence of lines plus an open flag. The timestamped file names of the channel streams (Crawler.java:153) are not modelled. When FileOutputStream fails, initiatePrintStreams keeps a null stream that later throws on `println`; the model always opens the stream.
- The clock that stamps the failure slot's name (`Utils.SDF.format(System.currentTimeMillis())`) is the parameter `failStamp` of `Crawl`.
- Log output and the float progress fraction (Crawler.java:181) are not modelled. A progress observation records only its index and the frontier size.
- The unused helper `loadUrlsFromStorage` (Crawler.java:128-136) is not modelled. The `isEmpty()` branch of `crawl()` (Crawler.java:80-83) cannot be reached and has no counterpart.
- The iteration order of HashMap and HashSet is unspecified. `SetToSeq` picks an arbitrary order of each element exactly once. Every property is proved for every such order.
- Storage internals (directory creation, `Utils.readTXTFile`, `Utils.saveFile`, path concatenation) are not modelled; a slot is a set that loads back exactly as saved. As a result, a slot that exists but cannot be opened (`loadUrlsFromStorage` answering empty, Storage.java:65-73) is not modelled.
- Main.java is not part of this model. HTMLDownloaderInterface and its Selenium implementation are not part of this model either: the `Web` oracle and the failed set stand in for them.
- The table does not depend on the iteration order (`TableIndependentOfOrder`). The order of the lines within a channel's stream does follow the iteration order, so two runs over the same frontier can write the same lines in different orders.
- The result table and the streams are fields holding value maps. The shared, mutable inner HashMaps of Crawler.java, and any aliasing between them, are not modelled.
- Crawler.Crawler.CrawlUrls does not model the 32-bit `count` wrapping. `count` stays below the frontier size, which a Java set's `int` size bounds.
