# YTruth: the resolution cascade and its page scripts, in Dafny

YTruth is a browser extension that labels YouTube videos with a political-leaning
and factuality summary. This project models what its three scripts decide, and
proves properties of that model.

- **Background service worker** (`scripts/background.js`). A request
  `{id, channel, title}` is resolved through four tiers:
  1. the static per-video catalog;
  2. a per-video cache whose records expire after seven days;
  3. the per-channel catalog, which gives rise to a short label;
  4. the zero-shot classifier, whose answer is always written to the cache.

  The model also covers how the two catalogs are loaded, the scan of the
  classifier's `labels`/`scores` reply, and the fixed "AI Failed" object.
- **`content.js`** reads a video record from a video element, puts an indicator
  beside each video's title, and paints an analysis onto the elements whose id
  matches it.
- **`content_script.js`** reads the id with `/v=([^&]+)/`. It sends a request when
  there is an id and a channel name, and injects a label from the answer.

Modules: `Wrappers` (Option), `Model` (the analysis object and the video record),
`JsStrings` (`trim`, `split(c)[0]`), `Cache`, `Classifier`, `Catalogs`, `Cascade`,
`Content`, `ContentScript`.

How the model is built:
- Mutable state is held in classes:
  - the object store: `Cache.AnalysisStore`;
  - the two module-level catalogs: `Cascade.ServiceWorker`;
  - a page's elements: `Content.VideoPage` and `ContentScript.ScriptPage`.
- Each method is proved against a pure function: `Lookup`/`Put`, `Resolve`,
  `AnalysisOf`, `LoadAsWritten`, `Sent`.
- Clock readings (`Date.now()`) are parameters, and so are the results of network
  calls: the classifier reply, and each catalog download.
- An exception inside the asynchronous handler means that no response is sent. It
  is modelled as `Aborted` / `None`. Two things throw:
  - reading a catalog that was loaded as `null` or `undefined`;
  - calling `charAt` on a channel field that is not a string.

Where the code and the intended design differ, the model follows the code:
- The classifier's result is cached even when it is the "AI Failed" object.
- There is no timeout on the classifier call.
- Labels are not normalised through a priority table: each of the three fields
  takes the score at the last occurrence of one exact label.
- A failed catalog load keeps the previous catalogs; it does not empty them.
- One failed download aborts the whole load; the two halves are not independent.

The tier-3 separator is exactly what the file's bytes give: space, U+00C2, U+00B7,
space. This looks like a doubly encoded " · ".

## Model

| member | source | states |
|---|---|---|
| `JsStrings.Trim` | scripts/content.js:97-98 | the result is a slice of the text with only ECMAScript whitespace before and after it; it is empty iff the text is all whitespace, and otherwise starts and ends with non-whitespace |
| `JsStrings.TrimIdempotent` | scripts/content.js:97-98 | trimming a trimmed text changes nothing |
| `JsStrings.TakeUntil` | scripts/content.js:93 | `split('&')[0]` is the longest prefix without `&`, followed by `&` or the end |
| `Cache.Lookup` | scripts/background.js:59-65 | a read yields the stored data iff a record exists and `now - timestamp < 604800000`, otherwise nothing |
| `Cache.Put` | scripts/background.js:79 | a put replaces the record for the id with `{id, data, timestamp: now}` and keeps every other record |
| `Cache.PutKeepsKeyedById` | scripts/background.js:45 | with key path `id`, a put keeps every record under its own id |
| `Cache.LookupAfterPut` | scripts/background.js:53-80 | after a put, the id is served for exactly seven days from the write; other ids read as before |
| `Cache.ExpiryBoundary` | scripts/background.js:61 | a record is served at age 604799999 ms and absent at 604800000 ms and later |
| `Cache.AnalysisStore.constructor` | scripts/background.js:40-50 | the object store starts empty |
| `Cache.AnalysisStore.Get` | scripts/background.js:53-72 | `getAnalysisFromDB` returns what `Lookup` describes |
| `Cache.AnalysisStore.Save` | scripts/background.js:74-89 | `saveAnalysisToDB` performs `Put` with the time of the save and keeps records keyed by id |
| `Classifier.ScoreAt` | scripts/background.js:117 | `scores[i]` is defined iff `scores` is an array longer than `i`, and then it is that element |
| `Classifier.LastIndex` | scripts/background.js:115-122 | the last index holding the label, with no later occurrence; none iff the label is absent |
| `Classifier.ScanLabels` | scripts/background.js:111-122 | the loop throws iff there are labels but `scores` is `null` or `undefined`; otherwise each field is the score at its label's last index, and other labels are ignored |
| `Classifier.OtherLabelsIgnored` | scripts/background.js:119-121 | appending a label other than the wanted one leaves that field unchanged |
| `Classifier.LastOccurrenceWins` | scripts/background.js:115-122 | a later occurrence of a label overrides an earlier one; its score is `undefined` past the end of `scores` |
| `Classifier.Scored` | scripts/background.js:125-131 | the success object carries the three scores, a percentage text of the politicalness, a tooltip breaking down all three, and no `political_leaning` |
| `Classifier.AnalysisOf` | scripts/background.js:94-143 | the text is "AI Failed" iff the call fails, and then the result is the fixed failure object; otherwise it holds the three scanned scores, the percentage text and the score breakdown tooltip; never a `political_leaning` |
| `Classifier.GetAiAnalysis` | scripts/background.js:94-144 | `getAIAnalysis` returns what `AnalysisOf` describes |
| `Catalogs.LoadAsWritten` | scripts/background.js:18-33 | both catalogs replaced after two good downloads of two objects; a `null` video document replaces only the channel catalog; every other failure keeps both |
| `Catalogs.LoadAtomic` | scripts/background.js:18-33 | the intended load: both replaced after a complete load, both kept otherwise |
| `Catalogs.LoadAtomicIsAllOrNothing` | scripts/background.js:18-33 | the intended load replaces both catalogs or neither, on every input |
| `Catalogs.LoadAsWrittenAgreesElsewhere` | scripts/background.js:18-33 | the load as written equals the intended one on every input except a `null` video document |
| `Catalogs.NullVideoDocumentSplitsLoad` | scripts/background.js:24-27 | a `null` video document after a new channel document leaves new channels with old videos, which is not all-or-nothing |
| `Catalogs.TruthyEntry` | scripts/background.js:155-170 | a catalog lookup used as a condition (tier 1 by id, tier 3 by channel) hits iff the key has a truthy entry, and then yields that entry |
| `Catalogs.FirstChar` | scripts/background.js:172 | `charAt(0)` is the first character, or empty for the empty string |
| `Catalogs.ShortLabel` | scripts/background.js:172 | the short text is the leaning's initial, then the separator, then the factuality's initial |
| `Catalogs.ChannelSummary` | scripts/background.js:170-175 | defined iff both fields are strings; carries the short text, a tooltip with both full values, the leaning, and no scores |
| `Cascade.Resolve` | scripts/background.js:148-187 | no response iff the handler throws; tier 1 answers iff the id is in the video catalog; only tier 4 writes the cache, and it writes the classifier's result under the id |
| `Cascade.VideoCatalogWins` | scripts/background.js:155-159 | a catalogued video gets exactly its entry; the cache is unwritten; cache, channel catalog and classifier cannot change the answer |
| `Cascade.FreshCacheWins` | scripts/background.js:162-166 | after a tier-1 miss, a fresh record is returned unchanged; the cache is unwritten; channel catalog and classifier cannot change the answer |
| `Cascade.ChannelCatalogAnswersUncached` | scripts/background.js:169-178 | after tier-1 and tier-2 misses, a channel entry answers with its summary; the video is still absent from the cache; the classifier cannot change the answer |
| `Cascade.ClassifierResultIsCached` | scripts/background.js:181-183 | when all catalog and cache tiers miss, the classifier's result (the failure object included) is saved under the id and is fresh at its save |
| `Cascade.RepeatRequestHitsCache` | scripts/background.js:161-183 | a repeat request within seven days of the save is answered from the cache with the same value, and writes nothing |
| `Cascade.ResolveAbortsIff` | scripts/background.js:155-178 | the handler throws iff the video catalog is `null`/`undefined`, or tiers 1 and 2 miss and the channel catalog is `null`/`undefined` or the channel's entry lacks a string leaning or factuality |
| `Cascade.ResolveKeepsKeyedById` | scripts/background.js:181-183 | every outcome of a request keeps each cache record under its own video id |
| `Cascade.ServiceWorker.constructor` | scripts/background.js:14-15 | both catalogs start as `{}` and the store is empty |
| `Cascade.ServiceWorker.FetchDatabases` | scripts/background.js:18-33 | `fetchDatabases` updates the catalogs as `LoadAsWritten` describes |
| `Cascade.ServiceWorker.AnalyzeVideo` | scripts/background.js:148-187 | the handler sends what `Resolve` describes and leaves the store as `Resolve` describes |
| `Content.FindMarker` | scripts/content.js:90-91 | the first occurrence of `v=` at or after a position, or none |
| `Content.SecondPiece` | scripts/content.js:91-93 | `split('v=')[1]`: the text after the first `v=`, with no `v=` inside, ending at the next `v=` or the end |
| `Content.ExtractVideoId` | scripts/content.js:88-95 | no id iff the href is absent or has no `v=`; an id never contains `&` and is shorter than the href by at least the marker |
| `Content.ExtractVideoIdSpec` | scripts/content.js:87-95 | no id iff the href is absent or has no `v=`; otherwise the id sits right after the first `v=`, contains neither `&` nor `v=`, and is followed by `&`, by `v=`, or by the end |
| `Content.GetVideoData` | scripts/content.js:75-108 | a record iff both links exist, the id is non-empty, and the trimmed channel and title are non-empty; it carries that id and the trimmed texts |
| `Content.GetVideoDataWellFormed` | scripts/content.js:88-107 | a returned id is non-empty and free of `&` and `v=`; channel and title are non-empty and already trimmed |
| `Content.IndicatorColor` | scripts/content.js:66-72 | Left gives blue, Right red, Non-Political green; grey iff the leaning is none of these, `undefined` included |
| `Content.CreateInitialIndicator` | scripts/content.js:6-40 | an element with an indicator is unchanged; otherwise it gets the initial indicator iff it has a title link |
| `Content.CreateInitialIndicatorIdempotent` | scripts/content.js:8-10 | creating the indicator twice is the same as creating it once |
| `Content.UpdateIndicator` | scripts/content.js:43-63 | the indicator shows the analysis text and tooltip on its leaning's colour; an existing indicator keeps its click listener, a fallback one created here has none; an element with no indicator and no title link is unchanged |
| `Content.ApplyResult` | scripts/content.js:161-164 | an element is painted iff its extracted id equals the result's id; otherwise it is untouched |
| `Content.ApplyResultIdempotent` | scripts/content.js:159-165 | painting keeps the element's record, and painting again with the same analysis changes nothing more |
| `Content.Click` | scripts/content.js:17-28 | an indicator without the listener ignores the click; with it, a click sends the element's record when there is one, turning the indicator into an hourglass; otherwise nothing happens |
| `Content.PaintedIndicatorListensIffInitial` | scripts/content.js:17-57 | a painted initial indicator still sends the record on a click; a fallback indicator from painting never sends anything |
| `Content.VideoPage.ProcessVideos` | scripts/content.js:111-119 | every element gets `createInitialIndicator`, in place |
| `Content.VideoPage.OnAnalysisResult` | scripts/content.js:156-167 | exactly the elements whose id matches are painted; every other element is untouched |
| `Content.VideoPage.ClickIndicator` | scripts/content.js:17-28 | a click on element k sends its record when its indicator has the listener, changes nothing when it has none, and updates only that element |
| `ContentScript.FindMatch` | scripts/content_script.js:46 | the leftmost position where `v=` is followed by a character other than `&`, or none |
| `ContentScript.MatchVideoId` | scripts/content_script.js:46 | none iff no `v=` is followed by a non-`&` character; otherwise a non-empty id without `&` that follows the leftmost such `v=` and runs to the next `&` or the end |
| `ContentScript.RequestFor` | scripts/content_script.js:41-52 | a card is sent iff it has a channel-name link with non-blank text and the regular expression yields an id |
| `ContentScript.Sent` | scripts/content_script.js:40-59 | no more requests than cards, each of them one of the cards' candidate requests |
| `ContentScript.SentSound` | scripts/content_script.js:39-60 | every request sent is the request of the card it names |
| `ContentScript.SentComplete` | scripts/content_script.js:39-60 | every card that qualifies has its request sent |
| `ContentScript.SentOrdered` | scripts/content_script.js:39-60 | requests go out in card order, at most one per card |
| `ContentScript.PageRequests` | scripts/content_script.js:38-61 | a page sends exactly the qualifying cards' requests; each id is non-empty without `&`, each channel non-empty and trimmed |
| `ContentScript.WithLabel` | scripts/content_script.js:16-35 | no change without a title element or with a label already present; otherwise the label is attached iff the title has a parent |
| `ContentScript.InjectionKeepsFirstLabel` | scripts/content_script.js:19-21 | injection is idempotent per card: the first label stays whatever a later answer says |
| `ContentScript.ScriptPage.ProcessPage` | scripts/content_script.js:38-61 | `processPage` returns exactly the requests `Sent` describes |
| `ContentScript.ScriptPage.OnResponse` | scripts/content_script.js:54-58 | a response carrying an analysis injects a label into that card only |

## Findings

| source | as written | input that shows it | evidently intended | confidence | as-written member | corrected member |
|---|---|---|---|---|---|---|
| scripts/background.js:26-27 | `channelDatabase` is assigned before `videoData.videos` is read, and that read throws when the document is `null` | the video catalog's body is the JSON text `null` and the channel catalog's body is an object | both catalogs replaced or neither, as in the single `try` around both assignments | medium, not executed | `Catalogs.NullVideoDocumentSplitsLoad` | `Catalogs.LoadAtomicIsAllOrNothing` |

`Cascade.ServiceWorker.FetchDatabases` follows the code as written. `Catalogs.LoadAtomic`
is the corrected definition; nothing else in the model depends on the load.

## Left out

- DOM work is not modelled: `querySelector`, `createElement`, `after`, `appendChild`, style assignment and the `MutationObserver` of `scripts/content.js`. Elements are values holding the parts the scripts read (href, texts, whether a title has a parent) and the indicator or label they carry. A page is a sequence of such values, so aliasing between DOM nodes is not captured.
- Chrome messaging (`sendMessage`, `onMessage`, `sendResponse`, `return true`) is left out. The handler is a method that returns its response, and `processPage` returns the requests it sends.
- The IndexedDB open, transaction and promise machinery is left out, including its error paths and a `db` that is not yet open. The store is a map field that is read and written synchronously.
- `fetch`, the inference endpoint, the token import and the URLs are left out. Their results are parameters: `AiReply`, and one `Download` per catalog.
- Floating-point rendering is left out: `toFixed`, the percentage texts, and the colour gradient built from the politicalness score. Scores are copied values. Rendered texts are kept as the scores they are rendered from (`PercentLabel`, `ScoreBreakdown`, `Label`).
- JavaScript object lookups that reach the prototype chain are not modelled; for example, `videoDatabase["constructor"]` is truthy. Catalogs are plain maps.
- A non-null `labels` or `scores` that is not an array is modelled as an empty array. This is what the loop does with a number, a boolean, or an object without `length` (for `labels`) or without index keys (for `scores`). Two cases are not modelled. A `scores` object with index keys is read at those keys: `{"0": 0.5}` gives 0.5 at index 0, where the model gives `undefined`. A string `labels` or `scores` is read character by character. Neither are elements of `labels` that are not strings or elements of `scores` that are not numbers. A catalog section that is a number or boolean reads as an empty catalog; a string or array section is not modelled. JSON values are reduced to the cases the code distinguishes: truthy or falsy entries, string or non-string channel fields, `null` or non-null documents.
- `charAt(0)` takes one Unicode code point here. JavaScript takes one UTF-16 code unit, so a leaning that starts with an astral character differs.
- A click on an indicator without the listener is ignored by the model. In the page the click bubbles through the ancestors of the title link (the span is the link's sibling); what page handlers do with it is not modelled. An indicator that `createInitialIndicator` builds on an element without a title link is never inserted, so the model gives that element no indicator.
- Dafny has no `undefined` value, so the DOM's coercion of `undefined` when it is assigned to `textContent` or `title` is not modelled. The indicator keeps the missing value as `None`.
- `api/analyze.js` is not part of this model: it is a server-side proxy.
- Interleavings of the asynchronous handler are not modelled. Each call to `Resolve` is one complete run of the handler against one snapshot of both catalogs. Two cases are lost. Concurrent requests for the same id are one. The other: the handler reads `videoDatabase` at tier 1, before it awaits the cache read, and `channelDatabase` at tier 3, after it. A `fetchDatabases` that completes in between makes that request answer from the old video catalog and the new channel catalog.
