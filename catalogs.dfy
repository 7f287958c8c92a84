/**
 * The two static catalogs of the background service worker, `channelDatabase`
 * and `videoDatabase`: how one load replaces them, how they are looked up, and
 * the short label synthesised from a channel entry.
 */
module Catalogs {
  import opened Wrappers
  import opened Model

  /**
   * A channel entry. A field that is not a string (absent, a number, ...) is `None`;
   * calling `charAt` on it throws.
   */
  datatype ChannelInfo = ChannelInfo(politicalLeaning: Option<string>, factuality: Option<string>)

  /** `channelData.channels`: channel name to entry; `None` stands for a falsy JSON value (`null`, `false`, `0`, `""`). */
  type ChannelCatalog = map<string, Option<ChannelInfo>>

  /** `videoData.videos`: video id to analysis; `None` stands for a falsy JSON value. */
  type VideoCatalog = map<string, Option<Analysis>>

  /**
   * A parsed JSON document. `NullDocument` is the JSON text `null`, on which property
   * access throws; `Object(section)` is any other value, `section` being its
   * `channels` (or `videos`) property. `section` is `None` when that property is
   * `null` or `undefined`, on which a later lookup throws; a number or boolean there
   * has no own keys and reads as an empty map.
   */
  datatype Document<T> = NullDocument | Object(section: Option<T>)

  /** The outcome of `await fetch(url)` then `await res.json()`: rejected at either step, or a document. */
  datatype Download<T> = Unavailable | Downloaded(doc: Document<T>)

  /** The two module-level catalogs; `None` is a catalog that was loaded as `null` or `undefined`. */
  datatype CatalogPair = CatalogPair(channels: Option<ChannelCatalog>, videos: Option<VideoCatalog>)

  /** Both catalogs start as `{}`. */
  const Initial: CatalogPair := CatalogPair(Some(map[]), Some(map[]))

  /** Both downloads succeeded and both documents have properties to read. */
  predicate Loaded(channelDownload: Download<ChannelCatalog>, videoDownload: Download<VideoCatalog>) {
    && channelDownload.Downloaded? && channelDownload.doc.Object?
    && videoDownload.Downloaded? && videoDownload.doc.Object?
  }

  /** The one input on which the two assignments come apart: the channel document is an object, the video document is `null`. */
  predicate NullVideoDocument(channelDownload: Download<ChannelCatalog>, videoDownload: Download<VideoCatalog>) {
    && channelDownload.Downloaded? && channelDownload.doc.Object?
    && videoDownload.Downloaded? && videoDownload.doc.NullDocument?
  }

  /** The pair a complete load installs. */
  function Fresh(channelDownload: Download<ChannelCatalog>, videoDownload: Download<VideoCatalog>): CatalogPair
    requires Loaded(channelDownload, videoDownload)
  {
    CatalogPair(channelDownload.doc.section, videoDownload.doc.section)
  }

  /**
   * `fetchDatabases` as written. Every failure of a fetch or a parse is caught before
   * either assignment, so it leaves both catalogs as they were. But the two
   * assignments are not one step: when the video document is `null`, the channel
   * catalog has already been replaced when reading `videoData.videos` throws.
   */
  function LoadAsWritten(prev: CatalogPair, channelDownload: Download<ChannelCatalog>, videoDownload: Download<VideoCatalog>): (next: CatalogPair)
    ensures Loaded(channelDownload, videoDownload) ==> next == Fresh(channelDownload, videoDownload)
    ensures NullVideoDocument(channelDownload, videoDownload) ==>
              next.channels == channelDownload.doc.section && next.videos == prev.videos
    ensures !Loaded(channelDownload, videoDownload) && !NullVideoDocument(channelDownload, videoDownload) ==> next == prev
  {
    if channelDownload.Unavailable? || videoDownload.Unavailable? then prev
    else if channelDownload.doc.NullDocument? then prev
    else
      var afterChannels := prev.(channels := channelDownload.doc.section);
      if videoDownload.doc.NullDocument? then afterChannels
      else afterChannels.(videos := videoDownload.doc.section)
  }

  /** What the load is evidently meant to do: install both catalogs, or keep both. */
  function LoadAtomic(prev: CatalogPair, channelDownload: Download<ChannelCatalog>, videoDownload: Download<VideoCatalog>): (next: CatalogPair)
    ensures Loaded(channelDownload, videoDownload) ==> next == Fresh(channelDownload, videoDownload)
    ensures !Loaded(channelDownload, videoDownload) ==> next == prev
  {
    if Loaded(channelDownload, videoDownload) then Fresh(channelDownload, videoDownload) else prev
  }

  /** Whether going from `prev` to `next` replaced both catalogs from the downloads or neither. */
  predicate AllOrNothing(prev: CatalogPair, next: CatalogPair, channelDownload: Download<ChannelCatalog>, videoDownload: Download<VideoCatalog>) {
    next == prev || (Loaded(channelDownload, videoDownload) && next == Fresh(channelDownload, videoDownload))
  }

  /** The atomic load is all-or-nothing on every input. */
  lemma LoadAtomicIsAllOrNothing(prev: CatalogPair, channelDownload: Download<ChannelCatalog>, videoDownload: Download<VideoCatalog>)
    ensures AllOrNothing(prev, LoadAtomic(prev, channelDownload, videoDownload), channelDownload, videoDownload)
  {
  }

  /** The load as written agrees with the atomic one on every input except a `null` video document. */
  lemma LoadAsWrittenAgreesElsewhere(prev: CatalogPair, channelDownload: Download<ChannelCatalog>, videoDownload: Download<VideoCatalog>)
    requires !NullVideoDocument(channelDownload, videoDownload)
    ensures LoadAsWritten(prev, channelDownload, videoDownload) == LoadAtomic(prev, channelDownload, videoDownload)
  {
  }

  /**
   * The counterexample: a video document that parses to `null` after a channel document
   * bringing a new channel catalog yields a mix of new channels and old videos.
   */
  lemma NullVideoDocumentSplitsLoad(prev: CatalogPair, channels: Option<ChannelCatalog>)
    requires channels != prev.channels
    ensures var channelDownload, videoDownload := Downloaded(Object(channels)), Downloaded(NullDocument);
            var next := LoadAsWritten(prev, channelDownload, videoDownload);
            && next.channels == channels && next.videos == prev.videos
            && !AllOrNothing(prev, next, channelDownload, videoDownload)
  {
  }

  /**
   * `catalog[key]` taken as a condition, as both tier 1 (`videoDatabase[id]`) and
   * tier 3 (`channelDatabase[channel]`) do: the entry, when there is one and it is truthy.
   */
  function TruthyEntry<K, V>(catalog: map<K, Option<V>>, key: K): (r: Option<V>)
    ensures r.Some? <==> key in catalog && catalog[key].Some?
    ensures r.Some? ==> r == catalog[key]
  {
    if key in catalog then catalog[key] else None
  }

  /** `s.charAt(0)`: the first character, or the empty string. */
  function FirstChar(s: string): (r: string)
    ensures |r| == if s == [] then 0 else 1
    ensures s != [] ==> r[0] == s[0]
  {
    if s == [] then [] else s[..1]
  }

  /** The separator between the two initials, exactly as the source file's bytes give it: space, U+00C2, U+00B7, space. */
  const Separator: string := " \U{C2}\U{B7} "

  /**
   * The short text of a channel-level analysis: the first character of the leaning,
   * the separator, the first character of the factuality.
   */
  function ShortLabel(leaning: string, factuality: string): (r: string)
    ensures |r| == |FirstChar(leaning)| + |Separator| + |FirstChar(factuality)|
    ensures leaning != [] ==> r[0] == leaning[0]
    ensures factuality != [] ==> r[|r| - 1] == factuality[0]
    ensures r[|FirstChar(leaning)|..|FirstChar(leaning)| + |Separator|] == Separator
  {
    FirstChar(leaning) + Separator + FirstChar(factuality)
  }

  /**
   * The analysis built from a channel entry. `None` when either field is not a string,
   * where `charAt` throws; otherwise it carries the short label, a tooltip naming both
   * values in full, the leaning itself, and no scores.
   */
  function ChannelSummary(info: ChannelInfo): (r: Option<Analysis>)
    ensures r.Some? <==> info.politicalLeaning.Some? && info.factuality.Some?
    ensures r.Some? ==> r.value.politicalLeaning == info.politicalLeaning
    ensures r.Some? ==> r.value.text == Some(Plain(ShortLabel(info.politicalLeaning.value, info.factuality.value)))
    ensures r.Some? ==> r.value.tooltip == Some(Plain("Political Leaning: " + info.politicalLeaning.value
                                                      + ", Factuality: " + info.factuality.value))
    ensures r.Some? ==> r.value.factuality.None? && r.value.politicalness.None? && r.value.editorialBias.None?
  {
    match (info.politicalLeaning, info.factuality)
    case (Some(leaning), Some(factuality)) =>
      Some(Analysis(None, None, None,
                    Some(Plain(ShortLabel(leaning, factuality))),
                    Some(Plain("Political Leaning: " + leaning + ", Factuality: " + factuality)),
                    Some(leaning)))
    case _ => None
  }
}
