/**
 * The `analyze_video` handler of the background service worker: the four-tier
 * resolution of a video — video catalog, cache, channel catalog, classifier —
 * and the module-level state it runs against.
 */
module Cascade {
  import opened Wrappers
  import opened Model
  import opened Cache
  import opened Catalogs
  import opened Classifier

  /** Which tier answered; `Aborted` when the handler threw and no response was sent. */
  datatype Tier = VideoCatalogTier | CacheTier | ChannelCatalogTier | ClassifierTier | Aborted

  /** The tier that answered, the response sent (if any) and the cache afterwards. */
  datatype Outcome = Outcome(tier: Tier, response: Option<Analysis>, entries: Entries)

  /**
   * One `analyze_video` request. `now` is the clock at the cache read; `reply` is what
   * the classifier call produced and `savedAt` the clock at the save that follows it
   * (both used only when the request reaches the last tier). Reading a `null` or
   * `undefined` catalog, or taking `charAt` of a channel field that is not a string, throws inside
   * the handler, and then nothing is sent and nothing is written.
   */
  function Resolve(catalogs: CatalogPair, entries: Entries, request: VideoData, now: int,
                   reply: AiReply, savedAt: int): (o: Outcome)
    ensures o.response.None? <==> o.tier == Aborted
    ensures o.tier == VideoCatalogTier <==> catalogs.videos.Some? && TruthyEntry(catalogs.videos.value, request.id).Some?
    ensures o.tier == ClassifierTier ==> o.response == Some(AnalysisOf(reply))
    ensures o.tier == ClassifierTier ==> o.entries == Put(entries, request.id, AnalysisOf(reply), savedAt)
    ensures o.tier != ClassifierTier ==> o.entries == entries
  {
    if catalogs.videos.None? then Outcome(Aborted, None, entries)
    else match TruthyEntry(catalogs.videos.value, request.id)
    case Some(analysis) => Outcome(VideoCatalogTier, Some(analysis), entries)
    case None =>
      match Lookup(entries, request.id, now)
      case Some(cached) => Outcome(CacheTier, Some(cached), entries)
      case None =>
        if catalogs.channels.None? then Outcome(Aborted, None, entries)
        else match TruthyEntry(catalogs.channels.value, request.channel)
        case Some(info) =>
          (match ChannelSummary(info)
           case Some(analysis) => Outcome(ChannelCatalogTier, Some(analysis), entries)
           case None => Outcome(Aborted, None, entries))
        case None =>
          var analysis := AnalysisOf(reply);
          Outcome(ClassifierTier, Some(analysis), Put(entries, request.id, analysis, savedAt))
  }

  /**
   * Tier 1: a video in the video catalog gets exactly its entry, the cache is not
   * written, and neither the cache, the channel catalog nor the classifier can alter
   * the answer.
   */
  lemma VideoCatalogWins(catalogs: CatalogPair, entries: Entries, request: VideoData, now: int, reply: AiReply, savedAt: int,
                         channels': Option<ChannelCatalog>, entries': Entries, now': int, reply': AiReply, savedAt': int)
    requires catalogs.videos.Some? && TruthyEntry(catalogs.videos.value, request.id).Some?
    ensures var o := Resolve(catalogs, entries, request, now, reply, savedAt);
            && o.tier == VideoCatalogTier
            && o.response == catalogs.videos.value[request.id]
            && o.entries == entries
            && Resolve(catalogs.(channels := channels'), entries', request, now', reply', savedAt').response == o.response
  {
  }

  /**
   * Tier 2: after a tier-1 miss a fresh cache record is returned unchanged, the cache
   * is not written, and the channel catalog and the classifier cannot alter the answer.
   */
  lemma FreshCacheWins(catalogs: CatalogPair, entries: Entries, request: VideoData, now: int, reply: AiReply, savedAt: int,
                       channels': Option<ChannelCatalog>, reply': AiReply, savedAt': int)
    requires catalogs.videos.Some? && TruthyEntry(catalogs.videos.value, request.id).None?
    requires request.id in entries && now - entries[request.id].timestamp < WeekMillis
    ensures var o := Resolve(catalogs, entries, request, now, reply, savedAt);
            && o.tier == CacheTier
            && o.response == Some(entries[request.id].data)
            && o.entries == entries
            && Resolve(catalogs.(channels := channels'), entries, request, now, reply', savedAt').response == o.response
  {
  }

  /**
   * Tier 3: after misses in tiers 1 and 2, a channel entry with string fields answers
   * with its synthesised analysis; the cache is not written (so the video is still
   * absent from it afterwards) and the classifier cannot alter the answer.
   */
  lemma ChannelCatalogAnswersUncached(catalogs: CatalogPair, entries: Entries, request: VideoData, now: int, reply: AiReply, savedAt: int,
                                      reply': AiReply, savedAt': int)
    requires catalogs.videos.Some? && TruthyEntry(catalogs.videos.value, request.id).None?
    requires Lookup(entries, request.id, now).None?
    requires catalogs.channels.Some? && TruthyEntry(catalogs.channels.value, request.channel).Some?
    requires var info := catalogs.channels.value[request.channel].value;
             info.politicalLeaning.Some? && info.factuality.Some?
    ensures var o := Resolve(catalogs, entries, request, now, reply, savedAt);
            var info := catalogs.channels.value[request.channel].value;
            && o.tier == ChannelCatalogTier
            && o.response == ChannelSummary(info)
            && o.response.value.text == Some(Plain(ShortLabel(info.politicalLeaning.value, info.factuality.value)))
            && o.response.value.politicalLeaning == info.politicalLeaning
            && o.entries == entries
            && Lookup(o.entries, request.id, now).None?
            && Resolve(catalogs, entries, request, now, reply', savedAt').response == o.response
  {
  }

  /**
   * Tier 4: when every other tier misses, the classifier's result is saved under the
   * id before it is returned, with no success check, so the "AI Failed" object is
   * cached too; the record is fresh as of its own save.
   */
  lemma ClassifierResultIsCached(catalogs: CatalogPair, entries: Entries, request: VideoData, now: int, reply: AiReply, savedAt: int)
    requires catalogs.videos.Some? && TruthyEntry(catalogs.videos.value, request.id).None?
    requires Lookup(entries, request.id, now).None?
    requires catalogs.channels.Some? && TruthyEntry(catalogs.channels.value, request.channel).None?
    ensures var o := Resolve(catalogs, entries, request, now, reply, savedAt);
            && o.tier == ClassifierTier
            && o.response == Some(AnalysisOf(reply))
            && o.entries == Put(entries, request.id, AnalysisOf(reply), savedAt)
            && Lookup(o.entries, request.id, savedAt) == o.response
            && (Fails(reply) ==> o.entries[request.id].data == AiFailed)
  {
  }

  /**
   * A second request for a video the classifier just answered, within seven days of
   * the save and with the video catalog unchanged, is answered from the cache with the
   * same value, whatever the second classifier reply would have been.
   */
  lemma RepeatRequestHitsCache(catalogs: CatalogPair, entries: Entries, request: VideoData, now: int,
                                                  reply: AiReply, savedAt: int,
                                                  channels': Option<ChannelCatalog>, now': int, reply': AiReply, savedAt': int)
    requires Resolve(catalogs, entries, request, now, reply, savedAt).tier == ClassifierTier
    requires now' - savedAt < WeekMillis
    ensures var first := Resolve(catalogs, entries, request, now, reply, savedAt);
            var second := Resolve(catalogs.(channels := channels'), first.entries, request, now', reply', savedAt');
            && second.tier == CacheTier
            && second.response == first.response
            && second.entries == first.entries
  {
  }

  /**
   * When the handler throws: the video catalog is `null` or `undefined`, or tiers 1
   * and 2 miss and then either the channel catalog is `null` or `undefined` or the
   * channel's entry lacks a string leaning or factuality.
   */
  lemma ResolveAbortsIff(catalogs: CatalogPair, entries: Entries, request: VideoData, now: int, reply: AiReply, savedAt: int)
    ensures Resolve(catalogs, entries, request, now, reply, savedAt).tier == Aborted <==>
            || catalogs.videos.None?
            || (&& TruthyEntry(catalogs.videos.value, request.id).None?
                && Lookup(entries, request.id, now).None?
                && (|| catalogs.channels.None?
                    || (&& TruthyEntry(catalogs.channels.value, request.channel).Some?
                        && var info := catalogs.channels.value[request.channel].value;
                           info.politicalLeaning.None? || info.factuality.None?)))
  {
  }

  /** Every outcome keeps each cache record under its own video id. */
  lemma ResolveKeepsKeyedById(catalogs: CatalogPair, entries: Entries, request: VideoData, now: int, reply: AiReply, savedAt: int)
    requires KeyedById(entries)
    ensures KeyedById(Resolve(catalogs, entries, request, now, reply, savedAt).entries)
  {
    var o := Resolve(catalogs, entries, request, now, reply, savedAt);
    if o.tier == ClassifierTier {
      PutKeepsKeyedById(entries, request.id, AnalysisOf(reply), savedAt);
    }
  }

  /** The background service worker: its two catalogs and its object store. */
  class ServiceWorker {
    var channelDatabase: Option<ChannelCatalog>
    var videoDatabase: Option<VideoCatalog>
    const store: AnalysisStore

    ghost function CatalogState(): CatalogPair
      reads this
    {
      CatalogPair(channelDatabase, videoDatabase)
    }

    ghost predicate Valid()
      reads this, store
    {
      store.Valid()
    }

    /** Start-up: both catalogs `{}`, the store empty. */
    constructor ()
      ensures Valid() && fresh(store)
      ensures CatalogState() == Initial && store.entries == map[]
    {
      channelDatabase := Some(map[]);
      videoDatabase := Some(map[]);
      store := new AnalysisStore();
    }

    /** `fetchDatabases()`, given what the two downloads produced. */
    method FetchDatabases(channelDownload: Download<ChannelCatalog>, videoDownload: Download<VideoCatalog>)
      modifies this
      ensures CatalogState() == LoadAsWritten(old(CatalogState()), channelDownload, videoDownload)
    {
      if channelDownload.Unavailable? || videoDownload.Unavailable? {
        return;
      }
      var channelData, videoData := channelDownload.doc, videoDownload.doc;
      if channelData.NullDocument? {
        return;
      }
      channelDatabase := channelData.section;
      if videoData.NullDocument? {
        return;
      }
      videoDatabase := videoData.section;
    }

    /**
     * The `analyze_video` handler for `request`, answering what `Resolve` describes and
     * leaving the store as `Resolve` describes.
     */
    method AnalyzeVideo(request: VideoData, now: int, reply: AiReply, savedAt: int) returns (response: Option<Analysis>)
      requires Valid()
      modifies store
      ensures Valid()
      ensures response == Resolve(CatalogState(), old(store.entries), request, now, reply, savedAt).response
      ensures store.entries == Resolve(CatalogState(), old(store.entries), request, now, reply, savedAt).entries
    {
      if videoDatabase.None? {
        return None;
      }
      var hit := TruthyEntry(videoDatabase.value, request.id);
      if hit.Some? {
        return hit;
      }
      var cachedAnalysis := store.Get(request.id, now);
      if cachedAnalysis.Some? {
        return cachedAnalysis;
      }
      if channelDatabase.None? {
        return None;
      }
      var info := TruthyEntry(channelDatabase.value, request.channel);
      if info.Some? {
        return ChannelSummary(info.value);
      }
      var aiAnalysis := GetAiAnalysis(reply);
      store.Save(request.id, aiAnalysis, savedAt);
      return Some(aiAnalysis);
    }
  }
}
