/**
 * The backend's index builder: the news feed arrives from the frontend, so
 * the build starts at parsing; it writes an undated index to `data/`.
 */
module IndexBuilder {
  import opened Pipeline
  import opened Ingest

  const ChunksFile := "data/chunks.pkl"
  const FaissFile := "data/faiss_store.pkl"
  const NoFeedError := "No feed provided"

  /** `f"Index built for {ticker}" if ticker else "Index built"`: `None` and `""` are both falsy. */
  function BuiltMessage(ticker: Option<string>): string
  {
    if ticker.Some? && ticker.value != "" then "Index built for " + ticker.value else "Index built"
  }

  /** The steps `build_stock_index_from_feed` takes: one article load, then the chunk file and the index file. */
  function BuildPlan(svc: Services, feed: seq<NewsItem>, ticker: Option<string>): (o: Outcome)
    // an empty feed is refused before anything is parsed or written
    ensures feed == [] <==> o == Outcome(Error(NoFeedError), [])
    // otherwise the one outward call before any write is the article load
    ensures feed != [] ==> |o.effects| >= 1 && o.effects[0] == ArticleLoad(Urls(feed))
    // a parse error dict is returned unchanged; no text after splitting is its own error
    ensures feed != [] && svc.load(Urls(feed)).Raised? ==>
      o == Outcome(Error(ParseFailurePrefix + svc.load(Urls(feed)).reason), [ArticleLoad(Urls(feed))])
    ensures feed != [] && svc.load(Urls(feed)).Loaded? && ToChunks(svc.split(svc.load(Urls(feed)).docs)) == [] ==>
      o == Outcome(Error(NoTextError), [ArticleLoad(Urls(feed))])
    // nothing is written unless the build succeeds
    ensures !o.reply.Built? ==> WritesNothing(o.effects)
    // a success writes chunks.pkl, then faiss_store.pkl aligned with it, and reports the count
    ensures o.reply.Built? ==>
      && ChunksThenIndex(o.effects, ChunksFile, FaissFile, o.reply.numVectors)
      && WritesNothing(o.effects[..|o.effects| - 2])
      && o.reply.numVectors > 0
      && o.reply.companyOverview.None?
      && (ticker.Some? && ticker.value != "" ==> o.reply.message == "Index built for " + ticker.value)
      && (ticker.None? || ticker.value == "" ==> o.reply.message == "Index built")
    // the build succeeds exactly when the feed is non-empty, the load succeeds and splitting gives text
    ensures o.reply.Built? <==> feed != [] && FeedChunks(svc, feed).Some? && FeedChunks(svc, feed).value != []
    // and then it writes exactly the split output, and the index built from it
    ensures o.reply.Built? ==>
      var chunks := FeedChunks(svc, feed).value;
      o == Outcome(
        Built(BuiltMessage(ticker), |chunks|, None),
        [ArticleLoad(Urls(feed)),
         FileWrite(ChunksFile, ChunkFile(chunks)),
         FileWrite(FaissFile, IndexFile(BuildIndex(chunks)))])
  {
    if feed == [] then Outcome(Error(NoFeedError), [])
    else
      var tail := IndexFeed(svc, feed, ChunksFile, FaissFile, false);
      match tail.result
      case Err(e) => Outcome(Error(e), tail.effects)
      case Ok(chunks) => Outcome(Built(BuiltMessage(ticker), |chunks|, None), tail.effects)
  }

  /** `build_stock_index_from_feed`, performing its load and writes on the host one at a time. */
  method BuildStockIndexFromFeed(host: Host, svc: Services, feed: seq<NewsItem>, ticker: Option<string>) returns (r: Reply)
    modifies host
    ensures var o := BuildPlan(svc, feed, ticker);
      && r == o.reply
      && host.trace == old(host.trace) + o.effects
      && host.files == AfterEffects(old(host.files), o.effects)
  {
    if feed == [] {
      return Error(NoFeedError);
    }
    var result := IndexFeedOn(host, svc, feed, ChunksFile, FaissFile, false);
    match result
    case Err(e) =>
      return Error(e);
    case Ok(chunks) =>
      var msg := BuiltMessage(ticker);
      return Built(msg, |chunks|, None);
  }

  /** After a successful build, `chunks.pkl` holds the chunk list and `faiss_store.pkl` an index aligned with it. */
  lemma BuildPersistsAlignedPair(svc: Services, files: map<string, Artifact>, feed: seq<NewsItem>, ticker: Option<string>)
    requires BuildPlan(svc, feed, ticker).reply.Built?
    ensures var o := BuildPlan(svc, feed, ticker);
      var after := AfterEffects(files, o.effects);
      && ChunksFile in after && FaissFile in after
      && after[ChunksFile].ChunkFile?
      && |after[ChunksFile].chunks| == o.reply.numVectors
      && IndexMatches(after[FaissFile], after[ChunksFile].chunks)
  {
    var o := BuildPlan(svc, feed, ticker);
    PersistedPair(files, o.effects, ChunksFile, FaissFile, o.reply.numVectors);
  }
}
