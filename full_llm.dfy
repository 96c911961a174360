/**
 * The command-line copy of the pipeline: it fetches the company overview
 * first, then builds an undated index in `data/`, and a query first checks
 * that both files exist.
 */
module FullLlm {
  import opened PyStr
  import opened Pipeline
  import opened Ingest

  const ChunksFile := "data/chunks.pkl"
  const FaissFile := "data/faiss_store.pkl"
  const TopK: nat := 3
  const MissingIndexError := "FAISS index or processed chunks not found. Please build index first."

  /**
   * The steps `build_stock_index` takes: overview request, news request for
   * the upper-cased ticker, article load, then the chunk file and the
   * (index, chunks) file.
   */
  function BuildPlan(svc: Services, ticker: string): (o: Outcome)
    // the overview, then the news, are requested first, whatever happens next
    ensures |o.effects| >= 2 && o.effects[..2] == [OverviewRequest(ticker), NewsRequest(Upper(ticker))]
    // a news error stops the build before parsing and is returned unchanged
    ensures svc.news(Upper(ticker)).Err? ==>
      o == Outcome(Error(svc.news(Upper(ticker)).error), [OverviewRequest(ticker), NewsRequest(Upper(ticker))])
    // a parse error stops it before splitting; no text after splitting stops it before writing
    ensures svc.news(Upper(ticker)).Ok? ==>
      var urls := Urls(svc.news(Upper(ticker)).value);
      |o.effects| >= 3 && o.effects[2] == ArticleLoad(urls) &&
      (svc.load(urls).Raised? ==> o == Outcome(Error(ParseFailurePrefix + svc.load(urls).reason), o.effects[..3])) &&
      (svc.load(urls).Loaded? && ToChunks(svc.split(svc.load(urls).docs)) == [] ==>
         o == Outcome(Error(NoTextError), o.effects[..3]))
    // nothing is written unless the build succeeds
    ensures !o.reply.Built? ==> WritesNothing(o.effects)
    // a success writes the chunks, then the index with the same chunks, and reports the count and the overview
    ensures o.reply.Built? ==>
      && ChunksThenIndex(o.effects, ChunksFile, FaissFile, o.reply.numVectors)
      && WritesNothing(o.effects[..|o.effects| - 2])
      && o.reply.numVectors > 0
      && o.reply.message == "Index built for " + ticker
      && o.reply.companyOverview == Some(FormatOverview(svc.overview(ticker)))
    // the build succeeds exactly when the news and the load succeed and splitting gives text
    ensures o.reply.Built? <==>
      var t := Upper(ticker);
      svc.news(t).Ok? && FeedChunks(svc, svc.news(t).value).Some? && FeedChunks(svc, svc.news(t).value).value != []
    // and then it writes exactly the split output, and the index built from it paired with that output
    ensures o.reply.Built? ==>
      var feed := svc.news(Upper(ticker)).value;
      var chunks := FeedChunks(svc, feed).value;
      o == Outcome(
        Built("Index built for " + ticker, |chunks|, Some(FormatOverview(svc.overview(ticker)))),
        [OverviewRequest(ticker), NewsRequest(Upper(ticker)), ArticleLoad(Urls(feed)),
         FileWrite(ChunksFile, ChunkFile(chunks)),
         FileWrite(FaissFile, IndexWithChunksFile(BuildIndex(chunks), chunks))])
  {
    var overview := FormatOverview(svc.overview(ticker));
    var started := [OverviewRequest(ticker), NewsRequest(Upper(ticker))];
    match svc.news(Upper(ticker))
    case Err(e) => Outcome(Error(e), started)
    case Ok(feed) =>
      var tail := IndexFeed(svc, feed, ChunksFile, FaissFile, true);
      match tail.result
      case Err(e) => Outcome(Error(e), started + tail.effects)
      case Ok(chunks) => Outcome(Built("Index built for " + ticker, |chunks|, Some(overview)), started + tail.effects)
  }

  /**
   * There is no check for an empty news feed: it goes to the loader with no
   * URLs, and nothing is built or written only because the loader and the
   * splitter then produce no chunk.
   */
  lemma EmptyNewsBuildsNothing(svc: Services, ticker: string)
    requires svc.news(Upper(ticker)) == Ok([])
    requires svc.load([]).Loaded? ==> svc.split(svc.load([]).docs) == []
    ensures !BuildPlan(svc, ticker).reply.Built?
    ensures WritesNothing(BuildPlan(svc, ticker).effects)
  {
    assert Urls([]) == [];
  }

  /** `build_stock_index`, performing its requests and writes on the host one at a time. */
  method BuildStockIndex(host: Host, svc: Services, ticker: string) returns (r: Reply)
    modifies host
    ensures var o := BuildPlan(svc, ticker);
      && r == o.reply
      && host.trace == old(host.trace) + o.effects
      && host.files == AfterEffects(old(host.files), o.effects)
  {
    ghost var files0 := host.files;
    ghost var trace0 := host.trace;
    host.Perform(OverviewRequest(ticker));
    var overview := FormatOverview(svc.overview(ticker));
    host.Perform(NewsRequest(Upper(ticker)));
    ghost var started := [OverviewRequest(ticker), NewsRequest(Upper(ticker))];
    AfterEffectsSnoc(files0, [], OverviewRequest(ticker));
    AfterEffectsSnoc(files0, [OverviewRequest(ticker)], NewsRequest(Upper(ticker)));
    assert host.files == AfterEffects(files0, started);
    assert host.trace == trace0 + started;
    var news := svc.news(Upper(ticker));
    if news.Err? {
      return Error(news.error);
    }
    var result := IndexFeedOn(host, svc, news.value, ChunksFile, FaissFile, true);
    AfterEffectsConcat(files0, started, IndexFeed(svc, news.value, ChunksFile, FaissFile, true).effects);
    match result
    case Err(e) =>
      return Error(e);
    case Ok(chunks) =>
      return Built("Index built for " + ticker, |chunks|, Some(overview));
  }

  /** The existence check of `query_llm_with_retrieval`: it proceeds with `k = 3` iff both files exist. */
  function QueryPrecheck(files: set<string>): (q: QueryStart)
    ensures q.Proceed? <==> FaissFile in files && ChunksFile in files
    ensures q.Proceed? ==> q == Proceed(FaissFile, ChunksFile, TopK)
    ensures q.Refused? ==> q.error == MissingIndexError
  {
    if FaissFile !in files || ChunksFile !in files then Refused(MissingIndexError)
    else Proceed(FaissFile, ChunksFile, TopK)
  }

  /**
   * After a successful build the query check passes, the chunk file holds the
   * chunk list, and the index file holds an aligned index and the same list.
   */
  lemma BuildThenQueryProceeds(svc: Services, files: map<string, Artifact>, ticker: string)
    requires BuildPlan(svc, ticker).reply.Built?
    ensures var o := BuildPlan(svc, ticker);
      var after := AfterEffects(files, o.effects);
      && QueryPrecheck(after.Keys).Proceed?
      && after[ChunksFile].ChunkFile?
      && |after[ChunksFile].chunks| == o.reply.numVectors
      && IndexMatches(after[FaissFile], after[ChunksFile].chunks)
  {
    var o := BuildPlan(svc, ticker);
    PersistedPair(files, o.effects, ChunksFile, FaissFile, o.reply.numVectors);
  }
}
