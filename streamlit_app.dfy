/**
 * The Streamlit application's deterministic core: dated cache file names,
 * the cache check, ticker validation against the listing file, the
 * build pipeline with its early returns and two writes, the query's
 * existence check, and the word-paced splitter that streams an answer.
 */
module StreamlitApp {
  import opened PyStr
  import opened Pipeline
  import opened Ingest

  const DataDir := "streamlit/data/"
  const TopK: nat := 10
  const InvalidTickerError := "Invalid ticker symbol. Please enter a valid stock ticker."

  function CachedMessage(ticker: string): string
  {
    "Index already built for " + ticker + " today. Retrieving cached index."
  }

  function NoIndexError(ticker: string): string
  {
    "No index found for " + ticker + " today. Please build the index first."
  }

  /** `get_faiss_filename`: the index file of `ticker` for the day `today` (`%Y-%m-%d`). */
  function FaissFilename(ticker: string, today: string): string
  {
    DataDir + "faiss_" + ticker + "_" + today + ".pkl"
  }

  /** `get_chunks_filename`: the chunk file of `ticker` for the day `today`. */
  function ChunksFilename(ticker: string, today: string): string
  {
    DataDir + "chunks_" + ticker + "_" + today + ".pkl"
  }

  /** An index file name is never a chunk file name, whatever the tickers and days. */
  lemma FilenamesNeverCollide(t1: string, d1: string, t2: string, d2: string)
    ensures FaissFilename(t1, d1) != ChunksFilename(t2, d2)
  {
    assert FaissFilename(t1, d1)[|DataDir|] == 'f';
    assert ChunksFilename(t2, d2)[|DataDir|] == 'c';
  }

  /** On one day, the file name determines the ticker. */
  lemma FilenameDeterminesTicker(t1: string, t2: string, today: string)
    requires FaissFilename(t1, today) == FaissFilename(t2, today) || ChunksFilename(t1, today) == ChunksFilename(t2, today)
    ensures t1 == t2
  {
    if FaissFilename(t1, today) == FaissFilename(t2, today) {
      DatedNameTicker(DataDir + "faiss_", t1, t2, today);
    } else {
      DatedNameTicker(DataDir + "chunks_", t1, t2, today);
    }
  }

  /** For one ticker, the file name determines the day: yesterday's files are not today's. */
  lemma FilenameDeterminesDay(ticker: string, d1: string, d2: string)
    requires FaissFilename(ticker, d1) == FaissFilename(ticker, d2) || ChunksFilename(ticker, d1) == ChunksFilename(ticker, d2)
    ensures d1 == d2
  {
    if FaissFilename(ticker, d1) == FaissFilename(ticker, d2) {
      DatedNameDay(DataDir + "faiss_" + ticker + "_", d1, d2);
    } else {
      DatedNameDay(DataDir + "chunks_" + ticker + "_", d1, d2);
    }
  }

  lemma DatedNameTicker(prefix: string, t1: string, t2: string, today: string)
    requires prefix + t1 + "_" + today + ".pkl" == prefix + t2 + "_" + today + ".pkl"
    ensures t1 == t2
  {
    var a := prefix + t1 + "_" + today + ".pkl";
    var b := prefix + t2 + "_" + today + ".pkl";
    assert |t1| == |t2|;
    assert t1 == a[|prefix|..|prefix| + |t1|];
    assert t2 == b[|prefix|..|prefix| + |t2|];
  }

  lemma DatedNameDay(prefix: string, d1: string, d2: string)
    requires prefix + d1 + ".pkl" == prefix + d2 + ".pkl"
    ensures d1 == d2
  {
    var a := prefix + d1 + ".pkl";
    var b := prefix + d2 + ".pkl";
    assert |d1| == |d2|;
    assert d1 == a[|prefix|..|prefix| + |d1|];
    assert d2 == b[|prefix|..|prefix| + |d2|];
  }

  /** `is_index_cached`: both of today's files exist. */
  predicate IsIndexCached(files: set<string>, ticker: string, today: string)
  {
    FaissFilename(ticker, today) in files && ChunksFilename(ticker, today) in files
  }

  /** `streamlit/data/listing_status.csv`: absent, or present with its columns. */
  datatype Listing = NoListingFile | ListingFile(columns: map<string, seq<string>>)

  /** `valid_symbols`: the upper-cased `symbol` column, or nothing when the file or the column is missing. */
  function ValidSymbols(listing: Listing): set<string>
  {
    match listing
    case NoListingFile => {}
    case ListingFile(columns) =>
      if "symbol" in columns then set s | s in columns["symbol"] :: Upper(s) else {}
  }

  /** Validation is case-insensitive: a ticker passes iff some listed symbol upper-cases to the same text. */
  lemma ValidTickerIff(listing: Listing, ticker: string)
    ensures Upper(ticker) in ValidSymbols(listing) <==>
      listing.ListingFile? && "symbol" in listing.columns &&
      exists s :: s in listing.columns["symbol"] && Upper(s) == Upper(ticker)
  {
  }

  /**
   * The steps `build_stock_index` takes, as a function of its inputs: the
   * listing file, the files present, the services' answers and the day.
   */
  function BuildPlan(svc: Services, listing: Listing, files: set<string>, ticker: string, today: string): (o: Outcome)
    // validation and the cache check come first and contact nothing
    ensures o.effects == [] <==> (Upper(ticker) !in ValidSymbols(listing) || IsIndexCached(files, Upper(ticker), today))
    ensures Upper(ticker) !in ValidSymbols(listing) ==> o == Outcome(Error(InvalidTickerError), [])
    ensures listing.NoListingFile? ==> o == Outcome(Error(InvalidTickerError), [])
    ensures Upper(ticker) in ValidSymbols(listing) && IsIndexCached(files, Upper(ticker), today) ==>
      o == Outcome(Info(CachedMessage(Upper(ticker))), [])
    // the first outward call is the news request for the upper-cased ticker
    ensures o.effects != [] ==> o.effects[0] == NewsRequest(Upper(ticker))
    // a news error is returned unchanged, before anything else is tried
    ensures o.effects != [] && svc.news(Upper(ticker)).Err? ==>
      o == Outcome(Error(svc.news(Upper(ticker)).error), [NewsRequest(Upper(ticker))])
    // a parse error is returned unchanged, after the one article load; so is the split error
    ensures o.effects != [] && svc.news(Upper(ticker)).Ok? ==>
      var urls := Urls(svc.news(Upper(ticker)).value);
      var started := [NewsRequest(Upper(ticker)), ArticleLoad(urls)];
      |o.effects| >= 2 && o.effects[1] == ArticleLoad(urls) &&
      (svc.load(urls).Raised? ==> o == Outcome(Error(ParseFailurePrefix + svc.load(urls).reason), started)) &&
      (svc.load(urls).Loaded? && ToChunks(svc.split(svc.load(urls).docs)) == [] ==> o == Outcome(Error(NoTextError), started))
    // the build succeeds exactly when the ticker is listed, not cached, the news and the load succeed and splitting gives text
    ensures o.reply.Built? <==>
      var t := Upper(ticker);
      && t in ValidSymbols(listing) && !IsIndexCached(files, t, today)
      && svc.news(t).Ok? && FeedChunks(svc, svc.news(t).value).Some? && FeedChunks(svc, svc.news(t).value).value != []
    // and then it writes exactly the split output, and an index built from it
    ensures o.reply.Built? ==>
      var t := Upper(ticker);
      var feed := svc.news(t).value;
      var chunks := FeedChunks(svc, feed).value;
      o == Outcome(
        Built("Index built for " + t, |chunks|, None),
        [NewsRequest(t), ArticleLoad(Urls(feed)),
         FileWrite(ChunksFilename(t, today), ChunkFile(chunks)),
         FileWrite(FaissFilename(t, today), IndexFile(BuildIndex(chunks)))])
    // nothing is written unless the build succeeds
    ensures !o.reply.Built? ==> WritesNothing(o.effects)
    // a success writes the chunk file, then an index aligned with it, and reports the chunk count
    ensures o.reply.Built? ==>
      && ChunksThenIndex(o.effects, ChunksFilename(Upper(ticker), today), FaissFilename(Upper(ticker), today), o.reply.numVectors)
      && WritesNothing(o.effects[..|o.effects| - 2])
      && o.reply.numVectors > 0
      && o.reply.message == "Index built for " + Upper(ticker)
      && o.reply.companyOverview.None?
  {
    var t := Upper(ticker);
    if t !in ValidSymbols(listing) then Outcome(Error(InvalidTickerError), [])
    else if IsIndexCached(files, t, today) then Outcome(Info(CachedMessage(t)), [])
    else
      var fetched := [NewsRequest(t)];
      match svc.news(t)
      case Err(e) => Outcome(Error(e), fetched)
      case Ok(feed) =>
        var tail := IndexFeed(svc, feed, ChunksFilename(t, today), FaissFilename(t, today), false);
        match tail.result
        case Err(e) => Outcome(Error(e), fetched + tail.effects)
        case Ok(chunks) => Outcome(Built("Index built for " + t, |chunks|, None), fetched + tail.effects)
  }

  /**
   * `get_stock_news` upper-cases the already upper-cased ticker again; the
   * request it sends is still the one the plan records.
   */
  lemma NewsRequestSendsUpperTicker(svc: Services, listing: Listing, files: set<string>, ticker: string, today: string)
    requires BuildPlan(svc, listing, files, ticker, today).effects != []
    ensures BuildPlan(svc, listing, files, ticker, today).effects[0] == NewsRequest(Upper(Upper(ticker)))
  {
    UpperIdempotent(ticker);
  }

  /**
   * There is no check for an empty news feed: it goes to the loader with no
   * URLs, and nothing is built or written only because the loader and the
   * splitter then produce no chunk.
   */
  lemma EmptyNewsBuildsNothing(svc: Services, listing: Listing, files: set<string>, ticker: string, today: string)
    requires svc.news(Upper(ticker)) == Ok([])
    requires svc.load([]).Loaded? ==> svc.split(svc.load([]).docs) == []
    ensures !BuildPlan(svc, listing, files, ticker, today).reply.Built?
    ensures WritesNothing(BuildPlan(svc, listing, files, ticker, today).effects)
  {
    assert Urls([]) == [];
  }

  /** `build_stock_index`, performing its requests and writes on the host one at a time. */
  method BuildStockIndex(host: Host, svc: Services, listing: Listing, ticker: string, today: string) returns (r: Reply)
    modifies host
    ensures var o := BuildPlan(svc, listing, old(host.files).Keys, ticker, today);
      && r == o.reply
      && host.trace == old(host.trace) + o.effects
      && host.files == AfterEffects(old(host.files), o.effects)
  {
    ghost var files0 := host.files;
    ghost var trace0 := host.trace;
    ghost var plan := BuildPlan(svc, listing, files0.Keys, ticker, today);
    var t := Upper(ticker);
    if t !in ValidSymbols(listing) {
      assert plan == Outcome(Error(InvalidTickerError), []);
      return Error(InvalidTickerError);
    }
    if IsIndexCached(host.files.Keys, t, today) {
      assert plan == Outcome(Info(CachedMessage(t)), []);
      return Info(CachedMessage(t));
    }
    host.Perform(NewsRequest(t));
    AfterEffectsSnoc(files0, [], NewsRequest(t));
    assert [] + [NewsRequest(t)] == [NewsRequest(t)];
    var news := svc.news(t);
    if news.Err? {
      assert plan == Outcome(Error(news.error), [NewsRequest(t)]);
      return Error(news.error);
    }
    var chunksPath := ChunksFilename(t, today);
    var indexPath := FaissFilename(t, today);
    var result := IndexFeedOn(host, svc, news.value, chunksPath, indexPath, false);
    ghost var tail := IndexFeed(svc, news.value, chunksPath, indexPath, false);
    AfterEffectsConcat(files0, [NewsRequest(t)], tail.effects);
    assert plan.effects == [NewsRequest(t)] + tail.effects;
    match result
    case Err(e) =>
      return Error(e);
    case Ok(chunks) =>
      return Built("Index built for " + t, |chunks|, None);
  }

  /**
   * A successful build leaves both of today's files in place, the chunk list
   * and an index aligned with it, so the same ticker is cached for the rest
   * of the day and a second build that day contacts nothing.
   */
  lemma BuildThenCached(svc: Services, listing: Listing, files: map<string, Artifact>, ticker: string, today: string)
    requires BuildPlan(svc, listing, files.Keys, ticker, today).reply.Built?
    ensures var o := BuildPlan(svc, listing, files.Keys, ticker, today);
      var after := AfterEffects(files, o.effects);
      var t := Upper(ticker);
      && IsIndexCached(after.Keys, t, today)
      && after[ChunksFilename(t, today)].ChunkFile?
      && |after[ChunksFilename(t, today)].chunks| == o.reply.numVectors
      && IndexMatches(after[FaissFilename(t, today)], after[ChunksFilename(t, today)].chunks)
      && BuildPlan(svc, listing, after.Keys, ticker, today) == Outcome(Info(CachedMessage(t)), [])
  {
    var o := BuildPlan(svc, listing, files.Keys, ticker, today);
    var t := Upper(ticker);
    FilenamesNeverCollide(t, today, t, today);
    PersistedPair(files, o.effects, ChunksFilename(t, today), FaissFilename(t, today), o.reply.numVectors);
  }

  /** The query's existence check (`query_llm_with_retrieval`): it proceeds with `k = 10` iff both of today's files exist. */
  function QueryPrecheck(files: set<string>, ticker: string, today: string): (q: QueryStart)
    ensures q.Proceed? <==> IsIndexCached(files, Upper(ticker), today)
    ensures q.Proceed? ==> q == Proceed(FaissFilename(Upper(ticker), today), ChunksFilename(Upper(ticker), today), TopK)
    ensures q.Refused? ==> q.error == NoIndexError(Upper(ticker))
  {
    var t := Upper(ticker);
    var faissFile := FaissFilename(t, today);
    var chunksFile := ChunksFilename(t, today);
    if faissFile !in files || chunksFile !in files then Refused(NoIndexError(t))
    else Proceed(faissFile, chunksFile, TopK)
  }

  /** After a successful build, a query for the same ticker on the same day passes the check. */
  lemma BuildThenQueryProceeds(svc: Services, listing: Listing, files: map<string, Artifact>, ticker: string, today: string)
    requires BuildPlan(svc, listing, files.Keys, ticker, today).reply.Built?
    ensures QueryPrecheck(AfterEffects(files, BuildPlan(svc, listing, files.Keys, ticker, today).effects).Keys, ticker, today).Proceed?
  {
    BuildThenCached(svc, listing, files, ticker, today);
  }

  predicate IsBreak(c: char)
  {
    c == ' ' || c == '\n'
  }

  /**
   * Pieces as `response_generator` yields them: none is empty, every piece
   * but the last ends in a space or newline, and none has a space or newline
   * before its end.
   */
  predicate Cut(pieces: seq<string>)
  {
    && (forall j :: 0 <= j < |pieces| ==> pieces[j] != [])
    && (forall j :: 0 <= j < |pieces| - 1 ==> pieces[j] != [] && IsBreak(pieces[j][|pieces[j]| - 1]))
    && (forall j, m :: 0 <= j < |pieces| && 0 <= m < |pieces[j]| - 1 ==> !IsBreak(pieces[j][m]))
  }

  /** A cut of `text`: pieces of that shape that add up to the text. */
  predicate WellCut(pieces: seq<string>, text: string)
  {
    Concat(pieces) == text && Cut(pieces)
  }

  predicate EndsInBreak(piece: string)
  {
    piece != [] && IsBreak(piece[|piece| - 1])
  }

  /** A new piece may follow a cut whose last piece ended in a break. */
  lemma CutSnoc(pieces: seq<string>, piece: string)
    requires Cut(pieces)
    requires pieces != [] ==> EndsInBreak(pieces[|pieces| - 1])
    requires piece != []
    requires forall m :: 0 <= m < |piece| - 1 ==> !IsBreak(piece[m])
    ensures Cut(pieces + [piece])
  {
    var t := pieces + [piece];
    forall j | 0 <= j < |t| - 1
      ensures t[j] != [] && IsBreak(t[j][|t[j]| - 1])
    {
      assert t[j] == pieces[j];
    }
    forall j, m | 0 <= j < |t| && 0 <= m < |t[j]| - 1
      ensures !IsBreak(t[j][m])
    {
      if j < |pieces| { assert t[j] == pieces[j]; }
    }
  }

  /**
   * `response_generator` without its pacing delay: the pieces it yields, in
   * order. Empty text yields nothing; the final flush of a non-empty buffer
   * never fires, because the last character always ends a piece.
   */
  method ResponseGenerator(text: string) returns (pieces: seq<string>)
    ensures WellCut(pieces, text)
    ensures pieces == [] <==> text == []
  {
    pieces := [];
    var buffer: string := [];
    var i := 0;
    while i < |text|
      invariant 0 <= i <= |text|
      invariant Scanning(text, i, pieces, buffer)
    {
      var c := text[i];
      ScanStep(text, i, pieces, buffer);
      buffer := buffer + [c];
      if IsBreak(c) || i == |text| - 1 {
        pieces := pieces + [buffer];
        buffer := [];
      }
      i := i + 1;
    }
    ScanDone(text, pieces, buffer);
    if buffer != [] {
      pieces := pieces + [buffer];
    }
  }

  /**
   * The state of `response_generator` after reading `text[..i]`: the pieces
   * yielded so far plus the buffer spell that prefix, the pieces are a cut,
   * only the very last character may end a piece without a break, and the
   * buffer holds no break and is empty once the text is read.
   */
  predicate Scanning(text: string, i: nat, pieces: seq<string>, buffer: string)
  {
    && i <= |text|
    && Concat(pieces) + buffer == text[..i]
    && Cut(pieces)
    && (pieces != [] && !EndsInBreak(pieces[|pieces| - 1]) ==> i == |text|)
    && (forall m :: 0 <= m < |buffer| ==> !IsBreak(buffer[m]))
    && (buffer != [] ==> i < |text|)
  }

  /** One step of the loop: read `text[i]` into the buffer and yield it when it is a break or the last character. */
  lemma ScanStep(text: string, i: nat, pieces: seq<string>, buffer: string)
    requires i < |text|
    requires Scanning(text, i, pieces, buffer)
    ensures var b := buffer + [text[i]];
      if IsBreak(text[i]) || i == |text| - 1 then Scanning(text, i + 1, pieces + [b], [])
      else Scanning(text, i + 1, pieces, b)
  {
    var c := text[i];
    var b := buffer + [c];
    assert text[..i + 1] == text[..i] + [c];
    if IsBreak(c) || i == |text| - 1 {
      ConcatSnoc(pieces, b);
      CutSnoc(pieces, b);
    }
  }

  /** Once the text is read the buffer is empty and the pieces are a cut of the whole text, empty iff the text is. */
  lemma ScanDone(text: string, pieces: seq<string>, buffer: string)
    requires Scanning(text, |text|, pieces, buffer)
    ensures buffer == []
    ensures WellCut(pieces, text)
    ensures pieces == [] <==> text == []
  {
    assert text[..|text|] == text;
    if pieces != [] {
      assert |Concat(pieces)| >= |pieces[0]|;
    }
  }

  /** The cut is unique: the properties of `WellCut` determine the pieces from the text. */
  lemma {:induction false} WellCutUnique(p: seq<string>, q: seq<string>, text: string)
    requires WellCut(p, text) && WellCut(q, text)
    ensures p == q
    decreases |text|
  {
    if p == [] || q == [] {
      if p != q {
        assert false;
      }
    } else {
      var a, b := p[0], q[0];
      assert Concat(p) == a + Concat(p[1..]);
      assert Concat(q) == b + Concat(q[1..]);
      assert text[..|a|] == a;
      assert text[..|b|] == b;
      if |a| < |b| {
        assert false;
      } else if |b| < |a| {
        assert false;
      }
      assert a == b;
      var rest := text[|a|..];
      assert Concat(p[1..]) == rest;
      assert Concat(q[1..]) == rest;
      WellCutTail(p, rest);
      WellCutTail(q, rest);
      WellCutUnique(p[1..], q[1..], rest);
      assert p == [a] + p[1..];
      assert q == [b] + q[1..];
    }
  }

  lemma WellCutTail(p: seq<string>, rest: string)
    requires p != []
    requires WellCut(p, p[0] + rest)
    requires Concat(p[1..]) == rest
    ensures WellCut(p[1..], rest)
  {
    var t := p[1..];
    forall j, m | 0 <= j < |t| && 0 <= m < |t[j]| - 1
      ensures !IsBreak(t[j][m])
    {
      assert t[j] == p[j + 1];
    }
    forall j | 0 <= j < |t| - 1
      ensures t[j] != [] && IsBreak(t[j][|t[j]| - 1])
    {
      assert t[j] == p[j + 1];
    }
  }
}
