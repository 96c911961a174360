/**
 * The data model shared by the three copies of the retrieval pipeline:
 * news items, loaded documents, chunks, the artifacts written to the data
 * directory, the outward effects a build performs, and the replies it returns.
 *
 * Every library or network call is an oracle in `Services`; every outward
 * interaction (an HTTP request, a URL load, a file write) is an `Effect`, so
 * that "nothing is fetched" and "nothing is written" can be stated.
 */
module Pipeline {

  datatype Option<T> = None | Some(value: T)

  /** The `{"error": ...}` convention of the source: a value or an error message. */
  datatype Result<T> = Ok(value: T) | Err(error: string)

  /** One item of the news feed; only its `url` is used. */
  datatype NewsItem = NewsItem(url: string)

  /** A LangChain document: page text and string metadata (the loader sets `source`). */
  datatype Document = Document(pageContent: string, metadata: map<string, string>)

  /** The unit of retrieval: `{"text": ..., "source": ...}`. */
  datatype Chunk = Chunk(text: string, source: string)

  /**
   * What `UnstructuredURLLoader(urls).load()` does: returns a list of
   * documents (the loader's own handling of a URL that fails is its own
   * business), or lets an exception escape.
   */
  datatype LoadOutcome = Loaded(docs: seq<Document>) | Raised(reason: string)

  /**
   * A flat embedding index, represented by the texts it embedded: row `i`
   * holds the (normalised) embedding of `rows[i]`.
   */
  datatype EmbeddingIndex = EmbeddingIndex(rows: seq<string>)

  /** What a pickle file in the data directory holds. */
  datatype Artifact =
    | ChunkFile(chunks: seq<Chunk>)
    | IndexFile(index: EmbeddingIndex)
    | IndexWithChunksFile(index: EmbeddingIndex, chunks: seq<Chunk>)

  /** An outward interaction of the application. */
  datatype Effect =
    | NewsRequest(ticker: string)
    | OverviewRequest(symbol: string)
    | ArticleLoad(urls: seq<string>)
    | FileWrite(path: string, artifact: Artifact)

  /** The dictionary a build returns. */
  datatype Reply =
    | Error(error: string)
    | Info(message: string)
    | Built(message: string, numVectors: nat, companyOverview: Option<string>)

  /** A build's reply together with the effects it performed, in order. */
  datatype Outcome = Outcome(reply: Reply, effects: seq<Effect>)

  /** How a query starts: refused with an error, or proceeding to load two files and search for `k` hits. */
  datatype QueryStart = Refused(error: string) | Proceed(indexPath: string, chunksPath: string, k: nat)

  /**
   * The external services, as oracles:
   * `news` is `get_stock_news` for an upper-cased ticker (the feed, or its error dict),
   * `overview` the OVERVIEW JSON object for a symbol, as ordered key/value pairs,
   * `load` the URL loader, and `split` the recursive character text splitter.
   */
  datatype Services = Services(
    news: string -> Result<seq<NewsItem>>,
    overview: string -> seq<(string, string)>,
    load: seq<string> -> LoadOutcome,
    split: seq<Document> -> seq<Document>)

  /** Index row `i` is the embedding of chunk `i`'s text, for every `i`. */
  predicate Aligned(index: EmbeddingIndex, chunks: seq<Chunk>)
  {
    |index.rows| == |chunks| && forall i :: 0 <= i < |chunks| ==> index.rows[i] == chunks[i].text
  }

  /** `build_index`: one row per chunk, embedded from its text, in chunk order. */
  function BuildIndex(chunks: seq<Chunk>): (index: EmbeddingIndex)
    ensures Aligned(index, chunks)
  {
    EmbeddingIndex(seq(|chunks|, i requires 0 <= i < |chunks| => chunks[i].text))
  }

  /** An index artifact that matches a chunk list (and, when it carries one, carries that list). */
  predicate IndexMatches(a: Artifact, chunks: seq<Chunk>)
  {
    match a
    case IndexFile(index) => Aligned(index, chunks)
    case IndexWithChunksFile(index, stored) => Aligned(index, chunks) && stored == chunks
    case ChunkFile(_) => false
  }

  predicate WritesNothing(effects: seq<Effect>)
  {
    forall j :: 0 <= j < |effects| ==> !effects[j].FileWrite?
  }

  /**
   * The effects end with two writes: first the `n` chunks to `chunksPath`,
   * then an index aligned with exactly those chunks to `indexPath`.
   */
  predicate ChunksThenIndex(effects: seq<Effect>, chunksPath: string, indexPath: string, n: nat)
  {
    |effects| >= 2 &&
    var c := effects[|effects| - 2];
    var x := effects[|effects| - 1];
    && c.FileWrite? && c.path == chunksPath && c.artifact.ChunkFile? && |c.artifact.chunks| == n
    && x.FileWrite? && x.path == indexPath && IndexMatches(x.artifact, c.artifact.chunks)
  }

  /** The data directory after one effect: a write replaces the file ("last write wins"). */
  function Apply(files: map<string, Artifact>, e: Effect): map<string, Artifact>
  {
    if e.FileWrite? then files[e.path := e.artifact] else files
  }

  /** The data directory after a sequence of effects. */
  function AfterEffects(files: map<string, Artifact>, effects: seq<Effect>): map<string, Artifact>
    decreases |effects|
  {
    if effects == [] then files
    else Apply(AfterEffects(files, effects[..|effects| - 1]), effects[|effects| - 1])
  }

  lemma AfterEffectsSnoc(files: map<string, Artifact>, effects: seq<Effect>, e: Effect)
    ensures AfterEffects(files, effects + [e]) == Apply(AfterEffects(files, effects), e)
  {
    assert (effects + [e])[..|effects|] == effects;
  }

  /** Performing `a` and then `b` is performing `a + b`. */
  lemma {:induction false} AfterEffectsConcat(files: map<string, Artifact>, a: seq<Effect>, b: seq<Effect>)
    ensures AfterEffects(files, a + b) == AfterEffects(AfterEffects(files, a), b)
    decreases |b|
  {
    if b == [] {
      assert a + b == a;
    } else {
      var init := b[..|b| - 1];
      assert (a + b)[..|a + b| - 1] == a + init;
      assert (a + b)[|a + b| - 1] == b[|b| - 1];
      AfterEffectsConcat(files, a, init);
    }
  }

  /** Effects that write nothing leave the data directory as it was. */
  lemma {:induction false} AfterNoWrites(files: map<string, Artifact>, effects: seq<Effect>)
    requires WritesNothing(effects)
    ensures AfterEffects(files, effects) == files
    decreases |effects|
  {
    if effects != [] {
      AfterNoWrites(files, effects[..|effects| - 1]);
    }
  }

  /**
   * After effects that end in `ChunksThenIndex` (and write nothing before),
   * the two files hold the chunk list and an index aligned with it.
   */
  lemma PersistedPair(files: map<string, Artifact>, effects: seq<Effect>, chunksPath: string, indexPath: string, n: nat)
    requires chunksPath != indexPath
    requires ChunksThenIndex(effects, chunksPath, indexPath, n)
    requires WritesNothing(effects[..|effects| - 2])
    ensures var after := AfterEffects(files, effects);
      && chunksPath in after && indexPath in after
      && after[chunksPath].ChunkFile? && |after[chunksPath].chunks| == n
      && IndexMatches(after[indexPath], after[chunksPath].chunks)
      && after[chunksPath] == effects[|effects| - 2].artifact
  {
    var m := |effects|;
    AfterNoWrites(files, effects[..m - 2]);
    assert effects[..m][..m - 1] == effects[..m - 1];
    assert effects[..m - 1][..m - 2] == effects[..m - 2];
  }

  /**
   * The machine the application runs on: its data directory (path to
   * artifact) and the trace of outward effects performed so far.
   */
  class Host {
    var files: map<string, Artifact>
    var trace: seq<Effect>

    constructor (initial: map<string, Artifact>)
      ensures files == initial && trace == []
    {
      files := initial;
      trace := [];
    }

    /** Performs one outward interaction: it joins the trace and, if it is a write, replaces the file. */
    method Perform(e: Effect)
      modifies this
      ensures trace == old(trace) + [e]
      ensures files == Apply(old(files), e)
    {
      trace := trace + [e];
      if e.FileWrite? {
        files := files[e.path := e.artifact];
      }
    }
  }
}
