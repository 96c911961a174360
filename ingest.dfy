/**
 * The deterministic pieces of the build phase that the three copies share:
 * article parsing (all or nothing with respect to an exception escaping
 * the loader), the `{text, source}` mapping applied to
 * the splitter's output, and the company-overview formatter.
 */
module Ingest {
  import opened PyStr
  import opened Pipeline

  const ParseFailurePrefix := "Failed to parse articles: "
  const UnknownSource := "Unknown"
  const OverviewErrorPrefix := "Error fetching company overview: "
  const NoTextError := "No text available after splitting"

  /** `[article['url'] for article in articles]`. */
  function Urls(articles: seq<NewsItem>): (urls: seq<string>)
    ensures |urls| == |articles|
    ensures forall i :: 0 <= i < |articles| ==> urls[i] == articles[i].url
    decreases |articles|
  {
    if articles == [] then [] else [articles[0].url] + Urls(articles[1..])
  }

  /**
   * `parse_articles`: the loader gets every URL in feed order; either the
   * documents it returns come back unchanged, or, when an exception escapes
   * it, one error dict and no document at all.
   */
  function ParseArticles(articles: seq<NewsItem>, load: seq<string> -> LoadOutcome): (r: Result<seq<Document>>)
    ensures r.Ok? <==> load(Urls(articles)).Loaded?
    ensures r.Ok? ==> r.value == load(Urls(articles)).docs
    ensures r.Err? ==> r.error == ParseFailurePrefix + load(Urls(articles)).reason
  {
    match load(Urls(articles))
    case Loaded(docs) => Ok(docs)
    case Raised(reason) => Err(ParseFailurePrefix + reason)
  }

  /** `metadata.get("source", "Unknown")`. */
  function SourceOf(metadata: map<string, string>): string
  {
    if "source" in metadata then metadata["source"] else UnknownSource
  }

  /**
   * The mapping `split_text` applies to the splitter's chunks: one
   * `{text, source}` per chunk, in the same order.
   */
  function ToChunks(pieces: seq<Document>): (chunks: seq<Chunk>)
    ensures |chunks| == |pieces|
    ensures forall i :: 0 <= i < |pieces| ==> chunks[i].text == pieces[i].pageContent
    ensures forall i :: 0 <= i < |pieces| ==>
      (if "source" in pieces[i].metadata then chunks[i].source == pieces[i].metadata["source"]
       else chunks[i].source == UnknownSource)
    decreases |pieces|
  {
    if pieces == [] then []
    else [Chunk(pieces[0].pageContent, SourceOf(pieces[0].metadata))] + ToChunks(pieces[1..])
  }

  /**
   * `split_text(parse_articles(feed))` over the services: the chunk list the
   * feed yields, or `None` when the loader raises.
   */
  function FeedChunks(svc: Services, feed: seq<NewsItem>): (r: Option<seq<Chunk>>)
    ensures r.Some? <==> svc.load(Urls(feed)).Loaded?
    ensures r.Some? ==> r.value == ToChunks(svc.split(svc.load(Urls(feed)).docs))
  {
    match ParseArticles(feed, svc.load)
    case Err(_) => None
    case Ok(docs) => Some(ToChunks(svc.split(docs)))
  }

  /** The index pickle: the index alone, or (in the command-line copy) the index paired with the chunks. */
  function IndexArtifact(chunks: seq<Chunk>, paired: bool): (a: Artifact)
    ensures IndexMatches(a, chunks)
    ensures paired <==> a.IndexWithChunksFile?
  {
    if paired then IndexWithChunksFile(BuildIndex(chunks), chunks) else IndexFile(BuildIndex(chunks))
  }

  /** The part of a build after the feed is known: the chunks written (or the error) and the effects. */
  datatype Tail = Tail(result: Result<seq<Chunk>>, effects: seq<Effect>)

  /**
   * The steps every copy takes once it has a feed: load the articles, split
   * them, and, when there is text, write the chunk file and then the index
   * file. Errors are returned before anything is written.
   */
  function IndexFeed(svc: Services, feed: seq<NewsItem>, chunksPath: string, indexPath: string, paired: bool): (t: Tail)
    ensures t.effects != [] && t.effects[0] == ArticleLoad(Urls(feed))
    ensures svc.load(Urls(feed)).Raised? ==>
      t == Tail(Err(ParseFailurePrefix + svc.load(Urls(feed)).reason), [ArticleLoad(Urls(feed))])
    ensures svc.load(Urls(feed)).Loaded? && ToChunks(svc.split(svc.load(Urls(feed)).docs)) == [] ==>
      t == Tail(Err(NoTextError), [ArticleLoad(Urls(feed))])
    ensures t.result.Ok? <==> FeedChunks(svc, feed).Some? && FeedChunks(svc, feed).value != []
    ensures t.result.Ok? ==>
      var chunks := FeedChunks(svc, feed).value;
      t == Tail(Ok(chunks), [ArticleLoad(Urls(feed)), FileWrite(chunksPath, ChunkFile(chunks)),
                             FileWrite(indexPath, IndexArtifact(chunks, paired))])
    ensures t.result.Err? ==> t.effects == [ArticleLoad(Urls(feed))]
  {
    var load := ArticleLoad(Urls(feed));
    match ParseArticles(feed, svc.load)
    case Err(e) => Tail(Err(e), [load])
    case Ok(docs) =>
      var chunks := ToChunks(svc.split(docs));
      if chunks == [] then Tail(Err(NoTextError), [load])
      else Tail(Ok(chunks), [load, FileWrite(chunksPath, ChunkFile(chunks)), FileWrite(indexPath, IndexArtifact(chunks, paired))])
  }

  /** The shared tail of the three builds, performed on the host one step at a time. */
  method IndexFeedOn(host: Host, svc: Services, feed: seq<NewsItem>, chunksPath: string, indexPath: string, paired: bool)
    returns (result: Result<seq<Chunk>>)
    modifies host
    ensures var t := IndexFeed(svc, feed, chunksPath, indexPath, paired);
      && result == t.result
      && host.trace == old(host.trace) + t.effects
      && host.files == AfterEffects(old(host.files), t.effects)
  {
    ghost var files0 := host.files;
    var load := ArticleLoad(Urls(feed));
    host.Perform(load);
    AfterEffectsSnoc(files0, [], load);
    var parsed := ParseArticles(feed, svc.load);
    if parsed.Err? {
      return Err(parsed.error);
    }
    var chunks := ToChunks(svc.split(parsed.value));
    if chunks == [] {
      return Err(NoTextError);
    }
    var chunksWrite := FileWrite(chunksPath, ChunkFile(chunks));
    host.Perform(chunksWrite);
    var indexWrite := FileWrite(indexPath, IndexArtifact(chunks, paired));
    host.Perform(indexWrite);
    AfterEffectsSnoc(files0, [load], chunksWrite);
    AfterEffectsSnoc(files0, [load, chunksWrite], indexWrite);
    assert [load] + [chunksWrite] == [load, chunksWrite];
    assert [load, chunksWrite] + [indexWrite] == [load, chunksWrite, indexWrite];
    return Ok(chunks);
  }

  /** The mapping preserves order across documents: mapping a concatenation concatenates the mappings. */
  lemma {:induction false} ToChunksConcat(a: seq<Document>, b: seq<Document>)
    ensures ToChunks(a + b) == ToChunks(a) + ToChunks(b)
    decreases |a|
  {
    if a != [] {
      assert (a + b)[0] == a[0];
      assert (a + b)[1..] == a[1..] + b;
      ToChunksConcat(a[1..], b);
    }
  }

  /** Python's `"Symbol" in data` on the parsed JSON object. */
  predicate HasKey(data: seq<(string, string)>, key: string)
  {
    exists i :: 0 <= i < |data| && data[i].0 == key
  }

  function OverviewLine(entry: (string, string)): string
  {
    entry.0 + ": " + entry.1
  }

  /** `[f"{key}: {val}" for key, val in data.items()]`, in the object's key order. */
  function OverviewLines(data: seq<(string, string)>): seq<string>
  {
    seq(|data|, i requires 0 <= i < |data| => OverviewLine(data[i]))
  }

  /** `str(data)` of the JSON object (plain strings only, see README). */
  function DictRepr(data: seq<(string, string)>): string
  {
    "{" + Join(", ", seq(|data|, i requires 0 <= i < |data| => Quote(data[i].0) + ": " + Quote(data[i].1))) + "}"
  }

  /** The formatting half of `get_company_overview`. */
  function FormatOverview(data: seq<(string, string)>): (r: string)
    ensures !HasKey(data, "Symbol") ==>
      |r| > |OverviewErrorPrefix| && r[..|OverviewErrorPrefix|] == OverviewErrorPrefix
  {
    if !HasKey(data, "Symbol") then OverviewErrorPrefix + DictRepr(data)
    else Join("\n", OverviewLines(data))
  }

  /**
   * With `Symbol` present and no newline inside keys or values, the overview
   * is exactly one `key: val` line per key, in order: splitting it on `\n`
   * gives the lines back.
   */
  lemma OverviewLinesRoundTrip(data: seq<(string, string)>)
    requires HasKey(data, "Symbol")
    requires forall i :: 0 <= i < |data| ==> '\n' !in data[i].0 && '\n' !in data[i].1
    ensures SplitOn('\n', FormatOverview(data)) == OverviewLines(data)
    ensures |SplitOn('\n', FormatOverview(data))| == |data|
  {
    var lines := OverviewLines(data);
    forall i | 0 <= i < |lines|
      ensures '\n' !in lines[i]
    {
      assert lines[i] == data[i].0 + ": " + data[i].1;
    }
    SplitJoin('\n', lines);
  }

  /** With `Symbol` present, the overview has no trailing newline unless the last value itself ends in one. */
  lemma OverviewNoTrailingNewline(data: seq<(string, string)>)
    requires HasKey(data, "Symbol")
    requires |data[|data| - 1].1| > 0 ==> data[|data| - 1].1[|data[|data| - 1].1| - 1] != '\n'
    ensures var r := FormatOverview(data); r != [] && r[|r| - 1] != '\n'
  {
    var lines := OverviewLines(data);
    var last := lines[|lines| - 1];
    assert last == data[|data| - 1].0 + ": " + data[|data| - 1].1;
    JoinEndsWithLastPart("\n", lines);
  }
}
