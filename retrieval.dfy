/**
 * The query phase after the similarity search: the filter that turns the
 * row ids returned by the search into chunks, and the serialiser that turns
 * the retrieved chunks into the prompt's context block.
 *
 * The search itself is an oracle: it answers with a sequence of row ids.
 */
module Retrieval {
  import opened PyStr
  import opened Pipeline

  /** The result of the filter: the retrieved chunks, or Python's `IndexError`. */
  datatype Lookup = Retrieved(docs: seq<Chunk>) | IndexError

  /** Python's `chunks[i]`: a negative index counts from the end. */
  function PyAt(chunks: seq<Chunk>, i: int): Chunk
    requires -|chunks| <= i < |chunks|
  {
    if i >= 0 then chunks[i] else chunks[|chunks| + i]
  }

  /** The row ids that pass the test `i < n`, in search order. */
  function KeptHits(n: int, hits: seq<int>): (kept: seq<int>)
    ensures |kept| <= |hits|
    ensures forall j :: 0 <= j < |kept| ==> kept[j] < n && kept[j] in hits
    decreases |hits|
  {
    if hits == [] then []
    else if hits[0] < n then [hits[0]] + KeptHits(n, hits[1..])
    else KeptHits(n, hits[1..])
  }

  /** `[chunks[k] for k in ks]`, for ids Python can index with. */
  function Fetch(chunks: seq<Chunk>, ks: seq<int>): seq<Chunk>
    requires forall j :: 0 <= j < |ks| ==> -|chunks| <= ks[j] < |chunks|
  {
    seq(|ks|, j requires 0 <= j < |ks| => PyAt(chunks, ks[j]))
  }

  lemma FetchCons(chunks: seq<Chunk>, i: int, ks: seq<int>)
    requires -|chunks| <= i < |chunks|
    requires forall j :: 0 <= j < |ks| ==> -|chunks| <= ks[j] < |chunks|
    ensures Fetch(chunks, [i] + ks) == [PyAt(chunks, i)] + Fetch(chunks, ks)
  {
    assert forall j :: 0 < j <= |ks| ==> ([i] + ks)[j] == ks[j - 1];
  }

  /**
   * `[processed_chunks[i] for i in indices[0] if i < len(processed_chunks)]`.
   * It raises exactly when some hit is below `-len`; otherwise it is the
   * chunks at the hits that pass `i < len`, in search order (a negative hit
   * passes and counts from the end), never more than there were hits, and
   * every one of them a stored chunk.
   */
  function SelectChunks(chunks: seq<Chunk>, hits: seq<int>): (r: Lookup)
    ensures r.IndexError? <==> exists j :: 0 <= j < |hits| && hits[j] < -|chunks|
    ensures r.Retrieved? ==> |r.docs| <= |hits|
    ensures r.Retrieved? ==> forall d :: d in r.docs ==> d in chunks
    ensures r.Retrieved? ==>
      var kept := KeptHits(|chunks|, hits);
      (forall j :: 0 <= j < |kept| ==> -|chunks| <= kept[j]) && r.docs == Fetch(chunks, kept)
    decreases |hits|
  {
    if hits == [] then Retrieved([])
    else
      var i := hits[0];
      var rest := SelectChunks(chunks, hits[1..]);
      assert forall j :: 0 < j < |hits| ==> hits[j] == hits[1..][j - 1];
      if i >= |chunks| then
        assert KeptHits(|chunks|, hits) == KeptHits(|chunks|, hits[1..]);
        rest
      else if i < -|chunks| then IndexError
      else match rest
        case IndexError => IndexError
        case Retrieved(docs) =>
          var kept := KeptHits(|chunks|, hits[1..]);
          assert KeptHits(|chunks|, hits) == [i] + kept;
          FetchCons(chunks, i, kept);
          Retrieved([PyAt(chunks, i)] + docs)
  }

  /** `docs` followed by what a lookup retrieved; an `IndexError` stays one. */
  function Prepend(docs: seq<Chunk>, r: Lookup): Lookup
  {
    match r
    case IndexError => IndexError
    case Retrieved(more) => Retrieved(docs + more)
  }

  /**
   * The loop form of the filter: for each hit in search order, when
   * `i < len(processed_chunks)`, append a copy of that chunk's `text` and
   * `source`. It computes exactly what the comprehension computes.
   */
  method CollectChunks(chunks: seq<Chunk>, hits: seq<int>) returns (r: Lookup)
    ensures r == SelectChunks(chunks, hits)
  {
    var docs: seq<Chunk> := [];
    var j := 0;
    while j < |hits|
      invariant 0 <= j <= |hits|
      invariant SelectChunks(chunks, hits) == Prepend(docs, SelectChunks(chunks, hits[j..]))
    {
      var i := hits[j];
      assert hits[j..][1..] == hits[j + 1..];
      if i < |chunks| {
        if i < -|chunks| {
          return IndexError;
        }
        var c := PyAt(chunks, i);
        ghost var rest := SelectChunks(chunks, hits[j + 1..]);
        assert rest.Retrieved? ==> docs + ([c] + rest.docs) == docs + [Chunk(c.text, c.source)] + rest.docs;
        docs := docs + [Chunk(c.text, c.source)];
      }
      j := j + 1;
    }
    r := Retrieved(docs);
  }

  /**
   * The answer of a flat FAISS index over `n` rows to a search for `k`
   * neighbours: `min(k, n)` row ids in range, then `-1` for each missing one.
   */
  predicate FlatSearchAnswer(n: nat, k: nat, hits: seq<int>)
  {
    && |hits| == k
    && (forall j :: 0 <= j < k && j < n ==> 0 <= hits[j] < n)
    && (forall j :: n <= j < k ==> hits[j] == -1)
  }

  lemma {:induction false} KeptAllBelow(n: int, hits: seq<int>)
    requires forall j :: 0 <= j < |hits| ==> hits[j] < n
    ensures KeptHits(n, hits) == hits
    decreases |hits|
  {
    if hits != [] {
      KeptAllBelow(n, hits[1..]);
      assert [hits[0]] + hits[1..] == hits;
    }
  }

  /**
   * As written, with fewer chunks than requested neighbours every `-1`
   * sentinel passes the `i < len` test and selects the last chunk: the
   * result has `k` entries, not `min(k, n)`.
   */
  lemma SentinelsSelectLastChunk(chunks: seq<Chunk>, k: nat, hits: seq<int>)
    requires 0 < |chunks| < k
    requires FlatSearchAnswer(|chunks|, k, hits)
    ensures SelectChunks(chunks, hits).Retrieved?
    ensures |SelectChunks(chunks, hits).docs| == k
    ensures forall j :: |chunks| <= j < k ==> SelectChunks(chunks, hits).docs[j] == chunks[|chunks| - 1]
  {
    var n := |chunks|;
    assert forall j :: 0 <= j < |hits| ==> -n <= hits[j] < n;
    KeptAllBelow(n, hits);
  }

  /** The row ids that are real rows, `0 <= i < n`, in search order. */
  function InRangeHits(n: int, hits: seq<int>): (kept: seq<int>)
    ensures |kept| <= |hits|
    ensures forall j :: 0 <= j < |kept| ==> 0 <= kept[j] < n
    decreases |hits|
  {
    if hits == [] then []
    else if 0 <= hits[0] < n then [hits[0]] + InRangeHits(n, hits[1..])
    else InRangeHits(n, hits[1..])
  }

  /** The filter as intended: out-of-range ids, the `-1` sentinel among them, are dropped. */
  function SelectInRange(chunks: seq<Chunk>, hits: seq<int>): (docs: seq<Chunk>)
    ensures |docs| <= |hits|
    ensures forall d :: d in docs ==> d in chunks
  {
    var kept := InRangeHits(|chunks|, hits);
    seq(|kept|, j requires 0 <= j < |kept| => chunks[kept[j]])
  }

  /** Every id below position `m` is in range and every one from `m` on is `-1`. */
  lemma {:induction false} InRangeStable(n: nat, m: nat, hits: seq<int>)
    requires m <= |hits|
    requires forall j :: 0 <= j < m ==> 0 <= hits[j] < n
    requires forall j :: m <= j < |hits| ==> hits[j] == -1
    ensures InRangeHits(n, hits) == hits[..m]
    decreases |hits|
  {
    if hits != [] {
      if m == 0 {
        InRangeStable(n, 0, hits[1..]);
      } else {
        InRangeStable(n, m - 1, hits[1..]);
        assert hits[..m] == [hits[0]] + hits[1..][..m - 1];
      }
    }
  }

  /** As intended, a search for `k` neighbours over `n` chunks retrieves exactly `min(k, n)` chunks, best first. */
  lemma InRangeRetrievesMinKN(chunks: seq<Chunk>, k: nat, hits: seq<int>)
    requires FlatSearchAnswer(|chunks|, k, hits)
    ensures |SelectInRange(chunks, hits)| == if k < |chunks| then k else |chunks|
    ensures forall j :: 0 <= j < |SelectInRange(chunks, hits)| ==> SelectInRange(chunks, hits)[j] == chunks[hits[j]]
  {
    var n := |chunks|;
    InRangeStable(n, if k < n then k else n, hits);
  }

  const StreamlitDelimiter := "\n========\n"
  const ApiDelimiter := "\n=========\n"

  function Entry(doc: Chunk): string
  {
    "Content: " + doc.text + "\nSource: " + doc.source
  }

  function Entries(docs: seq<Chunk>): seq<string>
  {
    seq(|docs|, i requires 0 <= i < |docs| => Entry(docs[i]))
  }

  /**
   * `format_retrieved_text`: one `Content: ...\nSource: ...` entry per
   * retrieved chunk, with the delimiter line between consecutive entries.
   */
  function FormatRetrievedText(docs: seq<Chunk>, delimiter: string): (r: string)
    ensures docs == [] ==> r == ""
    ensures |docs| == 1 ==> r == Entry(docs[0])
    ensures docs != [] ==> |r| >= |Entry(docs[0])| && r[..|Entry(docs[0])|] == Entry(docs[0])
    ensures |docs| >= 2 ==> r == Entry(docs[0]) + delimiter + FormatRetrievedText(docs[1..], delimiter)
  {
    assert docs != [] ==> Entries(docs)[1..] == Entries(docs[1..]);
    Join(delimiter, Entries(docs))
  }

  /** `format_retrieved_text` of the Streamlit copy: entries between lines of 8 `=`. */
  function StreamlitFormat(docs: seq<Chunk>): (r: string)
    ensures |docs| >= 2 ==> r == Entry(docs[0]) + StreamlitDelimiter + StreamlitFormat(docs[1..])
  {
    FormatRetrievedText(docs, StreamlitDelimiter)
  }

  /** `format_retrieved_text` of the command-line and backend copies: entries between lines of 9 `=`. */
  function ApiFormat(docs: seq<Chunk>): (r: string)
    ensures |docs| >= 2 ==> r == Entry(docs[0]) + ApiDelimiter + ApiFormat(docs[1..])
  {
    FormatRetrievedText(docs, ApiDelimiter)
  }

  /** Formatting two non-empty batches of chunks puts exactly one delimiter between them. */
  lemma FormatConcat(a: seq<Chunk>, b: seq<Chunk>, delimiter: string)
    requires a != [] && b != []
    ensures FormatRetrievedText(a + b, delimiter) ==
      FormatRetrievedText(a, delimiter) + delimiter + FormatRetrievedText(b, delimiter)
  {
    assert Entries(a + b) == Entries(a) + Entries(b);
    JoinConcat(delimiter, Entries(a), Entries(b));
  }
}
