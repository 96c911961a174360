# finance-rag: a verified model of the retrieval pipeline's deterministic core

finance-rag answers questions about a stock by retrieval-augmented
generation: it fetches recent news for a ticker, loads the articles, splits
them into chunks, embeds the chunks into a flat FAISS index, persists the
index and the chunk list as pickle files, and at question time retrieves the
nearest chunks and serialises them into the prompt of a language model. The
pipeline exists in three copies: the Streamlit application
(`streamlit/streamlitApp.py`, dated per-ticker cache files), the
command-line copy (`dev-api/full_llm.py`, undated files, company overview
fetched during the build) and the backend (`backend/index_builder.py` builds
from a feed sent by the frontend, `backend/call_llm.py` answers queries).

This project models, in Dafny, the parts of those files that are not
library calls:

- the build pipelines as early-return sequences of checks (ticker validation,
  cache check, news error, parse error, empty chunks), each as a
  specification function `BuildPlan` returning the reply and the ordered
  trace of outward effects (HTTP requests, URL loads, file writes), and as an
  imperative method that performs those effects on a `Host` (data directory
  plus effect trace) and is proved to match the plan;
- the dated cache file names and the cache check of the Streamlit copy, and
  the file-existence checks that start a query;
- the all-or-nothing article parser, the `{text, source}` mapping of the
  splitter's output, and the company-overview formatter (the JSON object is
  an ordered list of key/value pairs, so insertion order is kept);
- the retrieval post-filter (`i < len(chunks)`, Python negative indexing and
  `IndexError` included) as a comprehension and as the `for`/`append` loop,
  and `format_retrieved_text` with both delimiters (8 `=` in the Streamlit
  copy, 9 elsewhere);
- the word-paced streaming splitter `response_generator`, as a loop that
  returns the pieces it would yield.

Every external service is an oracle in `Pipeline.Services`: the news API
(its feed or its error dict), the OVERVIEW API, the URL loader (which
returns a list of documents or lets an exception escape; which URLs the
library skips on its own is left to it) and the text splitter. The day (`today`,
formatted `%Y-%m-%d`) and the listing file are parameters.

Files: `pystr.dfy` (Python string operations), `pipeline.dfy` (shared data
model and host), `ingest.dfy` (parsing, chunk mapping, overview),
`retrieval.dfy` (post-filter and serialiser), `streamlit_app.dfy`,
`full_llm.dfy`, `index_builder.dfy` (one module per source file with a build
pipeline).

## Model

| member | source | states |
|---|---|---|
| StreamlitApp.BuildPlan | streamlit/streamlitApp.py:129-173 | Nothing is contacted iff the upper-cased ticker is not listed or both of today's files exist; an unlisted ticker (every ticker when the listing file is missing) gives the invalid-ticker error before the cache check; a cache hit gives the "already built" message; the first request is for the upper-cased ticker's news; a news error and a parse error are returned unchanged, empty chunks give "No text available after splitting"; no file is written unless the build succeeds; on success the chunk file is written and then an index aligned with exactly those chunks, `num_vectors` is the chunk count (positive) and the message is "Index built for T"; the build succeeds exactly when the ticker is listed and not cached, the news and the load succeed and splitting gives at least one chunk, and then the whole outcome is fixed: the news request, the load, the chunk file holding exactly the split output, and the index built from it, with `num_vectors` the length of that output |
| StreamlitApp.EmptyNewsBuildsNothing | streamlit/streamlitApp.py:151-161 | An empty news feed is not checked: it reaches the loader with no URLs, and the build fails with nothing written whenever the loader then yields no chunk (raises, or returns documents the splitter turns into none) |
| StreamlitApp.NewsRequestSendsUpperTicker | streamlit/streamlitApp.py:47 | The second upper-casing inside `get_stock_news` sends the same ticker the plan's news request records |
| StreamlitApp.BuildStockIndex | streamlit/streamlitApp.py:129-173 | Performing the steps one at a time returns the plan's reply, appends exactly the plan's effects to the trace and leaves the data directory as those effects make it |
| StreamlitApp.BuildThenCached | streamlit/streamlitApp.py:147-173 | After a successful build both of today's files exist, the chunk file holds `num_vectors` chunks and the index file an index aligned with them, and building the same ticker again that day returns the cached message and contacts nothing |
| StreamlitApp.ValidTickerIff | streamlit/streamlitApp.py:134-144 | A ticker passes validation iff the listing file exists, has a `symbol` column and some symbol in it upper-cases to the upper-cased ticker |
| StreamlitApp.FilenamesNeverCollide | streamlit/streamlitApp.py:28-34 | An index file name is never a chunk file name, for any tickers and days |
| StreamlitApp.FilenameDeterminesTicker | streamlit/streamlitApp.py:28-34 | On one day, equal index (or chunk) file names mean equal tickers |
| StreamlitApp.FilenameDeterminesDay | streamlit/streamlitApp.py:28-37 | For one ticker, equal file names mean equal days, so a previous day's files never count as today's cache |
| StreamlitApp.QueryPrecheck | streamlit/streamlitApp.py:192-200 | A query proceeds, with today's two files of the upper-cased ticker and `k = 10`, iff both files exist; otherwise the error is "No index found for T today. Please build the index first." |
| StreamlitApp.BuildThenQueryProceeds | streamlit/streamlitApp.py:192-200 | After a successful build a query for the same ticker on the same day passes the existence check |
| StreamlitApp.ResponseGenerator | streamlit/streamlitApp.py:308-328 | The pieces concatenate to the input; they are empty iff the input is; every piece is non-empty, every piece but the last ends in a space or newline, and no piece has a space or newline before its last character |
| StreamlitApp.WellCutUnique | streamlit/streamlitApp.py:313-328 | Those properties determine the pieces: two cuts of the same text with them are equal, so the generator's output is the only one possible |
| FullLlm.BuildPlan | dev-api/full_llm.py:102-133 | The overview and then the upper-cased ticker's news are requested first; a news error stops the build before parsing and a parse error before splitting, both returned unchanged; empty chunks give "No text available after splitting"; nothing is written unless the build succeeds; on success `data/chunks.pkl` is written and then `data/faiss_store.pkl` with an aligned index and the same chunks, `num_vectors` is the chunk count and the formatted overview is included; the build succeeds exactly when the news and the load succeed and splitting gives at least one chunk, and then the effects are exactly overview request, news request, load, the split output to `data/chunks.pkl` and the index built from it with that output to `data/faiss_store.pkl` |
| FullLlm.EmptyNewsBuildsNothing | dev-api/full_llm.py:108-120 | An empty news feed is not checked: it reaches the loader with no URLs, and the build fails with nothing written whenever the loader then yields no chunk |
| FullLlm.BuildStockIndex | dev-api/full_llm.py:102-133 | Performing the steps one at a time returns the plan's reply, appends exactly the plan's effects to the trace and leaves the data directory as those effects make it |
| FullLlm.QueryPrecheck | dev-api/full_llm.py:169-171 | A query proceeds, with `k = 3`, iff both files exist; otherwise the error is "FAISS index or processed chunks not found. Please build index first." |
| FullLlm.BuildThenQueryProceeds | dev-api/full_llm.py:122-171 | After a successful build the query check passes, the chunk file holds `num_vectors` chunks and the index file an aligned index with the same chunks |
| IndexBuilder.BuildPlan | backend/index_builder.py:68-101 | An empty feed, and only an empty feed, gives "No feed provided" with nothing loaded or written; otherwise the URLs are loaded first; a parse error is returned unchanged with nothing written; empty chunks give the split error with nothing written; on success `data/chunks.pkl` is written before `data/faiss_store.pkl` with an aligned index, `num_vectors` is the chunk count, and the message is "Index built for T" for a non-empty ticker and "Index built" otherwise; the build succeeds exactly when the feed is non-empty, the load succeeds and splitting gives at least one chunk, and then the effects are exactly the load, the split output to `data/chunks.pkl` and the index built from it to `data/faiss_store.pkl` |
| IndexBuilder.BuildStockIndexFromFeed | backend/index_builder.py:68-101 | Performing the steps one at a time returns the plan's reply, appends exactly the plan's effects to the trace and leaves the data directory as those effects make it |
| IndexBuilder.BuildPersistsAlignedPair | backend/index_builder.py:87-97 | After a successful build `data/chunks.pkl` holds `num_vectors` chunks and `data/faiss_store.pkl` an index aligned with them |
| Ingest.Urls | backend/index_builder.py:23 | One URL per feed item, in feed order |
| Ingest.ParseArticles | backend/index_builder.py:17-31 | All or nothing with respect to an exception escaping `load()`: the documents iff the loader returns, and then exactly its documents; otherwise one error "Failed to parse articles: " followed by the loader's message (the same parser is at dev-api/full_llm.py:59-68 and streamlit/streamlitApp.py:76-86) |
| Ingest.ToChunks | backend/index_builder.py:41-52 | One `{text, source}` per splitter chunk, in the same order; `text` is the page content and `source` the metadata's `source`, or "Unknown" when it is missing (the same mapping is at dev-api/full_llm.py:79-82 and streamlit/streamlitApp.py:89-106) |
| Ingest.FeedChunks | backend/index_builder.py:78-85 | The chunks of a feed exist iff the loader returns, and are then the mapping of the splitter's output on the loaded documents |
| Ingest.ToChunksConcat | backend/index_builder.py:44-50 | Mapping preserves order across documents: the chunks of a concatenation are the concatenated chunks |
| Ingest.FormatOverview | dev-api/full_llm.py:33-38 | Without `Symbol` the result starts with "Error fetching company overview: " (followed by the object's repr); the same formatter is at backend/call_llm.py:28-33 and streamlit/streamlitApp.py:64-71 |
| Ingest.OverviewLinesRoundTrip | backend/call_llm.py:28-33 | With `Symbol` present and no newline in keys or values, the overview splits on newlines into exactly one "key: val" line per key, in the object's order |
| Ingest.OverviewNoTrailingNewline | backend/call_llm.py:31-33 | With `Symbol` present the overview ends without a newline unless the last value does |
| Retrieval.SelectChunks | streamlit/streamlitApp.py:178-183 | It raises `IndexError` iff some hit is below `-len(chunks)`; otherwise it is the chunk at each hit passing `i < len(chunks)`, in search order, counted from the end for a negative hit; never more entries than hits (at most 10 for `k = 10`) and every entry a stored chunk |
| Retrieval.CollectChunks | dev-api/full_llm.py:146-154 | The `for`/`append` loop copies exactly `text` and `source` of each kept chunk and computes what the comprehension computes (the same loop is at backend/call_llm.py:46-54) |
| Retrieval.SentinelsSelectLastChunk | backend/call_llm.py:44-54 | With fewer chunks than requested neighbours, the search's `-1` fillers pass `i < len` and each selects the last chunk, so the result has `k` entries |
| Retrieval.SelectInRange | streamlit/streamlitApp.py:183 | The intended filter keeps only ids in `0 <= i < len(chunks)`; at most one entry per hit, each a stored chunk |
| Retrieval.InRangeRetrievesMinKN | streamlit/streamlitApp.py:178-183 | With the intended filter a search for `k` over `n` chunks retrieves exactly `min(k, n)` chunks, at the returned ids, best first |
| Retrieval.FormatRetrievedText | streamlit/streamlitApp.py:186-189 | The entries "Content: text\nSource: source" joined by the delimiter: an empty list gives "", one chunk gives its entry alone, and the result starts with the first entry; the command-line and backend copies (dev-api/full_llm.py:157-163, backend/call_llm.py:57-63) use the 9-`=` delimiter; a list of two or more is its first entry, the delimiter, and the serialisation of the rest |
| Retrieval.StreamlitFormat | streamlit/streamlitApp.py:186-189 | The Streamlit serialiser separates consecutive entries by a line of 8 `=` |
| Retrieval.ApiFormat | backend/call_llm.py:57-63 | The backend and command-line serialiser (also dev-api/full_llm.py:157-163) separates consecutive entries by a line of 9 `=` |
| Retrieval.FormatConcat | streamlit/streamlitApp.py:187-189 | Serialising two non-empty batches puts exactly one delimiter between their serialisations |
| Pipeline.BuildIndex | backend/index_builder.py:54-66 | The index has one row per chunk, row `i` embedded from chunk `i`'s text |
| Pipeline.PersistedPair | backend/index_builder.py:88-97 | When the only writes are the chunk write followed by the index write, the two files afterwards hold those chunks and an index aligned with them |
| Pipeline.Host.constructor | backend/index_builder.py:88 | A host starts with the given data directory and an empty trace |
| Pipeline.Host.Perform | backend/index_builder.py:89-90 | One interaction joins the trace; a write replaces the file at its path and changes nothing else |
| PyStr.UpperIdempotent | streamlit/streamlitApp.py:130 | Upper-casing an upper-cased ticker changes nothing |

## Left out

- Embedding, L2 normalisation and the FAISS search: floating point in a foreign library. An index is represented by the texts it embedded, and a search answer is a sequence of integer ids (`Retrieval.FlatSearchAnswer` describes a flat index's answer).
- The URL loader and the recursive character text splitter: library code, modelled as the oracles `Services.load` and `Services.split`.
- `get_stock_news` and the HTTP calls to Alpha Vantage and OpenRouter: network I/O; the news call is the oracle `Services.news` (a feed or its error dict), the overview call the oracle `Services.overview`. The language-model call and its prompt text are not modelled.
- Pickle serialisation and `os.makedirs`: a write is an effect that replaces one entry of the data directory; file contents are the values written.
- The query after its existence check (loading the pickles, building the prompt): the model stops at `QueryStart.Proceed`; the retrieval filter and serialiser that follow are modelled on their own.
- `query_llm_with_retrieval` in `backend/call_llm.py`: its existence check is commented out (lines 70-71), so there is no check to model.
- The `time.sleep` pacing of `response_generator`: timing only; the generator becomes the sequence of pieces it yields.
- Streamlit UI and session state, the frontend, `backend/main.py`, `backend/server.py`, `backend/models.py` and `backend/test.py`: UI, HTTP glue and declarations.
- `print` calls: console output with no effect on the result.
- Ingest.FormatOverview: the error text uses a simplified `repr` of the object (single-quoted strings, no escaping, string values only); only its prefix is stated in the contract.
- PyStr.Upper: `str.upper()` is modelled for ASCII letters only; other characters are left unchanged.
- StreamlitApp.BuildPlan: the listing file is given as its parsed columns; CSV parsing, `NaN` entries and a `symbol` column of non-strings are not modelled.
- The `"error" in news` and `"error" in parsed_docs` tests are modelled as the error case of a result; a successful feed that itself contains the string `"error"` is not modelled.
- StreamlitApp.BuildPlan: one clock reading per build is assumed (the parameter `today`). The source reads the clock anew in every file-name call, for the cache check and for each of the two writes, with the slow index build between the writes; a build that crosses midnight writes `chunks_T_D.pkl` and `faiss_T_D+1.pkl`, so neither day counts as cached afterwards. `BuildThenCached` and `BuildThenQueryProceeds` hold only under the single-reading assumption.
- The oracles are taken never to raise: an exception from `requests.get` or `response.json()` in the news and overview calls (including the overview fetch that starts the command-line build), from `build_index` after the chunk file is written, or from `article["url"]` outside the `try` in `parse_articles`, is not modelled. In the source an exception in `build_index` leaves the new chunk file beside an older index file; the command-line copy's query check accepts that misaligned pair and the backend loads it unchecked, which the build lemmas (which speak only of completed builds) do not cover.
- StreamlitApp.EmptyNewsBuildsNothing, FullLlm.EmptyNewsBuildsNothing: the two copies that fetch their own news have no empty-feed check, so "zero news items gives an error and writes nothing" rests on what the URL loader and the splitter do with no URLs, which the model does not constrain; the lemmas state it under that assumption.
- Concurrent builds and other processes changing the data directory: not modelled.

## Findings

| source | as written | input that shows it | evidently intended | confidence | as-written member | corrected member |
|---|---|---|---|---|---|---|
| streamlit/streamlitApp.py:183 (same test at dev-api/full_llm.py:148 and backend/call_llm.py:48) | `i < len(processed_chunks)` only bounds ids from above; FAISS fills missing neighbours with `-1`, which passes and, by negative indexing, selects the last chunk | 3 chunks, search for `k = 10`: ids `[a, b, c, -1, -1, -1, -1, -1, -1, -1]` give 10 entries, the last 7 all the last chunk | drop out-of-range ids, keeping exactly `min(k, n)` chunks | not executed | Retrieval.SentinelsSelectLastChunk | Retrieval.InRangeRetrievesMinKN |

The comments beside the test (`# Ensure index is within range`,
dev-api/full_llm.py:148 and backend/call_llm.py:48) say it is meant to keep
ids within range; the code does not drop the sentinels, and the model follows the code (`SelectChunks`, `CollectChunks`). The
corrected filter `SelectInRange` is given beside it.
