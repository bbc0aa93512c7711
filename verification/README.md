# secfeed core, modelled in Dafny

secfeed polls security-news RSS feeds, keeps the items newer than a per-feed
watermark, refetches their pages, scores each article against configured
topic categories (by asking an LLM, or by cosine similarity of embeddings),
and renders the survivors as Markdown or Slack mrkdwn. This project models
the sequential core of that pipeline and proves what it promises:

- **Feed collection** (`Feed`): watermark seeding, the per-feed filter, the
  watermark update, the description clean-up before the page refetch, and
  the poll over all feeds.
- **Request shaping** (`Embeddings`, `LlmClient`, `Usage`): the rune
  sliding-window splitter, (weighted) averaging of vectors, one vector per
  text, the summary length guard, category prompt numbering, and per-model
  token accounting.
- **Classification** (`Classification`, `Similarity`, `Vectors`): engine
  dispatch, inclusive order-preserving threshold filtering, relevance =
  similarity × 10, and the −1 sentinel of `cosineSimilarity`.
- **Provider clients** (`OpenAi`, `Ollama`, `Chat`): message lists, request
  flags, response validation, and lazily created token entries.
- **Article rendering** (`Types`): `String`, `FormatAsMarkdown` and
  `FormatAsSlackMrkdwn`, including the `"- "`/`"**"` rewrite of the summary.

Shared building blocks:

- `Wrappers`: `Option`, `Result`, and `%w` error wrapping.
- `GoStrings`: Go's byte-counting `len`, `%d`, `%v` of a `[]string`, and
  `strings.ReplaceAll`.
- `Seqs`: the single order-preserving filter.

Conventions:

- A Dafny `string` holds the runes of a Go string. Go's `len` is the UTF-8
  byte count, modelled exactly as `GoStrings.Utf8Len`.
- Timestamps are Unix seconds. A watermark missing from the map reads as Go's
  zero time, −62135596800.
- Relevances, thresholds and vector components are `real`.
- Everything outside the core is a parameter (the two classification engine
  names are the one exception; see Left out):
  - the feed parser, the fallback date layout, and the page refetch with
    readability extraction;
  - chat and embedding endpoints, JSON decoding, and the Ollama HTTP
    exchange;
  - map iteration order, and the float square-root/division step of the
    cosine;
  - `%.1f` formatting and the fixed prompt texts.

Facts about the code that a reader might not expect:

- The watermark moves to the *first* kept article's timestamp. The comment at
  pkg/feed/feed.go:130 assumes the feed is sorted by date.
  `Feed.NoRedeliveryWhenNewestFirst` shows that a feed listed newest first is
  never re-delivered. `Feed.RedeliveryWhenOldestFirst` shows a feed listed
  oldest first that is re-delivered.
- The enricher compares nothing between content and description. It always
  attempts the refetch.
- `collect` aborts the whole poll on the first failing feed. By then, the
  feeds before it have already moved their watermarks. That contradicts the
  comment at pkg/feed/feed.go:36, which says no article may be missed.
  `Feed.CollectIsolated` keeps that promise; see Findings.
- `similarity.go` compares a float32 relevance with an `int` threshold, which
  Go would not compile. It is modelled as comparing against the threshold
  converted to a real.

## Model

| member | source | states |
|---|---|---|
| `Feed.New` | pkg/feed/feed.go:40-55 | The watermark map has exactly one key per configured URL, and each maps to now − initPull. |
| `Feed.CleanUp` | pkg/feed/feed.go:175-183 | An empty description takes the content. A description over 1000 bytes is cleared, otherwise it is kept. Only the description changes, and it never exceeds 1000 bytes. |
| `Feed.Enrich` | pkg/feed/feed.go:174-215 | The refetch always follows the clean-up. A failed fetch returns the cleaned article and no error. A bad URL or failed extraction returns it with an error. Only a non-empty extraction replaces the content. |
| `Feed.EnrichedArticle` | pkg/feed/feed.go:95-123 | A kept article carries its item's title, link, categories and resolved date, whether or not enrichment failed. Its description is the cleaned one, so at most 1000 bytes, and a usable item description is kept. Its content is the extracted text when the refetch produced a page, else the item's own content. |
| `Feed.CollectedArticles` | pkg/feed/feed.go:91-127 | Every collected article is strictly newer than the watermark, and its description is at most 1000 bytes. |
| `Feed.CollectFeed` | pkg/feed/feed.go:80-140 | A parser error is wrapped and leaves the watermarks unchanged. Returned articles are strictly after the watermark and have descriptions of at most 1000 bytes. A non-empty result moves the feed's watermark to articles[0] (a strict increase); an empty result leaves it. Other feeds' watermarks are untouched. |
| `Feed.CollectFeedKeepsFreshInOrder` | pkg/feed/feed.go:91-127 | There is one article per fresh item, in feed order: the fresh items are a subsequence of the feed, and every fresh item is kept. Article k is fresh item k's `EnrichedArticle`, carrying its date, title and link. |
| `Feed.UndatedOrStaleItemSkipped` | pkg/feed/feed.go:102-115 | An item whose date resolves neither way, or is at or before the watermark, is never kept. |
| `Feed.FirstFreshIsNewest` | pkg/feed/feed.go:129-133 | For a newest-first feed, the first fresh item, whose date becomes the watermark, carries the largest date of every dated item. |
| `Feed.NoRedeliveryWhenNewestFirst` | pkg/feed/feed.go:129-133 | For a newest-first feed, the new watermark is at least every kept timestamp, and an immediate re-poll returns nothing. |
| `Feed.NothingFreshAfterNewest` | pkg/feed/feed.go:115 | Against a watermark at or after every item's date, no item is fresh. |
| `Feed.RedeliveryWhenOldestFirst` | pkg/feed/feed.go:129-133 | For an oldest-first feed, the watermark stops at the first item, and the newer item is returned again on the next poll. |
| `Feed.WatermarkMonotoneAcrossPolls` | pkg/feed/feed.go:115-132 | Over any sequence of polls of one feed, its watermark never decreases and other feeds keep theirs. |
| `Feed.Collect` | pkg/feed/feed.go:65-78 | The poll fails iff some feed's parse fails. Watermarks never decrease, and URLs of no configured feed are untouched. |
| `Feed.CollectStep` | pkg/feed/feed.go:65-78 | One poll step: the first feed's error is wrapped and ends the poll; otherwise the rest is polled from the watermarks it left, and a later error is the poll's. |
| `Feed.CollectOne` | pkg/feed/feed.go:65-78 | Polling one feed gives its `collectFeed` articles and watermarks, an error wrapped once more. |
| `Feed.CollectAppend` | pkg/feed/feed.go:65-78 | Polling a + b is polling a, then b from the watermarks a left. On success the articles of a come first, then those of b; an error in a ends the poll there. With `CollectOne` this makes the result the concatenation of the per-feed results in feed order. |
| `Feed.CollectOnlyFresh` | pkg/feed/feed.go:65-78 | Every article of a successful poll is strictly newer than the prior watermark of some polled feed, and has a description of at most 1000 bytes. |
| `Feed.CollectIsolatedAgreesWhenAllParse` | pkg/feed/feed.go:65-78 | When every feed parses, the poll as written and the corrected poll return the same articles and watermarks. |
| `Feed.CollectIsolated` | pkg/feed/feed.go:65-78 | The corrected poll always succeeds. A watermark moves only to the timestamp of an article it returns. |
| `Feed.CollectLosesEarlierFeeds` | pkg/feed/feed.go:68-72 | As written, a failing second feed discards the first feed's new article after its watermark has passed it, so a re-poll misses it too. The corrected poll delivers it. |
| `Types.ContentSnippet` | pkg/types/types.go:23 | The snippet is the first min(100, len(Content)) content bytes, so it never goes out of range. |
| `Types.ArticleString` | pkg/types/types.go:22-25 | The header comes first, followed by min(100, len) bytes that are a prefix of the content's bytes. The rendering of `Published` is an input. |
| `Types.BlocksAppend` | pkg/types/types.go:35-37 | Rendering the debug blocks of two lists is rendering each in turn. |
| `Types.BlocksInOrder` | pkg/types/types.go:55-57 | The block of relevance i follows exactly the blocks of the entries before it. |
| `Types.FormatAsMarkdown` | pkg/types/types.go:27-42 | Without debug info, exactly "# T\n\nS\n\nRead more [here](L)". With it, that text is followed by the debug header (the byte lengths of description and content) and a section that ends with "\n\n---\n\n". |
| `Types.MarkdownBlocksInOrder` | pkg/types/types.go:35-37 | In the debug section, relevance i's block comes right after the length header and the blocks of the relevances before it. |
| `Types.SlackText` | pkg/types/types.go:48-61 | Without debug info, exactly the head: the bold title, a blank line, the rewritten summary, a blank line, and the "Read more" link to the article. With it, the head is followed by the debug header (the byte lengths of description and content) and a section that ends with "\n---\n". The title appears verbatim after the first "*". |
| `Types.FormatAsSlackMrkdwn` | pkg/types/types.go:44-62 | Rendered with the corrected bullet U+2022, not the literal at line 45. Without debug info, exactly the bold title, the rewritten summary and the "Read more" link, separated by blank lines: only the summary is rewritten, and it contains no "- ". With it, the head, then the debug header, then a section ending in "\n---\n". |
| `Types.SlackBlocksInOrder` | pkg/types/types.go:57-59 | In the Slack debug section, relevance i's block comes right after the length header and the blocks of the relevances before it, for either bullet. |
| `Types.FormatAsSlackMrkdwnAsWritten` | pkg/types/types.go:44-62 | With the source's literal bullet: without debug info, exactly the head with the title in bold, the rewritten summary and the link; with it, the head, the debug header and a closing "\n---\n". No "- " survives the rewrite. |
| `Types.SlackSummaryPassThrough` | pkg/types/types.go:45-46 | A summary with neither '-' nor '*' passes through unchanged. |
| `Types.SlackBulletGarbled` | pkg/types/types.go:45 | As written, a list item reaches Slack starting with the three runes U+00E2 U+20AC U+00A2. |
| `Types.SlackBulletRendered` | pkg/types/types.go:45 | With the intended literal, a list item reaches Slack starting with U+2022 and a blank. |
| `GoStrings.ReplaceDashBlankRemovesAll` | pkg/types/types.go:45 | Replacing every "- " by a dash-free text that ends in a blank leaves no "- ". |
| `GoStrings.CollapseStarsKeepsNoDashBlank` | pkg/types/types.go:46 | Collapsing "**" into "*" creates no "- ". |
| `GoStrings.ReplaceAllAbsent` | pkg/types/types.go:45-46 | A string without the pattern's first rune is left unchanged by `strings.ReplaceAll`. |
| `GoStrings.ReplaceAllSkip` | pkg/types/types.go:45-46 | A prefix free of the pattern's first rune is copied through unchanged. |
| `GoStrings.ReplaceAllHead` | pkg/types/types.go:45-46 | The first rune of the result is the replacement's when the pattern starts the text, else the text's own. |
| `GoStrings.NatToString` | pkg/types/types.go:33-34 | `%d` of a non-negative integer gives decimal digits with no leading zero. |
| `GoStrings.DecimalRoundTrip` | pkg/llm/client.go:218 | Parsing the `%d` text of a number gives the number back. |
| `GoStrings.FormatStringSlice` | pkg/types/types.go:24 | `%v` of a []string is bracketed. It is "[]" when empty and "[x]" for one element. |
| `GoStrings.JoinSpaceSnoc` | pkg/types/types.go:24 | Joining xs + [x] with blanks is joining xs, then a blank, then x. |
| `GoStrings.FormatStringSliceSnoc` | pkg/types/types.go:24 | Appending an element inserts a blank and the element before the closing bracket. With the one-element case, this fixes `%v` of every slice. |
| `GoStrings.Utf8Append` | pkg/llm/client.go:149-151 | Byte length is additive over concatenation. |
| `GoStrings.Utf8LenBounds` | pkg/llm/client.go:299-307 | A text has between one and four bytes per rune. |
| `GoStrings.AsciiUtf8Len` | pkg/types/types.go:23 | On ASCII text, bytes and runes coincide. |
| `Seqs.Filter` | pkg/classification/classification.go:69-76 | The order-preserving filter: an element is kept iff it passes, the count of kept elements equals the count of passing ones, and order is kept. |
| `Seqs.FilterAllOrNothing` | pkg/classification/classification.go:69-76 | A filter that keeps everything is the identity, and one that keeps nothing is empty. |
| `Seqs.FilterAppend` | pkg/classification/classification.go:70-74 | Filtering distributes over concatenation. |
| `Seqs.FilterHead` | pkg/feed/feed.go:129-132 | The first kept element is the first passing element, and nothing before it passes. |
| `Embeddings.ChunkText` | pkg/llm/client.go:370-385 | Chunk k is exactly runes[k·step .. min(k·step + size, n)], each chunk starts inside the text, and the count is the least that reaches n. |
| `Embeddings.Chunks` | pkg/llm/client.go:370-385 | A closed-form list of ⌈n / step⌉ windows satisfies the same chunking description. |
| `Embeddings.WindowAt` | pkg/llm/client.go:376-380 | Window k starts inside the text and is the slice [k·step, min(k·step + size, n)). |
| `Embeddings.Windows` | pkg/llm/client.go:376-383 | The first q windows, in order, each starting inside the text. |
| `Embeddings.WindowCount` | pkg/llm/client.go:375-383 | ⌈n / step⌉ windows are exactly enough: the last starts before n, and one more would not. |
| `Embeddings.WindowCountUnique` | pkg/llm/client.go:375-383 | The number of windows is determined by n and the stride. |
| `Embeddings.ChunkingUnique` | pkg/llm/client.go:370-385 | The chunking of a text is unique, so the loop and the closed form agree. |
| `Embeddings.ChunkBounds` | pkg/llm/client.go:376-380 | Every chunk has at most chunkSize runes, and is non-empty when chunkSize > 0. |
| `Embeddings.ChunksCoverEveryRune` | pkg/llm/client.go:374-384 | With non-negative overlap, every rune lies in some chunk. |
| `Embeddings.ChunkEnds` | pkg/llm/client.go:374-384 | Empty text gives no chunks. Otherwise the first chunk starts at rune 0 and the last ends at n. |
| `Embeddings.ShortTextSingleChunk` | pkg/llm/client.go:375-383 | A non-empty text no longer than one stride is one chunk: the text itself. |
| `Embeddings.AverageEmbeddings` | pkg/llm/client.go:389-412 | No vectors, or a length differing from the first, is an error. Otherwise the result is the component-wise mean. |
| `Embeddings.Mean` | pkg/llm/client.go:394-409 | The mean has the first vector's dimension. |
| `Embeddings.MeanOfOne` | pkg/llm/client.go:389-412 | Averaging a single vector returns it. |
| `Embeddings.WeightedAverageEmbeddings` | pkg/llm/client.go:416-449 | Errors are checked in order: no vectors, weight-count mismatch, inconsistent dimension, zero total weight. Otherwise the result is Σ wᵢ·eᵢ / Σ wᵢ. |
| `Embeddings.WeightedMean` | pkg/llm/client.go:444-446 | The weighted mean has the first vector's dimension. |
| `Embeddings.UniformTotal` | pkg/llm/client.go:433 | Equal weights c sum to c·n. |
| `Embeddings.UniformColumn` | pkg/llm/client.go:435 | Under equal weights c, each weighted column sum is c times the plain one. |
| `Embeddings.UniformColumnMean` | pkg/llm/client.go:416-449 | One component: with equal non-zero weights the total weight is non-zero and the weighted column average equals the plain one. |
| `Embeddings.UniformWeightsGiveMean` | pkg/llm/client.go:416-449 | Equal non-zero weights reduce the weighted average to the plain mean. |
| `Usage.AddMonotone` | pkg/llm/client.go:72-75 | Adding non-negative usage never decreases a count. |
| `Usage.AddLaws` | pkg/llm/openai/client.go:73-76 | Component-wise addition: zero is neutral, and addition is associative and commutative. |
| `Usage.Update` | pkg/llm/openai/client.go:172-181 | An unseen model gets a zeroed entry and then the usage added. The model's total grows by exactly the usage, and other entries are unchanged. |
| `Usage.UpdateAccumulates` | pkg/llm/openai/client.go:172-181 | Two updates of a model equal one update with their sum. |
| `Chat.BuildMessages` | pkg/llm/openai/client.go:101-113 | There is a system message iff the system text is non-empty, and a user message iff the user text is; system comes first and no message is empty. |
| `Chat.EmbeddingResult` | pkg/llm/openai/client.go:150-159 | The call succeeds iff the endpoint answered with one vector per text, returned in response order. A count mismatch is an error. |
| `LlmClient.NewClient` | pkg/llm/client.go:85-102 | An empty OPENAI_API_KEY is an error. Otherwise the client tracks exactly the four models. |
| `LlmClient.NewClientStartsAtZero` | pkg/llm/client.go:93-100 | A fresh client has used no tokens on any model. |
| `LlmClient.Charge` | pkg/llm/client.go:248-251 | Usage is added to one model only. |
| `LlmClient.Summarize` | pkg/llm/client.go:147-198 | Input over 2000 bytes is refused without a call. Otherwise the result succeeds iff the endpoint completes, and it is its text. Only success is charged, to the summary model. |
| `LlmClient.LongContentRefused` | pkg/llm/client.go:149-153 | Content over 2000 bytes is refused whatever the endpoint would answer. |
| `LlmClient.NumberedConcat` | pkg/llm/client.go:217-219 | Numbering continues across concatenated category lists. |
| `LlmClient.NumberedNext` | pkg/llm/client.go:217-219 | Listing one more category appends exactly its line, numbered after the ones before it. |
| `LlmClient.CategoryListedInOrder` | pkg/llm/client.go:217-219 | Category k is listed as "k+1. Name: Description\n", right after the lines of the categories before it. |
| `LlmClient.CategoryPrompt` | pkg/llm/client.go:201-219 | The system prompt is the preamble followed by the categories numbered from 1 in input order. |
| `LlmClient.CategoryMatching` | pkg/llm/client.go:200-261 | A failed call is wrapped and not charged. A completed call is charged to the classification model even when decoding then fails, with the decode error wrapped. |
| `LlmClient.CallEmbeddingApi` | pkg/llm/client.go:264-290 | The endpoint error passes through uncharged. An answer is charged (prompt tokens) before the count check, and success gives one vector per text. |
| `LlmClient.ChunksFitEmbeddingLimit` | pkg/llm/client.go:299-307 | Every 1000-rune window of a long text is within the 8000-byte limit. |
| `LlmClient.EmbedText` | pkg/llm/client.go:297-319 | One text: the result is exactly `EmbedOne`, a direct call for at most 8000 bytes, chunk-then-average above. The embedding model's prompt count grows by exactly the prompt tokens the endpoint reports for the one call, and by nothing when the call fails. Its completion count, the other models and the key are kept. |
| `LlmClient.Embedding` | pkg/llm/client.go:295-323 | Success iff every text embeds, giving one vector per text in input order. Texts of at most 8000 bytes go whole, longer ones by chunk-then-average. On an error, some text i is the first to fail, the error is its own, and the embedding model's prompt count grew by the summed prompt tokens of texts 0..i, the failing one included. On success it grew by the sum over all texts. The completion count, the other models and the key are kept. |
| `Vectors.DotSymmetric` | pkg/classification/classification.go:116-121 | The accumulated dot product is symmetric. |
| `Vectors.SquaredNormNonNegative` | pkg/classification/classification.go:119-120 | The accumulated squared norms are non-negative. |
| `Vectors.CosineSimilarity` | pkg/classification/classification.go:111-123 | Exactly −1 when lengths differ. Otherwise the measure applied to the dot product and the two squared norms, which are non-negative. |
| `Vectors.CosineSymmetric` | pkg/similarity/similarity.go:98-110 | The identical copy in similarity is symmetric in its vectors when the measure is symmetric in the norms. |
| `Classification.New` | pkg/classification/classification.go:25-44 | Only the embeddings engine encodes categories, and an encoding failure aborts construction. Other engines start with an empty cache. |
| `Classification.ClassifyWithLlm` | pkg/classification/classification.go:56-77 | A client error is wrapped with nothing returned. Otherwise exactly the matches with relevance ≥ threshold, unmodified and in order. |
| `Classification.LlmThresholdExtremes` | pkg/classification/classification.go:69-76 | A threshold at or below every score keeps all matches; one above every score keeps none. |
| `Classification.EmbeddingMatches` | pkg/classification/classification.go:86-104 | Each visited category is emitted iff sim × 10 ≥ threshold, with that relevance and an empty explanation. No name is emitted twice. |
| `Classification.ClassifyWithEmbeddings` | pkg/classification/classification.go:79-107 | An article-encoding error is wrapped with nothing returned. Otherwise exactly the cached categories reaching the threshold, each once, each a cache key. |
| `Classification.MismatchedCategoryNeverMatches` | pkg/classification/classification.go:111-115 | A cached vector of the wrong length scores −10 and is never emitted above that threshold. |
| `Classification.Classify` | pkg/classification/classification.go:46-54 | "llm" and "embeddings" dispatch to their engines. Any other engine is an error naming it. |
| `Similarity.New` | pkg/similarity/similarity.go:23-49 | The categories and threshold are stored; nothing is called, so it cannot fail. |
| `Similarity.CheckSimilarity` | pkg/similarity/similarity.go:51-65 | A client error is wrapped with nothing returned. Otherwise exactly the matches with relevance ≥ threshold, in order, each as often as in the input. |
| `Similarity.AgreesWithLlmEngine` | pkg/similarity/similarity.go:57-64 | At the same threshold, the older engine returns what the LLM engine returns. |
| `OpenAi.NewClient` | pkg/llm/openai/client.go:86-98 | An empty key is an error. Otherwise the token map is empty, so no model has been charged. |
| `OpenAi.UpdateTokenUsed` | pkg/llm/openai/client.go:172-181 | The model's entry is created if missing, and grows by exactly the usage; others are unchanged. |
| `OpenAi.ChatCompletion` | pkg/llm/openai/client.go:100-134 | Failure is wrapped and uncharged. Completion returns the text and charges the named model. |
| `OpenAi.ChatMessagesAreTheNonEmptyTexts` | pkg/llm/openai/client.go:101-113 | The messages are exactly the non-empty texts, system before user. |
| `OpenAi.JsonFormatIgnored` | pkg/llm/openai/client.go:115-125 | The JSON-format flag changes neither the request nor the outcome. |
| `OpenAi.CreateEmbeddings` | pkg/llm/openai/client.go:136-160 | The endpoint error passes through uncharged. An answer is charged before the count check. Success gives one vector per text, in response order. |
| `OpenAi.CountsNeverDecrease` | pkg/llm/openai/client.go:130-147 | With non-negative usage reports, no model's count goes down. |
| `Ollama.BaseUrl` | pkg/llm/ollama/client.go:31-34 | The environment value when set, else "http://localhost:11434". |
| `Ollama.Exchange` | pkg/llm/ollama/client.go:177-202 | Success iff the server answered 200 with a decodable body. A non-200 status is an error naming the status. |
| `Ollama.LoadModel` | pkg/llm/ollama/client.go:81-130 | Loading succeeds only on status 200 with done reason "load". The request has no messages and keep-alive 5. |
| `Ollama.NewClient` | pkg/llm/ollama/client.go:30-48 | Models load in order. The first failure aborts, and the error names that model. Success means every model loaded. |
| `Ollama.ChatRequestFor` | pkg/llm/ollama/client.go:136-170 | The request holds only the non-empty messages (system first), Stream false, KeepAlive 5, and Format "json" iff a schema is requested. |
| `Ollama.ChatCompletion` | pkg/llm/ollama/client.go:132-207 | The result succeeds iff the exchange returns 200 with a decodable body, and is the reply's content. A non-200 status is an error. |
| `Ollama.MaxTokensIgnored` | pkg/llm/ollama/client.go:132-159 | The token limit changes neither the request nor the outcome. |
| `Ollama.CreateEmbeddings` | pkg/llm/ollama/client.go:209-211 | It always fails with "not implemented" and returns no vectors. |

Members without a row are helpers whose meaning is stated by the rows that use them:
`GoStrings.ReplaceAll` (see `ReplaceAllAbsent`, `ReplaceAllSkip`, `ReplaceAllHead`),
`Vectors.Dot` (see `DotSymmetric`, `CosineSimilarity`), `Usage.TokenUsed.Add` (see
`AddLaws`, `AddMonotone`), the embedding steps `LlmClient.EmbedOne`, `EmbedInputs`,
`EmbedCharge`, `EmbedCharges`, `Spent`, `Charged`, `OthersKept`, `EmbedsPrefix`, `FirstFailure`,
`CallCharges`, `EmbedWhole`, `EmbedWindows`, `EmbedStep`, `FailureHere` and `ResultsExtend` (see
`EmbedText`, `Embedding`), `OpenAi.ChatRequestFor` (see `ChatMessagesAreTheNonEmptyTexts`),
and the layout lemmas `Types.MarkdownDebugShape`, `Types.SlackDebugShape`, `SlackHeadTitle`,
`SlackDebugLayout`, `SlackSeparatorOpensHeader` and `PrefixKeepsSlice` (see
`MarkdownBlocksInOrder`, `SlackText`, `SlackBlocksInOrder`).

## Left out

- Concurrency and scheduling: the ticker loop `fetchFeeds`/`Start`, the article channel, the consumer in `cmd/secfeed/main.go`, and signal handling. `Feed.PollRepeatedly` stands for the sequence of polls.
- HTTP page fetching and readability extraction. These are the `FetchOutcome` oracle. The fetch error texts are never surfaced, because a failed fetch returns no error.
- The Slack webhook POST, YAML configuration loading, cobra flags, the banner, logging and glamour rendering: I/O outside the core.
- Float32 arithmetic: rounding, the square root and division of `cosineSimilarity` (an oracle `measure`, so no [−1, 1] bound and no NaN for zero vectors), and `%.1f` formatting (an oracle `fmtRel`).
- `totalCost` and the price tables: float32 logging only.
- JSON encoding and decoding, `time.Parse`, and the go-openai and net/http calls. These are oracles. A struct marshal that cannot fail is not modelled.
- The fixed instruction texts of the summary and classification prompts. They are parameters (`instructions`, `preamble`); the numbered category lines and the article text are modelled exactly.
- `ExtractCategories` (pkg/llm/client.go:104-145): no caller in the core.
- `CategoryMatchingWithLLM`, `EncodeCategories` and `EncodeArticle`, called by classification, are not part of this model. Their results are inputs.
- `Types.ArticleString`: Go renders `Published` with `%s`, i.e. `time.Time.String` (date, clock with sub-second digits, offset and zone). That rendering is the input `publishedText`, not modelled.
- `LlmClient.SummaryRequest`: the text response format requested at pkg/llm/client.go:184 is not carried in the request. It selects plain text, the endpoint's default, and nothing downstream reads it (`OpenAi.JsonFormatIgnored` shows the same for the OpenAI client's JSON flag).
- Invalid UTF-8: strings are rune sequences. A byte snippet that cuts a rune is kept as bytes (`Types.ArticleString`).
- `GoStrings.ReplaceAll` requires a non-empty pattern. The empty-pattern behaviour of `strings.ReplaceAll` is never used here.
- `Embeddings.ChunkText` requires chunkSize > overlap and chunkSize ≥ 0 for non-empty text. Otherwise the Go loop never ends or slicing panics; the only caller passes 1000 and 200.
- `Embeddings.ChunkBounds`: a zero-size window is only bounded, not characterised further.
- A nil slice and an empty slice are the same here: nil messages in the Ollama load request, and the nil article list of `collect`.
- `Classification.ClassifyWithEmbeddings` takes the map iteration order as an input, a permutation of the cache keys. Its contract states membership and uniqueness, not an order, because Go's order is unspecified.
- `LlmClient.Summarize`: a chat response with an empty choice list is not modelled. Go indexes `Choices[0]` (pkg/llm/client.go:197) and panics, after the usage is already charged. The `ChatResponse` oracle always carries one content.
- `LlmClient.CategoryMatching`: the same empty choice list panics at pkg/llm/client.go:255 and is not modelled, for the same reason.
- `OpenAi.ChatCompletion`: the same empty choice list panics at pkg/llm/openai/client.go:133, after `updateTokenUsed`, and is not modelled.
- `Classification.Classify`: the engine names "llm" and "embeddings" stand for `config.ClassificationEngineTypeLLM` and `config.ClassificationEngineTypeEmbeddings`. Their declarations are in a part of pkg/config that is not part of this model; "llm" and "embeddings" are assumed values of those two constants. Every contract names them only as `EngineLlm` and `EngineEmbeddings`, and they are distinct.
- `LlmClient.Charge` uses the lazily creating update. The generic client only charges its four pre-created models, so the two agree.

## Findings

| source | as written | input that shows it | evidently intended | confidence | as-written member | corrected member |
|---|---|---|---|---|---|---|
| pkg/types/types.go:45 | The bullet literal is the UTF-8 of "•" mis-decoded as Windows-1252, i.e. the runes U+00E2 U+20AC U+00A2 and a blank | A summary line "- item" renders as "â€¢ item" in Slack | "• " (U+2022 and a blank) | high (not executed) | `Types.SlackBulletGarbled` | `Types.SlackBulletRendered` |
| pkg/feed/feed.go:68-72 | The first failing feed aborts the poll after earlier feeds' watermarks have already advanced, so their new articles are never delivered | Feed "ua" has an article at t=10, feed "ub" fails: the poll errors, the watermark of "ua" is 10, and a re-poll returns nothing | A failing feed is skipped and the others' articles are delivered, as the comment at pkg/feed/feed.go:36 (no article missed) requires | medium (not executed) | `Feed.CollectLosesEarlierFeeds` | `Feed.CollectIsolated` |
