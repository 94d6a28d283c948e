# Geothermal nodal RAG — a Dafny model of its deterministic core

The system answers questions about geothermal well reports. Its pipeline:

- Ingestion reads PDF pages, numbers them and collects well names such as `HAG-GT-01`.
- Preprocessing segments every page in three ways (section levels, tables, paragraphs, or the whole page). It then cuts each segment into overlapping word windows tagged with the entities they mention.
- A hybrid retriever fuses a semantic distance with a BM25 keyword score, filters by well name and keeps the best `top_k`.
- The application routes a query by mode:
  - Extraction queries get a trajectory table.
  - Other queries get a generated answer that a judge (single or ensemble) scores.
- A conversation memory keeps recent turns and facts per well.
- A fact checker flags numbers that stray more than 20 % from their group mean.

The model keeps what the code does with strings, lists, maps and numbers. Regular expressions, the vector store, BM25, the chat model, the clock, the PDF reader and number formatting enter as function parameters or as datatype inputs.

One Dafny module models each source file:

| module | models |
|---|---|
| `Preprocessing`, `Chunking`, `Driver` | `agents/preprocessing_agent.py` |
| `Retrieval` | `rag_retrieval_agent.py` |
| `EnsembleJudge` | `agents/ensemble_judge_agent.py` |
| `Judge` | `agents/judge_agent.py` |
| `Validation` | the claim, tag and issue logic both judges share |
| `Trajectory` | `agents/parameter_extraction_agent.py` |
| `Memory` | `agents/chat_memory.py` |
| `FactChecking` | `agents/fact_checking_agent.py` |
| `Ingestion` | `agents/ingestion_agent.py` |
| `App` | `app_working.py` |

The modules `Wrappers`, `Strings`, `Sorting` and `Metadata` model Python's `Option`-like results, `str` methods, the stable `list.sort`/`sorted` and metadata values.

Stateful objects are classes whose methods change their fields:

- `Memory.ChatMemory`
- `Retrieval.RagRetrievalAgent`
- `App.LogCapture`
- `App.DocumentStore`

Every loop of the modelled operations is a method with loop invariants, proved equal to a specification function. The lemmas state what the source promises about that function. The loop over strategies in `index_documents` of `app_working.py` (lines 87-90) is not modelled (see "Left out").

Two facts about the code that are easy to misread:

- For L ≥ 30 words, chunk size S ≥ 30 and overlap O < S, the number of chunks is ⌊(L−30)/(S−O)⌋+1, so a text of exactly 30 words gives one window. This is one more than ⌈(L−30)/(S−O)⌉ whenever S−O divides L−30 (`Chunking.ChunkCountClosedForm`, lines 310-350 of `agents/preprocessing_agent.py`).
- The TVD ≤ MD and MD < 5000 checks apply only to space-separated triples; pipe-table rows are kept without them (`Trajectory.HarvestMeaning`, lines 92-119 of `agents/parameter_extraction_agent.py`).

## Model

| member | source | states |
|---|---|---|
| Metadata.CleanMetadata | agents/preprocessing_agent.py:366-375 | the loop builds exactly the cleaned map |
| Metadata.CleanedShape | agents/preprocessing_agent.py:366-375 | the key set is kept; every value is a scalar; lists become their ", "-joined text, scalars pass unchanged, anything else becomes its text; cleaning twice changes nothing |
| Metadata.CleanValueIdempotent | agents/preprocessing_agent.py:368-374 | a cleaned value is left alone by a second clean |
| Metadata.OverlayKeeps | agents/preprocessing_agent.py:49-60 | a key none of the added fields names keeps its value and presence in the merged metadata |
| Metadata.OverlaySets | agents/preprocessing_agent.py:49-60 | an added field that no later field overrides has its value in the merged metadata |
| Preprocessing.AnalyzeDocumentStructure | agents/preprocessing_agent.py:80-116 | the table-of-contents test reads only the first 500 characters; the section depth is the deepest heading level (at most 3) whose pattern matches, with no deeper level matching; has-sections iff depth > 0 |
| Preprocessing.MatchEntitiesToText | agents/preprocessing_agent.py:293-302 | the loop builds exactly the matched entity lists |
| Preprocessing.MatchSpecShape | agents/preprocessing_agent.py:293-302 | the result has exactly the input's keys; each list is the in-order sublist of entities whose text occurs in the chunk text |
| Preprocessing.ExtractHierarchicalSections | agents/preprocessing_agent.py:234-254 | the loop over levels builds exactly the specified sections |
| Preprocessing.HierarchicalSectionsShape | agents/preprocessing_agent.py:234-254 | every section's text occurs in the content with level between 1 and min(max depth, 3); the sections are sorted by position and are a permutation of the per-level matches |
| Preprocessing.LevelsOccur | agents/preprocessing_agent.py:243-252 | every section found by any level lies inside the content and carries that level |
| Preprocessing.ExtractNonTableText | agents/preprocessing_agent.py:265-269 | the loop that replaces each table by a marker, then splits and keeps the blocks over 50 stripped characters |
| Preprocessing.NonTableTextShape | agents/preprocessing_agent.py:265-269 | the pieces re-joined by the marker give the table-free text back; a block is kept iff it is a piece with more than 50 stripped characters |
| Preprocessing.IntelligentParagraphSplit | agents/preprocessing_agent.py:271-291 | the buffering loop yields exactly the specified units |
| Preprocessing.UnitsCover | agents/preprocessing_agent.py:271-291 | the units, joined by blank lines, spell out the rough paragraphs in order (each one in exactly one unit); there are no units iff there are no paragraphs after a leading empty one |
| Preprocessing.UnitsCount | agents/preprocessing_agent.py:280-289 | one unit for the first paragraph plus one for every later paragraph of at least 100 stripped characters; short ones merge into the buffer |
| Chunking.UltraSemanticSegmentation | agents/preprocessing_agent.py:149-232 | the branches in priority order yield the specified segmentation, never empty |
| Chunking.KeepLongParts | agents/preprocessing_agent.py:193-226 | the loop keeps exactly the parts over the length threshold, one segment each |
| Chunking.SegmentationKinds | agents/preprocessing_agent.py:154-232 | the result is the single whole-page segment, or every segment comes from the first branch that applies: section levels 1-3 when depth ≥ 2, else tables and text blocks when there are tables, else paragraphs |
| Chunking.SegmentationEntities | agents/preprocessing_agent.py:149-232 | every entity a segment carries occurs in the segment's text |
| Chunking.UltraChunk | agents/preprocessing_agent.py:304-352 | the sliding-window loop yields exactly the specified chunks |
| Chunking.SlideWindows | agents/preprocessing_agent.py:310-350 | the `while` loop over word windows builds one chunk per window start before the 30-word cutoff |
| Chunking.ChunkCountClosedForm | agents/preprocessing_agent.py:310-316 | the number of chunks is 0 when chunk size or text is under 30 words, else ⌊(L−30)/(S−O)⌋+1 |
| Chunking.LoopGuardMeaning | agents/preprocessing_agent.py:310-316 | with a forward stride, window c is emitted iff the `while` condition and the 30-word test both pass at its start (Python slice clamping included); under 30 words of text or window the loop stops at once with no windows |
| Chunking.EqualOverlapStalls | agents/preprocessing_agent.py:310-349 | with overlap equal to chunk size and at least 30 words of text and window, every pass starts at word 0 and the loop goes on |
| Chunking.ChunkExists | agents/preprocessing_agent.py:310-316 | chunk k exists iff size ≥ 30 and k·(size−overlap)+30 ≤ word count |
| Chunking.ChunkWindow | agents/preprocessing_agent.py:310-349 | chunk k has index k, start k·(size−overlap), end start+length; it has between 30 and size words and is a full window or reaches the text's end |
| Chunking.ChunkWords | agents/preprocessing_agent.py:313-318 | the chunk's content, split into words, is exactly the words from its start to its end |
| Chunking.ChunksCover | agents/preprocessing_agent.py:310-350 | consecutive chunks leave no gap between word ranges; fewer than 30 words are left after the last chunk |
| Chunking.ChunkQuality | agents/preprocessing_agent.py:324-340 | the quality score (3·wells + 2·depths + 2·dates + temperatures + pressures of the matched entities) never exceeds that of the segment's entities; `contains_wells` is the comma-join of the wells found in the chunk |
| Chunking.CitationShape | agents/preprocessing_agent.py:354-364 | the citation starts with "file, p.page" and extends it iff the paragraph id is truthy |
| Driver.ProcessAllStrategies | agents/preprocessing_agent.py:10-78 | the result's keys are exactly the configured strategies; each list is every document's chunks for that strategy |
| Driver.ProcessDocument | agents/preprocessing_agent.py:19-70 | one document appends its pages' chunks to every strategy's list |
| Driver.ProcessPages | agents/preprocessing_agent.py:27-70 | the page loop appends every page's chunks in order |
| Driver.ProcessPage | agents/preprocessing_agent.py:28-70 | a page under 50 stripped characters adds nothing; otherwise its segments are chunked |
| Driver.ProcessSegments | agents/preprocessing_agent.py:48-70 | the segment loop appends every segment's chunks to every strategy |
| Driver.SegmentsListsStep | agents/preprocessing_agent.py:48-70 | one more segment extends every strategy's list by that segment's chunks |
| Driver.Keyed | agents/preprocessing_agent.py:17-70 | the strategy lists become a map keyed by exactly the strategy names |
| Retrieval.RagRetrievalAgent.IndexDocuments | rag_retrieval_agent.py:15-37 | an unknown strategy is a key error that changes nothing; otherwise the collection is opened with the records the persistent store kept; an empty batch is then refused with nothing else changed; a non-empty one is added with ids `<strategy>_<i>_<time>`, and the keyword index and cache are replaced by the batch alone |
| Retrieval.IndexTwice | rag_retrieval_agent.py:18-35 | two batches into one strategy: the collection holds its earlier (or persisted) records and then both batches in order; the cache and keyword index hold the last non-empty batch, and are unchanged when both are empty |
| Retrieval.RagRetrievalAgent.Retrieve | rag_retrieval_agent.py:39-93 | the method computes the specified retrieval |
| Retrieval.RetrievalResult | rag_retrieval_agent.py:47-93 | at most `top_k` chunks, by non-increasing score; with a well name every chunk names it, case-insensitively; every chunk is one of the `2·top_k` semantic hits; from an existing collection the chunks are the best `top_k` candidates, without repeats, and a candidate is left out only when `top_k` chunks scoring at least as much are returned |
| Retrieval.RetrievalBest | rag_retrieval_agent.py:85-93 | the candidates kept are drawn from the fused candidates as a sub-multiset, and any candidate left out is behind exactly `top_k` kept ones of no lower score |
| Retrieval.RetrievalStable | rag_retrieval_agent.py:92-93 | among candidates of equal score, the result keeps their semantic order |
| Retrieval.RetrievalConfigErrors | rag_retrieval_agent.py:41-49 | a missing strategy or `top_k` key is a key error; a collection never indexed returns no chunks |
| Retrieval.StrategyOfModes | rag_retrieval_agent.py:41-45 | qa, extract and summary map to their strategy and `top_k` key; an unknown mode uses factual_qa with key `top_k_<mode>` |
| Retrieval.FuseHits | rag_retrieval_agent.py:68-90 | the fusion loop yields exactly the filtered, scored candidates |
| Retrieval.CandidateMeaning | rag_retrieval_agent.py:74-90 | a kept candidate passes the well filter and has the hit's text and metadata; its score is w_s/(1+distance) plus the keyword term |
| Retrieval.ScoreMonotone | rag_retrieval_agent.py:80-83 | with a non-negative semantic weight and an equal keyword term, a strictly smaller distance never scores lower |
| Validation.TagsValidAtLeastInvalid | agents/ensemble_judge_agent.py:120-128 | counting "VALID:" as a substring means it is never below the "INVALID:" count |
| Validation.TagConfidenceBounds | agents/ensemble_judge_agent.py:118-128 | an untagged response gets the fallback; a tagged one scores between 0.5 and 1 |
| Validation.ExtractIssueLines | agents/ensemble_judge_agent.py:130-137 | the line loop yields exactly the specified issue lines |
| Validation.IssueLinesMeaning | agents/ensemble_judge_agent.py:130-137 | an issue is a stripped line mentioning INVALID (case-insensitively), cut to the width; every issue is within the width |
| Validation.IssueLinesCount | agents/ensemble_judge_agent.py:130-137 | there is exactly one issue per line that mentions INVALID |
| EnsembleJudge.Validate | agents/ensemble_judge_agent.py:13-107 | the method computes the specified verdict |
| EnsembleJudge.CollectVotes | agents/ensemble_judge_agent.py:48-73 | the model loop collects exactly the specified votes |
| EnsembleJudge.GatherIssues | agents/ensemble_judge_agent.py:90-92 | the loop concatenates every vote's issues |
| EnsembleJudge.ClaimsOrder | agents/ensemble_judge_agent.py:109-116 | the claims are numbers with units, then month dates, then well ids, cut to 15; none iff nothing matched |
| EnsembleJudge.VotesMeaning | agents/ensemble_judge_agent.py:48-73 | every vote comes from a model answering with status 200 and is scored from its text; every such model votes |
| EnsembleJudge.MeanBounds | agents/ensemble_judge_agent.py:86-87 | the mean of confidences in [0.5, 1] is in [0.5, 1] |
| EnsembleJudge.DistinctMeaning | agents/ensemble_judge_agent.py:95-98 | the distinct issues are the issues seen, without repeats, in order of first mention (the order of a `Counter`) |
| EnsembleJudge.MajorityMeaning | agents/ensemble_judge_agent.py:95-98 | an issue is kept iff twice its count reaches the number of votes |
| EnsembleJudge.FlaggedMeaning | agents/ensemble_judge_agent.py:95-104 | at most 3 flagged issues, distinct, each with a majority, in order of first mention; a majority issue is left out only when 3 issues first mentioned before it are flagged |
| EnsembleJudge.MajorityOrder | agents/ensemble_judge_agent.py:97-98 | the majority filter keeps the issues it keeps in order of first mention |
| EnsembleJudge.FirstMentionFirst | agents/ensemble_judge_agent.py:96 | no mention of an issue precedes its first mention |
| EnsembleJudge.MajorityThresholds | agents/ensemble_judge_agent.py:97-98 | with 3 votes the filter keeps exactly the issues mentioned at least twice; with 2 votes every issue mentioned at all |
| EnsembleJudge.ValidationVerdict | agents/ensemble_judge_agent.py:75-107 | no vote gives valid with 0.75 and nothing flagged; otherwise the confidence is the mean vote in [0.5, 1], valid iff it reaches the minimum, with the majority issues and one ballot per vote |
| EnsembleJudge.NoClaimsNoCall | agents/ensemble_judge_agent.py:17-26 | an answer with no claims is valid with 0.95 and no issues or votes, whatever the judges would answer |
| Judge.ClaimsOrder | agents/judge_agent.py:114-128 | the claims are numbers with units, month dates, ISO dates, then well ids, cut to 15 |
| Judge.RequestShows | agents/judge_agent.py:28-48 | two answers and chunk lists that agree on the first 10 claims and on the first 600 characters of each of the first 10 chunks get the same request |
| Judge.RequestBounded | agents/judge_agent.py:28-30 | however many and however long the chunks, the context shown to the judge is at most 10 · 613 characters |
| Judge.NoClaimsNoCall | agents/judge_agent.py:19-26 | an answer with no claims is valid with 0.95 and no issues, whatever the judge would answer |
| Judge.FailuresForgiven | agents/judge_agent.py:68-112 | a non-200 reply or a failed request is valid with 0.8; only the non-200 reply flags "Judge service error" |
| Judge.JudgedReply | agents/judge_agent.py:77-97 | valid iff the confidence reaches the minimum; untagged scores 0.85, tagged in [0.5, 1]; the issues are the first 3 INVALID lines |
| Judge.ExtractIssues | agents/judge_agent.py:130-137 | the loop yields exactly the specified issues |
| Judge.IssuesMeaning | agents/judge_agent.py:130-137 | at most 3 issues, each a stripped line mentioning INVALID, in line order |
| Trajectory.Extract | agents/parameter_extraction_agent.py:12-51 | the method computes the specified extraction |
| Trajectory.ExtractedMeaning | agents/parameter_extraction_agent.py:19-51 | with candidates the trajectory has at most 100 points with strictly increasing MD and TVD ≤ MD, taken from the harvested points; short of 100 points, every harvested point that is first of its rounding key, below the surface and with TVD ≤ MD has a trajectory point at its MD; confidence is in [0, 0.9] and saturates iff there are at least 45 points |
| Trajectory.NoCandidatesNoTrajectory | agents/parameter_extraction_agent.py:19-24 | no candidate chunk gives an empty trajectory with confidence 0 |
| Trajectory.AskedOnlyOnEmptyHarvest | agents/parameter_extraction_agent.py:29-39 | once the regex pass over the top 10 finds points, the chat model's answer does not matter |
| Trajectory.ConfidenceMeaning | agents/parameter_extraction_agent.py:49 | the confidence is min(0.9, n/50) |
| Trajectory.DetectTrajectoryTables | agents/parameter_extraction_agent.py:53-86 | the scoring loop yields exactly the specified candidates |
| Trajectory.ScoreChunk | agents/parameter_extraction_agent.py:65-79 | the loop computes the chunk's score |
| Trajectory.ScoreBounds | agents/parameter_extraction_agent.py:65-79 | a score is at most 12; a table marker with a numeric pair scores ≥ 3; without both it is the number of matching cues |
| Trajectory.CueCountMeaning | agents/parameter_extraction_agent.py:55-71 | the cue count is the number of cue patterns that match |
| Trajectory.DetectMeaning | agents/parameter_extraction_agent.py:53-86 | at most 15; each from the input and scoring ≥ 3, by non-increasing score; a qualifying chunk left out means 15 chunks scoring at least as well were kept |
| Trajectory.DetectStable | agents/parameter_extraction_agent.py:85-86 | candidates with equal scores keep their input order |
| Trajectory.RankedOrder | agents/parameter_extraction_agent.py:85-86 | the ranking holds only candidates, descends, and drops a candidate only when 15 better-or-equal ones are kept |
| Trajectory.ExtractTrajectoryPoints | agents/parameter_extraction_agent.py:88-121 | the harvest loops yield exactly the specified points |
| Trajectory.HarvestMeaning | agents/parameter_extraction_agent.py:92-119 | every ID is in [0, 90); space-separated triples keep only TVD ≤ MD < 5000; pipe-table rows keep every triple |
| Trajectory.ParseReply | agents/parameter_extraction_agent.py:148-167 | the parser loop yields exactly the specified points |
| Trajectory.ParsedMeaning | agents/parameter_extraction_agent.py:151-162 | a point comes from a line that parses; bad lines are skipped |
| Trajectory.ReplyRoundTrip | agents/parameter_extraction_agent.py:151-162 | printing points as CSV lines and parsing the reply gives them back |
| Trajectory.FailedReplyNoPoints | agents/parameter_extraction_agent.py:166-167 | a failed request yields no points |
| Trajectory.CleanTrajectory | agents/parameter_extraction_agent.py:169-191 | the dedup, sort and ascend passes compute the specified cleaned trajectory |
| Trajectory.DedupMeaning | agents/parameter_extraction_agent.py:172-181 | the kept points are the first of each rounded key; no two share a key; every key survives |
| Trajectory.AscendingMeaning | agents/parameter_extraction_agent.py:184-189 | the kept points come from the input, with MD above the running bound, strictly increasing, TVD ≤ MD; over input sorted by MD every point above the bound with TVD ≤ MD has a kept point at its MD |
| Trajectory.CleanMeaning | agents/parameter_extraction_agent.py:169-191 | at most 100 unmodified input points, strictly increasing MD starting above 0, TVD ≤ MD, one per rounding key and the first of it; short of 100 points, every input point that is first of its key, below the surface and with TVD ≤ MD has a kept point at its MD |
| Memory.ChatMemory.AddTurn | agents/chat_memory.py:12-39 | the turn is appended and the buffer keeps the last `buffer_size` turns (all when 0); the well facts are updated as specified, or an unhashable key leaves them unchanged |
| Memory.ChatMemory.RememberWell | agents/chat_memory.py:28-39 | only the well facts change, as specified |
| Memory.ChatMemory.GetContext | agents/chat_memory.py:41-59 | the part-building loop yields the specified context text |
| Memory.ChatMemory.Clear | agents/chat_memory.py:61-64 | both the buffer and the well facts are empty |
| Memory.BufferSlides | agents/chat_memory.py:21-25 | adding a turn puts it last and drops the oldest turn exactly when a buffer of positive size is full; with size 0 nothing is dropped |
| Memory.StoredTurn | agents/chat_memory.py:14-19 | a stored turn keeps the query and the first 500 characters of the answer; missing metadata becomes empty |
| Memory.RememberMeaning | agents/chat_memory.py:28-39 | a truthy well name with the feature on creates that well's entry even without a depth, and an unhashable one (a list, a dict) is a type error; the depth is set from the answer only when it mentions "depth" |
| Memory.RememberGrows | agents/chat_memory.py:28-39 | no well entry or depth is ever lost; other wells are untouched; without "depth" nothing changes |
| Memory.FactLinesMeaning | agents/chat_memory.py:52-57 | one fact line per well in the query that the memory knows |
| Memory.ContextPartsMeaning | agents/chat_memory.py:43-59 | the parts are the last 3 turns, then the known wells' facts |
| Memory.TurnLineLength | agents/chat_memory.py:48-49 | a shown turn is at most 100 query and 200 answer characters plus its fixed text |
| FactChecking.ValidateFacts | agents/fact_checking_agent.py:9-45 | the method computes the specified report |
| FactChecking.ConsolidateReadings | agents/fact_checking_agent.py:14-23 | the grouping loop over the paired answers yields the specified groups |
| FactChecking.ConsolidateMeaning | agents/fact_checking_agent.py:16-23 | the groups are distinct and exactly the units seen (lower-cased or "number"); each holds its unit's values in order and is non-empty |
| FactChecking.ConsolidateOrder | agents/fact_checking_agent.py:16-23 | group keys are in order of first appearance |
| FactChecking.CheckGroups | agents/fact_checking_agent.py:26-36 | the group loop yields the specified issues and medians |
| FactChecking.GroupAnomalies | agents/fact_checking_agent.py:29-32 | the value loop yields the anomaly lines |
| FactChecking.AnomalousMeaning | agents/fact_checking_agent.py:30 | for a positive mean, a value is flagged iff it is above 1.2 or below 0.8 times the mean |
| FactChecking.OutcomeMeaning | agents/fact_checking_agent.py:27-36 | a group's mean is 0 iff all its values are 0; otherwise its issues are the values flagged against the mean and its final line is its median |
| FactChecking.MedianBetween | agents/fact_checking_agent.py:35-36 | the median lies between two of the values and is one of them for an odd count |
| FactChecking.ChecksFail | agents/fact_checking_agent.py:27-32 | checking fails with a division error iff some group is all zeros |
| FactChecking.FactReportFails | agents/fact_checking_agent.py:9-45 | the whole check raises the division error iff some unit's values are all zeros |
| FactChecking.ReportClean | agents/fact_checking_agent.py:39-45 | with no issues the report says "No fact anomalies detected." |
| FactChecking.ReportIssues | agents/fact_checking_agent.py:39-45 | with issues the report lists them after "Issues detected:" and does not claim no anomalies |
| FactChecking.ReportFinals | agents/fact_checking_agent.py:44 | the report ends with the verified medians, one line each |
| Ingestion.ExtractWellNames | agents/ingestion_agent.py:54-74 | the collecting loop yields the specified names |
| Ingestion.WellNamesMeaning | agents/ingestion_agent.py:54-74 | names are strictly sorted hence distinct, and are exactly the standard, Naaldwijk and spaced matches, spaced ones written `XX-GT-NN` |
| Ingestion.WellNamesHaveGT | agents/ingestion_agent.py:59-72 | every name contains "-GT-" |
| Ingestion.ReadPages | agents/ingestion_agent.py:23-29 | pages are numbered 1..n in order, and the full text is their concatenation |
| Ingestion.Process | agents/ingestion_agent.py:10-52 | the file loop yields the specified documents |
| Ingestion.DocumentMeaning | agents/ingestion_agent.py:19-44 | a document has one page per text, numbered from 1, and metadata exactly `source_file` and the ", "-join of the sorted well names |
| Ingestion.ProcessedAppend | agents/ingestion_agent.py:14-50 | the documents of two batches are those of each batch in order |
| Ingestion.FailedFileSkipped | agents/ingestion_agent.py:48-50 | an unreadable file leaves the other files' documents unchanged |
| Ingestion.ProcessedCount | agents/ingestion_agent.py:14-50 | one document per readable file |
| Ingestion.ProcessedFrom | agents/ingestion_agent.py:14-50 | every document comes from a readable input file |
| App.LogCapture.Add | app_working.py:20-25 | one entry is appended, and the shown text is the last 50 entries joined by newlines |
| App.RecentMeaning | app_working.py:25 | after an append the window holds at most 50, the most recent last, and the shown text ends with the new entry |
| App.ModeMeaning | app_working.py:123-125 | extract iff the lower-cased query has "extract" or "trajectory"; summary iff not extract and "summary" or "summarize"; qa otherwise |
| App.TargetWellMeaning | app_working.py:130 | no target iff no known well occurs in the query, case-insensitively; otherwise the first such well in set order |
| App.DocumentStore.IndexDocuments | app_working.py:54-108 | no files or no new files change nothing; on success the documents grow by the batch, indexed files by exactly the new basenames and wells by each document's names; after a failure the documents, indexed files and wells are unchanged |
| App.DocumentStore.AddWells | app_working.py:94-97 | the well loop adds each document's non-empty stripped comma-separated names |
| App.DocumentStore.Query | app_working.py:110-326 | the answer is the specified query answer; only an extraction that finds points replaces `last_trajectory`, which is never cleared |
| App.NewFilesMeaning | app_working.py:64 | a file is new iff its basename is not yet indexed, in upload order |
| App.DocsWellsAppend | app_working.py:94-97 | the wells of two batches are the union of each batch's |
| App.IngestedWells | app_working.py:94-97 | splitting the ", "-joined names that ingestion stores back on commas and stripping gives exactly the names |
| App.DocumentWells | app_working.py:94-97 | the store learns exactly the well names ingestion found in the document |
| App.StoredDocumentsNamed | app_working.py:92-93 | every new document's source file is a recorded basename |
| App.Generate | app_working.py:252-289 | the retry loop yields the specified generation and the timeouts used |
| App.RetryBudget | app_working.py:253-289 | at most 2 attempts with timeouts t and t+300; all timed out iff both attempts time out |
| App.RenderTable | app_working.py:147-158 | the answer is the table text |
| App.RenderRows | app_working.py:153-155 | the row loop renders the first 20 points |
| App.TableNote | app_working.py:157-158 | the table ends with the "Showing 20 of N points" note iff there are more than 20 points |
| App.AnnotatedMeaning | app_working.py:305-312 | a valid answer is unchanged; an invalid one is extended with the confidence and at most two issues |
| App.NoDocumentsNoRetrieval | app_working.py:111-112 | with no documents the answer is "Please upload documents first.", whatever the retriever returns |
| App.ExtractNeverGenerates | app_working.py:139-166 | an extraction query is the table of what the extractor finds, whatever the chat model and the judge do |
| App.TimeoutAnswer | app_working.py:281-289 | when every request times out the answer is the timeout message |
| Sorting.SortByStable | rag_retrieval_agent.py:92 | sorting keeps the relative order of equal keys |
| Sorting.TakeSortedStable | rag_retrieval_agent.py:92-93 | a sorted prefix keeps equal-key elements in input order |
| Sorting.SortedUnique | agents/ingestion_agent.py:74 | `sorted(set)` is strictly sorted with the same elements |

## Left out

- Regular expressions: every `findall` and `search` enters as a function parameter (entity, heading, table, claim, tag, cue, number and well-name patterns). Only what the code does with the matches is modelled.
- PDF reading with fitz: the text of each page enters as a parameter. A file the reader cannot open is an absent page list.
- ChromaDB and BM25: the semantic search takes the stored records and returns hits, and keyword scores are a function of the index and the query.
- Retrieval.RagRetrievalAgent.IndexDocuments: the persistent store's records are those it holds when the agent is built; writes by other processes afterwards are not modelled.
- Retrieval.RagRetrievalAgent.IndexDocuments: a record whose id the collection already holds is still added. Ids end in whole seconds, so two batches of one strategy in the same second collide, and the vector store then skips or rejects the repeated ids, depending on its version. Retrieval.IndexTwice below states what happens when they differ.
- Retrieval.IndexTwice: states that both batches are stored in order, which holds only when the two timestamps differ (t1 ≠ t2). With equal timestamps the ids collide and the vector store's handling of the repeats is not modelled.
- Retrieval.RagRetrievalAgent.IndexDocuments: an empty batch is refused by the vector store's own id check, which the source does not show; the keyword index over an empty batch is never built.
- HTTP calls to Ollama: each reply is a datatype input (status and body, timeout, other failure). Prompt texts, model options and the `num_ctx` settings are not modelled.
- Clock, logging and `print`: timestamps are parameters. Only `LogCapture.add` and its 50-entry window are modelled (App.LogCapture). The entries written by the upload and query handlers, by ingestion, preprocessing and extraction through the log object passed to them, and the log window both handlers return as their second value, are not; App.DocumentStore.IndexDocuments and App.DocumentStore.Query return only their outcome and answer.
- Float formatting (`:.1f`, `:.2f`, `:.3f`, `:.0%`), `str()` of numbers, float parsing and Python's `round`: all are parameters. Values are Dafny `real`, so there is no IEEE rounding.
- Python set iteration order: the order in which `self.wells` is scanned for the target well is a parameter (`wellOrder`).
- `Strings.Lower`, `Strings.Upper`: ASCII letters only, because Unicode case mapping is not modelled.
- Memory.ChatMemory.AddTurn: a metadata key equal to one of another type (Python's 1 == True) is not modelled. Whether an object other than a scalar or a list is truthy and hashable is part of its value (`Metadata.Other`), not derived from its type.
- Memory.ChatMemory.AddTurn: `buffer_size` is a natural number, so negative sizes are not modelled.
- App.DocumentStore.IndexDocuments: a failure in preprocessing or in the vector store is the `storeOk` flag. The status text, the chunk total and the traceback are not modelled.
- App.DocumentStore.IndexDocuments: the store holds no retrieval agent. Creating it on first upload (lines 82-84 of `app_working.py`) and the loop that indexes every strategy's chunks (lines 87-90) are not modelled, so neither is the retriever state a failed upload leaves behind: a strategy indexed before the failure keeps its new records, keyword index and cache, while the indexed files stay unchanged, so uploading the same files again adds those records a second time.
- App.DocumentStore.Query: the call to `memory.add_turn` and the vote-summary log line are not modelled. The exception handler is modelled only for generation failures; its traceback text is not modelled.
- App.DocumentWells: requires the well names ingestion finds to be free of commas and surrounding spaces, which the well-name patterns guarantee.
- `run_nodal_analysis` (subprocess and JSON file writing) and the Gradio user interface in `app_working.py`: I/O and UI only.
- `validate_facts`: the metadata list is used only for how many answers are paired, as in the code.
- The trajectory chat-model fallback: building the prompt from the top 5 chunks is an input. The parser does not check the reply's status, as in the code.
- Chunking.UltraChunk: requires overlap < chunk size once both the text and the window reach 30 words (`Chunking.Terminates`), and so do the functions over its windows and Driver.ProcessAllStrategies (through `Driver.ValidStrategy`). With overlap > chunk size the source's window walks backwards from word 0; Python's negative slices then give chunks with a negative `word_start`, and those are not modelled. With overlap equal to chunk size the loop never ends (see "Findings").
- Driver.ProcessAllStrategies: requires every strategy to satisfy `Chunking.Terminates` (overlap < chunk size), for the reasons given for Chunking.UltraChunk.
- Chunking.ChunkQuality: states the quality score's bound and the wells text, not the full weighted formula, which `Chunking.Quality` defines directly.

## Findings

| source | as written | input that shows it | evidently intended | confidence | as-written member | corrected member |
|---|---|---|---|---|---|---|
| agents/preprocessing_agent.py:312-349 | the window advances by `chunk_size - overlap` with no check that this is positive | `chunk_size == overlap == 100` and a text of 30 words or more: `i` stays 0 and the loop never ends | the window moves forward (overlap < chunk size), so the loop ends after ⌊(L−30)/(S−O)⌋+1 windows | not executed; holds for every configuration with overlap equal to chunk size | Chunking.EqualOverlapStalls | Chunking.UltraChunk |
