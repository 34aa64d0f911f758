# content-loader core, modelled in Dafny

This project models the sequential, deterministic core of the content-loader
ingestion service:

- the fixed-size text chunker `DocumentProcessor.chunk_document`;
- the stream utilities of `core/base.py`: the date-range filter, the default
  range of `BaseExecutor.execute`, the retrying `SimpleRetryHandler` and the
  batching `SimpleMemoryManager`;
- the exception taxonomy of `core/exceptions.py`: the class tree, the message
  and details every constructor builds, `__str__`, `create_error_context`,
  `is_retryable_error` and `extract_retry_delay`;
- the loader orchestration of `core/executor.py`: executor keys, initialisation,
  single, all and by-type runs, statistics, and the health check;
- the data models of `core/models/`: `DocumentMetadata`, `Document`,
  `LoaderSource`, `ProcessedChunk` and the four source-specific documents.

Modules, one per file:

| module | file | what it holds |
|---|---|---|
| `Wrappers` | wrappers.dfy | `Option` and `Result` |
| `Dicts` | dicts.dfy | Python dicts as insertion-ordered association lists, `Get`, `Set`, `Update` (`dict.update`) |
| `Values` | values.dfy | the values stored in dicts; Python `repr` of them |
| `Text` | text.dfy | `str.strip`, `str.rfind`, `split(":", 1)`, integer formatting |
| `Models` | models_base.dfy | enums, `DocumentMetadata`, `Document`, `LoaderSource` |
| `Processing` | processing.dfy | `ProcessedChunk` |
| `Sources` | sources.dfy | `SlackMessage`, `GitHubIssue`, `GitHubFile`, `ConfluencePage` |
| `Exceptions` | exceptions.dfy | the exception tree and the utility functions |
| `CoreBase` | core_base.dfy | `DateRange`, `execute`, `SimpleRetryHandler`, `SimpleMemoryManager` |
| `Executor` | executor.dfy | `LoaderExecutor` |
| `DocumentProcessing` | document_processor.dfy | `chunk_document` and a corrected chunker |

A Python dict is a `seq<(string, V)>` with distinct keys (`WellFormed`).
Assigning to a key replaces its value in place or appends the key; `update`
assigns key by key. Key order is therefore part of every contract that states
a dict's keys.

An async generator becomes a value. `Attempt(items, outcome)` is one run of it:
the items it yields, in order, and whether it then finishes or raises. A
function `run: nat -> Attempt<T>` gives the k-th fresh start of
`func_generator()`. An executor in the executor table is a `Stream`, which
maps a date range to the attempt its `execute` produces.

Exceptions are values `Exc(kind, message, details)`. `kind` is one of the
classes of `core/exceptions.py` or a Python built-in the core uses. The class
tree is the explicit method resolution order `Mro(kind)`. A constructor that
takes `**kwargs` returns `Result<Exc, Exc>`. Python raises `TypeError`
("got multiple values for argument 'x'", without the class-name prefix newer Pythons print) when a keyword names a parameter
or a key the constructor sets itself. That case is the `Err` branch, so the
model needs no precondition to exclude it.

`DocumentMetadata`, `Document` and `ProcessedChunk` are classes. The
source-specific constructors change the caller's `metadata.extra` in place,
and `__post_init__` assigns fields. `LoaderExecutor` is a class whose methods
update `executors` and `executionStats`.

## Model

| member | source | states |
|---|---|---|
| DocumentProcessing.Window | content_loader/services/document_processor.py:47-48 | the window `text[i:i+chunk_size]` is a slice at `i` of length at most the size; it is the whole tail when it reaches the end, and full-length otherwise |
| DocumentProcessing.PieceFacts | content_loader/services/document_processor.py:48-57 | the kept piece is a prefix of the window and a slice of the text; it differs from the window exactly when the trim condition holds (not the last window, next character not whitespace, last space beyond half the window); then it is `text[i:i+last_space]`; it is never empty |
| DocumentProcessing.FinalWindowKept | content_loader/services/document_processor.py:51 | the final window (`i + chunk_size >= len(text)`) is never trimmed |
| DocumentProcessing.WindowText | content_loader/services/document_processor.py:48-57 | the loop-body computation of the chunk text before stripping equals the specification `Piece` |
| DocumentProcessing.StartBelow | content_loader/services/document_processor.py:47 | every start the `range` produces lies inside the text |
| DocumentProcessing.OffsetIsProduct | content_loader/services/document_processor.py:47 | the k-th window starts at `k * chunk_size` |
| DocumentProcessing.StartsCount | content_loader/services/document_processor.py:47 | the number of window starts from `i` is zero exactly when `i` is past the end, and otherwise the ceiling of the remaining length over the size |
| DocumentProcessing.ChunkCountBounds | content_loader/services/document_processor.py:40-67 | there are no chunks exactly when the text is empty; otherwise `(c-1)*size < len(text) <= c*size`, i.e. `c = ceil(len(text)/chunk_size)` |
| DocumentProcessing.ChunkTextAt | content_loader/services/document_processor.py:47-61 | chunk k's text is the stripped piece of the window at `k*chunk_size` and is at most `chunk_size` long |
| DocumentProcessing.ChunkTextAtStart | content_loader/services/document_processor.py:57-61 | the piece computed at the running offset gives chunk k's text |
| DocumentProcessing.ChunkIdInjective | content_loader/services/document_processor.py:60 | ids `"{document.id}_chunk_{k}"` of one document are distinct for distinct k |
| DocumentProcessing.StripShorter | content_loader/services/document_processor.py:61 | stripping never lengthens a chunk |
| DocumentProcessing.StripsNothing | content_loader/services/document_processor.py:61 | a piece without surrounding whitespace is kept as is |
| DocumentProcessing.NumberedSnoc | content_loader/services/document_processor.py:59-67 | appending chunk number `len(chunks)` keeps the list numbered 0, 1, 2, … |
| DocumentProcessing.NextChunk | content_loader/services/document_processor.py:48-67 | one loop iteration builds a fresh chunk with index and id `len(chunks)`, the stripped piece as text, type TEXT, the document's id and metadata |
| DocumentProcessing.ChunkWindows | content_loader/services/document_processor.py:44-67 | the loop returns `ceil(len(text)/chunk_size)` fresh chunks, chunk k numbered k and holding the stripped piece of window k |
| DocumentProcessing.ChunkDocumentDefault | content_loader/services/document_processor.py:28-29 | with the default `chunk_size` of 500, there are `ceil(len(text)/500)` numbered chunks, each at most 500 long |
| DocumentProcessing.ChunkDocument | content_loader/services/document_processor.py:28-70 | empty text gives `[]`; a zero size raises `ValueError` from `range`; a negative size gives `[]`; a positive size gives the numbered chunks of every window |
| DocumentProcessing.RangeStepZero | content_loader/services/document_processor.py:47 | `range` with step 0 raises `ValueError("range() arg 3 must not be zero")` |
| DocumentProcessing.LastSpaceAt3 | content_loader/services/document_processor.py:53 | the last space of the window `"abc d"` is at index 3 |
| DocumentProcessing.TrimmedTextIsDropped | content_loader/services/document_processor.py:47-57 | for `"abc defgh"` and size 5 the chunks are `"abc"` and `"efgh"`, so the `d` is in no chunk |
| DocumentProcessing.PieceEnd | content_loader/services/document_processor.py:48-57 | the end of the kept piece lies after its start, within the text and within one window |
| DocumentProcessing.PieceEndCut | content_loader/services/document_processor.py:48-57 | the text up to that end is exactly the kept piece |
| DocumentProcessing.CarryPiecesCover | content_loader/services/document_processor.py:47-57 | the corrected chunker, which starts the next window where the kept piece ends, joins its pieces back into the whole text |
| DocumentProcessing.CarryPiecesSizes | content_loader/services/document_processor.py:47-57 | every piece of the corrected chunker is non-empty and at most `chunk_size` long |
| CoreBase.IncludesInterval | content_loader/core/base.py:23-29 | `includes(t)` holds exactly when `t` is not before a set start and not after a set end: both bounds inclusive, an unset bound no constraint |
| CoreBase.BoundsIncluded | content_loader/core/base.py:23-29 | both bounds of a non-empty range are included |
| CoreBase.NarrowerRange | content_loader/core/base.py:23-29 | a range whose bounds lie inside another's includes nothing the other excludes |
| CoreBase.EffectiveRange | content_loader/core/base.py:77-78 | `execute` uses the given range, or with none a range that includes every timestamp |
| CoreBase.ExecuteDefaultRange | content_loader/core/base.py:77-78 | `execute()` behaves as `execute(DateRange())` |
| CoreBase.ShouldProcessWithoutRange | content_loader/core/base.py:87-93 | under the range `execute()` uses when given none, every document is processed |
| CoreBase.ShouldProcessNarrower | content_loader/core/base.py:87-93 | a document processed under a range is processed under every range whose bounds lie outside it |
| CoreBase.ShouldProcessOutside | content_loader/core/base.py:87-93 | a document without `updated_at` is processed under any range; one updated before a set start or after a set end is skipped |
| CoreBase.NetworkErrorIsOSError | content_loader/core/base.py:125-136 | the errors retried (`ConnectionError`, `TimeoutError`, `OSError` and subclasses) are exactly the `OSError` subclasses |
| CoreBase.Pow2 | content_loader/core/base.py:134 | `2**k` is at least 1 |
| CoreBase.SimpleRetryHandler.constructor | content_loader/core/base.py:99-107 | the handler keeps the given retry count and base delay |
| CoreBase.SimpleRetryHandler.Default | content_loader/core/base.py:99-107 | the defaults are 3 attempts and a base delay of 1 second |
| CoreBase.SimpleRetryHandler.ExecuteWithRetry | content_loader/core/base.py:109-146 | the retry loop yields, sleeps, ends and counts starts exactly as the specification `RetryFrom` |
| CoreBase.RetryStarts | content_loader/core/base.py:120-142 | the generator is started between 1 and `max_retries` times; every start but the last failed with a network error; the loop ends with the last start's outcome; a network failure ends it only on the final permitted attempt |
| CoreBase.RetryYields | content_loader/core/base.py:120-133 | every item of every start is passed on, so items of a failed start are yielded again after the restart |
| CoreBase.RetryDelays | content_loader/core/base.py:127-136 | one sleep per retry, the k-th of `base_delay * 2**k` |
| CoreBase.NoAttempts | content_loader/core/base.py:120-146 | with `max_retries <= 0` nothing is started and nothing is raised |
| CoreBase.SuccessStops | content_loader/core/base.py:125-129 | a success after network failures ends the loop successfully after exactly that many starts |
| CoreBase.NonNetworkPropagates | content_loader/core/base.py:137-142 | a failure other than a network error is raised at once, with no retry |
| CoreBase.ExhaustedRaisesLast | content_loader/core/base.py:130-142 | network failures on every start: `max_retries` starts, `max_retries - 1` sleeps, and the last failure is raised |
| CoreBase.DefaultDelays | content_loader/core/base.py:99-134 | with the defaults the sleeps are at most 1 and then 2 seconds |
| CoreBase.RetryAgain | content_loader/core/base.py:127-136 | a retried start moves its items and its sleep from the rest of the loop into what is done |
| CoreBase.RetryEnd | content_loader/core/base.py:125-142 | a start that is not retried ends the loop with its items and its outcome |
| CoreBase.Execute | content_loader/core/base.py:66-85 | `execute` runs the loader's fetch over the effective range through the retry handler |
| CoreBase.Width | content_loader/core/base.py:182-184 | the flush length is at least 1 and equals a positive batch size |
| CoreBase.SimpleMemoryManager.constructor | content_loader/core/base.py:152-160 | the manager keeps the given batch size and collection flag |
| CoreBase.SimpleMemoryManager.Default | content_loader/core/base.py:152-160 | the defaults are batches of 20 with collection on |
| CoreBase.SimpleMemoryManager.ProcessBatch | content_loader/core/base.py:162-194 | no batch is empty; all but the last have exactly the effective size (the override if truthy, else the manager's), the last at most that; a completed stream is the batches joined in order, in `ceil(n/size)` batches, none for an empty stream; a stream that raises passes its error on after the full batches of what it yielded, and the partial batch (shorter than the size) is dropped |
| CoreBase.FlattenSnoc | content_loader/core/base.py:184-186 | flushing one more batch appends its documents to what was emitted |
| CoreBase.FullLength | content_loader/core/base.py:182-186 | full batches of width w hold `count * w` documents |
| CoreBase.BatchCount | content_loader/core/base.py:182-194 | batches shaped as `process_batch` emits them number `ceil(n/w)` |
| Exceptions.Mro | content_loader/core/exceptions.py:10-323 | every class's resolution order starts with itself and ends with `Exception` |
| Exceptions.MroFollowsParent | content_loader/core/exceptions.py:10-323 | only `Exception` has no base; every other class's resolution order is the class followed by its direct base's order |
| Exceptions.DataSourceIsLoaderError | content_loader/core/exceptions.py:84-90 | every data source error is a `ContentLoaderError` |
| Exceptions.Builtin | content_loader/core/base.py:131 | a built-in exception such as the caught `ConnectionError`, `TimeoutError` or `OSError` has the given class and no details |
| Exceptions.BuiltinStr | content_loader/core/executor.py:156 | `str()` of a built-in exception is its message |
| Exceptions.StrIsMessageIffNoDetails | content_loader/core/exceptions.py:24-28 | `str(error)` starts with the message and is the bare message exactly when the details are empty |
| Exceptions.NewContentLoaderError | content_loader/core/exceptions.py:13-22 | the error keeps the message; missing details become `{}` |
| Exceptions.FirstClash | content_loader/core/exceptions.py:49-323 | Python reports a duplicate keyword exactly when a keyword names one of the constructor's parameters, and names that keyword |
| Exceptions.BindError | content_loader/core/exceptions.py:49-323 | binding the keyword arguments fails with `TypeError` exactly when a keyword clashes |
| Exceptions.MultipleValues | content_loader/core/exceptions.py:49-323 | the duplicate-keyword failure is a `TypeError` |
| Exceptions.Keyed | content_loader/core/exceptions.py:49-57 | a constructor with identifying keys succeeds exactly when no keyword clashes; its details are the identifying keys followed by the keyword arguments |
| Exceptions.ConsKeyword | content_loader/core/exceptions.py:135-217 | passing one more named keyword adds its key in front and clashes exactly when that key or one of the rest clashes |
| Exceptions.NewSourceConfigurationError | content_loader/core/exceptions.py:46-57 | message `"Configuration error for {type}:{key} - {message}"`; details `source_type`, `source_key`, then the keywords; `TypeError` on a clash |
| Exceptions.SourceMessage | content_loader/core/exceptions.py:90 | the data source message is `"{source_type} error: {message}"` |
| Exceptions.NewDataSourceError | content_loader/core/exceptions.py:84-90 | message `"{source_type} error: {message}"`; details `source_type` then the keywords; `TypeError` on a clash |
| Exceptions.RateLimitMessage | content_loader/core/exceptions.py:116-118 | the message is `"Rate limit exceeded"`, extended with the retry time exactly when `retry_after` is truthy |
| Exceptions.NewRateLimitError | content_loader/core/exceptions.py:105-119 | details always hold `source_type` and `retry_after`, then the keywords; `TypeError` when a keyword clashes with either constructor |
| Exceptions.NewServiceError | content_loader/core/exceptions.py:125-199 | a service error is a data source error with the service name as source type |
| Exceptions.NewSlackError | content_loader/core/exceptions.py:125-129 | a Slack error has source type `"slack"` |
| Exceptions.NewGitHubError | content_loader/core/exceptions.py:157-161 | a GitHub error has source type `"github"` |
| Exceptions.NewConfluenceError | content_loader/core/exceptions.py:195-199 | a Confluence error has source type `"confluence"` |
| Exceptions.NewResourceError | content_loader/core/exceptions.py:132-217 | a not-found or permission error adds its own resource key after `source_type`; `TypeError` when a keyword clashes with that key or the data source parameters |
| Exceptions.ResourceKeyword | content_loader/core/exceptions.py:132-217 | passing the resource key through the service constructor clashes exactly as the combined parameter set does |
| Exceptions.NewSlackChannelNotFoundError | content_loader/core/exceptions.py:132-140 | message names the channel; details `source_type`, `channel_id`, then the keywords |
| Exceptions.NewSlackPermissionError | content_loader/core/exceptions.py:143-151 | message names the missing scope; details `source_type`, `required_scope`, then the keywords |
| Exceptions.NewGitHubRepositoryNotFoundError | content_loader/core/exceptions.py:164-172 | message names the repository; details `source_type`, `repository`, then the keywords |
| Exceptions.NewConfluenceSpaceNotFoundError | content_loader/core/exceptions.py:202-210 | message names the space; details `source_type`, `space_key`, then the keywords |
| Exceptions.NewConfluencePageNotFoundError | content_loader/core/exceptions.py:213-217 | message names the page; details `source_type`, `page_id`, then the keywords |
| Exceptions.OptEntry | content_loader/core/exceptions.py:184-188 | an optional value is recorded only when truthy |
| Exceptions.AppAuthDetails | content_loader/core/exceptions.py:184-188 | `app_id` and `installation_id` appear, in that order, only when truthy, and never clash with the data source parameters |
| Exceptions.NewGitHubAppAuthError | content_loader/core/exceptions.py:175-189 | fixed message; details `source_type`, the truthy ids, then the keywords; `TypeError` when a keyword clashes |
| Exceptions.NoClashAppend | content_loader/core/exceptions.py:189 | prepending non-clashing keywords does not change whether the rest clash |
| Exceptions.NoClashWiden | content_loader/core/exceptions.py:135-217 | once a keyword does not name the resource key, it clashes with the widened parameter set exactly when it clashes with the data source parameters |
| Exceptions.NewChunkingError | content_loader/core/exceptions.py:229-237 | message names the document; details `document_id` then the keywords; `TypeError` on a clash |
| Exceptions.NewEmbeddingError | content_loader/core/exceptions.py:240-246 | message names the chunk; details `chunk_id` then the keywords; `TypeError` on a clash |
| Exceptions.NewSummarizationError | content_loader/core/exceptions.py:249-257 | message names the document; details `document_id` then the keywords; `TypeError` on a clash |
| Exceptions.NewVectorStoreError | content_loader/core/exceptions.py:269-275 | message names the operation; details `operation` then the keywords; `TypeError` on a clash |
| Exceptions.NewCacheError | content_loader/core/exceptions.py:278-286 | message names operation and key; details `operation`, `key`, then the keywords; `TypeError` on a clash |
| Exceptions.NewLoaderExecutionError | content_loader/core/exceptions.py:298-313 | message `"Loader execution failed for {type}:{key} - {message}"`; details `loader_type`, `source_key`, then the keywords; `TypeError` on a clash |
| Exceptions.NewConcurrentExecutionError | content_loader/core/exceptions.py:316-323 | the message embeds the failed list; `details["failed_loaders"]` is that list, then the keywords |
| Exceptions.KeyedLookup | content_loader/core/exceptions.py:24-28 | an identifying key reads its own value, any other key the keyword's; with identifying keys `str()` is `"{message} \| Details: {details}"` |
| Exceptions.TruthyValue | content_loader/core/exceptions.py:350-355 | a context value is present exactly when truthy |
| Exceptions.NamedContextKeys | content_loader/core/exceptions.py:348-355 | the context holds `operation`, then each of `source_type`, `source_key`, `document_id` only when truthy, in that order |
| Exceptions.NamedContextValues | content_loader/core/exceptions.py:348-355 | `operation` maps to the operation; each optional key maps to its value when truthy and is absent otherwise |
| Exceptions.SetIfTruthyKeys | content_loader/core/exceptions.py:350-355 | a conditional assignment appends the key exactly when the value is truthy |
| Exceptions.SetIfTruthyOwn | content_loader/core/exceptions.py:350-355 | after a conditional assignment the key maps to the value when truthy |
| Exceptions.SetIfTruthyOther | content_loader/core/exceptions.py:350-355 | a conditional assignment leaves every other key alone |
| Exceptions.CreateErrorContext | content_loader/core/exceptions.py:329-358 | the context is the named entries followed by `extra`; `TypeError` when an extra keyword names a parameter |
| Exceptions.ErrorContextFacts | content_loader/core/exceptions.py:348-358 | the context always has `operation`, has each optional key only when truthy, and every extra key maps to its extra value |
| Exceptions.MergeExtra | content_loader/core/exceptions.py:357 | `context.update(extra)` appends the extra keys, and extra values win |
| Exceptions.RetryableKinds | content_loader/core/exceptions.py:361-379 | an error is retryable exactly when it is a `ConnectionError`, `TimeoutError`, `OSError` (with their subclasses), `DataSourceUnavailableError` or `RateLimitError` |
| Exceptions.OSErrorKinds | content_loader/core/exceptions.py:371-374 | the `OSError` subclasses in the model are `OSError`, `ConnectionError`, `ConnectionResetError`, `TimeoutError` and `FileNotFoundError` |
| Exceptions.OSErrorBases | content_loader/core/exceptions.py:371-374 | `ConnectionError` and `TimeoutError` subclasses are `OSError` subclasses |
| Exceptions.RetryableLeaves | content_loader/core/exceptions.py:375-376 | `DataSourceUnavailableError` and `RateLimitError` have no subclasses |
| Exceptions.PermanentErrorsNotRetryable | content_loader/core/exceptions.py:361-379 | authentication, configuration, not-found and processing errors are not retryable |
| Exceptions.ExtractRetryDelay | content_loader/core/exceptions.py:382-393 | the delay is `None` for anything but a rate-limit error, and for one without `retry_after` |
| Exceptions.RetryDelayRoundTrip | content_loader/core/exceptions.py:382-393 | a constructed `RateLimitError` is retryable and gives back exactly the `retry_after` it was built with |
| Executor.ExecutorKey | content_loader/core/executor.py:51 | the key `"{type}:{source_key}"` splits at the first colon back into the type value and the source key |
| Executor.ExecutorKeyInjective | content_loader/core/executor.py:51 | distinct sources get distinct executor keys |
| Executor.CreateExecutor | content_loader/core/executor.py:70-101 | creating an executor always raises `ConfigurationError("Unsupported source type: …")` |
| Executor.InitFailure | content_loader/core/executor.py:58-68 | a creation failure is re-raised as `ConfigurationError("Failed to initialize {key}")` |
| Executor.InitFailureDetails | content_loader/core/executor.py:60-68 | its details hold `operation="executor_init"`, the source type, the source key when non-empty, no document id, and the original error text |
| Executor.InitError | content_loader/core/executor.py:45-68 | initialisation fails exactly when some source is enabled |
| Executor.InitErrorFirstEnabled | content_loader/core/executor.py:47-68 | disabled sources are skipped, and the first enabled source is the one reported |
| Executor.LoaderExecutor.constructor | content_loader/core/executor.py:27-43 | the executor keeps the sources (`[]` for none), starts with no executors and no statistics, and a default memory manager |
| Executor.LoaderExecutor.InitializeExecutors | content_loader/core/executor.py:45-68 | the initialisation loop reports the failure `InitError` specifies |
| Executor.LoaderExecutor.FailInitialization | content_loader/core/executor.py:53-68 | the except branch raises the wrapped creation failure |
| Executor.NewLoaderExecutor | content_loader/core/executor.py:27-68 | construction succeeds exactly when no source is enabled, with empty tables, and otherwise raises the first enabled source's failure |
| Executor.LoaderExecutor.Register | content_loader/core/executor.py:55 | registering an executor assigns its key and leaves the statistics alone |
| Executor.SuccessRate | content_loader/core/executor.py:169-173 | the rate lies in [0, 1]; it is 1 exactly when documents were processed without error, 0 exactly when none were processed |
| Executor.RatioBounds | content_loader/core/executor.py:169-173 | a part over its whole lies in [0, 1] |
| Executor.RunStatsFacts | content_loader/core/executor.py:133-174 | after a run `documents_processed` is the number yielded, `errors_count` is 1 exactly when the run raised, and the rate is 1 exactly for a successful non-empty run |
| Executor.NotFound | content_loader/core/executor.py:122-129 | an unknown key raises `LoaderExecutionError` naming the loader and source |
| Executor.FailureKwargs | content_loader/core/executor.py:157-158 | the failure adds `error_type` and `documents_processed` |
| Executor.LoaderIdent | content_loader/core/executor.py:153-155 | the loader error is identified by `loader_type` and `source_key` |
| Executor.FailureKwargsNoClash | content_loader/core/executor.py:153-159 | those keywords never clash with the constructor's parameters |
| Executor.WrapFailure | content_loader/core/executor.py:150-159 | a failed run is re-raised as `LoaderExecutionError("Execution failed: {error}")` |
| Executor.WrapFailureDetails | content_loader/core/executor.py:153-159 | its details give the loader type, source key, the original class name and the count processed |
| Executor.RunError | content_loader/core/executor.py:136-159 | a run raises exactly when the underlying execution raised |
| Executor.LoaderExecutor.RunSingleLoader | content_loader/core/executor.py:103-179 | an unknown key yields nothing, raises `NotFound` and records nothing; a known one yields the executor's documents, raises exactly on its failure, and records its statistics under the key |
| Executor.LoaderExecutor.Finish | content_loader/core/executor.py:150-174 | the except and finally blocks raise the wrapped failure and record the run's statistics |
| Executor.LoaderExecutor.RecordStats | content_loader/core/executor.py:164-174 | the statistics of one key are replaced, nothing else changes |
| Executor.LoaderExecutor.RunOne | content_loader/core/executor.py:204-221 | one fan-out task collects the executor's documents, or `[]` when it failed, reports the failure, and records its statistics |
| Executor.LoaderExecutor.RunAllLoaders | content_loader/core/executor.py:181-246 | the result and the new statistics are `AllLoadersResult` and `StatsAfter` of the executor table |
| Executor.AllLoadersRaisesIffAllFail | content_loader/core/executor.py:196-238 | no executors give `{}`; the run raises `ConcurrentExecutionError` listing the failed keys exactly when every executor failed |
| Executor.CollectGet | content_loader/core/executor.py:204-221 | every executor key appears in the result, mapped to its documents, or `[]` for a failed loader |
| Executor.FailedMembers | content_loader/core/executor.py:218-220 | a key is listed as failed exactly when its loader raised |
| Executor.AllFailed | content_loader/core/executor.py:237 | the failed list has the executor count exactly when every loader failed |
| Executor.StatsAfterGet | content_loader/core/executor.py:164 | after the run every executor key holds its run's statistics and other keys keep theirs |
| Executor.FanOutStep | content_loader/core/executor.py:204-227 | running one more executor extends the result, the failed list and the statistics by that executor alone |
| Executor.NotYetCollected | content_loader/core/executor.py:216-221 | no executor key is collected twice |
| Executor.LoaderExecutor.RunLoadersByType | content_loader/core/executor.py:248-288 | the result is the collected documents of exactly the `"{type}:"` executors; statistics change for those alone |
| Executor.TypePrefix | content_loader/core/executor.py:263 | the prefix is the type value followed by a colon |
| Executor.MatchingGet | content_loader/core/executor.py:260-264 | the matching table holds exactly the keys with the prefix, with their executors |
| Executor.MatchingEntry | content_loader/core/executor.py:260-273 | every matching key contains a colon and maps to its executor |
| Executor.TypeKeySplit | content_loader/core/executor.py:263-273 | a key with the type prefix splits into the type value and the rest |
| Executor.ByTypeGet | content_loader/core/executor.py:260-288 | the by-type result has exactly the prefixed keys, each mapped to its collected documents |
| Executor.TotalErrors | content_loader/core/executor.py:302-304 | with consistent statistics the error total is at most the loader count |
| Executor.TotalRate | content_loader/core/executor.py:305-307 | with consistent statistics the rate total is at most the loader count |
| Executor.LoaderExecutor.GetExecutionStats | content_loader/core/executor.py:290-317 | no statistics give the fixed message; otherwise the summary counts the loaders, has at most one error per loader and an average rate in [0, 1], with the per-loader table |
| Executor.OverallStatusCases | content_loader/core/executor.py:374-378 | "healthy" exactly when none is unhealthy, "degraded" when some are unhealthy and some healthy, "unhealthy" when all of a non-empty set are |
| Executor.LoaderExecutor.HealthCheck | content_loader/core/executor.py:335-380 | healthy plus unhealthy is the total; every executor key is reported, each healthy; the status follows the counts |
| Executor.HealthStep | content_loader/core/executor.py:356-365 | reporting one more executor keeps the report's keys equal to the executors visited, all healthy |
| Models.SourceTypeValue | content_loader/core/models/base.py:14-19 | type values are non-empty and contain no colon |
| Models.SourceTypeValueInjective | content_loader/core/models/base.py:14-19 | distinct types have distinct values |
| Models.ShortHash | content_loader/core/models/base.py:97 | the hash is the first 16 hex digits |
| Models.BarJoinInjective | content_loader/core/models/processing.py:40 | joining two fields with `\|` is reversible when the first has no `\|` |
| Models.BarJoin3Injective | content_loader/core/models/base.py:96 | joining three fields with `\|` is reversible when the first two have no `\|` |
| Models.DocumentMetadata.constructor | content_loader/core/models/base.py:39-56 | the metadata keeps every field it is given |
| Models.DocumentMetadata.Standard | content_loader/core/models/base.py:60-67 | the standard entries are the six fixed keys in order |
| Models.DocumentMetadata.ToDict | content_loader/core/models/base.py:58-69 | the keys are the six standard ones followed by the new keys of `extra` |
| Models.MetadataToDictGet | content_loader/core/models/base.py:58-69 | an `extra` entry overrides the standard value of its key |
| Models.MetadataToDictDefaults | content_loader/core/models/base.py:63-66 | an absent content type or timestamp serialises to `None` |
| Models.BackFill | content_loader/core/models/base.py:88-92 | an own timestamp is kept; an unset one takes the metadata's |
| Models.Document.constructor | content_loader/core/models/base.py:72-92 | the document keeps its fields, with the timestamps back-filled from the metadata |
| Models.Document.PostInit | content_loader/core/models/base.py:86-92 | `__post_init__` copies a metadata timestamp only into an unset field and never changes a set one |
| Models.Document.GenerateHash | content_loader/core/models/base.py:94-97 | the hash is 16 characters long |
| Models.GenerateHashDeterminedByTriple | content_loader/core/models/base.py:94-97 | equal (title, text, source id) give equal hashes |
| Models.HashContentInjective | content_loader/core/models/base.py:96 | without `\|` in title and text, the hashed string determines that triple |
| Models.DocumentKeysDistinct | content_loader/core/models/base.py:101-110 | the document keys are distinct |
| Models.Document.ToDict | content_loader/core/models/base.py:99-110 | the keys are exactly id, title, text, url, created_at, updated_at, metadata, content_hash |
| Models.DocumentToDictValues | content_loader/core/models/base.py:99-110 | `metadata` is the metadata's dict, `content_hash` is `generate_hash()`, timestamps are `None` when unset |
| Models.LoaderSourceKeysDistinct | content_loader/core/models/base.py:125-131 | the source keys are distinct |
| Models.LoaderSource.ToDict | content_loader/core/models/base.py:123-131 | the dict has the five keys, each holding its field |
| Models.NewLoaderSource | content_loader/core/models/base.py:113-121 | `enabled` defaults to true and `config` to `{}` |
| Models.LoaderSourceToDictInjective | content_loader/core/models/base.py:123-131 | two sources with equal dicts are equal |
| Models.FirstBar | content_loader/core/models/base.py:96 | the first `\|` of a join is right after a field without one |
| Processing.ChunkHash | content_loader/core/models/processing.py:38-41 | the chunk hash is 16 characters long |
| Processing.ProcessedChunk.constructor | content_loader/core/models/processing.py:14-36 | the chunk keeps its fields; a falsy content hash is replaced by the hash of `text\|document_id\|chunk_index`, a truthy one is kept |
| Processing.ProcessedChunk.PostInit | content_loader/core/models/processing.py:33-36 | `__post_init__` sets a missing hash and keeps a supplied one |
| Processing.ChunkHashDeterminedByTriple | content_loader/core/models/processing.py:38-41 | equal (text, document id, index) give equal hashes |
| Processing.ChunkHashContentInjective | content_loader/core/models/processing.py:40 | without `\|` in text and id, the hashed string determines the triple |
| Processing.ProcessedChunk.ToVectorPayload | content_loader/core/models/processing.py:43-65 | the in-place payload construction yields the specification `Payload` |
| Processing.PayloadBaseKeysDistinct | content_loader/core/models/processing.py:45-52 | the six base keys are distinct |
| Processing.BaseKeys | content_loader/core/models/processing.py:45-52 | the base payload has the six base keys in order |
| Processing.CodeEntriesWellFormed | content_loader/core/models/processing.py:58-63 | the code entries use only `start_line`, `end_line` and `node_type` |
| Processing.CodeEntriesGet | content_loader/core/models/processing.py:58-63 | `start_line` and `end_line` are present iff not `None` (0 included), `node_type` iff non-empty |
| Processing.PayloadKeys | content_loader/core/models/processing.py:43-65 | the payload starts with chunk_id, text, chunk_type, chunk_index, document_id, content_hash |
| Processing.PayloadGet | content_loader/core/models/processing.py:43-65 | a code entry wins over a metadata entry, which wins over a base entry |
| Processing.PayloadMetadataOverrides | content_loader/core/models/processing.py:55 | outside the code keys, source metadata overrides the base entries |
| Processing.PayloadCodeFields | content_loader/core/models/processing.py:58-63 | each code field set on the chunk appears with its value; an unset one leaves the metadata's value |
| Processing.PayloadCodeField | content_loader/core/models/processing.py:58-63 | for a code key the code entry wins, else the metadata's |
| Processing.CodeKeysNotBase | content_loader/core/models/processing.py:45-63 | no code key is a base key |
| Sources.Enrich | content_loader/core/models/source.py:31-38 | `extra.update(e)` keeps the old keys in order, appends the new ones, and the new values win |
| Sources.EnrichAt | content_loader/core/models/source.py:31-38 | every written key holds its new value |
| Sources.EnrichOther | content_loader/core/models/source.py:31-38 | every other key keeps its value |
| Sources.NewSlackMessage | content_loader/core/models/source.py:13-38 | the base document is built from the given fields with the timestamp back-fill, and the shared `metadata.extra` is updated with the Slack entries |
| Sources.SlackExtraFacts | content_loader/core/models/source.py:31-38 | channel_id, user_id and thread_ts are written as given, `is_thread_reply` is true iff `thread_ts` is set, and other keys are preserved |
| Sources.Labels | content_loader/core/models/source.py:65 | missing labels become `[]` |
| Sources.NewGitHubIssue | content_loader/core/models/source.py:41-67 | the base document as above, with the issue entries written into the shared extra |
| Sources.IssueExtraFacts | content_loader/core/models/source.py:60-67 | repository, issue_number and state are stored as given, labels as the list or `[]`, and other keys are preserved |
| Sources.NewGitHubFile | content_loader/core/models/source.py:70-96 | the base document as above, with the file entries written into the shared extra |
| Sources.FileExtraFacts | content_loader/core/models/source.py:82-96 | `branch` defaults to "main", `file_size` is recorded even when `None`, and other keys are preserved |
| Sources.NewConfluencePage | content_loader/core/models/source.py:99-119 | the base document as above, with the page entries written into the shared extra |
| Sources.PageExtraFacts | content_loader/core/models/source.py:117-119 | space_key, page_id and version (`None` allowed) are written, and other keys are preserved |
| Sources.DistinctKeys4 | content_loader/core/models/source.py:31-38 | four distinct literal keys form a well-formed dict |
| Sources.DistinctKeys3 | content_loader/core/models/source.py:117-119 | three distinct literal keys form a well-formed dict |
| Text.StripLeftFacts | content_loader/services/document_processor.py:61 | `lstrip` removes exactly the leading whitespace |
| Text.StripRightFacts | content_loader/services/document_processor.py:61 | `rstrip` removes exactly the trailing whitespace |
| Text.StripSplits | content_loader/services/document_processor.py:61 | the text is leading whitespace, the stripped text and trailing whitespace, and the stripped text neither starts nor ends with whitespace |
| Text.Reassemble | content_loader/services/document_processor.py:61 | stripping both ends of a string leaves its middle |
| Text.RFind | content_loader/services/document_processor.py:53 | `rfind` gives -1 or an index of the character |
| Text.RFindLast | content_loader/services/document_processor.py:53 | no occurrence lies after the index `rfind` gives |
| Text.Find | content_loader/core/executor.py:207 | `find` gives -1 when the character is absent, else its first index |
| Text.SplitFirstColon | content_loader/core/executor.py:273 | `split(":", 1)` fails without a colon and otherwise rejoins to the key, its first part free of colons |
| Text.SplitJoin | content_loader/core/executor.py:207 | splitting a joined key gives back its parts when the first has no colon |
| Text.NatToStringDigits | content_loader/services/document_processor.py:60 | a natural number prints as decimal digits, two or more from 10 on |
| Text.IntToStringSign | content_loader/services/document_processor.py:60 | an integer prints with a minus sign exactly when negative |
| Text.DigitCharInjective | content_loader/services/document_processor.py:60 | distinct digits print as distinct characters |
| Text.NatToStringInjective | content_loader/services/document_processor.py:60 | distinct naturals print differently |
| Text.IntToStringInjective | content_loader/core/models/processing.py:40 | distinct integers print differently |
| Values.OptStr | content_loader/core/models/source.py:35 | an optional string is `None` exactly when unset |
| Values.OptInt | content_loader/core/models/source.py:94 | an optional integer is `None` exactly when unset |
| Values.OptTime | content_loader/core/models/base.py:65-66 | an optional timestamp is `None` exactly when unset |
| Values.StrList | content_loader/core/exceptions.py:321 | a list of strings is stored element by element |
| Values.ReprDict | content_loader/core/exceptions.py:27 | the repr of a dict starts with `{` |

## Left out

- Asynchrony: `asyncio.Semaphore` and `gather` in `run_all_loaders` are modelled as one sequential pass over the executor keys in insertion order; interleavings and `max_concurrent` are not modelled.
- Async generators are modelled by their whole run (`Attempt`), so documents yielded before a consumer stops early are not distinguished from a full run.
- Clocks: `datetime.now()`, `start_time`, `execution_time_seconds` and the health-check timestamp are a parameter or left out of the statistics; timestamps are integers.
- `isoformat` and `datetime` formatting: a timestamp value stands for its formatted string.
- Sleeping: `asyncio.sleep` is recorded as the list of delays slept, not executed.
- Logging, `gc.collect()` and the `settings` object: no effect on results, left out.
- SHA-256: the digest is a parameter `sha`, a function from the joined string to 16 hex characters; only its inputs are modelled.
- Floating point: `success_rate`, `average_success_rate`, `base_delay` and `chunk_size * 0.5` are exact reals, or the integer test `2 * last_space > chunk_size`; rounding is not modelled.
- `Executor.LoaderExecutor.RunAllLoaders`, `Executor.LoaderExecutor.RunLoadersByType` and `Executor.LoaderExecutor.HealthCheck` are proved for any executor table that satisfies `Valid()`. `_create_executor` raises for every source type, so the source itself never fills the table; `Register` stands in for a working executor factory.
- `Executor.LoaderExecutor.HealthCheck`: `DateRange()` cannot raise, so the unhealthy branch is unreachable and every executor is reported healthy.
- Executor keys without a colon, which only a hand-filled table could hold, make `split(":", 1)` raise outside the coroutine's `try`; `gather` then swallows that failure, so such a key is neither in the result nor in the failed list. The model does the same and does not model the swallowed exception object.
- `list_configured_sources` and `get_enabled_executors`: accessors over `LoaderSource.ToDict` and the table's keys, left out as they hold no rule of their own.
- Python `repr` of values is modelled for `None`, booleans, integers, strings (quote choice and the `\\`, `\n`, `\r`, `\t` escapes), lists and dicts. Escaping of other non-printable characters and the repr of `datetime` objects are simplified.
- `str(SourceType.X)` inside the `_create_executor` message is modelled as `SourceType.SLACK` and so on.
- The exception tree covers the repository's classes and the built-ins the core meets (`Exception`, `OSError`, `ConnectionError`, `ConnectionResetError`, `TimeoutError`, `FileNotFoundError`, `ValueError`, `TypeError`); other built-in exceptions are not modelled.
- Exceptions.MultipleValues: the message is `__init__() got multiple values for argument 'x'`; the class-qualified `Class.__init__()` prefix that CPython 3.10 and later print is not modelled.
- Constructors with `**kwargs` take `WellFormed(kwargs)`, since a Python call cannot pass one keyword twice.
- The internal constructor functions (`NewServiceError`, `NewResourceError`, `NewDataSourceError`) accept any `kind`; they do not require that kind to be the matching subclass.
- Vector store, embedding service, `process_document`, `process_documents`, `search_documents`, the CLI and configuration loading are not part of this model.

## Findings

| source | as written | input that shows it | evidently intended | confidence | as-written member | corrected member |
|---|---|---|---|---|---|---|
| content_loader/services/document_processor.py:47-57 | the next window always starts at `i + chunk_size`, even after the current window was trimmed back to its last space | text `"abc defgh"`, `chunk_size` 5: the first window `"abc d"` is trimmed to `"abc"`, the next starts at 5, and the chunks are `"abc"` and `"efgh"`, so `d` is in no chunk | trimming at a word boundary should move the cut, not drop text: the next window should start where the kept piece ends, so the chunks together cover the text | not executed | DocumentProcessing.TrimmedTextIsDropped | DocumentProcessing.CarryPiecesCover |
