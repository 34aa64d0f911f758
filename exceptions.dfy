/**
 * The loader's exception classes: the class tree, how each constructor builds its
 * message and its `details` dict, `str(error)`, and the helpers that build error
 * contexts and classify errors for retrying.
 */
module Exceptions {
  import opened Wrappers
  import opened Dicts
  import opened Text
  import opened Values

  /** The exception classes: Python built-ins the loader meets, then the loader's own. */
  datatype ExcKind =
    | Exception | ValueError | TypeError
    | OSError | ConnectionError | ConnectionResetError | TimeoutError | FileNotFoundError
    | ContentLoaderError
    | ConfigurationError | ValidationError | SourceConfigurationError
    | AuthenticationError | AuthorizationError | TokenExpiredError
    | DataSourceError | DataSourceUnavailableError | DataSourceNotFoundError | RateLimitError
    | SlackError | SlackChannelNotFoundError | SlackPermissionError
    | GitHubError | GitHubRepositoryNotFoundError | GitHubAppAuthError
    | ConfluenceError | ConfluenceSpaceNotFoundError | ConfluencePageNotFoundError
    | ProcessingError | ChunkingError | EmbeddingError | SummarizationError
    | StorageError | VectorStoreError | CacheError
    | ExecutionError | LoaderExecutionError | ConcurrentExecutionError

  /** The direct base class; `Exception` is the root of the tree modelled here. */
  function Parent(k: ExcKind): Option<ExcKind>
  {
    match k
    case Exception => None
    case ValueError | TypeError | OSError | ContentLoaderError => Some(Exception)
    case ConnectionError | TimeoutError | FileNotFoundError => Some(OSError)
    case ConnectionResetError => Some(ConnectionError)
    case ConfigurationError | ValidationError | AuthenticationError | AuthorizationError
      | DataSourceError | ProcessingError | StorageError | ExecutionError => Some(ContentLoaderError)
    case SourceConfigurationError => Some(ConfigurationError)
    case TokenExpiredError => Some(AuthenticationError)
    case DataSourceUnavailableError | DataSourceNotFoundError | RateLimitError
      | SlackError | GitHubError | ConfluenceError => Some(DataSourceError)
    case SlackChannelNotFoundError | SlackPermissionError => Some(SlackError)
    case GitHubRepositoryNotFoundError | GitHubAppAuthError => Some(GitHubError)
    case ConfluenceSpaceNotFoundError | ConfluencePageNotFoundError => Some(ConfluenceError)
    case ChunkingError | EmbeddingError | SummarizationError => Some(ProcessingError)
    case VectorStoreError | CacheError => Some(StorageError)
    case LoaderExecutionError | ConcurrentExecutionError => Some(ExecutionError)
  }

  /**
   * `type(e).__mro__` up to `Exception`: the class itself, then its bases from the
   * nearest to the root (every class here has a single base).
   */
  function Mro(k: ExcKind): (m: seq<ExcKind>)
    ensures m != [] && m[0] == k && m[|m| - 1] == Exception
  {
    match k
    case Exception => [k]
    case ValueError => [k, Exception]
    case TypeError => [k, Exception]
    case OSError => [k, Exception]
    case ConnectionError => [k, OSError, Exception]
    case ConnectionResetError => [k, ConnectionError, OSError, Exception]
    case TimeoutError => [k, OSError, Exception]
    case FileNotFoundError => [k, OSError, Exception]
    case ContentLoaderError => [k, Exception]
    case ConfigurationError => [k, ContentLoaderError, Exception]
    case ValidationError => [k, ContentLoaderError, Exception]
    case SourceConfigurationError => [k, ConfigurationError, ContentLoaderError, Exception]
    case AuthenticationError => [k, ContentLoaderError, Exception]
    case AuthorizationError => [k, ContentLoaderError, Exception]
    case TokenExpiredError => [k, AuthenticationError, ContentLoaderError, Exception]
    case DataSourceError => [k, ContentLoaderError, Exception]
    case DataSourceUnavailableError => [k, DataSourceError, ContentLoaderError, Exception]
    case DataSourceNotFoundError => [k, DataSourceError, ContentLoaderError, Exception]
    case RateLimitError => [k, DataSourceError, ContentLoaderError, Exception]
    case SlackError => [k, DataSourceError, ContentLoaderError, Exception]
    case SlackChannelNotFoundError => [k, SlackError, DataSourceError, ContentLoaderError, Exception]
    case SlackPermissionError => [k, SlackError, DataSourceError, ContentLoaderError, Exception]
    case GitHubError => [k, DataSourceError, ContentLoaderError, Exception]
    case GitHubRepositoryNotFoundError => [k, GitHubError, DataSourceError, ContentLoaderError, Exception]
    case GitHubAppAuthError => [k, GitHubError, DataSourceError, ContentLoaderError, Exception]
    case ConfluenceError => [k, DataSourceError, ContentLoaderError, Exception]
    case ConfluenceSpaceNotFoundError => [k, ConfluenceError, DataSourceError, ContentLoaderError, Exception]
    case ConfluencePageNotFoundError => [k, ConfluenceError, DataSourceError, ContentLoaderError, Exception]
    case ProcessingError => [k, ContentLoaderError, Exception]
    case ChunkingError => [k, ProcessingError, ContentLoaderError, Exception]
    case EmbeddingError => [k, ProcessingError, ContentLoaderError, Exception]
    case SummarizationError => [k, ProcessingError, ContentLoaderError, Exception]
    case StorageError => [k, ContentLoaderError, Exception]
    case VectorStoreError => [k, StorageError, ContentLoaderError, Exception]
    case CacheError => [k, StorageError, ContentLoaderError, Exception]
    case ExecutionError => [k, ContentLoaderError, Exception]
    case LoaderExecutionError => [k, ExecutionError, ContentLoaderError, Exception]
    case ConcurrentExecutionError => [k, ExecutionError, ContentLoaderError, Exception]
  }

  /** Each class's resolution order is the class followed by its direct base's order. */
  lemma MroFollowsParent(k: ExcKind)
    ensures k == Exception <==> Parent(k).None?
    ensures Parent(k).Some? ==> Mro(k) == [k] + Mro(Parent(k).value)
  {
  }

  /** `issubclass(k, c)`: `c` is `k` or one of its bases. */
  predicate IsSubclass(k: ExcKind, c: ExcKind)
  {
    c in Mro(k)
  }

  /** Every data source error is an error of the loader. */
  lemma DataSourceIsLoaderError(k: ExcKind)
    requires IsSubclass(k, DataSourceError)
    ensures IsSubclass(k, ContentLoaderError)
  {
  }

  /** `type(e).__name__`. */
  function Name(k: ExcKind): string
  {
    match k
    case Exception => "Exception"
    case ValueError => "ValueError"
    case TypeError => "TypeError"
    case OSError => "OSError"
    case ConnectionError => "ConnectionError"
    case ConnectionResetError => "ConnectionResetError"
    case TimeoutError => "TimeoutError"
    case FileNotFoundError => "FileNotFoundError"
    case ContentLoaderError => "ContentLoaderError"
    case ConfigurationError => "ConfigurationError"
    case ValidationError => "ValidationError"
    case SourceConfigurationError => "SourceConfigurationError"
    case AuthenticationError => "AuthenticationError"
    case AuthorizationError => "AuthorizationError"
    case TokenExpiredError => "TokenExpiredError"
    case DataSourceError => "DataSourceError"
    case DataSourceUnavailableError => "DataSourceUnavailableError"
    case DataSourceNotFoundError => "DataSourceNotFoundError"
    case RateLimitError => "RateLimitError"
    case SlackError => "SlackError"
    case SlackChannelNotFoundError => "SlackChannelNotFoundError"
    case SlackPermissionError => "SlackPermissionError"
    case GitHubError => "GitHubError"
    case GitHubRepositoryNotFoundError => "GitHubRepositoryNotFoundError"
    case GitHubAppAuthError => "GitHubAppAuthError"
    case ConfluenceError => "ConfluenceError"
    case ConfluenceSpaceNotFoundError => "ConfluenceSpaceNotFoundError"
    case ConfluencePageNotFoundError => "ConfluencePageNotFoundError"
    case ProcessingError => "ProcessingError"
    case ChunkingError => "ChunkingError"
    case EmbeddingError => "EmbeddingError"
    case SummarizationError => "SummarizationError"
    case StorageError => "StorageError"
    case VectorStoreError => "VectorStoreError"
    case CacheError => "CacheError"
    case ExecutionError => "ExecutionError"
    case LoaderExecutionError => "LoaderExecutionError"
    case ConcurrentExecutionError => "ConcurrentExecutionError"
  }

  /**
   * A raised exception: its class, its message (`args[0]`, `.message` for the
   * loader's classes) and its `.details` dict (always empty for built-ins).
   */
  datatype Exc = Exc(kind: ExcKind, message: string, details: Dict<Value>)

  /** A built-in exception such as `ConnectionError("reset")`. */
  function Builtin(kind: ExcKind, message: string): (e: Exc)
    ensures e.kind == kind && e.details == []
  {
    Exc(kind, message, [])
  }

  /** `str(e)`: the message, followed by the details when there are any. */
  function Str(e: Exc): string
  {
    if IsSubclass(e.kind, ContentLoaderError) && e.details != []
    then e.message + " | Details: " + ReprDict(e.details)
    else e.message
  }

  /** `str(e)` of a built-in exception is its message. */
  lemma BuiltinStr(kind: ExcKind, message: string)
    ensures Str(Builtin(kind, message)) == message
  {
  }

  /** `str(e)` starts with the message, and is exactly the message iff there are no details. */
  lemma StrIsMessageIffNoDetails(e: Exc)
    requires IsSubclass(e.kind, ContentLoaderError)
    ensures e.message <= Str(e)
    ensures Str(e) == e.message <==> e.details == []
  {
    if e.details != [] {
      assert |Str(e)| > |e.message|;
      assert Str(e) == e.message + (" | Details: " + ReprDict(e.details));
    }
  }

  /** The TypeError Python raises when a keyword argument repeats a parameter. */
  function MultipleValues(name: string): (e: Exc)
    ensures e.kind == TypeError
  {
    Builtin(TypeError, "__init__() got multiple values for argument '" + name + "'")
  }

  /** The first key, in keyword order, that names one of `params`. */
  function FirstClash(keys: seq<string>, params: set<string>): (r: Option<string>)
    ensures r.None? <==> forall i :: 0 <= i < |keys| ==> keys[i] !in params
    ensures r.Some? ==> r.value in params && r.value in keys
  {
    if keys == [] then None
    else if keys[0] in params then Some(keys[0])
    else FirstClash(keys[1..], params)
  }

  /** No keyword of `kwargs` names one of `params`. */
  predicate NoClash(kwargs: Dict<Value>, params: set<string>)
  {
    forall k :: k in Keys(kwargs) ==> k !in params
  }

  /**
   * `ContentLoaderError.__init__(message, details)`, reached by every loader class:
   * `details or {}`.
   */
  function NewContentLoaderError(kind: ExcKind, message: string, details: Option<Dict<Value>>): (e: Exc)
    ensures e.kind == kind && e.message == message
    ensures details.None? ==> e.details == []
    ensures details.Some? ==> e.details == details.value
  {
    Exc(kind, message, if details.Some? then details.value else [])
  }

  /**
   * The shape shared by the constructors that call `ContentLoaderError.__init__`
   * directly: `details = {identifying keys}; details.update(kwargs)`. A keyword that
   * repeats a parameter name raises TypeError when the call binds its arguments, so
   * once binding succeeds the update only appends the keywords, in their order.
   */
  function Keyed(kind: ExcKind, message: string, ident: Dict<Value>, kwargs: Dict<Value>, params: set<string>): (r: Result<Exc, Exc>)
    requires WellFormed(ident) && WellFormed(kwargs)
    requires forall k :: k in Keys(ident) ==> k in params
    ensures r.Ok? <==> NoClash(kwargs, params)
    ensures r.Err? ==> r.error.kind == TypeError
    ensures r.Ok? ==> r.value == Exc(kind, message, ident + kwargs) && WellFormed(ident + kwargs)
  {
    match BindError(kwargs, params)
    case Some(e) => Err(e)
    case None =>
      AppendDisjointUpdate(ident, kwargs);
      AppendWellFormed(ident, kwargs);
      Ok(NewContentLoaderError(kind, message, Some(Update(ident, kwargs))))
  }

  /** The TypeError raised when binding `kwargs` to a constructor with these parameters, if any. */
  function BindError(kwargs: Dict<Value>, params: set<string>): (r: Option<Exc>)
    ensures r.None? <==> NoClash(kwargs, params)
    ensures r.Some? ==> r.value.kind == TypeError
  {
    match FirstClash(Keys(kwargs), params)
    case Some(name) => Some(MultipleValues(name))
    case None => None
  }

  /** A keyword prepended to `kwargs`, as in `f(channel_id=c, **kwargs)` once `kwargs` lacks it. */
  lemma ConsKeyword(k: string, v: Value, kwargs: Dict<Value>, params: set<string>)
    requires WellFormed(kwargs) && k !in Keys(kwargs)
    ensures Keys([(k, v)] + kwargs) == [k] + Keys(kwargs)
    ensures WellFormed([(k, v)] + kwargs)
    ensures NoClash([(k, v)] + kwargs, params) <==> k !in params && NoClash(kwargs, params)
  {
    AppendWellFormed([(k, v)], kwargs);
  }

  // ----- message formats -----
  // Each constructor formats its message from its arguments as below.

  function ConfigurationMessage(sourceType: string, sourceKey: string, message: string): string
  {
    "Configuration error for " + sourceType + ":" + sourceKey + " - " + message
  }

  function ChannelNotFoundMessage(channelId: string): string
  {
    "Channel not found or not accessible: " + channelId
  }

  function MissingScopeMessage(requiredScope: string): string
  {
    "Missing required scope: " + requiredScope
  }

  function RepositoryNotFoundMessage(repository: string): string
  {
    "Repository not found or not accessible: " + repository
  }

  function SpaceNotFoundMessage(spaceKey: string): string
  {
    "Space not found or not accessible: " + spaceKey
  }

  function PageNotFoundMessage(pageId: string): string
  {
    "Page not found: " + pageId
  }

  function AppAuthMessage(): string
  {
    "GitHub App authentication failed"
  }

  function ChunkingMessage(documentId: string, message: string): string
  {
    "Chunking failed for document " + documentId + ": " + message
  }

  function EmbeddingMessage(chunkId: string, message: string): string
  {
    "Embedding failed for chunk " + chunkId + ": " + message
  }

  function SummarizationMessage(documentId: string, message: string): string
  {
    "Summarization failed for document " + documentId + ": " + message
  }

  function VectorStoreMessage(operation: string, message: string): string
  {
    "Vector store " + operation + " failed: " + message
  }

  function CacheMessage(operation: string, key: string, message: string): string
  {
    "Cache " + operation + " failed for key '" + key + "': " + message
  }

  function LoaderExecutionMessage(loaderType: string, sourceKey: string, message: string): string
  {
    "Loader execution failed for " + loaderType + ":" + sourceKey + " - " + message
  }

  function ConcurrentMessage(failedLoaders: seq<string>): string
  {
    "Multiple loaders failed: " + Repr(StrList(failedLoaders))
  }

  // ----- configuration errors -----

  /** `SourceConfigurationError(source_type, source_key, message, **kwargs)`. */
  function NewSourceConfigurationError(sourceType: string, sourceKey: string, message: string, kwargs: Dict<Value>): (r: Result<Exc, Exc>)
    requires WellFormed(kwargs)
    ensures r.Ok? <==> NoClash(kwargs, {"self", "source_type", "source_key", "message"})
    ensures r.Err? ==> r.error.kind == TypeError
    ensures r.Ok? ==> r.value == Exc(SourceConfigurationError,
      ConfigurationMessage(sourceType, sourceKey, message),
      [("source_type", VStr(sourceType)), ("source_key", VStr(sourceKey))] + kwargs)
  {
    var ident := [("source_type", VStr(sourceType)), ("source_key", VStr(sourceKey))];
    assert Keys(ident) == ["source_type", "source_key"];
    Keyed(SourceConfigurationError, ConfigurationMessage(sourceType, sourceKey, message),
      ident, kwargs, {"self", "source_type", "source_key", "message"})
  }

  // ----- data source errors -----

  /** The message of every data source error: the source type, then the description. */
  function SourceMessage(sourceType: string, message: string): (m: string)
    ensures sourceType <= m && |m| == |sourceType| + 8 + |message|
    ensures m[|sourceType|..|sourceType| + 8] == " error: " && m[|sourceType| + 8..] == message
  {
    sourceType + " error: " + message
  }

  /**
   * `DataSourceError.__init__(source_type, message, **kwargs)`, reached by every data
   * source class (`kind` is the class being constructed).
   */
  function NewDataSourceError(kind: ExcKind, sourceType: string, message: string, kwargs: Dict<Value>): (r: Result<Exc, Exc>)
    requires WellFormed(kwargs)
    ensures r.Ok? <==> NoClash(kwargs, {"self", "source_type", "message"})
    ensures r.Err? ==> r.error.kind == TypeError
    ensures r.Ok? ==> r.value == Exc(kind, SourceMessage(sourceType, message), [("source_type", VStr(sourceType))] + kwargs)
    ensures r.Ok? ==> WellFormed(r.value.details)
  {
    Keyed(kind, SourceMessage(sourceType, message), [("source_type", VStr(sourceType))], kwargs,
      {"self", "source_type", "message"})
  }

  /** The description of a rate limit: the delay is mentioned only when it is truthy. */
  function RateLimitMessage(retryAfter: Option<int>): (m: string)
    ensures StartsWith(m, "Rate limit exceeded")
    ensures m == "Rate limit exceeded" <==> retryAfter.None? || retryAfter.value == 0
  {
    var m := "Rate limit exceeded"
      + (if retryAfter.Some? && retryAfter.value != 0
         then ", retry after " + IntToString(retryAfter.value) + " seconds" else "");
    assert m[..19] == "Rate limit exceeded";
    m
  }

  /** `RateLimitError(source_type, retry_after=None, **kwargs)`. */
  function NewRateLimitError(sourceType: string, retryAfter: Option<int>, kwargs: Dict<Value>): (r: Result<Exc, Exc>)
    requires WellFormed(kwargs)
    ensures r.Ok? <==> NoClash(kwargs, {"self", "source_type", "retry_after"}) && NoClash(kwargs, {"self", "source_type", "message"})
    ensures r.Err? ==> r.error.kind == TypeError
    ensures r.Ok? ==> r.value == Exc(RateLimitError, SourceMessage(sourceType, RateLimitMessage(retryAfter)),
      [("source_type", VStr(sourceType)), ("retry_after", OptInt(retryAfter))] + kwargs)
  {
    match BindError(kwargs, {"self", "source_type", "retry_after"})
    case Some(e) => Err(e)
    case None =>
      var details := [("retry_after", OptInt(retryAfter))] + kwargs;
      ConsKeyword("retry_after", OptInt(retryAfter), kwargs, {"self", "source_type", "message"});
      var r := NewDataSourceError(RateLimitError, sourceType, RateLimitMessage(retryAfter), details);
      PairCons(("source_type", VStr(sourceType)), ("retry_after", OptInt(retryAfter)), kwargs);
      r
  }

  /** The constructors of the three per-service bases: a fixed source type. */
  function NewServiceError(kind: ExcKind, service: string, message: string, kwargs: Dict<Value>): (r: Result<Exc, Exc>)
    requires WellFormed(kwargs)
    ensures r.Ok? <==> NoClash(kwargs, {"self", "source_type", "message"})
    ensures r.Err? ==> r.error.kind == TypeError
    ensures r.Ok? ==> r.value == Exc(kind, SourceMessage(service, message), [("source_type", VStr(service))] + kwargs)
  {
    match BindError(kwargs, {"self", "message"})
    case Some(e) => Err(e)
    case None => NewDataSourceError(kind, service, message, kwargs)
  }

  /** `SlackError(message, **kwargs)`: a Slack error with no further detail. */
  function NewSlackError(message: string, kwargs: Dict<Value>): (r: Result<Exc, Exc>)
    requires WellFormed(kwargs)
    ensures r.Ok? <==> NoClash(kwargs, {"self", "source_type", "message"})
    ensures r.Ok? ==> r.value == Exc(SlackError, SourceMessage("slack", message), [("source_type", VStr("slack"))] + kwargs)
  {
    NewServiceError(SlackError, "slack", message, kwargs)
  }

  /** `GitHubError(message, **kwargs)`. */
  function NewGitHubError(message: string, kwargs: Dict<Value>): (r: Result<Exc, Exc>)
    requires WellFormed(kwargs)
    ensures r.Ok? <==> NoClash(kwargs, {"self", "source_type", "message"})
    ensures r.Ok? ==> r.value == Exc(GitHubError, SourceMessage("github", message), [("source_type", VStr("github"))] + kwargs)
  {
    NewServiceError(GitHubError, "github", message, kwargs)
  }

  /** `ConfluenceError(message, **kwargs)`. */
  function NewConfluenceError(message: string, kwargs: Dict<Value>): (r: Result<Exc, Exc>)
    requires WellFormed(kwargs)
    ensures r.Ok? <==> NoClash(kwargs, {"self", "source_type", "message"})
    ensures r.Ok? ==> r.value == Exc(ConfluenceError, SourceMessage("confluence", message), [("source_type", VStr("confluence"))] + kwargs)
  {
    NewServiceError(ConfluenceError, "confluence", message, kwargs)
  }

  /**
   * The not-found and permission errors of the three services: a message naming the
   * resource, which is also passed on as a keyword after `source_type`.
   */
  function NewResourceError(kind: ExcKind, service: string, key: string, value: string, message: string, kwargs: Dict<Value>): (r: Result<Exc, Exc>)
    requires WellFormed(kwargs)
    requires key !in {"self", "source_type", "message"}
    ensures r.Ok? <==> NoClash(kwargs, {"self", key, "source_type", "message"})
    ensures r.Err? ==> r.error.kind == TypeError
    ensures r.Ok? ==> r.value == Exc(kind, SourceMessage(service, message),
      [("source_type", VStr(service)), (key, VStr(value))] + kwargs)
  {
    match BindError(kwargs, {"self", key})
    case Some(e) =>
      Err(e)
    case None =>
      ResourceKeyword(kind, service, key, value, message, kwargs);
      NewServiceError(kind, service, message, [(key, VStr(value))] + kwargs)
  }

  /** The resource keyword passed on after `source_type`, once `kwargs` does not repeat it. */
  lemma ResourceKeyword(kind: ExcKind, service: string, key: string, value: string, message: string, kwargs: Dict<Value>)
    requires WellFormed(kwargs) && NoClash(kwargs, {"self", key})
    requires key !in {"self", "source_type", "message"}
    ensures WellFormed([(key, VStr(value))] + kwargs)
    ensures var r := NewServiceError(kind, service, message, [(key, VStr(value))] + kwargs);
      && (r.Ok? <==> NoClash(kwargs, {"self", key, "source_type", "message"}))
      && (r.Ok? ==> r.value == Exc(kind, SourceMessage(service, message),
            [("source_type", VStr(service)), (key, VStr(value))] + kwargs))
  {
    NoClashWiden(kwargs, key);
    ConsKeyword(key, VStr(value), kwargs, {"self", "source_type", "message"});
    PairCons(("source_type", VStr(service)), (key, VStr(value)), kwargs);
  }

  /** `SlackChannelNotFoundError(channel_id, **kwargs)`. */
  function NewSlackChannelNotFoundError(channelId: string, kwargs: Dict<Value>): (r: Result<Exc, Exc>)
    requires WellFormed(kwargs)
    ensures r.Ok? <==> NoClash(kwargs, {"self", "channel_id", "source_type", "message"})
    ensures r.Ok? ==> r.value == Exc(SlackChannelNotFoundError,
      SourceMessage("slack", ChannelNotFoundMessage(channelId)),
      [("source_type", VStr("slack")), ("channel_id", VStr(channelId))] + kwargs)
  {
    NewResourceError(SlackChannelNotFoundError, "slack", "channel_id", channelId,
      ChannelNotFoundMessage(channelId), kwargs)
  }

  /** `SlackPermissionError(required_scope, **kwargs)`. */
  function NewSlackPermissionError(requiredScope: string, kwargs: Dict<Value>): (r: Result<Exc, Exc>)
    requires WellFormed(kwargs)
    ensures r.Ok? <==> NoClash(kwargs, {"self", "required_scope", "source_type", "message"})
    ensures r.Ok? ==> r.value == Exc(SlackPermissionError,
      SourceMessage("slack", MissingScopeMessage(requiredScope)),
      [("source_type", VStr("slack")), ("required_scope", VStr(requiredScope))] + kwargs)
  {
    NewResourceError(SlackPermissionError, "slack", "required_scope", requiredScope,
      MissingScopeMessage(requiredScope), kwargs)
  }

  /** `GitHubRepositoryNotFoundError(repository, **kwargs)`. */
  function NewGitHubRepositoryNotFoundError(repository: string, kwargs: Dict<Value>): (r: Result<Exc, Exc>)
    requires WellFormed(kwargs)
    ensures r.Ok? <==> NoClash(kwargs, {"self", "repository", "source_type", "message"})
    ensures r.Ok? ==> r.value == Exc(GitHubRepositoryNotFoundError,
      SourceMessage("github", RepositoryNotFoundMessage(repository)),
      [("source_type", VStr("github")), ("repository", VStr(repository))] + kwargs)
  {
    NewResourceError(GitHubRepositoryNotFoundError, "github", "repository", repository,
      RepositoryNotFoundMessage(repository), kwargs)
  }

  /** `ConfluenceSpaceNotFoundError(space_key, **kwargs)`. */
  function NewConfluenceSpaceNotFoundError(spaceKey: string, kwargs: Dict<Value>): (r: Result<Exc, Exc>)
    requires WellFormed(kwargs)
    ensures r.Ok? <==> NoClash(kwargs, {"self", "space_key", "source_type", "message"})
    ensures r.Ok? ==> r.value == Exc(ConfluenceSpaceNotFoundError,
      SourceMessage("confluence", SpaceNotFoundMessage(spaceKey)),
      [("source_type", VStr("confluence")), ("space_key", VStr(spaceKey))] + kwargs)
  {
    NewResourceError(ConfluenceSpaceNotFoundError, "confluence", "space_key", spaceKey,
      SpaceNotFoundMessage(spaceKey), kwargs)
  }

  /** `ConfluencePageNotFoundError(page_id, **kwargs)`. */
  function NewConfluencePageNotFoundError(pageId: string, kwargs: Dict<Value>): (r: Result<Exc, Exc>)
    requires WellFormed(kwargs)
    ensures r.Ok? <==> NoClash(kwargs, {"self", "page_id", "source_type", "message"})
    ensures r.Ok? ==> r.value == Exc(ConfluencePageNotFoundError,
      SourceMessage("confluence", PageNotFoundMessage(pageId)),
      [("source_type", VStr("confluence")), ("page_id", VStr(pageId))] + kwargs)
  {
    NewResourceError(ConfluencePageNotFoundError, "confluence", "page_id", pageId,
      PageNotFoundMessage(pageId), kwargs)
  }

  /** A one-entry dict holding `o` under `key` when `o` is truthy, else an empty dict. */
  function OptEntry(key: string, o: Option<string>): (d: Dict<Value>)
    ensures Keys(d) == if Truthy(o) then [key] else []
    ensures WellFormed(d)
  {
    if Truthy(o) then [(key, VStr(o.value))] else []
  }

  /** The keywords `GitHubAppAuthError` passes on: each id only when it is truthy. */
  function AppAuthDetails(appId: Option<string>, installationId: Option<string>): (d: Dict<Value>)
    ensures Keys(d) == Keys(OptEntry("app_id", appId)) + Keys(OptEntry("installation_id", installationId))
    ensures WellFormed(d)
    ensures NoClash(d, {"self", "source_type", "message"})
  {
    var a := OptEntry("app_id", appId);
    var b := OptEntry("installation_id", installationId);
    AppendWellFormed(a, b);
    assert forall k :: k in Keys(a + b) ==> k == "app_id" || k == "installation_id";
    a + b
  }

  /** `GitHubAppAuthError(app_id=None, installation_id=None, **kwargs)`. */
  function NewGitHubAppAuthError(appId: Option<string>, installationId: Option<string>, kwargs: Dict<Value>): (r: Result<Exc, Exc>)
    requires WellFormed(kwargs)
    ensures r.Ok? <==> NoClash(kwargs, {"self", "app_id", "installation_id"}) && NoClash(kwargs, {"self", "source_type", "message"})
    ensures r.Err? ==> r.error.kind == TypeError
    ensures r.Ok? ==> r.value == Exc(GitHubAppAuthError, SourceMessage("github", AppAuthMessage()),
      [("source_type", VStr("github"))] + AppAuthDetails(appId, installationId) + kwargs)
  {
    match BindError(kwargs, {"self", "app_id", "installation_id"})
    case Some(e) => Err(e)
    case None =>
      var ids := AppAuthDetails(appId, installationId);
      AppendWellFormed(ids, kwargs);
      NoClashAppend(ids, kwargs, {"self", "source_type", "message"});
      var r := NewServiceError(GitHubAppAuthError, "github", AppAuthMessage(), ids + kwargs);
      AppendAssoc([("source_type", VStr("github"))], ids, kwargs);
      r
  }

  lemma PairCons<T>(x: T, y: T, s: seq<T>)
    ensures [x] + ([y] + s) == [x, y] + s
  {
  }

  lemma AppendAssoc<T>(a: seq<T>, b: seq<T>, c: seq<T>)
    ensures a + (b + c) == a + b + c
  {
  }

  /** Once `kwargs` repeats neither `self` nor `key`, adding `key` to the parameters changes nothing. */
  lemma NoClashWiden(kwargs: Dict<Value>, key: string)
    requires NoClash(kwargs, {"self", key})
    ensures NoClash(kwargs, {"self", key, "source_type", "message"}) <==> NoClash(kwargs, {"self", "source_type", "message"})
  {
  }

  lemma NoClashAppend(a: Dict<Value>, b: Dict<Value>, params: set<string>)
    requires NoClash(a, params)
    ensures NoClash(a + b, params) <==> NoClash(b, params)
  {
    KeysAppend(a, b);
  }

  // ----- processing, storage and execution errors -----

  /** `ChunkingError(document_id, message, **kwargs)`. */
  function NewChunkingError(documentId: string, message: string, kwargs: Dict<Value>): (r: Result<Exc, Exc>)
    requires WellFormed(kwargs)
    ensures r.Ok? <==> NoClash(kwargs, {"self", "document_id", "message"})
    ensures r.Err? ==> r.error.kind == TypeError
    ensures r.Ok? ==> r.value == Exc(ChunkingError, ChunkingMessage(documentId, message),
      [("document_id", VStr(documentId))] + kwargs)
  {
    Keyed(ChunkingError, ChunkingMessage(documentId, message),
      [("document_id", VStr(documentId))], kwargs, {"self", "document_id", "message"})
  }

  /** `EmbeddingError(chunk_id, message, **kwargs)`. */
  function NewEmbeddingError(chunkId: string, message: string, kwargs: Dict<Value>): (r: Result<Exc, Exc>)
    requires WellFormed(kwargs)
    ensures r.Ok? <==> NoClash(kwargs, {"self", "chunk_id", "message"})
    ensures r.Err? ==> r.error.kind == TypeError
    ensures r.Ok? ==> r.value == Exc(EmbeddingError, EmbeddingMessage(chunkId, message),
      [("chunk_id", VStr(chunkId))] + kwargs)
  {
    Keyed(EmbeddingError, EmbeddingMessage(chunkId, message),
      [("chunk_id", VStr(chunkId))], kwargs, {"self", "chunk_id", "message"})
  }

  /** `SummarizationError(document_id, message, **kwargs)`. */
  function NewSummarizationError(documentId: string, message: string, kwargs: Dict<Value>): (r: Result<Exc, Exc>)
    requires WellFormed(kwargs)
    ensures r.Ok? <==> NoClash(kwargs, {"self", "document_id", "message"})
    ensures r.Err? ==> r.error.kind == TypeError
    ensures r.Ok? ==> r.value == Exc(SummarizationError, SummarizationMessage(documentId, message),
      [("document_id", VStr(documentId))] + kwargs)
  {
    Keyed(SummarizationError, SummarizationMessage(documentId, message),
      [("document_id", VStr(documentId))], kwargs, {"self", "document_id", "message"})
  }

  /** `VectorStoreError(operation, message, **kwargs)`. */
  function NewVectorStoreError(operation: string, message: string, kwargs: Dict<Value>): (r: Result<Exc, Exc>)
    requires WellFormed(kwargs)
    ensures r.Ok? <==> NoClash(kwargs, {"self", "operation", "message"})
    ensures r.Err? ==> r.error.kind == TypeError
    ensures r.Ok? ==> r.value == Exc(VectorStoreError, VectorStoreMessage(operation, message),
      [("operation", VStr(operation))] + kwargs)
  {
    Keyed(VectorStoreError, VectorStoreMessage(operation, message),
      [("operation", VStr(operation))], kwargs, {"self", "operation", "message"})
  }

  /** `CacheError(operation, key, message, **kwargs)`. */
  function NewCacheError(operation: string, key: string, message: string, kwargs: Dict<Value>): (r: Result<Exc, Exc>)
    requires WellFormed(kwargs)
    ensures r.Ok? <==> NoClash(kwargs, {"self", "operation", "key", "message"})
    ensures r.Err? ==> r.error.kind == TypeError
    ensures r.Ok? ==> r.value == Exc(CacheError, CacheMessage(operation, key, message),
      [("operation", VStr(operation)), ("key", VStr(key))] + kwargs)
  {
    var ident := [("operation", VStr(operation)), ("key", VStr(key))];
    assert Keys(ident) == ["operation", "key"];
    Keyed(CacheError, CacheMessage(operation, key, message),
      ident, kwargs, {"self", "operation", "key", "message"})
  }

  /** `LoaderExecutionError(loader_type, source_key, message, **kwargs)`. */
  function NewLoaderExecutionError(loaderType: string, sourceKey: string, message: string, kwargs: Dict<Value>): (r: Result<Exc, Exc>)
    requires WellFormed(kwargs)
    ensures r.Ok? <==> NoClash(kwargs, {"self", "loader_type", "source_key", "message"})
    ensures r.Err? ==> r.error.kind == TypeError
    ensures r.Ok? ==> r.value == Exc(LoaderExecutionError,
      LoaderExecutionMessage(loaderType, sourceKey, message),
      [("loader_type", VStr(loaderType)), ("source_key", VStr(sourceKey))] + kwargs)
  {
    var ident := [("loader_type", VStr(loaderType)), ("source_key", VStr(sourceKey))];
    assert Keys(ident) == ["loader_type", "source_key"];
    Keyed(LoaderExecutionError, LoaderExecutionMessage(loaderType, sourceKey, message),
      ident, kwargs, {"self", "loader_type", "source_key", "message"})
  }

  /** `ConcurrentExecutionError(failed_loaders, **kwargs)`. */
  function NewConcurrentExecutionError(failedLoaders: seq<string>, kwargs: Dict<Value>): (r: Result<Exc, Exc>)
    requires WellFormed(kwargs)
    ensures r.Ok? <==> NoClash(kwargs, {"self", "failed_loaders"})
    ensures r.Err? ==> r.error.kind == TypeError
    ensures r.Ok? ==> r.value == Exc(ConcurrentExecutionError,
      ConcurrentMessage(failedLoaders),
      [("failed_loaders", StrList(failedLoaders))] + kwargs)
  {
    Keyed(ConcurrentExecutionError, ConcurrentMessage(failedLoaders),
      [("failed_loaders", StrList(failedLoaders))], kwargs, {"self", "failed_loaders"})
  }

  /**
   * Every keyed constructor puts its identifying keys first, with the values it was
   * given, and keeps every keyword argument: `str(e)` then carries the details.
   */
  lemma KeyedLookup(e: Exc, ident: Dict<Value>, kwargs: Dict<Value>, k: string)
    requires WellFormed(ident) && WellFormed(kwargs)
    requires forall j :: j in Keys(ident) ==> j !in Keys(kwargs)
    requires e.details == ident + kwargs
    ensures Get(e.details, k) == if k in Keys(ident) then Get(ident, k) else Get(kwargs, k)
    ensures IsSubclass(e.kind, ContentLoaderError) && ident != [] ==> Str(e) == e.message + " | Details: " + ReprDict(e.details)
  {
    AppendGet(ident, kwargs, k);
  }

  // ----- utility functions -----

  /** `d[k] = v` executed only when the optional argument `o` is truthy. */
  function SetIfTruthy(d: Dict<Value>, k: string, o: Option<string>): (r: Dict<Value>)
  {
    if Truthy(o) then Set(d, k, VStr(o.value)) else d
  }

  /** The value an optional argument contributes to a dict: itself when truthy, else nothing. */
  function TruthyValue(o: Option<string>): (v: Option<Value>)
    ensures v.Some? <==> Truthy(o)
  {
    if Truthy(o) then Some(VStr(o.value)) else None
  }

  /** The parameters of `create_error_context` that `**extra` may not repeat. */
  const ContextParams: set<string> := {"operation", "source_type", "source_key", "document_id"}

  /** The context before `context.update(extra)`. */
  function NamedContext(operation: string, sourceType: Option<string>, sourceKey: Option<string>, documentId: Option<string>): Dict<Value>
  {
    SetIfTruthy(SetIfTruthy(SetIfTruthy([("operation", VStr(operation))],
      "source_type", sourceType), "source_key", sourceKey), "document_id", documentId)
  }

  /**
   * The named part of the context holds `operation` and then each truthy id, in the
   * order of the parameters, and no other key.
   */
  lemma NamedContextKeys(operation: string, sourceType: Option<string>, sourceKey: Option<string>, documentId: Option<string>)
    ensures var c := NamedContext(operation, sourceType, sourceKey, documentId);
      && WellFormed(c)
      && Keys(c) == ["operation"] + Keys(OptEntry("source_type", sourceType))
           + Keys(OptEntry("source_key", sourceKey)) + Keys(OptEntry("document_id", documentId))
      && (forall k :: k in Keys(c) ==> k in ContextParams)
  {
    var c0: Dict<Value> := [("operation", VStr(operation))];
    assert Keys(c0) == ["operation"];
    var c1 := SetIfTruthy(c0, "source_type", sourceType);
    SetIfTruthyKeys(c0, "source_type", sourceType, ["operation"]);
    var c2 := SetIfTruthy(c1, "source_key", sourceKey);
    SetIfTruthyKeys(c1, "source_key", sourceKey, ["operation", "source_type"]);
    SetIfTruthyKeys(c2, "document_id", documentId, ["operation", "source_type", "source_key"]);
  }

  /** The named part of the context holds each argument that was given, under its parameter's name. */
  lemma NamedContextValues(operation: string, sourceType: Option<string>, sourceKey: Option<string>, documentId: Option<string>)
    ensures var c := NamedContext(operation, sourceType, sourceKey, documentId);
      && Get(c, "operation") == Some(VStr(operation))
      && Get(c, "source_type") == TruthyValue(sourceType)
      && Get(c, "source_key") == TruthyValue(sourceKey)
      && Get(c, "document_id") == TruthyValue(documentId)
  {
    var c0: Dict<Value> := [("operation", VStr(operation))];
    assert Keys(c0) == ["operation"];
    var c1 := SetIfTruthy(c0, "source_type", sourceType);
    SetIfTruthyKeys(c0, "source_type", sourceType, ["operation"]);
    var c2 := SetIfTruthy(c1, "source_key", sourceKey);
    SetIfTruthyKeys(c1, "source_key", sourceKey, ["operation", "source_type"]);
    SetIfTruthyOwn(c0, "source_type", sourceType, ["operation"]);
    SetIfTruthyOwn(c1, "source_key", sourceKey, ["operation", "source_type"]);
    SetIfTruthyOwn(c2, "document_id", documentId, ["operation", "source_type", "source_key"]);
    SetIfTruthyOther(c0, "source_type", sourceType, "operation");
    SetIfTruthyOther(c1, "source_key", sourceKey, "operation");
    SetIfTruthyOther(c2, "document_id", documentId, "operation");
    SetIfTruthyOther(c1, "source_key", sourceKey, "source_type");
    SetIfTruthyOther(c2, "document_id", documentId, "source_type");
    SetIfTruthyOther(c2, "document_id", documentId, "source_key");
  }

  /** One conditional assignment of a key the dict cannot hold yet: its keys. */
  lemma SetIfTruthyKeys(d: Dict<Value>, k: string, o: Option<string>, before: seq<string>)
    requires WellFormed(d) && k !in before
    requires forall j :: j in Keys(d) ==> j in before
    ensures WellFormed(SetIfTruthy(d, k, o))
    ensures Keys(SetIfTruthy(d, k, o)) == Keys(d) + Keys(OptEntry(k, o))
  {
    if Truthy(o) {
      SetWellFormed(d, k, VStr(o.value));
    } else {
      assert k !in Keys(d);
    }
  }

  /** One conditional assignment of a key the dict cannot hold yet: the key maps to the argument when it is truthy. */
  lemma SetIfTruthyOwn(d: Dict<Value>, k: string, o: Option<string>, before: seq<string>)
    requires WellFormed(d) && k !in before
    requires forall j :: j in Keys(d) ==> j in before
    ensures Get(SetIfTruthy(d, k, o), k) == TruthyValue(o)
  {
    if Truthy(o) {
      GetSet(d, k, VStr(o.value), k);
    } else {
      assert k !in Keys(d);
    }
  }

  /** A conditional assignment leaves every other key alone. */
  lemma SetIfTruthyOther(d: Dict<Value>, k: string, o: Option<string>, j: string)
    requires WellFormed(d) && j != k
    ensures Get(SetIfTruthy(d, k, o), j) == Get(d, j)
  {
    if Truthy(o) {
      GetSet(d, k, VStr(o.value), j);
    }
  }

  /**
   * `create_error_context(operation, source_type=None, source_key=None,
   * document_id=None, **extra)`: the named context followed by every entry of `extra`
   * in order (the update only appends); a keyword of `extra` that repeats a parameter
   * raises TypeError.
   */
  method CreateErrorContext(operation: string, sourceType: Option<string>, sourceKey: Option<string>,
                            documentId: Option<string>, extra: Dict<Value>)
    returns (r: Result<Dict<Value>, Exc>)
    requires WellFormed(extra)
    ensures r.Ok? <==> NoClash(extra, ContextParams)
    ensures r.Err? ==> r.error.kind == TypeError
    ensures r.Ok? ==> r.value == NamedContext(operation, sourceType, sourceKey, documentId) + extra
    ensures r.Ok? ==> WellFormed(r.value)
  {
    var clash := BindError(extra, ContextParams);
    if clash.Some? {
      return Err(clash.value);
    }
    var context: Dict<Value> := [("operation", VStr(operation))];
    if Truthy(sourceType) {
      context := Set(context, "source_type", VStr(sourceType.value));
    }
    if Truthy(sourceKey) {
      context := Set(context, "source_key", VStr(sourceKey.value));
    }
    if Truthy(documentId) {
      context := Set(context, "document_id", VStr(documentId.value));
    }
    assert context == NamedContext(operation, sourceType, sourceKey, documentId);
    NamedContextKeys(operation, sourceType, sourceKey, documentId);
    MergeExtra(context, extra);
    context := Update(context, extra);
    return Ok(context);
  }

  /**
   * What the context holds: `operation`, then each truthy id, then the entries of
   * `extra`, each key with the value it was given.
   */
  lemma ErrorContextFacts(operation: string, sourceType: Option<string>, sourceKey: Option<string>,
                          documentId: Option<string>, extra: Dict<Value>)
    requires WellFormed(extra) && NoClash(extra, ContextParams)
    ensures var c := NamedContext(operation, sourceType, sourceKey, documentId) + extra;
      && WellFormed(c)
      && Keys(c) == ["operation"] + Keys(OptEntry("source_type", sourceType))
           + Keys(OptEntry("source_key", sourceKey)) + Keys(OptEntry("document_id", documentId)) + Keys(extra)
      && Get(c, "operation") == Some(VStr(operation))
      && Get(c, "source_type") == TruthyValue(sourceType)
      && Get(c, "source_key") == TruthyValue(sourceKey)
      && Get(c, "document_id") == TruthyValue(documentId)
      && (forall k :: k in Keys(extra) ==> Get(c, k) == Get(extra, k))
  {
    NamedContextKeys(operation, sourceType, sourceKey, documentId);
    NamedContextValues(operation, sourceType, sourceKey, documentId);
    MergeExtra(NamedContext(operation, sourceType, sourceKey, documentId), extra);
  }

  /** `context.update(extra)` when `extra` repeats no key of `context`: an append. */
  lemma MergeExtra(context: Dict<Value>, extra: Dict<Value>)
    requires WellFormed(context) && WellFormed(extra)
    requires forall k :: k in Keys(context) ==> k in ContextParams
    requires NoClash(extra, ContextParams)
    ensures Update(context, extra) == context + extra
    ensures WellFormed(context + extra) && Keys(context + extra) == Keys(context) + Keys(extra)
    ensures forall k :: Get(context + extra, k) == if k in Keys(extra) then Get(extra, k) else Get(context, k)
  {
    AppendDisjointUpdate(context, extra);
    AppendWellFormed(context, extra);
    forall k
      ensures Get(context + extra, k) == if k in Keys(extra) then Get(extra, k) else Get(context, k)
    {
      AppendGet(context, extra, k);
    }
  }

  /**
   * `is_retryable_error(error)`: an instance of ConnectionError, TimeoutError,
   * OSError, DataSourceUnavailableError or RateLimitError.
   */
  predicate IsRetryableError(e: Exc)
  {
    || IsSubclass(e.kind, ConnectionError) || IsSubclass(e.kind, TimeoutError)
    || IsSubclass(e.kind, OSError)
    || IsSubclass(e.kind, DataSourceUnavailableError) || IsSubclass(e.kind, RateLimitError)
  }

  /**
   * Exactly the operating-system errors (every OSError subclass, FileNotFoundError
   * included), DataSourceUnavailableError and RateLimitError are retryable.
   */
  lemma RetryableKinds(e: Exc)
    ensures IsRetryableError(e) <==>
      || e.kind.OSError? || e.kind.ConnectionError? || e.kind.ConnectionResetError?
      || e.kind.TimeoutError? || e.kind.FileNotFoundError?
      || e.kind.DataSourceUnavailableError? || e.kind.RateLimitError?
  {
    OSErrorKinds(e.kind);
    OSErrorBases(e.kind);
    RetryableLeaves(e.kind);
  }

  /** The operating-system errors: OSError and its four subclasses. */
  lemma OSErrorKinds(k: ExcKind)
    ensures IsSubclass(k, OSError) <==>
      k.OSError? || k.ConnectionError? || k.ConnectionResetError? || k.TimeoutError? || k.FileNotFoundError?
  {
  }

  /** ConnectionError and TimeoutError are operating-system errors. */
  lemma OSErrorBases(k: ExcKind)
    ensures IsSubclass(k, ConnectionError) ==> IsSubclass(k, OSError)
    ensures IsSubclass(k, TimeoutError) ==> IsSubclass(k, OSError)
  {
  }

  /** DataSourceUnavailableError and RateLimitError have no subclasses. */
  lemma RetryableLeaves(k: ExcKind)
    ensures IsSubclass(k, DataSourceUnavailableError) <==> k.DataSourceUnavailableError?
    ensures IsSubclass(k, RateLimitError) <==> k.RateLimitError?
  {
  }

  /** Authentication, configuration and not-found errors of the loader are never retried. */
  lemma PermanentErrorsNotRetryable(e: Exc)
    requires IsSubclass(e.kind, AuthenticationError) || IsSubclass(e.kind, ConfigurationError)
          || IsSubclass(e.kind, DataSourceNotFoundError) || IsSubclass(e.kind, ProcessingError)
    ensures !IsRetryableError(e)
  {
    RetryableKinds(e);
  }

  /** `extract_retry_delay(error)`: `details.get("retry_after")` of a RateLimitError, else None. */
  function ExtractRetryDelay(e: Exc): (v: Value)
    ensures !IsSubclass(e.kind, RateLimitError) ==> v == VNone
    ensures IsSubclass(e.kind, RateLimitError) && !HasKey(e.details, "retry_after") ==> v == VNone
  {
    if IsSubclass(e.kind, RateLimitError) then
      match Get(e.details, "retry_after")
      case Some(d) => d
      case None => VNone
    else VNone
  }

  /** The delay read back from a RateLimitError is the `retry_after` it was built with. */
  lemma RetryDelayRoundTrip(sourceType: string, retryAfter: Option<int>, kwargs: Dict<Value>)
    requires WellFormed(kwargs)
    requires NewRateLimitError(sourceType, retryAfter, kwargs).Ok?
    ensures IsRetryableError(NewRateLimitError(sourceType, retryAfter, kwargs).value)
    ensures ExtractRetryDelay(NewRateLimitError(sourceType, retryAfter, kwargs).value) == OptInt(retryAfter)
  {
    var e := NewRateLimitError(sourceType, retryAfter, kwargs).value;
    RetryableKinds(e);
    GetSecond(("source_type", VStr(sourceType)), ("retry_after", OptInt(retryAfter)), kwargs);
  }
}
