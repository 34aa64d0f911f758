/**
 * The loader executor: the table of executors keyed `type:key`, one loader's run
 * with the statistics it records, the fan-out over every loader or over the
 * loaders of one source type, the statistics summary and the health check.
 *
 * An executor is seen through one `execute(date_range)` call (CoreBase.Execute):
 * the documents it yields, in order, and whether the stream then finishes or
 * raises. The concurrent fan-out is modelled as a loop over the keys in order.
 */
module Executor {
  import opened Wrappers
  import opened Dicts
  import opened Text
  import opened Values
  import opened Exceptions
  import opened Models
  import opened CoreBase

  /** What one `executor.execute(date_range)` stream yields and how it ends. */
  type Stream = Option<DateRange> -> Attempt<Document>

  // ----- executor keys -----

  /** `f"{source_type.value}:{source_key}"`; splitting it at the first colon gives the two parts back. */
  function ExecutorKey(t: SourceType, sourceKey: string): (k: string)
    ensures SplitFirstColon(k) == Some((SourceTypeValue(t), sourceKey))
  {
    SplitJoin(SourceTypeValue(t), sourceKey);
    SourceTypeValue(t) + ":" + sourceKey
  }

  /** Distinct sources get distinct executor keys. */
  lemma ExecutorKeyInjective(t1: SourceType, k1: string, t2: SourceType, k2: string)
    requires ExecutorKey(t1, k1) == ExecutorKey(t2, k2)
    ensures t1 == t2 && k1 == k2
  {
    SourceTypeValueInjective(t1, t2);
  }

  /** `str(source_type)` of the plain enum: the class name and the member name. */
  function SourceTypeName(t: SourceType): string
  {
    match t
    case Slack => "SourceType.SLACK"
    case GitHub => "SourceType.GITHUB"
    case Confluence => "SourceType.CONFLUENCE"
  }

  // ----- executor creation -----

  /**
   * `_create_executor(source)`: no loader implementation is wired in yet, so every
   * source type ends in the "unsupported" ConfigurationError.
   */
  function CreateExecutor(source: LoaderSource): (e: Exc)
    ensures e.kind == ConfigurationError && e.details == []
    ensures Str(e) == "Unsupported source type: " + SourceTypeName(source.sourceType)
  {
    NewContentLoaderError(ConfigurationError, "Unsupported source type: " + SourceTypeName(source.sourceType), None)
  }

  /** The keyword arguments `create_error_context` gets for a failed creation: `error=str(e)`. */
  function InitExtra(source: LoaderSource): Dict<Value>
  {
    [("error", VStr(Str(CreateExecutor(source))))]
  }

  /**
   * The ConfigurationError `_initialize_executors` raises for an enabled source whose
   * executor cannot be created: it names the executor key, and its details are the
   * `executor_init` error context with the creation failure under `error`.
   */
  function InitFailure(source: LoaderSource): (e: Exc)
    ensures e.kind == ConfigurationError
    ensures e.message == "Failed to initialize " + ExecutorKey(source.sourceType, source.sourceKey)
  {
    NewContentLoaderError(ConfigurationError, "Failed to initialize " + ExecutorKey(source.sourceType, source.sourceKey),
      Some(NamedContext("executor_init", Some(SourceTypeValue(source.sourceType)), Some(source.sourceKey), None)
        + InitExtra(source)))
  }

  /** The details of that error: the operation, the source, and the creation failure. */
  lemma InitFailureDetails(source: LoaderSource)
    ensures var d := InitFailure(source).details;
      && Get(d, "operation") == Some(VStr("executor_init"))
      && Get(d, "source_type") == Some(VStr(SourceTypeValue(source.sourceType)))
      && Get(d, "source_key") == (if source.sourceKey == "" then None else Some(VStr(source.sourceKey)))
      && Get(d, "document_id") == None
      && Get(d, "error") == Some(VStr("Unsupported source type: " + SourceTypeName(source.sourceType)))
  {
    var st, sk := Some(SourceTypeValue(source.sourceType)), Some(source.sourceKey);
    var extra := InitExtra(source);
    assert Keys(extra) == ["error"];
    ErrorContextFacts("executor_init", st, sk, None, extra);
    GetIn(extra, "error", 0);
  }

  /** What `_initialize_executors` raises: the failure of the first enabled source, if any. */
  function InitError(sources: seq<LoaderSource>): (r: Option<Exc>)
    ensures r.None? <==> forall i :: 0 <= i < |sources| ==> !sources[i].enabled
  {
    if sources == [] then None
    else if sources[0].enabled then Some(InitFailure(sources[0]))
    else InitError(sources[1..])
  }

  /** Disabled sources are skipped: the error comes from the first enabled source. */
  lemma {:induction false} InitErrorFirstEnabled(sources: seq<LoaderSource>, i: nat)
    requires i < |sources| && sources[i].enabled
    requires forall j :: 0 <= j < i ==> !sources[j].enabled
    ensures InitError(sources) == Some(InitFailure(sources[i]))
  {
    if i > 0 {
      assert !sources[0].enabled;
      InitErrorFirstEnabled(sources[1..], i - 1);
    }
  }

  // ----- statistics -----

  /** One loader's statistics (the start time and the wall-clock duration are left out). */
  datatype Stats = Stats(documentsProcessed: nat, errorsCount: nat, successRate: real)

  /** `processed / (processed + errors)`, or 0 when nothing happened. */
  function SuccessRate(processed: nat, errors: nat): (rate: real)
    ensures 0.0 <= rate <= 1.0
    ensures rate == 1.0 <==> processed > 0 && errors == 0
    ensures rate == 0.0 <==> processed == 0
  {
    if processed + errors > 0 then
      RatioBounds(processed as real, (processed + errors) as real);
      processed as real / (processed + errors) as real
    else 0.0
  }

  /** A part over a positive whole lies in [0, 1], and is 1 only for the whole itself. */
  lemma RatioBounds(part: real, whole: real)
    requires 0.0 <= part <= whole && whole > 0.0
    ensures 0.0 <= part / whole <= 1.0
    ensures part / whole == 1.0 <==> part == whole
    ensures part / whole == 0.0 <==> part == 0.0
  {
    var q := part / whole;
    assert q * whole == part;
  }

  /** The statistics a finished run records: every yielded document counted, one error if it raised. */
  function RunStats(a: Attempt<Document>): (s: Stats)
  {
    var errors := if a.outcome.Raised? then 1 else 0;
    Stats(|a.items|, errors, SuccessRate(|a.items|, errors))
  }

  /** Statistics as `run_single_loader` records them. */
  predicate Consistent(s: Stats)
  {
    s.errorsCount <= 1 && s.successRate == SuccessRate(s.documentsProcessed, s.errorsCount)
  }

  /** A run records the number of documents it yielded, and an error exactly when the stream raised. */
  lemma RunStatsFacts(a: Attempt<Document>)
    ensures Consistent(RunStats(a))
    ensures RunStats(a).documentsProcessed == |a.items|
    ensures RunStats(a).errorsCount == 1 <==> a.outcome.Raised?
    ensures RunStats(a).successRate == 1.0 <==> a.outcome.Completed? && a.items != []
  {
  }

  // ----- errors of a run -----

  /** `run_single_loader` on a key that has no executor. */
  function NotFound(loaderType: string, sourceKey: string): (e: Exc)
    ensures e.kind == LoaderExecutionError
    ensures e.message == LoaderExecutionMessage(loaderType, sourceKey, "Executor not found or not initialized")
    ensures e.details == [("loader_type", VStr(loaderType)), ("source_key", VStr(sourceKey))]
  {
    NewLoaderExecutionError(loaderType, sourceKey, "Executor not found or not initialized", []).value
  }

  /** The keyword arguments of the wrapping LoaderExecutionError. */
  function FailureKwargs(e: Exc, processed: nat): (d: Dict<Value>)
    ensures WellFormed(d) && Keys(d) == ["error_type", "documents_processed"]
  {
    var d := [("error_type", VStr(Name(e.kind))), ("documents_processed", VInt(processed))];
    assert Keys(d) == ["error_type", "documents_processed"];
    d
  }

  /** The identifying entries every LoaderExecutionError starts with. */
  function LoaderIdent(loaderType: string, sourceKey: string): (d: Dict<Value>)
    ensures WellFormed(d) && Keys(d) == ["loader_type", "source_key"]
  {
    var d := [("loader_type", VStr(loaderType)), ("source_key", VStr(sourceKey))];
    assert Keys(d) == ["loader_type", "source_key"];
    d
  }

  const LoaderParams: set<string> := {"self", "loader_type", "source_key", "message"}

  lemma FailureKwargsNoClash(e: Exc, processed: nat)
    ensures NoClash(FailureKwargs(e, processed), LoaderParams)
  {
    var ks := Keys(FailureKwargs(e, processed));
    assert ks == ["error_type", "documents_processed"];
    assert forall k :: k in ks ==> k == "error_type" || k == "documents_processed";
  }

  /**
   * The error a stream's failure becomes: a LoaderExecutionError whose message
   * carries `str(e)`, with the class name of `e` and the number of documents yielded
   * before it as keyword details.
   */
  function WrapFailure(loaderType: string, sourceKey: string, e: Exc, processed: nat): (w: Exc)
    ensures w.kind == LoaderExecutionError
    ensures w.message == LoaderExecutionMessage(loaderType, sourceKey, "Execution failed: " + Str(e))
    ensures w.details == LoaderIdent(loaderType, sourceKey) + FailureKwargs(e, processed)
  {
    FailureKwargsNoClash(e, processed);
    NewLoaderExecutionError(loaderType, sourceKey, "Execution failed: " + Str(e), FailureKwargs(e, processed)).value
  }

  /** The wrapping error records the class name of `e` and how many documents came before it. */
  lemma WrapFailureDetails(loaderType: string, sourceKey: string, e: Exc, processed: nat)
    ensures var w := WrapFailure(loaderType, sourceKey, e, processed);
      && Get(w.details, "loader_type") == Some(VStr(loaderType))
      && Get(w.details, "source_key") == Some(VStr(sourceKey))
      && Get(w.details, "error_type") == Some(VStr(Name(e.kind)))
      && Get(w.details, "documents_processed") == Some(VInt(processed))
  {
    var ident, kw := LoaderIdent(loaderType, sourceKey), FailureKwargs(e, processed);
    AppendGet(ident, kw, "loader_type");
    AppendGet(ident, kw, "source_key");
    AppendGet(ident, kw, "error_type");
    AppendGet(ident, kw, "documents_processed");
    GetIn(ident, "loader_type", 0);
    GetIn(ident, "source_key", 1);
    GetIn(kw, "error_type", 0);
    GetIn(kw, "documents_processed", 1);
  }

  /** What a run of `a` raises to its consumer, if anything. */
  function RunError(loaderType: string, sourceKey: string, a: Attempt<Document>): (r: Option<Exc>)
    ensures r.Some? <==> a.outcome.Raised?
  {
    match a.outcome
    case Completed => None
    case Raised(e) => Some(WrapFailure(loaderType, sourceKey, e, |a.items|))
  }

  // ----- fan-out specifications -----

  /** The documents a fan-out keeps for one loader: all it yielded, or none when it failed. */
  function Collected(a: Attempt<Document>): seq<Document>
  {
    if a.outcome.Completed? then a.items else []
  }

  /**
   * The result dict of a fan-out over `ex`, in key order. A key without a colon makes
   * its task raise at the unpacking, before the `try`; `gather(return_exceptions=True)`
   * swallows that, so such a key gets no entry.
   */
  function Collect(ex: Dict<Stream>, dr: Option<DateRange>): Dict<seq<Document>>
  {
    if ex == [] then []
    else
      var rest := Collect(ex[..|ex| - 1], dr);
      var (k, s) := ex[|ex| - 1];
      if ':' in k then rest + [(k, Collected(s(dr)))] else rest
  }

  /** The keys recorded as failed, in key order. */
  function Failed(ex: Dict<Stream>, dr: Option<DateRange>): seq<string>
  {
    if ex == [] then []
    else
      var rest := Failed(ex[..|ex| - 1], dr);
      var (k, s) := ex[|ex| - 1];
      if ':' in k && s(dr).outcome.Raised? then rest + [k] else rest
  }

  /** The statistics after running every key of `ex` that has a colon, in order. */
  function StatsAfter(stats: Dict<Stats>, ex: Dict<Stream>, dr: Option<DateRange>): Dict<Stats>
  {
    if ex == [] then stats
    else
      var rest := StatsAfter(stats, ex[..|ex| - 1], dr);
      var (k, s) := ex[|ex| - 1];
      if ':' in k then Set(rest, k, RunStats(s(dr))) else rest
  }

  /** `run_all_loaders`: `{}` without executors, ConcurrentExecutionError when every loader failed. */
  function AllLoadersResult(ex: Dict<Stream>, dr: Option<DateRange>): Result<Dict<seq<Document>>, Exc>
  {
    if ex == [] then Ok([])
    else if |Failed(ex, dr)| == |ex| then Err(NewConcurrentExecutionError(Failed(ex, dr), []).value)
    else Ok(Collect(ex, dr))
  }

  /** The entries whose key starts with `prefix`, in order (the dict comprehension). */
  function Matching(ex: Dict<Stream>, prefix: string): Dict<Stream>
  {
    if ex == [] then []
    else
      var rest := Matching(ex[..|ex| - 1], prefix);
      if StartsWith(ex[|ex| - 1].0, prefix) then rest + [ex[|ex| - 1]] else rest
  }

  /** The prefix `run_loaders_by_type` selects with. */
  function TypePrefix(t: SourceType): (p: string)
    ensures |p| == |SourceTypeValue(t)| + 1 && p[|p| - 1] == ':'
  {
    SourceTypeValue(t) + ":"
  }

  // ----- lemmas about the fan-out specifications -----

  lemma KeysPrefix<V>(d: Dict<V>, n: nat)
    requires n <= |d|
    ensures Keys(d[..n]) == Keys(d)[..n]
  {
  }

  /** The prefix of a dict with distinct keys has distinct keys and lacks the last key. */
  lemma InitWellFormed<V>(d: Dict<V>)
    requires WellFormed(d) && d != []
    ensures WellFormed(d[..|d| - 1]) && d[|d| - 1].0 !in Keys(d[..|d| - 1])
    ensures Keys(d) == Keys(d[..|d| - 1]) + [d[|d| - 1].0]
  {
    var n := |d| - 1;
    var ks := Keys(d);
    assert Keys(d[..n]) == ks[..n] by {
      KeysPrefix(d, n);
    }
    InitLast(ks, n);
    DistinctPrefix(ks, n);
  }

  /** A lookup in a dict ending with one more entry. */
  lemma GetSnoc<V>(d: Dict<V>, k: string)
    requires WellFormed(d) && d != []
    ensures Get(d, k) == if k == d[|d| - 1].0 then Some(d[|d| - 1].1) else Get(d[..|d| - 1], k)
  {
    InitWellFormed(d);
    var init, last := d[..|d| - 1], [d[|d| - 1]];
    assert d == init + last;
    assert Keys(last) == [d[|d| - 1].0];
    AppendGet(init, last, k);
  }

  /**
   * Every loader with a colon in its key appears in the result, with all its
   * documents when it completed and `[]` when it failed; no other key appears.
   */
  lemma {:induction false} CollectGet(ex: Dict<Stream>, dr: Option<DateRange>, k: string)
    requires WellFormed(ex)
    ensures WellFormed(Collect(ex, dr))
    ensures k in Keys(Collect(ex, dr)) <==> k in Keys(ex) && ':' in k
    ensures Get(Collect(ex, dr), k) ==
      if k in Keys(ex) && ':' in k then Some(Collected(Get(ex, k).value(dr))) else None
  {
    if ex != [] {
      InitWellFormed(ex);
      var init := ex[..|ex| - 1];
      var (j, s) := ex[|ex| - 1];
      CollectGet(init, dr, k);
      CollectGet(init, dr, j);
      GetSnoc(ex, k);
      var rest := Collect(init, dr);
      if ':' in j {
        var last := [(j, Collected(s(dr)))];
        assert Keys(last) == [j];
        AppendWellFormed(rest, last);
        AppendGet(rest, last, k);
      }
    }
  }

  /** The failed list names exactly the loaders with a colon whose stream raised, and is never longer than the table. */
  lemma {:induction false} FailedMembers(ex: Dict<Stream>, dr: Option<DateRange>, k: string)
    requires WellFormed(ex)
    ensures |Failed(ex, dr)| <= |ex|
    ensures k in Failed(ex, dr) <==> k in Keys(ex) && ':' in k && Get(ex, k).value(dr).outcome.Raised?
  {
    if ex != [] {
      InitWellFormed(ex);
      FailedMembers(ex[..|ex| - 1], dr, k);
      GetSnoc(ex, k);
    }
  }

  /** Every loader is counted as failed exactly when each key has a colon and each stream raised. */
  lemma {:induction false} AllFailed(ex: Dict<Stream>, dr: Option<DateRange>)
    ensures |Failed(ex, dr)| <= |ex|
    ensures |Failed(ex, dr)| == |ex| <==>
      forall i :: 0 <= i < |ex| ==> ':' in ex[i].0 && ex[i].1(dr).outcome.Raised?
  {
    if ex != [] {
      var init := ex[..|ex| - 1];
      AllFailed(init, dr);
      assert forall i :: 0 <= i < |init| ==> init[i] == ex[i];
    }
  }

  /**
   * `run_all_loaders` raises exactly when there are executors and every one of them
   * failed; otherwise it returns the collected documents of every loader.
   */
  lemma AllLoadersRaisesIffAllFail(ex: Dict<Stream>, dr: Option<DateRange>)
    ensures var r := AllLoadersResult(ex, dr);
      r.Err? <==> ex != [] && forall i :: 0 <= i < |ex| ==> ':' in ex[i].0 && ex[i].1(dr).outcome.Raised?
    ensures var r := AllLoadersResult(ex, dr);
      r.Err? ==>
        r.error.kind == ConcurrentExecutionError
        && r.error.details == [("failed_loaders", StrList(Failed(ex, dr)))]
    ensures ex == [] ==> AllLoadersResult(ex, dr) == Ok([])
  {
    AllFailed(ex, dr);
  }

  /** The statistics of each run key are replaced by that run's; every other entry is kept. */
  lemma {:induction false} StatsAfterGet(stats: Dict<Stats>, ex: Dict<Stream>, dr: Option<DateRange>, k: string)
    requires WellFormed(stats) && WellFormed(ex)
    ensures WellFormed(StatsAfter(stats, ex, dr))
    ensures Get(StatsAfter(stats, ex, dr), k) ==
      if k in Keys(ex) && ':' in k then Some(RunStats(Get(ex, k).value(dr))) else Get(stats, k)
  {
    if ex != [] {
      InitWellFormed(ex);
      var init := ex[..|ex| - 1];
      var (j, s) := ex[|ex| - 1];
      StatsAfterGet(stats, init, dr, k);
      GetSnoc(ex, k);
      if ':' in j {
        GetSet(StatsAfter(stats, init, dr), j, RunStats(s(dr)), k);
      }
    }
  }

  /** The matching entries are the entries of `ex` with the prefix, with the same executors. */
  lemma {:induction false} MatchingGet(ex: Dict<Stream>, prefix: string, k: string)
    requires WellFormed(ex)
    ensures WellFormed(Matching(ex, prefix))
    ensures k in Keys(Matching(ex, prefix)) <==> k in Keys(ex) && StartsWith(k, prefix)
    ensures Get(Matching(ex, prefix), k) == if StartsWith(k, prefix) then Get(ex, k) else None
  {
    if ex != [] {
      InitWellFormed(ex);
      var init := ex[..|ex| - 1];
      var j := ex[|ex| - 1].0;
      MatchingGet(init, prefix, k);
      MatchingGet(init, prefix, j);
      GetSnoc(ex, k);
      var rest := Matching(init, prefix);
      if StartsWith(j, prefix) {
        var last := [ex[|ex| - 1]];
        assert Keys(last) == [j];
        AppendWellFormed(rest, last);
        AppendGet(rest, last, k);
      }
    }
  }

  /** A key with the type prefix splits into the type's value and the rest of the key. */
  lemma TypeKeySplit(t: SourceType, k: string)
    requires StartsWith(k, TypePrefix(t))
    ensures ':' in k
    ensures SplitFirstColon(k) == Some((SourceTypeValue(t), k[|TypePrefix(t)|..]))
  {
    var v := SourceTypeValue(t);
    assert k[|v|] == ':';
    assert k == v + ":" + k[|v| + 1..];
    SplitJoin(v, k[|v| + 1..]);
  }

  /**
   * `run_loaders_by_type` reports exactly the loaders whose key starts with
   * `"{type}:"`, each with its documents or `[]` when it failed.
   */
  lemma ByTypeGet(ex: Dict<Stream>, t: SourceType, dr: Option<DateRange>, k: string)
    requires WellFormed(ex)
    ensures k in Keys(Collect(Matching(ex, TypePrefix(t)), dr)) <==> k in Keys(ex) && StartsWith(k, TypePrefix(t))
    ensures k in Keys(ex) && StartsWith(k, TypePrefix(t)) ==>
      Get(Collect(Matching(ex, TypePrefix(t)), dr), k) == Some(Collected(Get(ex, k).value(dr)))
  {
    var m := Matching(ex, TypePrefix(t));
    MatchingGet(ex, TypePrefix(t), k);
    CollectGet(m, dr, k);
    if StartsWith(k, TypePrefix(t)) {
      TypeKeySplit(t, k);
    }
  }

  // ----- statistics summary -----

  datatype StatsReport =
    | NoStats(message: string)
    | Summary(totalLoaders: nat, totalDocuments: nat, totalErrors: nat, averageSuccessRate: real, byLoader: Dict<Stats>)

  function TotalDocuments(s: Dict<Stats>): nat
  {
    if s == [] then 0 else s[0].1.documentsProcessed + TotalDocuments(s[1..])
  }

  /** With at most one error per loader, the total is at most the number of loaders. */
  function TotalErrors(s: Dict<Stats>): (n: nat)
    ensures (forall i :: 0 <= i < |s| ==> Consistent(s[i].1)) ==> n <= |s|
  {
    if s == [] then 0
    else
      assert forall i :: 0 <= i < |s[1..]| ==> s[1..][i] == s[i + 1];
      s[0].1.errorsCount + TotalErrors(s[1..])
  }

  /** Each rate lies in [0, 1], so their sum lies in [0, number of loaders]. */
  function TotalRate(s: Dict<Stats>): (r: real)
    ensures (forall i :: 0 <= i < |s| ==> Consistent(s[i].1)) ==> 0.0 <= r <= |s| as real
  {
    if s == [] then 0.0
    else
      assert forall i :: 0 <= i < |s[1..]| ==> s[1..][i] == s[i + 1];
      s[0].1.successRate + TotalRate(s[1..])
  }

  // ----- health check -----

  datatype ExecutorHealth = ExecutorHealth(status: string, message: string)

  datatype HealthReport = HealthReport(status: string, timestamp: Timestamp,
    executors: Dict<ExecutorHealth>, total: nat, healthy: nat, unhealthy: nat)

  /** The overall status: degraded when some but not all executors are unhealthy. */
  function OverallStatus(healthy: nat, unhealthy: nat): string
  {
    if unhealthy > 0 then (if healthy > 0 then "degraded" else "unhealthy") else "healthy"
  }

  /** The three overall statuses, each characterised by the counts. */
  lemma OverallStatusCases(total: nat, healthy: nat, unhealthy: nat)
    requires healthy + unhealthy == total
    ensures OverallStatus(healthy, unhealthy) == "healthy" <==> unhealthy == 0
    ensures OverallStatus(healthy, unhealthy) == "degraded" <==> unhealthy > 0 && healthy > 0
    ensures OverallStatus(healthy, unhealthy) == "unhealthy" <==> total > 0 && unhealthy == total
  {
  }

  const HealthyEntry := ExecutorHealth("healthy", "Executor initialized successfully")

  // ----- the executor -----

  class LoaderExecutor {
    const sources: seq<LoaderSource>
    const memoryManager: SimpleMemoryManager
    /** The executor table, keyed `type:key`, in insertion order. */
    var executors: Dict<Stream>
    /** The statistics of the last run of each key. */
    var executionStats: Dict<Stats>

    predicate Valid()
      reads this
    {
      WellFormed(executors) && WellFormed(executionStats)
      && forall i :: 0 <= i < |executionStats| ==> Consistent(executionStats[i].1)
    }

    /** The fields as `__init__` sets them before it initialises the executors. */
    constructor (sources: Option<seq<LoaderSource>>)
      ensures this.sources == (if sources.Some? then sources.value else [])
      ensures executors == [] && executionStats == [] && Valid()
      ensures memoryManager.batchSize == 20
    {
      this.sources := if sources.Some? then sources.value else [];
      memoryManager := new SimpleMemoryManager.Default();
      executors := [];
      executionStats := [];
    }

    /**
     * `_initialize_executors`: disabled sources are skipped; the first enabled source
     * fails to get an executor and its failure is raised as a ConfigurationError.
     */
    method InitializeExecutors() returns (error: Option<Exc>)
      ensures error == InitError(sources)
    {
      for i := 0 to |sources|
        invariant forall j :: 0 <= j < i ==> !sources[j].enabled
      {
        var source := sources[i];
        if !source.enabled {
          continue;
        }
        InitErrorFirstEnabled(sources, i);
        var e := FailInitialization(source);
        return Some(e);
      }
      assert forall j :: 0 <= j < |sources| ==> !sources[j].enabled;
      return None;
    }

    /** The body of the `try` for one enabled source, with its `except` clause. */
    static method FailInitialization(source: LoaderSource) returns (error: Exc)
      ensures error == InitFailure(source)
    {
      var executorKey := ExecutorKey(source.sourceType, source.sourceKey);
      var e := CreateExecutor(source);
      var extra := [("error", VStr(Str(e)))];
      assert extra == InitExtra(source);
      assert Keys(extra) == ["error"];
      var context := CreateErrorContext("executor_init", Some(SourceTypeValue(source.sourceType)),
        Some(source.sourceKey), None, extra);
      error := NewContentLoaderError(ConfigurationError, "Failed to initialize " + executorKey, Some(context.value));
    }

    /** `executors[key] = executor`, as a caller registers an executor by hand. */
    method Register(key: string, executor: Stream)
      requires Valid()
      modifies this
      ensures Valid()
      ensures executors == Set(old(executors), key, executor)
      ensures executionStats == old(executionStats)
    {
      SetWellFormed(executors, key, executor);
      executors := Set(executors, key, executor);
    }

    /**
     * `run_single_loader`: an unknown key raises before anything is yielded or
     * recorded; otherwise every document of the stream is passed on and counted, a
     * failure is wrapped in a LoaderExecutionError, and the run's statistics replace
     * those of the key.
     */
    method RunSingleLoader(loaderType: string, sourceKey: string, dateRange: Option<DateRange>)
      returns (yielded: seq<Document>, error: Option<Exc>)
      requires Valid()
      modifies this
      ensures Valid() && executors == old(executors)
      ensures var key := loaderType + ":" + sourceKey;
        match Get(executors, key)
        case None =>
          yielded == [] && error == Some(NotFound(loaderType, sourceKey))
          && executionStats == old(executionStats)
        case Some(s) =>
          yielded == s(dateRange).items && error == RunError(loaderType, sourceKey, s(dateRange))
          && executionStats == Set(old(executionStats), key, RunStats(s(dateRange)))
    {
      var executorKey := loaderType + ":" + sourceKey;
      var found := Get(executors, executorKey);
      if found.None? {
        return [], Some(NotFound(loaderType, sourceKey));
      }
      var run := found.value(dateRange);
      var documentsProcessed: nat := 0;
      yielded := [];
      for i := 0 to |run.items|
        invariant documentsProcessed == i == |yielded|
        invariant yielded == run.items[..i]
      {
        documentsProcessed := documentsProcessed + 1;
        yielded := yielded + [run.items[i]];
      }
      assert yielded == run.items;
      error := Finish(executorKey, loaderType, sourceKey, run, documentsProcessed);
    }

    /**
     * The `except` and `finally` clauses of a run whose stream yielded
     * `documentsProcessed` documents: a failure is wrapped, and the statistics are
     * recorded either way.
     */
    method Finish(executorKey: string, loaderType: string, sourceKey: string, run: Attempt<Document>,
                  documentsProcessed: nat) returns (error: Option<Exc>)
      requires Valid() && documentsProcessed == |run.items|
      modifies this
      ensures Valid() && executors == old(executors)
      ensures error == RunError(loaderType, sourceKey, run)
      ensures executionStats == Set(old(executionStats), executorKey, RunStats(run))
    {
      error := None;
      if run.outcome.Raised? {
        error := Some(WrapFailure(loaderType, sourceKey, run.outcome.error, documentsProcessed));
      }
      RunStatsFacts(run);
      RecordStats(executorKey, RunStats(run));
    }

    /** `execution_stats[key] = stats` for statistics a run produced. */
    method RecordStats(key: string, stats: Stats)
      requires Valid() && Consistent(stats)
      modifies this
      ensures Valid() && executors == old(executors)
      ensures executionStats == Set(old(executionStats), key, stats)
    {
      SetWellFormed(executionStats, key, stats);
      SetAll(executionStats, key, stats, Consistent);
      executionStats := Set(executionStats, key, stats);
    }

    /** One step of a fan-out: run the loader of `key` and record its outcome. */
    method RunOne(key: string, dateRange: Option<DateRange>, ghost s: Stream)
      returns (documents: seq<Document>, failed: bool)
      requires Valid() && Get(executors, key) == Some(s) && ':' in key
      modifies this
      ensures Valid() && executors == old(executors)
      ensures documents == Collected(s(dateRange))
      ensures failed <==> s(dateRange).outcome.Raised?
      ensures executionStats == Set(old(executionStats), key, RunStats(s(dateRange)))
    {
      var split := SplitFirstColon(key);
      var loaderType, sourceKey := split.value.0, split.value.1;
      var docs, err := RunSingleLoader(loaderType, sourceKey, dateRange);
      if err.None? {
        documents, failed := docs, false;
      } else {
        documents, failed := [], true;
      }
    }

    /**
     * `run_all_loaders`: `{}` when there are no executors; otherwise every loader is
     * run, a failed one maps to `[]`, and ConcurrentExecutionError is raised only
     * when all of them failed.
     */
    method RunAllLoaders(dateRange: Option<DateRange>, maxConcurrent: int)
      returns (r: Result<Dict<seq<Document>>, Exc>)
      requires Valid()
      modifies this
      ensures Valid() && executors == old(executors)
      ensures r == AllLoadersResult(executors, dateRange)
      ensures executionStats == StatsAfter(old(executionStats), executors, dateRange)
    {
      if |executors| == 0 {
        return Ok([]);
      }
      var ex := executors;
      var results: Dict<seq<Document>> := [];
      var failedLoaders: seq<string> := [];
      for i := 0 to |ex|
        invariant Valid() && executors == ex
        invariant results == Collect(ex[..i], dateRange)
        invariant failedLoaders == Failed(ex[..i], dateRange)
        invariant executionStats == StatsAfter(old(executionStats), ex[..i], dateRange)
      {
        var key := ex[i].0;
        FanOutStep(ex, i, dateRange, old(executionStats));
        if ':' in key {
          GetIn(ex, key, i);
          var documents, failed := RunOne(key, dateRange, ex[i].1);
          NotYetCollected(ex, i, dateRange);
          if failed {
            failedLoaders := failedLoaders + [key];
          }
          SetAbsent(results, key, documents);
          results := Set(results, key, documents);
        }
      }
      FullSlice(ex);
      if |failedLoaders| > 0 && |failedLoaders| == |ex| {
        return Err(NewConcurrentExecutionError(failedLoaders, []).value);
      }
      return Ok(results);
    }

    /**
     * `run_loaders_by_type`: only the executors whose key starts with `"{type}:"` are
     * run, a failed one maps to `[]`, and nothing is raised.
     */
    method RunLoadersByType(t: SourceType, dateRange: Option<DateRange>)
      returns (results: Dict<seq<Document>>)
      requires Valid()
      modifies this
      ensures Valid() && executors == old(executors)
      ensures results == Collect(Matching(executors, TypePrefix(t)), dateRange)
      ensures executionStats == StatsAfter(old(executionStats), Matching(executors, TypePrefix(t)), dateRange)
    {
      var matching := Matching(executors, TypePrefix(t));
      if |matching| == 0 {
        return [];
      }
      var ex := executors;
      results := [];
      for i := 0 to |matching|
        invariant Valid() && executors == ex
        invariant results == Collect(matching[..i], dateRange)
        invariant executionStats == StatsAfter(old(executionStats), matching[..i], dateRange)
      {
        var key := matching[i].0;
        FanOutStep(matching, i, dateRange, old(executionStats));
        MatchingEntry(ex, t, i);
        var documents, failed := RunOne(key, dateRange, matching[i].1);
        NotYetCollected(matching, i, dateRange);
        SetAbsent(results, key, documents);
        results := Set(results, key, documents);
      }
      FullSlice(matching);
    }

    /** `get_execution_stats`: totals over every recorded run. */
    function GetExecutionStats(): (r: StatsReport)
      requires Valid()
      reads this
      ensures r.NoStats? <==> executionStats == []
      ensures r.NoStats? ==> r.message == "No execution statistics available"
      ensures r.Summary? ==>
        && r.totalLoaders == |executionStats|
        && r.totalErrors <= r.totalLoaders
        && 0.0 <= r.averageSuccessRate <= 1.0
        && r.byLoader == executionStats
    {
      if executionStats == [] then NoStats("No execution statistics available")
      else
        var n := |executionStats| as real;
        RatioBounds(TotalRate(executionStats), n);
        Summary(|executionStats|, TotalDocuments(executionStats), TotalErrors(executionStats),
          TotalRate(executionStats) / n, executionStats)
    }

    /**
     * `health_check`: every executor passes the check (constructing `DateRange()`
     * cannot fail), so the counts add up to the total and the overall status follows
     * from them.
     */
    method HealthCheck(now: Timestamp) returns (h: HealthReport)
      requires Valid()
      ensures h.timestamp == now
      ensures h.total == |executors| && h.healthy + h.unhealthy == h.total
      ensures h.status == OverallStatus(h.healthy, h.unhealthy)
      ensures h.unhealthy == 0
      ensures Keys(h.executors) == Keys(executors)
      ensures forall i :: 0 <= i < |h.executors| ==> h.executors[i].1 == HealthyEntry
    {
      var entries: Dict<ExecutorHealth> := [];
      var healthy: nat, unhealthy: nat := 0, 0;
      for i := 0 to |executors|
        invariant Keys(entries) == Keys(executors[..i])
        invariant forall j :: 0 <= j < |entries| ==> entries[j].1 == HealthyEntry
        invariant healthy + unhealthy == i && unhealthy == 0
      {
        HealthStep(executors, i, entries);
        entries := Set(entries, executors[i].0, HealthyEntry);
        healthy := healthy + 1;
      }
      FullSlice(executors);
      var status := if unhealthy > 0 then (if healthy > 0 then "degraded" else "unhealthy") else "healthy";
      h := HealthReport(status, now, entries, |executors|, healthy, unhealthy);
    }
  }

  /** One more executor checked: its key is new, so the report gains one healthy entry at the end. */
  lemma HealthStep(executors: Dict<Stream>, i: nat, entries: Dict<ExecutorHealth>)
    requires WellFormed(executors) && i < |executors|
    requires Keys(entries) == Keys(executors[..i])
    requires forall j :: 0 <= j < |entries| ==> entries[j].1 == HealthyEntry
    ensures Keys(Set(entries, executors[i].0, HealthyEntry)) == Keys(executors[..i + 1])
    ensures var e := Set(entries, executors[i].0, HealthyEntry);
      forall j :: 0 <= j < |e| ==> e[j].1 == HealthyEntry
  {
    var key := executors[i].0;
    KeysPrefix(executors, i);
    KeysPrefix(executors, i + 1);
    DistinctPrefix(Keys(executors), i);
    SetAbsent(entries, key, HealthyEntry);
    KeysSnoc(entries, (key, HealthyEntry));
    PrefixSnoc(Keys(executors), i);
  }

  /** One more loader run by a fan-out, as the specification functions see it. */
  lemma FanOutStep(ex: Dict<Stream>, i: nat, dr: Option<DateRange>, stats: Dict<Stats>)
    requires i < |ex|
    ensures var (k, s) := ex[i];
      && Collect(ex[..i + 1], dr) ==
           (if ':' in k then Collect(ex[..i], dr) + [(k, Collected(s(dr)))] else Collect(ex[..i], dr))
      && Failed(ex[..i + 1], dr) ==
           (if ':' in k && s(dr).outcome.Raised? then Failed(ex[..i], dr) + [k] else Failed(ex[..i], dr))
      && StatsAfter(stats, ex[..i + 1], dr) ==
           (if ':' in k then Set(StatsAfter(stats, ex[..i], dr), k, RunStats(s(dr))) else StatsAfter(stats, ex[..i], dr))
  {
    assert ex[..i + 1][..i] == ex[..i];
  }

  /** The key at position `i` is not among the results of the loaders before it. */
  lemma NotYetCollected(ex: Dict<Stream>, i: nat, dr: Option<DateRange>)
    requires WellFormed(ex) && i < |ex|
    ensures ex[i].0 !in Keys(Collect(ex[..i], dr))
  {
    assert Keys(ex[..i]) == Keys(ex)[..i];
    DistinctPrefix(Keys(ex), i);
    CollectGet(ex[..i], dr, ex[i].0);
  }

  /** The i-th matching entry is the executor registered under that key, and its key has a colon. */
  lemma MatchingEntry(ex: Dict<Stream>, t: SourceType, i: nat)
    requires WellFormed(ex) && i < |Matching(ex, TypePrefix(t))|
    ensures var m := Matching(ex, TypePrefix(t));
      WellFormed(m) && ':' in m[i].0 && Get(ex, m[i].0) == Some(m[i].1)
  {
    var m := Matching(ex, TypePrefix(t));
    MatchingGet(ex, TypePrefix(t), m[i].0);
    GetIn(m, m[i].0, i);
    TypeKeySplit(t, m[i].0);
  }

  /**
   * `__init__`: the fields are set and the executors initialised; any enabled
   * source makes construction raise the ConfigurationError of the first one.
   */
  method NewLoaderExecutor(sources: Option<seq<LoaderSource>>) returns (r: Result<LoaderExecutor, Exc>)
    ensures var given := if sources.Some? then sources.value else [];
      && (r.Ok? <==> forall i :: 0 <= i < |given| ==> !given[i].enabled)
      && (r.Err? ==> Some(r.error) == InitError(given))
    ensures r.Ok? ==> fresh(r.value) && r.value.Valid() && r.value.executors == [] && r.value.executionStats == []
  {
    var executor := new LoaderExecutor(sources);
    var error := executor.InitializeExecutors();
    if error.Some? {
      return Err(error.value);
    }
    return Ok(executor);
  }
}
