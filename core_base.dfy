/**
 * The stream utilities every loader shares: the date-range filter, the default
 * range of `execute`, the retry handler that restarts a failing fetch, and the
 * memory manager that groups a document stream into batches.
 *
 * A fetch is an async generator; here the k-th start of it is a value
 * `Attempt(items, outcome)`: the items it yields, in order, and whether it then
 * finishes or raises. Sleeping is recorded as the list of delays slept.
 */
module CoreBase {
  import opened Wrappers
  import opened Values
  import opened Exceptions
  import opened Models

  /** An optional window of timestamps; an unset bound imposes no constraint. */
  datatype DateRange = DateRange(start: Option<Timestamp>, end: Option<Timestamp>)
  {
    /** `includes(t)`: false when `t` lies before a set start or after a set end. */
    predicate Includes(t: Timestamp)
    {
      if start.Some? && t < start.value then false
      else if end.Some? && t > end.value then false
      else true
    }
  }

  /** The range is inclusive: `t` is included exactly when it is not before the start and not after the end. */
  lemma IncludesInterval(r: DateRange, t: Timestamp)
    ensures r.Includes(t) <==> (r.start.None? || r.start.value <= t) && (r.end.None? || t <= r.end.value)
  {
  }

  /** Both bounds of a non-empty range are inside it. */
  lemma {:induction false} BoundsIncluded(r: DateRange)
    requires r.start.Some? && r.end.Some? && r.start.value <= r.end.value
    ensures r.Includes(r.start.value) && r.Includes(r.end.value)
  {
  }

  /** A range whose bounds lie inside another's includes no more than it. */
  lemma {:induction false} NarrowerRange(inner: DateRange, outer: DateRange, t: Timestamp)
    requires outer.start.Some? ==> inner.start.Some? && outer.start.value <= inner.start.value
    requires outer.end.Some? ==> inner.end.Some? && inner.end.value <= outer.end.value
    requires inner.Includes(t)
    ensures outer.Includes(t)
  {
  }

  /** The range `execute` filters with: the given one, or the unbounded `DateRange()` when none is given. */
  function EffectiveRange(dateRange: Option<DateRange>): (r: DateRange)
    ensures dateRange.Some? ==> r == dateRange.value
    ensures dateRange.None? ==> forall t :: r.Includes(t)
  {
    if dateRange.Some? then dateRange.value else DateRange(None, None)
  }

  /**
   * `_should_process_document`: a document without `updated_at` is always
   * processed, any other exactly when the range includes its `updated_at`.
   */
  predicate ShouldProcessDocument(document: Document, dateRange: DateRange)
    reads document
  {
    if document.updatedAt.None? then true else dateRange.Includes(document.updatedAt.value)
  }

  /** Under the range `execute()` uses when it is given none, every document is processed. */
  lemma ShouldProcessWithoutRange(document: Document)
    ensures ShouldProcessDocument(document, EffectiveRange(None))
  {
  }

  /** A document processed under a narrower range is processed under the wider one. */
  lemma ShouldProcessNarrower(document: Document, inner: DateRange, outer: DateRange)
    requires outer.start.Some? ==> inner.start.Some? && outer.start.value <= inner.start.value
    requires outer.end.Some? ==> inner.end.Some? && inner.end.value <= outer.end.value
    requires ShouldProcessDocument(document, inner)
    ensures ShouldProcessDocument(document, outer)
  {
    if document.updatedAt.Some? {
      NarrowerRange(inner, outer, document.updatedAt.value);
    }
  }

  /**
   * A document updated before a set start or after a set end is skipped; one with
   * no `updated_at` is processed whatever the range.
   */
  lemma ShouldProcessOutside(document: Document, dateRange: DateRange)
    ensures document.updatedAt.None? ==> ShouldProcessDocument(document, dateRange)
    ensures document.updatedAt.Some? && dateRange.start.Some? && document.updatedAt.value < dateRange.start.value
        ==> !ShouldProcessDocument(document, dateRange)
    ensures document.updatedAt.Some? && dateRange.end.Some? && document.updatedAt.value > dateRange.end.value
        ==> !ShouldProcessDocument(document, dateRange)
  {
  }

  /** How one start of a fetch generator ends. */
  datatype Outcome = Completed | Raised(error: Exc)

  /** One start of a fetch generator: what it yields, then how it ends. */
  datatype Attempt<T> = Attempt(items: seq<T>, outcome: Outcome)

  /**
   * What `execute_with_retry` does in total: the items it passes on, the delays it
   * sleeps, how it ends, and how many times it started the generator.
   */
  datatype RetryRun<T> = RetryRun(yielded: seq<T>, delays: seq<real>, outcome: Outcome, starts: nat)

  /**
   * The failures worth retrying: `ConnectionError`, `TimeoutError` and `OSError`,
   * subclasses included; listed here class by class.
   */
  predicate IsNetworkError(e: Exc)
  {
    || e.kind.OSError? || e.kind.ConnectionError? || e.kind.ConnectionResetError?
    || e.kind.TimeoutError? || e.kind.FileNotFoundError?
  }

  /** The listed classes are exactly the subclasses of `OSError`. */
  lemma NetworkErrorIsOSError(e: Exc)
    ensures IsNetworkError(e) <==> IsSubclass(e.kind, OSError)
  {
    OSErrorKinds(e.kind);
  }

  /** An attempt that fails with a network error. */
  predicate Retriable<T>(a: Attempt<T>)
  {
    a.outcome.Raised? && IsNetworkError(a.outcome.error)
  }

  function Pow2(k: nat): (p: nat)
    ensures p >= 1
  {
    if k == 0 then 1 else 2 * Pow2(k - 1)
  }

  /** The sleep after failed attempt `k`: `base_delay * 2**k`. */
  function Delay(baseDelay: real, k: nat): real
  {
    baseDelay * (Pow2(k) as real)
  }

  /**
   * The retry loop from attempt `attempt` on: run the generator; a success ends
   * the loop; a network failure before the last attempt sleeps and starts over;
   * any other failure, or a network failure on the last attempt, is raised.
   */
  function RetryFrom<T>(run: nat -> Attempt<T>, maxRetries: int, baseDelay: real, attempt: nat): RetryRun<T>
    decreases maxRetries - attempt
  {
    if attempt >= maxRetries then RetryRun([], [], Completed, 0)
    else
      var a := run(attempt);
      if Retriable(a) && attempt < maxRetries - 1 then
        var rest := RetryFrom(run, maxRetries, baseDelay, attempt + 1);
        RetryRun(a.items + rest.yielded, [Delay(baseDelay, attempt)] + rest.delays, rest.outcome, rest.starts + 1)
      else
        RetryRun(a.items, [], a.outcome, 1)
  }

  /** Everything the attempts `from .. to-1` yield, in order. */
  function Yields<T>(run: nat -> Attempt<T>, from: nat, to: nat): seq<T>
    decreases to - from
  {
    if from >= to then [] else run(from).items + Yields(run, from + 1, to)
  }

  /**
   * How the retry loop from attempt `a` ends: it starts the generator `n` times,
   * `1 <= n <= maxRetries - a`; every start but the last failed with a network
   * error; the outcome is the last start's; and a network failure ends the loop
   * only on the final permitted attempt.
   */
  lemma {:induction false} RetryStarts<T>(run: nat -> Attempt<T>, maxRetries: int, baseDelay: real, a: nat)
    requires a < maxRetries
    ensures var r := RetryFrom(run, maxRetries, baseDelay, a);
      && 1 <= r.starts <= maxRetries - a
      && (forall j :: a <= j < a + r.starts - 1 ==> Retriable(run(j)))
      && r.outcome == run(a + r.starts - 1).outcome
      && (Retriable(run(a + r.starts - 1)) ==> a + r.starts == maxRetries)
    decreases maxRetries - a
  {
    var r := RetryFrom(run, maxRetries, baseDelay, a);
    if Retriable(run(a)) && a < maxRetries - 1 {
      var rest := RetryFrom(run, maxRetries, baseDelay, a + 1);
      RetryStarts(run, maxRetries, baseDelay, a + 1);
      assert r.starts == rest.starts + 1 && r.outcome == rest.outcome;
    } else {
      assert r.starts == 1 && r.outcome == run(a).outcome;
    }
  }

  /** The loop from attempt `a` passes on every item of every start, repeats included. */
  lemma {:induction false} RetryYields<T>(run: nat -> Attempt<T>, maxRetries: int, baseDelay: real, a: nat)
    requires a < maxRetries
    ensures RetryFrom(run, maxRetries, baseDelay, a).yielded ==
      Yields(run, a, a + RetryFrom(run, maxRetries, baseDelay, a).starts)
    decreases maxRetries - a
  {
    var r := RetryFrom(run, maxRetries, baseDelay, a);
    if Retriable(run(a)) && a < maxRetries - 1 {
      var rest := RetryFrom(run, maxRetries, baseDelay, a + 1);
      RetryYields(run, maxRetries, baseDelay, a + 1);
      assert r.yielded == run(a).items + rest.yielded && r.starts == rest.starts + 1;
      assert Yields(run, a, a + r.starts) == run(a).items + Yields(run, a + 1, a + 1 + rest.starts);
    } else {
      assert r.yielded == run(a).items && r.starts == 1;
      assert Yields(run, a + 1, a + 1) == [];
    }
  }

  /** The loop from attempt `a` sleeps once per retry, `base_delay * 2**(a + k)` after the k-th. */
  lemma {:induction false} RetryDelays<T>(run: nat -> Attempt<T>, maxRetries: int, baseDelay: real, a: nat)
    requires a < maxRetries
    ensures var r := RetryFrom(run, maxRetries, baseDelay, a);
      && |r.delays| == r.starts - 1
      && (forall k :: 0 <= k < |r.delays| ==> r.delays[k] == Delay(baseDelay, a + k))
    decreases maxRetries - a
  {
    if Retriable(run(a)) && a < maxRetries - 1 {
      var rest := RetryFrom(run, maxRetries, baseDelay, a + 1);
      RetryDelays(run, maxRetries, baseDelay, a + 1);
      DelaysShift(rest.delays, baseDelay, a);
    }
  }

  /** One more sleep in front of the schedule from `a + 1` gives the schedule from `a`. */
  lemma DelaysShift(rest: seq<real>, baseDelay: real, a: nat)
    requires forall k :: 0 <= k < |rest| ==> rest[k] == Delay(baseDelay, a + 1 + k)
    ensures forall k :: 0 <= k < |rest| + 1 ==> ([Delay(baseDelay, a)] + rest)[k] == Delay(baseDelay, a + k)
  {
    forall k | 0 <= k < |rest| + 1
      ensures ([Delay(baseDelay, a)] + rest)[k] == Delay(baseDelay, a + k)
    {
      if k > 0 {
        assert ([Delay(baseDelay, a)] + rest)[k] == rest[k - 1];
      }
    }
  }

  /** With no attempt allowed the loop starts nothing and ends quietly. */
  lemma NoAttempts<T>(run: nat -> Attempt<T>, maxRetries: int, baseDelay: real)
    requires maxRetries <= 0
    ensures RetryFrom(run, maxRetries, baseDelay, 0) == RetryRun([], [], Completed, 0)
  {
  }

  /** A success after network failures only, within the permitted attempts, ends the loop in success. */
  lemma {:induction false} SuccessStops<T>(run: nat -> Attempt<T>, maxRetries: int, baseDelay: real, s: nat)
    requires s < maxRetries && run(s).outcome == Completed
    requires forall j :: 0 <= j < s ==> Retriable(run(j))
    ensures RetryFrom(run, maxRetries, baseDelay, 0).outcome == Completed
    ensures RetryFrom(run, maxRetries, baseDelay, 0).starts == s + 1
  {
    RetryStarts(run, maxRetries, baseDelay, 0);
  }

  /** A start failing with something other than a network error is raised at once, with no retry. */
  lemma {:induction false} NonNetworkPropagates<T>(run: nat -> Attempt<T>, maxRetries: int, baseDelay: real, s: nat, e: Exc)
    requires s < maxRetries && run(s).outcome == Raised(e) && !IsNetworkError(e)
    requires forall j :: 0 <= j < s ==> Retriable(run(j))
    ensures RetryFrom(run, maxRetries, baseDelay, 0).outcome == Raised(e)
    ensures RetryFrom(run, maxRetries, baseDelay, 0).starts == s + 1
  {
    RetryStarts(run, maxRetries, baseDelay, 0);
  }

  /**
   * Network failures on every permitted start: the generator is started exactly
   * `maxRetries` times, the last failure is raised, and nothing is slept after it.
   */
  lemma {:induction false} ExhaustedRaisesLast<T>(run: nat -> Attempt<T>, maxRetries: int, baseDelay: real)
    requires maxRetries >= 1
    requires forall j :: 0 <= j < maxRetries ==> Retriable(run(j))
    ensures RetryFrom(run, maxRetries, baseDelay, 0).starts == maxRetries
    ensures RetryFrom(run, maxRetries, baseDelay, 0).outcome == run(maxRetries - 1).outcome
    ensures |RetryFrom(run, maxRetries, baseDelay, 0).delays| == maxRetries - 1
  {
    RetryStarts(run, maxRetries, baseDelay, 0);
    RetryDelays(run, maxRetries, baseDelay, 0);
  }

  /** With the default settings (3 attempts, base delay 1) the sleeps are 1 and then 2 seconds, at most. */
  lemma {:induction false} DefaultDelays<T>(run: nat -> Attempt<T>)
    ensures var d := RetryFrom(run, 3, 1.0, 0).delays;
      |d| <= 2 && (|d| >= 1 ==> d[0] == 1.0) && (|d| == 2 ==> d[1] == 2.0)
  {
    RetryStarts(run, 3, 1.0, 0);
    RetryDelays(run, 3, 1.0, 0);
    assert Pow2(1) == 2;
  }

  /** What has been passed on and slept so far, followed by the rest of the loop. */
  function Then<T>(yielded: seq<T>, delays: seq<real>, starts: nat, rest: RetryRun<T>): RetryRun<T>
  {
    RetryRun(yielded + rest.yielded, delays + rest.delays, rest.outcome, starts + rest.starts)
  }

  /** A retried attempt moves its items and its sleep from the rest of the loop into what is done. */
  lemma RetryAgain<T>(run: nat -> Attempt<T>, maxRetries: int, baseDelay: real, attempt: nat,
                      yielded: seq<T>, delays: seq<real>)
    requires attempt < maxRetries - 1 && Retriable(run(attempt))
    ensures Then(yielded, delays, attempt, RetryFrom(run, maxRetries, baseDelay, attempt))
         == Then(yielded + run(attempt).items, delays + [Delay(baseDelay, attempt)], attempt + 1,
                 RetryFrom(run, maxRetries, baseDelay, attempt + 1))
  {
    var rest := RetryFrom(run, maxRetries, baseDelay, attempt + 1);
    assert yielded + (run(attempt).items + rest.yielded) == yielded + run(attempt).items + rest.yielded;
    assert delays + ([Delay(baseDelay, attempt)] + rest.delays) == delays + [Delay(baseDelay, attempt)] + rest.delays;
  }

  /** An attempt that is not retried ends the loop with its items and its outcome. */
  lemma RetryEnd<T>(run: nat -> Attempt<T>, maxRetries: int, baseDelay: real, attempt: nat,
                    yielded: seq<T>, delays: seq<real>)
    requires attempt < maxRetries && !(Retriable(run(attempt)) && attempt < maxRetries - 1)
    ensures Then(yielded, delays, attempt, RetryFrom(run, maxRetries, baseDelay, attempt))
         == RetryRun(yielded + run(attempt).items, delays, run(attempt).outcome, attempt + 1)
  {
    assert delays + [] == delays;
  }

  /** `SimpleRetryHandler`: exponential back-off for network failures. */
  class SimpleRetryHandler {
    const maxRetries: int
    const baseDelay: real

    constructor (maxRetries: int, baseDelay: real)
      ensures this.maxRetries == maxRetries && this.baseDelay == baseDelay
    {
      this.maxRetries := maxRetries;
      this.baseDelay := baseDelay;
    }

    /** The handler built with no arguments: three attempts, a base delay of one second. */
    constructor Default()
      ensures maxRetries == 3 && baseDelay == 1.0
    {
      maxRetries := 3;
      baseDelay := 1.0;
    }

    /**
     * `execute_with_retry(func_generator)`, where `run(k)` is the k-th call of
     * `func_generator()`: the loop over attempts, passing items on as they come.
     */
    method ExecuteWithRetry<T>(run: nat -> Attempt<T>) returns (r: RetryRun<T>)
      ensures r == RetryFrom(run, maxRetries, baseDelay, 0)
    {
      var yielded: seq<T> := [];
      var delays: seq<real> := [];
      var lastException: Option<Exc> := None;
      var attempt: nat := 0;
      while attempt < maxRetries
        invariant lastException.Some? ==> attempt < maxRetries
        invariant Then(yielded, delays, attempt, RetryFrom(run, maxRetries, baseDelay, attempt))
               == RetryFrom(run, maxRetries, baseDelay, 0)
        decreases maxRetries - attempt
      {
        var a := run(attempt);
        if Retriable(a) && attempt < maxRetries - 1 {
          RetryAgain(run, maxRetries, baseDelay, attempt, yielded, delays);
        } else {
          RetryEnd(run, maxRetries, baseDelay, attempt, yielded, delays);
        }
        yielded := yielded + a.items;
        if a.outcome.Completed? {
          return RetryRun(yielded, delays, Completed, attempt + 1);
        }
        var e := a.outcome.error;
        lastException := Some(e);
        if IsNetworkError(e) {
          if attempt < maxRetries - 1 {
            delays := delays + [Delay(baseDelay, attempt)];
            attempt := attempt + 1;
          } else {
            return RetryRun(yielded, delays, Raised(e), attempt + 1);
          }
        } else {
          return RetryRun(yielded, delays, Raised(e), attempt + 1);
        }
      }
      // The trailing `raise last_exception` after the loop is unreachable.
      assert lastException.None?;
      r := RetryRun(yielded, delays, Completed, attempt);
    }
  }

  /** `BaseExecutor.execute` calls `fetch(date_range)` afresh on every start. */
  function Fetching<T>(fetch: (DateRange, nat) -> Attempt<T>, dateRange: DateRange): nat -> Attempt<T>
  {
    (k: nat) => fetch(dateRange, k)
  }

  /**
   * `BaseExecutor.execute(date_range)`, where `fetch(range, k)` is the k-th run of
   * the loader's `fetch(range)`: the fetch under the effective range, through the
   * executor's retry handler.
   */
  method Execute<T>(retryHandler: SimpleRetryHandler, fetch: (DateRange, nat) -> Attempt<T>,
                    dateRange: Option<DateRange>) returns (r: RetryRun<T>)
    ensures r == RetryFrom(Fetching(fetch, EffectiveRange(dateRange)), retryHandler.maxRetries, retryHandler.baseDelay, 0)
  {
    var range := if dateRange.Some? then dateRange.value else DateRange(None, None);
    r := retryHandler.ExecuteWithRetry(Fetching(fetch, range));
  }

  /** `execute()` with no range does what `execute(DateRange())` does. */
  lemma ExecuteDefaultRange<T>(fetch: (DateRange, nat) -> Attempt<T>, maxRetries: int, baseDelay: real)
    ensures RetryFrom(Fetching(fetch, EffectiveRange(None)), maxRetries, baseDelay, 0)
         == RetryFrom(Fetching(fetch, EffectiveRange(Some(DateRange(None, None)))), maxRetries, baseDelay, 0)
  {
  }

  /** All the batches joined, in order. */
  function Flatten<T>(bs: seq<seq<T>>): seq<T>
  {
    if bs == [] then [] else Flatten(bs[..|bs| - 1]) + bs[|bs| - 1]
  }

  /** The batch size `process_batch` uses: the override when truthy, else the manager's own. */
  function EffectiveBatchSize(override: Option<int>, batchSize: int): int
  {
    if override.Some? && override.value != 0 then override.value else batchSize
  }

  /** The length at which a batch is flushed: a size below one flushes after every document. */
  function Width(size: int): (w: nat)
    ensures w >= 1 && (size >= 1 ==> w == size)
  {
    if size < 1 then 1 else size
  }

  /** `SimpleMemoryManager`: groups a document stream into lists. */
  class SimpleMemoryManager {
    const batchSize: int
    const enableGc: bool

    constructor (batchSize: int, enableGc: bool)
      ensures this.batchSize == batchSize && this.enableGc == enableGc
    {
      this.batchSize := batchSize;
      this.enableGc := enableGc;
    }

    /** The manager built with no arguments: batches of 20, collection on. */
    constructor Default()
      ensures batchSize == 20 && enableGc
    {
      batchSize := 20;
      enableGc := true;
    }

    /**
     * `process_batch(documents_stream, batch_size)`: no batch is empty and every
     * flushed batch has exactly the width. When the stream completes, the batches
     * joined are the stream in order, the last one at most the width, so there are
     * ceil(n / width) of them. When the stream raises, its error is passed on, the
     * batches yielded before are the full-width batches of the documents read, and
     * the partial batch held at that moment (shorter than the width) is dropped.
     */
    method ProcessBatch<T>(stream: Attempt<T>, override: Option<int>) returns (batches: seq<seq<T>>, outcome: Outcome)
      ensures outcome == stream.outcome
      ensures forall i :: 0 <= i < |batches| ==> batches[i] != []
      ensures forall i :: 0 <= i < |batches| - 1 ==> |batches[i]| == Width(EffectiveBatchSize(override, batchSize))
      ensures |batches| > 0 ==> |batches[|batches| - 1]| <= Width(EffectiveBatchSize(override, batchSize))
      ensures stream.outcome.Completed? ==>
        && Flatten(batches) == stream.items
        && (|batches| == 0 <==> |stream.items| == 0)
        && (|batches| > 0 ==> (|batches| - 1) * Width(EffectiveBatchSize(override, batchSize)) < |stream.items|
                                 <= |batches| * Width(EffectiveBatchSize(override, batchSize)))
      ensures stream.outcome.Raised? ==>
        && (forall i :: 0 <= i < |batches| ==> |batches[i]| == Width(EffectiveBatchSize(override, batchSize)))
        && Flatten(batches) <= stream.items
        && |stream.items| - |Flatten(batches)| < Width(EffectiveBatchSize(override, batchSize))
    {
      var documents := stream.items;
      var effective := EffectiveBatchSize(override, batchSize);
      ghost var w := Width(effective);
      var batch: seq<T> := [];
      batches := [];
      for i := 0 to |documents|
        invariant Flatten(batches) + batch == documents[..i]
        invariant |batch| < w
        invariant forall j :: 0 <= j < |batches| ==> |batches[j]| == w
      {
        assert documents[..i + 1] == documents[..i] + [documents[i]];
        batch := batch + [documents[i]];
        if |batch| >= effective {
          FlattenSnoc(batches, batch);
          batches := batches + [batch];
          batch := [];
        }
      }
      assert documents[..|documents|] == documents;
      outcome := stream.outcome;
      if outcome.Raised? {
        // the exception leaves the `async for`; the partial batch is never yielded
        return;
      }
      if batch != [] {
        FlattenSnoc(batches, batch);
        batches := batches + [batch];
      }
      BatchCount(batches, w);
    }
  }

  lemma FlattenSnoc<T>(bs: seq<seq<T>>, b: seq<T>)
    ensures Flatten(bs + [b]) == Flatten(bs) + b
  {
    assert (bs + [b])[..|bs|] == bs;
  }

  /** Batches of exactly `w` items hold `w` items each. */
  lemma {:induction false} FullLength<T>(bs: seq<seq<T>>, w: nat)
    requires forall i :: 0 <= i < |bs| ==> |bs[i]| == w
    ensures |Flatten(bs)| == |bs| * w
  {
    if bs != [] {
      FullLength(bs[..|bs| - 1], w);
      assert |bs| * w == (|bs| - 1) * w + w;
    }
  }

  /**
   * Non-empty batches, all but the last of width `w` and the last at most `w`:
   * their count is the ceiling of the number of items over `w`.
   */
  lemma {:induction false} BatchCount<T>(bs: seq<seq<T>>, w: nat)
    requires w >= 1
    requires forall i :: 0 <= i < |bs| ==> bs[i] != []
    requires forall i :: 0 <= i < |bs| - 1 ==> |bs[i]| == w
    requires |bs| > 0 ==> |bs[|bs| - 1]| <= w
    ensures |bs| == 0 <==> |Flatten(bs)| == 0
    ensures |bs| > 0 ==> (|bs| - 1) * w < |Flatten(bs)| <= |bs| * w
  {
    if bs != [] {
      var init := bs[..|bs| - 1];
      FullLength(init, w);
      assert |bs| * w == |init| * w + w;
    }
  }
}
