/** Error classification, the retry table and the retry loop
    (internal/application/usecases/transcode_usecase.go, pkg/types/retry.go). */
module Retrying {
  import opened Options
  import opened Jobs

  // ------------------------------------------------------------ reading error texts

  predicate OccursAt(s: string, sub: string, k: nat)
  {
    k + |sub| <= |s| && s[k..k + |sub|] == sub
  }

  ghost predicate Occurs(s: string, sub: string) { exists k: nat :: OccursAt(s, sub, k) }

  /** The program's `contains`. */
  predicate Contains(s: string, sub: string)
  {
    && |s| >= |sub|
    && (s == sub
        || (|s| > |sub|
            && (s[..|sub|] == sub
                || s[|s| - |sub|..] == sub
                || (|s| > |sub| + 1 && s[1..|sub| + 1] == sub))))
  }

  /** It finds exactly the occurrences at the start, one further, and at the end. */
  lemma ContainsLooksAtThreePlaces(s: string, sub: string)
    ensures Contains(s, sub)
       <==> OccursAt(s, sub, 0) || OccursAt(s, sub, 1) || (|sub| <= |s| && OccursAt(s, sub, |s| - |sub|))
  {
    if |s| >= |sub| {
      assert s[|s| - |sub|..] == s[|s| - |sub|..|s| - |sub| + |sub|];
      if |s| == |sub| {
        assert s[0..|sub|] == s;
      }
    }
  }

  ghost predicate FindsAll(sub: string, length: nat)
  {
    forall s: string :: |s| == length ==> (Contains(s, sub) <==> Occurs(s, sub))
  }

  function Other(c: char): char { if c == 'x' then 'y' else 'x' }

  /** `contains` is a substring test exactly on texts at most two characters longer than
      what it looks for; on longer ones it misses some occurrences. */
  lemma ContainsIsSubstringTest(sub: string, length: nat)
    ensures FindsAll(sub, length) <==> sub == "" || length <= |sub| + 2
  {
    if sub == "" || length <= |sub| + 2 {
      forall s: string | |s| == length ensures Contains(s, sub) <==> Occurs(s, sub) {
        ContainsLooksAtThreePlaces(s, sub);
        if k: nat :| OccursAt(s, sub, k) {
          if sub == "" {
            assert OccursAt(s, sub, 0);
          }
        }
      }
    } else {
      var lead, tail := Other(sub[0]), Other(sub[|sub| - 1]);
      var s := [lead, lead] + sub + seq(length - |sub| - 2, _ => tail);
      assert s[2..2 + |sub|] == sub;
      assert OccursAt(s, sub, 2);
      assert s[0] != sub[0] && s[1] != sub[0] && s[|s| - 1] != sub[|sub| - 1];
      ContainsLooksAtThreePlaces(s, sub);
      Mismatch(s, sub, 0, 0);
      Mismatch(s, sub, 1, 0);
      Mismatch(s, sub, |s| - |sub|, |sub| - 1);
      assert |s| == length && !Contains(s, sub);
    }
  }

  lemma Mismatch(s: string, sub: string, k: nat, i: nat)
    requires i < |sub| && (k + i < |s| ==> s[k + i] != sub[i])
    ensures !OccursAt(s, sub, k)
  {
    if k + |sub| <= |s| {
      assert s[k..k + |sub|][i] == s[k + i];
    }
  }

  function ExtractErrorCode(err: string): ErrorCode
  {
    if Contains(err, "resolution") then ResolutionDetectFailed
    else if Contains(err, "disk") then DiskFull
    else if Contains(err, "permission") then PermissionDenied
    else if Contains(err, "I/O") || Contains(err, "io") then IOError
    else FFmpegFailed
  }

  // ---------------------------------------------------------------- the retry table

  /** Backoff is in seconds. */
  datatype RetryStrategy = RetryStrategy(shouldRetry: bool, maxAttempts: nat, backoff: seq<nat>)

  function GetRetryStrategy(code: ErrorCode): RetryStrategy
  {
    match code
    case FFmpegFailed | Encoding240p | Encoding360p | Encoding480p | Encoding720p
       | Encoding1080p | Encoding1440p | Encoding4K =>
      RetryStrategy(true, 3, [2, 5, 10])
    case IOError =>
      RetryStrategy(true, 3, [3, 6, 15])
    case InvalidVideo | UnsupportedFormat | CorruptedFile | NoVideoStream
       | ResolutionTooHigh | DurationTooShort | ResolutionDetectFailed
       | DiskFull | JobSizeExceeded =>
      RetryStrategy(false, 0, [])
    case _ =>
      RetryStrategy(true, 2, [2, 5])
  }

  /** The delays grow and never exceed those of the I/O row. */
  lemma BackoffBounds(code: ErrorCode)
    ensures var b := GetRetryStrategy(code).backoff;
            && |b| <= 3
            && (forall i :: 0 <= i < |b| ==> b[i] <= [3, 6, 15][i])
            && (forall i, j :: 0 <= i < j < |b| ==> b[i] < b[j])
            && (|b| == GetRetryStrategy(code).maxAttempts)
            && (GetRetryStrategy(code).shouldRetry <==> b != [])
  {}

  /** A text whose first two characters and last character match none of the words. */
  lemma OtherwiseFFmpeg(err: string)
    requires |err| >= 2 && err[0] !in "rdpIi" && err[1] !in "rdpIi" && err[|err| - 1] !in "nkOo"
    ensures ExtractErrorCode(err) == FFmpegFailed
  {
    NotFound(err, "resolution");
    NotFound(err, "disk");
    NotFound(err, "permission");
    NotFound(err, "I/O");
    NotFound(err, "io");
  }

  lemma NotFound(err: string, sub: string)
    requires |err| >= 2 && sub != ""
    requires err[0] != sub[0] && err[1] != sub[0] && err[|err| - 1] != sub[|sub| - 1]
    ensures !Contains(err, sub)
  {
    ContainsLooksAtThreePlaces(err, sub);
    Mismatch(err, sub, 0, 0);
    Mismatch(err, sub, 1, 0);
    if |sub| <= |err| {
      Mismatch(err, sub, |err| - |sub|, |sub| - 1);
    }
  }

  /** The word stands at the start, one further, or at the end. */
  ghost predicate Seen(err: string, word: string)
  {
    OccursAt(err, word, 0) || OccursAt(err, word, 1) || (|word| <= |err| && OccursAt(err, word, |err| - |word|))
  }

  /** Which code a text gets, in both directions. */
  lemma CodeExactlyWhen(err: string)
    ensures var code := ExtractErrorCode(err);
            var resolution, disk, denied := Seen(err, "resolution"), Seen(err, "disk"), Seen(err, "permission");
            var io := Seen(err, "I/O") || Seen(err, "io");
            && (code == ResolutionDetectFailed <==> resolution)
            && (code == DiskFull <==> disk && !resolution)
            && (code == PermissionDenied <==> denied && !disk && !resolution)
            && (code == IOError <==> io && !denied && !disk && !resolution)
            && (code == FFmpegFailed <==> !io && !denied && !disk && !resolution)
  {
    ContainsLooksAtThreePlaces(err, "resolution");
    ContainsLooksAtThreePlaces(err, "disk");
    ContainsLooksAtThreePlaces(err, "permission");
    ContainsLooksAtThreePlaces(err, "I/O");
    ContainsLooksAtThreePlaces(err, "io");
  }

  /** Main result: a failed attempt is not retried exactly if its text shows one of two words. */
  lemma NotRetriedExactlyWhen(err: string)
    ensures !GetRetryStrategy(ExtractErrorCode(err)).shouldRetry <==> Seen(err, "resolution") || Seen(err, "disk")
  {
    CodeExactlyWhen(err);
  }

  /** The table says a job that is too large is not retried, but the error texts of both
      size checks classify as FFmpeg failures, which are. */
  lemma SizeLimitIsRetried(lead: string, detail: string)
    requires lead == SIZE_CHECK || lead == SIZE_ENFORCED
    ensures ExtractErrorCode(lead + detail + " MB") == FFmpegFailed
    ensures GetRetryStrategy(FFmpegFailed).shouldRetry && !GetRetryStrategy(JobSizeExceeded).shouldRetry
  {
    assert ExtractErrorCode(lead + detail + " MB") == FFmpegFailed by {
      SizeLeadLetters(lead);
      Framed(lead, detail);
    }
  }

  lemma SizeLeadLetters(lead: string)
    requires lead == SIZE_CHECK || lead == SIZE_ENFORCED
    ensures |lead| >= 2 && lead[0] !in "rdpIi" && lead[1] !in "rdpIi"
  {
    if lead == SIZE_CHECK {
      assert lead[0] == 'j' && lead[1] == 'o';
    } else {
      assert lead[0] == 'e' && lead[1] == 'n';
    }
  }

  lemma Framed(lead: string, detail: string)
    requires |lead| >= 2 && lead[0] !in "rdpIi" && lead[1] !in "rdpIi"
    ensures ExtractErrorCode(lead + detail + " MB") == FFmpegFailed
  {
    var err := lead + detail + " MB";
    assert err[0] == lead[0] && err[1] == lead[1] && err[|err| - 1] == 'B';
    OtherwiseFFmpeg(err);
  }

  const SIZE_CHECK := "job size limit exceeded: "
  const SIZE_ENFORCED := "encoding failed: " + "ERR_JOB_SIZE_EXCEEDED: " + SIZE_CHECK

  // ------------------------------------------------------------------ the retry loop

  /** What one call of `process` did to the job that is in the repository. */
  datatype Attempt =
    | NoState(err: string)              // no checkpoint could be loaded or created
    | Broken(err: string, hash: string) // failed while running; a non-empty hash was stored
    | Duplicate(hash: string)           // ended by the deduplication exit
    | Finished(hash: string, failures: bool)  // went through finalization

  function Hashed(r: JobRecord, hash: string): JobRecord { if hash == "" then r else r.(hash := hash) }

  function AfterAttempt(r: JobRecord, a: Attempt): JobRecord
  {
    match a
    case NoState(_) => r
    case Broken(_, hash) => Hashed(WithStatus(r, Running), hash)
    case Duplicate(hash) => WithStatus(Hashed(WithStatus(r, Running), hash), Completed)
    case Finished(hash, failures) =>
      var d := Hashed(WithStatus(r, Running), hash).(described := true);
      if failures then WithStatus(WithError(d, JobError(PartialEncoding, "encoding")), PartialSuccess)
      else WithStatus(d, Completed)
  }

  function ErrorOf(a: Attempt): Option<string>
  {
    if a.NoState? || a.Broken? then Some(a.err) else None
  }

  /** The state of the retry loop, and its result. The loop is described for any way of
      classifying error texts; the program's is ExtractErrorCode. */
  datatype Execution = Execution(err: Option<string>, attempts: nat, slept: nat, deadLettered: bool, job: JobRecord)

  function GiveUp(classify: string -> ErrorCode, e: Execution, stage: string): Execution
  {
    var code := if e.err.Some? then classify(e.err.value) else NoCode;
    e.(job := WithError(e.job, JobError(code, stage)))
  }

  function Attempted(e: Execution, a: Attempt): Execution
  {
    Execution(ErrorOf(a), e.attempts + 1, e.slept, e.deadLettered, AfterAttempt(e.job, a))
  }

  function Retry(e: Execution, delay: nat): Execution
  {
    e.(slept := e.slept + delay, job := e.job.(retries := e.job.retries + 1))
  }

  /** The rest of the loop from attempt number n on, whose attempts end as `runs` says. */
  function ExecuteFrom(classify: string -> ErrorCode, maxRetries: int, runs: nat -> Attempt, n: nat,
                       e: Execution): Execution
    requires n > 0 ==> e.err.Some?
    decreases if n <= maxRetries then maxRetries - n + 1 else 0
  {
    if n > maxRetries then GiveUp(classify, e, "retry").(deadLettered := true)
    else if n == 0 then
      var next := Attempted(e, runs(0));
      if next.err.None? then next else ExecuteFrom(classify, maxRetries, runs, 1, next)
    else
      var strategy := GetRetryStrategy(classify(e.err.value));
      if !strategy.shouldRetry then GiveUp(classify, e, "validation")
      else if n > |strategy.backoff| then GiveUp(classify, e, "retry")
      else
        var next := Attempted(Retry(e, strategy.backoff[n - 1]), runs(n));
        if next.err.None? then next else ExecuteFrom(classify, maxRetries, runs, n + 1, next)
  }

  function Executed(classify: string -> ErrorCode, maxRetries: int, runs: nat -> Attempt, job: JobRecord): Execution
  {
    ExecuteFrom(classify, maxRetries, runs, 0, Execution(None, 0, 0, false, job))
  }

  // ------------------------------------------------- the loop, attempt by attempt

  /** The attempts made so far, the latest on top. */
  datatype Trail = Nothing | After(before: Trail, last: Attempt)

  function Count(made: Trail): nat { if made.Nothing? then 0 else Count(made.before) + 1 }

  const Untried := NoState("")

  function Nth(made: Trail, k: nat): Attempt
  {
    if made.Nothing? then Untried else if k == Count(made.before) then made.last else Nth(made.before, k)
  }

  /** A way for attempts to end that begins with these. */
  function Beginning(made: Trail): nat -> Attempt { (k: nat) => Nth(made, k) }

  predicate Retries(strategy: RetryStrategy, n: nat) { strategy.shouldRetry && n <= |strategy.backoff| }

  /** The delay before attempt number n, if that is made. */
  function NextDelay(code: ErrorCode, n: nat): Option<nat>
    requires n > 0
  {
    var strategy := GetRetryStrategy(code);
    if Retries(strategy, n) then Some(strategy.backoff[n - 1]) else None
  }

  const ENCODING_ERRORS: set<ErrorCode> :=
    {FFmpegFailed, Encoding240p, Encoding360p, Encoding480p, Encoding720p, Encoding1080p, Encoding1440p, Encoding4K}

  const FINAL_ERRORS: set<ErrorCode> :=
    {InvalidVideo, UnsupportedFormat, CorruptedFile, NoVideoStream, ResolutionTooHigh, DurationTooShort,
     ResolutionDetectFailed, DiskFull, JobSizeExceeded}

  /** The delay before attempt number n for every code that is retried. */
  lemma DelayTable(code: ErrorCode, n: nat)
    requires n > 0
    ensures code in ENCODING_ERRORS ==> NextDelay(code, n) == if n <= 3 then Some([2, 5, 10][n - 1]) else None
    ensures code == IOError ==> NextDelay(code, n) == if n <= 3 then Some([3, 6, 15][n - 1]) else None
    ensures code in {PermissionDenied, PartialEncoding, NoCode} ==>
              NextDelay(code, n) == if n <= 2 then Some([2, 5][n - 1]) else None
  {}

  /** The other codes are never retried, and only for them the loop gives up so. */
  lemma NoDelay(code: ErrorCode, n: nat)
    requires n > 0
    ensures code in FINAL_ERRORS ==> NextDelay(code, n) == None
    ensures StageOf(code) == if code in FINAL_ERRORS then "validation" else "retry"
  {}

  /** Where the loop gives up otherwise. */
  function StageOf(code: ErrorCode): string { if GetRetryStrategy(code).shouldRetry then "retry" else "validation" }

  function Delay(classify: string -> ErrorCode, e: Execution, n: nat): nat
    requires n > 0
  {
    match e.err
    case None => 0
    case Some(text) => if NextDelay(classify(text), n).Some? then NextDelay(classify(text), n).value else 0
  }

  /** The state of the loop once these attempts were made. */
  function Progress(classify: string -> ErrorCode, made: Trail, job: JobRecord): Execution
  {
    if made.Nothing? then Execution(None, 0, 0, false, job)
    else
      var n, e := Count(made.before), Progress(classify, made.before, job);
      Attempted(if n == 0 then e else Retry(e, Delay(classify, e, n)), made.last)
  }

  /** The loop makes attempt number n. */
  predicate Continues(classify: string -> ErrorCode, maxRetries: int, e: Execution, n: nat)
  {
    n <= maxRetries && (n > 0 ==> e.err.Some? && Retries(GetRetryStrategy(classify(e.err.value)), n))
  }

  /** The loop makes every one of these attempts. */
  predicate AllMade(classify: string -> ErrorCode, maxRetries: int, made: Trail, job: JobRecord)
  {
    made.After? ==>
      && AllMade(classify, maxRetries, made.before, job)
      && Continues(classify, maxRetries, Progress(classify, made.before, job), Count(made.before))
  }

  /** Having made these attempts the loop is over, or goes on with the rest. */
  lemma {:induction false} LoopReaches(classify: string -> ErrorCode, maxRetries: int, runs: nat -> Attempt,
                                       made: Trail, job: JobRecord)
    requires AllMade(classify, maxRetries, made, job) && forall k: nat :: k < Count(made) ==> runs(k) == Nth(made, k)
    ensures var e := Progress(classify, made, job);
            Executed(classify, maxRetries, runs, job) ==
            if made.After? && e.err.None? then e else ExecuteFrom(classify, maxRetries, runs, Count(made), e)
  {
    if made.After? {
      forall k: nat | k < Count(made.before) ensures runs(k) == Nth(made.before, k) {
        assert runs(k) == Nth(made, k);
      }
      LoopReaches(classify, maxRetries, runs, made.before, job);
      assert runs(Count(made.before)) == Nth(made, Count(made.before)) == made.last;
    }
  }

  /** A turn of the loop that makes an attempt. */
  lemma TurnMade(classify: string -> ErrorCode, maxRetries: int, made: Trail, a: Attempt, job: JobRecord,
                 e: Execution, record: JobRecord, delay: nat)
    requires AllMade(classify, maxRetries, made, job) && Count(made) <= maxRetries
    requires e == Progress(classify, made, job) && (made.After? ==> e.err.Some?)
    requires made.Nothing? ==> delay == 0 && record == AfterAttempt(e.job, a)
    requires made.After? ==> NextDelay(classify(e.err.value), Count(made)) == Some(delay)
    requires made.After? ==> record == AfterAttempt(e.job.(retries := e.job.retries + 1), a)
    ensures AllMade(classify, maxRetries, After(made, a), job)
    ensures Progress(classify, After(made, a), job)
         == Execution(ErrorOf(a), e.attempts + 1, e.slept + delay, e.deadLettered, record)
  {
    if made.After? {
      RetryRecord(classify, e, Count(made), a, delay);
    }
  }

  lemma RetryRecord(classify: string -> ErrorCode, e: Execution, n: nat, a: Attempt, delay: nat)
    requires n > 0 && e.err.Some? && NextDelay(classify(e.err.value), n) == Some(delay)
    ensures Attempted(Retry(e, Delay(classify, e, n)), a)
         == Execution(ErrorOf(a), e.attempts + 1, e.slept + delay, e.deadLettered,
                      AfterAttempt(e.job.(retries := e.job.retries + 1), a))
    ensures Retries(GetRetryStrategy(classify(e.err.value)), n)
  {}

  lemma LoopSucceeds(classify: string -> ErrorCode, maxRetries: int, made: Trail, job: JobRecord)
    requires AllMade(classify, maxRetries, made, job) && made.After? && Progress(classify, made, job).err.None?
    ensures Executed(classify, maxRetries, Beginning(made), job) == Progress(classify, made, job)
  {
    LoopReaches(classify, maxRetries, Beginning(made), made, job);
  }

  /** A turn of the loop that gives up. */
  lemma TurnRefused(classify: string -> ErrorCode, maxRetries: int, made: Trail, job: JobRecord,
                    e: Execution, record: JobRecord, code: ErrorCode)
    requires AllMade(classify, maxRetries, made, job) && made.After? && Count(made) <= maxRetries
    requires e == Progress(classify, made, job) && e.err.Some? && code == classify(e.err.value)
    requires NextDelay(code, Count(made)).None? && record == WithError(e.job, JobError(code, StageOf(code)))
    ensures Executed(classify, maxRetries, Beginning(made), job) == e.(job := record)
  {
    LoopReaches(classify, maxRetries, Beginning(made), made, job);
  }

  lemma TurnsUsedUp(classify: string -> ErrorCode, maxRetries: int, made: Trail, job: JobRecord,
                    e: Execution, record: JobRecord, code: ErrorCode)
    requires AllMade(classify, maxRetries, made, job) && Count(made) > maxRetries
    requires e == Progress(classify, made, job) && (made.After? ==> e.err.Some?)
    requires code == if e.err.Some? then classify(e.err.value) else NoCode
    requires record == WithError(e.job, JobError(code, "retry"))
    ensures Executed(classify, maxRetries, Beginning(made), job) == e.(job := record, deadLettered := true)
  {
    LoopReaches(classify, maxRetries, Beginning(made), made, job);
  }

  // ------------------------------------------------------------------------ results

  /** The longest sleep before attempt number n. */
  function SleepBefore(n: nat): nat { if n == 0 then 0 else if n == 1 then 3 else if n == 2 then 9 else 24 }

  lemma {:induction false} AccountingFrom(classify: string -> ErrorCode, maxRetries: int, runs: nat -> Attempt,
                                          n: nat, e: Execution)
    requires n > 0 ==> e.err.Some?
    requires n <= maxRetries + 1 && n <= 4 && e.attempts == n && !e.deadLettered
    requires e.slept <= SleepBefore(if n == 0 then 0 else n - 1)
    ensures var r := ExecuteFrom(classify, maxRetries, runs, n, e);
            && n <= r.attempts <= maxRetries + 1 && r.attempts <= 4
            && (maxRetries >= 0 ==> r.attempts > 0)
            && r.slept <= 24
            && r.job.retries - e.job.retries == (if n == 0 && r.attempts > 0 then r.attempts - 1 else r.attempts - n)
            && (r.deadLettered <==> (r.err.Some? || r.attempts == 0) && r.attempts == maxRetries + 1)
    decreases 4 - n
  {
    if n <= maxRetries {
      if n == 0 {
        var next := Attempted(e, runs(0));
        if next.err.Some? {
          AccountingFrom(classify, maxRetries, runs, 1, next);
        }
      } else {
        var code := classify(e.err.value);
        BackoffBounds(code);
        var strategy := GetRetryStrategy(code);
        if strategy.shouldRetry && n <= |strategy.backoff| {
          var next := Attempted(Retry(e, strategy.backoff[n - 1]), runs(n));
          if next.err.Some? {
            AccountingFrom(classify, maxRetries, runs, n + 1, next);
          }
        }
      }
    }
  }

  /** Main result: whatever the attempts do, at most 1 + min(maxRetries, 3) of them run,
      the loop sleeps at most 24 seconds, Retries grows by the attempts after the first,
      and the job is dead-lettered exactly when maxRetries + 1 attempts ran and failed. */
  lemma RetryAccounting(classify: string -> ErrorCode, maxRetries: int, runs: nat -> Attempt, job: JobRecord)
    requires maxRetries >= 0
    ensures var e := Executed(classify, maxRetries, runs, job);
            && 1 <= e.attempts <= 1 + (if maxRetries < 3 then maxRetries else 3)
            && e.slept <= 24
            && e.job.retries == job.retries + e.attempts - 1
            && (e.deadLettered <==> e.err.Some? && e.attempts == maxRetries + 1)
  {
    AccountingFrom(classify, maxRetries, runs, 0, Execution(None, 0, 0, false, job));
  }

  // --------------------------------------------------- exact accounting by kind of error

  /** Attempts from..to - 1 fail, each with one of these codes. */
  ghost predicate FailWith(classify: string -> ErrorCode, runs: nat -> Attempt, from: nat, to: nat,
                           codes: set<ErrorCode>)
  {
    forall k: nat :: from <= k < to ==> ErrorOf(runs(k)).Some? && classify(ErrorOf(runs(k)).value) in codes
  }

  /** The sum of the delays from..to - 1. */
  function Delays(b: seq<nat>, from: nat, to: int): nat
    requires to <= |b|
    decreases |b| - from
  {
    if from >= to || from >= |b| then 0 else b[from] + Delays(b, from + 1, to)
  }

  ghost predicate Uniform(codes: set<ErrorCode>, backoff: seq<nat>)
  {
    forall code :: code in codes ==>
      GetRetryStrategy(code).backoff == backoff && (GetRetryStrategy(code).shouldRetry <==> backoff != [])
  }

  function Least(a: int, b: int): int { if a <= b then a else b }

  lemma {:induction false} UniformFrom(classify: string -> ErrorCode, maxRetries: int, runs: nat -> Attempt, n: nat,
                                       e: Execution, codes: set<ErrorCode>, backoff: seq<nat>)
    requires Uniform(codes, backoff) && 1 <= n <= Least(maxRetries, |backoff|) + 1 && e.attempts == n && !e.deadLettered
    requires e.err.Some? && classify(e.err.value) in codes
    requires FailWith(classify, runs, n, ExecuteFrom(classify, maxRetries, runs, n, e).attempts, codes)
    ensures var r := ExecuteFrom(classify, maxRetries, runs, n, e);
            && r.attempts == Least(maxRetries, |backoff|) + 1
            && r.slept == e.slept + Delays(backoff, n - 1, Least(maxRetries, |backoff|))
            && (r.deadLettered <==> maxRetries <= |backoff|)
            && r.err.Some? && classify(r.err.value) in codes
            && r.err == (if n < r.attempts then ErrorOf(runs(r.attempts - 1)) else e.err)
            && r.job.error == Some(JobError(classify(r.err.value),
                                            if backoff == [] && maxRetries >= 1 then "validation" else "retry"))
    decreases maxRetries - n + 1
  {
    if n <= Least(maxRetries, |backoff|) {
      var next := Attempted(Retry(e, backoff[n - 1]), runs(n));
      AttemptsGrow(classify, maxRetries, runs, n, e);
      UniformFrom(classify, maxRetries, runs, n + 1, next, codes, backoff);
    }
  }

  lemma {:induction false} AttemptsGrow(classify: string -> ErrorCode, maxRetries: int, runs: nat -> Attempt, n: nat,
                                        e: Execution)
    requires n > 0 && e.err.Some?
    ensures var strategy := GetRetryStrategy(classify(e.err.value));
            var r := ExecuteFrom(classify, maxRetries, runs, n, e);
            r.attempts >= e.attempts + (if n <= maxRetries && Retries(strategy, n) then 1 else 0)
    decreases if n <= maxRetries then maxRetries - n + 1 else 0
  {
    if n <= maxRetries {
      var strategy := GetRetryStrategy(classify(e.err.value));
      if Retries(strategy, n) {
        var next := Attempted(Retry(e, strategy.backoff[n - 1]), runs(n));
        if next.err.Some? {
          AttemptsGrow(classify, maxRetries, runs, n + 1, next);
        }
      }
    }
  }

  /** The rows of the retry table. */
  lemma EncodingRow()
    ensures Uniform(ENCODING_ERRORS, [2, 5, 10])
  {}

  lemma FinalRow()
    ensures Uniform(FINAL_ERRORS, [])
  {}

  lemma UniformFailures(classify: string -> ErrorCode, maxRetries: int, runs: nat -> Attempt, job: JobRecord,
                        codes: set<ErrorCode>, backoff: seq<nat>)
    requires maxRetries >= 0 && Uniform(codes, backoff)
    requires FailWith(classify, runs, 0, Executed(classify, maxRetries, runs, job).attempts, codes)
    ensures var r := Executed(classify, maxRetries, runs, job);
            && r.attempts == Least(maxRetries, |backoff|) + 1
            && r.slept == Delays(backoff, 0, Least(maxRetries, |backoff|))
            && (r.deadLettered <==> maxRetries <= |backoff|)
            && r.err.Some? && r.err == ErrorOf(runs(r.attempts - 1)) && r.job.status == FailedJob
            && r.job.error == Some(JobError(classify(r.err.value),
                                            if backoff == [] && maxRetries >= 1 then "validation" else "retry"))
  {
    var start := Execution(None, 0, 0, false, job);
    var next := Attempted(start, runs(0));
    if next.err.Some? {
      AttemptsGrow(classify, maxRetries, runs, 1, next);
      UniformFrom(classify, maxRetries, runs, 1, next, codes, backoff);
      AgreesFrom(classify, maxRetries, runs, 0, start);
    }
  }

  /** What the loop did when it met only one kind of error: how often it tried, how long
      it slept, and how it gave the job up. */
  ghost predicate GaveUp(classify: string -> ErrorCode, runs: nat -> Attempt, e: Execution, attempts: int, slept: int,
                         dead: bool, stage: string)
  {
    && e.attempts == attempts > 0 && e.slept == slept && e.deadLettered == dead
    && e.err.Some? && e.err == ErrorOf(runs(attempts - 1)) && e.job.status == FailedJob
    && e.job.error == Some(JobError(classify(e.err.value), stage))
  }

  /** Main result: when every attempt fails with an encoding error, the loop makes
      1 + min(maxRetries, 3) attempts with 2, 5 and 10 seconds between them. */
  lemma EncodingFailures(classify: string -> ErrorCode, maxRetries: int, runs: nat -> Attempt, job: JobRecord)
    requires maxRetries >= 0
    requires FailWith(classify, runs, 0, Executed(classify, maxRetries, runs, job).attempts, ENCODING_ERRORS)
    ensures GaveUp(classify, runs, Executed(classify, maxRetries, runs, job), 1 + Least(maxRetries, 3),
                   [0, 2, 7, 17][Least(maxRetries, 3)], maxRetries <= 3, "retry")
  {
    EncodingRow();
    UniformFailures(classify, maxRetries, runs, job, ENCODING_ERRORS, [2, 5, 10]);
    DelaySums([2, 5, 10]);
  }

  /** The same with 3, 6 and 15 seconds for I/O errors. */
  lemma IOFailures(classify: string -> ErrorCode, maxRetries: int, runs: nat -> Attempt, job: JobRecord)
    requires maxRetries >= 0
    requires FailWith(classify, runs, 0, Executed(classify, maxRetries, runs, job).attempts, {IOError})
    ensures GaveUp(classify, runs, Executed(classify, maxRetries, runs, job), 1 + Least(maxRetries, 3),
                   [0, 3, 9, 24][Least(maxRetries, 3)], maxRetries <= 3, "retry")
  {
    UniformFailures(classify, maxRetries, runs, job, {IOError}, [3, 6, 15]);
    DelaySums([3, 6, 15]);
  }

  /** Errors that must not be retried: one attempt, no sleep. */
  lemma FinalFailures(classify: string -> ErrorCode, maxRetries: int, runs: nat -> Attempt, job: JobRecord)
    requires maxRetries >= 0
    requires FailWith(classify, runs, 0, Executed(classify, maxRetries, runs, job).attempts, FINAL_ERRORS)
    ensures GaveUp(classify, runs, Executed(classify, maxRetries, runs, job), 1, 0, maxRetries == 0,
                   if maxRetries >= 1 then "validation" else "retry")
  {
    FinalRow();
    UniformFailures(classify, maxRetries, runs, job, FINAL_ERRORS, []);
  }

  /** All other errors: at most two retries, after 2 and 5 seconds. */
  lemma OtherFailures(classify: string -> ErrorCode, maxRetries: int, runs: nat -> Attempt, job: JobRecord)
    requires maxRetries >= 0
    requires FailWith(classify, runs, 0, Executed(classify, maxRetries, runs, job).attempts,
                      {PermissionDenied, PartialEncoding, NoCode})
    ensures GaveUp(classify, runs, Executed(classify, maxRetries, runs, job), 1 + Least(maxRetries, 2),
                   [0, 2, 7][Least(maxRetries, 2)], maxRetries <= 2, "retry")
  {
    UniformFailures(classify, maxRetries, runs, job, {PermissionDenied, PartialEncoding, NoCode}, [2, 5]);
    assert Delays([2, 5], 0, 1) == 2 && Delays([2, 5], 0, 2) == 7;
  }

  lemma DelaySums(b: seq<nat>)
    requires |b| == 3
    ensures Delays(b, 0, 0) == 0 && Delays(b, 0, 1) == b[0] && Delays(b, 0, 2) == b[0] + b[1]
    ensures Delays(b, 0, 3) == b[0] + b[1] + b[2]
  {
    assert Delays(b, 1, 1) == Delays(b, 2, 2) == Delays(b, 3, 3) == 0;
    assert Delays(b, 2, 3) == b[2];
  }

  /** A nil error goes with a success status, an error with FAILED, and the job has an end time. */
  predicate Agrees(e: Execution)
  {
    && (e.err.None? <==> e.job.status == Completed || e.job.status == PartialSuccess)
    && (e.err.Some? <==> e.job.status == FailedJob)
    && e.job.completed
  }

  lemma {:induction false} AgreesFrom(classify: string -> ErrorCode, maxRetries: int, runs: nat -> Attempt, n: nat,
                                      e: Execution)
    requires n > 0 ==> e.err.Some?
    requires n == 0 ==> maxRetries >= 0
    ensures Agrees(ExecuteFrom(classify, maxRetries, runs, n, e))
    decreases if n <= maxRetries then maxRetries - n + 1 else 0
  {
    if n == 0 {
      var next := Attempted(e, runs(0));
      if next.err.Some? {
        AgreesFrom(classify, maxRetries, runs, 1, next);
      } else {
        assert Agrees(next);
      }
    } else if n <= maxRetries {
      var strategy := GetRetryStrategy(classify(e.err.value));
      if strategy.shouldRetry && n <= |strategy.backoff| {
        var next := Attempted(Retry(e, strategy.backoff[n - 1]), runs(n));
        if next.err.Some? {
          AgreesFrom(classify, maxRetries, runs, n + 1, next);
        } else {
          assert Agrees(next);
        }
      }
    }
  }

  ghost predicate AlwaysAgrees(classify: string -> ErrorCode, maxRetries: int)
  {
    forall runs: nat -> Attempt, job: JobRecord :: Agrees(Executed(classify, maxRetries, runs, job))
  }

  /** Main result: the returned error and the stored status agree on every run exactly
      when the configured number of retries is not negative. With a negative one no
      attempt runs and the job fails while `Execute` returns nil. */
  lemma OutcomeAgreement(classify: string -> ErrorCode, maxRetries: int)
    ensures AlwaysAgrees(classify, maxRetries) <==> maxRetries >= 0
  {
    if maxRetries >= 0 {
      forall runs: nat -> Attempt, job: JobRecord ensures Agrees(Executed(classify, maxRetries, runs, job)) {
        AgreesFrom(classify, maxRetries, runs, 0, Execution(None, 0, 0, false, job));
      }
    } else {
      var runs := (n: nat) => NoState("");
      var job := JobRecord(Queued, "", false, 0, None, false);
      var e := Executed(classify, maxRetries, runs, job);
      assert e.err.None? && e.job.status == FailedJob;
      assert !Agrees(Executed(classify, maxRetries, runs, job));
    }
  }
}
