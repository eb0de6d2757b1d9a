// The cross-process token bucket that every agent acquires before an LLM call, and the two
// rate-limit retry loops. The state file and the lock file are fields; what other processes do to
// the lock file, the clock and the random jitter are oracles; sleeps are returned, not slept.
module RateLimiter {
  import opened Wrappers
  import opened Strings
  import Messaging

  /** The bucket as the JSON state file stores it. */
  datatype Bucket = Bucket(tokens: real, lastUpdate: real)

  /** The state file: absent, present but unreadable, or holding a bucket. */
  datatype StateFile = Missing | Corrupt | Stored(bucket: Bucket)

  /** What the exclusive create of the lock file finds: no file (so it is created), a file with
      this modification time, or a file that vanished before it could be stat'ed. */
  datatype LockSeen = Free | Held(mtime: real) | Vanished

  /** One pass of the lock loop: the clock at the loop test, what the create finds, and the clock
      at the staleness test. */
  datatype LockPoll = LockPoll(clock: real, seen: LockSeen, statClock: real)

  /** What one pass of the lock loop did. */
  datatype LockStep = Created | Busy | RemovedStale

  /** One turn of acquire's outer loop: when the lock wait starts, what its polls meet, and the
      clock readings of the state read (used only when the file cannot be read) and of the refill. */
  datatype Round = Round(lockStart: real, polls: nat -> LockPoll, readClock: real, now: real)

  /** How acquire ended: it returned this value, raised ZeroDivisionError (a limit of 0 requests per
      minute), or was still looping when the modelled rounds ran out. */
  datatype Grant = Granted(wait: real) | DivisionByZero | OutOfRounds

  datatype RunResult = RunResult(grant: Grant, file: StateFile, sleeps: seq<real>)

  const LockTimeout: real := 10.0
  const StaleAfter: real := 5.0
  const LockPause: real := 0.1
  const RefusedPause: real := 1.0

  function Min(a: real, b: real): real { if a <= b then a else b }

  // ---- the bucket arithmetic -------------------------------------------------------

  /** `_read_state`: the stored bucket, or a full bucket stamped with the read time. */
  function ReadBucket(file: StateFile, maxTokens: real, clock: real): (b: Bucket)
    ensures file.Stored? ==> b == file.bucket
    ensures !file.Stored? ==> b.tokens == maxTokens && b.lastUpdate == clock
  {
    if file.Stored? then file.bucket else Bucket(maxTokens, clock)
  }

  /** The refill: tokens earned since the last update, capped at the capacity. */
  function Refill(b: Bucket, now: real, rate: real, maxTokens: real): (t: real)
    ensures t <= maxTokens
    ensures t == maxTokens || t == b.tokens + (now - b.lastUpdate) * rate
  {
    Min(maxTokens, b.tokens + (now - b.lastUpdate) * rate)
  }

  /** A refill from a non-negative bucket, forward in time, at a non-negative rate, is non-negative. */
  lemma RefillNonNegative(b: Bucket, now: real, rate: real, maxTokens: real)
    requires b.tokens >= 0.0 && b.lastUpdate <= now && rate >= 0.0 && maxTokens >= 0.0
    ensures Refill(b, now, rate, maxTokens) >= 0.0
  {
    var e := now - b.lastUpdate;
    assert e * rate >= 0.0;
    var x := b.tokens + e * rate;
    assert Refill(b, now, rate, maxTokens) == Min(maxTokens, x);
  }

  // ---- the lock loop ---------------------------------------------------------------

  /** The lock loop sleeps 0.1s per pass, so poll k comes at least 0.1*k seconds after poll 0. */
  ghost predicate Ticking(polls: nat -> LockPoll) {
    forall k: nat :: polls(k).clock >= polls(0).clock + LockPause * (k as real)
  }

  /** A bound on the passes before the timeout test fails. */
  function LockBound(polls: nat -> LockPoll, start: real, timeout: real): int {
    ((start + timeout - polls(0).clock) * 10.0).Floor + 1
  }

  lemma PassBelowBound(polls: nat -> LockPoll, start: real, timeout: real, k: nat)
    requires Ticking(polls) && polls(k).clock - start < timeout
    ensures k < LockBound(polls, start, timeout)
  {
    var x := (start + timeout - polls(0).clock) * 10.0;
    assert polls(k).clock >= polls(0).clock + LockPause * (k as real);
    assert (k as real) < x;
  }

  /** `_acquire_lock` from pass `k`: whether the lock is taken, and after how many passes. */
  function LockScan(polls: nat -> LockPoll, start: real, timeout: real, k: nat): (r: (bool, nat))
    requires Ticking(polls)
    ensures r.0 ==> r.1 >= 1
    decreases LockBound(polls, start, timeout) - k
  {
    if polls(k).clock - start >= timeout then (false, k)
    else if polls(k).seen.Free? then (true, k + 1)
    else
      PassBelowBound(polls, start, timeout, k);
      LockScan(polls, start, timeout, k + 1)
  }

  /** The lock is taken at the first pass that finds no lock file, provided every pass up to it
      started within the timeout; otherwise the loop gives up at the first pass past the timeout. */
  lemma {:induction false} LockScanMeans(polls: nat -> LockPoll, start: real, timeout: real, k: nat)
    requires Ticking(polls)
    ensures var (acquired, n) := LockScan(polls, start, timeout, k);
      n >= k
      && (forall i :: k <= i < n ==> polls(i).clock - start < timeout)
      && (acquired ==> polls(n - 1).seen.Free? && forall i :: k <= i < n - 1 ==> !polls(i).seen.Free?)
      && (!acquired ==> polls(n).clock - start >= timeout && forall i :: k <= i < n ==> !polls(i).seen.Free?)
    decreases LockBound(polls, start, timeout) - k
  {
    if polls(k).clock - start < timeout && !polls(k).seen.Free? {
      PassBelowBound(polls, start, timeout, k);
      LockScanMeans(polls, start, timeout, k + 1);
    }
  }

  /** What a pass that does not take the lock does: a lock older than five seconds is removed. */
  function StepOf(p: LockPoll): LockStep {
    match p.seen
    case Free => Created
    case Held(mtime) => if p.statClock - mtime > StaleAfter then RemovedStale else Busy
    case Vanished => Busy
  }

  // ---- acquire as a function of the rounds ----------------------------------------

  /** How one turn of acquire's loop ends: acquire finishes with this value and state file, or it
      writes the state file and pauses this long before the next turn. */
  datatype Turned = Finish(grant: Grant, file: StateFile) | Again(file: StateFile, pause: real)

  /** One turn: a refused lock pauses one second and touches nothing; otherwise the bucket is read,
      refilled, and either one token is consumed (acquire returns 0) or the partial refill is written
      and the missing token's time, plus 0.1s, is slept. */
  function Turn(rate: real, maxTokens: real, file: StateFile, rd: Round): (t: Turned)
    requires Ticking(rd.polls)
    ensures t.Finish? && t.grant.Granted? ==> t.grant.wait == 0.0
    ensures t.Again? ==> t.pause > LockPause
  {
    if !LockScan(rd.polls, rd.lockStart, LockTimeout, 0).0 then Again(file, RefusedPause)
    else
      var refilled := Refill(ReadBucket(file, maxTokens, rd.readClock), rd.now, rate, maxTokens);
      if refilled >= 1.0 then Finish(Granted(0.0), Stored(Bucket(refilled - 1.0, rd.now)))
      else if rate == 0.0 then Finish(DivisionByZero, file)
      else
        var wait := (1.0 - refilled) / rate;
        if wait <= 0.0 then Finish(Granted(0.0), Stored(Bucket(refilled, rd.now)))
        else Again(Stored(Bucket(refilled, rd.now)), wait + LockPause)
  }

  /** `acquire` over the given rounds: the value it returns, the state file it leaves, and the
      sleeps it takes between rounds. */
  function Run(rate: real, maxTokens: real, file: StateFile, rounds: seq<Round>): (r: RunResult)
    requires forall i :: 0 <= i < |rounds| ==> Ticking(rounds[i].polls)
    decreases |rounds|
  {
    if |rounds| == 0 then RunResult(OutOfRounds, file, [])
    else
      match Turn(rate, maxTokens, file, rounds[0])
      case Finish(grant, file') => RunResult(grant, file', [])
      case Again(file', pause) =>
        var rest := Run(rate, maxTokens, file', rounds[1..]);
        RunResult(rest.grant, rest.file, [pause] + rest.sleeps)
  }

  /** A turn writes at most a full bucket. */
  lemma TurnWithinCapacity(rate: real, maxTokens: real, file: StateFile, rd: Round)
    requires Ticking(rd.polls)
    ensures var t := Turn(rate, maxTokens, file, rd);
      t.file == file || (t.file.Stored? && t.file.bucket.tokens <= maxTokens)
  {
  }

  /** Stored tokens never exceed the capacity: acquire either leaves the file alone or writes a
      bucket of at most `maxTokens`. */
  lemma {:induction false} RunWithinCapacity(rate: real, maxTokens: real, file: StateFile, rounds: seq<Round>)
    requires forall i :: 0 <= i < |rounds| ==> Ticking(rounds[i].polls)
    ensures var r := Run(rate, maxTokens, file, rounds);
      r.file == file || (r.file.Stored? && r.file.bucket.tokens <= maxTokens)
    decreases |rounds|
  {
    if |rounds| > 0 {
      var t := Turn(rate, maxTokens, file, rounds[0]);
      TurnWithinCapacity(rate, maxTokens, file, rounds[0]);
      if t.Again? {
        RunWithinCapacity(rate, maxTokens, t.file, rounds[1..]);
      }
    }
  }

  /** The clock runs forward: the stored stamp is not after any round, each round reads before it
      refills, and later rounds come later. */
  ghost predicate Chronological(file: StateFile, rounds: seq<Round>) {
    (file.Stored? ==> forall i :: 0 <= i < |rounds| ==> file.bucket.lastUpdate <= rounds[i].now)
    && (forall i :: 0 <= i < |rounds| ==> rounds[i].readClock <= rounds[i].now)
    && (forall i, j :: 0 <= i <= j < |rounds| ==> rounds[i].now <= rounds[j].now)
  }

  /** A turn forward in time at a non-negative limit keeps the bucket non-negative and stamps it
      with the turn's clock. */
  lemma TurnNonNegative(rpm: int, file: StateFile, rd: Round)
    requires rpm >= 0 && Ticking(rd.polls) && rd.readClock <= rd.now
    requires file.Stored? ==> file.bucket.tokens >= 0.0 && file.bucket.lastUpdate <= rd.now
    ensures var t := Turn(rpm as real / 60.0, rpm as real, file, rd);
      t.file.Stored? ==> t.file.bucket.tokens >= 0.0
    ensures var t := Turn(rpm as real / 60.0, rpm as real, file, rd);
      t.file == file || (t.file.Stored? && t.file.bucket.lastUpdate == rd.now)
  {
    var rate, maxTokens := rpm as real / 60.0, rpm as real;
    RefillNonNegative(ReadBucket(file, maxTokens, rd.readClock), rd.now, rate, maxTokens);
  }

  /** With a non-negative limit and a forward clock, stored tokens never go negative. */
  lemma {:induction false} RunNonNegative(rpm: int, file: StateFile, rounds: seq<Round>)
    requires rpm >= 0
    requires forall i :: 0 <= i < |rounds| ==> Ticking(rounds[i].polls)
    requires Chronological(file, rounds)
    requires file.Stored? ==> file.bucket.tokens >= 0.0
    ensures var r := Run(rpm as real / 60.0, rpm as real, file, rounds);
      r.file.Stored? ==> r.file.bucket.tokens >= 0.0
    decreases |rounds|
  {
    if |rounds| > 0 {
      var rd := rounds[0];
      var t := Turn(rpm as real / 60.0, rpm as real, file, rd);
      TurnNonNegative(rpm, file, rd);
      if t.Again? {
        assert Chronological(t.file, rounds[1..]) by {
          forall i | 0 <= i < |rounds[1..]|
            ensures rounds[1..][i] == rounds[i + 1] && rd.now <= rounds[i + 1].now
          {
          }
        }
        RunNonNegative(rpm, t.file, rounds[1..]);
      }
    }
  }

  /** The pause a turn takes: one second after a refused lock, with the state file untouched;
      otherwise, when the refill is short of a token at a non-zero rate, the missing token's time
      (1 - refill)/rate plus 0.1s, with the partial refill written. */
  lemma TurnPause(rate: real, maxTokens: real, file: StateFile, rd: Round)
    requires Ticking(rd.polls)
    ensures var t := Turn(rate, maxTokens, file, rd);
      var refilled := Refill(ReadBucket(file, maxTokens, rd.readClock), rd.now, rate, maxTokens);
      var locked := LockScan(rd.polls, rd.lockStart, LockTimeout, 0).0;
      (!locked ==> t == Again(file, RefusedPause))
      && (locked ==> (t.Again? <==> refilled < 1.0 && rate != 0.0 && (1.0 - refilled) / rate > 0.0))
      && (locked && t.Again? ==> t == Again(Stored(Bucket(refilled, rd.now)), (1.0 - refilled) / rate + LockPause))
  {
  }

  /** The state file turn `k` of a run starts from: the file as the earlier turns left it. */
  function FileBefore(rate: real, maxTokens: real, file: StateFile, rounds: seq<Round>, k: nat): StateFile
    requires forall i :: 0 <= i < |rounds| ==> Ticking(rounds[i].polls)
    requires k <= |rounds|
    decreases k
  {
    if k == 0 then file
    else FileBefore(rate, maxTokens, Turn(rate, maxTokens, file, rounds[0]).file, rounds[1..], k - 1)
  }

  /** Sleep `k` of a run is the pause of turn `k`, taken from the file the earlier turns left (so
      each is one second or (1 - refill)/rate + 0.1s, as TurnPause says, and longer than the lock
      loop's 0.1s); there is at most one pause per turn. */
  lemma {:induction false} RunSleepsPositive(rate: real, maxTokens: real, file: StateFile, rounds: seq<Round>)
    requires forall i :: 0 <= i < |rounds| ==> Ticking(rounds[i].polls)
    ensures var r := Run(rate, maxTokens, file, rounds);
      |r.sleeps| <= |rounds|
      && forall k :: 0 <= k < |r.sleeps| ==>
        var t := Turn(rate, maxTokens, FileBefore(rate, maxTokens, file, rounds, k), rounds[k]);
        t.Again? && r.sleeps[k] == t.pause && r.sleeps[k] > LockPause
    decreases |rounds|
  {
    if |rounds| > 0 {
      var t := Turn(rate, maxTokens, file, rounds[0]);
      if t.Again? {
        var rest := rounds[1..];
        RunSleepsPositive(rate, maxTokens, t.file, rest);
        var r := Run(rate, maxTokens, file, rounds);
        var r' := Run(rate, maxTokens, t.file, rest);
        assert r.sleeps == [t.pause] + r'.sleeps;
        forall k | 1 <= k < |r.sleeps|
          ensures var t' := Turn(rate, maxTokens, FileBefore(rate, maxTokens, file, rounds, k), rounds[k]);
            t'.Again? && r.sleeps[k] == t'.pause && r.sleeps[k] > LockPause
        {
          assert rounds[k] == rest[k - 1];
          assert FileBefore(rate, maxTokens, file, rounds, k) == FileBefore(rate, maxTokens, t.file, rest, k - 1);
        }
      }
    }
  }

  /** Whatever waiting happened, a granted acquire returns 0.0: the wait is slept, not reported. */
  lemma {:induction false} RunGrantsZero(rate: real, maxTokens: real, file: StateFile, rounds: seq<Round>)
    requires forall i :: 0 <= i < |rounds| ==> Ticking(rounds[i].polls)
    ensures var r := Run(rate, maxTokens, file, rounds);
      r.grant.Granted? ==> r.grant.wait == 0.0
    decreases |rounds|
  {
    if |rounds| > 0 {
      var t := Turn(rate, maxTokens, file, rounds[0]);
      if t.Again? {
        RunGrantsZero(rate, maxTokens, t.file, rounds[1..]);
      }
    }
  }

  /** The sum of a run's sleeps. */
  function Total(xs: seq<real>): real
    decreases |xs|
  {
    if |xs| == 0 then 0.0 else xs[0] + Total(xs[1..])
  }

  /** Sleeps each longer than 0.1s add up to more than 0.1s per sleep. */
  lemma {:induction false} TotalAbove(xs: seq<real>)
    requires forall k :: 0 <= k < |xs| ==> xs[k] > LockPause
    ensures Total(xs) >= LockPause * (|xs| as real)
    ensures |xs| > 0 ==> Total(xs) > LockPause * (|xs| as real)
    decreases |xs|
  {
    if |xs| > 0 {
      TotalAbove(xs[1..]);
    }
  }

  /** `acquire` as its docstring describes it ("Returns wait time in seconds"): the same run, but
      a grant reports the seconds slept before it. */
  function RunReportingWait(rate: real, maxTokens: real, file: StateFile, rounds: seq<Round>): (r: RunResult)
    requires forall i :: 0 <= i < |rounds| ==> Ticking(rounds[i].polls)
    ensures var plain := Run(rate, maxTokens, file, rounds);
      r.file == plain.file && r.sleeps == plain.sleeps
      && (plain.grant.Granted? <==> r.grant.Granted?) && (!plain.grant.Granted? ==> r.grant == plain.grant)
  {
    var plain := Run(rate, maxTokens, file, rounds);
    if plain.grant.Granted? then RunResult(Granted(Total(plain.sleeps)), plain.file, plain.sleeps) else plain
  }

  /** The corrected acquire reports a wait exactly when it slept, and then more than 0.1s for each
      pause. */
  lemma WaitReported(rate: real, maxTokens: real, file: StateFile, rounds: seq<Round>)
    requires forall i :: 0 <= i < |rounds| ==> Ticking(rounds[i].polls)
    requires Run(rate, maxTokens, file, rounds).grant.Granted?
    ensures var r := RunReportingWait(rate, maxTokens, file, rounds);
      (r.grant.wait == 0.0 <==> |r.sleeps| == 0)
      && r.grant.wait >= LockPause * (|r.sleeps| as real)
  {
    RunSleepsPositive(rate, maxTokens, file, rounds);
    var sleeps := Run(rate, maxTokens, file, rounds).sleeps;
    TotalAbove(sleeps);
  }

  /** A round whose refill reaches one token consumes exactly one and ends acquire, whatever
      rounds follow. */
  lemma ConsumeOneToken(rate: real, maxTokens: real, file: StateFile, rounds: seq<Round>)
    requires |rounds| > 0 && forall i :: 0 <= i < |rounds| ==> Ticking(rounds[i].polls)
    requires LockScan(rounds[0].polls, rounds[0].lockStart, LockTimeout, 0).0
    requires Refill(ReadBucket(file, maxTokens, rounds[0].readClock), rounds[0].now, rate, maxTokens) >= 1.0
    ensures var r := Run(rate, maxTokens, file, rounds);
      r.grant == Granted(0.0) && r.sleeps == [] && r.file.Stored?
      && r.file.bucket.tokens + 1.0 == Refill(ReadBucket(file, maxTokens, rounds[0].readClock), rounds[0].now, rate, maxTokens)
      && r.file.bucket.lastUpdate == rounds[0].now
  {
  }

  /** A refused lock costs a one-second pause and touches nothing: the rest of acquire runs on the
      same state file. */
  lemma RefusedLockTouchesNothing(rate: real, maxTokens: real, file: StateFile, rounds: seq<Round>)
    requires |rounds| > 0 && forall i :: 0 <= i < |rounds| ==> Ticking(rounds[i].polls)
    requires !LockScan(rounds[0].polls, rounds[0].lockStart, LockTimeout, 0).0
    ensures var r := Run(rate, maxTokens, file, rounds);
      var rest := Run(rate, maxTokens, file, rounds[1..]);
      r.grant == rest.grant && r.file == rest.file && r.sleeps == [RefusedPause] + rest.sleeps
  {
  }

  // ---- the limiter object ----------------------------------------------------------

  class FileLockRateLimiter {
    const rate: real
    const maxTokens: real
    var stateFile: StateFile
    /** Whether this process holds the lock file. */
    ghost var holding: bool

    /** A new limiter writes a full bucket only when there is no state file yet. */
    constructor (requestsPerMinute: int, existing: StateFile, clock: real)
      ensures rate == requestsPerMinute as real / 60.0 && maxTokens == requestsPerMinute as real
      ensures stateFile == if existing.Missing? then Stored(Bucket(requestsPerMinute as real, clock)) else existing
      ensures !holding
    {
      rate := requestsPerMinute as real / 60.0;
      maxTokens := requestsPerMinute as real;
      stateFile := if existing.Missing? then Stored(Bucket(requestsPerMinute as real, clock)) else existing;
      holding := false;
    }

    /** `_acquire_lock`: exclusive creation of the lock file, polled every 0.1s until `timeout`. */
    method AcquireLock(timeout: real, start: real, polls: nat -> LockPoll) returns (acquired: bool, steps: seq<LockStep>)
      requires Ticking(polls) && !holding
      modifies this
      ensures (acquired, |steps|) == LockScan(polls, start, timeout, 0)
      ensures forall i :: 0 <= i < |steps| ==> steps[i] == StepOf(polls(i))
      ensures holding == acquired && stateFile == old(stateFile)
    {
      var k: nat := 0;
      steps := [];
      while true
        invariant |steps| == k
        invariant forall i :: 0 <= i < k ==> steps[i] == StepOf(polls(i)) && !polls(i).seen.Free?
        invariant LockScan(polls, start, timeout, k) == LockScan(polls, start, timeout, 0)
        invariant !holding && stateFile == old(stateFile)
        decreases LockBound(polls, start, timeout) - k
      {
        var p := polls(k);
        if p.clock - start >= timeout {
          return false, steps;
        }
        PassBelowBound(polls, start, timeout, k);
        steps := steps + [StepOf(p)];
        if p.seen.Free? {
          holding := true;
          return true, steps;
        }
        k := k + 1;
      }
    }

    /** `_release_lock`: the lock file is removed; a missing file is not an error. */
    method ReleaseLock()
      modifies this
      ensures !holding && stateFile == old(stateFile)
    {
      holding := false;
    }

    /** `_read_state`, allowed only under the lock. */
    method ReadState(clock: real) returns (b: Bucket)
      requires holding
      ensures b == ReadBucket(stateFile, maxTokens, clock)
    {
      b := if stateFile.Stored? then stateFile.bucket else Bucket(maxTokens, clock);
    }

    /** `_write_state`, allowed only under the lock. */
    method WriteState(b: Bucket)
      requires holding
      modifies this
      ensures stateFile == Stored(b) && holding
    {
      stateFile := Stored(b);
    }

    /** One turn of `acquire`'s loop; the lock is released on every way out, the division by a
        zero rate included. */
    method TakeTurn(rd: Round) returns (t: Turned)
      requires !holding && Ticking(rd.polls)
      modifies this
      ensures t == Turn(rate, maxTokens, old(stateFile), rd)
      ensures stateFile == t.file && !holding
    {
      var locked, _ := AcquireLock(LockTimeout, rd.lockStart, rd.polls);
      if !locked {
        return Again(stateFile, RefusedPause);
      }
      var b := ReadState(rd.readClock);
      var refilled := Min(maxTokens, b.tokens + (rd.now - b.lastUpdate) * rate);
      var wait := 0.0;
      if refilled >= 1.0 {
        WriteState(Bucket(refilled - 1.0, rd.now));
      } else {
        if rate == 0.0 {
          ReleaseLock();
          return Finish(DivisionByZero, stateFile);
        }
        wait := (1.0 - refilled) / rate;
        WriteState(Bucket(refilled, rd.now));
      }
      ReleaseLock();
      if wait <= 0.0 {
        return Finish(Granted(0.0), stateFile);
      }
      return Again(stateFile, wait + LockPause);
    }

    /** `acquire`: turns until one finishes, sleeping outside the lock between them. */
    method Acquire(rounds: seq<Round>) returns (grant: Grant, sleeps: seq<real>)
      requires !holding && forall i :: 0 <= i < |rounds| ==> Ticking(rounds[i].polls)
      modifies this
      ensures RunResult(grant, stateFile, sleeps) == Run(rate, maxTokens, old(stateFile), rounds)
      ensures !holding
    {
      var i := 0;
      sleeps := [];
      while i < |rounds|
        invariant 0 <= i <= |rounds| && !holding
        invariant var r := Run(rate, maxTokens, stateFile, rounds[i..]);
          Run(rate, maxTokens, old(stateFile), rounds) == RunResult(r.grant, r.file, sleeps + r.sleeps)
      {
        assert rounds[i..][1..] == rounds[i + 1..];
        var t := TakeTurn(rounds[i]);
        if t.Finish? {
          return t.grant, sleeps;
        }
        sleeps := sleeps + [t.pause];
        i := i + 1;
      }
      assert rounds[i..] == [];
      return OutOfRounds, sleeps;
    }
  }

  /** `get_global_rate_limiter`: one limiter per process, created on first use. */
  class LimiterSingleton {
    var instance: FileLockRateLimiter?

    constructor ()
      ensures instance == null
    {
      instance := null;
    }

    /** The first call creates the limiter with its limit; later calls return it and ignore theirs. */
    method Get(requestsPerMinute: int, existing: StateFile, clock: real) returns (l: FileLockRateLimiter)
      modifies this
      ensures instance == l
      ensures old(instance) != null ==> l == old(instance)
      ensures old(instance) == null ==> fresh(l) && l.rate == requestsPerMinute as real / 60.0 && !l.holding
    {
      if instance == null {
        instance := new FileLockRateLimiter(requestsPerMinute, existing, clock);
      }
      l := instance;
    }
  }

  // ---- recognising a rate-limit error ---------------------------------------------

  const Indicators: seq<string> := ["429", "TooManyRequests", "RESOURCE_EXHAUSTED", "rate limit", "quota"]

  /** `any(ind.lower() in text.lower() for ind in inds)`. */
  predicate AnyIndicator(text: string, inds: seq<string>)
    decreases |inds|
  {
    |inds| > 0 && (ContainsIgnoringCase(text, inds[0]) || AnyIndicator(text, inds[1..]))
  }

  /** `is_rate_limit_error`. */
  predicate IsRateLimitError(error: string) {
    AnyIndicator(error, Indicators)
  }

  /** The scan finds an indicator exactly when one of them occurs, ignoring case. */
  lemma {:induction false} AnyIndicatorIff(text: string, inds: seq<string>)
    ensures AnyIndicator(text, inds) <==> exists i :: 0 <= i < |inds| && ContainsIgnoringCase(text, inds[i])
    decreases |inds|
  {
    if |inds| > 0 {
      AnyIndicatorIff(text, inds[1..]);
      if AnyIndicator(text, inds[1..]) {
        var i :| 0 <= i < |inds[1..]| && ContainsIgnoringCase(text, inds[1..][i]);
        assert ContainsIgnoringCase(text, inds[i + 1]);
      }
      if exists i :: 0 <= i < |inds| && ContainsIgnoringCase(text, inds[i]) {
        var i :| 0 <= i < |inds| && ContainsIgnoringCase(text, inds[i]);
        if i > 0 {
          assert inds[1..][i - 1] == inds[i];
        }
      }
    }
  }

  /** A rate-limit error is one that mentions an indicator, in any case. */
  lemma RateLimitIff(error: string)
    ensures IsRateLimitError(error) <==> exists i :: 0 <= i < |Indicators| && ContainsIgnoringCase(error, Indicators[i])
  {
    AnyIndicatorIff(error, Indicators);
  }

  /** The test ignores case entirely: lower-casing the text does not change the verdict. */
  lemma RateLimitIgnoresCase(error: string)
    ensures IsRateLimitError(Lower(error)) == IsRateLimitError(error)
  {
    LowerIdempotent(error);
    AnyIndicatorIff(error, Indicators);
    AnyIndicatorIff(Lower(error), Indicators);
  }

  /** An HTTP 429 status is a rate-limit error. */
  lemma Status429IsRateLimit(error: string)
    requires Contains(error, "429")
    ensures IsRateLimitError(error)
  {
    ContainsIffMatch(error, "429");
    var i: nat :| MatchAt(error, "429", i);
    LowerPreservesMatch(error, "429", i);
    assert Lower("429") == "429";
    ContainsAt(Lower(error), Lower("429"), i);
  }

  // ---- the retry loops -------------------------------------------------------------

  /** What one call of the wrapped generator does: the items it yields, then an error it raises,
      or none when it runs to the end. */
  datatype GenRun<T> = GenRun(items: seq<T>, error: Option<string>)

  /** `min(base * 2 ** attempt, cap)`. */
  function Delay(base: real, attempt: nat, cap: real): (d: real)
    ensures d <= cap
  {
    Min(base * Messaging.Pow2(attempt) as real, cap)
  }

  /** The backoff with its jitter drawn from `rnd`. */
  function Jittered(delay: real, jitter: real, rnd: real): real {
    delay + delay * jitter * rnd
  }

  lemma MulNonNegative(x: real, y: real)
    requires x >= 0.0 && y >= 0.0
    ensures x * y >= 0.0
  {
  }

  lemma MulBelow(p: real, rnd: real)
    requires p >= 0.0 && 0.0 <= rnd < 1.0
    ensures p * rnd <= p
    ensures p > 0.0 ==> p * rnd < p
  {
    assert p * rnd + p * (1.0 - rnd) == p;
    if p > 0.0 {
      assert p * (1.0 - rnd) > 0.0;
    }
  }

  /** With `rnd` in [0, 1) the jitter adds something in [0, delay * jitter). */
  lemma JitterWithin(delay: real, jitter: real, rnd: real)
    requires delay >= 0.0 && jitter >= 0.0 && 0.0 <= rnd < 1.0
    ensures delay <= Jittered(delay, jitter, rnd) <= delay + delay * jitter
    ensures delay * jitter > 0.0 ==> Jittered(delay, jitter, rnd) < delay + delay * jitter
  {
    var p := delay * jitter;
    MulNonNegative(delay, jitter);
    MulNonNegative(p, rnd);
    MulBelow(p, rnd);
    assert Jittered(delay, jitter, rnd) == delay + p * rnd;
  }

  lemma {:induction false} Pow2Monotone(a: nat, b: nat)
    requires a <= b
    ensures Messaging.Pow2(a) <= Messaging.Pow2(b)
    decreases b
  {
    if a < b {
      Pow2Monotone(a, b - 1);
    }
  }

  /** Delays never shrink from one attempt to the next, and stop growing at the cap. */
  lemma DelayMonotone(base: real, a: nat, b: nat, cap: real)
    requires base >= 0.0 && a <= b
    ensures Delay(base, a, cap) <= Delay(base, b, cap)
  {
    Pow2Monotone(a, b);
    var pa, pb := Messaging.Pow2(a) as real, Messaging.Pow2(b) as real;
    assert base * pa <= base * pb;
  }

  /** Everything yielded by the first `n` calls, in order. */
  function Yielded<T>(gen: nat -> GenRun<T>, n: nat): seq<T>
    decreases n
  {
    if n == 0 then [] else Yielded(gen, n - 1) + gen(n - 1).items
  }

  /** The attempts a retry loop makes: it stops at the first call that does not raise a
      rate-limit error, or after `maxRetries + 1` calls. */
  predicate RetriedByRule<T>(gen: nat -> GenRun<T>, maxRetries: int, raised: Option<string>, tries: nat) {
    (maxRetries < 0 ==> tries == 0 && raised.None?)
    && (maxRetries >= 0 ==>
      1 <= tries <= maxRetries + 1
      && raised == gen(tries - 1).error
      && (forall k :: 0 <= k < tries - 1 ==> gen(k).error.Some? && IsRateLimitError(gen(k).error.value))
      && (tries < maxRetries + 1 ==> raised.None? || !IsRateLimitError(raised.value)))
  }

  /** The jittered sleeps taken after the first n failed attempts, in order. */
  function JitteredDelays(baseDelay: real, maxDelay: real, jitter: real, random: nat -> real, n: nat): (r: seq<real>)
    ensures |r| == n
    ensures forall k :: 0 <= k < n ==> r[k] == Jittered(Delay(baseDelay, k, maxDelay), jitter, random(k))
  {
    if n == 0 then [] else
    var earlier := JitteredDelays(baseDelay, maxDelay, jitter, random, n - 1);
    earlier + [Jittered(Delay(baseDelay, n - 1, maxDelay), jitter, random(n - 1))]
  }

  /** `retry_with_backoff`: re-raises a non-rate-limit error at once, retries a rate-limit error
      after the jittered backoff, re-raises after the last attempt; items already yielded by a
      failed attempt stay yielded. */
  method RetryWithBackoff<T>(gen: nat -> GenRun<T>, maxRetries: int, baseDelay: real, maxDelay: real,
                             jitter: real, random: nat -> real)
    returns (out: seq<T>, raised: Option<string>, tries: nat, sleeps: seq<real>)
    ensures RetriedByRule(gen, maxRetries, raised, tries)
    ensures out == Yielded(gen, tries)
    ensures sleeps == JitteredDelays(baseDelay, maxDelay, jitter, random, if tries == 0 then 0 else tries - 1)
  {
    out, raised, tries, sleeps := [], None, 0, [];
    var attempt := 0;
    while attempt < maxRetries + 1
      invariant 0 <= attempt && tries == attempt && raised.None? && out == Yielded(gen, attempt)
      invariant attempt <= maxRetries || attempt == 0
      invariant sleeps == JitteredDelays(baseDelay, maxDelay, jitter, random, attempt)
      invariant forall k :: 0 <= k < attempt ==> gen(k).error.Some? && IsRateLimitError(gen(k).error.value)
    {
      var g := gen(attempt);
      out := out + g.items;
      tries := attempt + 1;
      if g.error.None? {
        return;
      }
      raised := g.error;
      if !IsRateLimitError(g.error.value) || attempt >= maxRetries {
        return;
      }
      raised := None;
      sleeps := sleeps + [Jittered(Delay(baseDelay, attempt, maxDelay), jitter, random(attempt))];
      attempt := attempt + 1;
    }
  }

  /** The session id of attempt `k`: the caller's id first, then `<id>_retry_<k>`. */
  function AttemptSessionId(sessionId: string, k: nat): (s: string)
    ensures k == 0 <==> s == sessionId
  {
    if k == 0 then sessionId else sessionId + "_retry_" + NatToString(k)
  }

  /** No two attempts share a session, so a retry never replays the message into an old history. */
  lemma AttemptSessionIdsDistinct(sessionId: string, j: nat, k: nat)
    requires j != k
    ensures AttemptSessionId(sessionId, j) != AttemptSessionId(sessionId, k)
  {
    if j > 0 && k > 0 {
      var p := sessionId + "_retry_";
      if AttemptSessionId(sessionId, j) == AttemptSessionId(sessionId, k) {
        assert (p + NatToString(j))[|p|..] == NatToString(j);
        assert (p + NatToString(k))[|p|..] == NatToString(k);
        NatToStringInjective(j, k);
      }
    }
  }

  const RunnerDelayCap: real := 60.0
  const RunnerJitter: real := 0.5

  /** The session ids of the first n attempts, in order. */
  function SessionIds(sessionId: string, n: nat): (r: seq<string>)
    ensures |r| == n && forall k :: 0 <= k < n ==> r[k] == AttemptSessionId(sessionId, k)
  {
    if n == 0 then [] else SessionIds(sessionId, n - 1) + [AttemptSessionId(sessionId, n - 1)]
  }

  /** The sessions created by the first n attempts: one for every attempt after the first. */
  function CreatedIds(sessionId: string, n: nat): (r: seq<string>)
    ensures |r| == (if n == 0 then 0 else n - 1)
    ensures forall k :: 0 <= k < |r| ==> r[k] == AttemptSessionId(sessionId, k + 1)
  {
    if n <= 1 then [] else CreatedIds(sessionId, n - 1) + [AttemptSessionId(sessionId, n - 1)]
  }

  /** `RateLimitRetryRunner.run_async`: the same retry rule, with a refilled session per attempt
      (created for every attempt after the first), backoff capped at 60s and jitter factor 0.5. */
  method RunAsync<T>(gen: nat -> GenRun<T>, maxRetries: int, baseDelay: real, sessionId: string, random: nat -> real)
    returns (out: seq<T>, raised: Option<string>, sessions: seq<string>, created: seq<string>, sleeps: seq<real>)
    ensures RetriedByRule(gen, maxRetries, raised, |sessions|)
    ensures out == Yielded(gen, |sessions|)
    ensures sessions == SessionIds(sessionId, |sessions|)
    ensures created == CreatedIds(sessionId, |sessions|)
    ensures sleeps == JitteredDelays(baseDelay, RunnerDelayCap, RunnerJitter, random, if |sessions| == 0 then 0 else |sessions| - 1)
  {
    out, raised, sessions, created, sleeps := [], None, [], [], [];
    var attempt := 0;
    while attempt < maxRetries + 1
      invariant 0 <= attempt && |sessions| == attempt && raised.None? && out == Yielded(gen, attempt)
      invariant attempt <= maxRetries || attempt == 0
      invariant sessions == SessionIds(sessionId, attempt)
      invariant created == CreatedIds(sessionId, attempt)
      invariant sleeps == JitteredDelays(baseDelay, RunnerDelayCap, RunnerJitter, random, attempt)
      invariant forall k :: 0 <= k < attempt ==> gen(k).error.Some? && IsRateLimitError(gen(k).error.value)
    {
      var sid := AttemptSessionId(sessionId, attempt);
      if attempt > 0 {
        created := created + [sid];
      }
      sessions := sessions + [sid];
      var g := gen(attempt);
      out := out + g.items;
      if g.error.None? {
        return;
      }
      raised := g.error;
      if !IsRateLimitError(g.error.value) || attempt >= maxRetries {
        return;
      }
      raised := None;
      sleeps := sleeps + [Jittered(Delay(baseDelay, attempt, RunnerDelayCap), RunnerJitter, random(attempt))];
      attempt := attempt + 1;
    }
  }
}
