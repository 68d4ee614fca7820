/** The composer's proof retry loop over a clock, for any prover behaviour. */
module ProverRetry {
  import opened Types
  import opened Timing

  const INITIAL_BACKOFF_MS: nat := 100
  const MAX_BACKOFF_MS: nat := 1_000

  datatype Target = NextBlock | ExactBlock | Exact(timestamp: nat)

  /** What the prover and the scheduler do around one attempt. */
  datatype Behaviour = Behaviour(
    takesMs: nat, succeeds: bool, retryable: bool, jitterSeed: nat, resumeLag: nat, wakeLag: nat)

  datatype Attempt = Attempt(start: nat, end: nat)

  /** Latest wall-clock millisecond at which a full attempt may start. */
  function StartCutoff(t: RollupTiming, target: Target): Option<nat> {
    if target.Exact? then Some(SatSub(SatSub(SatMul(target.timestamp, 1000), t.slackMs), t.proofMs)) else None
  }

  function RetryBudget(t: RollupTiming, target: Target, nowMs: nat): Option<nat> {
    var cutoff := StartCutoff(t, target);
    if cutoff.None? then Some(t.proofMs)
    else if nowMs > cutoff.value then None
    else Some(cutoff.value - nowMs)
  }

  function Doubled(times: nat): nat {
    if times == 0 then INITIAL_BACKOFF_MS else 2 * Doubled(times - 1)
  }

  function BaseBackoff(attempt: nat): nat {
    var shifted := Doubled(if attempt == 0 then 0 else if attempt - 1 <= 31 then attempt - 1 else 31);
    if shifted <= MAX_BACKOFF_MS then shifted else MAX_BACKOFF_MS
  }

  function Backoff(attempt: nat, seed: nat): nat {
    var base := BaseBackoff(attempt);
    base - base / 5 + seed % (base / 5 * 2 + 1)
  }

  /** With the slot's end far enough ahead, a first attempt may start exactly as long as the proof and the
      submission slack still fit before it, and the budget is what is left beyond them. */
  lemma {:induction false} BudgetEndsBeforeTheSlot(t: RollupTiming, timestamp: nat, nowMs: nat)
    requires t.proofMs + t.slackMs <= 1000 * timestamp <= U64_MAX
    ensures
      var budget := RetryBudget(t, Exact(timestamp), nowMs);
      && (budget.Some? <==> nowMs + t.proofMs + t.slackMs <= 1000 * timestamp)
      && (budget.Some? ==> nowMs + budget.value + t.proofMs + t.slackMs == 1000 * timestamp)
  {
  }

  lemma {:induction false} DoubledAtLeast(times: nat)
    ensures Doubled(times) >= INITIAL_BACKOFF_MS
  {
    if times > 0 { DoubledAtLeast(times - 1); }
  }

  /** The base doubles from 100 ms up to a second. */
  lemma {:induction false} BaseDoubles(attempt: nat)
    requires attempt > 0
    ensures BaseBackoff(1) == 100
    ensures BaseBackoff(attempt + 1) == if 2 * BaseBackoff(attempt) <= 1000 then 2 * BaseBackoff(attempt) else 1000
  {
    assert Doubled(0) == 100 && Doubled(1) == 200 && Doubled(2) == 400 && Doubled(3) == 800;
    if attempt > 4 { DoubledMono(4, if attempt - 1 <= 31 then attempt - 1 else 31); }
    if attempt > 3 { DoubledMono(4, if attempt <= 31 then attempt else 31); }
  }

  lemma {:induction false} DoubledMono(a: nat, b: nat)
    requires a <= b
    ensures Doubled(a) <= Doubled(b)
  {
    if a < b {
      DoubledMono(a, b - 1);
      DoubledAtLeast(b - 1);
    }
  }

  /** Every wait lies within a fifth of its base, so between 80 ms and 1200 ms; both ends are drawn. */
  lemma {:induction false} BackoffIsBounded(attempt: nat, seed: nat)
    ensures 80 <= Backoff(attempt, seed) <= 1200
    ensures BaseBackoff(attempt) - BaseBackoff(attempt) / 5 <= Backoff(attempt, seed)
    ensures Backoff(attempt, seed) <= BaseBackoff(attempt) + BaseBackoff(attempt) / 5
    ensures Backoff(attempt, 0) == BaseBackoff(attempt) - BaseBackoff(attempt) / 5
    ensures Backoff(attempt, BaseBackoff(attempt) / 5 * 2) == BaseBackoff(attempt) + BaseBackoff(attempt) / 5
  {
    BaseIsBounded(attempt);
    hide BaseBackoff;
    var fifth := BaseBackoff(attempt) / 5;
    Below(0, fifth * 2 + 1);
    Below(fifth * 2, fifth * 2 + 1);
  }

  lemma {:induction false} Below(a: nat, m: nat)
    requires a < m
    ensures a % m == a
  {
  }

  lemma {:induction false} BaseIsBounded(attempt: nat)
    ensures 100 <= BaseBackoff(attempt) <= 1000
  {
    DoubledAtLeast(if attempt == 0 then 0 else if attempt - 1 <= 31 then attempt - 1 else 31);
  }

  function Min2(a: nat, b: nat): nat { if a <= b then a else b }

  /** The attempt starts by the deadline and ends within its own limit. */
  ghost predicate Fits(a: Attempt, from: nat, deadline: nat, exact: bool, proofMs: nat) {
    from <= a.start <= a.end && a.start <= deadline && a.end <= if exact then a.start + proofMs else deadline
  }

  ghost predicate Spaced(log: seq<Attempt>) {
    forall i, j :: 0 <= i < j < |log| ==> log[i].end + 80 <= log[j].start
  }

  /** How long an attempt may run. */
  function Limit(exact: bool, proofMs: nat, deadline: nat, start: nat): nat {
    if exact then proofMs else SatSub(deadline, start)
  }

  /** The prover answered in time, and either proved or failed for good. */
  ghost predicate Final(b: Behaviour, limit: nat) {
    b.takesMs <= limit && (b.succeeds || !b.retryable)
  }

  /** When the next attempt could start after this one. */
  ghost function Resumes(b: Behaviour, a: Attempt, attempt: nat): nat {
    a.end + b.resumeLag + Backoff(attempt, b.jitterSeed) + b.wakeLag
  }

  /** An attempt ends with its answer or at its limit. */
  ghost predicate Timed(b: Behaviour, a: Attempt, limit: nat) {
    a.end == a.start + Min2(b.takesMs, limit)
  }

  /** Every attempt runs its time; after each but the last, which gave no final answer, the next one
      followed in time. */
  ghost predicate Attempts(log: seq<Attempt>, prover: nat -> Behaviour, exact: bool, proofMs: nat, deadline: nat) {
    forall i :: 0 <= i < |log| ==>
      && Timed(prover(i + 1), log[i], Limit(exact, proofMs, deadline, log[i].start))
      && (i + 1 < |log| ==> Leads(prover(i + 1), log[i], i + 1, exact, proofMs, deadline, log[i + 1].start))
  }

  ghost predicate Leads(
    b: Behaviour, a: Attempt, attempt: nat, exact: bool, proofMs: nat, deadline: nat, next: nat)
  {
    !Final(b, Limit(exact, proofMs, deadline, a.start)) && next == Resumes(b, a, attempt) < deadline
  }

  lemma {:induction false} NoAttempts(prover: nat -> Behaviour, exact: bool, proofMs: nat)
    ensures Spaced([]) && forall deadline :: Attempts([], prover, exact, proofMs, deadline)
  {
  }

  lemma {:induction false} OneAttemptMore(
    log: seq<Attempt>, prover: nat -> Behaviour, exact: bool, proofMs: nat, deadline: nat, a: Attempt)
    requires Attempts(log, prover, exact, proofMs, deadline)
    requires Timed(prover(|log| + 1), a, Limit(exact, proofMs, deadline, a.start))
    requires log != [] ==> Leads(prover(|log|), log[|log| - 1], |log|, exact, proofMs, deadline, a.start)
    ensures Attempts(log + [a], prover, exact, proofMs, deadline)
  {
    hide Timed, Leads;
  }

  /** Attempts keep apart, and each starts by the deadline and runs within its limit. */
  lemma {:induction false} AttemptsFit(
    log: seq<Attempt>, prover: nat -> Behaviour, exact: bool, proofMs: nat, from: nat, deadline: nat, i: nat)
    requires i < |log| && Attempts(log, prover, exact, proofMs, deadline) && log[0].start == from <= deadline
    ensures from + 80 * i <= log[i].start <= deadline && Fits(log[i], from, deadline, exact, proofMs)
    ensures i > 0 ==> log[i - 1].end + 80 <= log[i].start
  {
    if i > 0 {
      AttemptsFit(log, prover, exact, proofMs, from, deadline, i - 1);
      BackoffIsBounded(i, prover(i).jitterSeed);
      hide Backoff;
      assert Leads(prover(i), log[i - 1], i, exact, proofMs, deadline, log[i].start);
    }
    assert Timed(prover(i + 1), log[i], Limit(exact, proofMs, deadline, log[i].start));
  }

  lemma {:induction false} AttemptsSpaced(
    log: seq<Attempt>, prover: nat -> Behaviour, exact: bool, proofMs: nat, from: nat, deadline: nat, i: nat, j: nat)
    requires i < j < |log| && Attempts(log, prover, exact, proofMs, deadline) && log[0].start == from <= deadline
    ensures log[i].end + 80 <= log[j].start
  {
    hide Attempts;
    AttemptsFit(log, prover, exact, proofMs, from, deadline, j);
    if i < j - 1 {
      AttemptsSpaced(log, prover, exact, proofMs, from, deadline, i, j - 1);
      AttemptsFit(log, prover, exact, proofMs, from, deadline, j - 1);
    }
  }

  /** The loop itself, from a clock read on to a deadline. A failure that can be retried is, as long as
      there is time; a final answer ends the loop. */
  method Retry(exact: bool, proofMs: nat, from: nat, deadline: nat, prover: nat -> Behaviour)
    returns (log: seq<Attempt>, proved: bool)
    requires from <= deadline
    ensures log != [] && log[0].start == from && Attempts(log, prover, exact, proofMs, deadline)
    ensures
      var n := |log|;
      var limit := Limit(exact, proofMs, deadline, log[n - 1].start);
      && (proved <==> prover(n).takesMs <= limit && prover(n).succeeds)
      && (Final(prover(n), limit) || Resumes(prover(n), log[n - 1], n) >= deadline)
  {
    hide Attempts, Backoff;
    NoAttempts(prover, exact, proofMs);
    log, proved := [], false;
    var now, attempt := from, 1;
    while true
      invariant attempt == |log| + 1 && now <= deadline && !proved
      invariant if log == [] then now == from else log[0].start == from
      invariant Attempts(log, prover, exact, proofMs, deadline)
      invariant log != [] ==> Leads(prover(|log|), log[|log| - 1], |log|, exact, proofMs, deadline, now)
      decreases deadline - now
    {
      var p, limit := prover(attempt), Limit(exact, proofMs, deadline, now);
      var end := now + Min2(p.takesMs, limit);
      OneAttemptMore(log, prover, exact, proofMs, deadline, Attempt(now, end));
      log := log + [Attempt(now, end)];
      var answered := p.takesMs <= limit;
      if answered && p.succeeds {
        proved := true;
        break;
      }
      if answered && !p.retryable { break; }
      BackoffIsBounded(attempt, p.jitterSeed);
      var wake := end + p.resumeLag + Backoff(attempt, p.jitterSeed);
      if wake >= deadline { break; }
      if wake + p.wakeLag >= deadline { break; }
      now, attempt := wake + p.wakeLag, attempt + 1;
    }
  }

  /** Proving with retries. `nowMs` is the wall clock read the budget is computed from; the monotonic
      clock that times the loop is read `skew` later. Attempts are bounded by the budget whatever the
      prover does. With an exact target none starts later than the cutoff or runs into the submission
      slack, up to the skew; with any other the whole call fits the proof time. A failure that can be
      retried is, as long as there is time; a final answer ends the loop, and the call succeeds exactly
      when the last answer in time was a proof. */
  method ProveWithRetry(t: RollupTiming, target: Target, nowMs: nat, skew: nat, prover: nat -> Behaviour)
    returns (log: seq<Attempt>, proved: bool)
    ensures log == [] <==> RetryBudget(t, target, nowMs).None?
    ensures log == [] ==> !proved
    ensures log != [] ==> 80 * (|log| - 1) <= RetryBudget(t, target, nowMs).value
    ensures forall i :: 0 <= i < |log| ==> nowMs + skew <= log[i].start <= log[i].end
    ensures Spaced(log)
    ensures target.Exact? ==> forall i :: 0 <= i < |log| ==>
      && log[i].start <= StartCutoff(t, target).value + skew
      && (SatMul(target.timestamp, 1000) >= t.slackMs + t.proofMs ==>
            log[i].end <= SatMul(target.timestamp, 1000) - t.slackMs + skew)
    ensures !target.Exact? ==> forall i :: 0 <= i < |log| ==> log[i].end <= nowMs + skew + t.proofMs
    ensures log != [] ==>
      var n, deadline := |log|, nowMs + skew + RetryBudget(t, target, nowMs).value;
      var limit := Limit(target.Exact?, t.proofMs, deadline, log[n - 1].start);
      && log[0].start == nowMs + skew
      && Attempts(log, prover, target.Exact?, t.proofMs, deadline)
      && (proved <==> prover(n).takesMs <= limit && prover(n).succeeds)
      && (Final(prover(n), limit) || Resumes(prover(n), log[n - 1], n) >= deadline)
  {
    hide *;
    var budget := RetryBudget(t, target, nowMs);
    if budget.None? {
      NoAttempts(prover, target.Exact?, t.proofMs);
      return [], false;
    }
    var from := nowMs + skew;
    ghost var exact, deadline := target.Exact?, from + budget.value;
    log, proved := Retry(target.Exact?, t.proofMs, from, from + budget.value, prover);
    AttemptsBounded(log, prover, exact, t.proofMs, from, deadline);
    EndsInTime(t, target, nowMs, skew, log);
  }

  lemma {:induction false} AttemptsBounded(
    log: seq<Attempt>, prover: nat -> Behaviour, exact: bool, proofMs: nat, from: nat, deadline: nat)
    requires log != [] && Attempts(log, prover, exact, proofMs, deadline) && log[0].start == from <= deadline
    ensures Spaced(log) && 80 * (|log| - 1) <= deadline - from
    ensures forall i :: 0 <= i < |log| ==> Fits(log[i], from, deadline, exact, proofMs)
  {
    hide Attempts, Fits;
    forall i | 0 <= i < |log| ensures Fits(log[i], from, deadline, exact, proofMs) {
      AttemptsFit(log, prover, exact, proofMs, from, deadline, i);
    }
    AttemptsFit(log, prover, exact, proofMs, from, deadline, |log| - 1);
    forall i, j | 0 <= i < j < |log| ensures log[i].end + 80 <= log[j].start {
      AttemptsSpaced(log, prover, exact, proofMs, from, deadline, i, j);
    }
  }

  lemma {:induction false} EndsInTime(t: RollupTiming, target: Target, nowMs: nat, skew: nat, log: seq<Attempt>)
    requires RetryBudget(t, target, nowMs).Some?
    requires
      var deadline := nowMs + skew + RetryBudget(t, target, nowMs).value;
      forall i :: 0 <= i < |log| ==> Fits(log[i], nowMs + skew, deadline, target.Exact?, t.proofMs)
    ensures forall i :: 0 <= i < |log| ==> nowMs + skew <= log[i].start <= log[i].end
    ensures target.Exact? ==> forall i :: 0 <= i < |log| ==>
      && log[i].start <= StartCutoff(t, target).value + skew
      && (SatMul(target.timestamp, 1000) >= t.slackMs + t.proofMs ==>
            log[i].end <= SatMul(target.timestamp, 1000) - t.slackMs + skew)
    ensures !target.Exact? ==> forall i :: 0 <= i < |log| ==> log[i].end <= nowMs + skew + t.proofMs
  {
    hide SatMul;
  }
}
