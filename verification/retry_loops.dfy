/** The two retry loops around the lease server: issuing a temporary key and retiring it.
    Times are milliseconds. */
module RetryLoops {
  import opened WalletTypes

  const LEASE_ISSUE_MAX_WAIT_MS := 75_000
  const LEASE_ISSUE_MAX_ATTEMPTS := 5
  const LEASE_ISSUE_INITIAL_RETRY_MS := 5_000
  const LEASE_ISSUE_MAX_RETRY_MS := 30_000
  const MAX_RECOVERY_WAIT_MS := 45_000

  /** What the server answers to a request. */
  datatype Answer = Ok | Error(retriable: bool, advertised: Option<nat>)

  /** The world of one loop: the answer to the i-th request, how long it takes, and by how
      much the sleep after it overshoots. A sleep never ends early. */
  datatype World = World(answer: nat -> Answer, latency: nat -> nat, overshoot: nat -> nat)

  /** One pause: when it began and how long was asked for. */
  datatype Pause = Pause(start: nat, delay: nat)

  datatype Limits = Limits(maxWait: nat, maxAttempts: nat, initialRetry: nat, maxRetry: nat)

  const ISSUE_LIMITS := Limits(LEASE_ISSUE_MAX_WAIT_MS, LEASE_ISSUE_MAX_ATTEMPTS, LEASE_ISSUE_INITIAL_RETRY_MS,
                               LEASE_ISSUE_MAX_RETRY_MS)

  /** initial * 2^k */
  function Doubled(initial: nat, k: nat): nat {
    if k == 0 then initial else 2 * Doubled(initial, k - 1)
  }

  function Backoff(initial: nat, max: nat, attempt: nat): nat
    requires attempt >= 1
  {
    var d := Doubled(initial, attempt - 1);
    if d < max then d else max
  }

  /** The pause after a failed attempt: the backoff, or longer if the server asks for it. */
  function RetryDelay(initial: nat, max: nat, attempt: nat, advertised: Option<nat>): (d: nat)
    requires attempt >= 1
    ensures d >= Backoff(initial, max, attempt)
    ensures advertised.Some? ==> d >= advertised.value
    ensures d == Backoff(initial, max, attempt) || advertised == Some(d)
  {
    var b := Backoff(initial, max, attempt);
    if advertised.Some? && advertised.value > b then advertised.value else b
  }

  /** Each pause honours the backoff and what the server advertised, ends by the deadline
      as far as it was asked for, and starts only after the one before has run out. */
  ghost predicate Paced(w: World, initial: nat, max: nat, pauses: seq<Pause>, deadline: nat) {
    && (forall i :: 0 <= i < |pauses| ==> PauseOk(w.answer(i), initial, max, i + 1, pauses[i], deadline))
    && (forall i :: 0 <= i < |pauses| - 1 ==> pauses[i].start + pauses[i].delay <= pauses[i + 1].start)
  }

  ghost predicate PauseOk(answer: Answer, initial: nat, max: nat, attempt: nat, pause: Pause, deadline: nat)
    requires attempt >= 1
  {
    && answer.Error? && answer.retriable
    && pause.delay == RetryDelay(initial, max, attempt, answer.advertised)
    && pause.start + pause.delay <= deadline
  }

  /** Why a loop gave up at request i, at time `now`. */
  ghost predicate GaveUp(w: World, initial: nat, max: nat, i: nat, now: nat, deadline: nat) {
    w.answer(i).Error?
    && (!w.answer(i).retriable || now + RetryDelay(initial, max, i + 1, w.answer(i).advertised) > deadline)
  }

  /** requestLeaseWithRetry: at most maxAttempts requests (one even if that is zero), and it
      fails only on a final error, on the last attempt, or for want of time. */
  method RequestLeaseWithRetry(w: World, began: nat, limits: Limits)
    returns (ok: bool, requests: nat, pauses: seq<Pause>, now: nat)
    ensures 1 <= requests && (requests <= limits.maxAttempts || requests == 1)
    ensures |pauses| == requests - 1
    ensures Paced(w, limits.initialRetry, limits.maxRetry, pauses, began + limits.maxWait)
    ensures forall i :: 0 <= i < |pauses| ==> pauses[i].start >= began
    ensures ok <==> w.answer(requests - 1).Ok?
    ensures !ok ==> requests >= limits.maxAttempts
                    || GaveUp(w, limits.initialRetry, limits.maxRetry, requests - 1, now, began + limits.maxWait)
  {
    var deadline := began + limits.maxWait;
    var attempt := 1;
    now, pauses := began, [];
    while true
      invariant attempt >= 1 && |pauses| == attempt - 1 && now >= began
      invariant attempt <= limits.maxAttempts || attempt == 1
      invariant Paced(w, limits.initialRetry, limits.maxRetry, pauses, deadline)
      invariant forall i :: 0 <= i < |pauses| ==> pauses[i].start >= began && pauses[i].start + pauses[i].delay <= now
      decreases limits.maxAttempts - attempt
    {
      now := now + w.latency(attempt - 1);
      var answer := w.answer(attempt - 1);
      if answer.Ok? { return true, attempt, pauses, now; }
      var pause := RetryDelay(limits.initialRetry, limits.maxRetry, attempt, answer.advertised);
      if !answer.retriable || attempt >= limits.maxAttempts || now + pause > deadline {
        return false, attempt, pauses, now;
      }
      pauses := pauses + [Pause(now, pause)];
      now := now + pause + w.overshoot(attempt - 1);
      attempt := attempt + 1;
    }
  }

  // --- Retirement has no counter -----------------------------------------------------------

  /** The total backoff before request k + 1: 1, 3, 7, 15, 25, 35, 45 seconds and so on. */
  function TotalBackoff(k: nat): (total: nat) {
    if k == 0 then 0 else TotalBackoff(k - 1) + Backoff(1_000, 10_000, k)
  }

  lemma EightRequestsFit()
    ensures TotalBackoff(7) == 45_000
  {
    assert Doubled(1_000, 4) == 16_000 && Doubled(1_000, 6) == 64_000;
    assert TotalBackoff(4) == 15_000;
  }

  lemma {:induction false} BackoffGrows(j: nat, k: nat)
    requires j <= k
    ensures TotalBackoff(k) >= TotalBackoff(j) + (if k > j then 1_000 else 0)
    decreases k
  {
    if k > j {
      BackoffGrows(j, k - 1);
      DoubledGrows(1_000, k - 1);
    }
  }

  lemma {:induction false} DoubledGrows(initial: nat, k: nat)
    ensures Doubled(initial, k) >= initial
  {
    if k > 0 { DoubledGrows(initial, k - 1); }
  }

  lemma PauseIsLong(attempt: nat, advertised: Option<nat>)
    requires attempt >= 1
    ensures RetryDelay(1_000, 10_000, attempt, advertised) >= 1_000
  {
    DoubledGrows(1_000, attempt - 1);
  }

  /** The number of the last request the retirement loop sends, from this attempt on. */
  function LastAttempt(w: World, attempt: nat, now: nat, deadline: nat): (n: nat)
    requires attempt >= 1
    ensures n >= attempt
    decreases deadline - now
  {
    var answered := now + w.latency(attempt - 1);
    var answer := w.answer(attempt - 1);
    if answer.Ok? || !answer.retriable then attempt
    else
      var pause := RetryDelay(1_000, 10_000, attempt, answer.advertised);
      PauseIsLong(attempt, answer.advertised);
      if answered + pause > deadline then attempt
      else LastAttempt(w, attempt + 1, answered + pause + w.overshoot(attempt - 1), deadline)
  }

  /** Time runs at least as fast as the backoff, so the requests still to come fit into
      the time that is left. */
  lemma {:induction false} RequestsFit(w: World, attempt: nat, now: nat, deadline: nat, began: nat)
    requires attempt >= 1 && began + TotalBackoff(attempt - 1) <= now && began + TotalBackoff(attempt - 1) <= deadline
    ensures began + TotalBackoff(LastAttempt(w, attempt, now, deadline) - 1) <= deadline
    decreases deadline - now
  {
    var later := now + w.latency(attempt - 1);
    var answer := w.answer(attempt - 1);
    if answer.Error? && answer.retriable {
      var pause := RetryDelay(1_000, 10_000, attempt, answer.advertised);
      PauseIsLong(attempt, answer.advertised);
      if later + pause <= deadline {
        RequestsFit(w, attempt + 1, later + pause + w.overshoot(attempt - 1), deadline, began);
      }
    }
  }

  /** However slow the server and whatever it advertises, retirement sends at most eight
      requests under the default wait. */
  lemma AtMostEightRequests(w: World, began: nat)
    ensures LastAttempt(w, 1, began, began + MAX_RECOVERY_WAIT_MS) <= 8
  {
    var n := LastAttempt(w, 1, began, began + MAX_RECOVERY_WAIT_MS);
    RequestsFit(w, 1, began, began + MAX_RECOVERY_WAIT_MS, began);
    EightRequestsFit();
    if n > 8 { BackoffGrows(7, n - 1); }
  }

  /** retireRequest: it has no counter, yet it always ends, because every pause lasts at
      least a second and must fit before the deadline. */
  method RetireRequest(w: World, began: nat, maxWait: nat)
    returns (ok: bool, requests: nat, pauses: seq<Pause>, now: nat)
    ensures requests == LastAttempt(w, 1, began, began + maxWait)
    ensures |pauses| == requests - 1 && Paced(w, 1_000, 10_000, pauses, began + maxWait)
    ensures ok <==> w.answer(requests - 1).Ok?
    ensures !ok ==> GaveUp(w, 1_000, 10_000, requests - 1, now, began + maxWait)
  {
    var deadline := began + maxWait;
    var attempt := 1;
    now, pauses := began, [];
    ghost var last := LastAttempt(w, 1, began, deadline);
    while true
      invariant attempt >= 1 && |pauses| == attempt - 1
      invariant LastAttempt(w, attempt, now, deadline) == last
      invariant Paced(w, 1_000, 10_000, pauses, deadline)
      invariant forall i :: 0 <= i < |pauses| ==> pauses[i].start + pauses[i].delay <= now
      decreases deadline - now
    {
      now := now + w.latency(attempt - 1);
      var answer := w.answer(attempt - 1);
      if answer.Ok? { return true, attempt, pauses, now; }
      var pause := RetryDelay(1_000, 10_000, attempt, answer.advertised);
      PauseIsLong(attempt, answer.advertised);
      if !answer.retriable || now + pause > deadline { return false, attempt, pauses, now; }
      pauses := pauses + [Pause(now, pause)];
      now := now + pause + w.overshoot(attempt - 1);
      attempt := attempt + 1;
    }
  }

  /** A server that always asks for another try, on a perfect clock. */
  const STUBBORN := World(i => Error(true, None), i => 0, i => 0)

  lemma {:induction false} StubbornRequests(attempt: nat, began: nat)
    requires 1 <= attempt <= 8
    ensures LastAttempt(STUBBORN, attempt, began + TotalBackoff(attempt - 1), began + MAX_RECOVERY_WAIT_MS) == 8
    decreases 8 - attempt
  {
    EightRequestsFit();
    if attempt < 8 {
      StubbornRequests(attempt + 1, began);
      BackoffGrows(attempt, 7);
    }
  }

  /** The bound is exact: against such a server the loop sends all eight. */
  lemma EightIsAttained(began: nat)
    ensures LastAttempt(STUBBORN, 1, began, began + MAX_RECOVERY_WAIT_MS) == 8
  {
    StubbornRequests(1, began);
  }
}
