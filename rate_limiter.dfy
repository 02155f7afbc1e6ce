/** The client-side login rate limiter hook: a count of failed attempts in a
    sliding window, progressive lockouts once the count reaches the maximum,
    and expiry of a lockout once its end time has passed. The clock is a
    parameter (`now`, milliseconds); sessionStorage is a map field. */
module RateLimiter {
  import opened Wrappers

  datatype Config = Config(maxAttempts: int, lockoutDurations: seq<int>, windowMs: int, storageKey: string)

  /** 5 attempts; lockouts of 30 s, 1 min, 5 min and 15 min; a 15-minute
      window; stored under `auth_rate_limit`. */
  const DEFAULT_CONFIG: Config :=
    Config(5, [30 * 1000, 60 * 1000, 5 * 60 * 1000, 15 * 60 * 1000], 15 * 60 * 1000, "auth_rate_limit")

  /** The fields a caller may override (`Partial<RateLimiterConfig>`). */
  datatype Overrides = Overrides(maxAttempts: Option<int>, lockoutDurations: Option<seq<int>>,
                                 windowMs: Option<int>, storageKey: Option<string>)

  const NO_OVERRIDES: Overrides := Overrides(None, None, None, None)

  /** `{ ...DEFAULT_CONFIG, ...config }`. */
  function FullConfig(o: Overrides): (c: Config)
    ensures o.maxAttempts.Some? ==> c.maxAttempts == o.maxAttempts.value
    ensures o.maxAttempts.None? ==> c.maxAttempts == DEFAULT_CONFIG.maxAttempts
    ensures o.lockoutDurations.Some? ==> c.lockoutDurations == o.lockoutDurations.value
    ensures o.lockoutDurations.None? ==> c.lockoutDurations == DEFAULT_CONFIG.lockoutDurations
    ensures o.windowMs.Some? ==> c.windowMs == o.windowMs.value
    ensures o.windowMs.None? ==> c.windowMs == DEFAULT_CONFIG.windowMs
    ensures o.storageKey.Some? ==> c.storageKey == o.storageKey.value
    ensures o.storageKey.None? ==> c.storageKey == DEFAULT_CONFIG.storageKey
  {
    Config(o.maxAttempts.GetOr(DEFAULT_CONFIG.maxAttempts),
           o.lockoutDurations.GetOr(DEFAULT_CONFIG.lockoutDurations),
           o.windowMs.GetOr(DEFAULT_CONFIG.windowMs),
           o.storageKey.GetOr(DEFAULT_CONFIG.storageKey))
  }

  /** With nothing overridden the configuration is the default one. */
  lemma NoOverridesIsDefault()
    ensures FullConfig(NO_OVERRIDES) == DEFAULT_CONFIG
  {
  }

  /** The configurations the arithmetic is defined for: at least one attempt
      and at least one lockout duration. */
  predicate ValidConfig(c: Config) {
    c.maxAttempts >= 1 && |c.lockoutDurations| >= 1
  }

  /** Every duration is a real wait. */
  predicate PositiveDurations(c: Config) {
    forall k :: 0 <= k < |c.lockoutDurations| ==> c.lockoutDurations[k] > 0
  }

  datatype LimitState = LimitState(attempts: int, lockoutUntil: Option<int>, lastAttempt: int)

  /** The state when nothing is stored, and the state `reset` writes. */
  const INITIAL: LimitState := LimitState(0, None, 0)

  /** `state.lockoutUntil` is truthy: present and not 0. */
  predicate HasLockout(s: LimitState) {
    s.lockoutUntil.Some? && s.lockoutUntil.value != 0
  }

  /** What `isLocked` answers at time `now`. */
  predicate LockedAt(s: LimitState, now: int) {
    HasLockout(s) && now <= s.lockoutUntil.value
  }

  function Min(a: int, b: int): int {
    if a <= b then a else b
  }

  /** Which lockout duration applies to the `n`-th failure, `n >= max`: the
      number of whole groups of `max` failures past the first lockout,
      capped at the last duration. */
  function LockoutIndex(n: int, c: Config): (i: nat)
    requires ValidConfig(c) && n >= c.maxAttempts
    ensures i < |c.lockoutDurations|
    ensures i == |c.lockoutDurations| - 1 || i * c.maxAttempts <= n - c.maxAttempts < (i + 1) * c.maxAttempts
    ensures i == |c.lockoutDurations| - 1 ==> i * c.maxAttempts <= n - c.maxAttempts
  {
    var q := (n - c.maxAttempts) / c.maxAttempts;
    DivBounds(n - c.maxAttempts, c.maxAttempts);
    if q <= |c.lockoutDurations| - 1 then q
    else
      MulMonotone(|c.lockoutDurations| - 1, q, c.maxAttempts);
      |c.lockoutDurations| - 1
  }

  lemma DivBounds(a: int, b: int)
    requires a >= 0 && b >= 1
    ensures a / b >= 0
    ensures (a / b) * b <= a < (a / b + 1) * b
  {
  }

  lemma MulMonotone(x: int, y: int, m: int)
    requires x <= y && m >= 0
    ensures x * m <= y * m
  {
    assert y * m - x * m == (y - x) * m;
  }

  /** More failures never select a shorter-listed duration. */
  lemma LockoutIndexMonotone(n: int, n': int, c: Config)
    requires ValidConfig(c) && c.maxAttempts <= n <= n'
    ensures LockoutIndex(n, c) <= LockoutIndex(n', c)
  {
    var m := c.maxAttempts;
    var q := (n - m) / m;
    var q' := (n' - m) / m;
    DivBounds(n - m, m);
    DivBounds(n' - m, m);
    if q > q' {
      MulMonotone(q' + 1, q, m);
      assert false;
    }
  }

  /** With the default settings the duration steps up every five failures:
      failures 5 to 9 lock for 30 s, 10 to 14 for a minute, 15 to 19 for five
      minutes and every later one for fifteen. */
  lemma DefaultLockoutSteps(n: int)
    requires n >= 5
    ensures DEFAULT_CONFIG.lockoutDurations[LockoutIndex(n, DEFAULT_CONFIG)] ==
      if n < 10 then 30000 else if n < 15 then 60000 else if n < 20 then 300000 else 900000
  {
    var i := LockoutIndex(n, DEFAULT_CONFIG);
    if n < 10 {
      assert i * 5 <= n - 5 < 5;
      assert i == 0;
    } else if n < 15 {
      assert 5 <= n - 5 < 10;
      assert i == 1;
    } else if n < 20 {
      assert 10 <= n - 5 < 15;
      assert i == 2;
    } else {
      assert i == 3;
    }
  }

  /** `recordAttempt(true)`. */
  function AfterSuccess(now: int): LimitState {
    LimitState(0, None, now)
  }

  /** A success resets the counter: the limiter is unlocked at every time,
      and the next failure, however soon, counts as the first and locks
      only when a single failure is the maximum. */
  lemma SuccessResets(c: Config, t: int, now: int, later: int)
    requires ValidConfig(c)
    ensures !LockedAt(AfterSuccess(t), later)
    ensures AfterFailure(AfterSuccess(t), c, now).attempts == 1
    ensures AfterFailure(AfterSuccess(t), c, now).lockoutUntil.Some? <==> c.maxAttempts <= 1
  {
  }

  /** `recordAttempt(false)`: count the failure (from 1 again when the last
      attempt is more than the window ago) and lock once the count reaches
      the maximum. */
  function AfterFailure(s: LimitState, c: Config, now: int): (r: LimitState)
    requires ValidConfig(c)
    ensures r.lastAttempt == now
    ensures r.attempts == if now - s.lastAttempt > c.windowMs then 1 else s.attempts + 1
    ensures r.lockoutUntil.Some? <==> r.attempts >= c.maxAttempts
    ensures r.lockoutUntil.Some? ==> r.lockoutUntil.value - now in c.lockoutDurations
  {
    var n := if now - s.lastAttempt > c.windowMs then 1 else s.attempts + 1;
    var until := if n >= c.maxAttempts then Some(now + c.lockoutDurations[LockoutIndex(n, c)]) else None;
    LimitState(n, until, now)
  }

  /** A lockout starts at the failure that sets it and lasts exactly the
      chosen duration: locked up to and including its end, free after it. */
  lemma LockoutWindow(s: LimitState, c: Config, now: int, t: int)
    requires ValidConfig(c) && PositiveDurations(c) && now >= 0
    requires AfterFailure(s, c, now).attempts >= c.maxAttempts
    ensures var r := AfterFailure(s, c, now);
      var d := c.lockoutDurations[LockoutIndex(r.attempts, c)];
      LockedAt(r, t) <==> t <= now + d
  {
    var r := AfterFailure(s, c, now);
    var d := c.lockoutDurations[LockoutIndex(r.attempts, c)];
    assert d > 0;
    assert r.lockoutUntil == Some(now + d);
  }

  /** The state after a run of failures at the given times. */
  function AfterFailures(s: LimitState, c: Config, times: seq<int>): LimitState
    requires ValidConfig(c)
    decreases |times|
  {
    if times == [] then s else AfterFailures(AfterFailure(s, c, times[0]), c, times[1..])
  }

  /** Each failure comes no later than the window after the one before. */
  predicate WithinWindow(c: Config, times: seq<int>) {
    forall k :: 0 < k < |times| ==> times[k] - times[k - 1] <= c.windowMs
  }

  /** A run of failures, each within the window of the previous one, counts
      at least one per failure from a non-negative count. */
  lemma {:induction false} FailuresCount(s: LimitState, c: Config, times: seq<int>)
    requires ValidConfig(c) && s.attempts >= 0 && WithinWindow(c, times)
    ensures times != [] ==> AfterFailures(s, c, times).attempts >= |times|
    ensures times != [] ==> AfterFailures(s, c, times).lastAttempt == times[|times| - 1]
    decreases |times|
  {
    if |times| >= 2 {
      var s1 := AfterFailure(s, c, times[0]);
      assert WithinWindow(c, times[1..]) by {
        forall k | 0 < k < |times[1..]|
          ensures times[1..][k] - times[1..][k - 1] <= c.windowMs
        {
          assert times[1..][k] == times[k + 1] && times[1..][k - 1] == times[k];
        }
      }
      FailuresCount(s1, c, times[1..]);
      RunStepCount(s1, c, times[1..]);
    } else if |times| == 1 {
      assert times[1..] == [];
    }
  }

  /** A run of failures that starts within the window of the last attempt
      adds exactly one per failure. */
  lemma {:induction false} RunStepCount(s: LimitState, c: Config, times: seq<int>)
    requires ValidConfig(c) && WithinWindow(c, times)
    requires times != [] ==> times[0] - s.lastAttempt <= c.windowMs
    ensures AfterFailures(s, c, times).attempts == s.attempts + |times|
    decreases |times|
  {
    if times != [] {
      var s1 := AfterFailure(s, c, times[0]);
      assert s1.attempts == s.attempts + 1;
      assert WithinWindow(c, times[1..]) by {
        forall k | 0 < k < |times[1..]|
          ensures times[1..][k] - times[1..][k - 1] <= c.windowMs
        {
          assert times[1..][k] == times[k + 1] && times[1..][k - 1] == times[k];
        }
      }
      if |times| >= 2 {
        assert times[1..][0] - s1.lastAttempt == times[1] - times[0];
      }
      RunStepCount(s1, c, times[1..]);
    }
  }

  /** `maxAttempts` failures in a row, each within the window of the previous
      one, always leave the limiter locked at the last of them. */
  lemma MaxFailuresLock(s: LimitState, c: Config, times: seq<int>)
    requires ValidConfig(c) && PositiveDurations(c) && s.attempts >= 0
    requires |times| == c.maxAttempts && WithinWindow(c, times) && times[|times| - 1] >= 0
    ensures LockedAt(AfterFailures(s, c, times), times[|times| - 1])
  {
    FailuresCount(s, c, times);
    assert times == times[..|times| - 1] + [times[|times| - 1]];
    LastFailureLocks(s, c, times);
  }

  /** The run's last failure is the one that produced the final state. */
  lemma {:induction false} LastFailureLocks(s: LimitState, c: Config, times: seq<int>)
    requires ValidConfig(c) && PositiveDurations(c) && times != [] && times[|times| - 1] >= 0
    requires AfterFailures(s, c, times).attempts >= c.maxAttempts
    ensures LockedAt(AfterFailures(s, c, times), times[|times| - 1])
    decreases |times|
  {
    if |times| == 1 {
      var r := AfterFailure(s, c, times[0]);
      assert AfterFailures(s, c, times) == AfterFailures(r, c, []) == r;
      LockoutWindow(s, c, times[0], times[0]);
    } else {
      LastFailureLocks(AfterFailure(s, c, times[0]), c, times[1..]);
    }
  }

  /** What `isLocked` leaves behind: an expired lockout is cleared, the count
      and the time of the last attempt are kept. */
  function ClearExpired(s: LimitState, now: int): (r: LimitState)
    ensures r.attempts == s.attempts && r.lastAttempt == s.lastAttempt
    ensures !HasLockout(s) || LockedAt(s, now) ==> r == s
    ensures HasLockout(s) && !LockedAt(s, now) ==> r.lockoutUntil == None
  {
    if HasLockout(s) && now > s.lockoutUntil.value then s.(lockoutUntil := None) else s
  }

  /** Once cleared, the limiter stays unlocked and a second check changes
      nothing. */
  lemma ClearExpiredIdempotent(s: LimitState, now: int)
    ensures ClearExpired(ClearExpired(s, now), now) == ClearExpired(s, now)
    ensures LockedAt(ClearExpired(s, now), now) == LockedAt(s, now)
  {
  }

  /** `getRemainingLockoutTime`. */
  function RemainingLockout(s: LimitState, now: int): (ms: int)
    ensures ms >= 0
    ensures !HasLockout(s) ==> ms == 0
    ensures ms > 0 ==> LockedAt(s, now)
    ensures LockedAt(s, now) ==> ms == s.lockoutUntil.value - now
  {
    if !HasLockout(s) then 0
    else
      var remaining := s.lockoutUntil.value - now;
      if remaining >= 0 then remaining else 0
  }

  /** What the hook returns to its caller on a render at `now`. */
  datatype HookValue = HookValue(isLocked: bool, attempts: int, remainingLockoutMs: int)

  class RateLimiterHook {
    const config: Config
    var state: LimitState
    /** sessionStorage, holding the states that parsed. */
    var storage: map<string, LimitState>

    predicate Valid() {
      ValidConfig(config)
    }

    /** `useRateLimiter(overrides)`: the stored state for the key, or the
        initial one. */
    constructor (overrides: Overrides, sessionStorage: map<string, LimitState>)
      requires ValidConfig(FullConfig(overrides))
      ensures Valid() && config == FullConfig(overrides) && storage == sessionStorage
      ensures state == if config.storageKey in sessionStorage then sessionStorage[config.storageKey] else INITIAL
    {
      config := FullConfig(overrides);
      storage := sessionStorage;
      var key := FullConfig(overrides).storageKey;
      if key in sessionStorage {
        state := sessionStorage[key];
      } else {
        state := INITIAL;
      }
    }

    method Save(newState: LimitState)
      modifies this`state, this`storage
      ensures state == newState && storage == old(storage)[config.storageKey := newState]
    {
      state := newState;
      storage := storage[config.storageKey := newState];
    }

    /** `isLocked`: clears an expired lockout as a side effect. */
    method IsLocked(now: int) returns (locked: bool)
      modifies this`state, this`storage
      ensures locked == LockedAt(old(state), now)
      ensures state == ClearExpired(old(state), now)
      ensures storage == if state == old(state) then old(storage) else old(storage)[config.storageKey := state]
    {
      if !HasLockout(state) {
        return false;
      }
      if now > state.lockoutUntil.value {
        Save(state.(lockoutUntil := None));
        return false;
      }
      return true;
    }

    /** `recordAttempt(success)`. */
    method RecordAttempt(success: bool, now: int)
      requires Valid()
      modifies this`state, this`storage
      ensures state == if success then AfterSuccess(now) else AfterFailure(old(state), config, now)
      ensures storage == old(storage)[config.storageKey := state]
    {
      if success {
        Save(LimitState(0, None, now));
        return;
      }
      var newAttempts := state.attempts + 1;
      if now - state.lastAttempt > config.windowMs {
        newAttempts := 1;
      }
      var newLockoutUntil: Option<int> := None;
      if newAttempts >= config.maxAttempts {
        var lockoutIndex := Min((newAttempts - config.maxAttempts) / config.maxAttempts,
                                |config.lockoutDurations| - 1);
        assert lockoutIndex == LockoutIndex(newAttempts, config);
        var lockoutDuration := config.lockoutDurations[lockoutIndex];
        newLockoutUntil := Some(now + lockoutDuration);
      }
      Save(LimitState(newAttempts, newLockoutUntil, now));
    }

    /** `reset`. */
    method Reset()
      modifies this`state, this`storage
      ensures state == INITIAL && storage == old(storage)[config.storageKey := INITIAL]
    {
      Save(LimitState(0, None, 0));
    }

    /** The hook's return value on a render at `now`: `isLocked()` runs first,
        and the other two fields are read from the state of that render. */
    method Render(now: int) returns (v: HookValue)
      modifies this`state, this`storage
      ensures v == HookValue(LockedAt(old(state), now), old(state).attempts, RemainingLockout(old(state), now))
      ensures state == ClearExpired(old(state), now)
    {
      var before := state;
      var locked := IsLocked(now);
      v := HookValue(locked, before.attempts, RemainingLockout(before, now));
    }
  }
}
