/**
 * The token bucket (identity/infrastructure/redis_guard.py), over the reals. Times are milliseconds of
 * one clock that does not run backwards; a key vanishes when its time to live has passed.
 */
module TokenBucket {
  import opened Common

  datatype Bucket = Bucket(tokens: real, ts: int, expiresAt: int)

  /** One caller's limit; `ttl` is how long an idle key is kept, in milliseconds. */
  datatype Limit = Limit(capacity: nat, refill: real, ttl: int)
  {
    /** Tokens earned in `ms` milliseconds, one millisecond after the other. */
    function Earned(ms: int): real
      decreases ms
    {
      if ms <= 0 then 0.0 else Earned(ms - 1) + refill / 1000.0
    }

    /** An idle key outlives the filling of an empty bucket. */
    predicate Valid() { refill > 0.0 && ttl >= 0 && Earned(ttl) >= capacity as real }
  }

  /** The limit of a call: the key is kept for the time that fills an empty bucket, and a minute more. */
  function LimitOf(capacity: nat, refill: real): Limit
    requires refill > 0.0
  {
    Limit(capacity, refill, (capacity as real / refill * 1000.0).Floor + 60000)
  }

  function MinReal(a: real, b: real): real { if a < b then a else b }

  /** A key past its time to live is gone. */
  function Alive(b: Option<Bucket>, now: int): Option<Bucket> {
    if b.Some? && now >= b.value.expiresAt then None else b
  }

  /** What the script finds in the bucket, after refilling and before spending. */
  function Balance(l: Limit, b: Option<Bucket>, now: int): real {
    var tokens, ts := if b.None? then l.capacity as real else b.value.tokens, if b.None? then now else b.value.ts;
    MinReal(l.capacity as real, tokens + l.Earned(Max(0, now - ts)))
  }

  function Spend(l: Limit, b: Option<Bucket>, now: int): (r: (Bucket, bool))
    requires l.Valid()
  {
    var balance := Balance(l, Alive(b, now), now);
    var allowed := balance >= 1.0;
    (Bucket(if allowed then balance - 1.0 else balance, now, now + l.ttl), allowed)
  }

  /**
   * A request finds its bucket as it was left, refilled up to the capacity; a key past its time to live is gone and
   * found full. It is allowed, and costs a token, exactly when there is a whole one.
   */
  lemma RequestSpends(l: Limit, b: Bucket, now: int)
    requires l.Valid() && b.ts <= now
    ensures var step := Spend(l, Some(b), now); var refilled := b.tokens + l.Earned(now - b.ts);
            var found := if now < b.expiresAt && refilled < l.capacity as real then refilled else l.capacity as real;
            && (step.1 <==> found >= 1.0)
            && step.0 == Bucket(if step.1 then found - 1.0 else found, now, now + l.ttl)
            && (now >= b.expiresAt ==> step == Spend(l, None, now))
  {
  }

  // ---------------------------------------------------------------- a run of requests on one key

  predicate Ordered(times: seq<int>) { forall i, j :: 0 <= i <= j < |times| ==> times[i] <= times[j] }

  function After(l: Limit, times: seq<int>): Option<Bucket>
    requires l.Valid()
  {
    if times == [] then None else Some(Spend(l, After(l, times[..|times| - 1]), times[|times| - 1]).0)
  }

  /** Whether request `k` is allowed. */
  predicate Allowed(l: Limit, times: seq<int>, k: nat)
    requires l.Valid() && k < |times|
  {
    Spend(l, After(l, times[..k]), times[k]).1
  }

  /** How many of the requests i..k are allowed. */
  function Count(l: Limit, times: seq<int>, i: nat, k: nat): (n: nat)
    requires l.Valid() && k <= |times|
  {
    if k <= i then 0 else Count(l, times, i, k - 1) + if Allowed(l, times, k - 1) then 1 else 0
  }

  /** What the window from request `i` leaves for request `k`: a full bucket, plus refill, minus what was allowed. */
  function Room(l: Limit, times: seq<int>, i: nat, k: nat): real
    requires l.Valid() && i <= k < |times|
  {
    l.capacity as real + l.Earned(times[k] - times[i]) - Count(l, times, i, k) as real
  }

  /** The balance request `k` finds. */
  function Found(l: Limit, times: seq<int>, k: nat): real
    requires l.Valid() && k < |times|
  {
    Balance(l, Alive(After(l, times[..k]), times[k]), times[k])
  }

  lemma {:induction false} EarnedAdds(l: Limit, a: int, b: int)
    requires a >= 0 && b >= 0
    ensures l.Earned(a + b) == l.Earned(a) + l.Earned(b)
    decreases b
  {
    if b > 0 { EarnedAdds(l, a, b - 1); }
  }

  lemma {:induction false} EarnedPositive(l: Limit, a: int)
    requires l.refill > 0.0
    ensures l.Earned(a) >= 0.0
    decreases a
  {
    if a > 0 { EarnedPositive(l, a - 1); }
  }

  lemma EarnedMonotone(l: Limit, a: int, b: int)
    requires l.refill > 0.0 && 0 <= a <= b
    ensures l.Earned(a) <= l.Earned(b)
  {
    EarnedAdds(l, a, b - a);
    EarnedPositive(l, b - a);
  }

  /** What is earned is the elapsed time in seconds times the refill rate. */
  lemma {:induction false} EarnedIsProduct(l: Limit, ms: int)
    requires ms >= 0
    ensures l.Earned(ms) == (ms as real / 1000.0) * l.refill
    decreases ms
  {
    if ms > 0 {
      EarnedIsProduct(l, ms - 1);
      assert (ms as real / 1000.0) * l.refill == ((ms - 1) as real / 1000.0) * l.refill + l.refill / 1000.0;
    }
  }

  lemma QuotientTimes(a: real, b: real, x: real)
    requires b > 0.0 && x >= a / b
    ensures x * b >= a
  {
    assert (a / b) * b == a;
    assert (x - a / b) * b >= 0.0;
  }

  /** The time to live the limiter computes keeps an idle key until its bucket is full. */
  lemma LimitIsValid(capacity: nat, refill: real)
    requires refill > 0.0
    ensures LimitOf(capacity, refill).Valid()
  {
    var l := LimitOf(capacity, refill);
    var fill := capacity as real / refill;
    assert fill >= 0.0 by { QuotientPositive(capacity as real, refill); }
    assert l.ttl as real >= fill * 1000.0;
    EarnedIsProduct(l, l.ttl);
    QuotientTimes(capacity as real, refill, l.ttl as real / 1000.0);
  }

  /** It is the time that fills an empty bucket, in whole milliseconds, and a minute more. */
  lemma TtlIsFillAndAMinute(capacity: nat, refill: real)
    requires refill > 0.0
    ensures var filled := LimitOf(capacity, refill).ttl - 60000; var fill := capacity as real / refill * 1000.0;
            filled as real <= fill < filled as real + 1.0
  {
  }

  lemma QuotientPositive(a: real, b: real)
    requires a >= 0.0 && b > 0.0
    ensures a / b >= 0.0
  {
  }

  /** The bucket's balance stays between nothing and its capacity. */
  lemma {:induction false} BalanceInRange(l: Limit, times: seq<int>)
    requires l.Valid() && Ordered(times) && times != []
    ensures var b := After(l, times);
            && 0.0 <= b.value.tokens <= l.capacity as real && b.value.ts == times[|times| - 1]
            && b.value.expiresAt == b.value.ts + l.ttl
    decreases |times|
  {
    var init := times[..|times| - 1];
    if init != [] {
      BalanceInRange(l, init);
      EarnedPositive(l, times[|times| - 1] - init[|init| - 1]);
    }
  }

  /** A vanished key is as good as the bucket it held: by then that bucket was full. */
  lemma ExpiryIsUnobservable(l: Limit, times: seq<int>, now: int)
    requires l.Valid() && Ordered(times + [now])
    ensures Balance(l, Alive(After(l, times), now), now) == Balance(l, After(l, times), now)
  {
    if times != [] {
      assert (times + [now])[..|times|] == times;
      assert (times + [now])[|times| - 1] <= (times + [now])[|times|];
      BalanceInRange(l, times);
      var b := After(l, times).value;
      if now >= b.expiresAt { EarnedMonotone(l, l.ttl, now - b.ts); }
    }
  }

  /** One request to the next: what is found is what was left plus the refill, up to the capacity. */
  lemma FoundNext(l: Limit, times: seq<int>, k: nat)
    requires l.Valid() && Ordered(times) && k + 1 < |times|
    ensures Found(l, times, k + 1)
         == MinReal(l.capacity as real, Found(l, times, k) - Spent(l, times, k) + l.Earned(times[k + 1] - times[k]))
  {
    assert times[..k + 1][..k] == times[..k];
    assert times[..k + 1] + [times[k + 1]] == times[..k + 2];
    ExpiryIsUnobservable(l, times[..k + 1], times[k + 1]);
  }

  function Spent(l: Limit, times: seq<int>, k: nat): real
    requires l.Valid() && k < |times|
  {
    if Allowed(l, times, k) then 1.0 else 0.0
  }

  lemma RoomNext(l: Limit, times: seq<int>, i: nat, k: nat)
    requires l.Valid() && Ordered(times) && i <= k && k + 1 < |times|
    ensures Room(l, times, i, k + 1) == Room(l, times, i, k) - Spent(l, times, k) + l.Earned(times[k + 1] - times[k])
  {
    EarnedAdds(l, times[k] - times[i], times[k + 1] - times[k]);
  }

  lemma RoomHere(l: Limit, times: seq<int>, k: nat)
    requires l.Valid() && k < |times|
    ensures Room(l, times, k, k) == l.capacity as real
  {
  }

  /** No window ending in a request leaves less room than what it finds. */
  lemma {:induction false} FoundAtMostRoom(l: Limit, times: seq<int>, i: nat, k: nat)
    requires l.Valid() && Ordered(times) && i <= k < |times|
    ensures Found(l, times, k) <= Room(l, times, i, k)
    decreases k
  {
    if i == k {
      RoomHere(l, times, k);
    } else {
      FoundAtMostRoom(l, times, i, k - 1);
      FoundNext(l, times, k - 1);
      RoomNext(l, times, i, k - 1);
    }
  }

  /** And some window leaves exactly that. */
  lemma {:induction false} FoundIsSomeRoom(l: Limit, times: seq<int>, k: nat) returns (i: nat)
    requires l.Valid() && Ordered(times) && k < |times|
    ensures i <= k && Found(l, times, k) == Room(l, times, i, k)
    decreases k
  {
    RoomHere(l, times, k);
    i := k;
    if k == 0 {
      assert times[..0] == [];
    } else {
      var before := FoundIsSomeRoom(l, times, k - 1);
      FoundNext(l, times, k - 1);
      RoomNext(l, times, before, k - 1);
      if Found(l, times, k) != l.capacity as real { i := before; }
    }
  }

  /**
   * The bucket is the most permissive limiter that keeps its promise: it allows a request exactly when no
   * window ending in it would then hold more than the capacity and the refill over the window's length.
   */
  lemma AllowedUnlessSomeWindowIsFull(l: Limit, times: seq<int>, k: nat)
    requires l.Valid() && Ordered(times) && k < |times|
    ensures Allowed(l, times, k) <==> forall i :: 0 <= i <= k ==> Room(l, times, i, k) >= 1.0
  {
    var least := FoundIsSomeRoom(l, times, k);
    forall i | 0 <= i <= k
      ensures Found(l, times, k) <= Room(l, times, i, k)
    {
      FoundAtMostRoom(l, times, i, k);
    }
  }

  /** The requests allowed in any window never exceed the capacity plus the refill over its length. */
  lemma WindowBound(l: Limit, times: seq<int>, i: nat, k: nat)
    requires l.Valid() && Ordered(times) && i < k <= |times|
    ensures Count(l, times, i, k) as real <= l.capacity as real + l.Earned(times[k - 1] - times[i])
  {
    FoundAtMostRoom(l, times, i, k - 1);
    FoundCoversSpent(l, times, k - 1);
  }

  lemma FoundCoversSpent(l: Limit, times: seq<int>, k: nat)
    requires l.Valid() && Ordered(times) && k < |times|
    ensures Found(l, times, k) >= Spent(l, times, k)
  {
    BalanceInRange(l, times[..k + 1]);
    assert times[..k + 1][..k] == times[..k];
  }

  // ---------------------------------------------------------------- the limiter

  /** The keys of the store, each with its own bucket. */
  class RateLimiter {
    var buckets: map<string, Bucket>

    function Of(key: string): Option<Bucket>
      reads this
    {
      if key in buckets then Some(buckets[key]) else None
    }

    constructor ()
      ensures buckets == map[]
    {
      buckets := map[];
    }

    /** The script, which the server runs in one piece. */
    method Acquire(key: string, capacity: nat, refill: real, now: int) returns (allowed: bool)
      requires refill > 0.0
      modifies this
      ensures var l := LimitOf(capacity, refill);
              l.Valid() && Of(key) == Some(Spend(l, old(Of(key)), now).0) && allowed == Spend(l, old(Of(key)), now).1
      ensures forall other :: other != key ==> Of(other) == old(Of(other))
    {
      LimitIsValid(capacity, refill);
      var ttl := (capacity as real / refill * 1000.0).Floor + 60000;
      var tokens, ts := capacity as real, now;
      if key in buckets && now < buckets[key].expiresAt { tokens, ts := buckets[key].tokens, buckets[key].ts; }
      EarnedIsProduct(LimitOf(capacity, refill), Max(0, now - ts));
      tokens := MinReal(capacity as real, tokens + (Max(0, now - ts) as real / 1000.0) * refill);
      allowed := false;
      if tokens >= 1.0 {
        tokens := tokens - 1.0;
        allowed := true;
      }
      buckets := buckets[key := Bucket(tokens, now, now + ttl)];
    }

    /** Request after request on one fresh key: the answers are those of the run, whatever the other keys hold. */
    method AcquireAll(key: string, capacity: nat, refill: real, times: seq<int>) returns (answers: seq<bool>)
      requires refill > 0.0 && key !in buckets
      modifies this
      ensures LimitOf(capacity, refill).Valid()
      ensures |answers| == |times| && forall k :: 0 <= k < |times| ==>
              answers[k] == Allowed(LimitOf(capacity, refill), times, k)
    {
      LimitIsValid(capacity, refill);
      ghost var l := LimitOf(capacity, refill);
      answers := [];
      for k := 0 to |times|
        invariant Of(key) == After(l, times[..k]) && |answers| == k
        invariant forall j :: 0 <= j < k ==> answers[j] == Allowed(l, times, j)
      {
        assert times[..k + 1][..k] == times[..k];
        var allowed := Acquire(key, capacity, refill, times[k]);
        answers := answers + [allowed];
      }
    }
  }
}

/** The lockout counter (identity/infrastructure/redis_guard.py), with login's use of it. Times are seconds. */
module Lockout {
  datatype Policy = Policy(threshold: nat, lockSeconds: nat)

  /** The failure streak and the lock, each with the moment it lapses. */
  datatype Record = Record(failures: nat, failuresLapse: int, lockLapse: int)

  const CLEAN: Record := Record(0, 0, 0)

  predicate Locked(r: Record, now: int) { now < r.lockLapse }

  function Streak(r: Record, now: int): nat { if now < r.failuresLapse then r.failures else 0 }

  function Failed(p: Policy, r: Record, now: int): Record {
    var failures := Streak(r, now) + 1;
    if failures >= p.threshold then Record(0, 0, now + p.lockSeconds)
    else Record(failures, now + p.lockSeconds, r.lockLapse)
  }

  datatype Attempt = Attempt(at: int, correct: bool)

  /** Login on one account: a locked account is refused before the password is looked at. */
  function Login(p: Policy, r: Record, a: Attempt): Record {
    if Locked(r, a.at) then r
    else if a.correct then CLEAN
    else Failed(p, r, a.at)
  }

  function After(p: Policy, r: Record, attempts: seq<Attempt>): Record {
    if attempts == [] then r else Login(p, After(p, r, attempts[..|attempts| - 1]), attempts[|attempts| - 1])
  }

  /** Whether the password of attempt `k` is looked at. */
  predicate Checked(p: Policy, r: Record, attempts: seq<Attempt>, k: nat)
    requires k < |attempts|
  {
    !Locked(After(p, r, attempts[..k]), attempts[k].at)
  }

  function Guesses(p: Policy, r: Record, attempts: seq<Attempt>, i: nat, k: nat): nat
    requires k <= |attempts|
  {
    if k <= i then 0 else Guesses(p, r, attempts, i, k - 1) + if Checked(p, r, attempts, k - 1) then 1 else 0
  }

  predicate Ordered(attempts: seq<Attempt>) {
    forall i, j :: 0 <= i <= j < |attempts| ==> attempts[i].at <= attempts[j].at
  }

  predicate Below(p: Policy, r: Record) { r.failures < p.threshold }

  /**
   * Where a window of wrong guesses from attempt `i` leaves the account: locked past the window, or short of the
   * threshold.
   */
  predicate Guarded(p: Policy, r: Record, guesses: nat, from: int) {
    && guesses <= p.threshold
    && (|| r.lockLapse >= from + p.lockSeconds
        || (guesses <= r.failures && (guesses > 0 ==> r.failuresLapse >= from + p.lockSeconds)))
  }

  lemma {:induction false} BelowThreshold(p: Policy, r: Record, attempts: seq<Attempt>)
    requires p.threshold >= 1 && Below(p, r)
    ensures Below(p, After(p, r, attempts))
    decreases |attempts|
  {
    if attempts != [] { BelowThreshold(p, r, attempts[..|attempts| - 1]); }
  }

  lemma GuardedStep(p: Policy, r: Record, a: Attempt, guesses: nat, from: int)
    requires p.threshold >= 1 && Below(p, r) && Guarded(p, r, guesses, from)
    requires from <= a.at < from + p.lockSeconds && !a.correct
    ensures Guarded(p, Login(p, r, a), guesses + if Locked(r, a.at) then 0 else 1, from)
  {
  }

  lemma {:induction false} WindowGuarded(p: Policy, r: Record, attempts: seq<Attempt>, i: nat, k: nat)
    requires p.threshold >= 1 && Below(p, r) && Ordered(attempts) && i <= k <= |attempts| && i < |attempts|
    requires forall j :: i <= j < k ==> !attempts[j].correct && attempts[j].at < attempts[i].at + p.lockSeconds
    ensures Guarded(p, After(p, r, attempts[..k]), Guesses(p, r, attempts, i, k), attempts[i].at)
    decreases k
  {
    if i < k {
      WindowGuarded(p, r, attempts, i, k - 1);
      BelowThreshold(p, r, attempts[..k - 1]);
      assert attempts[..k][..k - 1] == attempts[..k - 1];
      GuardedStep(p, After(p, r, attempts[..k - 1]), attempts[k - 1], Guesses(p, r, attempts, i, k - 1),
                  attempts[i].at);
    }
  }

  /**
   * Between two successful logins, at most `threshold` passwords are looked at in any stretch of attempts
   * shorter than the lock, whatever came before.
   */
  lemma GuessBound(p: Policy, attempts: seq<Attempt>, i: nat, k: nat)
    requires p.threshold >= 1 && Ordered(attempts) && i < k <= |attempts|
    requires forall j :: i <= j < k ==> !attempts[j].correct
    requires attempts[k - 1].at < attempts[i].at + p.lockSeconds
    ensures Guesses(p, CLEAN, attempts, i, k) <= p.threshold
  {
    WindowGuarded(p, CLEAN, attempts, i, k);
  }

  /** Wrong passwords, each before the streak of the one before has lapsed. */
  predicate Streaking(p: Policy, attempts: seq<Attempt>) {
    && (forall i :: 0 <= i < |attempts| ==> !attempts[i].correct)
    && forall i :: 0 < i < |attempts| ==> attempts[i - 1].at <= attempts[i].at < attempts[i - 1].at + p.lockSeconds
  }

  /**
   * From a clean account, a streak of wrong passwords locks it at the threshold and not before, for the full lock
   * from the last of them; shorter streaks are counted.
   */
  lemma {:induction false} LocksAtThreshold(p: Policy, attempts: seq<Attempt>)
    requires 1 <= |attempts| <= p.threshold && Streaking(p, attempts) && attempts[0].at >= 0
    ensures var r, last := After(p, CLEAN, attempts), attempts[|attempts| - 1].at;
            && last >= 0
            && if |attempts| < p.threshold then r == Record(|attempts|, last + p.lockSeconds, 0)
               else r == Record(0, 0, last + p.lockSeconds)
                    && forall now :: Locked(r, now) <==> now < last + p.lockSeconds
    decreases |attempts|
  {
    var before, last := attempts[..|attempts| - 1], attempts[|attempts| - 1];
    if before == [] {
      assert After(p, CLEAN, before) == CLEAN;
    } else {
      LocksAtThreshold(p, before);
      assert attempts[|attempts| - 2] == before[|before| - 1];
    }
  }

  /** A streak that has lapsed counts no more: the next wrong password is the first of a new one. */
  lemma StreakLapses(p: Policy, r: Record, at: int)
    requires !Locked(r, at) && p.threshold > 1
    ensures var r' := Login(p, r, Attempt(at, false));
            if at >= r.failuresLapse then r' == Record(1, at + p.lockSeconds, r.lockLapse)
            else if r.failures + 1 < p.threshold then r' == Record(r.failures + 1, at + p.lockSeconds, r.lockLapse)
            else r' == Record(0, 0, at + p.lockSeconds)
  {
  }

  /** A correct password on an account that is not locked clears the streak; on a locked one it changes nothing. */
  lemma SuccessClears(p: Policy, r: Record, at: int)
    ensures Login(p, r, Attempt(at, true)) == if Locked(r, at) then r else Record(0, 0, 0)
  {
  }

  /** The store's keys for one account. */
  class LockoutStore {
    var failures: map<string, (nat, int)>
    var locks: map<string, int>

    function Of(key: string): Record
      reads this
    {
      var f := if key in failures then failures[key] else (0, 0);
      Record(f.0, f.1, if key in locks then locks[key] else 0)
    }

    method RegisterFailure(p: Policy, key: string, now: int) returns (count: nat)
      modifies this
      ensures count == Streak(old(Of(key)), now) + 1
      ensures Of(key) == Failed(p, old(Of(key)), now)
      ensures forall other :: other != key ==> Of(other) == old(Of(other))
    {
      count := if key in failures && now < failures[key].1 then failures[key].0 + 1 else 1;
      failures := failures[key := (count, now + p.lockSeconds)];
      if count >= p.threshold {
        locks := locks[key := now + p.lockSeconds];
        failures := failures - {key};
      }
    }

    method Reset(key: string)
      modifies this
      ensures Of(key) == CLEAN
      ensures forall other :: other != key ==> Of(other) == old(Of(other))
    {
      failures, locks := failures - {key}, locks - {key};
    }
  }
}
