/**
 The order rate limiter: the increment-with-expiration script, the check built on it, and how many
 placements it can let through in any stretch of time. Times are milliseconds.
 */
module RateLimit {
  import opened Base

  /** A Redis counter key and its expiry time, if it has one. */
  datatype Key = Absent | Present(count: nat, expires: Option<int>)

  predicate Live(k: Key, now: int) { k.Present? && (k.expires.Some? ==> now < k.expires.value) }

  /** The script: INCR, then PEXPIRE when the count is 1 or the key has no expiry. */
  function Incremented(k: Key, now: int, window: int): (r: Key)
    ensures r.Present? && r.count >= 1
  {
    var count := if Live(k, now) then k.count + 1 else 1;
    var expires := if Live(k, now) then k.expires else None;
    Present(count, if window > 0 && (count == 1 || expires.None?) then Some(now + window) else expires)
  }

  datatype Config = Config(limit: int, window: int)

  /** One check at `time`; `outcome` is the fate of its Redis command. */
  datatype Check = Check(user: string, time: int, outcome: Outcome)

  function After(c: Config, k: Key, check: Check): Key {
    if c.limit <= 0 || check.outcome == Lost then k else Incremented(k, check.time, c.window)
  }

  /** Without a limit, or without an answer from Redis, the placement goes through. */
  predicate Allowed(c: Config, k: Key, check: Check) {
    c.limit <= 0 || check.outcome != Fine || Incremented(k, check.time, c.window).count <= c.limit
  }

  /** How many of the checks in the closed interval [a, b] are let through, one key. */
  function AllowedIn(c: Config, k: Key, checks: seq<Check>, a: int, b: int): nat
    decreases |checks|
  {
    if checks == [] then 0
    else
      (if a <= checks[0].time <= b && Allowed(c, k, checks[0]) then 1 else 0)
      + AllowedIn(c, After(c, k, checks[0]), checks[1..], a, b)
  }

  predicate InOrder(checks: seq<Check>) { forall i, j :: 0 <= i < j < |checks| ==> checks[i].time <= checks[j].time }

  predicate Answered(checks: seq<Check>) { forall i :: 0 <= i < |checks| ==> checks[i].outcome == Fine }

  /** How many checks in [a, b] got no answer from Redis. */
  function Unanswered(checks: seq<Check>, a: int, b: int): nat {
    if checks == [] then 0
    else (if a <= checks[0].time <= b && checks[0].outcome != Fine then 1 else 0) + Unanswered(checks[1..], a, b)
  }

  // ------------------------------------------------------------------ one key

  /** How many windows, one after the other, can begin in [start, end]. */
  function Windows(start: int, end: int, window: int): nat
    requires window > 0
    decreases end - start
  {
    if end < start then 0 else 1 + Windows(start + window, end, window)
  }

  lemma {:induction false} WindowsShrink(a: int, b: int, end: int, window: int)
    requires window > 0 && a <= b
    ensures Windows(b, end, window) <= Windows(a, end, window)
    decreases end - b
  {
    if b <= end { WindowsShrink(a + window, b + window, end, window); }
  }

  function Left(c: Config, count: nat): nat { if count < c.limit then c.limit - count else 0 }

  /** What the windows that can begin in [start, end] let through together. */
  function Quota(c: Config, start: int, end: int): int
    requires c.window > 0
  {
    c.limit * Windows(start, end, c.window)
  }

  /** What can still be let through up to `end`, from time `now` on. */
  function Budget(c: Config, k: Key, now: int, end: int): int
    requires c.window > 0
  {
    if end < now then 0
    else if !Live(k, now) then Quota(c, now, end)
    else if k.expires.Some? && k.count >= 1 then Left(c, k.count) + Quota(c, k.expires.value, end)
    else Left(c, k.count) + Quota(c, now + c.window, end)
  }

  lemma Times(limit: int, x: nat, y: nat)
    requires limit > 0 && x <= y
    ensures 0 <= limit * x <= limit * y
  {
    assert limit * y == limit * x + limit * (y - x);
  }

  lemma Worth(c: Config, start: int, later: int, end: int)
    requires c.window > 0 && c.limit > 0 && start <= later
    ensures 0 <= Quota(c, later, end) <= Quota(c, start, end)
  {
    WindowsShrink(start, later, end, c.window);
    Times(c.limit, Windows(later, end, c.window), Windows(start, end, c.window));
  }

  lemma QuotaNext(c: Config, start: int, end: int)
    requires c.window > 0 && start <= end
    ensures Quota(c, start, end) == c.limit + Quota(c, start + c.window, end)
  {
  }

  lemma BudgetIsNatural(c: Config, k: Key, now: int, end: int)
    requires c.window > 0 && c.limit > 0
    ensures Budget(c, k, now, end) >= 0
  {
    Worth(c, now, now, end);
    Worth(c, now + c.window, now + c.window, end);
    if k.Present? && k.expires.Some? { Worth(c, k.expires.value, k.expires.value, end); }
  }

  lemma BudgetShrinks(c: Config, k: Key, now: int, later: int, end: int)
    requires c.window > 0 && c.limit > 0 && now <= later
    ensures 0 <= Budget(c, k, later, end) <= Budget(c, k, now, end)
  {
    BudgetIsNatural(c, k, now, end);
    BudgetIsNatural(c, k, later, end);
    if later <= end {
      var w := c.window;
      Worth(c, now, later, end);
      Worth(c, now + w, later + w, end);
      assert Quota(c, now, end) == c.limit + Quota(c, now + w, end) by { QuotaNext(c, now, end); }
      if Live(k, now) && k.expires.Some? && k.expires.value <= later { Worth(c, k.expires.value, later, end); }
    }
  }

  /** An answered check that is let through uses up one of the budget; an unanswered one never adds to it. */
  lemma CheckSpends(c: Config, k: Key, check: Check, end: int)
    requires c.window > 0 && c.limit > 0
    ensures (if check.time <= end && check.outcome == Fine && Allowed(c, k, check) then 1 else 0)
            + Budget(c, After(c, k, check), check.time, end)
            <= Budget(c, k, check.time, end)
  {
    var t, w := check.time, c.window;
    if t <= end {
      assert c.limit * Windows(t, end, w) == c.limit + c.limit * Windows(t + w, end, w);
    }
  }

  lemma {:induction false} WithinBudget(c: Config, k: Key, now: int, checks: seq<Check>, a: int, b: int)
    requires c.window > 0 && c.limit > 0 && InOrder(checks)
    requires checks != [] ==> now <= checks[0].time
    ensures AllowedIn(c, k, checks, a, b) <= Budget(c, k, now, b) + Unanswered(checks, a, b)
    decreases |checks|
  {
    if checks == [] {
      BudgetShrinks(c, k, now, now, b);
    } else {
      var t := checks[0].time;
      BudgetShrinks(c, k, now, t, b);
      CheckSpends(c, k, checks[0], b);
      WithinBudget(c, After(c, k, checks[0]), t, checks[1..], a, b);
    }
  }

  lemma BudgetAtStart(c: Config, k: Key, a: int, b: int)
    requires c.window > 0 && c.limit > 0 && a <= b
    ensures Budget(c, k, a, b) <= c.limit * (1 + Windows(a + 1, b, c.window))
  {
    var w := c.window;
    assert c.limit * (1 + Windows(a + 1, b, w)) == c.limit + c.limit * Windows(a + 1, b, w);
    assert c.limit * Windows(a, b, w) == c.limit + c.limit * Windows(a + w, b, w);
    WindowsShrink(a + 1, a + w, b, w);
    Times(c.limit, Windows(a + w, b, w), Windows(a + 1, b, w));
    if Live(k, a) && k.expires.Some? {
      WindowsShrink(a + 1, k.expires.value, b, w);
      Times(c.limit, Windows(k.expires.value, b, w), Windows(a + 1, b, w));
    }
  }

  /**
   Whatever the key was before, [a, b] gets at most the limit for each window that begins after a, and
   once more, and one for each check that Redis did not answer.
   */
  lemma {:induction false} AllowedBound(c: Config, k: Key, checks: seq<Check>, a: int, b: int)
    requires c.window > 0 && c.limit > 0 && InOrder(checks) && a <= b
    ensures AllowedIn(c, k, checks, a, b) <= c.limit * (1 + Windows(a + 1, b, c.window)) + Unanswered(checks, a, b)
    decreases |checks|
  {
    if checks != [] && checks[0].time < a {
      AllowedBound(c, After(c, k, checks[0]), checks[1..], a, b);
    } else {
      WithinBudget(c, k, a, checks, a, b);
      BudgetAtStart(c, k, a, b);
    }
  }

  // ------------------------------------------------------------------ the bound is met

  function Burst(user: string, time: int, n: nat): seq<Check> { seq(n, i => Check(user, time, Fine)) }

  lemma {:induction false} BurstAllowed(c: Config, k: Key, user: string, t: int, n: nat, rest: seq<Check>, a: int,
          b: int)
    requires Live(k, t) && k.expires.Some? && k.count >= 1 && k.count + n <= c.limit && a <= t <= b
    ensures AllowedIn(c, k, Burst(user, t, n) + rest, a, b)
            == n + AllowedIn(c, Present(k.count + n, k.expires), rest, a, b)
    decreases n
  {
    var checks := Burst(user, t, n) + rest;
    if n == 0 {
      assert checks == rest;
    } else {
      var first := Check(user, t, Fine);
      assert checks[0] == first && checks[1..] == Burst(user, t, n - 1) + rest;
      assert After(c, k, first) == Present(k.count + 1, k.expires);
      BurstAllowed(c, Present(k.count + 1, k.expires), user, t, n - 1, rest, a, b);
    }
  }

  lemma FreshBurst(c: Config, k: Key, user: string, t: int, rest: seq<Check>, a: int, b: int)
    requires c.window > 0 && c.limit > 0 && !Live(k, t) && a <= t <= b
    ensures AllowedIn(c, k, Burst(user, t, c.limit) + rest, a, b)
            == c.limit + AllowedIn(c, Present(c.limit, Some(t + c.window)), rest, a, b)
  {
    var checks := Burst(user, t, c.limit) + rest;
    var first := Check(user, t, Fine);
    assert checks[0] == first && checks[1..] == Burst(user, t, c.limit - 1) + rest;
    assert After(c, k, first) == Present(1, Some(t + c.window));
    BurstAllowed(c, Present(1, Some(t + c.window)), user, t, c.limit - 1, rest, a, b);
  }

  /** n checks whose command never reached Redis. */
  function Silent(user: string, time: int, n: nat): seq<Check> { seq(n, i => Check(user, time, Lost)) }

  lemma {:induction false} UnansweredAdd(c: Config, k: Key, user: string, t: int, n: nat, rest: seq<Check>, a: int,
          b: int)
    requires c.limit > 0 && a <= t <= b
    ensures AllowedIn(c, k, Silent(user, t, n) + rest, a, b) == n + AllowedIn(c, k, rest, a, b)
    decreases n
  {
    var checks := Silent(user, t, n) + rest;
    if n == 0 {
      assert checks == rest;
    } else {
      assert checks[0] == Check(user, t, Lost) && checks[1..] == Silent(user, t, n - 1) + rest;
      UnansweredAdd(c, k, user, t, n - 1, rest, a, b);
    }
  }

  /**
   The bound is met: a burst as the window opens, another as it closes, and any number of unanswered checks
   all get through within one window's length.
   */
  lemma TwiceIsReached(c: Config, user: string, t: int, n: nat)
    requires c.window > 0 && c.limit > 0
    ensures var b := t + c.window;
            AllowedIn(c, Absent, Burst(user, t, c.limit) + (Silent(user, b, n) + Burst(user, b, c.limit)), t, b)
            == 2 * c.limit + n
  {
    var b := t + c.window;
    var used := Present(c.limit, Some(b));
    FreshBurst(c, Absent, user, t, Silent(user, b, n) + Burst(user, b, c.limit), t, b);
    UnansweredAdd(c, used, user, b, n, Burst(user, b, c.limit), t, b);
    FreshBurst(c, used, user, b, [], t, b);
    assert Burst(user, b, c.limit) + [] == Burst(user, b, c.limit);
  }

  /** With no window (or one under a millisecond) the key never expires: the limit is for ever. */
  lemma {:induction false} NoWindowNeverRecovers(c: Config, k: Key, checks: seq<Check>, a: int, b: int)
    requires c.window <= 0 && c.limit > 0 && Answered(checks) && (k.Absent? || k.expires.None?)
    ensures AllowedIn(c, k, checks, a, b) <= Left(c, if k.Absent? then 0 else k.count)
    decreases |checks|
  {
    if checks != [] { NoWindowNeverRecovers(c, After(c, k, checks[0]), checks[1..], a, b); }
  }

  /** Every check that Redis does not answer goes through, so the unanswered ones in the bound are not slack. */
  lemma {:induction false} UnansweredGetThrough(c: Config, k: Key, checks: seq<Check>, a: int, b: int)
    ensures Unanswered(checks, a, b) <= AllowedIn(c, k, checks, a, b)
    decreases |checks|
  {
    if checks != [] { UnansweredGetThrough(c, After(c, k, checks[0]), checks[1..], a, b); }
  }

  /** A key as the script leaves it when it made the key itself, or found it without an expiry. */
  ghost predicate LeftByScript(c: Config, k: Key, at: int) {
    exists before: Key :: (before.Absent? || before.expires.None?) && k == Incremented(before, at, c.window)
  }

  predicate LetThroughAt(c: Config, k: Key, user: string, time: int) { Allowed(c, k, Check(user, time, Fine)) }

  /** An exhausted user is let through again at some time exactly when the window is positive. */
  lemma RecoversExactly(c: Config, k: Key, user: string, at: int)
    requires c.limit > 0 && LeftByScript(c, k, at) && k.count >= c.limit
    ensures (exists time :: at <= time && LetThroughAt(c, k, user, time)) <==> c.window > 0
    ensures c.window > 0 ==> LetThroughAt(c, k, user, at + c.window)
  {
    if c.window > 0 { assert LetThroughAt(c, k, user, at + c.window); }
  }

  // ------------------------------------------------------------------ all users

  function LimitKey(user: string): string { "rate-limit:orders:" + user }

  lemma LimitKeyInjective(u: string, v: string)
    requires LimitKey(u) == LimitKey(v)
    ensures u == v
  {
    assert u == LimitKey(u)[18..] && v == LimitKey(v)[18..];
  }

  function KeyAt(keys: map<string, Key>, name: string): Key { if name in keys then keys[name] else Absent }

  function AllAfter(c: Config, keys: map<string, Key>, check: Check): map<string, Key> {
    keys[LimitKey(check.user) := After(c, KeyAt(keys, LimitKey(check.user)), check)]
  }

  /** How many of one user's checks in [a, b] are let through, with everyone's checks interleaved. */
  function AllowedFor(c: Config, keys: map<string, Key>, checks: seq<Check>, user: string, a: int, b: int): nat
    decreases |checks|
  {
    if checks == [] then 0
    else
      var x := checks[0];
      (if x.user == user && a <= x.time <= b && Allowed(c, KeyAt(keys, LimitKey(user)), x) then 1 else 0)
      + AllowedFor(c, AllAfter(c, keys, x), checks[1..], user, a, b)
  }

  function ChecksOf(checks: seq<Check>, user: string): (r: seq<Check>)
    ensures forall i :: 0 <= i < |r| ==> r[i] in checks && r[i].user == user
  {
    if checks == [] then []
    else (if checks[0].user == user then [checks[0]] else []) + ChecksOf(checks[1..], user)
  }

  lemma {:induction false} ChecksOfInOrder(checks: seq<Check>, user: string)
    requires InOrder(checks)
    ensures InOrder(ChecksOf(checks, user))
  {
    if checks != [] {
      ChecksOfInOrder(checks[1..], user);
      forall x | x in ChecksOf(checks[1..], user) ensures checks[0].time <= x.time {
        var i :| 0 <= i < |checks[1..]| && checks[1..][i] == x;
        assert x == checks[i + 1];
      }
    }
  }

  /** Users do not use up each other's limit. */
  lemma {:induction false} UsersAreSeparate(c: Config, keys: map<string, Key>, checks: seq<Check>, user: string,
          a: int, b: int)
    ensures AllowedFor(c, keys, checks, user, a, b)
            == AllowedIn(c, KeyAt(keys, LimitKey(user)), ChecksOf(checks, user), a, b)
    decreases |checks|
  {
    if checks != [] {
      var x := checks[0];
      UsersAreSeparate(c, AllAfter(c, keys, x), checks[1..], user, a, b);
      var mine, rest := ChecksOf(checks, user), ChecksOf(checks[1..], user);
      if x.user == user {
        assert mine == [x] + rest && mine[0] == x && mine[1..] == rest;
      } else {
        assert LimitKey(x.user) != LimitKey(user) by {
          if LimitKey(x.user) == LimitKey(user) { LimitKeyInjective(x.user, user); }
        }
        assert mine == rest;
      }
    }
  }

  /**
   Any stretch of one window's length lets through, for a user, at most twice the limit and that user's
   own checks that Redis did not answer; nobody else's failures matter.
   */
  lemma OneWindowBound(c: Config, keys: map<string, Key>, checks: seq<Check>, user: string, a: int)
    requires c.window > 0 && c.limit > 0 && InOrder(checks)
    ensures AllowedFor(c, keys, checks, user, a, a + c.window)
            <= 2 * c.limit + Unanswered(ChecksOf(checks, user), a, a + c.window)
  {
    var mine, b := ChecksOf(checks, user), a + c.window;
    UsersAreSeparate(c, keys, checks, user, a, b);
    ChecksOfInOrder(checks, user);
    AllowedBound(c, KeyAt(keys, LimitKey(user)), mine, a, b);
    assert Windows(a + 1, b, c.window) == 1 + Windows(a + 1 + c.window, b, c.window) == 1;
  }

  // ------------------------------------------------------------------ the code

  /** The counters, updated in place; `faults` counts the calls that failed or reported an error. */
  class Limiter {
    const config: Config
    ghost var faults: nat
    var keys: map<string, Key>

    constructor (c: Config)
      ensures config == c && keys == map[]
    {
      config, keys, faults := c, map[], 0;
    }

    /** The script's commands; atomic, so a lost call did none of them. */
    method IncrementWithExpiration(name: string, window: int, now: int) returns (count: Option<nat>, outcome: Outcome)
      modifies this
      ensures keys == if outcome == Lost then old(keys)
          else old(keys)[name := Incremented(KeyAt(old(keys), name), now, window)]
      ensures count == if outcome == Fine then Some(keys[name].count) else None
      ensures faults == old(faults) + if outcome == Fine then 0 else 1
    {
      var lost, unsure := *, *;
      outcome := if lost then Lost else if unsure then Unsure else Fine;
      if outcome != Fine { faults := faults + 1; }
      count := None;
      if outcome == Lost { return; }
      var k := KeyAt(keys, name);
      k := if Live(k, now) then k.(count := k.count + 1) else Present(1, None);
      if window > 0 {
        var hasTtl := k.expires.Some?;
        if k.count == 1 || !hasTtl { k := k.(expires := Some(now + window)); }
      }
      keys := keys[name := k];
      if outcome == Fine { count := Some(k.count); }
    }

    method AllowOrderPlacement(user: string, now: int) returns (allowed: bool, ghost check: Check)
      modifies this
      ensures check.user == user && check.time == now
      ensures faults == old(faults) + if check.outcome == Fine then 0 else 1
      ensures !allowed ==>
                var k := KeyAt(keys, LimitKey(user)); k.Present? && k.count > config.limit > 0
      ensures allowed == Allowed(config, KeyAt(old(keys), LimitKey(user)), check)
      ensures config.limit > 0 && check.outcome != Lost ==> keys == AllAfter(config, old(keys), check)
      ensures config.limit <= 0 || check.outcome == Lost ==> keys == old(keys)
    {
      check := Check(user, now, Fine);
      if config.limit <= 0 { return true, check; }
      var count, outcome := IncrementWithExpiration(LimitKey(user), config.window, now);
      check := Check(user, now, outcome);
      allowed := count.None? || count.value <= config.limit;
    }
  }
}
