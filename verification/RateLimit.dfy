/**
 The sliding-window limiter: a script that prunes a sorted set of admission times, counts what is left
 and admits or refuses. Compared with a limiter that never forgets.
 */
module RateLimit {
  import opened Seqs

  /** `limit` admissions in any `window` seconds. */
  datatype Rule = Rule(limit: nat, window: nat)

  /** Every rule of the table admits something. */
  predicate GoodRule(rule: Rule) { rule.limit >= 1 && rule.window >= 1 }

  predicate Ascending(s: seq<real>) { forall i, j :: 0 <= i < j < |s| ==> s[i] <= s[j] }

  /** How many of the earliest times are at or before `t`. */
  function Until(s: seq<real>, t: real): (k: nat)
    ensures k <= |s|
    ensures forall i :: 0 <= i < k ==> s[i] <= t
    ensures k < |s| ==> s[k] > t
  {
    if s == [] || s[0] > t then 0 else 1 + Until(s[1..], t)
  }

  function Ceil(x: real): int { -((-x).Floor) }

  /** `math.max(1, math.ceil(window - (now - oldest)))` */
  function RetryAfter(rule: Rule, now: real, oldest: real): (n: nat)
    ensures n >= 1
  {
    Max(1, Ceil(rule.window as real - (now - oldest)))
  }

  /** The key expires `window` seconds after the last admission. */
  function Surviving(rule: Rule, log: seq<real>, now: real): seq<real> {
    if log != [] && log[|log| - 1] + rule.window as real <= now then [] else log
  }

  function Pruned(rule: Rule, log: seq<real>, now: real): seq<real> {
    var kept := Surviving(rule, log, now);
    kept[Until(kept, now - rule.window as real)..]
  }

  /** 0 admits. */
  function Hit(rule: Rule, log: seq<real>, now: real): (seq<real>, nat)
    requires GoodRule(rule)
  {
    var live := Pruned(rule, log, now);
    if |live| >= rule.limit then (live, RetryAfter(rule, now, live[0])) else (live + [now], 0)
  }

  class Bucket {
    const rule: Rule
    var log: seq<real>

    constructor (rule: Rule)
      ensures this.rule == rule && log == []
    {
      this.rule, log := rule, [];
    }

    method Take(now: real) returns (retryAfter: nat)
      requires GoodRule(rule)
      modifies this
      ensures (log, retryAfter) == Hit(rule, old(log), now)
    {
      if log != [] && log[|log| - 1] + rule.window as real <= now { log := []; }
      log := log[Until(log, now - rule.window as real)..];
      if |log| >= rule.limit { return RetryAfter(rule, now, log[0]); }
      log := log + [now];
      retryAfter := 0;
    }
  }

  // ---------------------------------------------------------------- a limiter that never forgets

  /** Admissions in (now - window, now], for ascending times up to now. */
  function Recent(rule: Rule, all: seq<real>, now: real): nat {
    |all| - Until(all, now - rule.window as real)
  }

  datatype State = State(log: seq<real>, all: seq<real>, admitted: seq<bool>)

  function Called(rule: Rule, s: State, now: real): State
    requires GoodRule(rule)
  {
    var (log, wait) := Hit(rule, s.log, now);
    State(log, if wait == 0 then s.all + [now] else s.all, s.admitted + [wait == 0])
  }

  function Run(rule: Rule, times: seq<real>): State
    requires GoodRule(rule)
  {
    if times == [] then State([], [], []) else Called(rule, Run(rule, times[..|times| - 1]), times[|times| - 1])
  }

  /** The log is the end of the history; what it misses lies at or before `cut`. */
  ghost predicate EndOf(all: seq<real>, log: seq<real>, cut: real) {
    |log| <= |all| && log == all[|all| - |log|..] && forall i :: 0 <= i < |all| - |log| ==> all[i] <= cut
  }

  /** Admissions `limit` apart are a window apart. */
  ghost predicate Spread(rule: Rule, all: seq<real>) {
    forall i :: 0 <= i < |all| - rule.limit ==> all[i] + rule.window as real <= all[i + rule.limit]
  }

  ghost predicate Inv(rule: Rule, s: State, now: real) {
    && Ascending(s.all) && (s.all != [] ==> s.all[|s.all| - 1] <= now)
    && EndOf(s.all, s.log, now - rule.window as real) && |s.log| <= rule.limit && Spread(rule, s.all)
  }

  lemma EndLater(all: seq<real>, log: seq<real>, cut: real, later: real)
    requires EndOf(all, log, cut) && cut <= later
    ensures EndOf(all, log, later)
  {
  }

  /** Pruning the log leaves the recent part of the whole history. */
  lemma PrunedEnd(rule: Rule, all: seq<real>, log: seq<real>, later: real)
    requires Ascending(all) && EndOf(all, log, later - rule.window as real)
    ensures Pruned(rule, log, later) == all[Until(all, later - rule.window as real)..]
  {
  }

  lemma PrunedIsShorter(rule: Rule, log: seq<real>, later: real)
    ensures |Pruned(rule, log, later)| <= |log|
  {
  }

  lemma PrunedIsRecent(rule: Rule, s: State, now: real, later: real)
    requires Inv(rule, s, now) && now <= later
    ensures Pruned(rule, s.log, later) == s.all[Until(s.all, later - rule.window as real)..]
    ensures Recent(rule, s.all, later) <= |s.log|
  {
    hide Until, Ascending, Spread, EndOf, Pruned;
    EndLater(s.all, s.log, now - rule.window as real, later - rule.window as real);
    PrunedEnd(rule, s.all, s.log, later);
    PrunedIsShorter(rule, s.log, later);
  }

  lemma RecentIsEnd(all: seq<real>, cut: real, now: real)
    ensures EndOf(all, all[Until(all, cut)..], cut)
    ensures EndOf(all + [now], all[Until(all, cut)..] + [now], cut)
  {
  }

  lemma Admitted(rule: Rule, all: seq<real>, now: real)
    requires GoodRule(rule) && Ascending(all) && Spread(rule, all) && (all != [] ==> all[|all| - 1] <= now)
    requires Recent(rule, all, now) < rule.limit
    ensures Ascending(all + [now]) && Spread(rule, all + [now])
  {
  }

  lemma CalledIs(rule: Rule, s: State, now: real, live: seq<real>)
    requires GoodRule(rule) && live == Pruned(rule, s.log, now)
    ensures Called(rule, s, now)
         == if |live| < rule.limit then State(live + [now], s.all + [now], s.admitted + [true])
            else State(live, s.all, s.admitted + [false])
  {
    hide Pruned, RetryAfter;
  }

  lemma LiveIs(rule: Rule, s: State, now: real, later: real) returns (live: seq<real>)
    requires Inv(rule, s, now) && now <= later
    ensures live == Pruned(rule, s.log, later) && |live| == Recent(rule, s.all, later) && |live| <= |s.log|
    ensures EndOf(s.all, live, later - rule.window as real)
    ensures EndOf(s.all + [later], live + [later], later - rule.window as real)
  {
    hide Until, Ascending, Spread, Pruned, EndOf;
    live := Pruned(rule, s.log, later);
    PrunedIsRecent(rule, s, now, later);
    RecentIsEnd(s.all, later - rule.window as real, later);
  }

  lemma CalledKeeps(rule: Rule, s: State, now: real, later: real)
    requires GoodRule(rule) && Inv(rule, s, now) && now <= later
    ensures Inv(rule, Called(rule, s, later), later)
    ensures Called(rule, s, later).admitted == s.admitted + [Recent(rule, s.all, later) < rule.limit]
  {
    hide Called, Ascending, Spread, Pruned, EndOf, Recent;
    var live := LiveIs(rule, s, now, later);
    CalledIs(rule, s, later, live);
    if |live| < rule.limit { Admitted(rule, s.all, later); }
  }

  /** The n-th answer of the limiter that keeps every admission. */
  ghost predicate NeverForgets(rule: Rule, times: seq<real>, n: nat)
    requires GoodRule(rule) && n < |times|
  {
    Recent(rule, Run(rule, times[..n]).all, times[n]) < rule.limit
  }

  lemma {:induction false} RunKeeps(rule: Rule, times: seq<real>, now: real)
    requires GoodRule(rule) && Ascending(times) && (times != [] ==> times[|times| - 1] <= now)
    ensures Inv(rule, Run(rule, times), now) && |Run(rule, times).admitted| == |times|
    ensures forall n :: 0 <= n < |times| ==> Run(rule, times).admitted[n] == NeverForgets(rule, times, n)
  {
    hide Inv, Recent, Called;
    if times == [] {
      StartInv(rule, now);
    } else {
      var n := |times| - 1;
      var rest := times[..n];
      RunKeeps(rule, rest, times[n]);
      CalledKeeps(rule, Run(rule, rest), times[n], times[n]);
      InvLater(rule, Run(rule, times), times[n], now);
      forall k | 0 <= k < |times| ensures Run(rule, times).admitted[k] == NeverForgets(rule, times, k) {
        if k < n { assert rest[..k] == times[..k]; }
      }
    }
  }

  lemma StartInv(rule: Rule, now: real)
    ensures Inv(rule, State([], [], []), now)
  {
  }

  lemma InvLater(rule: Rule, s: State, now: real, later: real)
    requires Inv(rule, s, now) && now <= later
    ensures Inv(rule, s, later)
  {
  }

  // ---------------------------------------------------------------- what it promises

  /**
   For calls at any non-decreasing times, the pruned set admits and refuses exactly as the whole history
   of admissions would.
   */
  lemma PruningIsInvisible(rule: Rule, times: seq<real>, n: nat)
    requires GoodRule(rule) && Ascending(times) && n < |times|
    ensures |Run(rule, times).admitted| == |times|
    ensures Run(rule, times).admitted[n] <==> NeverForgets(rule, times, n)
  {
    RunKeeps(rule, times, times[|times| - 1]);
  }

  /** Admissions in (t - window, t]. */
  function InWindow(rule: Rule, all: seq<real>, t: real): nat {
    if all == [] then 0
    else
      var a := all[|all| - 1];
      InWindow(rule, all[..|all| - 1], t) + if t - rule.window as real < a <= t then 1 else 0
  }

  /** Times that all lie outside the window count nothing. */
  lemma {:induction false} NoneInWindow(rule: Rule, all: seq<real>, t: real)
    requires forall i :: 0 <= i < |all| ==> all[i] <= t - rule.window as real
    ensures InWindow(rule, all, t) == 0
  {
    if all != [] { NoneInWindow(rule, all[..|all| - 1], t); }
  }

  /** The count the limiter compares is the number of admissions in the window that ends now. */
  lemma {:induction false} RecentIsInWindow(rule: Rule, all: seq<real>, now: real)
    requires Ascending(all) && (all != [] ==> all[|all| - 1] <= now)
    ensures Recent(rule, all, now) == InWindow(rule, all, now)
  {
    hide Until, InWindow, Ascending;
    var cut := now - rule.window as real;
    if all == [] {
      UntilNone(cut);
      NoneInWindow(rule, all, now);
    } else {
      var n := |all| - 1;
      assert all == all[..n] + [all[n]];
      EarlierTimes(all, n);
      UntilSnoc(all[..n], all[n], cut);
      if all[n] <= cut {
        AllUpTo(all, cut);
        NoneInWindow(rule, all, now);
      } else {
        RecentIsInWindow(rule, all[..n], now);
        InWindowSnoc(rule, all[..n], all[n], now);
      }
    }
  }

  lemma AllUpTo(all: seq<real>, t: real)
    requires Ascending(all) && (all != [] ==> all[|all| - 1] <= t)
    ensures forall i :: 0 <= i < |all| ==> all[i] <= t
  {
  }

  lemma InWindowSnoc(rule: Rule, all: seq<real>, x: real, t: real)
    ensures InWindow(rule, all + [x], t)
         == InWindow(rule, all, t) + if t - rule.window as real < x <= t then 1 else 0
  {
    assert (all + [x])[..|all|] == all;
  }

  lemma UntilNone(t: real)
    ensures Until([], t) == 0
  {
  }

  lemma {:induction false} UntilSnoc(s: seq<real>, x: real, t: real)
    requires Ascending(s + [x])
    ensures Until(s + [x], t) == if x <= t then |s| + 1 else Until(s, t)
  {
    if s != [] {
      assert (s + [x])[1..] == s[1..] + [x];
      assert (s + [x])[0] == s[0] && (s + [x])[|s|] == x;
      UntilSnoc(s[1..], x, t);
    }
  }

  /**
   Exactly what a sliding window promises: a call is admitted if and only if fewer than `limit` admissions lie
   in the `window` seconds that end with it.
   */
  lemma AdmittedExactly(rule: Rule, times: seq<real>, n: nat)
    requires GoodRule(rule) && Ascending(times) && n < |times|
    ensures |Run(rule, times).admitted| == |times|
    ensures Run(rule, times).admitted[n] <==> InWindow(rule, Run(rule, times[..n]).all, times[n]) < rule.limit
  {
    hide Run, InWindow, Recent, Called, Hit, Ascending;
    PruningIsInvisible(rule, times, n);
    EarlierTimes(times, n);
    RunKeeps(rule, times[..n], times[n]);
    RecentIsInWindow(rule, Run(rule, times[..n]).all, times[n]);
  }

  lemma EarlierTimes(times: seq<real>, n: nat)
    requires Ascending(times) && n < |times|
    ensures Ascending(times[..n]) && (n > 0 ==> times[..n][|times[..n]| - 1] <= times[n])
  {
  }

  /** `limit` apart, two admissions are a window apart, so no window holds more than `limit`. */
  lemma {:induction false} WindowHoldsLimit(rule: Rule, all: seq<real>, t: real)
    requires Ascending(all) && Spread(rule, all)
    ensures InWindow(rule, all, t) <= rule.limit
  {
    if all != [] {
      var n := |all| - 1;
      if all[n] > t {
        WindowHoldsLimit(rule, all[..n], t);
      } else {
        forall i | 0 <= i < |all| - rule.limit ensures all[i] <= t - rule.window as real {
          assert all[i + rule.limit] <= all[n];
        }
        InLast(rule, all, t, Max(0, |all| - rule.limit));
      }
    }
  }

  /** Only the times from index `m` on can be in a window that ends after the last of them. */
  lemma {:induction false} InLast(rule: Rule, all: seq<real>, t: real, m: nat)
    requires m <= |all| && forall i :: 0 <= i < m ==> all[i] <= t - rule.window as real
    ensures InWindow(rule, all, t) <= |all| - m
  {
    if m == |all| {
      NoneInWindow(rule, all, t);
    } else {
      InLast(rule, all[..|all| - 1], t, m);
    }
  }

  lemma NoWindowOverflows(rule: Rule, times: seq<real>, t: real)
    requires GoodRule(rule) && Ascending(times)
    ensures InWindow(rule, Run(rule, times).all, t) <= rule.limit
  {
    var now := if times == [] then 0.0 else times[|times| - 1];
    RunKeeps(rule, times, now);
    WindowHoldsLimit(rule, Run(rule, times).all, t);
  }

  lemma CeilIs(x: real)
    ensures Ceil(x) as real >= x && Ceil(x) as real - 1.0 < x
  {
  }

  lemma WaitPrunes(rule: Rule, log: seq<real>, later: real)
    requires GoodRule(rule) && |log| == rule.limit && log[0] <= later - rule.window as real
    ensures Hit(rule, log, later).1 == 0
  {
  }

  lemma EarlyKeeps(rule: Rule, log: seq<real>, later: real)
    requires GoodRule(rule) && |log| >= rule.limit && Ascending(log) && log[0] > later - rule.window as real
    ensures Hit(rule, log, later).1 > 0
  {
  }

  /**
   A refused caller who waits the returned seconds, nobody else calling, is admitted; one who comes a
   second earlier is refused again, unless the answer was the least one, 1.
   */
  lemma WaitIsEnoughAndNeeded(rule: Rule, times: seq<real>, now: real)
    requires GoodRule(rule) && Ascending(times) && (times != [] ==> times[|times| - 1] <= now)
    requires Hit(rule, Run(rule, times).log, now).1 > 0
    ensures var (log, wait) := Hit(rule, Run(rule, times).log, now);
            && Hit(rule, log, now + wait as real).1 == 0
            && (wait > 1 ==> Hit(rule, log, now + (wait - 1) as real).1 > 0)
  {
    hide Run, Ascending, Inv, Pruned, Ceil;
    RunKeeps(rule, times, now);
    var s := Run(rule, times);
    CalledKeeps(rule, s, now, now);
    var z := Called(rule, s, now);
    var (log, wait) := Hit(rule, s.log, now);
    LogIsFull(rule, z, now);
    CeilIs(rule.window as real - (now - log[0]));
    WaitPrunes(rule, log, now + wait as real);
    if wait > 1 { EarlyKeeps(rule, log, now + (wait - 1) as real); }
  }

  lemma LogIsFull(rule: Rule, s: State, now: real)
    requires Inv(rule, s, now)
    ensures |s.log| <= rule.limit && Ascending(s.log)
  {
  }
}
