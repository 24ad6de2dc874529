/** What a token bucket guarantees over every sequence of checks of one caller at one limit.

    The reference is the sliding-window rule, which knows nothing of tokens: a check may pass only
    if no window that ends with it would exceed `rpm + rpm * length / 60`.  The bucket admits exactly
    the checks this rule admits. */
module BucketWindows {
  import opened Options
  import opened Sequences
  import opened TokenBuckets

  ghost predicate Monotone(ts: seq<real>) {
    forall i, j :: 0 <= i <= j < |ts| ==> ts[i] <= ts[j]
  }

  /** The caller's bucket after checks at the times `ts`. */
  ghost function After(rpm: nat, ts: seq<real>): Option<Bucket>
    requires rpm >= 1
  {
    if ts == [] then None else Some(Decide(After(rpm, Front(ts)), rpm, Last(ts)).0)
  }

  /** Does a check at time `t`, after checks at the times `ts`, pass? */
  ghost predicate Passes(rpm: nat, ts: seq<real>, t: real)
    requires rpm >= 1
  {
    Decide(After(rpm, ts), rpm, t).1.Allowed?
  }

  /** How many of the checks with index `i` or later passed. */
  ghost function PassedSince(rpm: nat, ts: seq<real>, i: nat): nat
    requires rpm >= 1
  {
    if |ts| <= i then 0
    else PassedSince(rpm, Front(ts), i) + (if Passes(rpm, Front(ts), Last(ts)) then 1 else 0)
  }

  /** What the window from check `i` to a check at time `t` leaves for that check. */
  ghost function Allowance(rpm: nat, ts: seq<real>, t: real, i: nat): real
    requires rpm >= 1 && i <= |ts|
  {
    rpm as real + Refill(rpm, t - (ts + [t])[i]) - PassedSince(rpm, ts, i) as real
  }

  /** Extending every window by one check at `Last(ts)` and then waiting until `t`. */
  lemma AllowanceStep(rpm: nat, ts: seq<real>, t: real, i: nat)
    requires rpm >= 1 && ts != [] && i < |ts|
    ensures Allowance(rpm, ts, t, i) == Allowance(rpm, Front(ts), Last(ts), i)
                                        - (if Passes(rpm, Front(ts), Last(ts)) then 1.0 else 0.0)
                                        + Refill(rpm, t - Last(ts))
  {
    var before := Front(ts) + [Last(ts)];
    assert before == ts;
    assert (ts + [t])[i] == ts[i] == before[i];
    RefillAdds(rpm, Last(ts) - ts[i], t - Last(ts));
  }

  /** The bucket's level is exactly the tightest of all the windows' allowances. */
  lemma {:induction false} LevelIsTightestWindow(rpm: nat, ts: seq<real>, t: real) returns (tight: nat)
    requires rpm >= 1 && Monotone(ts + [t])
    ensures forall i :: 0 <= i <= |ts| ==> Level(After(rpm, ts), rpm, t) <= Allowance(rpm, ts, t, i)
    ensures tight <= |ts| && Level(After(rpm, ts), rpm, t) == Allowance(rpm, ts, t, tight)
  {
    tight := |ts|;
    assert Allowance(rpm, ts, t, |ts|) == rpm as real;
    if ts != [] {
      var was, last := Front(ts), Last(ts);
      assert was + [last] == ts;
      assert Monotone(was + [last]) by {
        forall i, j | 0 <= i <= j < |ts| ensures ts[i] <= ts[j] {
          assert (ts + [t])[i] == ts[i] && (ts + [t])[j] == ts[j];
        }
      }
      var k := LevelIsTightestWindow(rpm, was, last);
      forall i | 0 <= i <= |ts|
        ensures Level(After(rpm, ts), rpm, t) <= Allowance(rpm, ts, t, i)
      {
        if i < |ts| { AllowanceStep(rpm, ts, t, i); }
      }
      AllowanceStep(rpm, ts, t, k);
      if Level(After(rpm, ts), rpm, t) < rpm as real {
        tight := k;
      }
    }
  }

  /** A check passes if and only if, counting it, no window that ends with it exceeds
      `rpm + rpm * length / 60`. */
  lemma PassesExactlyWhenEveryWindowAllows(rpm: nat, ts: seq<real>, t: real)
    requires rpm >= 1 && Monotone(ts + [t])
    ensures Passes(rpm, ts, t) <==>
            forall i :: 0 <= i <= |ts| ==>
              PassedSince(rpm, ts, i) as real + 1.0 <= rpm as real + Refill(rpm, t - (ts + [t])[i])
  {
    var tight := LevelIsTightestWindow(rpm, ts, t);
    assert forall i :: 0 <= i <= |ts| ==>
      (PassedSince(rpm, ts, i) as real + 1.0 <= rpm as real + Refill(rpm, t - (ts + [t])[i])
       <==> Allowance(rpm, ts, t, i) >= 1.0);
  }

  /** How many checks with a time in [from, to] passed. */
  ghost function PassedIn(rpm: nat, ts: seq<real>, from: real, to: real): nat
    requires rpm >= 1
  {
    if ts == [] then 0
    else
      PassedIn(rpm, Front(ts), from, to) +
      (if from <= Last(ts) <= to && Passes(rpm, Front(ts), Last(ts)) then 1 else 0)
  }

  /** The first check at or after `from`; the window's checks are all at or after it. */
  lemma {:induction false} FirstInWindow(rpm: nat, ts: seq<real>, from: real, to: real) returns (first: nat)
    requires rpm >= 1 && Monotone(ts)
    ensures first <= |ts| && (first < |ts| ==> from <= ts[first])
    ensures PassedIn(rpm, ts, from, to) <= PassedSince(rpm, ts, first)
  {
    first := 0;
    if ts != [] {
      var k := FirstInWindow(rpm, Front(ts), from, to);
      first := if k < |ts| - 1 || from <= Last(ts) then k else |ts|;
      if first == |ts| {
        assert PassedSince(rpm, Front(ts), k) == 0;
      }
    }
  }

  /** Every window of length `to - from` passes at most `rpm + rpm * (to - from) / 60` checks. */
  lemma {:induction false} WindowBound(rpm: nat, ts: seq<real>, from: real, to: real)
    requires rpm >= 1 && Monotone(ts) && from <= to
    ensures PassedIn(rpm, ts, from, to) as real <= rpm as real + Refill(rpm, to - from)
  {
    if ts == [] {
      RefillGrows(rpm, 0.0, to - from);
    } else if Last(ts) > to || !Passes(rpm, Front(ts), Last(ts)) {
      WindowBound(rpm, Front(ts), from, to);
    } else {
      var first := FirstInWindow(rpm, ts, from, to);
      assert Front(ts) + [Last(ts)] == ts;
      PassesExactlyWhenEveryWindowAllows(rpm, Front(ts), Last(ts));
      if first < |ts| {
        RefillGrows(rpm, Last(ts) - ts[first], to - from);
      } else {
        RefillGrows(rpm, 0.0, to - from);
      }
    }
  }

  // ---------------------------------------------------------------- the retry time

  /** The bucket is empty until `ready`: it will hold one token exactly then. */
  ghost predicate Awaits(b: Bucket, rpm: nat, ready: real) {
    b.lastRefill < ready && b.tokens == 1.0 - Refill(rpm, ready - b.lastRefill)
  }

  lemma RefusalSetsDeadline(bucket: Option<Bucket>, rpm: nat, now: real)
    requires rpm >= 1 && Decide(bucket, rpm, now).1.Exceeded?
    ensures var (b, v) := Decide(bucket, rpm, now); Awaits(b, rpm, now + v.retryAfter)
  {
    var level := Level(bucket, rpm, now);
    var rate := rpm as real / 60.0;
    assert (1.0 - level) / rate * rate == 1.0 - level;
    assert (1.0 - level) / rate > 0.0;
  }

  /** While the bucket awaits `ready`, a check passes if and only if it comes at or after `ready`,
      and a refusal announces the same moment again. */
  lemma AwaitingCheck(b: Bucket, rpm: nat, ready: real, now: real)
    requires rpm >= 1 && Awaits(b, rpm, ready) && b.lastRefill <= now
    ensures var (c, v) := Decide(Some(b), rpm, now);
            && (v.Allowed? <==> now >= ready)
            && (v.Exceeded? ==> now + v.retryAfter == ready && Awaits(c, rpm, ready))
  {
    RefillAdds(rpm, ready - now, now - b.lastRefill);
    assert b.tokens + Refill(rpm, now - b.lastRefill) == 1.0 - Refill(rpm, ready - now);
    if now < ready {
      RefillGrows(rpm, 0.0, ready - now);
      var rate := rpm as real / 60.0;
      assert rate * (ready - now) / rate == ready - now;
    } else {
      RefillGrows(rpm, ready - now, 0.0);
    }
  }

  /** The bucket after further checks at the times `ts`. */
  ghost function Continue(rpm: nat, b: Bucket, ts: seq<real>): Bucket
    requires rpm >= 1
  {
    if ts == [] then b else Decide(Some(Continue(rpm, b, Front(ts))), rpm, Last(ts)).0
  }

  /** After a refusal at `now` that announced a wait, any number of earlier retries is refused and
      changes nothing: a check passes at every time from `now + wait` on and at no time before. */
  lemma {:induction false} RetryTimeIsExact(bucket: Option<Bucket>, rpm: nat, now: real,
                                            retries: seq<real>, t: real)
    requires rpm >= 1 && Decide(bucket, rpm, now).1.Exceeded?
    requires Monotone([now] + retries + [t])
    requires forall i :: 0 <= i < |retries| ==> retries[i] < now + Decide(bucket, rpm, now).1.retryAfter
    ensures var (b, v) := Decide(bucket, rpm, now);
            var c := Continue(rpm, b, retries);
            && c.lastRefill == Last([now] + retries) && Awaits(c, rpm, now + v.retryAfter)
            && (Decide(Some(c), rpm, t).1.Allowed? <==> t >= now + v.retryAfter)
  {
    var (b, v) := Decide(bucket, rpm, now);
    var all := [now] + retries + [t];
    RefusalSetsDeadline(bucket, rpm, now);
    if retries != [] {
      var was, last := Front(retries), Last(retries);
      assert was + [last] == retries;
      assert forall i :: 0 <= i < |all| - 1 ==> ([now] + was + [last])[i] == all[i];
      assert Last([now] + was) == all[|was|] <= all[|was| + 1] == last;
      RetryTimeIsExact(bucket, rpm, now, was, last);
      AwaitingCheck(Continue(rpm, b, was), rpm, now + v.retryAfter, last);
    }
    var c := Continue(rpm, b, retries);
    assert all[|all| - 2] == c.lastRefill && all[|all| - 1] == t;
    AwaitingCheck(c, rpm, now + v.retryAfter, t);
  }

  /** The `Retry-After` header: the wait rounded up to whole seconds. */
  function Ceil(x: real): int {
    -((-x).Floor)
  }

  /** A caller that waits the number of whole seconds in `Retry-After` is admitted, and one second
      less would not always be enough: the header is the smallest whole number that suffices. */
  lemma RetryAfterHeaderSuffices(bucket: Option<Bucket>, rpm: nat, now: real, seconds: int)
    requires rpm >= 1 && Decide(bucket, rpm, now).1.Exceeded? && seconds >= 0
    ensures var (b, v) := Decide(bucket, rpm, now);
            Decide(Some(b), rpm, now + seconds as real).1.Allowed? <==> seconds >= Ceil(v.retryAfter)
  {
    var (b, v) := Decide(bucket, rpm, now);
    RefusalSetsDeadline(bucket, rpm, now);
    AwaitingCheck(b, rpm, now + v.retryAfter, now + seconds as real);
  }
}
