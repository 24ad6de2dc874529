/** Stamps that reach Redis out of order: when a script may set the stored stamp back by any time at all,
    however short, no number of passes is out of reach in an instant; and when none does, one is. */
module StampsOutOfOrder {
  import opened Options
  import opened TokenBuckets
  import opened RedisBuckets
  import opened RedisCommands
  import opened CircuitBreakers
  import opened LimiterFleets
  import opened FleetBounds
  import opened LateStamps

  // ---------------------------------------------------------------- what an old and a new stamp give away

  /** The hash that the last script left, with the stamp `seconds`, or none if none has run. */
  ghost predicate Ready(entry: Option<Entry>, rpm: nat, seconds: real) {
    entry.Some? ==>
      entry.value == Entry(entry.value.tokens, seconds, seconds + TTL) && 0.0 <= entry.value.tokens <= rpm as real
  }

  function TokensOf(entry: Option<Entry>, rpm: nat): real {
    if entry.Some? then entry.value.tokens else rpm as real
  }

  /** What `n` passes weigh against the tokens that pairs of scripts give away, `gain` each. */
  function Weight(n: nat, gain: real): real {
    n as real * (2.0 + gain)
  }

  lemma WeightAdds(n: nat, m: nat, gain: real)
    ensures Weight(n + m, gain) == Weight(n, gain) + Weight(m, gain)
  {
  }

  /** A script with the stamp 0 and then one with the stamp `seconds`, both run at that moment. */
  function Pair(entry: Option<Entry>, rpm: nat, seconds: real): (Entry, nat)
    requires rpm >= 1
  {
    var (old_, v) := Evaluate(entry, rpm, 0.0, seconds, TTL);
    var (new_, w) := Evaluate(Some(old_), rpm, seconds, seconds, TTL);
    (new_, (if v.Allowed? then 1 else 0) + (if w.Allowed? then 1 else 0))
  }

  /** A pair either lets a check pass or leaves the refill of `seconds` more than it found. */
  lemma PairGain(entry: Option<Entry>, rpm: nat, seconds: real)
    requires rpm >= 1 && seconds > 0.0 && Ready(entry, rpm, seconds)
    ensures var ((after, passed), gain) := (Pair(entry, rpm, seconds), Refill(rpm, seconds));
            && Ready(Some(after), rpm, seconds) && passed <= 2
            && after.tokens + Weight(passed, gain) >= TokensOf(entry, rpm) + gain
  {
    var gain := Refill(rpm, seconds);
    assert Refill(rpm, 0.0) == 0.0;
    RefillGrows(rpm, 0.0, seconds);
    assert Weight(0, gain) == 0.0 && Weight(1, gain) == 2.0 + gain && Weight(2, gain) == 4.0 + 2.0 * gain;
  }

  // ---------------------------------------------------------------- runs

  /** Old and new stamps within the regime. */
  ghost predicate Alternates(r: Regime, seconds: real) {
    && r.rpm >= 1 && 0.0 < seconds <= r.lag && seconds <= r.setBack && r.from == seconds
  }

  lemma DeliverPair(cfg: Config, h: History, r: Regime, seconds: real, older: nat, newer: nat) returns (g: History)
    requires Obeys(cfg, h, r) && Alternates(r, seconds) && older != newer
    requires State(cfg, h).now <= seconds && Ready(Lookup(State(cfg, h).redis, r.key), r.rpm, seconds)
    requires OnTheWay(State(cfg, h), r, 0.0, older, 1) && OnTheWay(State(cfg, h), r, seconds, newer, 1)
    ensures Obeys(cfg, g, r) && Size(g) == Size(h)
    ensures var f, k := State(cfg, h), State(cfg, g);
            var (entry, passed) := Pair(Lookup(f.redis, r.key), r.rpm, seconds);
            && k.now == seconds && Lookup(k.redis, r.key) == Some(entry)
            && Passed(cfg, g, r.key, r.from) == Passed(cfg, h, r.key, r.from) + passed
            && k.calls.Keys == f.calls.Keys
            && forall id | id in f.calls && id != older && id != newer :: k.calls[id] == f.calls[id]
  {
    g := Deliver(cfg, h, r, 0.0, older, seconds);
    g := Deliver(cfg, g, r, seconds, newer, seconds);
  }

  /** The tokens in the hash and the weight of what has passed. */
  ghost function Potential(cfg: Config, h: History, r: Regime, seconds: real): real
    requires Legal(cfg, h)
  {
    TokensOf(Lookup(State(cfg, h).redis, r.key), r.rpm) + Weight(Passed(cfg, h, r.key, r.from), Refill(r.rpm, seconds))
  }

  lemma PairRaisesPotential(cfg: Config, h: History, r: Regime, seconds: real, older: nat, newer: nat)
    returns (g: History)
    requires Obeys(cfg, h, r) && Alternates(r, seconds) && older != newer
    requires State(cfg, h).now <= seconds && Ready(Lookup(State(cfg, h).redis, r.key), r.rpm, seconds)
    requires OnTheWay(State(cfg, h), r, 0.0, older, 1) && OnTheWay(State(cfg, h), r, seconds, newer, 1)
    ensures Obeys(cfg, g, r) && Size(g) == Size(h)
    ensures Potential(cfg, g, r, seconds) >= Potential(cfg, h, r, seconds) + Refill(r.rpm, seconds)
    ensures var f, k := State(cfg, h), State(cfg, g);
            && k.now == seconds && Ready(Lookup(k.redis, r.key), r.rpm, seconds)
            && k.calls.Keys == f.calls.Keys
            && forall id | id in f.calls && id != older && id != newer :: k.calls[id] == f.calls[id]
  {
    var entry := Lookup(State(cfg, h).redis, r.key);
    PairGain(entry, r.rpm, seconds);
    WeightAdds(Passed(cfg, h, r.key, r.from), Pair(entry, r.rpm, seconds).1, Refill(r.rpm, seconds));
    g := DeliverPair(cfg, h, r, seconds, older, newer);
  }

  lemma {:induction false} DeliverPairs(cfg: Config, h: History, r: Regime, seconds: real, first: nat, n: nat)
    returns (g: History)
    requires Obeys(cfg, h, r) && Alternates(r, seconds) && n <= first
    requires State(cfg, h).now <= seconds && Ready(Lookup(State(cfg, h).redis, r.key), r.rpm, seconds)
    requires OnTheWay(State(cfg, h), r, 0.0, 0, n) && OnTheWay(State(cfg, h), r, seconds, first, n)
    ensures Obeys(cfg, g, r) && Size(g) == Size(h) && State(cfg, h).now <= State(cfg, g).now <= seconds
    ensures n > 0 ==> State(cfg, g).now == seconds
    ensures Ready(Lookup(State(cfg, g).redis, r.key), r.rpm, seconds)
    ensures Potential(cfg, g, r, seconds) >= Potential(cfg, h, r, seconds) + Shares(n, Refill(r.rpm, seconds))
    decreases n
  {
    g := h;
    if n == 0 {
      assert Shares(0, Refill(r.rpm, seconds)) == 0.0;
    } else {
      OneMoreShare(n - 1, Refill(r.rpm, seconds));
      g := PairRaisesPotential(cfg, h, r, seconds, n - 1, first + n - 1);
      g := DeliverPairs(cfg, g, r, seconds, first, n - 1);
    }
  }

  /** As many pairs as are needed for their gains to outweigh `n` passes. */
  lemma EnoughPairs(n: nat, gain: real) returns (pairs: nat)
    requires gain > 0.0
    ensures pairs > 0 && Shares(pairs, gain) >= Weight(n, gain)
  {
    var x := Weight(n, gain) / gain;
    assert x * gain == Weight(n, gain);
    assert x >= 0.0;
    pairs := x.Floor + 1;
    assert pairs as real * gain >= x * gain;
  }

  lemma MorePassesWeighMore(n: nat, m: nat, gain: real)
    requires gain > 0.0 && n < m
    ensures Weight(n, gain) < Weight(m, gain)
  {
    WeightAdds(n, m - n, gain);
    assert Weight(m - n, gain) > 0.0;
  }

  /** Without any order there is no bound: for every number there is a run that passes at least so many checks
      in one instant, because checks that sampled a moment before and checks that sample now reach Redis in
      turn. */
  lemma LateStampsDefeatAnyBound(cfg: Config, r: Regime, workers: nat, seconds: real, n: nat) returns (h: History)
    requires Alternates(r, seconds) && workers >= 1
    ensures Obeys(cfg, h, r) && Size(h) == workers && State(cfg, h).now == r.from
    ensures Passed(cfg, h, r.key, r.from) >= n
  {
    var gain := Refill(r.rpm, seconds);
    assert gain > 0.0 by {
      RefillGrows(r.rpm, 0.0, seconds);
      assert Refill(r.rpm, 0.0) == 0.0;
    }
    var pairs := EnoughPairs(n, gain);
    h := Start(Started(workers));
    h := SendMany(cfg, h, r, 0.0, 0, pairs);
    h := SendMany(cfg, h, r, seconds, pairs, pairs);
    assert Passed(cfg, h, r.key, r.from) == 0 && Weight(0, gain) == 0.0;
    h := DeliverPairs(cfg, h, r, seconds, pairs, pairs);
    if Passed(cfg, h, r.key, r.from) < n { MorePassesWeighMore(Passed(cfg, h, r.key, r.from), n, gain); }
  }

  // ---------------------------------------------------------------- the exact condition

  /** No window of up to `seconds` of any run of the regime passes more than `bound` checks. */
  ghost predicate Bounded(cfg: Config, key: Key, rpm: nat, workers: nat, lag: real, setBack: real, seconds: real,
                          bound: nat)
  {
    forall h: History, from: real
      | Obeys(cfg, h, Regime(key, rpm, from, lag, setBack)) && Size(h) == workers
        && from <= State(cfg, h).now <= from + seconds ::
      Passed(cfg, h, key, from) <= bound
  }

  /** A whole number above the passes that stamps in order allow, however late they are. */
  function BoundInOrder(rpm: nat, workers: nat, lag: real, seconds: real): int {
    (Shares(workers + 1, Share(rpm, seconds)) + Refill(rpm, lag + 60.0 + seconds / 2.0)).Floor
  }

  lemma OrderedRunsAreBounded(cfg: Config, h: History, key: Key, rpm: nat, from: real, lag: real, seconds: real)
    requires Obeys(cfg, h, Regime(key, rpm, from, lag, 0.0)) && rpm >= 1 && lag >= 0.0
    requires from <= State(cfg, h).now <= from + seconds
    ensures Passed(cfg, h, key, from) <= BoundInOrder(rpm, Size(h), lag, seconds)
  {
    var now, slips := State(cfg, h).now, Slips(cfg, h, key, from);
    FleetBound(cfg, h, key, rpm, from, lag);
    OrderedSlipsAreFew(cfg, h, key, rpm, from);
    RefillGrows(rpm, now - from, seconds);
    SharesGrow(Size(h) + 1, Share(rpm, now - from), Share(rpm, seconds));
    RefillGrows(rpm, lag + slips, lag + 60.0 + seconds / 2.0);
  }

  lemma BoundIsNotNegative(rpm: nat, workers: nat, lag: real, seconds: real)
    requires lag >= 0.0 && seconds >= 0.0
    ensures BoundInOrder(rpm, workers, lag, seconds) >= 0
  {
    assert Refill(rpm, 0.0) == 0.0 && Shares(workers + 1, 0.0) == 0.0;
    RefillGrows(rpm, 0.0, seconds);
    SharesGrow(workers + 1, 0.0, Share(rpm, seconds));
    RefillGrows(rpm, 0.0, lag + 60.0 + seconds / 2.0);
  }

  /** Runs whose scripts may be late, and set the stored stamp back by at most `setBack`, have a bound on their
      passes in windows of a given length if and only if nothing is set back. */
  lemma BoundedIffNothingSetBack(cfg: Config, key: Key, rpm: nat, workers: nat, lag: real, setBack: real, seconds: real)
    requires rpm >= 1 && workers >= 1 && lag > 0.0 && setBack >= 0.0 && seconds >= 0.0
    ensures setBack == 0.0 <==> exists bound :: Bounded(cfg, key, rpm, workers, lag, setBack, seconds, bound)
  {
    if setBack == 0.0 {
      BoundIsNotNegative(rpm, workers, lag, seconds);
      var bound := BoundInOrder(rpm, workers, lag, seconds);
      forall h: History, from: real
        | Obeys(cfg, h, Regime(key, rpm, from, lag, setBack)) && Size(h) == workers
          && from <= State(cfg, h).now <= from + seconds
        ensures Passed(cfg, h, key, from) <= bound
      {
        OrderedRunsAreBounded(cfg, h, key, rpm, from, lag, seconds);
      }
      assert Bounded(cfg, key, rpm, workers, lag, setBack, seconds, bound);
    } else {
      var step := Min(lag, setBack);
      forall bound: nat
        ensures !Bounded(cfg, key, rpm, workers, lag, setBack, seconds, bound)
      {
        var h := LateStampsDefeatAnyBound(cfg, Regime(key, rpm, step, lag, setBack), workers, step, bound + 1);
        assert Passed(cfg, h, key, step) > bound;
      }
    }
  }
}
