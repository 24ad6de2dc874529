/** The per-provider failure gate of `app/core/resilience/circuit_breaker.py`.

    `Breaker` is the breaker's state as a value; `Allow`, `OnSuccess`, `OnFailure` and `OnAbort` are
    its four atomic steps (each runs under the lock).  The class updates its fields in place and is
    proved against those steps; what the steps guarantee over whole runs is in BreakerRuns. */
module CircuitBreakers {

  datatype CircuitState = Closed | Open | HalfOpen

  datatype Config = Config(failThreshold: int, resetTimeout: real)

  datatype Breaker = Breaker(state: CircuitState, failures: nat, openedAt: real,
                             trialInFlight: bool, generation: nat)

  const INITIAL := Breaker(Closed, 0, 0.0, false, 0)

  /** Moves to `state` and retires the current generation. */
  function Enter(b: Breaker, state: CircuitState): Breaker {
    b.(state := state, generation := b.generation + 1)
  }

  /** The verdict of a breaker in state `b` on a call asking at time `now`. */
  predicate Admits(cfg: Config, b: Breaker, now: real) {
    match b.state
    case Closed => true
    case Open => now - b.openedAt >= cfg.resetTimeout
    case HalfOpen => !b.trialInFlight
  }

  /** The state a call asking at `now` leaves; its ticket is the new state's generation. */
  function Allow(cfg: Config, b: Breaker, now: real): Breaker {
    if b.state.Closed? || !Admits(cfg, b, now) then b
    else (if b.state.Open? then Enter(b, HalfOpen) else b).(trialInFlight := true)
  }

  function OnSuccess(b: Breaker, generation: nat): Breaker {
    if generation != b.generation then b
    else
      var b1 := b.(failures := 0, trialInFlight := false);
      if b1.state.Closed? then b1 else Enter(b1, Closed)
  }

  function OnFailure(cfg: Config, b: Breaker, generation: nat, now: real): Breaker {
    if generation != b.generation then b
    else
      var b1 := b.(failures := b.failures + 1, trialInFlight := false);
      if b1.state.HalfOpen? || b1.failures >= cfg.failThreshold then Enter(b1, Open).(openedAt := now) else b1
  }

  function OnAbort(b: Breaker, generation: nat): Breaker {
    if generation != b.generation then b else b.(trialInFlight := false)
  }

  class CircuitBreaker {
    const cfg: Config
    var state: CircuitState
    var failures: nat
    var openedAt: real
    var trialInFlight: bool
    var generation: nat

    ghost function Value(): Breaker
      reads this
    {
      Breaker(state, failures, openedAt, trialInFlight, generation)
    }

    constructor (failThreshold: int, resetTimeout: real)
      ensures cfg == Config(failThreshold, resetTimeout)
      ensures Value() == INITIAL
    {
      cfg := Config(failThreshold, resetTimeout);
      state, failures, openedAt := Closed, 0, 0.0;
      trialInFlight, generation := false, 0;
    }

    method EnterState(next: CircuitState)
      modifies this
      ensures Value() == Enter(old(Value()), next)
    {
      state := next;
      generation := generation + 1;
    }

    method Ask(now: real) returns (allowed: bool, ticket: nat)
      modifies this
      ensures allowed == Admits(cfg, old(Value()), now)
      ensures Value() == Allow(cfg, old(Value()), now)
      ensures ticket == generation == old(generation) + if old(state).Open? && allowed then 1 else 0
      ensures allowed <==> match old(state)
                           case Closed => true
                           case Open => now - old(openedAt) >= cfg.resetTimeout
                           case HalfOpen => !old(trialInFlight)
      ensures state == if old(state).Open? && allowed then HalfOpen else old(state)
      ensures trialInFlight == (old(trialInFlight) || (allowed && !old(state).Closed?))
      ensures failures == old(failures) && openedAt == old(openedAt)
    {
      if state == Closed {
        return true, generation;
      }
      if state == Open {
        if now - openedAt >= cfg.resetTimeout {
          EnterState(HalfOpen);
          trialInFlight := true;
          return true, generation;
        }
        return false, generation;
      }
      if !trialInFlight {
        trialInFlight := true;
        return true, generation;
      }
      return false, generation;
    }

    method RecordSuccess(ticket: nat)
      modifies this
      ensures Value() == OnSuccess(old(Value()), ticket)
      ensures if ticket != old(generation) then Value() == old(Value())
              else && state == Closed && failures == 0 && !trialInFlight && openedAt == old(openedAt)
                   && generation == old(generation) + if old(state).Closed? then 0 else 1
    {
      if ticket != generation {
        return;
      }
      failures := 0;
      trialInFlight := false;
      if state != Closed {
        EnterState(Closed);
      }
    }

    method RecordFailure(ticket: nat, now: real)
      modifies this
      ensures Value() == OnFailure(cfg, old(Value()), ticket, now)
      ensures var trips := old(state).HalfOpen? || old(failures) + 1 >= cfg.failThreshold;
              if ticket != old(generation) then Value() == old(Value())
              else && failures == old(failures) + 1 && !trialInFlight
                   && state == (if trips then Open else old(state))
                   && openedAt == (if trips then now else old(openedAt))
                   && generation == old(generation) + if trips then 1 else 0
    {
      if ticket != generation {
        return;
      }
      failures := failures + 1;
      trialInFlight := false;
      if state == HalfOpen || failures >= cfg.failThreshold {
        EnterState(Open);
        openedAt := now;
      }
    }

    method RecordAbort(ticket: nat)
      modifies this
      ensures Value() == OnAbort(old(Value()), ticket)
      ensures && state == old(state) && failures == old(failures) && openedAt == old(openedAt)
              && generation == old(generation)
              && trialInFlight == (old(trialInFlight) && ticket != old(generation))
    {
      if ticket != generation {
        return;
      }
      trialInFlight := false;
    }
  }

  /** Other callers leave the breaker in the state `left` while a use of what it guards is under way. */
  method Meanwhile(breaker: CircuitBreaker, left: Breaker)
    modifies breaker
    ensures breaker.Value() == left
  {
    breaker.state, breaker.failures, breaker.openedAt := left.state, left.failures, left.openedAt;
    breaker.trialInFlight, breaker.generation := left.trialInFlight, left.generation;
  }
}
