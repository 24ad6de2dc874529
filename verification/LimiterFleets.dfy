/** Any number of processes sharing one Redis, each with its own breaker and fallback, their checks
    interleaved at every `await`: the breaker's verdict, the sampling of the stamp, the Redis script, the
    breaker's record and the fallback are separate atomic steps of a check, and a check may be cancelled
    between any two of them.  There is one perfect clock, and still stamps can reach Redis out of order. */
module LimiterFleets {
  import opened Options
  import opened CircuitBreakers
  import opened TokenBuckets
  import opened RedisBuckets
  import opened RedisCommands

  datatype Phase =
    | AtPrimary(ticket: nat)
    | AtRedis(ticket: nat, stamp: real)
    | Succeeded(ticket: nat, verdict: Verdict)
    | Failed(ticket: nat)
    | AtFallback
    | Done(verdict: Verdict)
    | Gone(given: Option<Verdict>)

  datatype Call = Call(worker: nat, key: Key, rpm: nat, phase: Phase)

  datatype Worker = Worker(breaker: Breaker, buckets: map<Key, Bucket>)

  datatype Fleet = Fleet(redis: map<Key, Entry>, workers: seq<Worker>, calls: map<nat, Call>, now: real)

  datatype Move =
    | Begin(worker: nat, key: Key, rpm: nat)
    | Sample
    | RunPrimary(network: Network)
    | Record
    | RunFallback
    | Cancel

  /** One atomic step of the check with identity `id` at time `at`. */
  datatype Event = Event(id: nat, move: Move, at: real)

  ghost predicate Enabled(f: Fleet, e: Event) {
    && e.at >= f.now
    && match e.move
       case Begin(worker, _, rpm) => e.id !in f.calls && worker < |f.workers| && rpm >= 1
       case Sample => e.id in f.calls && f.calls[e.id].phase.AtPrimary?
       case RunPrimary(_) => e.id in f.calls && f.calls[e.id].phase.AtRedis?
       case Record => e.id in f.calls && (f.calls[e.id].phase.Succeeded? || f.calls[e.id].phase.Failed?)
       case RunFallback => e.id in f.calls && f.calls[e.id].phase.AtFallback?
       case Cancel => e.id in f.calls && !f.calls[e.id].phase.Done? && !f.calls[e.id].phase.Gone?
  }

  ghost predicate WellFormed(f: Fleet) {
    forall id | id in f.calls :: f.calls[id].worker < |f.workers| && f.calls[id].rpm >= 1
  }

  function SetPhase(f: Fleet, id: nat, phase: Phase): map<nat, Call>
    requires id in f.calls
  {
    f.calls[id := f.calls[id].(phase := phase)]
  }

  /** The verdict a check has been given, if any. */
  function Given(f: Fleet, id: nat): Option<Verdict> {
    if id !in f.calls then None
    else match f.calls[id].phase
      case Succeeded(_, v) => Some(v)
      case Done(v) => Some(v)
      case Gone(given) => given
      case _ => None
  }

  ghost function Step(cfg: Config, f: Fleet, e: Event): Fleet
    requires WellFormed(f) && Enabled(f, e)
  {
    match e.move
    case Begin(worker, key, rpm) =>
      var b := f.workers[worker].breaker;
      var asked := Allow(cfg, b, e.at);
      var phase := if Admits(cfg, b, e.at) then AtPrimary(asked.generation) else AtFallback;
      f.(workers := f.workers[worker := f.workers[worker].(breaker := asked)],
         calls := f.calls[e.id := Call(worker, key, rpm, phase)], now := e.at)
    case Sample =>
      f.(calls := SetPhase(f, e.id, AtRedis(f.calls[e.id].phase.ticket, e.at)), now := e.at)
    case RunPrimary(network) =>
      var c := f.calls[e.id];
      var (entry, verdict) := Evaluate(Lookup(f.redis, c.key), c.rpm, c.phase.stamp, e.at, TTL);
      var phase := if network.Answered? then Succeeded(c.phase.ticket, verdict) else Failed(c.phase.ticket);
      f.(redis := if network.NeverRan? then f.redis else f.redis[c.key := entry],
         calls := SetPhase(f, e.id, phase), now := e.at)
    case Record =>
      var c := f.calls[e.id];
      var w := f.workers[c.worker];
      var (b, phase) := match c.phase
        case Succeeded(ticket, verdict) => (OnSuccess(w.breaker, ticket), Done(verdict))
        case _ => (OnFailure(cfg, w.breaker, c.phase.ticket, e.at), AtFallback);
      f.(workers := f.workers[c.worker := w.(breaker := b)], calls := SetPhase(f, e.id, phase), now := e.at)
    case RunFallback =>
      var c := f.calls[e.id];
      var w := f.workers[c.worker];
      var (bucket, verdict) := Decide(Lookup(w.buckets, c.key), c.rpm, e.at);
      f.(workers := f.workers[c.worker := w.(buckets := w.buckets[c.key := bucket])],
         calls := SetPhase(f, e.id, Done(verdict)), now := e.at)
    case Cancel =>
      f.(calls := SetPhase(f, e.id, Gone(Given(f, e.id))), now := e.at)
  }

  /** The steps of one check, whatever other checks have done in between, charge the buckets, tell the breaker
      and give the verdict that the check does when it is run as a whole.  Redis is asked exactly if the
      breaker admits, and charged unless the script never ran. */
  lemma FirstStepsOfACheck(cfg: Config, begin: Fleet, run: Fleet, id: nat, c: Call, network: Network, asked: real,
                           arrived: real)
    requires WellFormed(begin) && Enabled(begin, Event(id, Begin(c.worker, c.key, c.rpm), asked))
    requires WellFormed(run) && run.now <= arrived && id in run.calls && run.calls[id] == c && c.phase.AtRedis?
    requires c.phase.ticket == Allow(cfg, begin.workers[c.worker].breaker, asked).generation
    ensures var b, ticket := begin.workers[c.worker].breaker, c.phase.ticket;
            var begun := Step(cfg, begin, Event(id, Begin(c.worker, c.key, c.rpm), asked));
            var ran := Step(cfg, run, Event(id, RunPrimary(network), arrived));
            var (entry, answer) := Evaluate(Lookup(run.redis, c.key), c.rpm, c.phase.stamp, arrived, TTL);
            && begun.workers[c.worker] == begin.workers[c.worker].(breaker := Allow(cfg, b, asked))
            && begun.calls[id].phase == (if Admits(cfg, b, asked) then AtPrimary(ticket) else AtFallback)
            && begun.redis == begin.redis
            && ran.redis == (if network.NeverRan? then run.redis else run.redis[c.key := entry])
            && ran.calls[id].phase == (if network.Answered? then Succeeded(ticket, answer) else Failed(ticket))
            && ran.workers == run.workers
  {
  }

  /** Any answer of Redis is final and counts as a success, a refusal too; without one the breaker is told of a
      failure, and the fallback decides. */
  lemma LastStepsOfACheck(cfg: Config, record: Fleet, fall: Fleet, id: nat, c: Call, recorded: real, fallen: real)
    requires WellFormed(record) && record.now <= recorded && id in record.calls && record.calls[id] == c
    requires c.phase.Succeeded? || c.phase.Failed?
    requires WellFormed(fall) && fall.now <= fallen && id in fall.calls && fall.calls[id] == c.(phase := AtFallback)
    ensures var w, ticket := record.workers[c.worker], c.phase.ticket;
            var told := Step(cfg, record, Event(id, Record, recorded));
            var fell := Step(cfg, fall, Event(id, RunFallback, fallen));
            var (bucket, local) := Decide(Lookup(fall.workers[c.worker].buckets, c.key), c.rpm, fallen);
            && told.workers[c.worker] == w.(breaker := if c.phase.Succeeded? then OnSuccess(w.breaker, ticket)
                                                       else OnFailure(cfg, w.breaker, ticket, recorded))
            && told.calls[id].phase == (if c.phase.Succeeded? then Done(c.phase.verdict) else AtFallback)
            && told.redis == record.redis
            && fell.workers[c.worker].buckets == fall.workers[c.worker].buckets[c.key := bucket]
            && fell.workers[c.worker].breaker == fall.workers[c.worker].breaker
            && fell.calls[id].phase == Done(local) && fell.redis == fall.redis
  {
  }

  /** A fleet that has just started. */
  ghost predicate Fresh(f: Fleet) {
    f.redis == map[] && f.calls == map[] && forall i | 0 <= i < |f.workers| :: f.workers[i].buckets == map[]
  }

  /** A run: a fresh fleet and the steps taken since. */
  datatype History = Start(fleet: Fleet) | Then(before: History, event: Event)

  ghost predicate Legal(cfg: Config, h: History)
    decreases h, 1
  {
    match h
    case Start(f) => Fresh(f)
    case Then(before, e) => Legal(cfg, before) && Enabled(State(cfg, before), e)
  }

  ghost function State(cfg: Config, h: History): (f: Fleet)
    requires Legal(cfg, h)
    ensures WellFormed(f)
    decreases h, 2
  {
    match h
    case Start(f) => f
    case Then(before, e) => Step(cfg, State(cfg, before), e)
  }

  function Size(h: History): nat {
    match h case Start(f) => |f.workers| case Then(before, _) => Size(before)
  }

  /** The fleet that the run began with. */
  function Began(h: History): Fleet {
    match h case Start(f) => f case Then(before, _) => Began(before)
  }

  lemma {:induction false} SizeIsWorkers(cfg: Config, h: History)
    requires Legal(cfg, h)
    ensures |State(cfg, h).workers| == Size(h)
  {
    if h.Then? { SizeIsWorkers(cfg, h.before); }
  }

  // ---------------------------------------------------------------- who decided what

  datatype Decision = Undecided | By(bucket: nat, key: Key, verdict: Verdict)

  /** The verdict, if any, that one step gives to its check, and the bucket that paid for it: bucket 0
      is the shared one in Redis, bucket `w + 1` the fallback of worker `w`. */
  ghost function Decides(f: Fleet, e: Event): Decision
    requires WellFormed(f) && Enabled(f, e)
  {
    match e.move
    case RunPrimary(Answered) =>
      var c := f.calls[e.id];
      By(0, c.key, Evaluate(Lookup(f.redis, c.key), c.rpm, c.phase.stamp, e.at, TTL).1)
    case RunFallback =>
      var c := f.calls[e.id];
      By(c.worker + 1, c.key, Decide(Lookup(f.workers[c.worker].buckets, c.key), c.rpm, e.at).1)
    case _ => Undecided
  }

  /** How many verdicts the check `id` has received. */
  ghost function Verdicts(cfg: Config, h: History, id: nat): nat
    requires Legal(cfg, h)
  {
    match h
    case Start(_) => 0
    case Then(before, e) =>
      Verdicts(cfg, before, id) + (if e.id == id && Decides(State(cfg, before), e).By? then 1 else 0)
  }

  lemma DecisionStep(cfg: Config, f: Fleet, e: Event, id: nat)
    requires WellFormed(f) && Enabled(f, e)
    ensures var g, d := Step(cfg, f, e), Decides(f, e);
            && WellFormed(g)
            && (Given(f, id).Some? ==> Given(g, id) == Given(f, id))
            && (Given(f, id).None? ==>
                Given(g, id) == if e.id == id && d.By? then Some(d.verdict) else None)
            && (e.id == id && d.By? ==> Given(f, id).None?)
  {
  }

  /** Every check is decided by exactly one bucket once it is decided at all. */
  lemma {:induction false} DecidedOnce(cfg: Config, h: History, id: nat)
    requires Legal(cfg, h)
    ensures Verdicts(cfg, h, id) == if Given(State(cfg, h), id).Some? then 1 else 0
  {
    if h.Then? {
      DecidedOnce(cfg, h.before, id);
      DecisionStep(cfg, State(cfg, h.before), h.event, id);
    }
  }

  ghost predicate Extends(h: History, earlier: History) {
    h == earlier || (h.Then? && Extends(h.before, earlier))
  }

  /** A verdict once given stands for the rest of the run: a refusal by Redis is never overturned by
      the fallback, nor a pass charged again. */
  lemma {:induction false} VerdictsStand(cfg: Config, h: History, earlier: History, id: nat)
    requires Legal(cfg, h) && Extends(h, earlier)
    ensures Legal(cfg, earlier)
    ensures Given(State(cfg, earlier), id).Some? ==> Given(State(cfg, h), id) == Given(State(cfg, earlier), id)
  {
    if h != earlier {
      VerdictsStand(cfg, h.before, earlier, id);
      DecisionStep(cfg, State(cfg, h.before), h.event, id);
    }
  }

  // ---------------------------------------------------------------- the bound on admitted checks

  ghost predicate Pays(f: Fleet, e: Event, key: Key, from: real)
    requires WellFormed(f) && Enabled(f, e)
  {
    var d := Decides(f, e);
    e.at >= from && d.By? && d.key == key && d.verdict.Allowed?
  }

  /** How many checks of `key` the given bucket let pass at or after `from`. */
  ghost function Paid(cfg: Config, h: History, key: Key, from: real, bucket: nat): nat
    requires Legal(cfg, h)
  {
    match h
    case Start(_) => 0
    case Then(before, e) =>
      var f := State(cfg, before);
      Paid(cfg, before, key, from, bucket) +
      (if Pays(f, e, key, from) && Decides(f, e).bucket == bucket then 1 else 0)
  }

  /** How many checks of `key` passed at or after `from`, whoever paid. */
  ghost function Passed(cfg: Config, h: History, key: Key, from: real): nat
    requires Legal(cfg, h)
  {
    match h
    case Start(_) => 0
    case Then(before, e) =>
      Passed(cfg, before, key, from) + (if Pays(State(cfg, before), e, key, from) then 1 else 0)
  }

  ghost function PaidByFirst(cfg: Config, h: History, key: Key, from: real, n: nat): nat
    requires Legal(cfg, h)
  {
    if n == 0 then 0 else PaidByFirst(cfg, h, key, from, n - 1) + Paid(cfg, h, key, from, n - 1)
  }

  lemma {:induction false} OneBucketPays(cfg: Config, h: History, key: Key, from: real, n: nat)
    requires Legal(cfg, h)
    ensures h.Start? ==> PaidByFirst(cfg, h, key, from, n) == 0
    ensures h.Then? ==>
              var f := State(cfg, h.before);
              PaidByFirst(cfg, h, key, from, n)
              == PaidByFirst(cfg, h.before, key, from, n)
                 + (if Pays(f, h.event, key, from) && Decides(f, h.event).bucket < n then 1 else 0)
  {
    if n > 0 {
      OneBucketPays(cfg, h, key, from, n - 1);
    }
  }

  lemma PayerExists(f: Fleet, e: Event)
    requires WellFormed(f) && Enabled(f, e) && Decides(f, e).By?
    ensures Decides(f, e).bucket <= |f.workers|
  {
  }

  /** Every pass is paid for by exactly one of the buckets. */
  lemma {:induction false} EveryPassIsPaid(cfg: Config, h: History, key: Key, from: real)
    requires Legal(cfg, h)
    ensures Passed(cfg, h, key, from) == PaidByFirst(cfg, h, key, from, Size(h) + 1)
  {
    var n := Size(h) + 1;
    OneBucketPays(cfg, h, key, from, n);
    if h.Then? {
      var f, e := State(cfg, h.before), h.event;
      EveryPassIsPaid(cfg, h.before, key, from);
      assert Pays(f, e, key, from) ==> Decides(f, e).bucket < n by {
        SizeIsWorkers(cfg, h.before);
        if Decides(f, e).By? { PayerExists(f, e); }
      }
      assert Passed(cfg, h, key, from) == Passed(cfg, h.before, key, from) + (if Pays(f, e, key, from) then 1 else 0);
    }
  }

  /** Every check of `key` in the run asks for the same limit. */
  ghost predicate OneLimit(h: History, key: Key, rpm: nat) {
    match h
    case Start(_) => true
    case Then(before, e) => OneLimit(before, key, rpm) && (e.move.Begin? && e.move.key == key ==> e.move.rpm == rpm)
  }
}
