/** The idempotency protocol against the clock: when owners settle before their claim expires and no
    settling write is lost, a settled record is the key's whole history for its retention time. */
module IdempotencyTimes {
  import opened Options
  import opened RedisCommands
  import opened IdempotencyStores
  import opened IdempotencyRuns
  import opened Chat
  import opened Gateways

  /** Every owner has settled before its claim would expire, in every state of the run. */
  ghost predicate Prompt(cfg: Config, h: History)
    requires Legal(cfg, h)
  {
    && (h.Then? ==> Prompt(cfg, h.before))
    && forall i | i in After(cfg, h).clients && Owns(After(cfg, h).clients[i].phase) ::
         After(cfg, h).now < After(cfg, h).clients[i].phase.since + cfg.inflightTtl
  }

  /** Every settling write was answered. */
  ghost predicate NoLostWrites(cfg: Config, h: History)
    requires Legal(cfg, h)
  {
    h.Then? ==>
      && NoLostWrites(cfg, h.before)
      && (h.last.Command? && After(cfg, h.before).clients[h.last.id].phase.Settling? ==> h.last.network.Answered?)
  }

  /** There is at most one owner, and its own claim is the record. */
  ghost predicate ClaimHeld(cfg: Config, s: State) {
    && (forall i | i in s.clients && Owns(s.clients[i].phase) ::
          s.slot == Some(Claim(cfg, s.clients[i].fingerprint, s.clients[i].phase.since)))
    && OneOwner(s)
  }

  lemma CommandKeepsClaim(cfg: Config, s: State, id: nat, network: Network)
    requires Enabled(s, Command(id, network)) && ClaimHeld(cfg, s)
    requires forall i | i in s.clients && Owns(s.clients[i].phase) :: Visible(s.slot, s.now).Some?
    requires s.clients[id].phase.Settling? ==> network.Answered?
    ensures ClaimHeld(cfg, Step(cfg, s, Command(id, network)))
  {
    var t := Step(cfg, s, Command(id, network));
    assert forall j | j in s.clients && j != id :: t.clients[j] == s.clients[j];
    if s.clients[id].phase.Settling? {
      assert !Owns(t.clients[id].phase);
    } else if Visible(s.slot, s.now).Some? {
      assert !Owns(t.clients[id].phase) && t.slot == s.slot;
    }
  }

  lemma ClaimStep(cfg: Config, s: State, l: Label)
    requires Enabled(s, l) && ClaimHeld(cfg, s)
    requires forall i | i in s.clients && Owns(s.clients[i].phase) :: s.now < s.clients[i].phase.since + cfg.inflightTtl
    requires l.Command? && s.clients[l.id].phase.Settling? ==> l.network.Answered?
    ensures ClaimHeld(cfg, Step(cfg, s, l))
  {
    if l.Command? {
      CommandKeepsClaim(cfg, s, l.id, l.network);
    } else if !l.Arrive? && !l.Wait? {
      assert forall j | j in s.clients && j != l.id :: Step(cfg, s, l).clients[j] == s.clients[j];
    }
  }

  lemma {:induction false} ClaimsAreHeld(cfg: Config, h: History)
    requires Legal(cfg, h) && Prompt(cfg, h) && NoLostWrites(cfg, h)
    ensures ClaimHeld(cfg, After(cfg, h))
  {
    if h.Then? {
      ClaimsAreHeld(cfg, h.before);
      ClaimStep(cfg, After(cfg, h.before), h.last);
    }
  }

  /** Nobody owns the key and its record is visible. */
  ghost predicate Parked(s: State, record: Stored) {
    && s.slot == Some(record)
    && s.now < record.expireAt
    && forall i | i in s.clients :: !Owns(s.clients[i].phase)
  }

  lemma ParkedStep(cfg: Config, s: State, l: Label, record: Stored)
    requires Enabled(s, l) && Parked(s, record)
    requires Step(cfg, s, l).now < record.expireAt
    ensures Parked(Step(cfg, s, l), record)
  {
    var t := Step(cfg, s, l);
    if !l.Arrive? && !l.Wait? {
      assert forall j | j in s.clients && j != l.id :: t.clients[j] == s.clients[j];
    }
  }

  /** The last step of the run settled an operation that may have executed. */
  ghost predicate SettlesNow(cfg: Config, h: History)
    requires Legal(cfg, h)
  {
    && h.Then? && h.last.Command?
    && var c := After(cfg, h.before).clients[h.last.id];
       c.phase.Settling? && !c.phase.write.Release?
  }

  /** What the owner that settles in the last step of the run writes, and its fingerprint. */
  ghost function Settlement(cfg: Config, h: History): (Fingerprint, Write)
    requires Legal(cfg, h) && SettlesNow(cfg, h)
    ensures !Settlement(cfg, h).1.Release?
  {
    var c := After(cfg, h.before).clients[h.last.id];
    (c.fingerprint, c.phase.write)
  }

  function RecordWritten(fingerprint: Fingerprint, write: Write): Record
    requires !write.Release?
  {
    match write
    case Complete(body) => Record(Completed, fingerprint, Some(body), None)
    case MarkAmbiguous(why) => Record(Ambiguous, fingerprint, None, Some(why))
  }

  lemma TimePasses(cfg: Config, h: History)
    requires Legal(cfg, h) && h.Then?
    ensures After(cfg, h.before).now <= After(cfg, h).now
  {
  }

  /** Once an operation that may have executed settles at time t, its record stays unchanged and no
      operation on the key starts until t + completedTtl, whatever requests arrive. */
  lemma {:induction false} SettledRecordsStand(cfg: Config, settled: History, h: History)
    requires Legal(cfg, h) && Prompt(cfg, h) && NoLostWrites(cfg, h)
    requires Extends(h, settled) && Legal(cfg, settled) && SettlesNow(cfg, settled)
    requires After(cfg, h).now < After(cfg, settled).now + cfg.completedTtl
    ensures After(cfg, settled).slot.Some?
    ensures var record, (fingerprint, write) := After(cfg, settled).slot.value, Settlement(cfg, settled);
            && record.record == RecordWritten(fingerprint, write)
            && record.expireAt == After(cfg, settled).now + cfg.completedTtl
            && Parked(After(cfg, h), record)
  {
    if h == settled {
      var s := After(cfg, h.before);
      ClaimsAreHeld(cfg, h.before);
      assert After(cfg, h) == Step(cfg, s, h.last);
      assert forall j | j in s.clients && j != h.last.id :: !Owns(s.clients[j].phase);
    } else {
      TimePasses(cfg, h);
      SettledRecordsStand(cfg, settled, h.before);
      ParkedStep(cfg, After(cfg, h.before), h.last, After(cfg, settled).slot.value);
    }
  }

  /** What a request that arrives after the owner with fingerprint `fingerprint` wrote `write` has been
      answered, if it has been answered. */
  ghost predicate AnsweredFrom(c: Client, fingerprint: Fingerprint, write: Write) {
    match c.phase
    case Claiming(_) => true
    case Looking(_) => true
    case Finished(result) =>
      || result == StoreDown
      || (c.fingerprint != fingerprint && result == Conflict)
      || (c.fingerprint == fingerprint &&
            match write
            case Complete(body) => result == Replayed(body)
            case MarkAmbiguous(why) => result == OutcomeUnknown(Some(why))
            case Release => false)
    case _ => false
  }

  lemma RetryStep(cfg: Config, s: State, l: Label, i: nat, fingerprint: Fingerprint, write: Write, record: Stored)
    requires Enabled(s, l) && Parked(s, record) && !write.Release?
    requires record.record == RecordWritten(fingerprint, write)
    requires i in s.clients && AnsweredFrom(s.clients[i], fingerprint, write)
    ensures AnsweredFrom(Step(cfg, s, l).clients[i], fingerprint, write)
  {
  }

  /** Every retry that arrives while a settled record is retained is answered from it: the same request
      gets exactly the response that was stored, or the reason why the outcome is unknown, and a
      different request under the key gets a conflict.  Only a failing store answers otherwise. */
  lemma {:induction false} RetriesAreAnswered(cfg: Config, settled: History, h: History)
    requires Legal(cfg, h) && Prompt(cfg, h) && NoLostWrites(cfg, h)
    requires Extends(h, settled) && Legal(cfg, settled) && SettlesNow(cfg, settled)
    requires After(cfg, h).now < After(cfg, settled).now + cfg.completedTtl
    ensures var (fingerprint, write) := Settlement(cfg, settled);
            forall i | i in After(cfg, h).clients && i !in After(cfg, settled).clients ::
              AnsweredFrom(After(cfg, h).clients[i], fingerprint, write)
  {
    if h != settled {
      TimePasses(cfg, h);
      RetriesAreAnswered(cfg, settled, h.before);
      SettledRecordsStand(cfg, settled, h.before);
      var (fingerprint, write) := Settlement(cfg, settled);
      var s, t := After(cfg, h.before), After(cfg, h);
      forall i | i in t.clients && i !in After(cfg, settled).clients
        ensures AnsweredFrom(t.clients[i], fingerprint, write)
      {
        if i in s.clients {
          RetryStep(cfg, s, h.last, i, fingerprint, write, After(cfg, settled).slot.value);
        }
      }
    }
  }

  // ---------------------------------------------------------------- how long owners may take

  ghost predicate AgesWithin(s: State, limit: real) {
    forall i | i in s.clients && Owns(s.clients[i].phase) :: s.now <= s.clients[i].phase.since + limit
  }

  /** No owner has been at it for longer than `limit`, in any state of the run. */
  ghost predicate SettledWithin(cfg: Config, h: History, limit: real)
    requires Legal(cfg, h)
  {
    && (h.Then? ==> SettledWithin(cfg, h.before, limit))
    && AgesWithin(After(cfg, h), limit)
  }

  /** A run in which every command was answered has lost no write. */
  ghost predicate AllAnswered(h: History) {
    h.Then? ==> AllAnswered(h.before) && (h.last.Command? ==> h.last.network.Answered?)
  }

  lemma {:induction false} AnsweredWritesAreKept(cfg: Config, h: History)
    requires Legal(cfg, h) && AllAnswered(h)
    ensures NoLostWrites(cfg, h)
  {
    if h.Then? { AnsweredWritesAreKept(cfg, h.before); }
  }

  lemma Proceed(cfg: Config, h: History, l: Label, end: OperationEnd) returns (g: History)
    requires Legal(cfg, h) && Enabled(After(cfg, h), l) && OperationsAre(h, end, 1)
    requires l.Operation? ==> l.end == end && l.executions == 1
    requires AllAnswered(h) && (l.Command? ==> l.network.Answered?)
    requires SettledWithin(cfg, h, cfg.inflightTtl) && AgesWithin(Step(cfg, After(cfg, h), l), cfg.inflightTtl)
    ensures g == Then(h, l) && Legal(cfg, g) && After(cfg, g) == Step(cfg, After(cfg, h), l)
    ensures OperationsAre(g, end, 1) && AllAnswered(g) && SettledWithin(cfg, g, cfg.inflightTtl)
  {
    g := Grow(cfg, h, l, end, 1);
  }

  /** An owner whose claim has just expired. */
  lemma ExpiredOwner(cfg: Config, fingerprint: Fingerprint, end: OperationEnd) returns (h: History)
    requires PositiveTtls(cfg)
    ensures Legal(cfg, h) && OperationsAre(h, end, 1) && AllAnswered(h) && SettledWithin(cfg, h, cfg.inflightTtl)
    ensures var s := After(cfg, h);
            && s.clients == map[0 := Client(fingerprint, false, Running(0.0))]
            && s.now == cfg.inflightTtl && s.lapsed && s.executed == 0 && Visible(s.slot, s.now).None?
  {
    h := Proceed(cfg, Start, Arrive(0, fingerprint, false), end);
    h := Proceed(cfg, h, Command(0, Answered), end);
    h := Proceed(cfg, h, Wait(cfg.inflightTtl), end);
  }

  /** That owner and another one, which has just claimed the key. */
  lemma TwoOwners(cfg: Config, fingerprint: Fingerprint, end: OperationEnd) returns (h: History)
    requires PositiveTtls(cfg)
    ensures Legal(cfg, h) && OperationsAre(h, end, 1) && AllAnswered(h) && SettledWithin(cfg, h, cfg.inflightTtl)
    ensures var s := After(cfg, h);
            && s.clients == map[0 := Client(fingerprint, false, Running(0.0)),
                                1 := Client(fingerprint, false, Running(cfg.inflightTtl))]
            && s.now == cfg.inflightTtl && s.lapsed && s.executed == 0
  {
    h := ExpiredOwner(cfg, fingerprint, end);
    h := Proceed(cfg, h, Arrive(1, fingerprint, false), end);
    h := Proceed(cfg, h, Command(1, Answered), end);
  }

  /** An owner that lives exactly as long as its claim shares the key with the next request, and both
      execute, although no write is lost and every operation is safe. */
  lemma SlowOwnersShareTheKey(cfg: Config, fingerprint: Fingerprint, body: Body) returns (h: History)
    requires PositiveTtls(cfg)
    ensures Legal(cfg, h) && OperationsAre(h, Returned(body), 1) && NoLostWrites(cfg, h) && !Prompt(cfg, h)
    ensures SettledWithin(cfg, h, cfg.inflightTtl)
    ensures After(cfg, h).executed == 2 && After(cfg, h).lapsed
    ensures 0 in After(cfg, h).clients && 1 in After(cfg, h).clients
            && Owns(After(cfg, h).clients[0].phase) && Owns(After(cfg, h).clients[1].phase)
  {
    var end := Returned(body);
    h := TwoOwners(cfg, fingerprint, end);
    h := Proceed(cfg, h, Operation(0, end, 1), end);
    h := Proceed(cfg, h, Operation(1, end, 1), end);
    AnsweredWritesAreKept(cfg, h);
    assert After(cfg, h).clients[0].phase.since == 0.0;
    assert !Prompt(cfg, h);
  }

  lemma {:induction false} WithinLonger(cfg: Config, h: History, limit: real, longer: real)
    requires Legal(cfg, h) && SettledWithin(cfg, h, limit) && limit <= longer
    ensures SettledWithin(cfg, h, longer)
    ensures longer < cfg.inflightTtl ==> Prompt(cfg, h)
  {
    if h.Then? { WithinLonger(cfg, h.before, limit, longer); }
  }

  /** Owners that settle within `limit` never share the key, in any run without lost writes, if and only if
      `limit` is below the time a claim lasts. */
  lemma OneOwnerIffClaimsLastLonger(cfg: Config, limit: real)
    requires PositiveTtls(cfg)
    ensures limit < cfg.inflightTtl <==>
            forall h | Legal(cfg, h) && NoLostWrites(cfg, h) && SettledWithin(cfg, h, limit) :: OneOwner(After(cfg, h))
  {
    if limit < cfg.inflightTtl {
      forall h | Legal(cfg, h) && NoLostWrites(cfg, h) && SettledWithin(cfg, h, limit)
        ensures OneOwner(After(cfg, h))
      {
        WithinLonger(cfg, h, limit, limit);
        ClaimsAreHeld(cfg, h);
      }
    } else {
      var h := SlowOwnersShareTheKey(cfg, Fingerprint("", [], None), map[]);
      WithinLonger(cfg, h, cfg.inflightTtl, limit);
      assert !OneOwner(After(cfg, h));
    }
  }

  // ---------------------------------------------------------------- streams have no time limit

  /** Time passes in steps that no stall timeout cuts: a stream whose events come that often goes on. */
  ghost predicate NeverStalls(h: History, timeout: real) {
    h.Then? ==> NeverStalls(h.before, timeout) && (h.last.Wait? ==> h.last.seconds <= timeout)
  }

  /** Every operation is safe, every command answered, and no step of time longer than the timeout. */
  ghost predicate Undisturbed(cfg: Config, h: History, timeout: real) {
    Legal(cfg, h) && AllSafe(h) && AllAnswered(h) && NeverStalls(h, timeout)
  }

  lemma Continue(cfg: Config, h: History, l: Label, timeout: real) returns (g: History)
    requires Undisturbed(cfg, h, timeout) && Enabled(After(cfg, h), l)
    requires l.Operation? ==> SafeOperation(l.end, l.executions)
    requires l.Command? ==> l.network.Answered?
    requires l.Wait? ==> l.seconds <= timeout
    ensures g == Then(h, l) && Undisturbed(cfg, g, timeout) && After(cfg, g) == Step(cfg, After(cfg, h), l)
  {
    g := Then(h, l);
  }

  function Times(n: nat, gap: real): real {
    n as real * gap
  }

  lemma {:induction false} WaitOften(cfg: Config, h: History, timeout: real, gap: real, n: nat) returns (g: History)
    requires Undisturbed(cfg, h, timeout) && 0.0 <= gap <= timeout
    ensures Undisturbed(cfg, g, timeout)
    ensures var s, t := After(cfg, h), After(cfg, g); t == s.(now := t.now, lapsed := t.lapsed)
    ensures After(cfg, g).now == After(cfg, h).now + Times(n, gap)
    decreases n
  {
    g := h;
    if n > 0 {
      g := WaitOften(cfg, h, timeout, gap, n - 1);
      g := Continue(cfg, g, Wait(gap), timeout);
      assert Times(n, gap) == Times(n - 1, gap) + gap;
    } else {
      assert Times(0, gap) == 0.0;
    }
  }

  /** A time divided into steps that are short enough. */
  lemma ShortSteps(total: real, timeout: real) returns (n: nat, gap: real)
    requires total > 0.0 && timeout > 0.0
    ensures 0.0 <= gap <= timeout && Times(n, gap) == total
  {
    var x := total / timeout;
    assert x * timeout == total && x > 0.0;
    n := x.Floor + 1;
    gap := total / n as real;
    assert gap * n as real == total;
    assert n as real * timeout >= x * timeout;
    assert gap <= timeout by {
      assert (timeout - gap) * n as real >= 0.0;
    }
  }

  /** A stream that has opened and lasted as long as its claim. */
  lemma PatientStream(cfg: Config, timeout: real, mine: Fingerprint) returns (h: History)
    requires PositiveTtls(cfg) && timeout > 0.0
    ensures Undisturbed(cfg, h, timeout)
    ensures var s := After(cfg, h);
            && s.clients == map[0 := Client(mine, true, Streaming(0.0))]
            && s.now == cfg.inflightTtl && Visible(s.slot, s.now).None? && s.executed == 1
  {
    h := Continue(cfg, Start, Arrive(0, mine, true), timeout);
    h := Continue(cfg, h, Command(0, Answered), timeout);
    h := Continue(cfg, h, Operation(0, OperationEnd.Opened, 1), timeout);
    var n, gap := ShortSteps(cfg.inflightTtl, timeout);
    h := WaitOften(cfg, h, timeout, gap, n);
  }

  /** In the meantime another request has run and stored its response. */
  lemma ServedMeanwhile(cfg: Config, timeout: real, mine: Fingerprint, theirs: Fingerprint, body: Body)
    returns (h: History)
    requires PositiveTtls(cfg) && timeout > 0.0
    ensures Undisturbed(cfg, h, timeout)
    ensures var s := After(cfg, h);
            && s.clients == map[0 := Client(mine, true, Streaming(0.0)),
                                1 := Client(theirs, false, Finished(Delivered))]
            && Visible(s.slot, s.now) == Some(RecordWritten(theirs, Complete(body))) && s.executed == 2
  {
    h := PatientStream(cfg, timeout, mine);
    h := Continue(cfg, h, Arrive(1, theirs, false), timeout);
    h := Continue(cfg, h, Command(1, Answered), timeout);
    h := Continue(cfg, h, Operation(1, Returned(body), 1), timeout);
    h := Continue(cfg, h, Command(1, Answered), timeout);
  }

  /** A stream may outlive its claim although every one of its events comes in time, because only stalls are
      timed: it then overwrites the response that another request was served and stored, and a retry of that
      request gets the stream's response, or a conflict, in its place. */
  lemma PatientStreamOverwrites(cfg: Config, timeout: real, mine: Fingerprint, theirs: Fingerprint, stream: Body,
                                body: Body) returns (h: History)
    requires PositiveTtls(cfg) && timeout > 0.0
    ensures Legal(cfg, h) && AllSafe(h) && NoLostWrites(cfg, h) && NeverStalls(h, timeout)
    ensures h.Then? && h.last == Command(0, Answered) && After(cfg, h).executed == 2
    ensures var s := After(cfg, h.before);
            && 1 in s.clients && s.clients[1] == Client(theirs, false, Finished(Delivered))
            && Visible(s.slot, s.now) == Some(RecordWritten(theirs, Complete(body)))
    ensures var s := After(cfg, h); Visible(s.slot, s.now) == Some(RecordWritten(mine, Complete(stream)))
    ensures Answer(theirs, RecordWritten(mine, Complete(stream)))
            == if mine == theirs then Replayed(stream) else Conflict
  {
    h := ServedMeanwhile(cfg, timeout, mine, theirs, body);
    h := Continue(cfg, h, StreamCompletes(0, stream), timeout);
    h := Continue(cfg, h, Command(0, Answered), timeout);
    AnsweredWritesAreKept(cfg, h);
  }

  // ---------------------------------------------------------------- when owners are prompt

  /** The time spent on the first `n` candidates, and how many of them were really called. */
  function Elapsed(durations: seq<real>, n: nat): real
    requires n <= |durations|
  {
    if n == 0 then 0.0 else Elapsed(durations, n - 1) + durations[n - 1]
  }

  function Called(classes: seq<Class>, n: nat): nat
    requires n <= |classes|
  {
    if n == 0 then 0 else Called(classes, n - 1) + (if classes[n - 1].Skipped? then 0 else 1)
  }

  /** Every call is cut by the timeout, and skipping a candidate takes no time. */
  ghost predicate TimedOut(classes: seq<Class>, durations: seq<real>, timeout: real) {
    && |durations| == |classes|
    && forall i :: 0 <= i < |classes| ==> durations[i] <= if classes[i].Skipped? then 0.0 else timeout
  }

  lemma {:induction false} CallsAreBounded(classes: seq<Class>, durations: seq<real>, timeout: real, n: nat)
    requires TimedOut(classes, durations, timeout) && n <= |classes|
    ensures Elapsed(durations, n) <= Called(classes, n) as real * timeout
  {
    if n > 0 {
      CallsAreBounded(classes, durations, timeout, n - 1);
      var k := Called(classes, n - 1);
      assert (k + 1) as real * timeout == k as real * timeout + timeout;
    }
  }

  /** A request's candidates, how long each takes if it is tried, and how long its stream takes, if it is
      streamed, from the first event to the last. */
  datatype Plan = Plan(classes: seq<Class>, policy: FailoverPolicy, durations: seq<real>, streaming: real)

  function TriedBy(p: Plan): nat {
    Reached(p.classes, Select(p.classes, p.policy))
  }

  /** How long the plan's failover takes. */
  function WorkTime(p: Plan): real
    requires |p.durations| == |p.classes|
  {
    Elapsed(p.durations, TriedBy(p))
  }

  /** What else takes time: from the claim to the start of the operation, and from the end of the operation
      or the stream to the last settling write. */
  datatype Overhead = Overhead(opening: real, closing: real)

  /** The candidates that are called, each for the provider timeout, the stream and the overhead fit into the
      claim. */
  ghost predicate FitsClaim(cfg: Config, p: Plan, timeout: real, o: Overhead) {
    && TimedOut(p.classes, p.durations, timeout) && p.streaming >= 0.0
    && o.opening + Called(p.classes, TriedBy(p)) as real * timeout + p.streaming + o.closing < cfg.inflightTtl
  }

  lemma WorkFitsClaim(cfg: Config, p: Plan, timeout: real, o: Overhead)
    requires FitsClaim(cfg, p, timeout, o)
    ensures o.opening + WorkTime(p) + p.streaming + o.closing < cfg.inflightTtl
  {
    CallsAreBounded(p.classes, p.durations, timeout, TriedBy(p));
  }

  /** When the request's operation or, if it is over, its stream ended. */
  ghost function EndedAt(cfg: Config, h: History, id: nat): real
    requires Legal(cfg, h)
  {
    if h.Start? then 0.0
    else if (h.last.Operation? || h.last.StreamCompletes? || h.last.StreamBreaks?) && h.last.id == id then
      After(cfg, h).now
    else
      EndedAt(cfg, h.before, id)
  }

  /** An owner's operation, its stream and its settling take no longer than planned. */
  ghost predicate OnTime(cfg: Config, h: History, id: nat, p: Plan, o: Overhead)
    requires Legal(cfg, h) && id in After(cfg, h).clients && |p.durations| == |p.classes|
  {
    var s := After(cfg, h);
    match s.clients[id].phase
    case Running(since) => s.now <= since + o.opening + WorkTime(p)
    case Streaming(_) => s.now <= EndedAt(cfg, h, id) + p.streaming
    case Settling(_, _) => s.now <= EndedAt(cfg, h, id) + o.closing
    case _ => true
  }

  /** In every state of the run the owners are on time. */
  ghost predicate Punctual(cfg: Config, h: History, plans: nat -> Plan, o: Overhead)
    requires Legal(cfg, h)
  {
    && (h.Then? ==> Punctual(cfg, h.before, plans, o))
    && forall i | i in After(cfg, h).clients && Owns(After(cfg, h).clients[i].phase) ::
         |plans(i).durations| == |plans(i).classes| && OnTime(cfg, h, i, plans(i), o)
  }

  /** The owner's operation ended within its plan, and so did its stream. */
  ghost predicate EndedInTime(cfg: Config, h: History, id: nat, p: Plan, o: Overhead)
    requires Legal(cfg, h) && id in After(cfg, h).clients && |p.durations| == |p.classes|
  {
    match After(cfg, h).clients[id].phase
    case Streaming(since) => EndedAt(cfg, h, id) <= since + o.opening + WorkTime(p)
    case Settling(since, _) => EndedAt(cfg, h, id) <= since + o.opening + WorkTime(p) + p.streaming
    case _ => true
  }

  lemma EndedInTimeStep(cfg: Config, h: History, id: nat, p: Plan, o: Overhead)
    requires Legal(cfg, h) && h.Then? && |p.durations| == |p.classes| && p.streaming >= 0.0
    requires id in After(cfg, h).clients
    requires id in After(cfg, h.before).clients ==>
               EndedInTime(cfg, h.before, id, p, o)
               && (Owns(After(cfg, h.before).clients[id].phase) ==> OnTime(cfg, h.before, id, p, o))
    ensures EndedInTime(cfg, h, id, p, o)
  {
    var s, t := After(cfg, h.before), After(cfg, h);
    assert t == Step(cfg, s, h.last);
    if id in s.clients && (h.last.Arrive? || h.last.Wait? || h.last.id != id) {
      assert t.clients[id] == s.clients[id];
      assert EndedAt(cfg, h, id) == EndedAt(cfg, h.before, id);
    } else if id in s.clients && !h.last.Command? {
      assert EndedAt(cfg, h, id) == t.now == s.now;
    }
  }

  lemma {:induction false} OwnersEndInTime(cfg: Config, h: History, plans: nat -> Plan, o: Overhead, id: nat)
    requires Legal(cfg, h) && Punctual(cfg, h, plans, o)
    requires |plans(id).durations| == |plans(id).classes| && plans(id).streaming >= 0.0
    requires id in After(cfg, h).clients
    ensures EndedInTime(cfg, h, id, plans(id), o)
  {
    if h.Then? {
      if id in After(cfg, h.before).clients { OwnersEndInTime(cfg, h.before, plans, o, id); }
      EndedInTimeStep(cfg, h, id, plans(id), o);
    }
  }

  /** If in every state owners are on time, and the candidates that each one calls take, at the provider
      timeout, and with its stream and the overhead, less than a claim lasts, then every owner is prompt. */
  lemma {:induction false} OwnersArePrompt(cfg: Config, h: History, plans: nat -> Plan, timeout: real, o: Overhead)
    requires Legal(cfg, h) && Punctual(cfg, h, plans, o) && o.closing >= 0.0
    requires forall i: nat :: FitsClaim(cfg, plans(i), timeout, o)
    ensures Prompt(cfg, h)
  {
    if h.Then? { OwnersArePrompt(cfg, h.before, plans, timeout, o); }
    var s := After(cfg, h);
    forall i | i in s.clients && Owns(s.clients[i].phase)
      ensures s.now < s.clients[i].phase.since + cfg.inflightTtl
    {
      assert FitsClaim(cfg, plans(i), timeout, o);
      WorkFitsClaim(cfg, plans(i), timeout, o);
      OwnersEndInTime(cfg, h, plans, o, i);
      assert OnTime(cfg, h, i, plans(i), o);
    }
  }
}
