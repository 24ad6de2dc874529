/** The idempotency protocol: unboundedly many requests that share one key, interleaved at every Redis
    command and every operation (`app/services/idempotency_service.py` over
    `app/infra/idempotency/redis_store.py`).

    Every command may be answered, never run, or run with its answer lost; operations end in any way;
    a record lapses when time reaches its expiry.  There is no fencing token: a settling write does not
    check whose record it overwrites. */
module IdempotencyRuns {
  import opened Options
  import opened RedisCommands
  import opened IdempotencyStores

  /** How an owner's operation ends: with a response; for a streamed request, with a committed stream;
      with an `UpstreamAmbiguous`; or with anything else, cancellation included. */
  datatype OperationEnd = Returned(body: Body) | Opened | RaisedAmbiguous(why: string) | RaisedOther

  datatype Result =
    | Delivered
    | Failed
    | StoreDown
    | Replayed(body: Body)
    | Conflict
    | StillRunning
    | OutcomeUnknown(why: Option<string>)

  datatype Phase =
    | Claiming(attempt: nat)
    | Looking(attempt: nat)
    | Running(since: real)
    | Streaming(since: real)
    | Settling(since: real, write: Write)
    | Finished(result: Result)

  datatype Client = Client(fingerprint: Fingerprint, streamed: bool, phase: Phase)

  /** The key's slot, the requests, the clock; whether a record has lapsed; how many operations have
      returned, committed a stream or raised ambiguous; and how many provider calls have executed. */
  datatype State = State(slot: Option<Stored>, clients: map<nat, Client>, now: real,
                         lapsed: bool, settled: nat, executed: nat)

  datatype Label =
    | Arrive(id: nat, fingerprint: Fingerprint, streamed: bool)
    | Wait(seconds: real)
    | Command(id: nat, network: Network)
    | Operation(id: nat, end: OperationEnd, executions: nat)
    | StreamCompletes(id: nat, body: Body)
    | StreamBreaks(id: nat, why: string)

  predicate Owns(p: Phase) {
    p.Running? || p.Streaming? || p.Settling?
  }

  ghost predicate Enabled(s: State, l: Label) {
    match l
    case Arrive(id, _, _) => id !in s.clients
    case Wait(seconds) => seconds >= 0.0
    case Command(id, _) =>
      id in s.clients && var p := s.clients[id].phase; p.Claiming? || p.Looking? || p.Settling?
    case Operation(id, end, _) =>
      && id in s.clients && s.clients[id].phase.Running?
      && (end.Returned? ==> !s.clients[id].streamed) && (end.Opened? ==> s.clients[id].streamed)
    case StreamCompletes(id, _) => id in s.clients && s.clients[id].phase.Streaming?
    case StreamBreaks(id, _) => id in s.clients && s.clients[id].phase.Streaming?
  }

  const STORE_UNAVAILABLE := "Idempotency store is unavailable, retry the request"

  /** What a request that found a record answers. */
  function Answer(fingerprint: Fingerprint, r: Record): Result {
    if r.fingerprint != fingerprint then Conflict
    else match r.status
      case Completed => Replayed(if r.response.Some? then r.response.value else map[])
      case Ambiguous => OutcomeUnknown(r.error)
      case InProgress => StillRunning
  }

  function AfterReservation(r: Reservation, fingerprint: Fingerprint, now: real): Phase {
    match r
    case AtSet(k) => Claiming(k)
    case AtGet(k) => Looking(k)
    case Reserved => Running(now)
    case Existing(record) => Finished(Answer(fingerprint, record))
    case Unavailable => Finished(StoreDown)
  }

  /** A response that cannot be stored raises: to the caller of a plain request, and into the settling
      of a stream, which then parks the key as ambiguous. */
  function AfterSettling(c: Client, since: real, write: Write, network: Network): Phase {
    if !write.Complete? then Finished(Failed)
    else if network.Answered? then Finished(Delivered)
    else if c.streamed then Settling(since, MarkAmbiguous(STORE_UNAVAILABLE))
    else Finished(StoreDown)
  }

  function AfterOperation(since: real, end: OperationEnd): Phase {
    match end
    case Returned(body) => Settling(since, Complete(body))
    case Opened => Streaming(since)
    case RaisedAmbiguous(why) => Settling(since, MarkAmbiguous(why))
    case RaisedOther => Settling(since, Release)
  }

  /** The next phase of a client whose next command meets the slot in its present state. */
  function AfterCommand(s: State, c: Client, network: Network): Phase {
    match c.phase
    case Claiming(k) => AfterReservation(OnSet(k, SetReplyOf(s.slot, s.now, network)), c.fingerprint, s.now)
    case Looking(k) => AfterReservation(OnGet(k, GetReplyOf(s.slot, s.now, network)), c.fingerprint, s.now)
    case Settling(since, write) => AfterSettling(c, since, write, network)
    case p => p
  }

  function SlotAfterCommand(cfg: Config, s: State, c: Client, network: Network): Option<Stored> {
    match c.phase
    case Claiming(_) => AfterClaim(cfg, s.slot, c.fingerprint, s.now, network)
    case Settling(_, write) => AfterWrite(cfg, s.slot, write, c.fingerprint, s.now, network)
    case _ => s.slot
  }

  function Move(s: State, id: nat, phase: Phase): State
    requires id in s.clients
  {
    s.(clients := s.clients[id := s.clients[id].(phase := phase)])
  }

  ghost function Step(cfg: Config, s: State, l: Label): State
    requires Enabled(s, l)
  {
    match l
    case Arrive(id, fingerprint, streamed) =>
      s.(clients := s.clients[id := Client(fingerprint, streamed, Claiming(0))])
    case Wait(seconds) =>
      var later := s.now + seconds;
      s.(now := later, lapsed := s.lapsed || (s.slot.Some? && later >= s.slot.value.expireAt))
    case Command(id, network) =>
      var c := s.clients[id];
      Move(s, id, AfterCommand(s, c, network)).(slot := SlotAfterCommand(cfg, s, c, network))
    case Operation(id, end, executions) =>
      Move(s, id, AfterOperation(s.clients[id].phase.since, end)).(
        settled := if end.RaisedOther? then s.settled else s.settled + 1,
        executed := s.executed + executions)
    case StreamCompletes(id, body) => Move(s, id, Settling(s.clients[id].phase.since, Complete(body)))
    case StreamBreaks(id, why) => Move(s, id, Settling(s.clients[id].phase.since, MarkAmbiguous(why)))
  }

  datatype History = Start | Then(before: History, last: Label)

  const INITIAL := State(None, map[], 0.0, false, 0, 0)

  ghost predicate Legal(cfg: Config, h: History)
    decreases h, 1
  {
    h.Then? ==> Legal(cfg, h.before) && Enabled(After(cfg, h.before), h.last)
  }

  /** The state that a run leads to. */
  ghost function After(cfg: Config, h: History): State
    requires Legal(cfg, h)
    decreases h, 2
  {
    if h.Start? then INITIAL else Step(cfg, After(cfg, h.before), h.last)
  }

  ghost predicate Extends(h: History, earlier: History) {
    h == earlier || (h.Then? && Extends(h.before, earlier))
  }

  // ---------------------------------------------------------------- safety without fencing

  ghost predicate PositiveTtls(cfg: Config) {
    cfg.inflightTtl > 0.0 && cfg.completedTtl > 0.0
  }

  /** The owner's operation is running, or ended in a way that frees the key. */
  predicate Undecided(p: Phase) {
    p.Running? || (p.Settling? && p.write.Release?)
  }

  ghost predicate OneOwner(s: State) {
    forall i, j | i in s.clients && j in s.clients && Owns(s.clients[i].phase) && Owns(s.clients[j].phase) :: i == j
  }

  /** Until a record lapses: one owner at most, whose claim is still there; once an operation may have
      executed, the record stays and its owner is past the point of freeing the key. */
  ghost predicate Safe(s: State) {
    && (s.slot.Some? ==> s.now < s.slot.value.expireAt)
    && OneOwner(s)
    && (forall i | i in s.clients && Owns(s.clients[i].phase) :: s.slot.Some?)
    && s.settled <= 1
    && (s.settled == 1 ==> s.slot.Some?)
    && (forall i | i in s.clients && Owns(s.clients[i].phase) ::
          s.settled == 0 <==> Undecided(s.clients[i].phase))
  }

  /** A step of the owner: there is no other owner to disturb. */
  lemma OwnerMoves(s: State, t: State, id: nat, phase: Phase)
    requires Safe(s) && id in s.clients && Owns(s.clients[id].phase)
    requires t.clients == s.clients[id := s.clients[id].(phase := phase)]
    requires t.slot.Some? ==> t.now < t.slot.value.expireAt
    requires t.settled <= 1 && (t.settled == 1 ==> t.slot.Some?)
    requires Owns(phase) ==> t.slot.Some? && (t.settled == 0 <==> Undecided(phase))
    ensures Safe(t)
  {
    assert forall j | j in t.clients && j != id :: t.clients[j] == s.clients[j];
  }

  /** A step of another request: it claims a free key or leaves the owner's record alone. */
  lemma OutsiderMoves(s: State, t: State, id: nat, phase: Phase)
    requires Safe(s) && id in s.clients && !Owns(s.clients[id].phase)
    requires t.clients == s.clients[id := s.clients[id].(phase := phase)] && t.settled == s.settled
    requires t.slot.Some? ==> t.now < t.slot.value.expireAt
    requires t.slot == s.slot || s.slot.None?
    requires Owns(phase) ==> s.slot.None? && t.slot.Some? && Undecided(phase)
    ensures Safe(t)
  {
    assert forall j | j in t.clients && j != id :: t.clients[j] == s.clients[j];
  }

  lemma StepIsSafe(cfg: Config, s: State, l: Label)
    requires PositiveTtls(cfg) && Enabled(s, l)
    requires Safe(s) && !Step(cfg, s, l).lapsed
    ensures Safe(Step(cfg, s, l))
  {
    var t := Step(cfg, s, l);
    if !l.Arrive? && !l.Wait? {
      var phase := t.clients[l.id].phase;
      if Owns(s.clients[l.id].phase) {
        OwnerMoves(s, t, l.id, phase);
      } else {
        OutsiderMoves(s, t, l.id, phase);
      }
    }
  }

  /** Over every run, with any writes lost, until a record lapses: no key has two owners, an owner's
      record is there, and at most one operation returns, commits a stream or raises ambiguous. */
  lemma {:induction false} RunsAreSafe(cfg: Config, h: History)
    requires PositiveTtls(cfg) && Legal(cfg, h) && !After(cfg, h).lapsed
    ensures Safe(After(cfg, h))
  {
    if h.Then? {
      var s := After(cfg, h.before);
      assert !s.lapsed;
      RunsAreSafe(cfg, h.before);
      StepIsSafe(cfg, s, h.last);
    }
  }

  /** Did the operation of request `id` raise something other than `UpstreamAmbiguous`? */
  ghost predicate RaisedCleanly(h: History, id: nat) {
    h.Then? && ((h.last.Operation? && h.last.id == id && h.last.end.RaisedOther?) || RaisedCleanly(h.before, id))
  }

  lemma {:induction false} ReleasesAreJustified(cfg: Config, h: History, id: nat)
    requires Legal(cfg, h)
    requires id in After(cfg, h).clients
    requires After(cfg, h).clients[id].phase.Settling? && After(cfg, h).clients[id].phase.write.Release?
    ensures RaisedCleanly(h, id)
  {
    var s := After(cfg, h.before);
    if id in s.clients && s.clients[id].phase.Settling? && s.clients[id].phase.write.Release? {
      ReleasesAreJustified(cfg, h.before, id);
    }
  }

  /** Over every run: a step after which a visible record is gone is either time passing its expiry, or
      the release by a request whose operation had raised a non-ambiguous failure. */
  lemma OnlyReleasesFreeTheKey(cfg: Config, h: History)
    requires PositiveTtls(cfg) && Legal(cfg, h) && h.Then?
    requires Visible(After(cfg, h.before).slot, After(cfg, h.before).now).Some?
    requires Visible(After(cfg, h).slot, After(cfg, h).now).None?
    ensures h.last.Wait? || (h.last.Command? && RaisedCleanly(h.before, h.last.id))
    ensures h.last.Wait? ==> After(cfg, h).lapsed
  {
    var s := After(cfg, h.before);
    if h.last.Command? && s.clients[h.last.id].phase.Settling? {
      ReleasesAreJustified(cfg, h.before, h.last.id);
    }
  }

  // ---------------------------------------------------------------- replays are genuine

  /** A request with this fingerprint ran an operation that produced this response. */
  ghost predicate Produced(cfg: Config, h: History, fingerprint: Fingerprint, body: Body)
    requires Legal(cfg, h)
  {
    h.Then? &&
    (|| Produced(cfg, h.before, fingerprint, body)
     || (h.last.Operation? && h.last.end == Returned(body)
         && After(cfg, h.before).clients[h.last.id].fingerprint == fingerprint)
     || (h.last.StreamCompletes? && h.last.body == body
         && After(cfg, h.before).clients[h.last.id].fingerprint == fingerprint))
  }

  /** The response that a request is about to store, or has replayed. */
  function HoldsResponse(p: Phase): Option<Body> {
    match p
    case Settling(_, Complete(body)) => Some(body)
    case Finished(Replayed(body)) => Some(body)
    case _ => None
  }

  /** Every response stored, about to be stored or replayed was produced for its fingerprint. */
  ghost predicate Genuine(cfg: Config, h: History)
    requires Legal(cfg, h)
  {
    var s := After(cfg, h);
    && (s.slot.Some? && s.slot.value.record.status.Completed? ==>
          && s.slot.value.record.response.Some?
          && Produced(cfg, h, s.slot.value.record.fingerprint, s.slot.value.record.response.value))
    && (forall i | i in s.clients && HoldsResponse(s.clients[i].phase).Some? ::
          Produced(cfg, h, s.clients[i].fingerprint, HoldsResponse(s.clients[i].phase).value))
  }

  lemma ProducedRemains(cfg: Config, h: History, fingerprint: Fingerprint, body: Body)
    requires Legal(cfg, h) && h.Then? && Produced(cfg, h.before, fingerprint, body)
    ensures Produced(cfg, h, fingerprint, body)
  {
  }

  lemma RecordIsGenuine(cfg: Config, h: History)
    requires Legal(cfg, h) && h.Then? && Genuine(cfg, h.before)
    requires var r := After(cfg, h).slot; r.Some? && r.value.record.status.Completed?
    ensures var r := After(cfg, h).slot.value.record;
            r.response.Some? && Produced(cfg, h, r.fingerprint, r.response.value)
  {
    var s, t := After(cfg, h.before), After(cfg, h);
    assert t == Step(cfg, s, h.last);
    if s.slot == t.slot {
      ProducedRemains(cfg, h, t.slot.value.record.fingerprint, t.slot.value.record.response.value);
    } else {
      var c := s.clients[h.last.id];
      assert HoldsResponse(c.phase) == Some(c.phase.write.body);
      ProducedRemains(cfg, h, c.fingerprint, c.phase.write.body);
    }
  }

  /** Where a response that a request holds after a step comes from: it held it before, its operation
      produced it in this step, or it read it from the record. */
  lemma HeldResponseStep(cfg: Config, s: State, l: Label, i: nat)
    requires Enabled(s, l) && i in Step(cfg, s, l).clients
    requires HoldsResponse(Step(cfg, s, l).clients[i].phase).Some?
    ensures i in s.clients && s.clients[i].fingerprint == Step(cfg, s, l).clients[i].fingerprint
    ensures var (was, body) := (s.clients[i], HoldsResponse(Step(cfg, s, l).clients[i].phase).value);
            || HoldsResponse(was.phase) == Some(body)
            || (l.Operation? && l.id == i && l.end == Returned(body))
            || (l.StreamCompletes? && l.id == i && l.body == body)
            || (s.slot.Some? && var r := s.slot.value.record;
                  r.status.Completed? && r.fingerprint == was.fingerprint
                  && body == if r.response.Some? then r.response.value else map[])
  {
    if l.Arrive? || l.Wait? || l.id != i {
      assert i in s.clients ==> Step(cfg, s, l).clients[i] == s.clients[i];
    }
  }

  lemma ClientIsGenuine(cfg: Config, h: History, i: nat)
    requires Legal(cfg, h) && h.Then? && Genuine(cfg, h.before)
    requires i in After(cfg, h).clients && HoldsResponse(After(cfg, h).clients[i].phase).Some?
    ensures var c := After(cfg, h).clients[i]; Produced(cfg, h, c.fingerprint, HoldsResponse(c.phase).value)
  {
    var s := After(cfg, h.before);
    assert After(cfg, h) == Step(cfg, s, h.last);
    HeldResponseStep(cfg, s, h.last, i);
  }

  /** Over every run, lapses and lost writes included: a replayed response was produced by an operation
      of a request with the same fingerprint. */
  lemma {:induction false} ReplaysAreGenuine(cfg: Config, h: History)
    requires Legal(cfg, h)
    ensures Genuine(cfg, h)
  {
    if h.Then? {
      var s, t := After(cfg, h.before), After(cfg, h);
      assert t == Step(cfg, s, h.last);
      ReplaysAreGenuine(cfg, h.before);
      if t.slot.Some? && t.slot.value.record.status.Completed? {
        RecordIsGenuine(cfg, h);
      }
      forall i | i in t.clients && (HoldsResponse(t.clients[i].phase).Some?)
        ensures Produced(cfg, h, t.clients[i].fingerprint, HoldsResponse(t.clients[i].phase).value)
      {
        ClientIsGenuine(cfg, h, i);
      }
    }
  }

  // ---------------------------------------------------------------- at most one execution

  /** An operation executes at most one provider call, and one that did does not free the key. */
  predicate SafeOperation(end: OperationEnd, executions: nat) {
    executions <= 1 && (executions == 1 ==> !end.RaisedOther?)
  }

  /** Every operation of the run is safe, or ends like the given one. */
  ghost predicate OperationsAre(h: History, end: OperationEnd, executions: nat) {
    h.Then? ==>
      && OperationsAre(h.before, end, executions)
      && (h.last.Operation? ==> SafeOperation(h.last.end, h.last.executions)
                                || (h.last.end == end && h.last.executions == executions))
  }

  ghost predicate AllSafe(h: History) {
    h.Then? ==> AllSafe(h.before) && (h.last.Operation? ==> SafeOperation(h.last.end, h.last.executions))
  }

  lemma {:induction false} ExecutionsAreSettled(cfg: Config, h: History)
    requires Legal(cfg, h) && AllSafe(h)
    ensures After(cfg, h).executed <= After(cfg, h).settled
  {
    if h.Then? { ExecutionsAreSettled(cfg, h.before); }
  }

  /** If every operation is safe, at most one provider call executes in the whole run of the key. */
  lemma AtMostOneExecution(cfg: Config, h: History)
    requires PositiveTtls(cfg) && Legal(cfg, h) && !After(cfg, h).lapsed
    requires AllSafe(h)
    ensures After(cfg, h).executed <= 1
  {
    RunsAreSafe(cfg, h);
    ExecutionsAreSettled(cfg, h);
  }

  lemma Grow(cfg: Config, h: History, l: Label, end: OperationEnd, executions: nat) returns (g: History)
    requires Legal(cfg, h) && Enabled(After(cfg, h), l) && OperationsAre(h, end, executions)
    requires l.Operation? ==> SafeOperation(l.end, l.executions) || (l.end == end && l.executions == executions)
    ensures g == Then(h, l) && Legal(cfg, g) && After(cfg, g) == Step(cfg, After(cfg, h), l)
    ensures OperationsAre(g, end, executions)
  {
    g := Then(h, l);
  }

  /** A run in which an unsafe operation leads to a second execution before anything lapses. */
  lemma UnsafeOperationRunsTwice(cfg: Config, end: OperationEnd, executions: nat, fingerprint: Fingerprint)
    returns (h: History)
    requires PositiveTtls(cfg) && !SafeOperation(end, executions)
    ensures Legal(cfg, h) && !After(cfg, h).lapsed && After(cfg, h).executed >= 2
    ensures OperationsAre(h, end, executions)
  {
    h := Grow(cfg, Start, Arrive(0, fingerprint, end.Opened?), end, executions);
    h := Grow(cfg, h, Command(0, Answered), end, executions);
    h := Grow(cfg, h, Operation(0, end, executions), end, executions);
    if executions < 2 {
      h := Grow(cfg, h, Command(0, Answered), end, executions);
      assert After(cfg, h).slot.None?;
      h := Grow(cfg, h, Arrive(1, fingerprint, false), end, executions);
      h := Grow(cfg, h, Command(1, Answered), end, executions);
      h := Grow(cfg, h, Operation(1, Returned(map[]), 1), end, executions);
    }
  }

  lemma {:induction false} SafeOperationsAreSafe(h: History, end: OperationEnd, executions: nat)
    requires OperationsAre(h, end, executions) && SafeOperation(end, executions)
    ensures AllSafe(h)
  {
    if h.Then? { SafeOperationsAreSafe(h.before, end, executions); }
  }

  /** Adding one kind of operation to the safe ones keeps the at-most-once guarantee if and only if that
      kind is safe itself: cancelling an operation after its provider ran, or failing it for any other
      non-ambiguous reason, frees the key for a second execution. */
  lemma AtMostOnceIffSafe(cfg: Config, end: OperationEnd, executions: nat)
    requires PositiveTtls(cfg)
    ensures SafeOperation(end, executions) <==>
            forall h | Legal(cfg, h) && !After(cfg, h).lapsed
                       && OperationsAre(h, end, executions) ::
              After(cfg, h).executed <= 1
  {
    if SafeOperation(end, executions) {
      forall h | Legal(cfg, h) && !After(cfg, h).lapsed && OperationsAre(h, end, executions)
        ensures After(cfg, h).executed <= 1
      {
        SafeOperationsAreSafe(h, end, executions);
        AtMostOneExecution(cfg, h);
      }
    } else {
      var h := UnsafeOperationRunsTwice(cfg, end, executions, Fingerprint("", [], None));
    }
  }
}
