/** Failover over ranked candidates and billing (`app/services/gateway_service.py`).

    `Selection` says declaratively which candidate decides a request; the two failover loops, over calls
    and over streams, are proved to make the same selection from different code. */
module Gateways {
  import opened Options
  import opened Sequences
  import opened Chat
  import opened Streams

  /** What trying one ranked candidate would come to; a candidate may have no adapter configured. */
  datatype Attempt = NotRegistered | Tried(outcome: Outcome)

  datatype StreamAttempt = NoAdapter | Opened(stream: Source)

  /** What the failover loops distinguish. */
  datatype Class = Skipped | NotRun | Unknown | Served | Broken

  function ClassOfFailure(f: Failure): Class {
    if f.UpstreamUnavailable? then NotRun else if f.IsAmbiguous() then Unknown else Broken
  }

  function ClassOf(a: Attempt): Class {
    match a
    case NotRegistered => Skipped
    case Tried(Responds(_)) => Served
    case Tried(Raises(f)) => ClassOfFailure(f)
  }

  /** Only a stream's first event counts; a stream without any event counts as not run. */
  function ClassOfStream(a: StreamAttempt): Class {
    match a
    case NoAdapter => Skipped
    case Opened(stream) =>
      match Pull(stream, 0)
      case Event(_) => Served
      case StopIteration => NotRun
      case Raise(f) => ClassOfFailure(f)
      case Timeout => Broken
  }

  function Classes(attempts: seq<Attempt>): seq<Class> {
    seq(|attempts|, i requires 0 <= i < |attempts| => ClassOf(attempts[i]))
  }

  function StreamClasses(attempts: seq<StreamAttempt>): seq<Class> {
    seq(|attempts|, i requires 0 <= i < |attempts| => ClassOfStream(attempts[i]))
  }

  predicate Decisive(c: Class, policy: FailoverPolicy) {
    c.Served? || c.Broken? || (c.Unknown? && policy.AtMostOnce?)
  }

  /** Which candidate decides a request: the one at `index`, whatever it came to; or, when all were
      passed over, the last one whose outcome is unknown; or nobody. */
  datatype Selection = Decided(index: nat) | StillUnknown(index: nat) | Nobody

  /** `s` is the selection for these classes: stated by what lies before and after the chosen index. */
  ghost predicate Selects(classes: seq<Class>, policy: FailoverPolicy, s: Selection) {
    match s
    case Decided(k) =>
      && k < |classes| && Decisive(classes[k], policy)
      && forall j :: 0 <= j < k ==> !Decisive(classes[j], policy)
    case StillUnknown(k) =>
      && k < |classes| && classes[k].Unknown?
      && (forall j :: 0 <= j < |classes| ==> !Decisive(classes[j], policy))
      && (forall j :: k < j < |classes| ==> !classes[j].Unknown?)
    case Nobody =>
      forall j :: 0 <= j < |classes| ==> classes[j].Skipped? || classes[j].NotRun?
  }

  /** The selection computed candidate by candidate. */
  function Select(classes: seq<Class>, policy: FailoverPolicy): (s: Selection)
    ensures Selects(classes, policy, s)
  {
    if classes == [] then Nobody
    else
      var c, s := Last(classes), Select(Front(classes), policy);
      if s.Decided? then s
      else if Decisive(c, policy) then Decided(|classes| - 1)
      else if c.Unknown? then StillUnknown(|classes| - 1)
      else s
  }

  /** There is exactly one selection, so the loops over calls and over streams agree on every script. */
  lemma SelectionIsUnique(classes: seq<Class>, policy: FailoverPolicy, s: Selection)
    requires Selects(classes, policy, s)
    ensures s == Select(classes, policy)
  {
    var t := Select(classes, policy);
    assert s.Decided? ==> Decisive(classes[s.index], policy);
    assert t.Decided? ==> Decisive(classes[t.index], policy);
  }

  /** What the deciding candidate's call came to. */
  function Failover(attempts: seq<Attempt>, policy: FailoverPolicy): Outcome {
    var s := Select(Classes(attempts), policy);
    if s.Nobody? then Raises(ProviderNotAvailable)
    else
      assert Classes(attempts)[s.index] == ClassOf(attempts[s.index]);
      attempts[s.index].outcome
  }

  /** The stream that a request commits to, or the failure raised before anything is sent. */
  datatype Commitment = Committed(stream: Source) | NotCommitted(failure: Failure)

  const TIMEOUT := OtherError("timeout")

  function Commit(attempts: seq<StreamAttempt>, policy: FailoverPolicy): Commitment {
    var s := Select(StreamClasses(attempts), policy);
    if s.Nobody? then NotCommitted(ProviderNotAvailable)
    else
      assert StreamClasses(attempts)[s.index] == ClassOfStream(attempts[s.index]);
      var stream := attempts[s.index].stream;
      match Pull(stream, 0)
      case Event(_) => Committed(stream)
      case Raise(f) => NotCommitted(f)
      case _ => NotCommitted(TIMEOUT)
  }

  /** A request's result is of the deciding candidate's class. */
  lemma FailoverFollowsClass(attempts: seq<Attempt>, policy: FailoverPolicy)
    ensures var s := Select(Classes(attempts), policy);
            if s.Nobody? then Failover(attempts, policy) == Raises(ProviderNotAvailable)
            else ClassOf(Tried(Failover(attempts, policy))) == Classes(attempts)[s.index]
  {
    var s := Select(Classes(attempts), policy);
    if !s.Nobody? {
      assert Classes(attempts)[s.index] == ClassOf(attempts[s.index]);
    }
  }

  /** So is a streamed request's, before its first event. */
  lemma CommitFollowsClass(attempts: seq<StreamAttempt>, policy: FailoverPolicy)
    ensures var s := Select(StreamClasses(attempts), policy);
            match Commit(attempts, policy)
            case Committed(_) => s.Decided? && StreamClasses(attempts)[s.index].Served?
            case NotCommitted(f) =>
              if s.Nobody? then f == ProviderNotAvailable
              else ClassOfFailure(f) == StreamClasses(attempts)[s.index]
  {
    var s := Select(StreamClasses(attempts), policy);
    if !s.Nobody? {
      assert StreamClasses(attempts)[s.index] == ClassOfStream(attempts[s.index]);
    }
  }

  // ---------------------------------------------------------------- attempt by attempt

  /** The candidate is not configured; or it is unavailable; or, under at-least-once, its outcome is unknown. */
  predicate PassedOver(a: Attempt, policy: FailoverPolicy) {
    match a
    case NotRegistered => true
    case Tried(Responds(_)) => false
    case Tried(Raises(f)) =>
      f.UpstreamUnavailable? || (policy.AtLeastOnce? && (f.UpstreamAmbiguous? || f.StreamInterrupted?))
  }

  /** Attempt `k` is the first that is not passed over. */
  ghost predicate FirstToDecide(attempts: seq<Attempt>, policy: FailoverPolicy, k: int) {
    && 0 <= k < |attempts| && !PassedOver(attempts[k], policy)
    && forall j :: 0 <= j < k ==> PassedOver(attempts[j], policy)
  }

  predicate RaisesAmbiguous(a: Attempt) {
    a.Tried? && a.outcome.Raises? && (a.outcome.failure.UpstreamAmbiguous? || a.outcome.failure.StreamInterrupted?)
  }

  ghost predicate LastAmbiguous(attempts: seq<Attempt>, k: int) {
    0 <= k < |attempts| && RaisesAmbiguous(attempts[k])
    && forall j :: k < j < |attempts| ==> !RaisesAmbiguous(attempts[j])
  }

  lemma ClassesOfAttempts(attempts: seq<Attempt>, policy: FailoverPolicy, k: nat)
    requires k < |attempts|
    ensures Classes(attempts)[k] == ClassOf(attempts[k])
    ensures Decisive(Classes(attempts)[k], policy) <==> !PassedOver(attempts[k], policy)
    ensures Classes(attempts)[k].Unknown? <==> RaisesAmbiguous(attempts[k])
  {
  }

  /** What a request comes to, attempt by attempt: the outcome of the first attempt that is not passed over,
      its own response or failure; when all are passed over, the failure of the last ambiguous one; and that
      nobody is available when there is none. */
  lemma FailoverByAttempt(attempts: seq<Attempt>, policy: FailoverPolicy)
    ensures forall k :: FirstToDecide(attempts, policy, k) ==> Tried(Failover(attempts, policy)) == attempts[k]
    ensures (forall j :: 0 <= j < |attempts| ==> PassedOver(attempts[j], policy)) ==>
              && (forall k :: LastAmbiguous(attempts, k) ==> Tried(Failover(attempts, policy)) == attempts[k])
              && ((forall j :: 0 <= j < |attempts| ==> !RaisesAmbiguous(attempts[j])) ==>
                    Failover(attempts, policy) == Raises(ProviderNotAvailable))
  {
    var classes := Classes(attempts);
    forall k: nat | k < |attempts|
      ensures Decisive(classes[k], policy) <==> !PassedOver(attempts[k], policy)
      ensures classes[k].Unknown? <==> RaisesAmbiguous(attempts[k])
    {
      ClassesOfAttempts(attempts, policy, k);
    }
    forall k | FirstToDecide(attempts, policy, k)
      ensures Tried(Failover(attempts, policy)) == attempts[k]
    {
      SelectionIsUnique(classes, policy, Decided(k));
    }
    if forall j :: 0 <= j < |attempts| ==> PassedOver(attempts[j], policy) {
      forall k | LastAmbiguous(attempts, k)
        ensures Tried(Failover(attempts, policy)) == attempts[k]
      {
        SelectionIsUnique(classes, policy, StillUnknown(k));
      }
      if forall j :: 0 <= j < |attempts| ==> !RaisesAmbiguous(attempts[j]) {
        SelectionIsUnique(classes, policy, Nobody);
      }
    }
  }

  /** A request returns a response exactly if some attempt gave it and every earlier one was passed over. */
  lemma RespondsExactlyWhen(attempts: seq<Attempt>, policy: FailoverPolicy, r: ChatResponse)
    ensures Failover(attempts, policy) == Responds(r) <==>
            exists k :: FirstToDecide(attempts, policy, k) && attempts[k] == Tried(Responds(r))
  {
    FailoverByAttempt(attempts, policy);
    if Failover(attempts, policy) == Responds(r) {
      var s := Select(Classes(attempts), policy);
      ClassesOfAttempts(attempts, policy, s.index);
      forall j: nat | j < s.index ensures PassedOver(attempts[j], policy) {
        ClassesOfAttempts(attempts, policy, j);
      }
      assert FirstToDecide(attempts, policy, s.index);
    }
  }

  /** The stream has a first event. */
  predicate HasEvent(s: Source) {
    s.deltas != [] || s.end.Completes?
  }

  predicate BreaksAmbiguous(a: StreamAttempt) {
    && a.Opened? && !HasEvent(a.stream) && a.stream.end.Fails?
    && (a.stream.end.failure.UpstreamAmbiguous? || a.stream.end.failure.StreamInterrupted?)
  }

  /** The candidate is not configured; or its stream has no event and stops, is unavailable, or, under
      at-least-once, breaks with an unknown outcome. */
  predicate PassedOverStream(a: StreamAttempt, policy: FailoverPolicy) {
    match a
    case NoAdapter => true
    case Opened(s) =>
      && !HasEvent(s)
      && (s.end.Stops? || (s.end.Fails? && s.end.failure.UpstreamUnavailable?)
          || (policy.AtLeastOnce? && BreaksAmbiguous(a)))
  }

  ghost predicate FirstToCommit(attempts: seq<StreamAttempt>, policy: FailoverPolicy, k: int) {
    && 0 <= k < |attempts| && !PassedOverStream(attempts[k], policy)
    && forall j :: 0 <= j < k ==> PassedOverStream(attempts[j], policy)
  }

  ghost predicate LastBreak(attempts: seq<StreamAttempt>, k: int) {
    0 <= k < |attempts| && BreaksAmbiguous(attempts[k])
    && forall j :: k < j < |attempts| ==> !BreaksAmbiguous(attempts[j])
  }

  lemma ClassesOfStreams(attempts: seq<StreamAttempt>, policy: FailoverPolicy, k: nat)
    requires k < |attempts|
    ensures StreamClasses(attempts)[k] == ClassOfStream(attempts[k])
    ensures Decisive(StreamClasses(attempts)[k], policy) <==> !PassedOverStream(attempts[k], policy)
    ensures StreamClasses(attempts)[k].Unknown? <==> BreaksAmbiguous(attempts[k])
  {
  }

  /** What a streamed request comes to, attempt by attempt: it commits to the first stream that is not passed
      over if that has an event, and else fails as that stream does; when all are passed over, it fails as the
      last ambiguous one, and as nobody being available when there is none. */
  lemma CommitByAttempt(attempts: seq<StreamAttempt>, policy: FailoverPolicy)
    ensures forall k :: FirstToCommit(attempts, policy, k) ==>
              var s := attempts[k].stream;
              Commit(attempts, policy) == if HasEvent(s) then Committed(s)
                                          else NotCommitted(if s.end.Fails? then s.end.failure else TIMEOUT)
    ensures (forall j :: 0 <= j < |attempts| ==> PassedOverStream(attempts[j], policy)) ==>
              && (forall k :: LastBreak(attempts, k) ==>
                    Commit(attempts, policy) == NotCommitted(attempts[k].stream.end.failure))
              && ((forall j :: 0 <= j < |attempts| ==> !BreaksAmbiguous(attempts[j])) ==>
                    Commit(attempts, policy) == NotCommitted(ProviderNotAvailable))
  {
    var classes := StreamClasses(attempts);
    forall k: nat | k < |attempts|
      ensures Decisive(classes[k], policy) <==> !PassedOverStream(attempts[k], policy)
      ensures classes[k].Unknown? <==> BreaksAmbiguous(attempts[k])
    {
      ClassesOfStreams(attempts, policy, k);
    }
    forall k | FirstToCommit(attempts, policy, k)
      ensures var s := attempts[k].stream;
              Commit(attempts, policy) == if HasEvent(s) then Committed(s)
                                          else NotCommitted(if s.end.Fails? then s.end.failure else TIMEOUT)
    {
      SelectionIsUnique(classes, policy, Decided(k));
    }
    if forall j :: 0 <= j < |attempts| ==> PassedOverStream(attempts[j], policy) {
      forall k | LastBreak(attempts, k)
        ensures Commit(attempts, policy) == NotCommitted(attempts[k].stream.end.failure)
      {
        SelectionIsUnique(classes, policy, StillUnknown(k));
      }
      if forall j :: 0 <= j < |attempts| ==> !BreaksAmbiguous(attempts[j]) {
        SelectionIsUnique(classes, policy, Nobody);
      }
    }
  }

  // ---------------------------------------------------------------- billing

  /** A usage record of the ledger. */
  datatype UsageRecord = UsageRecord(apiKey: nat, response: ChatResponse)

  const RECORDING_FAILED := OtherError("usage could not be recorded")

  /** What a request returns: a response whose usage cannot be recorded is lost to its caller. */
  function Recorded(o: Outcome, recorded: bool): Outcome {
    if o.Responds? && !recorded then Raises(RECORDING_FAILED) else o
  }

  const STREAM_STOPPED := OtherError("async generator raised StopAsyncIteration")

  /** The generator that draining a committed stream is: the same events, but a stream that breaks off
      without a terminal response raises, and so does one whose usage cannot be recorded. */
  function Drained(stream: Source, recorded: bool): Source {
    if ResponseIn(stream.end).Some? && !recorded then Source(stream.deltas, Fails(RECORDING_FAILED))
    else if stream.end.Stops? || stream.end.Stalls? then Source(stream.deltas, Fails(STREAM_STOPPED))
    else stream
  }

  /** What a stream bills: its terminal response as soon as it is reached, or the partial response of an
      interruption that is reached. */
  function Billed(stream: Source, closeAt: Option<nat>, apiKey: nat, recorded: bool): seq<UsageRecord> {
    if !recorded then []
    else match stream.end
      case Completes(r) =>
        if closeAt.Some? && closeAt.value < |stream.deltas| then [] else [UsageRecord(apiKey, r)]
      case Fails(StreamInterrupted(_, Some(r))) =>
        if CutShort(stream, closeAt) then [] else [UsageRecord(apiKey, r)]
      case _ => []
  }

  class GatewayService {
    var ledger: seq<UsageRecord>

    constructor ()
      ensures ledger == []
    {
      ledger := [];
    }

    /** Tries the candidates in rank order.  The result is the selected candidate's own response or
        failure, and the ledger gains that response exactly when it is returned; `recorded` says whether
        the recorder can save a record. */
    method Complete(attempts: seq<Attempt>, policy: FailoverPolicy, apiKey: nat, recorded: bool)
      returns (result: Outcome)
      modifies this
      ensures result == Recorded(Failover(attempts, policy), recorded)
      ensures ledger == old(ledger) + if result.Responds? then [UsageRecord(apiKey, result.response)] else []
    {
      var ambiguousError: Option<Failure> := None;
      ghost var selection := Nobody;
      for i := 0 to |attempts|
        invariant ledger == old(ledger)
        invariant forall j :: 0 <= j < i ==> !Decisive(ClassOf(attempts[j]), policy)
        invariant selection.Nobody? <==> ambiguousError.None?
        invariant selection.Nobody? ==> forall j :: 0 <= j < i ==> !ClassOf(attempts[j]).Unknown?
        invariant !selection.Nobody? ==> selection.StillUnknown? && selection.index < i
                                         && ClassOf(attempts[selection.index]).Unknown?
                                         && attempts[selection.index] == Tried(Raises(ambiguousError.value))
                                         && forall j :: selection.index < j < i ==> !ClassOf(attempts[j]).Unknown?
      {
        assert Classes(attempts)[i] == ClassOf(attempts[i]);
        if attempts[i].NotRegistered? {
          continue;
        }
        match attempts[i].outcome {
          case Responds(response) =>
            SelectionIsUnique(Classes(attempts), policy, Decided(i));
            if !recorded {
              return Raises(RECORDING_FAILED);
            }
            ledger := ledger + [UsageRecord(apiKey, response)];
            return Responds(response);
          case Raises(f) =>
            if f.UpstreamUnavailable? {
              continue;
            }
            if f.IsAmbiguous() {
              ambiguousError := Some(f);
              selection := StillUnknown(i);
              if policy == AtLeastOnce {
                continue;
              }
              SelectionIsUnique(Classes(attempts), policy, Decided(i));
              return Raises(f);
            }
            SelectionIsUnique(Classes(attempts), policy, Decided(i));
            return Raises(f);
        }
      }
      SelectionIsUnique(Classes(attempts), policy, selection);
      if ambiguousError.Some? {
        return Raises(ambiguousError.value);
      }
      return Raises(ProviderNotAvailable);
    }

    /** The streaming loop up to the first event of the committed candidate. */
    method Stream(attempts: seq<StreamAttempt>, policy: FailoverPolicy)
      returns (result: Commitment)
      ensures result == Commit(attempts, policy)
    {
      var ambiguousError: Option<Failure> := None;
      ghost var selection := Nobody;
      for i := 0 to |attempts|
        invariant forall j :: 0 <= j < i ==> !Decisive(ClassOfStream(attempts[j]), policy)
        invariant selection.Nobody? <==> ambiguousError.None?
        invariant selection.Nobody? ==> forall j :: 0 <= j < i ==> !ClassOfStream(attempts[j]).Unknown?
        invariant !selection.Nobody? ==> selection.StillUnknown? && selection.index < i
                                         && attempts[selection.index].Opened?
                                         && ClassOfStream(attempts[selection.index]).Unknown?
                                         && Pull(attempts[selection.index].stream, 0) == Raise(ambiguousError.value)
                                         && forall j :: selection.index < j < i ==> !ClassOfStream(attempts[j]).Unknown?
      {
        assert StreamClasses(attempts)[i] == ClassOfStream(attempts[i]);
        if attempts[i].NoAdapter? {
          continue;
        }
        var stream := attempts[i].stream;
        match Pull(stream, 0) {
          case Event(_) =>
            SelectionIsUnique(StreamClasses(attempts), policy, Decided(i));
            return Committed(stream);
          case StopIteration =>
            continue;
          case Timeout =>
            SelectionIsUnique(StreamClasses(attempts), policy, Decided(i));
            return NotCommitted(TIMEOUT);
          case Raise(f) =>
            if f.UpstreamUnavailable? {
              continue;
            }
            if f.IsAmbiguous() {
              ambiguousError := Some(f);
              selection := StillUnknown(i);
              if policy == AtLeastOnce {
                continue;
              }
              SelectionIsUnique(StreamClasses(attempts), policy, Decided(i));
              return NotCommitted(f);
            }
            SelectionIsUnique(StreamClasses(attempts), policy, Decided(i));
            return NotCommitted(f);
        }
      }
      SelectionIsUnique(StreamClasses(attempts), policy, selection);
      if ambiguousError.Some? {
        return NotCommitted(ambiguousError.value);
      }
      return NotCommitted(ProviderNotAvailable);
    }

    /** Forwards a committed stream, billing its terminal response before yielding it, or the partial
        response of an interruption. */
    method Drain(stream: Source, closeAt: Option<nat>, apiKey: nat, recorded: bool)
      returns (yielded: seq<StreamEvent>, ending: Ending)
      requires |Events(stream)| > 0
      modifies this
      ensures yielded == Received(Drained(stream, recorded), closeAt)
      ensures ending == (if CutShort(Drained(stream, recorded), closeAt) then ClosedByConsumer
                         else match Drained(stream, recorded).end case Fails(f) => Raised(f) case _ => Exhausted)
      ensures ledger == old(ledger) + Billed(stream, closeAt, apiKey, recorded)
      ensures (stream.end.Stops? || stream.end.Stalls?) && !CutShort(stream, closeAt) ==>
                ending.Raised? && ending.failure.OtherError?
    {
      var event := Pull(stream, 0).event;
      var p := 0;
      yielded := [];
      while true
        invariant p < |Events(stream)| && event == Events(stream)[p]
        invariant yielded == Events(stream)[..p] && ledger == old(ledger)
        invariant closeAt.Some? ==> p <= closeAt.value
        decreases |Events(stream)| - p
      {
        if event.Terminal? {
          if !recorded {
            return yielded, Raised(RECORDING_FAILED);
          }
          ledger := ledger + [UsageRecord(apiKey, event.response)];
          yielded := yielded + [event];
          assert yielded == Events(stream);
          return yielded, if ClosesAt(closeAt, p) then ClosedByConsumer else Exhausted;
        }
        yielded := yielded + [event];
        assert yielded == Events(stream)[..p + 1] == Events(Drained(stream, recorded))[..p + 1];
        if ClosesAt(closeAt, p) {
          return yielded, ClosedByConsumer;
        }
        p := p + 1;
        match Pull(stream, p) {
          case Event(next) => event := next;
          case StopIteration =>
            return yielded, Raised(STREAM_STOPPED);
          case Timeout =>
            return yielded, Raised(STREAM_STOPPED);
          case Raise(f) =>
            if f.StreamInterrupted? && f.partial.Some? {
              if !recorded {
                return yielded, Raised(RECORDING_FAILED);
              }
              ledger := ledger + [UsageRecord(apiKey, f.partial.value)];
            }
            return yielded, Raised(f);
        }
      }
    }
  }

  // ---------------------------------------------------------------- what the selection guarantees

  /** Failover never passes over a candidate that may have run, under at-most-once; the error says what
      happened: nobody served a request whose every candidate provably did not run, and an unknown
      outcome is raised exactly when some attempt was ambiguous and none was decided otherwise. */
  lemma FailoverIsSafe(classes: seq<Class>, policy: FailoverPolicy, s: Selection)
    requires Selects(classes, policy, s)
    ensures s.Nobody? <==> forall j :: 0 <= j < |classes| ==> classes[j].Skipped? || classes[j].NotRun?
    ensures policy.AtMostOnce? ==> !s.StillUnknown?
    ensures policy.AtMostOnce? && s.Decided? ==>
              forall j :: 0 <= j < s.index ==> classes[j].Skipped? || classes[j].NotRun?
    ensures policy.AtLeastOnce? ==>
              (s.StillUnknown? <==> (exists j :: 0 <= j < |classes| && classes[j].Unknown?)
                                    && forall j :: 0 <= j < |classes| ==> !classes[j].Served? && !classes[j].Broken?)
    ensures policy.AtLeastOnce? && s.Decided? ==>
              forall j :: 0 <= j < s.index ==> !classes[j].Served? && !classes[j].Broken?
  {
    if !s.Nobody? && s.index < |classes| {
      assert Decisive(classes[s.index], policy) || classes[s.index].Unknown?;
      assert !classes[s.index].Skipped? && !classes[s.index].NotRun?;
    }
    if policy.AtLeastOnce? {
      assert s.Decided? ==> classes[s.index].Served? || classes[s.index].Broken?;
    }
  }

  /** The candidates that were actually tried: those up to the deciding one, or all. */
  function Reached(classes: seq<Class>, s: Selection): nat
    requires s.Decided? ==> s.index < |classes|
  {
    if s.Decided? then s.index + 1 else |classes|
  }

  /** How many of the first `n` provider calls executed. */
  function Executions(executed: seq<bool>, n: nat): nat
    requires n <= |executed|
  {
    if n == 0 then 0 else Executions(executed, n - 1) + (if executed[n - 1] then 1 else 0)
  }

  /** A candidate that was skipped or not run did not execute. */
  ghost predicate Honest(classes: seq<Class>, executed: seq<bool>) {
    && |executed| == |classes|
    && forall i :: 0 <= i < |classes| && (classes[i].Skipped? || classes[i].NotRun?) ==> !executed[i]
  }

  /** How many of the first `n` candidates executed although the gateway takes them for not run. */
  function Unseen(classes: seq<Class>, executed: seq<bool>, n: nat): nat
    requires n <= |classes| == |executed|
  {
    if n == 0 then 0
    else
      var c := classes[n - 1];
      Unseen(classes, executed, n - 1) + (if executed[n - 1] && (c.Skipped? || c.NotRun?) then 1 else 0)
  }

  /** How many of the first `n` candidates executed with an outcome that is unknown. */
  function Gambled(classes: seq<Class>, executed: seq<bool>, n: nat): nat
    requires n <= |classes| == |executed|
  {
    if n == 0 then 0
    else Gambled(classes, executed, n - 1) + (if executed[n - 1] && classes[n - 1].Unknown? then 1 else 0)
  }

  lemma {:induction false} PassedOverRuns(classes: seq<Class>, executed: seq<bool>, n: nat)
    requires n <= |classes| == |executed|
    requires forall j :: 0 <= j < n ==> classes[j].Skipped? || classes[j].NotRun? || classes[j].Unknown?
    ensures Executions(executed, n) == Unseen(classes, executed, n) + Gambled(classes, executed, n)
  {
    if n > 0 { PassedOverRuns(classes, executed, n - 1); }
  }

  lemma {:induction false} NothingGambled(classes: seq<Class>, executed: seq<bool>, n: nat)
    requires n <= |classes| == |executed|
    requires forall j :: 0 <= j < n ==> !classes[j].Unknown?
    ensures Gambled(classes, executed, n) == 0
  {
    if n > 0 { NothingGambled(classes, executed, n - 1); }
  }

  lemma {:induction false} NothingUnseen(classes: seq<Class>, executed: seq<bool>, n: nat)
    requires Honest(classes, executed) && n <= |classes|
    ensures Unseen(classes, executed, n) == 0
  {
    if n > 0 { NothingUnseen(classes, executed, n - 1); }
  }

  /** Every execution of a request, under either policy and with classes that may be wrong: the deciding
      candidate's, those that were passed over as not run, and, under at-least-once only, those whose
      outcome was unknown. */
  lemma ExecutionsAreAccountedFor(classes: seq<Class>, executed: seq<bool>, policy: FailoverPolicy, s: Selection)
    requires |executed| == |classes| && Selects(classes, policy, s)
    ensures var passedOver := if s.Decided? then s.index else |classes|;
            && Executions(executed, Reached(classes, s))
               == Unseen(classes, executed, passedOver) + Gambled(classes, executed, passedOver)
                  + (if s.Decided? && executed[s.index] then 1 else 0)
            && (policy.AtMostOnce? || s.Nobody? ==> Gambled(classes, executed, passedOver) == 0)
  {
    FailoverIsSafe(classes, policy, s);
    var passedOver := if s.Decided? then s.index else |classes|;
    PassedOverRuns(classes, executed, passedOver);
    if policy.AtMostOnce? || s.Nobody? {
      NothingGambled(classes, executed, passedOver);
    }
  }

  /** When a skipped or not run candidate really did not execute: under at-most-once a request executes
      at most once, and when it does the deciding candidate did it; a request nobody served did not
      execute at all, under either policy. */
  lemma AtMostOneExecution(classes: seq<Class>, executed: seq<bool>, policy: FailoverPolicy, s: Selection)
    requires Honest(classes, executed) && Selects(classes, policy, s)
    ensures policy.AtMostOnce? ==> Executions(executed, Reached(classes, s)) <= 1
    ensures policy.AtMostOnce? ==> (Executions(executed, Reached(classes, s)) == 1 <==> s.Decided? && executed[s.index])
    ensures s.Nobody? ==> Executions(executed, Reached(classes, s)) == 0
  {
    ExecutionsAreAccountedFor(classes, executed, policy, s);
    NothingUnseen(classes, executed, if s.Decided? then s.index else |classes|);
  }

  /** Under at-least-once a request may execute once per ambiguous attempt and once more: the double
      spend the policy accepts does happen. */
  lemma AtLeastOnceMayExecuteTwice(served: ChatResponse, why: string)
    ensures var attempts := [Tried(Raises(UpstreamAmbiguous(why))), Tried(Responds(served))];
            Selects(Classes(attempts), AtLeastOnce, Decided(1)) && Honest(Classes(attempts), [true, true])
            && Executions([true, true], Reached(Classes(attempts), Decided(1))) == 2
  {
    assert Executions([true, true], 2) == Executions([true, true], 1) + 1 == Executions([true, true], 0) + 2;
  }
}
