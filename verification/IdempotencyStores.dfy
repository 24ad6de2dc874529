/** The Redis record behind an idempotency key (`app/infra/idempotency/redis_store.py`).

    The effect of each command on the key's slot is a function; the class applies them to the shared
    database, and the protocol in IdempotencyRuns interleaves them. */
module IdempotencyStores {
  import opened Options
  import opened RedisCommands

  datatype Json = JString(s: string) | JInt(n: int)

  type Body = map<string, Json>

  datatype Status = InProgress | Completed | Ambiguous

  datatype Message = Message(role: string, content: string)

  /** The hash of everything that shapes a request's output; distinct requests hash differently. */
  datatype Fingerprint = Fingerprint(model: string, messages: seq<Message>, maxTokens: Option<int>)

  datatype Record = Record(status: Status, fingerprint: Fingerprint, response: Option<Body>, error: Option<string>)

  /** A record and the time at which Redis drops it. */
  datatype Stored = Stored(record: Record, expireAt: real)

  datatype Config = Config(inflightTtl: real, completedTtl: real)

  /** What a key's owner writes when its operation has ended. */
  datatype Write = Complete(body: Body) | MarkAmbiguous(error: string) | Release

  /** The record a command finds at time `now`. */
  function Visible(slot: Option<Stored>, now: real): Option<Record> {
    if slot.Some? && now < slot.value.expireAt then Some(slot.value.record) else None
  }

  function Claim(cfg: Config, fingerprint: Fingerprint, now: real): Stored {
    Stored(Record(InProgress, fingerprint, None, None), now + cfg.inflightTtl)
  }

  /** SET NX EX: claims the key if no record is visible. */
  function AfterClaim(cfg: Config, slot: Option<Stored>, fingerprint: Fingerprint, now: real,
                      network: Network): Option<Stored>
  {
    if network.NeverRan? || Visible(slot, now).Some? then slot else Some(Claim(cfg, fingerprint, now))
  }

  /** The settling commands are unconditional: they neither look for a record nor at whose it is. */
  function AfterWrite(cfg: Config, slot: Option<Stored>, write: Write, fingerprint: Fingerprint, now: real,
                      network: Network): Option<Stored> {
    if network.NeverRan? then slot
    else match write
      case Complete(body) => Some(Stored(Record(Completed, fingerprint, Some(body), None), now + cfg.completedTtl))
      case MarkAmbiguous(e) => Some(Stored(Record(Ambiguous, fingerprint, None, Some(e)), now + cfg.completedTtl))
      case Release => None
  }

  // ---------------------------------------------------------------- reserving

  datatype SetReply = Acquired | Taken | SetFailed

  datatype GetReply = Missing | Found(record: Record) | GetFailed

  function SetReplyOf(slot: Option<Stored>, now: real, network: Network): SetReply {
    if !network.Answered? then SetFailed else if Visible(slot, now).None? then Acquired else Taken
  }

  function GetReplyOf(slot: Option<Stored>, now: real, network: Network): GetReply {
    if !network.Answered? then GetFailed
    else match Visible(slot, now) case None => Missing case Some(r) => Found(r)
  }

  /** Where a reservation stands between two of its commands. */
  datatype Reservation = AtSet(attempt: nat) | AtGet(attempt: nat) | Reserved | Existing(record: Record) | Unavailable

  const RESERVE_ATTEMPTS := 3

  function OnSet(attempt: nat, reply: SetReply): Reservation {
    match reply
    case Acquired => Reserved
    case Taken => AtGet(attempt)
    case SetFailed => Unavailable
  }

  /** A record that vanished between the two commands makes the claim be retried. */
  function OnGet(attempt: nat, reply: GetReply): Reservation {
    match reply
    case Missing => if attempt + 1 < RESERVE_ATTEMPTS then AtSet(attempt + 1) else Unavailable
    case Found(r) => Existing(r)
    case GetFailed => Unavailable
  }

  /** The replies to the two commands of one attempt. */
  datatype Round = Round(set_: SetReply, get: GetReply)

  predicate Raced(r: Round) {
    r.set_.Taken? && r.get.Missing?
  }

  /** An upper bound on the commands a reservation still sends. */
  function CommandsLeft(r: Reservation): nat {
    match r
    case AtSet(k) => if k < RESERVE_ATTEMPTS then 2 * (RESERVE_ATTEMPTS - k) else 0
    case AtGet(k) => if k < RESERVE_ATTEMPTS then 2 * (RESERVE_ATTEMPTS - k) - 1 else 0
    case _ => 0
  }

  /** What a reservation standing at `r` comes to. */
  function Drive(r: Reservation, rounds: seq<Round>): (outcome: Reservation)
    ensures outcome.Reserved? || outcome.Existing? || outcome.Unavailable?
    decreases CommandsLeft(r)
  {
    match r
    case AtSet(k) =>
      if k < RESERVE_ATTEMPTS && k < |rounds| then Drive(OnSet(k, rounds[k].set_), rounds) else Unavailable
    case AtGet(k) =>
      if k < RESERVE_ATTEMPTS && k < |rounds| then Drive(OnGet(k, rounds[k].get), rounds) else Unavailable
    case _ => r
  }

  /** The attempt that decides a reservation: the first from `i` on that does not race, or the last. */
  function Deciding(rounds: seq<Round>, i: nat): (k: nat)
    requires i < |rounds|
    ensures i <= k < |rounds| && (Raced(rounds[k]) ==> k == |rounds| - 1)
    ensures forall j :: i <= j < k ==> Raced(rounds[j])
    decreases |rounds| - i
  {
    if i == |rounds| - 1 || !Raced(rounds[i]) then i else Deciding(rounds, i + 1)
  }

  function OutcomeOf(round: Round): Reservation {
    match (round.set_, round.get)
    case (Acquired, _) => Reserved
    case (Taken, Found(record)) => Existing(record)
    case _ => Unavailable
  }

  lemma {:induction false} DriveDecides(rounds: seq<Round>, i: nat)
    requires |rounds| == RESERVE_ATTEMPTS && i < RESERVE_ATTEMPTS
    ensures Drive(AtSet(i), rounds) == OutcomeOf(rounds[Deciding(rounds, i)])
    decreases RESERVE_ATTEMPTS - i
  {
    var next := OnSet(i, rounds[i].set_);
    assert Drive(AtSet(i), rounds) == Drive(next, rounds);
    if next.AtGet? {
      var after := OnGet(i, rounds[i].get);
      assert Drive(next, rounds) == Drive(after, rounds);
      if after.AtSet? { DriveDecides(rounds, i + 1); }
    }
  }

  /** The database as other clients have left it when a command arrives, and what becomes of it. */
  datatype Arrival = Arrival(records: map<string, Stored>, now: real, network: Network)

  function Slot(records: map<string, Stored>, key: string): Option<Stored> {
    if key in records then Some(records[key]) else None
  }

  function WithSlot(records: map<string, Stored>, key: string, slot: Option<Stored>): map<string, Stored> {
    match slot case None => records - {key} case Some(s) => records[key := s]
  }

  /** The circumstances in which the two commands of one attempt arrive. */
  datatype Turn = Turn(set_: Arrival, get: Arrival)

  function RoundOf(key: string, t: Turn): Round {
    Round(SetReplyOf(Slot(t.set_.records, key), t.set_.now, t.set_.network),
          GetReplyOf(Slot(t.get.records, key), t.get.now, t.get.network))
  }

  /** The rounds a reservation of `key` sees when its commands arrive in the given circumstances. */
  function Rounds(key: string, turns: seq<Turn>): seq<Round> {
    seq(|turns|, i requires 0 <= i < |turns| => RoundOf(key, turns[i]))
  }

  /** The database that an attempt leaves: a claim changes nothing but a free key, a read nothing. */
  function DatabaseLeft(cfg: Config, key: string, fingerprint: Fingerprint, t: Turn): map<string, Stored> {
    if RoundOf(key, t).set_.Taken? then t.get.records
    else
      var a := t.set_;
      WithSlot(a.records, key, AfterClaim(cfg, Slot(a.records, key), fingerprint, a.now, a.network))
  }

  const PREFIX := "idem:"

  /** Keys are scoped by API key. */
  function RedisKey(apiKeyId: string, key: string): string {
    PREFIX + apiKeyId + ":" + key
  }

  const UUID_LENGTH := 36

  /** Two callers never share a record, whatever keys they choose. */
  lemma KeysAreScoped(apiKeyId: string, key: string, otherId: string, otherKey: string)
    requires |apiKeyId| == |otherId| == UUID_LENGTH
    ensures RedisKey(apiKeyId, key) == RedisKey(otherId, otherKey) <==> apiKeyId == otherId && key == otherKey
  {
    var a, b := RedisKey(apiKeyId, key), RedisKey(otherId, otherKey);
    assert a[5..41] == apiKeyId && b[5..41] == otherId;
    assert a[42..] == key && b[42..] == otherKey;
  }

  class RedisIdempotencyStore {
    const cfg: Config
    var records: map<string, Stored>

    constructor (inflightTtl: real, completedTtl: real)
      ensures cfg == Config(inflightTtl, completedTtl) && records == map[]
    {
      cfg := Config(inflightTtl, completedTtl);
      records := map[];
    }

    method SetNx(redisKey: string, fingerprint: Fingerprint, a: Arrival) returns (reply: SetReply)
      modifies this
      ensures reply == SetReplyOf(Slot(a.records, redisKey), a.now, a.network)
      ensures records == WithSlot(a.records, redisKey,
                                  AfterClaim(cfg, Slot(a.records, redisKey), fingerprint, a.now, a.network))
      ensures var free := redisKey !in a.records || a.now >= a.records[redisKey].expireAt;
              && (reply.SetFailed? <==> !a.network.Answered?)
              && (reply.Acquired? <==> a.network.Answered? && free)
              && records == if a.network.NeverRan? || !free then a.records
                            else a.records[redisKey := Stored(Record(InProgress, fingerprint, None, None),
                                                              a.now + cfg.inflightTtl)]
    {
      records := a.records;
      var free := Visible(Slot(records, redisKey), a.now).None?;
      if free && !a.network.NeverRan? {
        records := records[redisKey := Claim(cfg, fingerprint, a.now)];
      } else {
        assert records == WithSlot(records, redisKey, Slot(records, redisKey));
      }
      reply := if !a.network.Answered? then SetFailed else if free then Acquired else Taken;
    }

    method Get(redisKey: string, a: Arrival) returns (reply: GetReply)
      modifies this
      ensures reply == GetReplyOf(Slot(a.records, redisKey), a.now, a.network)
      ensures records == a.records
      ensures var free := redisKey !in a.records || a.now >= a.records[redisKey].expireAt;
              reply == if !a.network.Answered? then GetFailed
                       else if free then Missing
                       else Found(a.records[redisKey].record)
    {
      records := a.records;
      if !a.network.Answered? {
        return GetFailed;
      }
      match Visible(Slot(records, redisKey), a.now) {
        case None => return Missing;
        case Some(r) => return Found(r);
      }
    }

    /** The bounded claim loop.  Other clients may have changed the whole database whenever one of its
        commands arrives; the commands themselves change nothing but a key they claim. */
    method Reserve(redisKey: string, fingerprint: Fingerprint, turns: seq<Turn>) returns (outcome: Reservation)
      requires |turns| == RESERVE_ATTEMPTS
      modifies this
      ensures outcome == Drive(AtSet(0), Rounds(redisKey, turns))
      ensures var turn := turns[Deciding(Rounds(redisKey, turns), 0)];
              && records == DatabaseLeft(cfg, redisKey, fingerprint, turn)
              && (outcome.Reserved? ==> Slot(records, redisKey) == Some(Claim(cfg, fingerprint, turn.set_.now)))
    {
      ghost var rounds := Rounds(redisKey, turns);
      DriveDecides(rounds, 0);
      for i := 0 to RESERVE_ATTEMPTS
        invariant i > 0 ==> records == turns[i - 1].get.records
        invariant forall j :: 0 <= j < i ==> Raced(rounds[j])
      {
        assert rounds[i] == RoundOf(redisKey, turns[i]);
        var claimed := SetNx(redisKey, fingerprint, turns[i].set_);
        match claimed {
          case SetFailed => return Unavailable;
          case Acquired => return Reserved;
          case Taken =>
        }
        var found := Get(redisKey, turns[i].get);
        match found {
          case GetFailed => return Unavailable;
          case Missing => continue;
          case Found(existing) => return Existing(existing);
        }
      }
      return Unavailable;
    }

    /** `complete`, `mark_ambiguous` and `release`; only the first reports a failed write. */
    method Settle(redisKey: string, fingerprint: Fingerprint, write: Write, a: Arrival) returns (raised: bool)
      modifies this
      ensures Slot(records, redisKey)
              == AfterWrite(cfg, Slot(a.records, redisKey), write, fingerprint, a.now, a.network)
      ensures forall k :: k != redisKey ==> Slot(records, k) == Slot(a.records, k)
      ensures records == if a.network.NeverRan? then a.records
                         else match write
                           case Complete(body) =>
                             a.records[redisKey := Stored(Record(Completed, fingerprint, Some(body), None),
                                                          a.now + cfg.completedTtl)]
                           case MarkAmbiguous(e) =>
                             a.records[redisKey := Stored(Record(Ambiguous, fingerprint, None, Some(e)),
                                                          a.now + cfg.completedTtl)]
                           case Release => a.records - {redisKey}
      ensures raised <==> write.Complete? && !a.network.Answered?
    {
      records := a.records;
      if !a.network.NeverRan? {
        match write {
          case Complete(body) =>
            var record := Record(Completed, fingerprint, Some(body), None);
            records := records[redisKey := Stored(record, a.now + cfg.completedTtl)];
          case MarkAmbiguous(e) =>
            var record := Record(Ambiguous, fingerprint, None, Some(e));
            records := records[redisKey := Stored(record, a.now + cfg.completedTtl)];
          case Release =>
            records := records - {redisKey};
        }
      }
      raised := write.Complete? && !a.network.Answered?;
    }
  }

  /** The claim loop says "acquired" exactly when one of its three claims was the first to find the key
      free, and reports a record exactly when it read one after claims that raced with expiries. */
  lemma ReserveMeans(rounds: seq<Round>)
    requires |rounds| == RESERVE_ATTEMPTS
    ensures var outcome := Drive(AtSet(0), rounds);
            && (outcome.Reserved? <==> exists k :: 0 <= k < RESERVE_ATTEMPTS && rounds[k].set_.Acquired?
                                                  && forall j :: 0 <= j < k ==> Raced(rounds[j]))
            && (forall r :: outcome == Existing(r) <==>
                  exists k :: 0 <= k < RESERVE_ATTEMPTS && rounds[k] == Round(Taken, Found(r))
                              && forall j :: 0 <= j < k ==> Raced(rounds[j]))
  {
    DriveDecides(rounds, 0);
    var k := Deciding(rounds, 0);
    assert OutcomeOf(rounds[k]).Reserved? ==> rounds[k].set_.Acquired?;
    assert forall r :: OutcomeOf(rounds[k]) == Existing(r) ==> rounds[k] == Round(Taken, Found(r));
  }

  /** No record is there when the command arrives, or it has expired. */
  predicate FreeAt(a: Arrival, key: string) {
    key !in a.records || a.now >= a.records[key].expireAt
  }

  /** The attempt's claim found the key taken, and its read found it free. */
  predicate RacesAt(t: Turn, key: string) {
    t.set_.network.Answered? && !FreeAt(t.set_, key) && t.get.network.Answered? && FreeAt(t.get, key)
  }

  /** The attempt's claim found the key taken, and its read found this record. */
  predicate Reads(t: Turn, key: string, r: Record) {
    && t.set_.network.Answered? && !FreeAt(t.set_, key)
    && t.get.network.Answered? && !FreeAt(t.get, key) && t.get.records[key].record == r
  }

  /** What a reservation comes to, command by command: the key, exactly if a claim that was answered found it
      free and every earlier attempt raced with an expiry; a record, exactly if it was read so after a claim
      that found the key taken; and no service otherwise. */
  lemma ReserveByCommand(key: string, turns: seq<Turn>)
    requires |turns| == RESERVE_ATTEMPTS
    ensures var outcome := Drive(AtSet(0), Rounds(key, turns));
            && (outcome.Reserved? <==>
                  exists k :: 0 <= k < |turns| && turns[k].set_.network.Answered? && FreeAt(turns[k].set_, key)
                              && forall j :: 0 <= j < k ==> RacesAt(turns[j], key))
            && (forall r :: outcome == Existing(r) <==>
                  exists k :: 0 <= k < |turns| && Reads(turns[k], key, r)
                              && forall j :: 0 <= j < k ==> RacesAt(turns[j], key))
            && (outcome.Reserved? || outcome.Existing? || outcome.Unavailable?)
  {
    var rounds := Rounds(key, turns);
    forall k | 0 <= k < |turns|
      ensures rounds[k].set_.Acquired? <==> turns[k].set_.network.Answered? && FreeAt(turns[k].set_, key)
      ensures Raced(rounds[k]) <==> RacesAt(turns[k], key)
      ensures forall r :: rounds[k] == Round(Taken, Found(r)) <==> Reads(turns[k], key, r)
    {
      assert rounds[k] == RoundOf(key, turns[k]);
    }
    ReserveMeans(rounds);
  }
}
