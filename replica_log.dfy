/**
 * The replicated store of the class-based Python server (`src/server/python/main.py`)
 * and its idempotent event application, as values. `Apply` is what `apply_event`
 * does to the store; the `Server` class of `ReplicaServer` is proved to follow it.
 */
module ReplicaLog {
  import opened Base

  /** A record of `users.json` or `channels.json` (its timestamp is not modelled). */
  datatype Record = Record(name: string)
  type UserRecord = Record
  type ChannelRecord = Record

  /** What `_persist_message` appends to `publishs.jsonl` and `messages.jsonl`. */
  datatype PublishRecord = PublishRecord(user: string, channel: string, message: string, clock: int)
  datatype SendRecord = SendRecord(src: string, dst: string, message: string, clock: int)
  datatype Stored = PublishLog(post: PublishRecord) | MessageLog(note: SendRecord)

  /** The `type` and `data` of a replication event. */
  datatype Payload =
    | UserLogin(user: string)
    | ChannelCreate(channel: string)
    | MessagePublish(post: PublishRecord)
    | MessageSend(note: SendRecord)
    | Unrecognised(kind: string)

  datatype Event = Event(serverId: int, clock: int, payload: Payload)

  /** The `(clock, server_id)` pair that identifies an event. */
  datatype EventKey = EventKey(clock: int, serverId: int)

  function Key(e: Event): EventKey {
    EventKey(e.clock, e.serverId)
  }

  /** The part of a server's state that replication reads and writes. */
  datatype Store = Store(
    users: seq<UserRecord>,
    channels: seq<ChannelRecord>,
    applied: set<EventKey>,
    clock: nat,
    persisted: seq<Stored>)

  /** `_user_exists` and `_channel_exists`: some record carries the name. */
  function HasName(records: seq<Record>, name: string): (b: bool)
    ensures b <==> exists i :: 0 <= i < |records| && records[i].name == name
    decreases |records|
  {
    if records == [] then false
    else records[|records| - 1].name == name || HasName(records[..|records| - 1], name)
  }

  /** An event is settled when it was applied already or is not newer than the local clock. */
  predicate Settled(s: Store, e: Event) {
    Key(e) in s.applied || e.clock <= s.clock
  }

  /** The effect of an event's payload on the store. */
  function ApplyPayload(s: Store, p: Payload): Store {
    match p
    case UserLogin(user) =>
      if HasName(s.users, user) then s else s.(users := s.users + [Record(user)])
    case ChannelCreate(channel) =>
      if HasName(s.channels, channel) then s else s.(channels := s.channels + [Record(channel)])
    case MessagePublish(post) => s.(persisted := s.persisted + [PublishLog(post)])
    case MessageSend(note) => s.(persisted := s.persisted + [MessageLog(note)])
    case Unrecognised(_) => s
  }

  /**
   * `apply_event`: a settled event is ignored; otherwise its payload takes effect,
   * its key is recorded, and the clock moves past the event's clock.
   */
  function Apply(s: Store, e: Event): (r: Store)
    ensures Settled(s, e) ==> r == s
    ensures !Settled(s, e) ==> r.applied == s.applied + {Key(e)} && r.clock == e.clock + 1
    ensures s.applied <= r.applied && s.clock <= r.clock
    ensures Settled(r, e)
  {
    if Settled(s, e) then s
    else
      var t := ApplyPayload(s, e.payload);
      t.(applied := s.applied + {Key(e)}, clock := e.clock + 1)
  }

  /** Events applied in order. */
  function ApplyAll(s: Store, es: seq<Event>): Store
    decreases |es|
  {
    if es == [] then s else ApplyAll(Apply(s, es[0]), es[1..])
  }

  /** A fresh event grows the applied set by exactly one key. */
  lemma ApplyFreshGrowsByOne(s: Store, e: Event)
    requires !Settled(s, e)
    ensures |Apply(s, e).applied| == |s.applied| + 1
    ensures Key(e) in Apply(s, e).applied && Apply(s, e).clock == e.clock + 1
  {
    assert Key(e) !in s.applied;
  }

  /**
   * A name enters the user list by replication only when no record has it, so
   * replication never duplicates a name.
   */
  lemma ApplyNeverDuplicatesNames(s: Store, e: Event)
    ensures Apply(s, e).users == s.users
         || (e.payload.UserLogin? && !HasName(s.users, e.payload.user)
             && Apply(s, e).users == s.users + [Record(e.payload.user)])
    ensures Apply(s, e).channels == s.channels
         || (e.payload.ChannelCreate? && !HasName(s.channels, e.payload.channel)
             && Apply(s, e).channels == s.channels + [Record(e.payload.channel)])
    ensures Distinct(s.users) ==> Distinct(Apply(s, e).users)
    ensures Distinct(s.channels) ==> Distinct(Apply(s, e).channels)
  {
    var r := Apply(s, e);
    if !Settled(s, e) && e.payload.UserLogin? && !HasName(s.users, e.payload.user) && Distinct(s.users) {
      AppendAbsentKeepsDistinct(s.users, Record(e.payload.user));
    }
    if !Settled(s, e) && e.payload.ChannelCreate? && !HasName(s.channels, e.payload.channel) && Distinct(s.channels) {
      AppendAbsentKeepsDistinct(s.channels, Record(e.payload.channel));
    }
  }

  /** Once settled, an event stays settled whatever else is applied. */
  lemma {:induction false} SettledPersists(s: Store, es: seq<Event>, e: Event)
    requires Settled(s, e)
    ensures Settled(ApplyAll(s, es), e)
    decreases |es|
  {
    if es != [] {
      SettledPersists(Apply(s, es[0]), es[1..], e);
    }
  }

  /** After a batch is applied, every event of the batch is settled. */
  lemma {:induction false} BatchSettled(s: Store, es: seq<Event>)
    ensures forall e :: e in es ==> Settled(ApplyAll(s, es), e)
    decreases |es|
  {
    if es != [] {
      BatchSettled(Apply(s, es[0]), es[1..]);
      SettledPersists(Apply(s, es[0]), es[1..], es[0]);
      forall e | e in es
        ensures Settled(ApplyAll(s, es), e)
      {
        if e != es[0] {
          assert e in es[1..];
        }
      }
    }
  }

  /** A batch of settled events changes nothing. */
  lemma {:induction false} SettledBatchIsNoOp(s: Store, es: seq<Event>)
    requires forall e :: e in es ==> Settled(s, e)
    ensures ApplyAll(s, es) == s
    decreases |es|
  {
    if es != [] {
      assert es[0] in es;
      assert Apply(s, es[0]) == s;
      forall e | e in es[1..]
        ensures Settled(s, e)
      {
        assert e in es;
      }
      SettledBatchIsNoOp(s, es[1..]);
    }
  }

  /** Delivering the same events again is a no-op: replication is idempotent. */
  lemma RedeliveryIsNoOp(s: Store, es: seq<Event>)
    ensures ApplyAll(ApplyAll(s, es), es) == ApplyAll(s, es)
  {
    BatchSettled(s, es);
    SettledBatchIsNoOp(ApplyAll(s, es), es);
  }

  /** Applying events never lowers the clock nor forgets a key. */
  lemma {:induction false} ApplyAllMonotone(s: Store, es: seq<Event>)
    ensures s.applied <= ApplyAll(s, es).applied
    ensures s.clock <= ApplyAll(s, es).clock
    decreases |es|
  {
    if es != [] {
      ApplyAllMonotone(Apply(s, es[0]), es[1..]);
    }
  }
}
