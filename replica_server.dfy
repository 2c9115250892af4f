/**
 * The class-based Python replica server of `src/server/python/main.py`: request
 * handlers, event replication, coordinator choice, the bully-style election and
 * the Berkeley counter. Socket sends and file appends become ghost output logs.
 */
module ReplicaServer {
  import opened Base
  import opened Lamport
  import opened PyText
  import opened ReplicaLog
  import Chat

  /** `berkeley_enabled` and `berkeley_interval`. */
  const BerkeleyEnabled := true
  const BerkeleyInterval: nat := 10

  /** An entry of the reference server's list. */
  datatype Peer = Peer(name: string, rank: int)

  /** A client request; `None` is a missing key. */
  datatype Request = Request(
    service: Option<string>,
    user: Option<string>,
    channel: Option<string>,
    message: Option<string>,
    src: Option<string>,
    dst: Option<string>,
    clock: Option<int>)

  /** What is published on a channel's or a user's topic. */
  datatype Notice =
    | ChannelNotice(topic: string, user: string, message: string, clock: nat)
    | UserNotice(topic: string, src: string, message: string, clock: nat)

  /** What is published on the "servers" topic by `announce_coordinator`. */
  datatype Announcement = Announcement(coordinator: Option<string>, clock: nat)

  /** Python truthiness of an optional integer from a reply. */
  predicate Truthy(v: Option<int>) {
    v.Some? && v.value != 0
  }

  /** `data.get(key, "").strip()`. */
  function Field(v: Option<string>): (r: string)
    ensures v.None? ==> r == ""
    ensures v.Some? ==> r == Strip(v.value)
  {
    Strip(if v.Some? then v.value else "")
  }

  /**
   * A field is read as its value with the whitespace at both ends removed and nothing
   * else: it is blank exactly when missing or all whitespace, and otherwise starts and
   * ends with a non-whitespace character.
   */
  lemma FieldTrimsOnlyWhitespace(v: Option<string>)
    ensures var r := Field(v);
      && (r == "" <==> v.None? || AllSpace(v.value))
      && (r != "" ==> !IsSpace(r[0]) && !IsSpace(r[|r| - 1]))
      && (v.Some? ==>
            var i := LeadingSpace(v.value);
            && i + |r| <= |v.value| && r == v.value[i..i + |r|]
            && AllSpace(v.value[..i]) && AllSpace(v.value[i + |r|..]))
  {
    if v.Some? {
      StripTrimsBothEnds(v.value);
      StripKeepsTheMiddle(v.value);
      StripDropsOnlySpace(v.value);
    }
  }

  /** The list without this server's own entries, in the same order. */
  function Others(peers: seq<Peer>, self: string): (r: seq<Peer>)
    ensures forall p :: p in r <==> p in peers && p.name != self
    ensures |r| <= |peers|
    decreases |peers|
  {
    if peers == [] then []
    else
      var front := Others(peers[..|peers| - 1], self);
      var last := peers[|peers| - 1];
      assert peers == peers[..|peers| - 1] + [last];
      if last.name == self then front else front + [last]
  }

  /** The position of the first entry of least rank: the head of a stable sort by rank. */
  function FirstLowest(peers: seq<Peer>): (i: nat)
    requires |peers| > 0
    ensures i < |peers|
    ensures forall j :: 0 <= j < |peers| ==> peers[i].rank <= peers[j].rank
    ensures forall j :: 0 <= j < i ==> peers[i].rank < peers[j].rank
    decreases |peers|
  {
    if |peers| == 1 then 0
    else
      var k := FirstLowest(peers[..|peers| - 1]);
      if peers[|peers| - 1].rank < peers[k].rank then |peers| - 1 else k
  }

  /** The coordinator chosen from the other servers: the lowest rank, or this server when alone. */
  function ChooseCoordinator(others: seq<Peer>, self: string): (c: string)
    ensures others == [] ==> c == self
    ensures others != [] ==>
      exists i :: 0 <= i < |others| && others[i].name == c
        && (forall j :: 0 <= j < |others| ==> others[i].rank <= others[j].rank)
  {
    if others == [] then self else others[FirstLowest(others)].name
  }

  /** After filtering, the chosen coordinator is this server exactly when no other server is listed. */
  lemma CoordinatorIsSelfOnlyWhenAlone(peers: seq<Peer>, self: string)
    ensures ChooseCoordinator(Others(peers, self), self) == self <==> Others(peers, self) == []
  {
    var others := Others(peers, self);
    if others != [] {
      var p := others[FirstLowest(others)];
      assert p in others;
    }
  }

  /**
   * The names listed by `handle_users` and `handle_channels`: one per record, in order,
   * so a name is listed exactly when the lookup the handlers use finds it.
   */
  function NamesOf(records: seq<Record>): (r: seq<string>)
    ensures |r| == |records| && forall i :: 0 <= i < |records| ==> r[i] == records[i].name
    ensures forall n :: n in r <==> HasName(records, n)
  {
    seq(|records|, i requires 0 <= i < |records| => records[i].name)
  }

  /** A reply that reports a stored and delivered message: only these are counted twice. */
  predicate Sent(reply: Chat.Reply) {
    reply.StatusReply? && reply.status == "OK"
  }

  /** The services `process_request` dispatches. */
  predicate Handled(service: Option<string>) {
    service.Some? && service.value in {"login", "users", "channel", "channels", "publish", "message"}
  }

  /** The service echoed by an unknown-service reply: `service or "unknown"`. */
  function EchoedService(service: Option<string>): string {
    if service.None? || service.value == "" then "unknown" else service.value
  }

  /** How an f-string shows the service: a missing one reads `None`. */
  function ShownService(service: Option<string>): string {
    if service.None? then "None" else service.value
  }

  const EmptyUserName := "Nome de usuário vazio"
  const EmptyChannelName := "Nome de canal vazio"
  const PublishFieldsRequired := "Usuário, canal e mensagem são obrigatórios"
  const MessageFieldsRequired := "Remetente, destinatário e mensagem são obrigatórios"

  class Server {
    const serverName: string
    /** `hash(server_name) % 10000`, taken as given. */
    const serverId: int
    const clock: LamportClock
    var rank: Option<int>
    var coordinator: Option<string>
    var otherServers: seq<Peer>
    var messageCount: nat
    var users: seq<UserRecord>
    var channels: seq<ChannelRecord>
    var appliedEvents: set<EventKey>
    /** Records appended to the JSON-lines files. */
    ghost var persisted: seq<Stored>
    /** Events published on the "replication" topic. */
    ghost var events: seq<Event>
    /** Messages published on channel and user topics. */
    ghost var deliveries: seq<Notice>
    /** Announcements published on the "servers" topic. */
    ghost var announcements: seq<Announcement>

    /** The Berkeley counter stays below its interval. */
    ghost predicate Valid()
      reads this
    {
      messageCount < BerkeleyInterval
    }

    /** The replicated part of the state. */
    ghost function StoreOf(): Store
      reads this, clock
    {
      Store(users, channels, appliedEvents, clock.time, persisted)
    }

    /** `__init__`, with the lists read from disk given as parameters. */
    constructor (name: string, id: int, savedUsers: seq<UserRecord>, savedChannels: seq<ChannelRecord>)
      ensures Valid() && fresh(clock)
      ensures serverName == name && serverId == id && clock.time == 0
      ensures rank == None && coordinator == None && otherServers == [] && messageCount == 0
      ensures users == savedUsers && channels == savedChannels && appliedEvents == {}
      ensures persisted == [] && events == [] && deliveries == [] && announcements == []
    {
      serverName, serverId := name, id;
      clock := new LamportClock();
      rank, coordinator, otherServers, messageCount := None, None, [], 0;
      users, channels, appliedEvents := savedUsers, savedChannels, {};
      persisted, events, deliveries, announcements := [], [], [], [];
    }

    /** `register_with_reference`: a ticked rank request; a truthy rank in the reply is kept. */
    method RegisterWithReference(replyRank: Option<int>, replyClock: Option<int>) returns (ok: bool)
      modifies this`rank, clock
      ensures ok <==> Truthy(replyRank)
      ensures ok ==> rank == replyRank
      ensures !ok ==> rank == old(rank)
      ensures clock.time == (if ok && Truthy(replyClock) then Merge(old(clock.time) + 1, replyClock.value)
                             else old(clock.time) + 1)
    {
      var _ := clock.Tick();
      if Truthy(replyRank) {
        rank := replyRank;
        if Truthy(replyClock) {
          var _ := clock.Update(replyClock.value);
        }
        ok := true;
      } else {
        ok := false;
      }
    }

    /** The heartbeat exchange of `heartbeat_loop`: a ticked request, then a truthy reply clock. */
    method Heartbeat(replyClock: Option<int>) returns (requestClock: nat)
      modifies clock
      ensures requestClock == old(clock.time) + 1
      ensures clock.time == (if Truthy(replyClock) then Merge(requestClock, replyClock.value) else requestClock)
    {
      requestClock := clock.Tick();
      if Truthy(replyClock) {
        var _ := clock.Update(replyClock.value);
      }
    }

    /**
     * `update_server_list`: a ticked list request; a non-empty reply replaces the
     * peer list (without this server) and re-elects the lowest rank.
     */
    method UpdateServerList(list: Option<seq<Peer>>, replyClock: Option<int>)
      modifies this`otherServers, this`coordinator, clock
      ensures list.None? || list.value == [] ==>
        && otherServers == old(otherServers) && coordinator == old(coordinator)
        && clock.time == old(clock.time) + 1
      ensures list.Some? && list.value != [] ==>
        && otherServers == Others(list.value, serverName)
        && coordinator == Some(ChooseCoordinator(otherServers, serverName))
        && clock.time == (if Truthy(replyClock) then Merge(old(clock.time) + 1, replyClock.value)
                          else old(clock.time) + 1)
    {
      var _ := clock.Tick();
      if list.Some? && list.value != [] {
        otherServers := Others(list.value, serverName);
        if otherServers != [] {
          coordinator := Some(otherServers[FirstLowest(otherServers)].name);
        } else {
          coordinator := Some(serverName);
        }
        if Truthy(replyClock) {
          var _ := clock.Update(replyClock.value);
        }
      }
    }

    /** `announce_coordinator`: publish the coordinator with a fresh tick. */
    method AnnounceCoordinator()
      modifies this`announcements, clock
      ensures clock.time == old(clock.time) + 1
      ensures announcements == old(announcements) + [Announcement(coordinator, clock.time)]
    {
      var t := clock.Tick();
      announcements := announcements + [Announcement(coordinator, t)];
    }

    /**
     * `start_election`: every path ends with this server as coordinator, announced
     * once. Comparing ranks needs this server's rank once other servers are known.
     */
    method StartElection()
      requires otherServers != [] ==> rank.Some?
      modifies this`coordinator, this`announcements, clock
      ensures coordinator == Some(serverName)
      ensures clock.time == old(clock.time) + 1
      ensures announcements == old(announcements) + [Announcement(Some(serverName), clock.time)]
    {
      if otherServers == [] {
        coordinator := Some(serverName);
        AnnounceCoordinator();
        return;
      }
      var higher := HigherRanked(otherServers, rank.value);
      if higher == [] {
        coordinator := Some(serverName);
        AnnounceCoordinator();
        return;
      }
      // The election messages to the higher-ranked servers are only simulated,
      // and no answer is ever awaited, so the election is always won.
      coordinator := Some(serverName);
      AnnounceCoordinator();
    }

    /** An election is due when a coordinator other than this server is no longer listed. */
    predicate ElectionDue()
      reads this
    {
      !Chat.Blank(coordinator) && coordinator != Some(serverName)
      && !(exists i :: 0 <= i < |otherServers| && Some(otherServers[i].name) == coordinator)
    }

    /** One check of `election_monitor`. */
    method MonitorElection()
      requires ElectionDue() && otherServers != [] ==> rank.Some?
      modifies this`coordinator, this`announcements, clock
      ensures old(ElectionDue()) ==>
        && coordinator == Some(serverName) && clock.time == old(clock.time) + 1
        && announcements == old(announcements) + [Announcement(Some(serverName), clock.time)]
      ensures !old(ElectionDue()) ==>
        coordinator == old(coordinator) && clock.time == old(clock.time) && announcements == old(announcements)
    {
      if coordinator.None? || coordinator.value == "" || coordinator.value == serverName {
        return;
      }
      var active := false;
      for i := 0 to |otherServers|
        invariant active <==> exists j :: 0 <= j < i && Some(otherServers[j].name) == coordinator
      {
        if otherServers[i].name == coordinator.value {
          active := true;
        }
      }
      if !active {
        StartElection();
      }
    }

    /** `check_berkeley_sync`: count a message; at the interval, sync and restart the count. */
    method CheckBerkeleySync()
      requires Valid()
      modifies this`messageCount
      ensures Valid()
      ensures messageCount == Chat.CountRequest(old(messageCount), BerkeleyEnabled)
    {
      messageCount := messageCount + 1;
      if BerkeleyEnabled && messageCount >= BerkeleyInterval {
        messageCount := 0;
      }
    }

    /** `publish_event`: the event carries the current clock, without a tick. */
    method PublishEvent(payload: Payload)
      modifies this`events
      ensures events == old(events) + [Event(serverId, clock.time, payload)]
    {
      var now := clock.GetTime();
      events := events + [Event(serverId, now, payload)];
    }

    /** `apply_event`, proved to follow `ReplicaLog.Apply`. */
    method ApplyEvent(e: Event)
      modifies this`users, this`channels, this`appliedEvents, this`persisted, clock
      ensures StoreOf() == Apply(old(StoreOf()), e)
    {
      var key := EventKey(e.clock, e.serverId);
      if key in appliedEvents {
        return;
      }
      var now := clock.GetTime();
      if e.clock <= now {
        return;
      }
      match e.payload {
        case UserLogin(user) =>
          if !HasName(users, user) {
            users := users + [Record(user)];
          }
        case ChannelCreate(channel) =>
          if !HasName(channels, channel) {
            channels := channels + [Record(channel)];
          }
        case MessagePublish(post) =>
          persisted := persisted + [PublishLog(post)];
        case MessageSend(note) =>
          persisted := persisted + [MessageLog(note)];
        case Unrecognised(_) =>
      }
      appliedEvents := appliedEvents + {key};
      now := clock.GetTime();
      if e.clock > now {
        var _ := clock.Update(e.clock);
      }
    }

    /** `replication_listener`: events from other servers are applied, this server's own are skipped. */
    method ReceiveReplication(e: Event)
      modifies this`users, this`channels, this`appliedEvents, this`persisted, clock
      ensures e.serverId != serverId ==> StoreOf() == Apply(old(StoreOf()), e)
      ensures e.serverId == serverId ==> StoreOf() == old(StoreOf())
    {
      if e.serverId != serverId {
        ApplyEvent(e);
      }
    }

    /**
     * `handle_login`: a blank name is refused; any other name is appended and a
     * replication event published, because the duplicate test compares the name
     * with the stored records themselves and so never finds it.
     */
    method HandleLogin(user: Option<string>) returns (reply: Chat.Reply)
      modifies this`users, this`events, clock
      ensures LoginOutcome(Field(user), reply, old(clock.time), old(users), old(events))
    {
      var name := Field(user);
      if name == "" {
        var t := clock.Tick();
        return Chat.StatusReply("login", "erro", EmptyUserName, t);
      }
      users := users + [Record(name)];
      PublishEvent(UserLogin(name));
      var t := clock.Tick();
      reply := Chat.StatusReply("login", "sucesso", "", t);
    }

    /** The outcome of `handle_login` once the name is stripped; the event carries the clock before the tick. */
    ghost predicate LoginOutcome(u: string, reply: Chat.Reply, clock0: nat, users0: seq<UserRecord>, events0: seq<Event>)
      reads this`users, this`events, clock
    {
      && clock.time == clock0 + 1 && reply.clock == clock.time
      && (u == "" ==>
            && reply == Chat.StatusReply("login", "erro", EmptyUserName, clock.time)
            && users == users0 && events == events0)
      && (u != "" ==>
            && reply == Chat.StatusReply("login", "sucesso", "", clock.time)
            && users == users0 + [Record(u)]
            && events == events0 + [Event(serverId, clock0, UserLogin(u))])
    }

    /** `handle_users`. */
    method HandleUsers() returns (reply: Chat.Reply)
      modifies clock
      ensures clock.time == old(clock.time) + 1
      ensures reply == Chat.NamesReply("users", NamesOf(users), clock.time)
    {
      var t := clock.Tick();
      reply := Chat.NamesReply("users", NamesOf(users), t);
    }

    /** `handle_channel`: as `handle_login`, for channels. */
    method HandleChannel(channel: Option<string>) returns (reply: Chat.Reply)
      modifies this`channels, this`events, clock
      ensures ChannelOutcome(Field(channel), reply, old(clock.time), old(channels), old(events))
    {
      var name := Field(channel);
      if name == "" {
        var t := clock.Tick();
        return Chat.StatusReply("channel", "erro", EmptyChannelName, t);
      }
      channels := channels + [Record(name)];
      PublishEvent(ChannelCreate(name));
      var t := clock.Tick();
      reply := Chat.StatusReply("channel", "sucesso", "", t);
    }

    /** The outcome of `handle_channel` once the name is stripped. */
    ghost predicate ChannelOutcome(c: string, reply: Chat.Reply, clock0: nat, channels0: seq<ChannelRecord>, events0: seq<Event>)
      reads this`channels, this`events, clock
    {
      && clock.time == clock0 + 1 && reply.clock == clock.time
      && (c == "" ==>
            && reply == Chat.StatusReply("channel", "erro", EmptyChannelName, clock.time)
            && channels == channels0 && events == events0)
      && (c != "" ==>
            && reply == Chat.StatusReply("channel", "sucesso", "", clock.time)
            && channels == channels0 + [Record(c)]
            && events == events0 + [Event(serverId, clock0, ChannelCreate(c))])
    }

    /** `handle_channels`. */
    method HandleChannels() returns (reply: Chat.Reply)
      modifies clock
      ensures clock.time == old(clock.time) + 1
      ensures reply == Chat.NamesReply("channels", NamesOf(channels), clock.time)
    {
      var t := clock.Tick();
      reply := Chat.NamesReply("channels", NamesOf(channels), t);
    }

    /**
     * `handle_publish`, on the stripped fields: blank fields, an unknown user and an
     * unknown channel are refused with nothing stored or sent; otherwise one tick
     * stamps the stored record, the channel message, the replication event and the reply.
     */
    method HandlePublish(user: Option<string>, channel: Option<string>, message: Option<string>) returns (reply: Chat.Reply)
      requires Valid()
      modifies this`persisted, this`deliveries, this`events, this`messageCount, clock
      ensures Valid()
      ensures PublishOutcome(Field(user), Field(channel), Field(message), reply,
                             old(clock.time), old(persisted), old(deliveries), old(events))
      ensures messageCount == if Sent(reply) then Chat.CountRequest(old(messageCount), BerkeleyEnabled) else old(messageCount)
    {
      var u, c, m := Field(user), Field(channel), Field(message);
      if u == "" || c == "" || m == "" {
        var t := clock.Tick();
        return Chat.StatusReply("publish", "erro", PublishFieldsRequired, t);
      }
      if !HasName(users, u) {
        var t := clock.Tick();
        return Chat.StatusReply("publish", "erro", "Usuário '" + u + "' não encontrado", t);
      }
      if !HasName(channels, c) {
        var t := clock.Tick();
        return Chat.StatusReply("publish", "erro", "Canal '" + c + "' não encontrado", t);
      }
      var t := clock.Tick();
      var post := PublishRecord(u, c, m, t);
      persisted := persisted + [PublishLog(post)];
      deliveries := deliveries + [ChannelNotice(c, u, m, t)];
      PublishEvent(MessagePublish(post));
      CheckBerkeleySync();
      reply := Chat.StatusReply("publish", "OK", "", t);
    }

    /** The outcome of `handle_publish` once its fields are stripped. */
    ghost predicate PublishOutcome(u: string, c: string, m: string, reply: Chat.Reply, clock0: nat,
                                   persisted0: seq<Stored>, deliveries0: seq<Notice>, events0: seq<Event>)
      reads this`users, this`channels, this`persisted, this`deliveries, this`events, clock
    {
      && clock.time == clock0 + 1 && reply.clock == clock.time
      && reply.StatusReply? && (reply.status == "erro" || reply.status == "OK")
      && (reply.status == "erro" <==> u == "" || c == "" || m == "" || !HasName(users, u) || !HasName(channels, c))
      && (u == "" || c == "" || m == "" ==> reply == Chat.StatusReply("publish", "erro", PublishFieldsRequired, clock.time))
      && (u != "" && c != "" && m != "" && !HasName(users, u) ==>
            reply == Chat.StatusReply("publish", "erro", "Usuário '" + u + "' não encontrado", clock.time))
      && (u != "" && c != "" && m != "" && HasName(users, u) && !HasName(channels, c) ==>
            reply == Chat.StatusReply("publish", "erro", "Canal '" + c + "' não encontrado", clock.time))
      && (reply.status == "erro" ==>
            persisted == persisted0 && deliveries == deliveries0 && events == events0)
      && (reply.status == "OK" ==>
            var post := PublishRecord(u, c, m, clock.time);
            && reply == Chat.StatusReply("publish", "OK", "", clock.time)
            && persisted == persisted0 + [PublishLog(post)]
            && deliveries == deliveries0 + [ChannelNotice(c, u, m, clock.time)]
            && events == events0 + [Event(serverId, clock.time, MessagePublish(post))])
    }

    /** `handle_message`: as `handle_publish`, checking that both sender and recipient exist. */
    method HandleMessage(src: Option<string>, dst: Option<string>, message: Option<string>) returns (reply: Chat.Reply)
      requires Valid()
      modifies this`persisted, this`deliveries, this`events, this`messageCount, clock
      ensures Valid()
      ensures MessageOutcome(Field(src), Field(dst), Field(message), reply,
                             old(clock.time), old(persisted), old(deliveries), old(events))
      ensures messageCount == if Sent(reply) then Chat.CountRequest(old(messageCount), BerkeleyEnabled) else old(messageCount)
    {
      var s, d, m := Field(src), Field(dst), Field(message);
      if s == "" || d == "" || m == "" {
        var t := clock.Tick();
        return Chat.StatusReply("message", "erro", MessageFieldsRequired, t);
      }
      if !HasName(users, s) {
        var t := clock.Tick();
        return Chat.StatusReply("message", "erro", "Remetente '" + s + "' não encontrado", t);
      }
      if !HasName(users, d) {
        var t := clock.Tick();
        return Chat.StatusReply("message", "erro", "Destinatário '" + d + "' não encontrado", t);
      }
      var t := clock.Tick();
      var note := SendRecord(s, d, m, t);
      persisted := persisted + [MessageLog(note)];
      deliveries := deliveries + [UserNotice(d, s, m, t)];
      PublishEvent(MessageSend(note));
      CheckBerkeleySync();
      reply := Chat.StatusReply("message", "OK", "", t);
    }

    /** The outcome of `handle_message` once its fields are stripped. */
    ghost predicate MessageOutcome(s: string, d: string, m: string, reply: Chat.Reply, clock0: nat,
                                   persisted0: seq<Stored>, deliveries0: seq<Notice>, events0: seq<Event>)
      reads this`users, this`channels, this`persisted, this`deliveries, this`events, clock
    {
      && clock.time == clock0 + 1 && reply.clock == clock.time
      && reply.StatusReply? && (reply.status == "erro" || reply.status == "OK")
      && (reply.status == "erro" <==> s == "" || d == "" || m == "" || !HasName(users, s) || !HasName(users, d))
      && (s == "" || d == "" || m == "" ==> reply == Chat.StatusReply("message", "erro", MessageFieldsRequired, clock.time))
      && (s != "" && d != "" && m != "" && !HasName(users, s) ==>
            reply == Chat.StatusReply("message", "erro", "Remetente '" + s + "' não encontrado", clock.time))
      && (s != "" && d != "" && m != "" && HasName(users, s) && !HasName(users, d) ==>
            reply == Chat.StatusReply("message", "erro", "Destinatário '" + d + "' não encontrado", clock.time))
      && (reply.status == "erro" ==>
            persisted == persisted0 && deliveries == deliveries0 && events == events0)
      && (reply.status == "OK" ==>
            var note := SendRecord(s, d, m, clock.time);
            && reply == Chat.StatusReply("message", "OK", "", clock.time)
            && persisted == persisted0 + [MessageLog(note)]
            && deliveries == deliveries0 + [UserNotice(d, s, m, clock.time)]
            && events == events0 + [Event(serverId, clock.time, MessageSend(note))])
    }

    /** `process_request`: dispatch on the service; an unknown one is refused. */
    method ProcessRequest(req: Request) returns (reply: Chat.Reply)
      requires Valid()
      modifies this`users, this`channels, this`persisted, this`deliveries, this`events, this`messageCount, clock
      ensures Valid()
      ensures clock.time == old(clock.time) + 1 && reply.clock == clock.time
      ensures appliedEvents == old(appliedEvents)
      ensures req.service != Some("login") ==> users == old(users)
      ensures req.service != Some("channel") ==> channels == old(channels)
      ensures req.service != Some("publish") && req.service != Some("message") ==>
        persisted == old(persisted) && deliveries == old(deliveries) && messageCount == old(messageCount)
      ensures req.service != Some("login") && req.service != Some("channel")
              && req.service != Some("publish") && req.service != Some("message") ==>
        events == old(events)
      ensures reply.StatusReply? && reply.status == "erro" ==>
        && users == old(users) && channels == old(channels) && persisted == old(persisted)
        && deliveries == old(deliveries) && events == old(events)
      ensures !Handled(req.service) ==>
        reply == Chat.StatusReply(EchoedService(req.service), "erro",
                                  "Serviço '" + ShownService(req.service) + "' não suportado", clock.time)
      ensures messageCount == if Sent(reply) then Chat.CountRequest(old(messageCount), BerkeleyEnabled) else old(messageCount)
      ensures req.service == Some("login") ==> LoginOutcome(Field(req.user), reply, old(clock.time), old(users), old(events))
      ensures req.service == Some("users") ==> reply == Chat.NamesReply("users", NamesOf(users), clock.time)
      ensures req.service == Some("channel") ==>
        ChannelOutcome(Field(req.channel), reply, old(clock.time), old(channels), old(events))
      ensures req.service == Some("channels") ==> reply == Chat.NamesReply("channels", NamesOf(channels), clock.time)
      ensures req.service == Some("publish") ==>
        PublishOutcome(Field(req.user), Field(req.channel), Field(req.message), reply,
                       old(clock.time), old(persisted), old(deliveries), old(events))
      ensures req.service == Some("message") ==>
        MessageOutcome(Field(req.src), Field(req.dst), Field(req.message), reply,
                       old(clock.time), old(persisted), old(deliveries), old(events))
    {
      if req.service == Some("login") {
        reply := HandleLogin(req.user);
      } else if req.service == Some("users") {
        reply := HandleUsers();
      } else if req.service == Some("channel") {
        reply := HandleChannel(req.channel);
      } else if req.service == Some("channels") {
        reply := HandleChannels();
      } else if req.service == Some("publish") {
        reply := HandlePublish(req.user, req.channel, req.message);
      } else if req.service == Some("message") {
        reply := HandleMessage(req.src, req.dst, req.message);
      } else {
        var t := clock.Tick();
        reply := Chat.StatusReply(EchoedService(req.service), "erro",
                                  "Serviço '" + ShownService(req.service) + "' não suportado", t);
      }
    }

    /**
     * One pass of `run`: fold in the request's clock if it has one, process the
     * request, then count it for the Berkeley sync.
     */
    method Serve(req: Request) returns (reply: Chat.Reply)
      requires Valid()
      modifies this`users, this`channels, this`persisted, this`deliveries, this`events, this`messageCount, clock
      ensures Valid()
      ensures reply.clock == clock.time && clock.time > old(clock.time)
      ensures req.clock.Some? ==> clock.time > req.clock.value && clock.time > old(clock.time) + 1
      ensures req.service !in {Some("publish"), Some("message")} ==>
        messageCount == Chat.CountRequest(old(messageCount), BerkeleyEnabled)
      ensures reply.StatusReply? && reply.status == "erro" ==>
        && users == old(users) && channels == old(channels) && persisted == old(persisted)
        && deliveries == old(deliveries) && events == old(events)
      ensures clock.time == Folded(old(clock.time), req.clock) + 1
      ensures appliedEvents == old(appliedEvents)
      ensures req.service != Some("login") ==> users == old(users)
      ensures req.service != Some("channel") ==> channels == old(channels)
      ensures req.service != Some("publish") && req.service != Some("message") ==>
        persisted == old(persisted) && deliveries == old(deliveries)
      ensures req.service != Some("login") && req.service != Some("channel")
              && req.service != Some("publish") && req.service != Some("message") ==>
        events == old(events)
      ensures messageCount ==
        Chat.CountRequest(if Sent(reply) then Chat.CountRequest(old(messageCount), BerkeleyEnabled) else old(messageCount),
                          BerkeleyEnabled)
      ensures req.service == Some("login") ==>
        LoginOutcome(Field(req.user), reply, Folded(old(clock.time), req.clock), old(users), old(events))
      ensures req.service == Some("users") ==> reply == Chat.NamesReply("users", NamesOf(users), clock.time)
      ensures req.service == Some("channel") ==>
        ChannelOutcome(Field(req.channel), reply, Folded(old(clock.time), req.clock), old(channels), old(events))
      ensures req.service == Some("channels") ==> reply == Chat.NamesReply("channels", NamesOf(channels), clock.time)
      ensures req.service == Some("publish") ==>
        PublishOutcome(Field(req.user), Field(req.channel), Field(req.message), reply,
                       Folded(old(clock.time), req.clock), old(persisted), old(deliveries), old(events))
      ensures req.service == Some("message") ==>
        MessageOutcome(Field(req.src), Field(req.dst), Field(req.message), reply,
                       Folded(old(clock.time), req.clock), old(persisted), old(deliveries), old(events))
      ensures !Handled(req.service) ==>
        reply == Chat.StatusReply(EchoedService(req.service), "erro",
                                  "Serviço '" + ShownService(req.service) + "' não suportado", clock.time)
    {
      if req.clock.Some? {
        var _ := clock.Update(req.clock.value);
      }
      reply := ProcessRequest(req);
      CheckBerkeleySync();
    }
  }

  /** The servers ranked above this one. */
  function HigherRanked(peers: seq<Peer>, rank: int): (r: seq<Peer>)
    ensures forall p :: p in r <==> p in peers && p.rank > rank
    decreases |peers|
  {
    if peers == [] then []
    else
      var front := HigherRanked(peers[..|peers| - 1], rank);
      var last := peers[|peers| - 1];
      assert peers == peers[..|peers| - 1] + [last];
      if last.rank > rank then front + [last] else front
  }
}
