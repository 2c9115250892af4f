/**
 * The script-style Go server of `src/server-go/main.go`. Its package-level slices,
 * `logicalClock`, `serverRank`, `coordinator` and `messageCounter` are the fields of
 * one `Server` object. A field read with a failing type assertion panics in the
 * source; here such a field is a precondition instead.
 */
module ChatGo {
  import opened Base
  import opened Lamport
  import opened ListMerge
  import opened Chat

  /**
   * A message on the subscriber socket. `None` is a missing field or one of the
   * wrong dynamic type; a list entry that is not a string is `None` too.
   */
  datatype Broadcast = Broadcast(
    topic: string,
    service: string,
    coordinator: Option<string>,
    server: Option<string>,
    users: Option<seq<Option<string>>>,
    channels: Option<seq<Option<string>>>)

  /** The merge applies to a "replication" message on the "replication" topic from another server. */
  predicate FromPeer(msg: Broadcast, self: string) {
    msg.service == "replication" && msg.topic == "replication"
    && msg.server.Some? && msg.server.value != self
  }

  /** The string entries of an optional list, none when the field is not a list. */
  function Names(list: Option<seq<Option<string>>>): (r: seq<string>)
    ensures forall x :: x in r <==> list.Some? && Some(x) in list.value
  {
    if list.Some? then Strings(list.value) else []
  }

  class Server {
    const serverName: string
    var users: seq<string>
    var channels: seq<string>
    var logins: seq<Login>
    var messages: seq<DirectMessage>
    var publications: seq<Publication>
    var clock: nat
    var serverRank: int
    var coordinator: string
    var messageCounter: nat
    /** Envelopes sent on user and channel topics. */
    ghost var deliveries: seq<Delivery>

    /** Users and channels are never listed twice. */
    ghost predicate Valid()
      reads this
    {
      Distinct(users) && Distinct(channels)
    }

    /** Start-up: the lists are those loaded from the server's JSON files. */
    constructor (name: string, savedUsers: seq<string>, savedChannels: seq<string>,
                 savedLogins: seq<Login>, savedMessages: seq<DirectMessage>, savedPublications: seq<Publication>)
      requires Distinct(savedUsers) && Distinct(savedChannels)
      ensures Valid()
      ensures serverName == name && users == savedUsers && channels == savedChannels && logins == savedLogins
      ensures messages == savedMessages && publications == savedPublications && deliveries == []
      ensures clock == 0 && serverRank == 0 && coordinator == "" && messageCounter == 0
    {
      serverName := name;
      users, channels, logins, messages, publications := savedUsers, savedChannels, savedLogins, savedMessages, savedPublications;
      clock, serverRank, coordinator, messageCounter := 0, 0, "", 0;
      deliveries := [];
    }

    /** `incrementClock`. */
    method IncrementClock() returns (t: nat)
      modifies this`clock
      ensures clock == old(clock) + 1 && t == clock
    {
      clock := clock + 1;
      t := clock;
    }

    /** `updateClock`: raise to the received value if larger, then add one. */
    method UpdateClock(received: int) returns (t: nat)
      modifies this`clock
      ensures clock == Merge(old(clock), received) && t == clock
    {
      if received > clock {
        clock := received;
      }
      clock := clock + 1;
      t := clock;
    }

    /**
     * Start-up registration: the rank request carries a tick; the reply's clock and
     * rank are taken only when they are integers.
     */
    method RegisterRank(replyClock: Option<int>, replyRank: Option<int>) returns (requestClock: nat)
      modifies this`clock, this`serverRank
      ensures requestClock == old(clock) + 1
      ensures clock == (if replyClock.Some? then Merge(requestClock, replyClock.value) else requestClock)
      ensures serverRank == (if replyRank.Some? then replyRank.value else old(serverRank))
    {
      requestClock := IncrementClock();
      if replyClock.Some? {
        var _ := UpdateClock(replyClock.value);
      }
      if replyRank.Some? {
        serverRank := replyRank.value;
      }
    }

    /** One round of the heartbeat goroutine: the request carries a tick; the reply is discarded. */
    method Heartbeat() returns (requestClock: nat)
      modifies this`clock
      ensures clock == old(clock) + 1 && requestClock == clock
    {
      requestClock := IncrementClock();
    }

    /** One round of the replication goroutine: the current lists, published with a fresh tick. */
    method PublishSnapshot() returns (msg: Broadcast, stamp: nat)
      modifies this`clock
      ensures clock == old(clock) + 1 && stamp == clock
      ensures msg.topic == "replication" && msg.service == "replication" && msg.server == Some(serverName)
      ensures Names(msg.users) == users && Names(msg.channels) == channels
    {
      stamp := IncrementClock();
      msg := Broadcast("replication", "replication", None, Some(serverName), Some(Tagged(users)), Some(Tagged(channels)));
    }

    /** The "login" case. */
    method Login(user: string) returns (reply: Reply)
      requires Valid()
      modifies this`users, this`logins, this`clock
      ensures Valid()
      ensures LoginOutcome(user, reply, old(clock), old(users), old(logins))
    {
      if user == "" {
        var t := IncrementClock();
        reply := StatusReply("login", "erro", NoUserName, t);
      } else {
        var found := Contains(users, user);
        if found {
          var t := IncrementClock();
          reply := StatusReply("login", "erro", UserTaken, t);
        } else {
          AppendAbsentKeepsDistinct(users, user);
          users := users + [user];
          logins := logins + [Chat.Login(user)];
          var t := IncrementClock();
          reply := StatusReply("login", "sucesso", "", t);
        }
      }
    }

    /** What the "login" case leaves: an empty or taken name is refused, any other is appended; one tick. */
    ghost predicate LoginOutcome(user: string, reply: Reply, clock0: nat, users0: seq<string>, logins0: seq<Login>)
      reads this
    {
      && clock == clock0 + 1
      && (user == "" ==>
            reply == StatusReply("login", "erro", NoUserName, clock) && users == users0 && logins == logins0)
      && (user != "" && user in users0 ==>
            reply == StatusReply("login", "erro", UserTaken, clock) && users == users0 && logins == logins0)
      && (user != "" && user !in users0 ==>
            && reply == StatusReply("login", "sucesso", "", clock)
            && users == users0 + [user] && logins == logins0 + [Chat.Login(user)])
    }

    /** The "users" case. */
    method ListUsers() returns (reply: Reply)
      modifies this`clock
      ensures clock == old(clock) + 1
      ensures reply == NamesReply("users", users, clock)
    {
      var t := IncrementClock();
      reply := NamesReply("users", users, t);
    }

    /** The "channel" case: there is no empty-name check, so "" can become a channel. */
    method CreateChannel(channel: string) returns (reply: Reply)
      requires Valid()
      modifies this`channels, this`clock
      ensures Valid()
      ensures ChannelOutcome(channel, reply, old(clock), old(channels))
    {
      var found := Contains(channels, channel);
      if found {
        var t := IncrementClock();
        reply := StatusReply("channel", "erro", ChannelTaken, t);
      } else {
        AppendAbsentKeepsDistinct(channels, channel);
        channels := channels + [channel];
        var t := IncrementClock();
        reply := StatusReply("channel", "sucesso", "", t);
      }
    }

    /** What the "channel" case leaves: an existing name is refused, any other (even "") is appended; one tick. */
    ghost predicate ChannelOutcome(channel: string, reply: Reply, clock0: nat, channels0: seq<string>)
      reads this
    {
      && clock == clock0 + 1
      && (channel in channels0 ==>
            reply == StatusReply("channel", "erro", ChannelTaken, clock) && channels == channels0)
      && (channel !in channels0 ==>
            reply == StatusReply("channel", "sucesso", "", clock) && channels == channels0 + [channel])
    }

    /** The "channels" case. */
    method ListChannels() returns (reply: Reply)
      modifies this`clock
      ensures clock == old(clock) + 1
      ensures reply == NamesReply("channels", channels, clock)
    {
      var t := IncrementClock();
      reply := NamesReply("channels", channels, t);
    }

    /** The "publish" case: only the channel is checked. */
    method Publish(user: string, channel: string, message: string) returns (reply: Reply)
      modifies this`publications, this`deliveries, this`clock
      ensures PublishOutcome(user, channel, message, reply, old(clock), old(publications), old(deliveries))
    {
      var found := Contains(channels, channel);
      if !found {
        var t := IncrementClock();
        reply := StatusReply("publish", "erro", NoSuchChannel, t);
      } else {
        var post := Publication(Some(user), channel, Some(message));
        var stamp := IncrementClock();
        deliveries := deliveries + [ChannelPost(channel, post, stamp)];
        publications := publications + [post];
        var t := IncrementClock();
        reply := StatusReply("publish", "OK", "", t);
      }
    }

    /**
     * What the "publish" case leaves: an unknown channel is refused with one tick;
     * otherwise the post is stored and sent stamped with the first of two ticks.
     */
    ghost predicate PublishOutcome(user: string, channel: string, message: string, reply: Reply,
                                   clock0: nat, publications0: seq<Publication>, deliveries0: seq<Delivery>)
      reads this
    {
      && (channel !in channels ==>
            && reply == StatusReply("publish", "erro", NoSuchChannel, clock) && clock == clock0 + 1
            && publications == publications0 && deliveries == deliveries0)
      && (channel in channels ==>
            var post := Publication(Some(user), channel, Some(message));
            && publications == publications0 + [post]
            && deliveries == deliveries0 + [ChannelPost(channel, post, clock0 + 1)]
            && reply == StatusReply("publish", "OK", "", clock) && clock == clock0 + 2)
    }

    /** The "message" case: only the recipient is checked. */
    method Message(src: string, dst: string, message: string) returns (reply: Reply)
      modifies this`messages, this`deliveries, this`clock
      ensures MessageOutcome(src, dst, message, reply, old(clock), old(messages), old(deliveries))
    {
      var found := Contains(users, dst);
      if !found {
        var t := IncrementClock();
        reply := StatusReply("message", "erro", NoSuchUser, t);
      } else {
        var note := DirectMessage(Some(src), dst, Some(message));
        var stamp := IncrementClock();
        deliveries := deliveries + [UserPost(dst, note, stamp)];
        messages := messages + [note];
        var t := IncrementClock();
        reply := StatusReply("message", "OK", "", t);
      }
    }

    /**
     * What the "message" case leaves: an unknown recipient is refused with one tick;
     * otherwise the message is stored and sent stamped with the first of two ticks.
     */
    ghost predicate MessageOutcome(src: string, dst: string, message: string, reply: Reply,
                                   clock0: nat, messages0: seq<DirectMessage>, deliveries0: seq<Delivery>)
      reads this
    {
      && (dst !in users ==>
            && reply == StatusReply("message", "erro", NoSuchUser, clock) && clock == clock0 + 1
            && messages == messages0 && deliveries == deliveries0)
      && (dst in users ==>
            var note := DirectMessage(Some(src), dst, Some(message));
            && messages == messages0 + [note]
            && deliveries == deliveries0 + [UserPost(dst, note, clock0 + 1)]
            && reply == StatusReply("message", "OK", "", clock) && clock == clock0 + 2)
    }

    /**
     * One pass of the main loop: fold in the clock if it is an integer, count the
     * request, then dispatch on the service.
     */
    method HandleRequest(req: Request) returns (reply: Reply)
      requires Valid()
      requires req.service == "login" ==> req.user.Some?
      requires req.service == "channel" ==> req.channel.Some?
      requires req.service == "publish" ==> req.user.Some? && req.channel.Some? && req.message.Some?
      requires req.service == "message" ==> req.src.Some? && req.dst.Some? && req.message.Some?
      modifies this
      ensures Valid()
      ensures coordinator == old(coordinator) && serverRank == old(serverRank)
      ensures messageCounter == CountRequest(old(messageCounter), coordinator != "")
      ensures reply.clock == clock && clock > old(clock)
      ensures req.clock.Some? ==> clock > req.clock.value && clock > old(clock) + 1
      ensures req.service != "login" ==> users == old(users) && logins == old(logins)
      ensures req.service != "channel" ==> channels == old(channels)
      ensures req.service != "publish" ==> publications == old(publications)
      ensures req.service != "message" ==> messages == old(messages)
      ensures req.service !in {"publish", "message"} ==> deliveries == old(deliveries)
      ensures reply.StatusReply? && reply.status == "erro" ==>
        && users == old(users) && channels == old(channels) && logins == old(logins)
        && messages == old(messages) && publications == old(publications) && deliveries == old(deliveries)
      ensures req.service == "login" ==>
        LoginOutcome(req.user.value, reply, Folded(old(clock), req.clock), old(users), old(logins))
      ensures req.service == "users" ==>
        reply == NamesReply("users", users, clock) && clock == Folded(old(clock), req.clock) + 1
      ensures req.service == "channel" ==>
        ChannelOutcome(req.channel.value, reply, Folded(old(clock), req.clock), old(channels))
      ensures req.service == "channels" ==>
        reply == NamesReply("channels", channels, clock) && clock == Folded(old(clock), req.clock) + 1
      ensures req.service == "publish" ==>
        PublishOutcome(req.user.value, req.channel.value, req.message.value, reply, Folded(old(clock), req.clock),
                       old(publications), old(deliveries))
      ensures req.service == "message" ==>
        MessageOutcome(req.src.value, req.dst.value, req.message.value, reply, Folded(old(clock), req.clock),
                       old(messages), old(deliveries))
      ensures req.service !in {"login", "users", "channel", "channels", "publish", "message"} ==>
        reply == StatusReply(req.service, "erro", UnknownService, clock) && clock == Folded(old(clock), req.clock) + 1
    {
      if req.clock.Some? {
        var _ := UpdateClock(req.clock.value);
      }
      messageCounter := messageCounter + 1;
      if messageCounter >= SyncInterval && coordinator != "" {
        messageCounter := 0;
      }
      reply := Dispatch(req);
    }

    /** The switch on the service name, run after the clock fold and the counter. */
    method Dispatch(req: Request) returns (reply: Reply)
      requires Valid()
      requires req.service == "login" ==> req.user.Some?
      requires req.service == "channel" ==> req.channel.Some?
      requires req.service == "publish" ==> req.user.Some? && req.channel.Some? && req.message.Some?
      requires req.service == "message" ==> req.src.Some? && req.dst.Some? && req.message.Some?
      modifies this`users, this`logins, this`channels, this`publications, this`messages, this`deliveries, this`clock
      ensures Valid()
      ensures reply.clock == clock && clock > old(clock)
      ensures req.service != "login" ==> users == old(users) && logins == old(logins)
      ensures req.service != "channel" ==> channels == old(channels)
      ensures req.service != "publish" ==> publications == old(publications)
      ensures req.service != "message" ==> messages == old(messages)
      ensures req.service !in {"publish", "message"} ==> deliveries == old(deliveries)
      ensures reply.StatusReply? && reply.status == "erro" ==>
        && users == old(users) && channels == old(channels) && logins == old(logins)
        && messages == old(messages) && publications == old(publications) && deliveries == old(deliveries)
      ensures req.service == "login" ==> LoginOutcome(req.user.value, reply, old(clock), old(users), old(logins))
      ensures req.service == "users" ==> reply == NamesReply("users", users, clock) && clock == old(clock) + 1
      ensures req.service == "channel" ==> ChannelOutcome(req.channel.value, reply, old(clock), old(channels))
      ensures req.service == "channels" ==> reply == NamesReply("channels", channels, clock) && clock == old(clock) + 1
      ensures req.service == "publish" ==>
        PublishOutcome(req.user.value, req.channel.value, req.message.value, reply, old(clock),
                       old(publications), old(deliveries))
      ensures req.service == "message" ==>
        MessageOutcome(req.src.value, req.dst.value, req.message.value, reply, old(clock),
                       old(messages), old(deliveries))
      ensures req.service !in {"login", "users", "channel", "channels", "publish", "message"} ==>
        reply == StatusReply(req.service, "erro", UnknownService, clock) && clock == old(clock) + 1
    {
      if req.service == "login" {
        reply := Login(req.user.value);
      } else if req.service == "users" {
        reply := ListUsers();
      } else if req.service == "channel" {
        reply := CreateChannel(req.channel.value);
      } else if req.service == "channels" {
        reply := ListChannels();
      } else if req.service == "publish" {
        reply := Publish(req.user.value, req.channel.value, req.message.value);
      } else if req.service == "message" {
        reply := Message(req.src.value, req.dst.value, req.message.value);
      } else {
        var t := IncrementClock();
        reply := StatusReply(req.service, "erro", UnknownService, t);
      }
    }

    /** The subscriber goroutine's body: an election or a replication snapshot; neither touches the clock. */
    method ReceiveBroadcast(msg: Broadcast)
      requires Valid()
      modifies this`coordinator, this`users, this`channels
      ensures Valid()
      ensures msg.service == "election" && msg.coordinator.Some? ==> coordinator == msg.coordinator.value
      ensures !(msg.service == "election" && msg.coordinator.Some?) ==> coordinator == old(coordinator)
      ensures FromPeer(msg, serverName) ==>
        && users == MergeUnion(old(users), Names(msg.users))
        && channels == MergeUnion(old(channels), Names(msg.channels))
      ensures !FromPeer(msg, serverName) ==> users == old(users) && channels == old(channels)
    {
      if msg.service == "election" {
        if msg.coordinator.Some? {
          coordinator := msg.coordinator.value;
        }
      } else if msg.service == "replication" && msg.topic == "replication" {
        if msg.server.Some? && msg.server.value != serverName {
          users := MergeLists(users, Names(msg.users));
          channels := MergeLists(channels, Names(msg.channels));
        }
      }
    }
  }

  /** A string slice seen as a list of dynamically typed entries. */
  function Tagged(names: seq<string>): (r: seq<Option<string>>)
    ensures |r| == |names| && Strings(r) == names
  {
    if names == [] then []
    else
      var front := names[..|names| - 1];
      StringsStep(Tagged(front), Some(names[|names| - 1]));
      assert names == front + [names[|names| - 1]];
      Tagged(front) + [Some(names[|names| - 1])]
  }

  /** The `found` scan that precedes every append. */
  method Contains(list: seq<string>, x: string) returns (found: bool)
    ensures found <==> x in list
  {
    found := false;
    var i := 0;
    while i < |list|
      invariant 0 <= i <= |list|
      invariant found <==> x in list[..i]
    {
      if list[i] == x {
        found := true;
        break;
      }
      assert list[..i + 1] == list[..i] + [list[i]];
      i := i + 1;
    }
    if !found {
      assert list[..i] == list;
    }
  }
}
