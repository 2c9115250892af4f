/**
 * The script-style Python server of `src/server/main.py`. Its module-level lists
 * (`users`, `channels`, `logins`, `messages`, `publications`), `logical_clock`,
 * `coordinator` and `message_counter` are the fields of one `Server` object; the
 * envelopes it publishes on user and channel topics are appended to `deliveries`.
 */
module ChatPy {
  import opened Base
  import opened Lamport
  import opened ListMerge
  import opened Chat

  class Server {
    const serverName: string
    var users: seq<string>
    var channels: seq<string>
    var logins: seq<Login>
    var messages: seq<DirectMessage>
    var publications: seq<Publication>
    var clock: nat
    var serverRank: int
    var coordinator: Option<string>
    var messageCounter: nat
    /** Envelopes sent on user and channel topics. */
    ghost var deliveries: seq<Delivery>

    /** Users and channels are never listed twice. */
    ghost predicate Valid()
      reads this
    {
      Distinct(users) && Distinct(channels)
    }

    /** Start-up: the lists are those loaded from the server's JSON files. */
    constructor (name: string, savedUsers: seq<string>, savedChannels: seq<string>,
                 savedLogins: seq<Login>, savedMessages: seq<DirectMessage>, savedPublications: seq<Publication>)
      requires Distinct(savedUsers) && Distinct(savedChannels)
      ensures Valid()
      ensures serverName == name && users == savedUsers && channels == savedChannels && logins == savedLogins
      ensures messages == savedMessages && publications == savedPublications && deliveries == []
      ensures clock == 0 && serverRank == 0 && coordinator == None && messageCounter == 0
    {
      serverName := name;
      users, channels, logins, messages, publications := savedUsers, savedChannels, savedLogins, savedMessages, savedPublications;
      clock, serverRank, coordinator, messageCounter := 0, 0, None, 0;
      deliveries := [];
    }

    /** `increment_clock`. */
    method IncrementClock() returns (t: nat)
      modifies this`clock
      ensures clock == old(clock) + 1 && t == clock
    {
      clock := clock + 1;
      t := clock;
    }

    /** `update_clock`. */
    method UpdateClock(received: int) returns (t: nat)
      modifies this`clock
      ensures clock == Merge(old(clock), received) && t == clock
    {
      clock := (if clock >= received then clock else received) + 1;
      t := clock;
    }

    /** Start-up registration: a ticked rank request, then the reply's clock and rank (both default 0). */
    method RegisterRank(replyClock: Option<int>, replyRank: Option<int>) returns (requestClock: nat)
      modifies this`clock, this`serverRank
      ensures requestClock == old(clock) + 1
      ensures clock == Merge(requestClock, OrZero(replyClock)) && clock > OrZero(replyClock)
      ensures serverRank == OrZero(replyRank)
    {
      requestClock := IncrementClock();
      var _ := UpdateClock(OrZero(replyClock));
      serverRank := OrZero(replyRank);
    }

    /** One round of `send_heartbeat`: a ticked request, then the reply's clock (default 0). */
    method Heartbeat(replyClock: Option<int>) returns (requestClock: nat)
      modifies this`clock
      ensures requestClock == old(clock) + 1
      ensures clock == Merge(requestClock, OrZero(replyClock))
    {
      requestClock := IncrementClock();
      var _ := UpdateClock(OrZero(replyClock));
    }

    /**
     * One round of `sync_with_servers`: a ticked "list" request whose reply clock is
     * folded in, then the current lists published with a fresh tick.
     */
    method PublishSnapshot(listReplyClock: Option<int>) returns (snap: TopicMessage)
      modifies this`clock
      ensures clock == Merge(old(clock) + 1, OrZero(listReplyClock)) + 1
      ensures snap == TopicMessage("replication", None, Some(serverName), users, channels, Some(clock))
    {
      var _ := IncrementClock();
      var _ := UpdateClock(OrZero(listReplyClock));
      var t := IncrementClock();
      snap := TopicMessage("replication", None, Some(serverName), users, channels, Some(t));
    }

    /** The `login` branch. */
    method Login(user: Option<string>) returns (reply: Reply)
      requires Valid()
      modifies this`users, this`logins, this`clock
      ensures Valid()
      ensures LoginOutcome(user, reply, old(clock), old(users), old(logins))
    {
      if Blank(user) {
        var t := IncrementClock();
        reply := StatusReply("login", "erro", NoUserName, t);
      } else if user.value in users {
        var t := IncrementClock();
        reply := StatusReply("login", "erro", UserTaken, t);
      } else {
        AppendAbsentKeepsDistinct(users, user.value);
        users := users + [user.value];
        logins := logins + [Chat.Login(user.value)];
        var t := IncrementClock();
        reply := StatusReply("login", "sucesso", "", t);
      }
    }

    /**
     * What the `login` branch leaves, from clock `clock0` and lists `users0`, `logins0`:
     * a blank or taken name is refused, any other is appended; one tick either way.
     */
    ghost predicate LoginOutcome(user: Option<string>, reply: Reply, clock0: nat, users0: seq<string>, logins0: seq<Login>)
      reads this
    {
      && clock == clock0 + 1
      && (Blank(user) ==>
            reply == StatusReply("login", "erro", NoUserName, clock) && users == users0 && logins == logins0)
      && (!Blank(user) && user.value in users0 ==>
            reply == StatusReply("login", "erro", UserTaken, clock) && users == users0 && logins == logins0)
      && (!Blank(user) && user.value !in users0 ==>
            && reply == StatusReply("login", "sucesso", "", clock)
            && users == users0 + [user.value] && logins == logins0 + [Chat.Login(user.value)])
    }

    /** The `users` branch. */
    method ListUsers() returns (reply: Reply)
      modifies this`clock
      ensures clock == old(clock) + 1
      ensures reply == NamesReply("users", users, clock)
    {
      var t := IncrementClock();
      reply := NamesReply("users", users, t);
    }

    /** The `channel` branch. */
    method CreateChannel(channel: Option<string>) returns (reply: Reply)
      requires Valid()
      modifies this`channels, this`clock
      ensures Valid()
      ensures ChannelOutcome(channel, reply, old(clock), old(channels))
    {
      if Blank(channel) {
        var t := IncrementClock();
        reply := StatusReply("channel", "erro", NoChannelName, t);
      } else if channel.value in channels {
        var t := IncrementClock();
        reply := StatusReply("channel", "erro", ChannelTaken, t);
      } else {
        AppendAbsentKeepsDistinct(channels, channel.value);
        channels := channels + [channel.value];
        var t := IncrementClock();
        reply := StatusReply("channel", "sucesso", "", t);
      }
    }

    /** What the `channel` branch leaves: a blank or existing name is refused, any other is appended; one tick. */
    ghost predicate ChannelOutcome(channel: Option<string>, reply: Reply, clock0: nat, channels0: seq<string>)
      reads this
    {
      && clock == clock0 + 1
      && (Blank(channel) ==>
            reply == StatusReply("channel", "erro", NoChannelName, clock) && channels == channels0)
      && (!Blank(channel) && channel.value in channels0 ==>
            reply == StatusReply("channel", "erro", ChannelTaken, clock) && channels == channels0)
      && (!Blank(channel) && channel.value !in channels0 ==>
            reply == StatusReply("channel", "sucesso", "", clock) && channels == channels0 + [channel.value])
    }

    /** The `channels` branch. */
    method ListChannels() returns (reply: Reply)
      modifies this`clock
      ensures clock == old(clock) + 1
      ensures reply == NamesReply("channels", channels, clock)
    {
      var t := IncrementClock();
      reply := NamesReply("channels", channels, t);
    }

    /** The `publish` branch: only the channel is checked, the sender is not. */
    method Publish(user: Option<string>, channel: Option<string>, message: Option<string>) returns (reply: Reply)
      modifies this`publications, this`deliveries, this`clock
      ensures PublishOutcome(user, channel, message, reply, old(clock), old(publications), old(deliveries))
    {
      if channel.None? || channel.value !in channels {
        var t := IncrementClock();
        reply := StatusReply("publish", "erro", NoSuchChannel, t);
      } else {
        var post := Publication(user, channel.value, message);
        var stamp := IncrementClock();
        deliveries := deliveries + [ChannelPost(channel.value, post, stamp)];
        publications := publications + [post];
        var t := IncrementClock();
        reply := StatusReply("publish", "OK", "", t);
      }
    }

    /**
     * What the `publish` branch leaves: an unknown channel is refused with one tick;
     * otherwise the post is stored and sent on the channel's topic stamped with the
     * first of two ticks.
     */
    ghost predicate PublishOutcome(user: Option<string>, channel: Option<string>, message: Option<string>, reply: Reply,
                                   clock0: nat, publications0: seq<Publication>, deliveries0: seq<Delivery>)
      reads this
    {
      && (channel.None? || channel.value !in channels ==>
            && reply == StatusReply("publish", "erro", NoSuchChannel, clock) && clock == clock0 + 1
            && publications == publications0 && deliveries == deliveries0)
      && (channel.Some? && channel.value in channels ==>
            var post := Publication(user, channel.value, message);
            && publications == publications0 + [post]
            && deliveries == deliveries0 + [ChannelPost(channel.value, post, clock0 + 1)]
            && reply == StatusReply("publish", "OK", "", clock) && clock == clock0 + 2)
    }

    /** The `message` branch: only the recipient is checked, the sender is not. */
    method Message(src: Option<string>, dst: Option<string>, message: Option<string>) returns (reply: Reply)
      modifies this`messages, this`deliveries, this`clock
      ensures MessageOutcome(src, dst, message, reply, old(clock), old(messages), old(deliveries))
    {
      if dst.None? || dst.value !in users {
        var t := IncrementClock();
        reply := StatusReply("message", "erro", NoSuchUser, t);
      } else {
        var note := DirectMessage(src, dst.value, message);
        var stamp := IncrementClock();
        deliveries := deliveries + [UserPost(dst.value, note, stamp)];
        messages := messages + [note];
        var t := IncrementClock();
        reply := StatusReply("message", "OK", "", t);
      }
    }

    /**
     * What the `message` branch leaves: an unknown recipient is refused with one tick;
     * otherwise the message is stored and sent on the recipient's topic stamped with
     * the first of two ticks.
     */
    ghost predicate MessageOutcome(src: Option<string>, dst: Option<string>, message: Option<string>, reply: Reply,
                                   clock0: nat, messages0: seq<DirectMessage>, deliveries0: seq<Delivery>)
      reads this
    {
      && (dst.None? || dst.value !in users ==>
            && reply == StatusReply("message", "erro", NoSuchUser, clock) && clock == clock0 + 1
            && messages == messages0 && deliveries == deliveries0)
      && (dst.Some? && dst.value in users ==>
            var note := DirectMessage(src, dst.value, message);
            && messages == messages0 + [note]
            && deliveries == deliveries0 + [UserPost(dst.value, note, clock0 + 1)]
            && reply == StatusReply("message", "OK", "", clock) && clock == clock0 + 2)
    }

    /**
     * One request of the main loop: fold in the request's clock, count the request,
     * then run the service branch.
     */
    method HandleRequest(req: Request) returns (reply: Reply)
      requires Valid()
      modifies this
      ensures Valid()
      ensures coordinator == old(coordinator)
      ensures messageCounter == CountRequest(old(messageCounter), !Blank(coordinator))
      ensures reply.clock == clock && clock > OrZero(req.clock) && clock > old(clock) + 1
      ensures req.service != "login" ==> users == old(users) && logins == old(logins)
      ensures req.service != "channel" ==> channels == old(channels)
      ensures req.service != "publish" ==> publications == old(publications)
      ensures req.service != "message" ==> messages == old(messages)
      ensures req.service !in {"publish", "message"} ==> deliveries == old(deliveries)
      ensures reply.StatusReply? && reply.status == "erro" ==>
        && users == old(users) && channels == old(channels) && logins == old(logins)
        && messages == old(messages) && publications == old(publications) && deliveries == old(deliveries)
      ensures req.service == "login" ==>
        LoginOutcome(req.user, reply, Merge(old(clock), OrZero(req.clock)), old(users), old(logins))
      ensures req.service == "users" ==>
        reply == NamesReply("users", users, clock) && clock == Merge(old(clock), OrZero(req.clock)) + 1
      ensures req.service == "channel" ==>
        ChannelOutcome(req.channel, reply, Merge(old(clock), OrZero(req.clock)), old(channels))
      ensures req.service == "channels" ==>
        reply == NamesReply("channels", channels, clock) && clock == Merge(old(clock), OrZero(req.clock)) + 1
      ensures req.service == "publish" ==>
        PublishOutcome(req.user, req.channel, req.message, reply, Merge(old(clock), OrZero(req.clock)),
                       old(publications), old(deliveries))
      ensures req.service == "message" ==>
        MessageOutcome(req.src, req.dst, req.message, reply, Merge(old(clock), OrZero(req.clock)),
                       old(messages), old(deliveries))
      ensures req.service !in {"login", "users", "channel", "channels", "publish", "message"} ==>
        reply == StatusReply(req.service, "erro", UnknownService, clock) && clock == Merge(old(clock), OrZero(req.clock)) + 1
    {
      var _ := UpdateClock(OrZero(req.clock));
      messageCounter := messageCounter + 1;
      if messageCounter >= SyncInterval && !Blank(coordinator) {
        messageCounter := 0;
      }
      if req.service == "login" {
        reply := Login(req.user);
      } else if req.service == "users" {
        reply := ListUsers();
      } else if req.service == "channel" {
        reply := CreateChannel(req.channel);
      } else if req.service == "channels" {
        reply := ListChannels();
      } else if req.service == "publish" {
        reply := Publish(req.user, req.channel, req.message);
      } else if req.service == "message" {
        reply := Message(req.src, req.dst, req.message);
      } else {
        var t := IncrementClock();
        reply := StatusReply(req.service, "erro", UnknownService, t);
      }
    }

    /** The poll of the "servers" topic at the top of the main loop. */
    method ReceiveElection(msg: TopicMessage)
      modifies this`coordinator, this`clock
      ensures msg.service == "election" ==>
        coordinator == msg.coordinator && clock == Merge(old(clock), OrZero(msg.clock))
      ensures msg.service != "election" ==> coordinator == old(coordinator) && clock == old(clock)
    {
      if msg.service == "election" {
        coordinator := msg.coordinator;
        var _ := UpdateClock(OrZero(msg.clock));
      }
    }

    /** `receive_replication`: set-union of another server's lists into the local ones. */
    method ReceiveReplication(msg: TopicMessage)
      requires Valid()
      modifies this`users, this`channels, this`clock
      ensures Valid()
      ensures msg.service == "replication" && msg.server != Some(serverName) ==>
        && users == MergeUnion(old(users), msg.users)
        && channels == MergeUnion(old(channels), msg.channels)
        && clock == Merge(old(clock), OrZero(msg.clock))
      ensures !(msg.service == "replication" && msg.server != Some(serverName)) ==>
        users == old(users) && channels == old(channels) && clock == old(clock)
    {
      if msg.service == "replication" && msg.server != Some(serverName) {
        users := MergeLists(users, msg.users);
        channels := MergeLists(channels, msg.channels);
        var _ := UpdateClock(OrZero(msg.clock));
      }
    }
  }
}
