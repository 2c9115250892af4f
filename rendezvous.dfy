/**
 * The rendezvous registry of `src/reference/main.py`: it hands each server name a
 * rank from a counter that only grows, refreshes liveness on rank and heartbeat
 * requests, lists the registered servers, and sweeps out servers silent for more
 * than 30 seconds. The module-level globals (`servers`, `next_rank`,
 * `logical_clock`) are the fields of one `Registry` object; `time.time()` is the
 * parameter `now`.
 */
module Rendezvous {
  import opened Base
  import opened Lamport

  /** Seconds without a heartbeat after which the sweep removes a server. */
  const LivenessTimeout: int := 30

  /** `data.get("user")`: `None` when the request carries no user, and then `None` itself is registered. */
  type Name = Option<string>

  datatype Entry = Entry(rank: nat, lastHeartbeat: int)

  /** One `{"name", "rank"}` element of a `list` reply. */
  datatype Listing = Listing(name: Name, rank: nat)

  datatype Request = Request(service: Option<string>, user: Name, clock: Option<int>)

  datatype Reply =
    | RankReply(rank: nat, clock: nat)
    | ListReply(list: seq<Listing>, clock: nat)
    | HeartbeatReply(status: string, clock: nat)
    | ErrorReply(service: Option<string>, description: string, clock: nat)

  /** `data.get("clock", 0)`. */
  function ReceivedClock(req: Request): int {
    if req.clock.Some? then req.clock.value else 0
  }

  predicate Expired(e: Entry, now: int) {
    now - e.lastHeartbeat > LivenessTimeout
  }

  /** The registry after the sweep of `cleanup_inactive_servers`. */
  function Sweep(servers: map<Name, Entry>, now: int): map<Name, Entry> {
    map n | n in servers && !Expired(servers[n], now) :: servers[n]
  }

  /** Ranks are pairwise distinct and all lie in 1 .. nextRank - 1. */
  ghost predicate RanksValid(servers: map<Name, Entry>, nextRank: nat) {
    && 1 <= nextRank
    && (forall n :: n in servers ==> 1 <= servers[n].rank < nextRank)
    && (forall n, m :: n in servers && m in servers && n != m ==> servers[n].rank != servers[m].rank)
  }

  datatype Registration = Registration(servers: map<Name, Entry>, nextRank: nat, rank: nat)

  /** The `rank` branch: a new name takes `next_rank`, a known one keeps its rank and is refreshed. */
  function Register(servers: map<Name, Entry>, nextRank: nat, user: Name, now: int): Registration {
    if user !in servers then
      Registration(servers[user := Entry(nextRank, now)], nextRank + 1, nextRank)
    else
      Registration(servers[user := servers[user].(lastHeartbeat := now)], nextRank, servers[user].rank)
  }

  /** `list` holds exactly one `{name, rank}` per registered server. */
  ghost predicate ListsExactly(servers: map<Name, Entry>, list: seq<Listing>) {
    && |list| == |servers|
    && (forall i :: 0 <= i < |list| ==> list[i].name in servers && list[i].rank == servers[list[i].name].rank)
    && (forall n :: n in servers ==> Listing(n, servers[n].rank) in list)
    && (forall i, j :: 0 <= i < j < |list| ==> list[i].name != list[j].name)
  }

  lemma {:induction false} RegisterKeepsRanksValid(servers: map<Name, Entry>, nextRank: nat, user: Name, now: int)
    requires RanksValid(servers, nextRank)
    ensures var r := Register(servers, nextRank, user, now);
      RanksValid(r.servers, r.nextRank) && r.nextRank >= nextRank && r.servers.Keys == servers.Keys + {user}
  {
  }

  /** The ranks handed out, in call order, by a run of `rank` requests. */
  function RanksOf(servers: map<Name, Entry>, nextRank: nat, users: seq<Name>, now: int): seq<nat>
    decreases |users|
  {
    if users == [] then []
    else
      var r := Register(servers, nextRank, users[0], now);
      [r.rank] + RanksOf(r.servers, r.nextRank, users[1..], now)
  }

  /** N distinct, unregistered names receive next_rank, next_rank + 1, ... in call order. */
  lemma {:induction false} FreshNamesGetConsecutiveRanks(servers: map<Name, Entry>, nextRank: nat, users: seq<Name>, now: int)
    requires forall i :: 0 <= i < |users| ==> users[i] !in servers
    requires forall i, j :: 0 <= i < j < |users| ==> users[i] != users[j]
    ensures |RanksOf(servers, nextRank, users, now)| == |users|
    ensures forall i :: 0 <= i < |users| ==> RanksOf(servers, nextRank, users, now)[i] == nextRank + i
    decreases |users|
  {
    if users != [] {
      var r := Register(servers, nextRank, users[0], now);
      forall i | 0 <= i < |users[1..]| ensures users[1..][i] !in r.servers {
        assert users[1..][i] == users[i + 1];
      }
      FreshNamesGetConsecutiveRanks(r.servers, r.nextRank, users[1..], now);
      var rest := RanksOf(r.servers, r.nextRank, users[1..], now);
      forall i | 0 < i < |users| ensures RanksOf(servers, nextRank, users, now)[i] == nextRank + i {
        assert RanksOf(servers, nextRank, users, now)[i] == rest[i - 1];
      }
    }
  }

  /** A name that expired and registers again gets a rank above every rank it could have held. */
  lemma ReRegistrationGetsLargerRank(servers: map<Name, Entry>, nextRank: nat, user: Name, now: int, later: int)
    requires RanksValid(servers, nextRank)
    requires user in servers && Expired(servers[user], now)
    ensures Register(Sweep(servers, now), nextRank, user, later).rank > servers[user].rank
    ensures Register(Sweep(servers, now), nextRank, user, later).rank == nextRank
  {
  }

  class Registry {
    var servers: map<Name, Entry>
    var nextRank: nat
    var clock: nat
    /** Every rank handed out so far. */
    ghost var issued: set<nat>

    ghost predicate Valid()
      reads this
    {
      && RanksValid(servers, nextRank)
      && (forall r :: r in issued <==> 1 <= r < nextRank)
      && (forall n :: n in servers ==> servers[n].rank in issued)
    }

    constructor ()
      ensures Valid()
      ensures servers == map[] && nextRank == 1 && clock == 0 && issued == {}
    {
      servers := map[];
      nextRank := 1;
      clock := 0;
      issued := {};
    }

    /** `increment_clock`. */
    method IncrementClock() returns (t: nat)
      modifies this`clock
      ensures clock == old(clock) + 1 && t == clock
    {
      clock := clock + 1;
      t := clock;
    }

    /** `update_clock`. */
    method UpdateClock(received: int) returns (t: nat)
      modifies this`clock
      ensures clock == Merge(old(clock), received) && t == clock
    {
      clock := (if clock >= received then clock else received) + 1;
      t := clock;
    }

    /** The `rank` branch of the main loop. */
    method RegisterRank(user: Name, now: int) returns (rank: nat)
      requires Valid()
      modifies this`servers, this`nextRank, this`issued
      ensures Valid()
      ensures Registration(servers, nextRank, rank) == Register(old(servers), old(nextRank), user, now)
      ensures user !in old(servers) ==> rank !in old(issued) && issued == old(issued) + {rank}
      ensures user in old(servers) ==> issued == old(issued)
    {
      if user !in servers {
        rank := nextRank;
        servers := servers[user := Entry(rank, now)];
        issued := issued + {rank};
        nextRank := nextRank + 1;
      } else {
        rank := servers[user].rank;
        servers := servers[user := servers[user].(lastHeartbeat := now)];
      }
    }

    /** The `list` branch: one `{name, rank}` per registered server (dictionary order is not modelled). */
    method ListServers() returns (list: seq<Listing>)
      ensures ListsExactly(servers, list)
    {
      var pending := servers.Keys;
      list := [];
      while pending != {}
        invariant pending <= servers.Keys
        invariant |list| + |pending| == |servers|
        invariant forall i :: 0 <= i < |list| ==> list[i].name in servers && list[i].name !in pending && list[i].rank == servers[list[i].name].rank
        invariant forall n :: n in servers && n !in pending ==> Listing(n, servers[n].rank) in list
        invariant forall i, j :: 0 <= i < j < |list| ==> list[i].name != list[j].name
        decreases pending
      {
        var n :| n in pending;
        list := list + [Listing(n, servers[n].rank)];
        pending := pending - {n};
      }
    }

    /** The `heartbeat` branch. */
    method Heartbeat(user: Name, now: int) returns (status: string)
      requires Valid()
      modifies this`servers
      ensures Valid()
      ensures status == (if user in old(servers) then "OK" else "unknown")
      ensures servers == if user in old(servers) then old(servers)[user := old(servers)[user].(lastHeartbeat := now)] else old(servers)
    {
      if user in servers {
        servers := servers[user := servers[user].(lastHeartbeat := now)];
        status := "OK";
      } else {
        status := "unknown";
      }
    }

    /** One pass of `cleanup_inactive_servers`: collect the expired names, then delete them one by one. */
    method CleanupInactive(now: int)
      requires Valid()
      modifies this`servers
      ensures Valid()
      ensures servers == Sweep(old(servers), now)
    {
      var inactive := set n | n in servers && Expired(servers[n], now);
      while inactive != {}
        invariant Valid()
        invariant inactive <= servers.Keys
        invariant forall n :: n in servers <==> n in old(servers) && (!Expired(old(servers)[n], now) || n in inactive)
        invariant forall n :: n in servers ==> servers[n] == old(servers)[n]
        decreases inactive
      {
        var n :| n in inactive;
        servers := servers - {n};
        inactive := inactive - {n};
      }
    }

    /** One iteration of the main loop: fold in the request's clock, serve it, reply with a fresh tick. */
    method Serve(req: Request, now: int) returns (reply: Reply)
      requires Valid()
      modifies this
      ensures Valid()
      ensures reply.clock == clock == Merge(old(clock), ReceivedClock(req)) + 1
      ensures reply.clock > ReceivedClock(req) && reply.clock > old(clock) + 1
      ensures req.service == Some("rank") ==>
        reply.RankReply? && Registration(servers, nextRank, reply.rank) == Register(old(servers), old(nextRank), req.user, now)
      ensures req.service == Some("list") ==>
        reply.ListReply? && servers == old(servers) && nextRank == old(nextRank) && ListsExactly(servers, reply.list)
      ensures req.service == Some("heartbeat") ==>
        && reply.HeartbeatReply? && nextRank == old(nextRank)
        && reply.status == (if req.user in old(servers) then "OK" else "unknown")
        && servers == if req.user in old(servers) then old(servers)[req.user := old(servers)[req.user].(lastHeartbeat := now)] else old(servers)
      ensures req.service !in {Some("rank"), Some("list"), Some("heartbeat")} ==>
        reply == ErrorReply(req.service, "Serviço não reconhecido", clock) && servers == old(servers) && nextRank == old(nextRank)
    {
      var _ := UpdateClock(ReceivedClock(req));
      if req.service == Some("rank") {
        var rank := RegisterRank(req.user, now);
        var t := IncrementClock();
        reply := RankReply(rank, t);
      } else if req.service == Some("list") {
        var list := ListServers();
        var t := IncrementClock();
        reply := ListReply(list, t);
      } else if req.service == Some("heartbeat") {
        var status := Heartbeat(req.user, now);
        var t := IncrementClock();
        reply := HeartbeatReply(status, t);
      } else {
        var t := IncrementClock();
        reply := ErrorReply(req.service, "Serviço não reconhecido", t);
      }
    }
  }
}
