/**
 * The Go rendezvous server of `src/reference/go/main.go`: `ReferenceServer` with its
 * `LamportClock`, rank map and `nextRank` counter. Unlike the Python registry it
 * rejects an empty or missing name, never deletes entries, and answers `list`
 * with only the servers seen in the last 30 seconds, sorted by rank.
 */
module RendezvousGo {
  import opened Base
  import opened Lamport

  /** A server is listed while it was seen less than this many seconds ago. */
  const LivenessWindow: int := 30

  datatype ServerInfo = ServerInfo(name: string, rank: nat, lastSeen: int)

  datatype Listing = Listing(name: string, rank: nat)

  /** `user` is `None` when the key is missing or not a string; `clock` when it is missing or not an int. */
  datatype Request = Request(service: string, user: Option<string>, clock: Option<int>)

  datatype Response =
    | RankResponse(rank: nat, clock: nat)
    | ListResponse(list: seq<Listing>, clock: nat)
    | StatusResponse(service: string, status: string, message: string, clock: nat)

  predicate Active(s: ServerInfo, now: int) {
    now - s.lastSeen < LivenessWindow
  }

  ghost predicate StrictlySorted(list: seq<Listing>) {
    forall i, j :: 0 <= i < j < |list| ==> list[i].rank < list[j].rank
  }

  ghost predicate RanksDistinct(list: seq<Listing>) {
    forall i, j :: 0 <= i < j < |list| ==> list[i].rank != list[j].rank
  }

  /** Insert `x` into a list sorted by rank. */
  function InsertByRank(x: Listing, sorted: seq<Listing>): (r: seq<Listing>)
    requires StrictlySorted(sorted)
    requires forall y :: y in sorted ==> y.rank != x.rank
    ensures StrictlySorted(r)
    ensures |r| == |sorted| + 1
    ensures forall y :: y in r <==> y in sorted || y == x
    decreases |sorted|
  {
    if sorted == [] || x.rank < sorted[0].rank then
      assert forall y :: y in sorted ==> sorted[0].rank <= y.rank;
      [x] + sorted
    else
      var head := sorted[0];
      var tail := sorted[1..];
      assert sorted == [head] + tail;
      assert forall y :: y in tail ==> head.rank < y.rank;
      var rest := InsertByRank(x, tail);
      assert forall y :: y in rest ==> head.rank < y.rank;
      [head] + rest
  }

  /** `sort.Slice` by ascending rank; ranks are distinct, so the order is fully determined. */
  function SortByRank(list: seq<Listing>): (r: seq<Listing>)
    requires RanksDistinct(list)
    ensures StrictlySorted(r)
    ensures |r| == |list|
    ensures forall y :: y in r <==> y in list
    decreases |list|
  {
    if list == [] then []
    else
      var tail := list[1..];
      assert RanksDistinct(tail) by {
        forall i, j | 0 <= i < j < |tail| ensures tail[i].rank != tail[j].rank {
          assert tail[i] == list[i + 1] && tail[j] == list[j + 1];
        }
      }
      assert list == [list[0]] + tail;
      var sorted := SortByRank(tail);
      assert forall y :: y in tail ==> y.rank != list[0].rank;
      InsertByRank(list[0], sorted)
  }

  class ReferenceServer {
    const clock: LamportClock
    var servers: map<string, ServerInfo>
    var nextRank: nat
    /** Every rank handed out so far. */
    ghost var issued: set<nat>

    ghost predicate Valid()
      reads this
    {
      && 1 <= nextRank
      && (forall r :: r in issued <==> 1 <= r < nextRank)
      && (forall n :: n in servers ==> servers[n].name == n && servers[n].rank in issued)
      && (forall n, m :: n in servers && m in servers && n != m ==> servers[n].rank != servers[m].rank)
    }

    /** `NewReferenceServer`. */
    constructor ()
      ensures Valid() && fresh(clock)
      ensures clock.time == 0 && servers == map[] && nextRank == 1
    {
      clock := new LamportClock();
      servers := map[];
      nextRank := 1;
      issued := {};
    }

    /**
     * What `handleRank` leaves: a missing or empty name is refused; a known name keeps
     * its rank and is marked seen; a new name gets the next rank. One tick in every case.
     */
    ghost predicate RankOutcome(user: Option<string>, now: int, resp: Response,
                                time0: nat, servers0: map<string, ServerInfo>, nextRank0: nat)
      reads this, clock
    {
      && clock.time == time0 + 1 && resp.clock == clock.time
      && (user == None || user == Some("") ==>
            && resp == StatusResponse("rank", "error", "Nome do servidor obrigatório", clock.time)
            && servers == servers0 && nextRank == nextRank0)
      && (user.Some? && user.value != "" && user.value in servers0 ==>
            && resp == RankResponse(servers0[user.value].rank, clock.time)
            && servers == servers0[user.value := servers0[user.value].(lastSeen := now)]
            && nextRank == nextRank0)
      && (user.Some? && user.value != "" && user.value !in servers0 ==>
            && resp == RankResponse(nextRank0, clock.time)
            && servers == servers0[user.value := ServerInfo(user.value, nextRank0, now)]
            && nextRank == nextRank0 + 1)
    }

    /** `handleRank`. */
    method HandleRank(user: Option<string>, now: int) returns (resp: Response)
      requires Valid()
      modifies this`servers, this`nextRank, this`issued, clock
      ensures Valid()
      ensures RankOutcome(user, now, resp, old(clock.time), old(servers), old(nextRank))
      ensures user.Some? && user.value != "" && user.value !in old(servers) ==> old(nextRank) !in old(issued)
    {
      if user == None || user == Some("") {
        var t := clock.Tick();
        resp := StatusResponse("rank", "error", "Nome do servidor obrigatório", t);
        return;
      }
      var name := user.value;
      if name in servers {
        servers := servers[name := servers[name].(lastSeen := now)];
        var t := clock.Tick();
        resp := RankResponse(servers[name].rank, t);
        return;
      }
      var rank := nextRank;
      nextRank := nextRank + 1;
      servers := servers[name := ServerInfo(name, rank, now)];
      issued := issued + {rank};
      var t := clock.Tick();
      resp := RankResponse(rank, t);
    }

    /** The slice `handleList` builds: the active servers, sorted by rank. Nothing is removed from the map. */
    method ActiveServers(now: int) returns (list: seq<Listing>)
      requires Valid()
      ensures StrictlySorted(list)
      ensures forall l :: l in list <==> l.name in servers && l.rank == servers[l.name].rank && Active(servers[l.name], now)
    {
      var pending := servers.Keys;
      var active: seq<Listing> := [];
      while pending != {}
        invariant pending <= servers.Keys
        invariant forall l :: l in active <==> l.name in servers && l.name !in pending && l.rank == servers[l.name].rank && Active(servers[l.name], now)
        invariant RanksDistinct(active)
        decreases pending
      {
        var n :| n in pending;
        if Active(servers[n], now) {
          active := active + [Listing(n, servers[n].rank)];
        }
        pending := pending - {n};
      }
      list := SortByRank(active);
    }

    /** What `handleList` leaves: exactly the active servers, sorted by rank; one tick. */
    ghost predicate ListOutcome(now: int, resp: Response, time0: nat)
      reads this, clock
    {
      && clock.time == time0 + 1
      && resp.ListResponse? && resp.clock == clock.time
      && StrictlySorted(resp.list)
      && (forall l :: l in resp.list <==> l.name in servers && l.rank == servers[l.name].rank && Active(servers[l.name], now))
    }

    /** `handleList`. */
    method HandleList(now: int) returns (resp: Response)
      requires Valid()
      modifies clock
      ensures ListOutcome(now, resp, old(clock.time))
    {
      var list := ActiveServers(now);
      var t := clock.Tick();
      resp := ListResponse(list, t);
    }

    /** What `handleHeartbeat` leaves: only a registered name is marked seen; one tick in every case. */
    ghost predicate HeartbeatOutcome(user: Option<string>, now: int, resp: Response,
                                     time0: nat, servers0: map<string, ServerInfo>)
      reads this, clock
    {
      && clock.time == time0 + 1 && resp.clock == clock.time
      && (user == None || user == Some("") ==>
            resp == StatusResponse("heartbeat", "error", "Nome do servidor obrigatório", clock.time) && servers == servers0)
      && (user.Some? && user.value != "" && user.value in servers0 ==>
            && resp == StatusResponse("heartbeat", "OK", "", clock.time)
            && servers == servers0[user.value := servers0[user.value].(lastSeen := now)])
      && (user.Some? && user.value != "" && user.value !in servers0 ==>
            resp == StatusResponse("heartbeat", "error", "Servidor não registrado", clock.time) && servers == servers0)
    }

    /** `handleHeartbeat`. */
    method HandleHeartbeat(user: Option<string>, now: int) returns (resp: Response)
      requires Valid()
      modifies this`servers, clock
      ensures Valid()
      ensures HeartbeatOutcome(user, now, resp, old(clock.time), old(servers))
    {
      if user == None || user == Some("") {
        var t := clock.Tick();
        resp := StatusResponse("heartbeat", "error", "Nome do servidor obrigatório", t);
        return;
      }
      var name := user.value;
      if name in servers {
        servers := servers[name := servers[name].(lastSeen := now)];
        var t := clock.Tick();
        resp := StatusResponse("heartbeat", "OK", "", t);
        return;
      }
      var t := clock.Tick();
      resp := StatusResponse("heartbeat", "error", "Servidor não registrado", t);
    }

    /** `processRequest`: fold in an integer `clock` if there is one, then dispatch on the service. */
    method ProcessRequest(req: Request, now: int) returns (resp: Response)
      requires Valid()
      modifies this`servers, this`nextRank, this`issued, clock
      ensures Valid()
      ensures resp.clock == clock.time
      ensures req.clock.None? ==> clock.time == old(clock.time) + 1
      ensures req.clock.Some? ==> clock.time == Merge(old(clock.time), req.clock.value) + 1 && resp.clock > req.clock.value
      ensures req.service !in {"rank", "list", "heartbeat"} ==>
        && resp == StatusResponse(req.service, "error", "Serviço '" + req.service + "' não suportado", clock.time)
        && servers == old(servers) && nextRank == old(nextRank)
      ensures req.service != "rank" ==> nextRank == old(nextRank)
      ensures req.service == "list" ==> resp.ListResponse? && servers == old(servers)
      ensures req.service == "rank" ==>
        RankOutcome(req.user, now, resp, Folded(old(clock.time), req.clock), old(servers), old(nextRank))
      ensures req.service == "list" ==> ListOutcome(now, resp, Folded(old(clock.time), req.clock))
      ensures req.service == "heartbeat" ==>
        HeartbeatOutcome(req.user, now, resp, Folded(old(clock.time), req.clock), old(servers))
    {
      if req.clock.Some? {
        var _ := clock.Update(req.clock.value);
      }
      if req.service == "rank" {
        resp := HandleRank(req.user, now);
      } else if req.service == "list" {
        resp := HandleList(now);
      } else if req.service == "heartbeat" {
        resp := HandleHeartbeat(req.user, now);
      } else {
        var t := clock.Tick();
        resp := StatusResponse(req.service, "error", "Serviço '" + req.service + "' não suportado", t);
      }
    }
  }
}
