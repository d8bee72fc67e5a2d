/**
  The Freelance agent: one object that holds the pending request, the deque of
  servers thought alive and the table of connections; server objects are shared
  between the two.  The clock is fixed within one turn of the agent's loop.
*/
module Freelance {
  import opened Wrappers
  import opened Inboxes
  import opened SequenceNumbers
  import opened FreelanceViews

  // ---------------------------------------------------------------- occurrences in the deque

  /** How often `s` may stand in the deque: once, and once more while its flag is set, when it must. */
  ghost predicate Balanced(q: seq<Server>, s: Server)
    reads s`alive
  {
    && multiset(q)[s] <= 1 + (if s.alive then 1 else 0)
    && (s.alive ==> s in q)
  }

  /** A bag of things from `c`, each at most twice, has at most twice as many elements. */
  lemma {:induction false} AtMostTwice<T>(m: multiset<T>, c: set<T>)
    requires forall x :: x in m ==> x in c && m[x] <= 2
    ensures |m| <= 2 * |c|
    decreases |c|
  {
    if c == {} {
      assert m == multiset{};
    } else {
      var x :| x in c;
      AtMostTwice(m[x := 0], c - {x});
    }
  }

  /**
    All servers in the deque or the table are known, each stands in the deque as
    often as it may, and has a connection.
  */
  ghost predicate Accounted(q: seq<Server>, connMap: map<string, Server>, created: set<Server>)
    reads created`alive
  {
    && (forall s :: s in q ==> s in created)
    && (forall s :: s in created ==> Balanced(q, s) && s.endpoint in connMap)
    && (forall e :: e in connMap ==> connMap[e] in created && connMap[e].endpoint == e)
  }

  lemma EnlistAccounted(q: seq<Server>, connMap: map<string, Server>, created: set<Server>, server: Server)
    requires Accounted(q, connMap, created) && server !in created && !server.alive
    ensures Accounted(q + [server], connMap[server.endpoint := server], created + {server})
    ensures |created + {server}| == |created| + 1
  {
    PushBalances(q, server);
    forall s | s in created ensures Balanced(q + [server], s) {
      assert Balanced(q, s);
    }
  }

  lemma DequeBound(q: seq<Server>, created: set<Server>)
    requires forall s :: s in q ==> s in created
    requires forall s :: s in created ==> Balanced(q, s)
    ensures |q| <= 2 * |created|
  {
    forall s | s in multiset(q) ensures s in created && multiset(q)[s] <= 2 {
      assert s in q && Balanced(q, s);
    }
    AtMostTwice(multiset(q), created);
  }

  ghost predicate SplitAt<T>(q: seq<T>, a: seq<T>, b: seq<T>) {
    a + b == q
  }

  lemma SplitLater<T>(q: seq<T>, a: seq<T>, b: seq<T>)
    requires SplitAt(q, a, b) && b != []
    ensures SplitAt(q, a + [b[0]], b[1..])
  {
    assert b == [b[0]] + b[1..];
  }

  lemma PushBalances(q: seq<Server>, server: Server)
    ensures forall s :: multiset(q + [server])[s] == multiset(q)[s] + if s == server then 1 else 0
    ensures server in q + [server] && forall s :: s in q ==> s in q + [server]
  {
  }

  // ---------------------------------------------------------------- the agent

  class Agent {
    const longMax: nat
    var expires: int
    var request: Message
    var aliveServers: seq<Server>
    var connMap: map<string, Server>
    var sequence: nat
    var aborted: bool
    /** What has been sent on the router socket, and on the pipe to the application. */
    var routerOut: seq<Message>
    var pipeOut: seq<Message>

    /** Every server object made so far, and how many CONNECTs there were. */
    ghost var created: set<Server>
    ghost var connects: nat
    /** The requests made and those that failed; and of the pending one, where it was sent and what it asks. */
    ghost var requests: nat
    ghost var failures: nat
    ghost var hops: seq<string>
    ghost var content: Message

    ghost predicate ServersValid()
      reads this`created, this`connects, this`aliveServers, this`connMap, created`alive
    {
      Accounted(aliveServers, connMap, created) && |created| == connects
    }

    /**
      The pending request is the endpoints it was sent to, the latest first, the
      latest sequence number and the content.
    */
    ghost predicate RequestValid()
      reads this`sequence, this`requests, this`failures, this`request, this`hops, this`content
    {
      && sequence == requests % TWO32
      && failures + (if request == [] then 0 else 1) <= requests
      && (request != [] ==> request == hops + [ToString(sequence)] + content)
    }

    /** `failures` counts the FAILED messages sent to the application. */
    ghost predicate PipeValid()
      reads this`pipeOut, this`failures
    {
      multiset(pipeOut)[["FAILED"]] == failures
    }

    /** Requests are sent only to endpoints connected to. */
    ghost predicate HopsValid()
      reads this`hops, this`connMap
    {
      forall e :: e in hops ==> e in connMap
    }

    ghost predicate Valid()
      reads this, created`alive
    {
      ServersValid() && RequestValid() && HopsValid() && PipeValid()
    }

    /** No deadline has been missed or left stale. */
    ghost predicate DeadlinesAhead(now: int)
      reads this, created
    {
      && (request != [] ==> now < expires)
      && (request != [] && aliveServers != [] ==> aliveServers[0] in created && !aliveServers[0].Expired(now))
      && (forall e :: e in connMap ==> connMap[e] in created && now < connMap[e].pingAt)
    }

    /** All of the agent's state and of its servers'. */
    ghost function Now(): View
      reads this, created
    {
      View(request, sequence, expires, aborted, routerOut, pipeOut, aliveServers, connMap, Servers())
    }

    ghost function Servers(): map<Server, Status>
      reads this`created, created
    {
      map s | s in created :: Status(s.alive, s.pingAt, s.expires)
    }

    twostate lemma NoServerChanged()
      requires created == old(created) && forall s :: s in created ==> unchanged(s)
      ensures Servers() == old(Servers())
    {
    }

    twostate lemma ServerAdded(new server: Server)
      requires server !in old(created) && created == old(created) + {server}
      requires forall s :: s in old(created) ==> unchanged(s)
      ensures Servers() == old(Servers())[server := Status(server.alive, server.pingAt, server.expires)]
    {
    }

    twostate lemma ServerChanged(server: Server)
      requires created == old(created) && server in created
      requires forall s :: s in created && s != server ==> unchanged(s)
      ensures Servers() == old(Servers())[server := Status(server.alive, server.pingAt, server.expires)]
    {
    }

    twostate lemma ServersUnflagged(new gone: seq<Server>)
      requires created == old(created)
      requires forall s :: s in created ==> unchanged(s`pingAt, s`expires)
      requires forall s :: s in created ==> s.alive == (old(s.alive) && s !in gone)
      ensures Servers() == Unflagged(old(Servers()), gone)
    {
    }

    constructor (longMax: nat)
      ensures Valid() && this.longMax == longMax && !aborted && connects == 0 && requests == 0 && failures == 0
      ensures request == [] && aliveServers == [] && connMap == map[] && created == {}
      ensures sequence == 0 && routerOut == [] && pipeOut == []
    {
      this.longMax := longMax;
      expires, request, aliveServers, connMap, sequence, aborted := 0, [], [], map[], 0, false;
      routerOut, pipeOut := [], [];
      created, connects, requests, failures, hops, content := {}, 0, 0, 0, [], [];
    }

    /** The wake-up for the next poll: the earliest pending deadline, or an hour from now if that is earlier. */
    method NextWake(now: int) returns (tickless: int)
      requires Valid()
      ensures tickless <= now + HOUR
      ensures request != [] ==> tickless <= expires
      ensures forall e :: e in connMap ==> tickless <= connMap[e].pingAt
      ensures tickless == now + HOUR || (request != [] && tickless == expires)
              || exists e :: e in connMap && tickless == connMap[e].pingAt
    {
      tickless := now + HOUR;
      if request != [] && tickless > expires {
        tickless := expires;
      }
      var keys := connMap.Keys;
      while keys != {}
        invariant keys <= connMap.Keys
        invariant tickless <= now + HOUR && (request != [] ==> tickless <= expires)
        invariant forall e :: e in connMap && e !in keys ==> tickless <= connMap[e].pingAt
        invariant tickless == now + HOUR || (request != [] && tickless == expires)
                  || exists e :: e in connMap && tickless == connMap[e].pingAt
        decreases keys
      {
        var e :| e in keys;
        keys := keys - {e};
        var server := connMap[e];
        if tickless > server.pingAt {
          tickless := server.pingAt;
        }
      }
    }

    /** A new connection: a fresh server object, not flagged alive, joins the table and the deque. */
    method Connect(endpoint: string, now: int) returns (server: Server)
      requires Valid()
      modifies this`connMap, this`aliveServers, this`created, this`connects
      ensures Valid() && fresh(server) && server.endpoint == endpoint && !server.alive
      ensures server.pingAt == now + PING_INTERVAL && server.expires == now + SERVER_TTL
      ensures connMap == old(connMap)[endpoint := server] && connMap[endpoint] == server
      ensures aliveServers == old(aliveServers) + [server] && connects == old(connects) + 1
      ensures created == old(created) + {server} && created - old(created) == {server}
    {
      server := new Server(endpoint, now);
      Adopt(server, now);
    }

    method Adopt(server: Server, now: int)
      requires Valid() && server !in created && !server.alive
      modifies this`connMap, this`aliveServers, this`created, this`connects, server`pingAt, server`expires
      ensures Valid() && server.pingAt == now + PING_INTERVAL && server.expires == now + SERVER_TTL
      ensures connMap == old(connMap)[server.endpoint := server] && aliveServers == old(aliveServers) + [server]
      ensures created == old(created) + {server} && connects == old(connects) + 1
    {
      Enlist(server);
      server.Renew(now);
    }

    /** A new server object joins the table and the deque. */
    method Enlist(server: Server)
      requires ServersValid() && HopsValid() && server !in created && !server.alive
      modifies this`connMap, this`aliveServers, this`created, this`connects
      ensures ServersValid() && HopsValid()
      ensures connMap == old(connMap)[server.endpoint := server] && aliveServers == old(aliveServers) + [server]
      ensures created == old(created) + {server} && connects == old(connects) + 1
    {
      ghost var q, m, c := aliveServers, connMap, created;
      connMap := connMap[server.endpoint := server];
      aliveServers := aliveServers + [server];
      created := created + {server};
      connects := connects + 1;
      EnlistAccounted(q, m, c, server);
    }

    /** A new request; made while one is pending it fails the source's assertion. */
    method Request(body: Message, now: int)
      requires Valid()
      modifies this`request, this`sequence, this`expires, this`aborted, this`requests, this`hops, this`content
      ensures Valid()
      ensures aborted <==> old(aborted) || old(request) != []
      ensures old(request) == [] ==>
        && sequence == (old(sequence) + 1) % TWO32 && requests == old(requests) + 1
        && request == [ToString(sequence)] + body && hops == [] && content == body
        && expires == now + GLOBAL_TIMEOUT
      ensures old(request) != [] ==>
        && request == old(request) && sequence == old(sequence) && requests == old(requests)
        && expires == old(expires) && hops == old(hops) && content == old(content)
    {
      if request != [] {
        aborted := true;
        return;
      }
      Make(body, now);
    }

    method Make(body: Message, now: int)
      requires request == [] && RequestValid()
      modifies this`request, this`sequence, this`expires, this`requests, this`hops, this`content
      ensures RequestValid()
      ensures sequence == (old(sequence) + 1) % TWO32 && requests == old(requests) + 1
      ensures request == [ToString(sequence)] + body && hops == [] && content == body
      ensures expires == now + GLOBAL_TIMEOUT
    {
      NextSequence(requests);
      sequence := (sequence + 1) % TWO32;
      var msg := [ToString(sequence)] + body;
      request := msg;
      expires := now + GLOBAL_TIMEOUT;
      requests := requests + 1;
      hops, content := [], body;
      assert hops + [ToString(sequence)] + content == msg;
    }

    /** A server not flagged alive goes to the back of the deque, even if it is there already, and is flagged. */
    method MarkAlive(server: Server)
      requires ServersValid() && server in created
      modifies this`aliveServers, server`alive
      ensures ServersValid() && server.alive
      ensures aliveServers == old(aliveServers) + (if old(server.alive) then [] else [server])
    {
      PushBalances(aliveServers, server);
      if !server.alive {
        aliveServers := aliveServers + [server];
        server.alive := true;
      }
    }

    /** Word from a server: it is alive, and its deadlines are put off. */
    method Hear(server: Server, now: int)
      requires ServersValid() && server in created
      modifies this`aliveServers, server
      ensures ServersValid() && server.alive
      ensures server.pingAt == now + PING_INTERVAL && server.expires == now + SERVER_TTL
      ensures aliveServers == old(aliveServers) + (if old(server.alive) then [] else [server])
    {
      MarkAlive(server);
      server.Renew(now);
    }

    /**
      A reply is passed on, and answers the pending request, unless it bears a
      sequence number that is not the latest.
    */
    method Filter(message: Message)
      requires |message| >= 1 && RequestValid() && PipeValid()
      modifies this`pipeOut, this`request
      ensures RequestValid() && PipeValid()
      ensures if Accepted(message[0], sequence, longMax)
              then request == [] && pipeOut == old(pipeOut) + [["OK"] + message[1..]]
              else request == old(request) && pipeOut == old(pipeOut)
    {
      var control := message[0];
      var reply := message[1..];
      var seqNo := StoSeq(control, longMax);
      if seqNo != -1 && seqNo % TWO32 != sequence {
        return;
      }
      reply := ["OK"] + reply;
      assert reply[0] != "FAILED";
      pipeOut := pipeOut + [reply];
      request := [];
    }

    /** A message from a server; one from an endpoint never connected to fails the source's assertion. */
    method OnRouterMessage(message: Message, now: int)
      requires Valid() && |message| >= 2
      modifies this`aliveServers, this`pipeOut, this`request, this`aborted, created
      ensures Valid() && aborted == (old(aborted) || message[0] !in connMap)
      ensures message[0] !in connMap ==>
        aliveServers == old(aliveServers) && pipeOut == old(pipeOut) && request == old(request)
      ensures message[0] in connMap ==>
        var s := connMap[message[0]];
        && s.alive && s.pingAt == now + PING_INTERVAL && s.expires == now + SERVER_TTL
        && aliveServers == old(aliveServers) + (if old(s.alive) then [] else [s])
        && if Accepted(message[1], sequence, longMax)
           then request == [] && pipeOut == old(pipeOut) + [["OK"] + message[2..]]
           else request == old(request) && pipeOut == old(pipeOut)
      ensures forall s :: s in created && (message[0] in connMap ==> s != connMap[message[0]]) ==> unchanged(s)
    {
      var endpoint := message[0];
      var reply := message[1..];
      if endpoint !in connMap {
        aborted := true;
        return;
      }
      assert connMap[endpoint] in created && reply[1..] == message[2..];
      Heed(connMap[endpoint], reply, now);
    }

    /** What a connected server has to say. */
    method Heed(server: Server, reply: Message, now: int)
      requires Valid() && server in created && |reply| >= 1
      modifies this`aliveServers, this`pipeOut, this`request, server
      ensures Valid()
      ensures server.alive && server.pingAt == now + PING_INTERVAL && server.expires == now + SERVER_TTL
      ensures aliveServers == old(aliveServers) + (if old(server.alive) then [] else [server])
      ensures if Accepted(reply[0], sequence, longMax)
              then request == [] && pipeOut == old(pipeOut) + [["OK"] + reply[1..]]
              else request == old(request) && pipeOut == old(pipeOut)
    {
      Hear(server, now);
      Filter(reply);
    }

    /** The front server has expired: it leaves the deque and its flag is cleared. */
    method DropFront(server: Server)
      requires ServersValid() && aliveServers != [] && aliveServers[0] == server
      modifies this`aliveServers, server`alive
      ensures ServersValid() && aliveServers == old(aliveServers)[1..] && !server.alive
    {
      assert aliveServers == [server] + aliveServers[1..];
      aliveServers := aliveServers[1..];
      server.alive := false;
    }

    /** The pending request goes out to a server, with its endpoint in front: in front of what was sent before. */
    method SendTo(server: Server)
      requires RequestValid() && HopsValid() && request != [] && server.endpoint in connMap
      modifies this`request, this`routerOut, this`hops
      ensures RequestValid() && HopsValid()
      ensures request == [server.endpoint] + old(request) && hops == [server.endpoint] + old(hops)
      ensures routerOut == old(routerOut) + [request]
    {
      request := [server.endpoint] + request;
      hops := [server.endpoint] + hops;
      routerOut := routerOut + [request];
      assert request == hops + [ToString(sequence)] + content;
    }

    /** The servers in `gone` have expired and lost their flags; of the others, those in `flagged` are flagged. */
    ghost predicate Cleared(gone: seq<Server>, flagged: set<Server>, now: int)
      reads this`created, created
    {
      && (forall s :: s in gone ==> s in created && s.Expired(now) && !s.alive)
      && (forall s :: s in created && s !in gone ==> (s.alive <==> s in flagged))
    }

    /** The expired server at the front is dropped. */
    method DropNext(server: Server, ghost gone: seq<Server>, ghost flagged: set<Server>, now: int)
      requires ServersValid() && Cleared(gone, flagged, now)
      requires aliveServers != [] && aliveServers[0] == server && server.Expired(now)
      modifies this`aliveServers, server`alive
      ensures ServersValid() && Cleared(gone + [server], flagged, now)
      ensures aliveServers == old(aliveServers)[1..]
    {
      DropFront(server);
    }

    /** Drops exactly the servers at the front that have expired. */
    method DropExpired(now: int) returns (ghost gone: seq<Server>)
      requires ServersValid()
      modifies this`aliveServers, created`alive
      ensures ServersValid()
      ensures old(aliveServers) == gone + aliveServers
      ensures forall s :: s in gone ==> s in created && s.Expired(now) && !s.alive
      ensures forall s :: s in created && s !in gone ==> s.alive == old(s.alive)
      ensures aliveServers != [] ==> !aliveServers[0].Expired(now)
    {
      gone := [];
      ghost var q := aliveServers;
      ghost var flagged := set s | s in created && s.alive;
      while aliveServers != []
        invariant ServersValid() && Cleared(gone, flagged, now)
        invariant SplitAt(q, gone, aliveServers)
        decreases |aliveServers|
      {
        var server := aliveServers[0];
        if !server.Expired(now) {
          break;
        }
        SplitLater(q, gone, aliveServers);
        DropNext(server, gone, flagged, now);
        gone := gone + [server];
      }
    }

    /** Sends the pending request to the first server that has not expired, if there is one. */
    method Dispatch(now: int) returns (ghost gone: seq<Server>)
      requires Valid() && request != []
      modifies this`request, this`aliveServers, this`routerOut, this`hops, created`alive
      ensures Valid() && request != []
      ensures old(aliveServers) == gone + aliveServers
      ensures forall s :: s in gone ==> s in created && s.Expired(now) && !s.alive
      ensures forall s :: s in created && s !in gone ==> s.alive == old(s.alive)
      ensures if aliveServers == [] then request == old(request) && hops == old(hops) && routerOut == old(routerOut)
              else
                && !aliveServers[0].Expired(now)
                && request == [aliveServers[0].endpoint] + old(request)
                && hops == [aliveServers[0].endpoint] + old(hops)
                && routerOut == old(routerOut) + [request]
    {
      gone := DropExpired(now);
      if aliveServers != [] {
        assert aliveServers[0] in created;
        SendTo(aliveServers[0]);
      }
    }

    predicate Connected(s: Server)
      reads this`connMap
    {
      s.endpoint in connMap && connMap[s.endpoint] == s
    }

    /** A ping to every server whose time has come, in some order, each once. */
    method PingAll(now: int) returns (ghost pinged: seq<string>)
      requires ServersValid()
      modifies this`routerOut, created`pingAt
      ensures routerOut == old(routerOut) + Pings(pinged)
      ensures forall e :: multiset(pinged)[e] == if e in connMap && old(connMap[e].pingAt) <= now then 1 else 0
      ensures forall e :: e in connMap ==>
        connMap[e].pingAt == if old(connMap[e].pingAt) <= now then now + PING_INTERVAL else old(connMap[e].pingAt)
      ensures forall s :: s in created && !Connected(s) ==> s.pingAt == old(s.pingAt)
    {
      pinged := [];
      var keys := connMap.Keys;
      while keys != {}
        invariant keys <= connMap.Keys
        invariant routerOut == old(routerOut) + Pings(pinged)
        invariant forall e ::
          multiset(pinged)[e] == if e in connMap && e !in keys && old(connMap[e].pingAt) <= now then 1 else 0
        invariant forall e :: e in connMap && e in keys ==> connMap[e].pingAt == old(connMap[e].pingAt)
        invariant forall e :: e in connMap && e !in keys ==>
          connMap[e].pingAt == if old(connMap[e].pingAt) <= now then now + PING_INTERVAL else old(connMap[e].pingAt)
        invariant forall s :: s in created && !Connected(s) ==> s.pingAt == old(s.pingAt)
        decreases keys
      {
        var e :| e in keys;
        keys := keys - {e};
        ghost var sent := Ping(connMap[e], now);
        PingsConcat(pinged, if sent then [e] else []);
        pinged := pinged + (if sent then [e] else []);
      }
    }

    method PingDue(now: int) returns (ghost pinged: seq<string>)
      requires Valid() && RequestAhead(now)
      modifies this`routerOut, created`pingAt
      ensures Valid() && DeadlinesAhead(now)
      ensures Pinged(now, old(Now()), Now(), pinged)
    {
      pinged := PingAll(now);
      ServersPinged(now);
    }

    twostate lemma ServersPinged(now: int)
      requires created == old(created) && connMap == old(connMap) && ServersValid()
      requires forall s :: s in created ==> unchanged(s`alive, s`expires)
      requires forall e :: e in connMap ==>
        connMap[e].pingAt == if old(connMap[e].pingAt) <= now then now + PING_INTERVAL else old(connMap[e].pingAt)
      requires forall s :: s in created && !Connected(s) ==> s.pingAt == old(s.pingAt)
      ensures Servers() == AfterPings(old(Now()), now)
    {
    }

    method Ping(server: Server, now: int) returns (ghost sent: bool)
      modifies this`routerOut, server`pingAt
      ensures sent <==> old(server.pingAt) <= now
      ensures server.pingAt == if sent then now + PING_INTERVAL else old(server.pingAt)
      ensures routerOut == old(routerOut) + Pings(if sent then [server.endpoint] else [])
    {
      PingsOf(server.endpoint);
      assert routerOut + [] == routerOut;
      sent := now >= server.pingAt;
      if now < server.pingAt {
        return;
      }
      var msg := [server.endpoint] + ["PING"];
      routerOut := routerOut + [msg];
      server.pingAt := now + PING_INTERVAL;
    }

    /** A command from the application. */
    method OnControlMessage(message: Message, now: int)
      requires Valid() && WellFormed(message)
      modifies this`connMap, this`aliveServers, this`created, this`connects
      modifies this`request, this`sequence, this`expires, this`aborted, this`requests, this`hops, this`content
      ensures Valid()
      ensures aborted <==> old(aborted) || (IsRequest(message) && old(request) != [])
      ensures if IsConnect(message) then
                && connects == old(connects) + 1 && message[1] in connMap
                && var server := connMap[message[1]];
                && fresh(server) && server.endpoint == message[1] && !server.alive
                && server.pingAt == now + PING_INTERVAL && server.expires == now + SERVER_TTL
                && connMap == old(connMap)[message[1] := server] && aliveServers == old(aliveServers) + [server]
                && created == old(created) + {server}
              else
                connects == old(connects) && connMap == old(connMap)
                && aliveServers == old(aliveServers) && created == old(created)
      ensures if IsRequest(message) && old(request) == [] then
                && sequence == (old(sequence) + 1) % TWO32 && requests == old(requests) + 1
                && request == [ToString(sequence)] + message[1..] && hops == [] && content == message[1..]
                && expires == now + GLOBAL_TIMEOUT
              else
                && sequence == old(sequence) && requests == old(requests) && request == old(request)
                && hops == old(hops) && content == old(content) && expires == old(expires)
    {
      var command := message[0];
      var msg := message[1..];
      if command == "CONNECT" {
        assert !IsRequest(message);
        var server := Connect(msg[0], now);
      } else if command == "REQUEST" {
        assert !IsConnect(message);
        Request(msg, now);
      }
    }

    /** The pending request is not overdue, and the server it would go to next has not expired. */
    ghost predicate RequestAhead(now: int)
      reads this`request, this`expires, this`aliveServers, this`created, created
    {
      request != [] ==>
        && now < expires
        && (aliveServers != [] ==> aliveServers[0] in created && !aliveServers[0].Expired(now))
    }

    /** What happens to a pending request in one turn: it fails, or it is sent on. */
    method Pursue(now: int)
      requires Valid()
      modifies this`request, this`aliveServers, this`routerOut, this`hops, this`pipeOut, this`failures, created`alive
      ensures Valid() && RequestAhead(now)
      ensures Pursued(now, old(Now()), Now())
    {
      if request != [] {
        if now >= expires {
          Fail();
        } else {
          SendOn(now);
        }
      }
    }

    /** The pending request has had its time. */
    method Fail()
      requires Valid() && request != []
      modifies this`request, this`pipeOut, this`failures
      ensures Valid() && failures == old(failures) + 1
      ensures request == [] && pipeOut == old(pipeOut) + [["FAILED"]]
    {
      pipeOut := pipeOut + [["FAILED"]];
      request := [];
      failures := failures + 1;
    }

    /** The pending request goes on, and the deque is what is left of it. */
    method SendOn(now: int)
      requires Valid() && request != [] && now < expires
      modifies this`request, this`aliveServers, this`routerOut, this`hops, created`alive
      ensures Valid() && RequestAhead(now)
      ensures Pursued(now, old(Now()), Now())
    {
      ghost var v := Now();
      ghost var gone := Dispatch(now);
      ServersUnflagged(gone);
      SentOn(now, v, Now(), gone);
    }

    /** The application's command, if there is one. */
    method TakeCommand(input: Input)
      requires Valid() && !aborted && Admissible(input)
      modifies this`connMap, this`aliveServers, this`created, this`connects
      modifies this`request, this`sequence, this`expires, this`aborted, this`requests, this`hops, this`content
      ensures Valid() && fresh(created - old(created)) && old(created) <= created
      ensures connects == old(connects) + (if Connecting(input) then 1 else 0)
      ensures requests <= old(requests) + (if Makes(input) then 1 else 0)
      ensures Commanded(input, old(Now()), Now())
    {
      if Connecting(input) {
        TakeConnect(input);
      } else if input.control.Some? {
        TakeOther(input);
      }
    }

    method TakeConnect(input: Input)
      requires Valid() && !aborted && Admissible(input) && Connecting(input)
      modifies this`connMap, this`aliveServers, this`created, this`connects
      modifies this`request, this`sequence, this`expires, this`aborted, this`requests, this`hops, this`content
      ensures Valid() && fresh(created - old(created)) && old(created) <= created
      ensures connects == old(connects) + 1 && requests == old(requests)
      ensures Commanded(input, old(Now()), Now())
    {
      OnControlMessage(input.control.value, input.now);
      ConnectSeen(input);
      CommandSeen(input);
    }

    method TakeOther(input: Input)
      requires Valid() && !aborted && Admissible(input) && input.control.Some? && !Connecting(input)
      modifies this`connMap, this`aliveServers, this`created, this`connects
      modifies this`request, this`sequence, this`expires, this`aborted, this`requests, this`hops, this`content
      ensures Valid() && created == old(created) && connects == old(connects)
      ensures requests <= old(requests) + (if Makes(input) then 1 else 0)
      ensures Commanded(input, old(Now()), Now())
    {
      OnControlMessage(input.control.value, input.now);
      NoServerChanged();
      CommandSeen(input);
    }

    twostate lemma CommandSeen(input: Input)
      requires Admissible(input) && input.control.Some? && Enlisted(input, old(Now()), Now())
      requires unchanged(this`routerOut, this`pipeOut)
      requires aborted <==> old(aborted) || (Makes(input) && old(request) != [])
      requires if Makes(input) && old(request) == [] then
                 && sequence == (old(sequence) + 1) % TWO32 && expires == input.now + GLOBAL_TIMEOUT
                 && request == [ToString(sequence)] + input.control.value[1..]
               else unchanged(this`sequence, this`request, this`expires)
      ensures Commanded(input, old(Now()), Now())
    {
    }

    twostate lemma ConnectSeen(input: Input)
      requires Admissible(input) && Connecting(input) && input.control.value[1] in connMap
      requires forall s :: s in old(created) ==> unchanged(s)
      requires var e, s := input.control.value[1], connMap[input.control.value[1]];
        && s !in old(created) && s.endpoint == e && !s.alive
        && s.pingAt == input.now + PING_INTERVAL && s.expires == input.now + SERVER_TTL
        && connMap == old(connMap)[e := s] && aliveServers == old(aliveServers) + [s]
        && created == old(created) + {s}
      ensures Enlisted(input, old(Now()), Now())
    {
      ServerAdded(connMap[input.control.value[1]]);
      IsEnlisted(input, old(Now()), Now());
    }

    /** The message from a server, if there is one. */
    method TakeReply(input: Input)
      requires Valid() && !aborted && Admissible(input)
      modifies this`aliveServers, this`pipeOut, this`request, this`aborted, created
      ensures Valid() && Replied(input, old(Now()), Now(), longMax)
    {
      if input.router.Some? {
        OnRouterMessage(input.router.value, input.now);
        if input.router.value[0] in connMap {
          ReplySeen(input);
        } else {
          NoServerChanged();
        }
      }
    }

    twostate lemma ReplySeen(input: Input)
      requires Admissible(input) && input.router.Some? && input.router.value[0] in connMap
      requires created == old(created) && connMap == old(connMap) && connMap[input.router.value[0]] in created
      requires unchanged(this`sequence, this`expires, this`routerOut) && aborted == old(aborted)
      requires forall s :: s in created && s != connMap[input.router.value[0]] ==> unchanged(s)
      requires var m, s := input.router.value, connMap[input.router.value[0]];
        && s.alive && s.pingAt == input.now + PING_INTERVAL && s.expires == input.now + SERVER_TTL
        && aliveServers == old(aliveServers) + (if old(s.alive) then [] else [s])
        && if Accepted(m[1], sequence, longMax)
           then request == [] && pipeOut == old(pipeOut) + [["OK"] + m[2..]]
           else request == old(request) && pipeOut == old(pipeOut)
      ensures Replied(input, old(Now()), Now(), longMax)
    {
      ServerChanged(connMap[input.router.value[0]]);
      IsReplied(input, old(Now()), Now(), longMax);
    }

    /** The deadlines: a pending request is pursued, and every server is pinged that is due. */
    method MeetDeadlines(now: int) returns (ghost pursued: View, ghost pinged: seq<string>)
      requires Valid()
      modifies this`request, this`aliveServers, this`routerOut, this`hops, this`pipeOut, this`failures, created
      ensures Valid() && DeadlinesAhead(now)
      ensures Pursued(now, old(Now()), pursued) && Pinged(now, pursued, Now(), pinged)
    {
      Pursue(now);
      pursued := Now();
      pinged := PingDue(now);
    }

    /** One turn of the loop after the poll. */
    method Turn(input: Input) returns (ghost st: Stages)
      requires Valid() && !aborted && Admissible(input)
      modifies this, created
      ensures Valid() && fresh(created - old(created)) && old(created) <= created
      ensures connects == old(connects) + (if Connecting(input) then 1 else 0)
      ensures requests <= old(requests) + (if Makes(input) then 1 else 0)
      ensures Turned(input, old(Now()), st, Now(), longMax)
      ensures !aborted ==> DeadlinesAhead(input.now)
    {
      TakeCommand(input);
      st := Stages(Now(), Now(), Now(), []);
      if aborted {
        return;
      }
      TakeReply(input);
      st := st.(replied := Now());
      if !aborted {
        ghost var pursued, pinged := MeetDeadlines(input.now);
        st := st.(pursued := pursued, pinged := pinged);
      }
    }

    /** The CONNECTs and REQUESTs made are among the inputs. */
    ghost predicate Tracks(inputs: seq<Input>)
      reads this`connects, this`requests
    {
      connects == Connects(inputs) && requests <= Requests(inputs)
    }

    /** The history begins with `first` and ends with the agent's state. */
    ghost predicate Recorded(inputs: seq<Input>, h: History, first: View)
      reads this, created
    {
      IsHistory(inputs, h, longMax) && h.views[0] == first && h.views[|inputs|] == Now()
    }

    /** The next turn of the loop, on input `i`. */
    method TakeTurn(inputs: seq<Input>, i: nat, ghost h: History, ghost first: View) returns (ghost h': History)
      requires i < |inputs| && Valid() && !aborted && Tracks(inputs[..i]) && Admissible(inputs[i])
      requires Recorded(inputs[..i], h, first)
      modifies this, created
      ensures Valid() && fresh(created - old(created)) && old(created) <= created
      ensures Tracks(inputs[..i + 1]) && (!aborted ==> DeadlinesAhead(inputs[i].now))
      ensures Recorded(inputs[..i + 1], h', first)
    {
      CountNext(inputs, i);
      ghost var v := Now();
      ghost var st := Turn(inputs[i]);
      h' := HistoryGrows(inputs, i, h, st, Now(), longMax);
    }

    /**
      The agent's loop over any inputs, until it aborts or they run out: a
      history that begins and ends with the agent's state, and in which each
      input leads from one view to the next.  The deque stays within twice the
      number of CONNECTs, and the FAILED messages and a pending request within
      the number of REQUESTs.
    */
    method AgentTask(inputs: seq<Input>) returns (taken: nat, ghost h: History)
      requires Valid() && !aborted && connects == 0 && requests == 0 && created == {}
      requires forall i :: i in inputs ==> Admissible(i)
      modifies this, created
      ensures Valid() && taken <= |inputs| && (taken < |inputs| ==> aborted)
      ensures Recorded(inputs[..taken], h, old(Now()))
      ensures |aliveServers| <= 2 * Connects(inputs[..taken])
      ensures multiset(pipeOut)[["FAILED"]] + (if request == [] then 0 else 1) <= requests <= Requests(inputs[..taken])
      ensures 0 < taken && !aborted ==> DeadlinesAhead(inputs[taken - 1].now)
    {
      taken := 0;
      ghost var first := Now();
      h := History([first], []);
      while taken < |inputs| && !aborted
        invariant taken <= |inputs| && Valid() && fresh(created)
        invariant Tracks(inputs[..taken]) && Recorded(inputs[..taken], h, first)
        invariant 0 < taken && !aborted ==> DeadlinesAhead(inputs[taken - 1].now)
      {
        var tickless := NextWake(inputs[taken].now);
        h := TakeTurn(inputs, taken, h, first);
        taken := taken + 1;
      }
      Tallied(inputs[..taken]);
    }

    lemma Tallied(inputs: seq<Input>)
      requires Valid() && Tracks(inputs)
      ensures |aliveServers| <= 2 * Connects(inputs)
      ensures multiset(pipeOut)[["FAILED"]] + (if request == [] then 0 else 1) <= requests <= Requests(inputs)
    {
      DequeBound(aliveServers, created);
    }
  }

  function Connects(inputs: seq<Input>): nat {
    if inputs == [] then 0
    else
      var last := inputs[|inputs| - 1];
      Connects(inputs[..|inputs| - 1]) + if last.control.Some? && IsConnect(last.control.value) then 1 else 0
  }

  function Requests(inputs: seq<Input>): nat {
    if inputs == [] then 0
    else
      var last := inputs[|inputs| - 1];
      Requests(inputs[..|inputs| - 1]) + if last.control.Some? && IsRequest(last.control.value) then 1 else 0
  }

  lemma CountNext(inputs: seq<Input>, i: nat)
    requires i < |inputs|
    ensures Connects(inputs[..i + 1])
         == Connects(inputs[..i]) + if inputs[i].control.Some? && IsConnect(inputs[i].control.value) then 1 else 0
    ensures Requests(inputs[..i + 1])
         == Requests(inputs[..i]) + if inputs[i].control.Some? && IsRequest(inputs[i].control.value) then 1 else 0
  {
    assert inputs[..i + 1][..i] == inputs[..i];
  }

  lemma NextSequence(n: nat)
    ensures (n % TWO32 + 1) % TWO32 == (n + 1) % TWO32
  {
  }
}
