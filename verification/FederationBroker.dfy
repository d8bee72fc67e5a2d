/**
  One broker's loop, step by step over its own deque and sockets, proved to be
  a run of the federation.
*/
module FederationBroker {
  import opened Wrappers
  import opened Inboxes
  import opened Federation
  import opened FederationInvariant
  import opened FederationTheorems
  import opened FederationTurns

  /** The messages in transit between all sockets of the federation. */
  class Network {
    const cfg: Config
    var packets: Net

    constructor (cfg: Config)
      ensures this.cfg == cfg && packets == []
    {
      this.cfg := cfg;
      packets := [];
    }

    method Receive(sock: Socket) returns (frames: Message)
      requires Pending(packets, sock)
      modifies this`packets
      ensures frames == Head(old(packets), sock) && packets == Taken(old(packets), sock)
    {
      frames := Head(packets, sock);
      packets := Taken(packets, sock);
    }

    method Send(sock: Socket, frames: Message)
      requires frames != []
      modifies this`packets
      ensures packets == old(packets) + RouterSend(cfg, sock, frames)
    {
      packets := packets + RouterSend(cfg, sock, frames);
    }
  }

  /** A roll of the dice: whether to reroute, and to which peer. */
  datatype Roll = Roll(reroute: bool, pick: nat)

  function Choose(peers: seq<string>, pick: nat): (p: string)
    requires peers != []
    ensures p in peers
  {
    peers[pick % |peers|]
  }

  /** Every peer can be the one that the dice choose. */
  lemma AnyPeerCanBeChosen(peers: seq<string>, p: string)
    requires p in peers
    ensures exists pick: nat :: Choose(peers, pick) == p
  {
    var i :| 0 <= i < |peers| && peers[i] == p;
    assert Choose(peers, i) == p;
  }

  class Broker {
    const name: string
    const network: Network
    var readyWorkers: seq<string>

    /** The federation as this broker sees it is part of the state `w`. */
    ghost predicate SeenIn(w: World)
      reads this, network
    {
      && ValidConfig(network.cfg) && Inv(network.cfg, w)
      && name in network.cfg.peers
      && w.net == network.packets && w.ready[name] == readyWorkers
    }

    /** `run` is a run of this broker from `w` to `w'`, the state it now sees. */
    ghost predicate Ran(w: World, run: seq<Action>, w': World)
      reads this, network
    {
      && SeenIn(w')
      && Feasible(network.cfg, w, run) && After(network.cfg, w, run) == w'
      && forall a :: a in run ==> ActsFor(a, name)
    }

    /** The broker did `a` if its deque and the network are now as the action leaves them. */
    lemma Did(w: World, a: Action)
      requires ValidConfig(network.cfg) && Inv(network.cfg, w) && name in network.cfg.peers
      requires Enabled(network.cfg, w, a) && ActsFor(a, name)
      requires network.packets == Taken(w.net, Source(a).value) + Output(network.cfg, w, a)
      requires name in Step(network.cfg, w, a).ready && readyWorkers == Step(network.cfg, w, a).ready[name]
      ensures Ran(w, [a], Step(network.cfg, w, a))
    {
      StepKeepsInv(network.cfg, w, a);
      OneAction(network.cfg, w, a);
    }

    constructor (name: string, network: Network)
      ensures this.name == name && this.network == network && readyWorkers == []
    {
      this.name := name;
      this.network := network;
      readyWorkers := [];
    }

    /** The reply is for a peer broker if its first frame names one, and for a client of ours otherwise. */
    method SendReply(frames: Message)
      requires frames != [] && name in network.cfg.peers
      modifies network`packets
      ensures network.packets == old(network.packets) + ReplyTo(network.cfg, name, frames)
    {
      var repFrames := frames;
      var peers := network.cfg.peers[name];
      var i := 0;
      while i < |peers|
        invariant 0 <= i <= |peers|
        invariant repFrames == frames && frames[0] !in peers[..i]
        invariant network.packets == old(network.packets)
      {
        if repFrames[0] == peers[i] {
          network.Send(CloudFe(name), repFrames);
          repFrames := [];
          break;
        }
        i := i + 1;
      }
      if repFrames != [] {
        network.Send(LocalFe(name), repFrames);
      }
    }

    /** The action by which this broker would take in a reply or an announcement; workers come before peers. */
    ghost function BackendAction(w: World): seq<Action> {
      if Pending(w.net, LocalBe(name)) then [LocalBackend(name)]
      else if Pending(w.net, CloudBe(name)) then [CloudBackend(name)] else []
    }

    /** Receives from one backend and unwraps what it got; the two assertions are the source's. */
    method TakeReply(ghost w: World) returns (repFrames: Message)
      requires SeenIn(w)
      modifies this`readyWorkers, network`packets
      ensures forall a :: a in BackendAction(w) ==>
        && Enabled(network.cfg, w, a)
        && network.packets == Taken(w.net, Source(a).value)
        && readyWorkers == Step(network.cfg, w, a).ready[name]
        && Output(network.cfg, w, a) == if repFrames == [] then [] else ReplyTo(network.cfg, name, repFrames)
      ensures readyWorkers == old(readyWorkers)
        + if Pending(w.net, LocalBe(name)) then [Head(w.net, LocalBe(name))[0]] else []
      ensures BackendAction(w) == [] ==>
        repFrames == [] && network.packets == w.net && readyWorkers == w.ready[name]
    {
      repFrames := [];
      if Pending(network.packets, LocalBe(name)) {
        CanReceiveHead(network.cfg, w, LocalBe(name));
        repFrames := network.Receive(LocalBe(name));
        assert repFrames[0] != "";
        var id := repFrames[0];
        readyWorkers := readyWorkers + [id];
        repFrames := repFrames[1..];
        assert repFrames[0] == "";
        repFrames := repFrames[1..];
        if repFrames[0] == READY {
          repFrames := [];
        }
      } else if Pending(network.packets, CloudBe(name)) {
        CanReceiveHead(network.cfg, w, CloudBe(name));
        repFrames := network.Receive(CloudBe(name));
        repFrames := repFrames[1..];
      }
    }

    /** Takes in at most one reply or announcement, and sends a reply on. */
    method HandleBackends(ghost w: World) returns (ghost w': World)
      requires SeenIn(w)
      modifies this`readyWorkers, network`packets
      ensures Ran(w, BackendAction(w), w') && w' == AfterBackends(w)
    {
      var repFrames := TakeReply(w);
      if repFrames != [] {
        SendReply(repFrames);
      }
      w' := w;
      if BackendAction(w) != [] {
        ghost var a := BackendAction(w)[0];
        assert a in BackendAction(w);
        w' := Step(network.cfg, w, a);
        Did(w, a);
        assert BackendAction(w) == [a];
      }
    }

    /** The action by which this broker would hand on a request; peers' requests come before local ones. */
    ghost function RequestAction(w: World, roll: Roll): seq<Action>
      requires name in network.cfg.peers && name in w.ready
    {
      var peers := network.cfg.peers[name];
      if w.ready[name] == [] then []
      else if Pending(w.net, CloudFe(name)) then [CloudRequest(name)]
      else if Pending(w.net, LocalFe(name)) then
        [LocalRequest(name, if peers != [] && roll.reroute then Some(Choose(peers, roll.pick)) else None)]
      else []
    }

    /** The federation after one turn of the inner loop. */
    ghost function AfterTurn(w: World, roll: Roll): World {
      if name !in network.cfg.peers || name !in w.ready then w
      else
        var turn := RequestAction(w, roll);
        if turn != [] && Enabled(network.cfg, w, turn[0]) then Step(network.cfg, w, turn[0]) else w
    }

    /** The federation after `n` turns of the inner loop: before the poll of turn `i` the others do `moves(i)`. */
    ghost function Turned(w: World, rolls: nat -> Roll, moves: nat -> seq<Action>, n: nat): World {
      if n == 0 then w
      else AfterTurn(Elapse(network.cfg, Turned(w, rolls, moves, n - 1), moves(n - 1)), rolls(n - 1))
    }

    /** A turn, if it does anything, is one more action. */
    lemma TurnIsRun(w: World, run: seq<Action>, v: World, roll: Roll) returns (run': seq<Action>)
      requires Feasible(network.cfg, w, run) && After(network.cfg, w, run) == v
      ensures Feasible(network.cfg, w, run') && After(network.cfg, w, run') == AfterTurn(v, roll)
    {
      run' := run;
      if AfterTurn(v, roll) != v {
        var a := RequestAction(v, roll)[0];
        OneAction(network.cfg, v, a);
        FeasibleConcat(network.cfg, w, run, [a]);
        run' := run + [a];
      }
    }

    /** The turns and the moves of the others between them are a run of the federation. */
    lemma {:induction false} TurnedIsRun(w: World, rolls: nat -> Roll, moves: nat -> seq<Action>, n: nat)
      returns (run: seq<Action>)
      ensures Feasible(network.cfg, w, run) && After(network.cfg, w, run) == Turned(w, rolls, moves, n)
      decreases n
    {
      run := [];
      if n == 0 {
      } else {
        run := TurnedIsRun(w, rolls, moves, n - 1);
        var u := Turned(w, rolls, moves, n - 1);
        if Feasible(network.cfg, u, moves(n - 1)) {
          FeasibleConcat(network.cfg, w, run, moves(n - 1));
          run := run + moves(n - 1);
        }
        run := TurnIsRun(w, run, Elapse(network.cfg, u, moves(n - 1)), rolls(n - 1));
      }
    }

    lemma RequestEnabled(w: World, roll: Roll)
      requires ValidConfig(network.cfg) && Inv(network.cfg, w) && name in network.cfg.peers
      ensures forall a :: a in RequestAction(w, roll) ==> Enabled(network.cfg, w, a)
    {
      if RequestAction(w, roll) != [] {
        var a := RequestAction(w, roll)[0];
        assert RequestAction(w, roll) == [a];
        CanReceiveHead(network.cfg, w, Source(a).value);
        if a.LocalRequest? && a.reroute.Some? {
          assert Linked(network.cfg, name, a.reroute.value);
        }
        assert Enabled(network.cfg, w, a);
      }
    }

    /** A broker that would neither take in a reply nor hand on a request can do nothing. */
    lemma NothingToDo(w: World, roll: Roll)
      requires SeenIn(w)
      ensures BackendAction(w) == [] && RequestAction(w, roll) == []
         <==> forall a :: ActsFor(a, name) ==> !Enabled(network.cfg, w, a)
    {
      if BackendAction(w) != [] {
        var a := BackendAction(w)[0];
        CanReceiveHead(network.cfg, w, Source(a).value);
        assert ActsFor(a, name) && Enabled(network.cfg, w, a);
      } else if RequestAction(w, roll) != [] {
        var a := RequestAction(w, roll)[0];
        RequestEnabled(w, roll);
        assert a in RequestAction(w, roll);
        assert ActsFor(a, name) && Enabled(network.cfg, w, a);
      }
    }

    /** Receives from one frontend, if either has a request. */
    method TakeRequest(ghost w: World, ghost roll: Roll)
      returns (worked: bool, reqFrames: Message, reroutable: bool)
      requires name in network.cfg.peers && name in w.ready
      requires w.net == network.packets && w.ready[name] == readyWorkers && readyWorkers != []
      modifies network`packets
      ensures worked <==> RequestAction(w, roll) != []
      ensures !worked ==> network.packets == w.net
      ensures forall a :: a in RequestAction(w, roll) ==>
        && network.packets == Taken(w.net, Source(a).value)
        && reqFrames == Head(w.net, Source(a).value)
        && reroutable == a.LocalRequest?
    {
      reqFrames := [];
      reroutable := false;
      worked := true;
      if Pending(network.packets, CloudFe(name)) {
        reqFrames := network.Receive(CloudFe(name));
      } else if Pending(network.packets, LocalFe(name)) {
        reqFrames := network.Receive(LocalFe(name));
        reroutable := true;
      } else {
        worked := false;
      }
    }

    /** What this broker's action sends, and what it leaves of the deque. */
    lemma RequestEffect(w: World, roll: Roll)
      requires SeenIn(w) && RequestAction(w, roll) != []
      ensures var a := RequestAction(w, roll)[0];
        && Source(a).Some? && Pending(w.net, Source(a).value) && Enabled(network.cfg, w, a)
        && var m := Head(w.net, Source(a).value);
        if a.LocalRequest? && a.reroute.Some? then
          && Output(network.cfg, w, a) == RouterSend(network.cfg, CloudBe(name), [a.reroute.value] + m)
          && Step(network.cfg, w, a).ready[name] == w.ready[name]
        else
          && Output(network.cfg, w, a) == RouterSend(network.cfg, LocalBe(name), [w.ready[name][0], ""] + m)
          && Step(network.cfg, w, a).ready[name] == w.ready[name][1..]
    {
      RequestEnabled(w, roll);
      assert RequestAction(w, roll)[0] in RequestAction(w, roll);
    }

    /** Hands on one request, to a peer or to the worker that has been ready longest. */
    method RouteRequest(ghost w: World, roll: Roll) returns (worked: bool, ghost w': World)
      requires SeenIn(w) && readyWorkers != []
      modifies this`readyWorkers, network`packets
      ensures Ran(w, RequestAction(w, roll), w') && w' == AfterTurn(w, roll)
      ensures worked <==> RequestAction(w, roll) != []
    {
      var reqFrames, reroutable;
      if RequestAction(w, roll) != [] {
        RequestEffect(w, roll);
      }
      worked, reqFrames, reroutable := TakeRequest(w, roll);
      w' := w;
      if !worked {
        return;
      }
      ghost var a := RequestAction(w, roll)[0];
      assert RequestAction(w, roll) == [a] && a in RequestAction(w, roll);
      HandOn(reqFrames, reroutable, roll);
      w' := Step(network.cfg, w, a);
      Did(w, a);
    }

    /** Sends a request to the peer that the dice chose, or to the worker at the front of the deque. */
    method HandOn(request: Message, reroutable: bool, roll: Roll)
      requires name in network.cfg.peers && readyWorkers != []
      modifies this`readyWorkers, network`packets
      ensures var peers := network.cfg.peers[name];
        if reroutable && peers != [] && roll.reroute then
          && readyWorkers == old(readyWorkers)
          && network.packets == old(network.packets)
             + RouterSend(network.cfg, CloudBe(name), [Choose(peers, roll.pick)] + request)
        else
          && readyWorkers == old(readyWorkers)[1..]
          && network.packets == old(network.packets)
             + RouterSend(network.cfg, LocalBe(name), [old(readyWorkers)[0], ""] + request)
    {
      var reqFrames := request;
      var peers := network.cfg.peers[name];
      if reroutable && peers != [] && roll.reroute {
        var broker := Choose(peers, roll.pick);
        reqFrames := [broker] + reqFrames;
        network.Send(CloudBe(name), reqFrames);
      } else {
        var id := readyWorkers[0];
        readyWorkers := readyWorkers[1..];
        reqFrames := [""] + reqFrames;
        reqFrames := [id] + reqFrames;
        assert reqFrames == [id, ""] + request;
        network.Send(LocalBe(name), reqFrames);
      }
    }

    lemma InboxAfter(w: World, a: Action, sock: Socket)
      requires Enabled(network.cfg, w, a) && Source(a).Some?
      ensures Source(a) == Some(sock) ==> Inbox(w.net, sock) != []
      ensures Inbox(Step(network.cfg, w, a).net, sock)
           == (if Source(a) == Some(sock) then Inbox(w.net, sock)[1..] else Inbox(w.net, sock))
              + Inbox(Output(network.cfg, w, a), sock)
    {
      ReceiveIsFifo(w.net, Source(a).value, sock);
      InboxConcat(Taken(w.net, Source(a).value), Output(network.cfg, w, a), sock);
    }

    /** A turn of the inner loop takes the oldest request of a peer, and only if there is none a client's. */
    lemma PeersComeFirst(w: World, roll: Roll)
      requires ValidConfig(network.cfg) && Inv(network.cfg, w) && name in network.cfg.peers
      requires name in w.ready && w.ready[name] != []
      ensures var t := AfterTurn(w, roll);
        var cloud, local := Inbox(w.net, CloudFe(name)), Inbox(w.net, LocalFe(name));
        if cloud != [] then Inbox(t.net, CloudFe(name)) == cloud[1..] && Inbox(t.net, LocalFe(name)) == local
        else if local != [] then Inbox(t.net, LocalFe(name)) == local[1..] && Inbox(t.net, CloudFe(name)) == []
        else t == w
    {
      PendingIffInbox(w.net, CloudFe(name));
      PendingIffInbox(w.net, LocalFe(name));
      RequestEnabled(w, roll);
      if RequestAction(w, roll) != [] {
        var a := RequestAction(w, roll)[0];
        assert a in RequestAction(w, roll);
        InboxAfter(w, a, CloudFe(name));
        InboxAfter(w, a, LocalFe(name));
        NotForOwnFrontends(w, a);
      }
    }

    /** What this broker hands on does not come back to its own frontends. */
    lemma NotForOwnFrontends(w: World, a: Action)
      requires ValidConfig(network.cfg) && Inv(network.cfg, w) && Enabled(network.cfg, w, a)
      requires a == CloudRequest(name) || (a.LocalRequest? && a.b == name)
      ensures Inbox(Output(network.cfg, w, a), CloudFe(name)) == []
      ensures Inbox(Output(network.cfg, w, a), LocalFe(name)) == []
    {
      if a.LocalRequest? {
        var k := HeadCarries(network.cfg, w, LocalFe(name));
        assert !Linked(network.cfg, name, name);
      }
    }

    /** The first half of a pass takes the oldest message of a worker, and only if there is none a peer's. */
    lemma WorkersComeFirst(w: World)
      requires ValidConfig(network.cfg) && Inv(network.cfg, w) && name in network.cfg.peers
      ensures var t := AfterBackends(w);
        var local, cloud := Inbox(w.net, LocalBe(name)), Inbox(w.net, CloudBe(name));
        if local != [] then Inbox(t.net, LocalBe(name)) == local[1..] && Inbox(t.net, CloudBe(name)) == cloud
        else if cloud != [] then Inbox(t.net, CloudBe(name)) == cloud[1..] && Inbox(t.net, LocalBe(name)) == []
        else t == w
    {
      PendingIffInbox(w.net, LocalBe(name));
      PendingIffInbox(w.net, CloudBe(name));
      if Pending(w.net, LocalBe(name)) {
        BackendTaken(w, LocalBackend(name), CloudBe(name));
      } else if Pending(w.net, CloudBe(name)) {
        BackendTaken(w, CloudBackend(name), LocalBe(name));
      }
    }

    lemma BackendTaken(w: World, a: Action, other: Socket)
      requires ValidConfig(network.cfg) && Inv(network.cfg, w) && name in network.cfg.peers
      requires BackendAction(w) == [a] && Source(a).Some? && Pending(w.net, Source(a).value)
      requires other == if a == LocalBackend(name) then CloudBe(name) else LocalBe(name)
      ensures Enabled(network.cfg, w, a) && AfterBackends(w) == Step(network.cfg, w, a)
      ensures Inbox(w.net, Source(a).value) != []
      ensures Inbox(AfterBackends(w).net, Source(a).value) == Inbox(w.net, Source(a).value)[1..]
      ensures Inbox(AfterBackends(w).net, other) == Inbox(w.net, other)
    {
      CanReceiveHead(network.cfg, w, Source(a).value);
      InboxAfter(w, a, Source(a).value);
      InboxAfter(w, a, other);
      NotForOwnBackends(w, a);
    }

    /** A reply does not come back to this broker's own backends. */
    lemma NotForOwnBackends(w: World, a: Action)
      requires ValidConfig(network.cfg) && Inv(network.cfg, w) && Enabled(network.cfg, w, a)
      requires a == LocalBackend(name) || a == CloudBackend(name)
      ensures Inbox(Output(network.cfg, w, a), CloudBe(name)) == []
      ensures Inbox(Output(network.cfg, w, a), LocalBe(name)) == []
    {
      var p := w.net[First(w.net, Source(a).value)];
      if Announces(network.cfg, p) {
      } else {
        var k := HeadCarries(network.cfg, w, Source(a).value);
        if a.LocalBackend? {
          ReplyFrames(p.msg, k, name);
        } else {
          assert p.msg[1..] == Envelope(Stack(k, name), "OK");
        }
        var q := ReplyCarries(network.cfg, name, k);
      }
    }

    /** The others have moved, and the broker polls: `arrived` is now in transit. */
    method Poll(ghost w: World, ghost moves: seq<Action>, arrived: Net) returns (ghost w': World)
      requires SeenIn(w) && OfOthers(moves, name) && arrived == Elapse(network.cfg, w, moves).net
      modifies network`packets
      ensures SeenIn(w') && w' == Elapse(network.cfg, w, moves)
      ensures name in w.ready && name in w'.ready && Load(network.cfg, w', name) <= Load(network.cfg, w, name)
    {
      w' := Elapse(network.cfg, w, moves);
      OthersElapse(network.cfg, w, moves, name);
      network.packets := arrived;
    }

    lemma TurnLowersLoad(w: World, roll: Roll)
      requires ValidConfig(network.cfg) && Inv(network.cfg, w) && name in network.cfg.peers && name in w.ready
      requires RequestAction(w, roll) != []
      ensures name in AfterTurn(w, roll).ready
      ensures Load(network.cfg, AfterTurn(w, roll), name) < Load(network.cfg, w, name)
    {
      var a := RequestAction(w, roll)[0];
      RequestEnabled(w, roll);
      assert a in RequestAction(w, roll);
      RequestLowersLoad(network.cfg, w, a, name);
    }

    /** One turn of the inner loop: the broker polls, and hands on one request if there is one. */
    method TakeTurn(ghost w: World, roll: Roll, ghost moves: seq<Action>, arrived: Net)
      returns (worked: bool, ghost w': World)
      requires SeenIn(w) && readyWorkers != []
      requires OfOthers(moves, name) && arrived == Elapse(network.cfg, w, moves).net
      modifies this`readyWorkers, network`packets
      ensures SeenIn(w') && w' == AfterTurn(Elapse(network.cfg, w, moves), roll)
      ensures name in w.ready && name in w'.ready
      ensures worked ==> Load(network.cfg, w', name) < Load(network.cfg, w, name)
      ensures !worked ==> !Pending(w'.net, CloudFe(name)) && !Pending(w'.net, LocalFe(name))
    {
      ghost var polled := Poll(w, moves, arrived);
      worked, w' := RouteRequest(polled, roll);
      if worked {
        TurnLowersLoad(polled, roll);
      }
    }

    /**
      Hands on requests until there are no ready workers or no requests left.
      However busily the others move between the polls, the loop comes to an end.
    */
    method RouteRequests(ghost w: World, rolls: nat -> Roll, ghost moves: nat -> seq<Action>, arrived: nat -> Net)
      returns (ghost turns: nat, ghost w': World)
      requires SeenIn(w) && forall n: nat :: OfOthers(moves(n), name)
      requires forall n: nat :: arrived(n) == Elapse(network.cfg, Turned(w, rolls, moves, n), moves(n)).net
      modifies this`readyWorkers, network`packets
      ensures SeenIn(w') && w' == Turned(w, rolls, moves, turns)
      ensures readyWorkers == [] || (!Pending(w'.net, CloudFe(name)) && !Pending(w'.net, LocalFe(name)))
    {
      w' := w;
      var i := 0;
      while readyWorkers != []
        invariant 0 <= i && SeenIn(w') && w' == Turned(w, rolls, moves, i)
        decreases Load(network.cfg, w', name)
      {
        var worked;
        worked, w' := TakeTurn(w', rolls(i), moves(i), arrived(i));
        i := i + 1;
        if !worked {
          break;
        }
      }
      turns := i;
    }

    /** The federation after this broker has taken in a reply or an announcement, if there is one. */
    ghost function AfterBackends(w: World): World {
      var taken := BackendAction(w);
      if taken != [] && Enabled(network.cfg, w, taken[0]) then Step(network.cfg, w, taken[0]) else w
    }

    /**
      One pass of the loop: one reply or announcement, then as many requests as
      there are ready workers.  It stops only for want of workers or of requests.
    */
    method Pass(ghost w: World, rolls: nat -> Roll, ghost moves: nat -> seq<Action>, arrived: nat -> Net)
      returns (ghost turns: nat, ghost w': World)
      requires SeenIn(w) && forall n: nat :: OfOthers(moves(n), name)
      requires forall n: nat ::
        arrived(n) == Elapse(network.cfg, Turned(AfterBackends(w), rolls, moves, n), moves(n)).net
      modifies this`readyWorkers, network`packets
      ensures SeenIn(w') && w' == Turned(AfterBackends(w), rolls, moves, turns)
      ensures exists run :: Feasible(network.cfg, w, run) && After(network.cfg, w, run) == w'
      ensures readyWorkers == [] || (!Pending(w'.net, CloudFe(name)) && !Pending(w'.net, LocalFe(name)))
    {
      ghost var mid := HandleBackends(w);
      turns, w' := RouteRequests(mid, rolls, moves, arrived);
      ghost var run := TurnedIsRun(mid, rolls, moves, turns);
      FeasibleConcat(network.cfg, w, BackendAction(w), run);
    }
  }
}
