/** Every step of the load-balancing broker, its clients and its workers keeps the invariant. */
module LoadBalancerInvariant {
  import opened Inboxes
  import opened LoadBalancer

  lemma HeadShaped(cfg: Config, s: World, sock: Socket)
    requires Inv(cfg, s) && Pending(s.net, sock)
    ensures Shaped(cfg, Packet(sock, Head(s.net, sock)))
  {
  }

  lemma ShapedReadable(cfg: Config, p: Packet<Socket>)
    requires ValidConfig(cfg) && Shaped(cfg, p)
    ensures Readable(p.sock, p.msg)
  {
  }

  lemma QueuedWorker(cfg: Config, s: World)
    requires Inv(cfg, s) && s.queue != []
    ensures s.queue[0] in s.registered && s.queue[0] in cfg.workers && s.queue[0] !in s.exited
    ensures multiset(s.queue) == multiset{s.queue[0]} + multiset(s.queue[1..])
  {
    assert s.queue == [s.queue[0]] + s.queue[1..];
    assert WorkerInPlace(s, s.queue[0]);
  }

  lemma TallyRelay(net: Net, sock: Socket, q: Packet<Socket>, f: Packet<Socket> -> multiset<string>)
    requires Pending(net, sock)
    ensures Tally(Taken(net, sock) + [q], f) + f(net[First(net, sock)]) == Tally(net, f) + f(q)
  {
    TallyRemove(net, First(net, sock), f);
    TallyAppend(Taken(net, sock), q, f);
  }

  lemma TallyDrop(net: Net, sock: Socket, f: Packet<Socket> -> multiset<string>)
    requires Pending(net, sock)
    ensures Tally(Taken(net, sock), f) + f(net[First(net, sock)]) == Tally(net, f)
  {
    TallyRemove(net, First(net, sock), f);
  }

  /** Receiving `p` and sending `q` keeps the invariant when clients and workers are accounted for. */
  lemma RelayKeepsInv(cfg: Config, s: World, t: World, sock: Socket, p: Packet<Socket>, q: Packet<Socket>)
    requires Inv(cfg, s) && Pending(s.net, sock) && p == s.net[First(s.net, sock)]
    requires t.net == Taken(s.net, sock) + [q] && Shaped(cfg, q)
    requires t.started == s.started && t.answered == s.answered && Owner(q) == Owner(p)
    requires |Arrived(q)| + t.countdown == |Arrived(p)| + s.countdown && t.countdown >= 0
    requires (t.phase == Serving <==> t.countdown > 0) && t.phase != Killing
    requires t.registered == s.registered && t.exited == s.exited && t.notified == s.notified && Stop(q) == Stop(p)
    requires forall w :: Carrier(q)[w] + multiset(t.queue)[w] == Carrier(p)[w] + multiset(s.queue)[w]
    requires Fifo(t)
    ensures Inv(cfg, t)
  {
    TallyRelay(s.net, sock, q, Owner);
    TallyRelay(s.net, sock, q, Carrier);
    TallyRelay(s.net, sock, q, Arrived);
    TallyRelay(s.net, sock, q, Stop);
    Cancel(Tally(t.net, Owner), Tally(s.net, Owner), Owner(p));
    Cancel(Tally(t.net, Stop), Tally(s.net, Stop), Stop(p));
    assert |Tally(t.net, Arrived) + Arrived(p)| == |Tally(s.net, Arrived) + Arrived(q)|;
    forall w ensures WorkerInPlace(t, w) {
      assert WorkerInPlace(s, w);
      assert Carrier(q)[w] + multiset(t.queue)[w] == Carrier(p)[w] + multiset(s.queue)[w];
      assert (Tally(t.net, Carrier) + Carrier(p))[w] == (Tally(s.net, Carrier) + Carrier(q))[w];
    }
  }

  lemma ReplyKeepsInv(cfg: Config, s: World, w: string, c: string)
    requires ValidConfig(cfg) && Inv(cfg, s) && Enabled(cfg, s, TakeReply)
    requires Head(s.net, Backend) == [w, "", c, "", "OK"] && c in cfg.clients
    ensures Inv(cfg, Step(cfg, s, TakeReply))
  {
    var p, q := Packet(Backend, [w, "", c, "", "OK"]), Packet(ClientIn(c), ["", "OK"]);
    assert [c, "", "OK"][1..] == ["", "OK"];
    assert Output(cfg, s, TakeReply) == [q];
    RelayKeepsInv(cfg, s, Step(cfg, s, TakeReply), Backend, p, q);
  }

  lemma RequestTokens(s: World, t: World, w: string)
    requires s.queue != [] && s.queue[0] == w && t.queue == s.queue[1..] && t.dispatched == s.dispatched + [w]
    requires Fifo(s) && s.phase != Killing && t.phase == s.phase && t.notified == s.notified && t.readied == s.readied
    ensures multiset(s.queue) == multiset{w} + multiset(t.queue)
    ensures Fifo(t)
  {
    assert s.queue == [w] + t.queue;
    assert s.dispatched + [] + s.queue == (s.dispatched + [w]) + [] + t.queue;
  }

  lemma RequestKeepsInv(cfg: Config, s: World)
    requires ValidConfig(cfg) && Inv(cfg, s) && Enabled(cfg, s, TakeRequest)
    ensures Inv(cfg, Step(cfg, s, TakeRequest))
    ensures Output(cfg, s, TakeRequest)
         == [Packet(WorkerIn(s.queue[0]), ["", Head(s.net, Frontend)[0], "", "HELLO"])]
  {
    QueuedWorker(cfg, s);
    HeadShaped(cfg, s, Frontend);
    var m, w := Head(s.net, Frontend), s.queue[0];
    var q := Packet(WorkerIn(w), ["", m[0], "", "HELLO"]);
    assert [w, "", m[0], "", m[2]][1..] == q.msg;
    assert Output(cfg, s, TakeRequest) == [q];
    var p, t := Packet(Frontend, m), Step(cfg, s, TakeRequest);
    RequestTokens(s, t, w);
    assert Carrier(q) == multiset{w} && Carrier(p) == Stop(q) == Stop(p) == multiset{};
    RelayKeepsInv(cfg, s, t, Frontend, p, q);
  }

  /** A worker serves whatever the phase of the broker. */
  lemma ServeKeepsInv(cfg: Config, s: World, w: string)
    requires ValidConfig(cfg) && Inv(cfg, s) && Enabled(cfg, s, WorkerServe(w))
    ensures Inv(cfg, Step(cfg, s, WorkerServe(w)))
  {
    HeadShaped(cfg, s, WorkerIn(w));
    var m := Head(s.net, WorkerIn(w));
    var p, q := Packet(WorkerIn(w), m), Packet(Backend, [w, "", m[1], "", "OK"]);
    TallyRelay(s.net, WorkerIn(w), q, Owner);
    OwnerNotDone(cfg, s, p, m[1]);
    RelayKeepsInv(cfg, s, Step(cfg, s, WorkerServe(w)), WorkerIn(w), p, q);
  }

  /**
    A client whose request is still with a worker has not been answered, so the
    loop that stops workers has not begun.
  */
  lemma OwnerNotDone(cfg: Config, s: World, p: Packet<Socket>, c: string)
    requires Inv(cfg, s) && p in s.net && Owner(p) == multiset{c}
    ensures c in s.started && c !in s.answered && s.phase != Killing
  {
    var i :| 0 <= i < |s.net| && s.net[i] == p;
    TallyMember(s.net, Owner, i, c);
    assert c in multiset(s.started - s.answered);
  }

  lemma DropKeepsInv(cfg: Config, s: World, t: World, sock: Socket, p: Packet<Socket>)
    requires Inv(cfg, s) && Pending(s.net, sock) && p == s.net[First(s.net, sock)]
    requires t.net == Taken(s.net, sock)
    requires t.started == s.started && s.answered <= t.answered <= t.started
    requires multiset(t.started - t.answered) + Owner(p) == multiset(s.started - s.answered)
    requires |t.answered| == |s.answered| + |Arrived(p)| && t.countdown == s.countdown && t.phase == s.phase
    requires t.registered == s.registered && t.notified == s.notified
    requires forall w ::
      multiset(t.queue)[w] + One(w in t.exited) == Carrier(p)[w] + multiset(s.queue)[w] + One(w in s.exited)
    requires forall w :: One(w in t.exited) == Stop(p)[w] + One(w in s.exited)
    requires Fifo(t)
    ensures Inv(cfg, t)
  {
    TallyDrop(s.net, sock, Owner);
    TallyDrop(s.net, sock, Carrier);
    TallyDrop(s.net, sock, Arrived);
    TallyDrop(s.net, sock, Stop);
    Cancel(Tally(t.net, Owner), multiset(t.started - t.answered), Owner(p));
    assert |Tally(t.net, Arrived) + Arrived(p)| == |Tally(s.net, Arrived)|;
    forall w ensures WorkerInPlace(t, w) {
      assert WorkerInPlace(s, w);
      assert One(w in t.exited) == Stop(p)[w] + One(w in s.exited);
      assert multiset(t.queue)[w] + One(w in t.exited) == Carrier(p)[w] + multiset(s.queue)[w] + One(w in s.exited);
      assert (Tally(t.net, Carrier) + Carrier(p))[w] == Tally(s.net, Carrier)[w];
      assert (Tally(t.net, Stop) + Stop(p))[w] == Tally(s.net, Stop)[w];
    }
    if t.phase == Killing {
      assert t.answered == cfg.clients;
    }
  }

  lemma AnnounceKeepsInv(cfg: Config, s: World, w: string)
    requires ValidConfig(cfg) && Inv(cfg, s) && Enabled(cfg, s, TakeReply)
    requires Head(s.net, Backend) == [w, "", "READY"]
    ensures Inv(cfg, Step(cfg, s, TakeReply))
  {
    var t := Step(cfg, s, TakeReply);
    assert t.net == Taken(s.net, Backend);
    DropKeepsInv(cfg, s, t, Backend, Packet(Backend, [w, "", "READY"]));
  }

  lemma ReceiveKeepsInv(cfg: Config, s: World, c: string)
    requires ValidConfig(cfg) && Inv(cfg, s) && Enabled(cfg, s, ClientReceive(c))
    ensures Inv(cfg, Step(cfg, s, ClientReceive(c)))
  {
    var t := Step(cfg, s, ClientReceive(c));
    assert t.net == Taken(s.net, ClientIn(c));
    assert s.started - s.answered == (t.started - t.answered) + {c};
    assert multiset((t.started - t.answered) + {c}) == multiset(t.started - t.answered) + multiset{c};
    DropKeepsInv(cfg, s, t, ClientIn(c), s.net[First(s.net, ClientIn(c))]);
  }

  /** A worker that finds a notice to stop has not stopped before. */
  lemma NoticeTokens(cfg: Config, s: World, w: string)
    requires Inv(cfg, s) && Enabled(cfg, s, WorkerExit(w))
    ensures var p := s.net[First(s.net, WorkerIn(w))];
      Carrier(p) == Stop(p) == multiset{w} && Owner(p) == Arrived(p) == multiset{}
    ensures w !in s.exited
  {
    HeadShaped(cfg, s, WorkerIn(w));
    TallyMember(s.net, Carrier, First(s.net, WorkerIn(w)), w);
    assert WorkerInPlace(s, w);
  }

  lemma ExitKeepsInv(cfg: Config, s: World, w: string)
    requires ValidConfig(cfg) && Inv(cfg, s) && Enabled(cfg, s, WorkerExit(w))
    ensures Inv(cfg, Step(cfg, s, WorkerExit(w)))
  {
    var t := Step(cfg, s, WorkerExit(w));
    var p := s.net[First(s.net, WorkerIn(w))];
    assert t.net == Taken(s.net, WorkerIn(w));
    NoticeTokens(cfg, s, w);
    DropKeepsInv(cfg, s, t, WorkerIn(w), p);
  }

  lemma AddKeepsInv(cfg: Config, s: World, t: World, q: Packet<Socket>)
    requires Inv(cfg, s) && t.net == s.net + [q] && Shaped(cfg, q) && !q.sock.ClientIn?
    requires s.started <= t.started <= cfg.clients && t.answered == s.answered
    requires t.countdown == s.countdown && t.phase == s.phase
    requires multiset(t.started - t.answered) == multiset(s.started - s.answered) + Owner(q)
    requires t.registered <= cfg.workers && t.exited == s.exited
    requires forall w :: Carrier(q)[w] + multiset(t.queue)[w] + One(w in s.registered)
                         == multiset(s.queue)[w] + One(w in t.registered)
    requires forall w :: multiset(t.notified)[w] == multiset(s.notified)[w] + Stop(q)[w]
    requires Fifo(t)
    ensures Inv(cfg, t)
  {
    TallyAppend(s.net, q, Owner);
    TallyAppend(s.net, q, Carrier);
    TallyAppend(s.net, q, Arrived);
    TallyAppend(s.net, q, Stop);
    assert Tally(t.net, Arrived) == Tally(s.net, Arrived);
    forall w ensures WorkerInPlace(t, w) {
      assert WorkerInPlace(s, w);
      assert Carrier(q)[w] + multiset(t.queue)[w] + One(w in s.registered)
             == multiset(s.queue)[w] + One(w in t.registered);
      assert multiset(t.notified)[w] == multiset(s.notified)[w] + Stop(q)[w];
    }
  }

  lemma SendKeepsInv(cfg: Config, s: World, c: string)
    requires ValidConfig(cfg) && Inv(cfg, s) && Enabled(cfg, s, ClientSend(c))
    ensures Inv(cfg, Step(cfg, s, ClientSend(c)))
  {
    var t := Step(cfg, s, ClientSend(c));
    assert t.started - t.answered == (s.started - s.answered) + {c};
    assert multiset((s.started - s.answered) + {c}) == multiset(s.started - s.answered) + multiset{c};
    AddKeepsInv(cfg, s, t, Packet(Frontend, [c, "", "HELLO"]));
  }

  lemma WorkerReadyKeepsInv(cfg: Config, s: World, w: string)
    requires ValidConfig(cfg) && Inv(cfg, s) && Enabled(cfg, s, WorkerReady(w))
    ensures Inv(cfg, Step(cfg, s, WorkerReady(w)))
  {
    var t := Step(cfg, s, WorkerReady(w));
    var q := Packet(Backend, [w, "", "READY"]);
    assert Owner(q) == multiset{} && Stop(q) == multiset{};
    AddKeepsInv(cfg, s, t, q);
  }

  lemma KillTokens(s: World, t: World, w: string)
    requires s.queue != [] && s.queue[0] == w && t.queue == s.queue[1..] && t.notified == s.notified + [w]
    requires s.dispatched + s.notified + s.queue == s.readied && t.dispatched == s.dispatched && t.readied == s.readied
    ensures multiset(s.queue) == multiset{w} + multiset(t.queue)
    ensures multiset(t.notified) == multiset(s.notified) + multiset{w}
    ensures t.dispatched + t.notified + t.queue == t.readied
  {
    assert s.queue == [w] + t.queue;
  }

  lemma KillKeepsInv(cfg: Config, s: World)
    requires ValidConfig(cfg) && Inv(cfg, s) && Enabled(cfg, s, Kill)
    ensures Inv(cfg, Step(cfg, s, Kill))
    ensures Output(cfg, s, Kill) == [Packet(WorkerIn(s.queue[0]), ["", "KILL"])]
  {
    QueuedWorker(cfg, s);
    var t, w := Step(cfg, s, Kill), s.queue[0];
    var q := Packet(WorkerIn(w), ["", "KILL"]);
    assert [w, "", "KILL"][1..] == q.msg;
    assert Output(cfg, s, Kill) == [q];
    KillTokens(s, t, w);
    assert Owner(q) == multiset{} && Carrier(q) == Stop(q) == multiset{w};
    AddKeepsInv(cfg, s, t, q);
  }

  lemma JoinKeepsInv(cfg: Config, s: World)
    requires ValidConfig(cfg) && Inv(cfg, s) && Enabled(cfg, s, Join)
    ensures Inv(cfg, Step(cfg, s, Join))
  {
    var t := Step(cfg, s, Join);
    assert t.net == s.net;
    forall w ensures WorkerInPlace(t, w) {
      assert WorkerInPlace(s, w);
    }
  }

  /** Every action of every component keeps the invariant. */
  lemma StepKeepsInv(cfg: Config, s: World, a: Action)
    requires ValidConfig(cfg) && Inv(cfg, s) && Enabled(cfg, s, a)
    ensures Inv(cfg, Step(cfg, s, a))
  {
    match a
    case ClientSend(c) => SendKeepsInv(cfg, s, c);
    case WorkerReady(w) => WorkerReadyKeepsInv(cfg, s, w);
    case TakeReply =>
      HeadShaped(cfg, s, Backend);
      var m := Head(s.net, Backend);
      if m[2] == "READY" {
        AnnounceKeepsInv(cfg, s, m[0]);
      } else {
        ReplyKeepsInv(cfg, s, m[0], m[2]);
      }
    case TakeRequest => RequestKeepsInv(cfg, s);
    case WorkerServe(w) => ServeKeepsInv(cfg, s, w);
    case ClientReceive(c) => ReceiveKeepsInv(cfg, s, c);
    case Join => JoinKeepsInv(cfg, s);
    case Kill => KillKeepsInv(cfg, s);
    case WorkerExit(w) => ExitKeepsInv(cfg, s, w);
  }

  lemma InitInv(cfg: Config)
    requires ValidConfig(cfg)
    ensures Inv(cfg, Init(cfg))
  {
  }

  lemma {:induction false} RunKeepsInv(cfg: Config, s: World, run: seq<Action>)
    requires ValidConfig(cfg) && Inv(cfg, s) && Feasible(cfg, s, run)
    ensures Inv(cfg, After(cfg, s, run))
    decreases |run|
  {
    if run == [] {
    } else {
      StepKeepsInv(cfg, s, run[0]);
      RunKeepsInv(cfg, Step(cfg, s, run[0]), run[1..]);
    }
  }

  lemma ReachableInv(cfg: Config, s: World)
    requires ValidConfig(cfg) && Reachable(cfg, s)
    ensures Inv(cfg, s)
  {
    var run :| Feasible(cfg, Init(cfg), run) && After(cfg, Init(cfg), run) == s;
    InitInv(cfg);
    RunKeepsInv(cfg, Init(cfg), run);
  }
}
