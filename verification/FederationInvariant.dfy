/**
  What every step of the federation keeps: the shape of each message in
  transit, and the conservation of clients' requests and of workers.
*/
module FederationInvariant {
  import opened Wrappers
  import opened Inboxes
  import opened Federation

  // ---------------------------------------------------------------- envelopes

  /** A body under a stack of identities and the empty delimiter. */
  function Envelope(stack: seq<string>, body: string): Message {
    stack + ["", body]
  }

  /** The identities a broker's worker sees in front of a request of client `k`. */
  function Stack(k: Key, at: string): seq<string> {
    if at == k.broker then [k.id] else [k.broker, k.id]
  }

  /** The client whose request or reply `p` carries, if any. */
  function Owner(p: Packet<Socket>): multiset<Key> {
    match p.sock
    case LocalFe(b) => if |p.msg| == 3 then multiset{Key(b, p.msg[0])} else multiset{}
    case CloudFe(_) => if |p.msg| == 4 then multiset{Key(p.msg[0], p.msg[1])} else multiset{}
    case WorkerIn(w) =>
      if |p.msg| == 4 then multiset{Key(w.broker, p.msg[1])}
      else if |p.msg| == 5 then multiset{Key(p.msg[1], p.msg[2])} else multiset{}
    case LocalBe(b) =>
      if |p.msg| == 5 then multiset{Key(b, p.msg[2])}
      else if |p.msg| == 6 then multiset{Key(p.msg[2], p.msg[3])} else multiset{}
    case CloudBe(b) => if |p.msg| == 4 then multiset{Key(b, p.msg[1])} else multiset{}
    case ClientIn(k) => multiset{k}
  }

  /** The worker that `p` is held by or comes from, if any. */
  function Carrier(p: Packet<Socket>): multiset<Key> {
    match p.sock
    case LocalBe(b) => if p.msg != [] then multiset{Key(b, p.msg[0])} else multiset{}
    case WorkerIn(w) => multiset{w}
    case _ => multiset{}
  }

  /** The exact frames of a message of client `k` at each socket of its journey. */
  ghost predicate Carries(cfg: Config, p: Packet<Socket>, k: Key) {
    && k in cfg.clients
    && match p.sock
       case LocalFe(b) => b == k.broker && p.msg == Envelope([k.id], "HELLO")
       case CloudFe(b) => Linked(cfg, k.broker, b) && p.msg == Envelope([k.broker, k.id], "HELLO")
       case WorkerIn(w) =>
         && w in cfg.workers && (w.broker == k.broker || Linked(cfg, k.broker, w.broker))
         && p.msg == [""] + Envelope(Stack(k, w.broker), "HELLO")
       case LocalBe(b) =>
         && p.msg != [] && Key(b, p.msg[0]) in cfg.workers && (b == k.broker || Linked(cfg, k.broker, b))
         && p.msg == [p.msg[0], ""] + Envelope(Stack(k, b), "OK")
       case CloudBe(b) =>
         && p.msg != [] && b == k.broker && Linked(cfg, b, p.msg[0])
         && p.msg == [p.msg[0]] + Envelope([k.id], "OK")
       case ClientIn(c) => c == k && p.msg == Envelope([], "OK")
  }

  /** A worker's announcement, which carries no request. */
  ghost predicate Announces(cfg: Config, p: Packet<Socket>) {
    p.sock.LocalBe? && p.msg != [] && Key(p.sock.b, p.msg[0]) in cfg.workers && p.msg == [p.msg[0], "", READY]
  }

  ghost predicate Shaped(cfg: Config, p: Packet<Socket>) {
    Announces(cfg, p) || exists k :: Carries(cfg, p, k)
  }

  ghost predicate AllShaped(cfg: Config, net: Net) {
    forall p :: p in net ==> Shaped(cfg, p)
  }

  lemma CarriesOwner(cfg: Config, p: Packet<Socket>, k: Key)
    requires Named(cfg) && Carries(cfg, p, k)
    ensures Owner(p) == multiset{k} && !Announces(cfg, p) && Readable(p.sock, p.msg)
  {
  }

  lemma AnnouncesOwner(cfg: Config, p: Packet<Socket>)
    requires Named(cfg) && Announces(cfg, p)
    ensures Owner(p) == multiset{} && Readable(p.sock, p.msg)
  {
  }

  // ---------------------------------------------------------------- the invariant

  /** How often worker `k` stands in its broker's deque. */
  function Slots(s: World, k: Key): nat {
    if k.broker in s.ready then multiset(s.ready[k.broker])[k.id] else 0
  }

  /** In how many places worker `k` is: messages it holds or has sent, and slots of its broker's deque. */
  ghost function Places(s: World, k: Key): nat {
    Tally(s.net, Carrier)[k] + Slots(s, k)
  }

  ghost predicate Inv(cfg: Config, s: World) {
    && s.ready.Keys == cfg.peers.Keys
    && s.waiting <= cfg.clients
    && s.registered <= cfg.workers
    && AllShaped(cfg, s.net)
    && Tally(s.net, Owner) == multiset(s.waiting)
    && (forall k :: Places(s, k) == if k in s.registered then 1 else 0)
  }

  /** Receiving `p` and sending `out` keeps the invariant when clients and workers are accounted for. */
  lemma RelayKeepsInv(cfg: Config, s: World, t: World, sock: Socket, p: Packet<Socket>, q: Packet<Socket>)
    requires Inv(cfg, s) && Pending(s.net, sock) && p == s.net[First(s.net, sock)]
    requires t.net == Taken(s.net, sock) + [q] && Shaped(cfg, q)
    requires t.ready.Keys == s.ready.Keys && t.waiting == s.waiting && t.registered == s.registered
    requires Owner(q) == Owner(p)
    requires forall k :: Carrier(q)[k] + Slots(t, k) == Carrier(p)[k] + Slots(s, k)
    ensures Inv(cfg, t)
  {
    TallyRemove(s.net, First(s.net, sock), Owner);
    TallyRemove(s.net, First(s.net, sock), Carrier);
    TallyAppend(Taken(s.net, sock), q, Owner);
    TallyAppend(Taken(s.net, sock), q, Carrier);
    forall k ensures Places(t, k) == Places(s, k) {
      assert Carrier(q)[k] + Slots(t, k) == Carrier(p)[k] + Slots(s, k);
    }
  }

  lemma DropKeepsInv(cfg: Config, s: World, t: World, sock: Socket, p: Packet<Socket>)
    requires Inv(cfg, s) && Pending(s.net, sock) && p == s.net[First(s.net, sock)]
    requires t.net == Taken(s.net, sock)
    requires t.ready.Keys == s.ready.Keys && t.registered == s.registered && t.waiting <= s.waiting
    requires multiset(t.waiting) + Owner(p) == multiset(s.waiting)
    requires forall k :: Slots(t, k) == Carrier(p)[k] + Slots(s, k)
    ensures Inv(cfg, t)
  {
    TallyRemove(s.net, First(s.net, sock), Owner);
    TallyRemove(s.net, First(s.net, sock), Carrier);
    forall k ensures Places(t, k) == Places(s, k) {
      assert Slots(t, k) == Carrier(p)[k] + Slots(s, k);
    }
    Cancel(Tally(t.net, Owner), multiset(t.waiting), Owner(p));
  }

  lemma AddKeepsInv(cfg: Config, s: World, t: World, q: Packet<Socket>)
    requires Inv(cfg, s) && t.net == s.net + [q] && Shaped(cfg, q) && t.ready == s.ready
    requires t.waiting <= cfg.clients && t.registered <= cfg.workers
    requires multiset(t.waiting) == multiset(s.waiting) + Owner(q)
    requires forall k :: (if k in t.registered then 1 else 0) == (if k in s.registered then 1 else 0) + Carrier(q)[k]
    ensures Inv(cfg, t)
  {
    TallyAppend(s.net, q, Owner);
    TallyAppend(s.net, q, Carrier);
    forall k ensures Places(t, k) == Places(s, k) + Carrier(q)[k] {
    }
  }

  lemma InitInv(cfg: Config)
    requires ValidConfig(cfg)
    ensures Inv(cfg, Init(cfg))
  {
  }

  lemma SendKeepsInv(cfg: Config, s: World, k: Key)
    requires ValidConfig(cfg) && Inv(cfg, s) && Enabled(cfg, s, ClientSend(k))
    ensures Inv(cfg, Step(cfg, s, ClientSend(k)))
  {
    var q := ReqSend(LocalFe(k.broker), k.id, ["HELLO"]);
    assert Carries(cfg, q, k);
    assert multiset(s.waiting + {k}) == multiset(s.waiting) + multiset{k};
    AddKeepsInv(cfg, s, Step(cfg, s, ClientSend(k)), q);
  }

  lemma WorkerReadyKeepsInv(cfg: Config, s: World, k: Key)
    requires ValidConfig(cfg) && Inv(cfg, s) && Enabled(cfg, s, WorkerReady(k))
    ensures Inv(cfg, Step(cfg, s, WorkerReady(k)))
  {
    var q := ReqSend(LocalBe(k.broker), k.id, [READY]);
    assert Announces(cfg, q);
    AddKeepsInv(cfg, s, Step(cfg, s, WorkerReady(k)), q);
  }

  /** What a broker sends for a reply is addressed to the client, directly or through its own broker. */
  lemma ReplyCarries(cfg: Config, b: string, k: Key) returns (q: Packet<Socket>)
    requires Named(cfg) && k in cfg.clients
    requires b == k.broker || (Linked(cfg, k.broker, b) && Linked(cfg, b, k.broker))
    ensures ReplyTo(cfg, b, Envelope(Stack(k, b), "OK")) == [q]
    ensures Carries(cfg, q, k) && Owner(q) == multiset{k} && Carrier(q) == multiset{}
    ensures q.sock == if b == k.broker then ClientIn(k) else CloudBe(k.broker)
  {
    var rep := Envelope(Stack(k, b), "OK");
    q := ReplyTo(cfg, b, rep)[0];
    if b == k.broker {
      assert rep[1..] == Envelope([], "OK");
    } else {
      assert [b] + rep[1..] == [b] + Envelope([k.id], "OK");
    }
    CarriesOwner(cfg, q, k);
  }

  lemma HeadCarries(cfg: Config, s: World, sock: Socket) returns (k: Key)
    requires Named(cfg) && AllShaped(cfg, s.net) && Pending(s.net, sock)
    requires !Announces(cfg, Packet(sock, Head(s.net, sock)))
    ensures Carries(cfg, Packet(sock, Head(s.net, sock)), k)
    ensures Owner(s.net[First(s.net, sock)]) == multiset{k}
  {
    var p := s.net[First(s.net, sock)];
    assert p == Packet(sock, Head(s.net, sock)) && p in s.net;
    k :| Carries(cfg, p, k);
    CarriesOwner(cfg, p, k);
  }

  lemma SlotPush(s: World, t: World, b: string, w: string)
    requires b in s.ready && t.ready == s.ready[b := s.ready[b] + [w]]
    ensures forall k :: Slots(t, k) == Slots(s, k) + multiset{Key(b, w)}[k]
  {
  }

  lemma SlotPop(s: World, t: World, b: string)
    requires b in s.ready && s.ready[b] != [] && t.ready == s.ready[b := s.ready[b][1..]]
    ensures forall k :: Slots(s, k) == Slots(t, k) + multiset{Key(b, s.ready[b][0])}[k]
  {
    assert s.ready[b] == [s.ready[b][0]] + s.ready[b][1..];
  }

  lemma ReplyFrames(m: Message, k: Key, b: string)
    requires m != [] && m == [m[0], ""] + Envelope(Stack(k, b), "OK")
    ensures m[2..] == Envelope(Stack(k, b), "OK")
    ensures m[2] == Stack(k, b)[0]
  {
  }

  lemma ReplyKeepsInv(cfg: Config, s: World, b: string, k: Key)
    requires ValidConfig(cfg) && Inv(cfg, s) && Enabled(cfg, s, LocalBackend(b))
    requires Carries(cfg, Packet(LocalBe(b), Head(s.net, LocalBe(b))), k)
    ensures Inv(cfg, Step(cfg, s, LocalBackend(b)))
  {
    var m := Head(s.net, LocalBe(b));
    var t := Step(cfg, s, LocalBackend(b));
    ReplyFrames(m, k, b);
    var q := ReplyCarries(cfg, b, k);
    assert t.net == Taken(s.net, LocalBe(b)) + [q];
    assert t.ready == s.ready[b := s.ready[b] + [m[0]]];
    SlotPush(s, t, b, m[0]);
    CarriesOwner(cfg, Packet(LocalBe(b), m), k);
    assert Carrier(Packet(LocalBe(b), m)) == multiset{Key(b, m[0])};
    RelayKeepsInv(cfg, s, t, LocalBe(b), Packet(LocalBe(b), m), q);
  }

  lemma LocalBackendKeepsInv(cfg: Config, s: World, b: string)
    requires ValidConfig(cfg) && Inv(cfg, s) && Enabled(cfg, s, LocalBackend(b))
    ensures Inv(cfg, Step(cfg, s, LocalBackend(b)))
  {
    var p := s.net[First(s.net, LocalBe(b))];
    var t := Step(cfg, s, LocalBackend(b));
    if Announces(cfg, p) {
      SlotPush(s, t, b, p.msg[0]);
      assert t.net == Taken(s.net, LocalBe(b));
      DropKeepsInv(cfg, s, t, LocalBe(b), p);
    } else {
      var k := HeadCarries(cfg, s, LocalBe(b));
      ReplyKeepsInv(cfg, s, b, k);
    }
  }

  lemma CloudBackendKeepsInv(cfg: Config, s: World, b: string)
    requires ValidConfig(cfg) && Inv(cfg, s) && Enabled(cfg, s, CloudBackend(b))
    ensures Inv(cfg, Step(cfg, s, CloudBackend(b)))
  {
    var p := s.net[First(s.net, CloudBe(b))];
    var k := HeadCarries(cfg, s, CloudBe(b));
    assert p.msg[1..] == Envelope(Stack(k, b), "OK");
    var q := ReplyCarries(cfg, b, k);
    RelayKeepsInv(cfg, s, Step(cfg, s, CloudBackend(b)), CloudBe(b), p, q);
  }

  lemma ReadyWorker(cfg: Config, s: World, b: string)
    requires Inv(cfg, s) && b in s.ready && s.ready[b] != []
    ensures Key(b, s.ready[b][0]) in s.registered
  {
    assert s.ready[b][0] in multiset(s.ready[b]);
    assert Places(s, Key(b, s.ready[b][0])) > 0;
  }

  /** The front of a broker's deque is one of its workers, and dispatching moves that worker from the deque. */
  lemma DispatchKeepsInv(cfg: Config, s: World, b: string, sock: Socket, k: Key, t: World)
    requires ValidConfig(cfg) && Inv(cfg, s) && b in s.ready && s.ready[b] != []
    requires sock == CloudFe(b) || sock == LocalFe(b)
    requires Pending(s.net, sock) && Carries(cfg, Packet(sock, Head(s.net, sock)), k)
    requires t == s.(net := Taken(s.net, sock) + Dispatch(cfg, b, s.ready[b][0], Head(s.net, sock)),
                     ready := s.ready[b := s.ready[b][1..]])
    ensures Inv(cfg, t)
    ensures t.net == Taken(s.net, sock) + [Packet(WorkerIn(Key(b, s.ready[b][0])), [""] + Head(s.net, sock))]
  {
    var w, m := s.ready[b][0], Head(s.net, sock);
    ReadyWorker(cfg, s, b);
    var q := Packet(WorkerIn(Key(b, w)), [""] + m);
    assert ([w, ""] + m)[1..] == q.msg;
    assert Dispatch(cfg, b, w, m) == [q];
    HandedToWorker(cfg, Packet(sock, m), q, Key(b, w), k);
    SlotPop(s, t, b);
    RelayKeepsInv(cfg, s, t, sock, Packet(sock, m), q);
  }

  /** A request given to a worker, under an empty delimiter, is in the envelope of its place. */
  lemma HandedToWorker(cfg: Config, p: Packet<Socket>, q: Packet<Socket>, w: Key, k: Key)
    requires Named(cfg) && w in cfg.workers && (p.sock == CloudFe(w.broker) || p.sock == LocalFe(w.broker))
    requires Carries(cfg, p, k) && q == Packet(WorkerIn(w), [""] + p.msg)
    ensures Carries(cfg, q, k) && Owner(q) == Owner(p)
    ensures Carrier(q) == multiset{w} && Carrier(p) == multiset{}
  {
    CarriesOwner(cfg, q, k);
    CarriesOwner(cfg, p, k);
  }

  lemma RerouteKeepsInv(cfg: Config, s: World, b: string, peer: string)
    requires ValidConfig(cfg) && Inv(cfg, s) && Enabled(cfg, s, LocalRequest(b, Some(peer)))
    ensures Inv(cfg, Step(cfg, s, LocalRequest(b, Some(peer))))
  {
    var sock := LocalFe(b);
    var k := HeadCarries(cfg, s, sock);
    var m := [peer] + Head(s.net, sock);
    var q := Packet(CloudFe(peer), [b] + m[1..]);
    assert RouterSend(cfg, CloudBe(b), m) == [q];
    HandedToPeer(cfg, s.net[First(s.net, sock)], q, b, peer, k);
    RelayKeepsInv(cfg, s, Step(cfg, s, LocalRequest(b, Some(peer))), sock, s.net[First(s.net, sock)], q);
  }

  /** A local request sent to a peer, under this broker's name, is in the envelope of its place. */
  lemma HandedToPeer(cfg: Config, p: Packet<Socket>, q: Packet<Socket>, b: string, peer: string, k: Key)
    requires Named(cfg) && Linked(cfg, b, peer) && p.sock == LocalFe(b) && Carries(cfg, p, k)
    requires q == Packet(CloudFe(peer), [b] + p.msg)
    ensures Carries(cfg, q, k) && Owner(q) == Owner(p) && Carrier(q) == Carrier(p) == multiset{}
  {
    assert q.msg == Envelope([k.broker, k.id], "HELLO");
    CarriesOwner(cfg, q, k);
    CarriesOwner(cfg, p, k);
  }

  lemma RequestKeepsInv(cfg: Config, s: World, a: Action)
    requires ValidConfig(cfg) && Inv(cfg, s) && Enabled(cfg, s, a) && (a.CloudRequest? || a.LocalRequest?)
    ensures Inv(cfg, Step(cfg, s, a))
  {
    match a
    case CloudRequest(b) =>
      var k := HeadCarries(cfg, s, CloudFe(b));
      DispatchKeepsInv(cfg, s, b, CloudFe(b), k, Step(cfg, s, a));
    case LocalRequest(b, None) =>
      var k := HeadCarries(cfg, s, LocalFe(b));
      DispatchKeepsInv(cfg, s, b, LocalFe(b), k, Step(cfg, s, a));
    case LocalRequest(b, Some(peer)) =>
      RerouteKeepsInv(cfg, s, b, peer);
  }

  /** A worker's answer goes back to its own broker, with OK under the very stack that its request came with. */
  lemma ServeKeepsInv(cfg: Config, s: World, w: Key) returns (k: Key)
    requires ValidConfig(cfg) && Inv(cfg, s) && Enabled(cfg, s, WorkerServe(w))
    ensures Inv(cfg, Step(cfg, s, WorkerServe(w)))
    ensures k in cfg.clients && Head(s.net, WorkerIn(w)) == [""] + Envelope(Stack(k, w.broker), "HELLO")
    ensures Output(cfg, s, WorkerServe(w))
         == [Packet(LocalBe(w.broker), [w.id, ""] + Envelope(Stack(k, w.broker), "OK"))]
  {
    k := HeadCarries(cfg, s, WorkerIn(w));
    var frames := ReqReceive(Head(s.net, WorkerIn(w)));
    var q := ReqSend(LocalBe(w.broker), w.id, frames[|frames| - 1 := "OK"]);
    var p := s.net[First(s.net, WorkerIn(w))];
    ServedByWorker(cfg, p, q, w, k);
    RelayKeepsInv(cfg, s, Step(cfg, s, WorkerServe(w)), WorkerIn(w), p, q);
  }

  /** A worker's answer is in the envelope of its place: the frames it was given, with OK for the last. */
  lemma ServedByWorker(cfg: Config, p: Packet<Socket>, q: Packet<Socket>, w: Key, k: Key)
    requires Named(cfg) && p.sock == WorkerIn(w) && Carries(cfg, p, k) && Readable(p.sock, p.msg)
    requires var frames := ReqReceive(p.msg); q == ReqSend(LocalBe(w.broker), w.id, frames[|frames| - 1 := "OK"])
    ensures p.msg == [""] + Envelope(Stack(k, w.broker), "HELLO")
    ensures q == Packet(LocalBe(w.broker), [w.id, ""] + Envelope(Stack(k, w.broker), "OK"))
    ensures Carries(cfg, q, k) && Owner(q) == Owner(p) && Carrier(q) == Carrier(p)
  {
    var frames := ReqReceive(p.msg);
    assert frames == Envelope(Stack(k, w.broker), "HELLO");
    assert frames[|frames| - 1 := "OK"] == Envelope(Stack(k, w.broker), "OK");
    CarriesOwner(cfg, p, k);
    CarriesOwner(cfg, q, k);
  }

  lemma ReceiveKeepsInv(cfg: Config, s: World, k: Key)
    requires ValidConfig(cfg) && Inv(cfg, s) && Enabled(cfg, s, ClientReceive(k))
    ensures Inv(cfg, Step(cfg, s, ClientReceive(k)))
  {
    var p := s.net[First(s.net, ClientIn(k))];
    assert multiset(s.waiting - {k}) + multiset{k} == multiset(s.waiting);
    DropKeepsInv(cfg, s, Step(cfg, s, ClientReceive(k)), ClientIn(k), p);
  }

  /** Every action of every component keeps the invariant. */
  lemma StepKeepsInv(cfg: Config, s: World, a: Action)
    requires ValidConfig(cfg) && Inv(cfg, s) && Enabled(cfg, s, a)
    ensures Inv(cfg, Step(cfg, s, a))
  {
    match a
    case ClientSend(k) => SendKeepsInv(cfg, s, k);
    case WorkerReady(k) => WorkerReadyKeepsInv(cfg, s, k);
    case LocalBackend(b) => LocalBackendKeepsInv(cfg, s, b);
    case CloudBackend(b) => CloudBackendKeepsInv(cfg, s, b);
    case CloudRequest(_) => RequestKeepsInv(cfg, s, a);
    case LocalRequest(_, _) => RequestKeepsInv(cfg, s, a);
    case WorkerServe(w) => var k := ServeKeepsInv(cfg, s, w);
    case ClientReceive(k) => ReceiveKeepsInv(cfg, s, k);
  }

  lemma {:induction false} RunKeepsInv(cfg: Config, s: World, run: seq<Action>)
    requires ValidConfig(cfg) && Inv(cfg, s) && Feasible(cfg, s, run)
    ensures Inv(cfg, After(cfg, s, run))
    decreases |run|
  {
    if run == [] {
    } else {
      StepKeepsInv(cfg, s, run[0]);
      RunKeepsInv(cfg, Step(cfg, s, run[0]), run[1..]);
    }
  }

  lemma ReachableInv(cfg: Config, s: World)
    requires ValidConfig(cfg) && Reachable(cfg, s)
    ensures Inv(cfg, s)
  {
    var run :| Feasible(cfg, Init(cfg), run) && After(cfg, Init(cfg), run) == s;
    InitInv(cfg);
    RunKeepsInv(cfg, Init(cfg), run);
  }
}
