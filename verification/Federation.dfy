/**
  The federation of brokers: every broker has local clients and local workers
  and is connected to peer brokers.  A step of one broker, worker or client is
  an `Action`; a run is a sequence of actions, in any interleaving.
*/
module Federation {
  import opened Wrappers
  import opened Inboxes

  /** Clients and workers are known by the identity their own broker's socket gives them. */
  datatype Key = Key(broker: string, id: string)

  /** The four router sockets of a broker, and the request sockets of its workers and clients. */
  datatype Socket =
    | LocalFe(b: string) | LocalBe(b: string)
    | CloudFe(b: string) | CloudBe(b: string)
    | WorkerIn(k: Key) | ClientIn(k: Key)

  type Net = seq<Packet<Socket>>

  const READY := "\U{1}"

  datatype Config = Config(peers: map<string, seq<string>>, clients: set<Key>, workers: set<Key>)

  /** Broker `b` was started with `p` among its peers. */
  predicate Linked(cfg: Config, b: string, p: string) {
    b in cfg.peers && p in cfg.peers[b]
  }

  /**
    No identity is mistaken for another kind of frame.  A client does not have
    the name of a peer of its broker, nor of a client's broker that its own is a
    peer of; and a broker with clients is not its own peer.
  */
  ghost predicate Named(cfg: Config) {
    && (forall k :: k in cfg.clients ==>
          && k.broker in cfg.peers && k.broker != READY && k.id != READY
          && !Linked(cfg, k.broker, k.id) && !Linked(cfg, k.broker, k.broker))
    && (forall k, c :: k in cfg.clients && c in cfg.clients && Linked(cfg, c.broker, k.broker) ==> k.id != c.broker)
    && (forall k :: k in cfg.workers ==> k.broker in cfg.peers && k.id != "")
  }

  /** The peers of a broker with clients name that broker in turn. */
  ghost predicate Mutual(cfg: Config) {
    forall k, p :: k in cfg.clients && Linked(cfg, k.broker, p) ==> Linked(cfg, p, k.broker)
  }

  ghost predicate ValidConfig(cfg: Config) {
    Named(cfg) && Mutual(cfg)
  }

  ghost predicate Staffed(cfg: Config, b: string) {
    exists k :: k in cfg.workers && k.broker == b
  }

  /** The request of client `k` may be handed to a worker of broker `b`: its own broker, or a peer of that. */
  predicate InReach(cfg: Config, k: Key, b: string) {
    k in cfg.clients && (b == k.broker || Linked(cfg, k.broker, b))
  }

  /** Every broker that some request may come to has a worker. */
  ghost predicate WorkersInReach(cfg: Config) {
    forall k, b :: InReach(cfg, k, b) ==> Staffed(cfg, b)
  }

  /**
    `ready` holds each broker's deque of ready workers, `waiting` the clients
    that have sent and not yet received, `registered` the workers that have
    announced themselves.
  */
  datatype World = World(net: Net, ready: map<string, seq<string>>, waiting: set<Key>, registered: set<Key>)

  function Init(cfg: Config): World {
    World([], map b | b in cfg.peers :: [], {}, {})
  }

  datatype Action =
    | ClientSend(k: Key)
    | WorkerReady(k: Key)
    | LocalBackend(b: string)
    | CloudBackend(b: string)
    | CloudRequest(b: string)
    | LocalRequest(b: string, reroute: Option<string>)
    | WorkerServe(k: Key)
    | ClientReceive(k: Key)

  // ---------------------------------------------------------------- sockets

  /**
    A router socket strips the first frame and delivers the rest to the
    connection of that identity, or drops the message if there is none.  A
    router at the other end sees the sender's identity in front.
  */
  function RouterSend(cfg: Config, from: Socket, m: Message): (out: Net)
    requires m != []
    ensures |out| <= 1
  {
    match from
    case LocalFe(b) => if Key(b, m[0]) in cfg.clients then [Packet(ClientIn(Key(b, m[0])), m[1..])] else []
    case LocalBe(b) => if Key(b, m[0]) in cfg.workers then [Packet(WorkerIn(Key(b, m[0])), m[1..])] else []
    case CloudBe(b) =>
      if Linked(cfg, b, m[0]) then [Packet(CloudFe(m[0]), [b] + m[1..])] else []
    case CloudFe(b) =>
      if Linked(cfg, m[0], b) then [Packet(CloudBe(m[0]), [b] + m[1..])] else []
    case _ => []
  }

  /** A request socket puts an empty delimiter in front; the broker's router adds the identity. */
  function ReqSend(to: Socket, id: string, frames: Message): Packet<Socket> {
    Packet(to, [id, ""] + frames)
  }

  /** What a request socket hands to its owner: the frames after the empty delimiter. */
  function ReqReceive(m: Message): Message
    requires |m| >= 2 && m[0] == ""
  {
    m[1..]
  }

  // ---------------------------------------------------------------- one action

  /** Where a broker sends the frames of a reply. */
  function ReplyTo(cfg: Config, b: string, rep: Message): (out: Net)
    requires rep != []
    ensures |out| <= 1
  {
    RouterSend(cfg, if Linked(cfg, b, rep[0]) then CloudFe(b) else LocalFe(b), rep)
  }

  /** A request handed to a ready worker. */
  function Dispatch(cfg: Config, b: string, worker: string, req: Message): (out: Net)
    ensures |out| <= 1
  {
    RouterSend(cfg, LocalBe(b), [worker, ""] + req)
  }

  /** Frames that the receiving code can take apart: its assertions hold and no deque is popped empty. */
  predicate Readable(sock: Socket, m: Message) {
    match sock
    case LocalBe(_) => |m| >= 3 && m[0] != "" && m[1] == ""
    case CloudBe(_) => |m| >= 2
    case WorkerIn(_) => |m| >= 2 && m[0] == ""
    case ClientIn(_) => |m| >= 2 && m[0] == ""
    case _ => true
  }

  predicate CanReceive(s: World, sock: Socket) {
    Pending(s.net, sock) && Readable(sock, Head(s.net, sock))
  }

  predicate Enabled(cfg: Config, s: World, a: Action) {
    match a
    case ClientSend(k) => k in cfg.clients && k !in s.waiting
    case WorkerReady(k) => k in cfg.workers && k !in s.registered
    case LocalBackend(b) => b in cfg.peers && b in s.ready && CanReceive(s, LocalBe(b))
    case CloudBackend(b) =>
      b in cfg.peers && !Pending(s.net, LocalBe(b)) && CanReceive(s, CloudBe(b))
    case CloudRequest(b) => b in s.ready && s.ready[b] != [] && CanReceive(s, CloudFe(b))
    case LocalRequest(b, reroute) =>
      && b in cfg.peers && b in s.ready && s.ready[b] != []
      && !Pending(s.net, CloudFe(b)) && CanReceive(s, LocalFe(b))
      && (reroute.Some? ==> Linked(cfg, b, reroute.value))
    case WorkerServe(k) => CanReceive(s, WorkerIn(k))
    case ClientReceive(k) => k in s.waiting && CanReceive(s, ClientIn(k))
  }

  /** The socket an action receives from. */
  function Source(a: Action): Option<Socket> {
    match a
    case ClientSend(_) => None
    case WorkerReady(_) => None
    case LocalBackend(b) => Some(LocalBe(b))
    case CloudBackend(b) => Some(CloudBe(b))
    case CloudRequest(b) => Some(CloudFe(b))
    case LocalRequest(b, _) => Some(LocalFe(b))
    case WorkerServe(k) => Some(WorkerIn(k))
    case ClientReceive(k) => Some(ClientIn(k))
  }

  /** What an action sends. */
  function Output(cfg: Config, s: World, a: Action): (out: Net)
    requires Enabled(cfg, s, a)
    ensures |out| <= 1
  {
    match a
    case ClientSend(k) => [ReqSend(LocalFe(k.broker), k.id, ["HELLO"])]
    case WorkerReady(k) => [ReqSend(LocalBe(k.broker), k.id, [READY])]
    case LocalBackend(b) =>
      var m := Head(s.net, LocalBe(b));
      if m[2] == READY then [] else ReplyTo(cfg, b, m[2..])
    case CloudBackend(b) => ReplyTo(cfg, b, Head(s.net, CloudBe(b))[1..])
    case CloudRequest(b) => Dispatch(cfg, b, s.ready[b][0], Head(s.net, CloudFe(b)))
    case LocalRequest(b, None) => Dispatch(cfg, b, s.ready[b][0], Head(s.net, LocalFe(b)))
    case LocalRequest(b, Some(p)) => RouterSend(cfg, CloudBe(b), [p] + Head(s.net, LocalFe(b)))
    case WorkerServe(k) =>
      var frames := ReqReceive(Head(s.net, WorkerIn(k)));
      [ReqSend(LocalBe(k.broker), k.id, frames[|frames| - 1 := "OK"])]
    case ClientReceive(_) => []
  }

  function Step(cfg: Config, s: World, a: Action): World
    requires Enabled(cfg, s, a)
  {
    var net := (if Source(a).Some? then Taken(s.net, Source(a).value) else s.net) + Output(cfg, s, a);
    match a
    case ClientSend(k) => s.(net := net, waiting := s.waiting + {k})
    case WorkerReady(k) => s.(net := net, registered := s.registered + {k})
    case LocalBackend(b) => s.(net := net, ready := s.ready[b := s.ready[b] + [Head(s.net, LocalBe(b))[0]]])
    case CloudRequest(b) => s.(net := net, ready := s.ready[b := s.ready[b][1..]])
    case LocalRequest(b, None) => s.(net := net, ready := s.ready[b := s.ready[b][1..]])
    case ClientReceive(k) => s.(net := net, waiting := s.waiting - {k})
    case _ => s.(net := net)
  }

  // ---------------------------------------------------------------- runs

  predicate Feasible(cfg: Config, s: World, run: seq<Action>)
    decreases |run|
  {
    run == [] || (Enabled(cfg, s, run[0]) && Feasible(cfg, Step(cfg, s, run[0]), run[1..]))
  }

  function After(cfg: Config, s: World, run: seq<Action>): World
    requires Feasible(cfg, s, run)
    decreases |run|
  {
    if run == [] then s else After(cfg, Step(cfg, s, run[0]), run[1..])
  }

  /** The number of occurrences of `a` in `run`. */
  function Times(run: seq<Action>, a: Action): nat {
    multiset(run)[a]
  }

  ghost predicate Reachable(cfg: Config, s: World) {
    exists run :: Feasible(cfg, Init(cfg), run) && After(cfg, Init(cfg), run) == s
  }
}
