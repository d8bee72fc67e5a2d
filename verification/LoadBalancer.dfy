/**
  The load-balancing broker with shutdown: any number of clients that each ask
  once, any number of workers, a broker that counts down the replies, and then
  a loop that tells the queued workers to stop.
*/
module LoadBalancer {
  import opened Wrappers
  import opened Inboxes

  datatype Socket = Frontend | Backend | WorkerIn(w: string) | ClientIn(c: string)

  type Net = seq<Packet<Socket>>

  /** A client's identity must not read as a word of the protocol. */
  datatype Config = Config(clients: set<string>, workers: set<string>)

  predicate ValidConfig(cfg: Config) {
    cfg.clients != {} && "READY" !in cfg.clients && "KILL" !in cfg.clients
  }

  /** The main loop; waiting for the clients to finish; the loop that stops the workers. */
  datatype Phase = Serving | Joining | Killing

  /** `readied`, `dispatched` and `notified` record the workers queued, given a request, and told to stop. */
  datatype World = World(
    net: Net,
    queue: seq<string>,
    countdown: int,
    phase: Phase,
    started: set<string>,
    answered: set<string>,
    registered: set<string>,
    exited: set<string>,
    readied: seq<string>,
    dispatched: seq<string>,
    notified: seq<string>)

  function Init(cfg: Config): World {
    World([], [], |cfg.clients|, Serving, {}, {}, {}, {}, [], [], [])
  }

  datatype Action =
    | ClientSend(c: string)
    | WorkerReady(w: string)
    | TakeReply
    | TakeRequest
    | WorkerServe(w: string)
    | ClientReceive(c: string)
    | Join
    | Kill
    | WorkerExit(w: string)

  /** The two routers of the broker: the first frame names a connection, or the message is dropped. */
  function RouterSend(cfg: Config, from: Socket, m: Message): (out: Net)
    requires m != []
    ensures |out| <= 1
  {
    match from
    case Frontend => if m[0] in cfg.clients then [Packet(ClientIn(m[0]), m[1..])] else []
    case Backend => if m[0] in cfg.workers then [Packet(WorkerIn(m[0]), m[1..])] else []
    case _ => []
  }

  /** Frames that the receiver takes apart without failing an assertion or running into the next message. */
  predicate Readable(sock: Socket, m: Message) {
    match sock
    case Backend => |m| >= 3 && m[1] == "" && (if m[2] == "READY" then |m| == 3 else |m| == 5 && m[3] == "")
    case Frontend => |m| == 3 && m[1] == ""
    case WorkerIn(_) => |m| >= 2 && m[0] == "" && (if m[1] == "KILL" then |m| == 2 else |m| == 4 && m[2] == "")
    case ClientIn(_) => |m| == 2 && m[0] == ""
  }

  predicate CanReceive(s: World, sock: Socket) {
    Pending(s.net, sock) && Readable(sock, Head(s.net, sock))
  }

  predicate Enabled(cfg: Config, s: World, a: Action) {
    match a
    case ClientSend(c) => c in cfg.clients && c !in s.started
    case WorkerReady(w) => w in cfg.workers && w !in s.registered
    case TakeReply => s.phase == Serving && CanReceive(s, Backend)
    case TakeRequest => s.phase == Serving && s.queue != [] && CanReceive(s, Frontend)
    case WorkerServe(w) => CanReceive(s, WorkerIn(w)) && Head(s.net, WorkerIn(w))[1] != "KILL"
    case ClientReceive(c) => c in s.started && c !in s.answered && CanReceive(s, ClientIn(c))
    case Join => s.phase == Joining && s.answered == cfg.clients
    case Kill => s.phase == Killing && s.queue != []
    case WorkerExit(w) => CanReceive(s, WorkerIn(w)) && Head(s.net, WorkerIn(w))[1] == "KILL"
  }

  function Source(a: Action): Option<Socket> {
    match a
    case TakeReply => Some(Backend)
    case TakeRequest => Some(Frontend)
    case WorkerServe(w) => Some(WorkerIn(w))
    case WorkerExit(w) => Some(WorkerIn(w))
    case ClientReceive(c) => Some(ClientIn(c))
    case _ => None
  }

  function Output(cfg: Config, s: World, a: Action): (out: Net)
    requires Enabled(cfg, s, a)
    ensures |out| <= 1
  {
    match a
    case ClientSend(c) => [Packet(Frontend, [c, "", "HELLO"])]
    case WorkerReady(w) => [Packet(Backend, [w, "", "READY"])]
    case TakeReply =>
      var m := Head(s.net, Backend);
      if m[2] == "READY" then [] else RouterSend(cfg, Frontend, [m[2], "", m[4]])
    case TakeRequest =>
      var m := Head(s.net, Frontend);
      RouterSend(cfg, Backend, [s.queue[0], "", m[0], "", m[2]])
    case WorkerServe(w) => [Packet(Backend, [w, "", Head(s.net, WorkerIn(w))[1], "", "OK"])]
    case Kill => RouterSend(cfg, Backend, [s.queue[0], "", "KILL"])
    case _ => []
  }

  function NetAfter(cfg: Config, s: World, a: Action): Net
    requires Enabled(cfg, s, a)
  {
    (if Source(a).Some? then Taken(s.net, Source(a).value) else s.net) + Output(cfg, s, a)
  }

  function Step(cfg: Config, s: World, a: Action): World
    requires Enabled(cfg, s, a)
  {
    var t := s.(net := NetAfter(cfg, s, a));
    match a
    case ClientSend(c) => t.(started := s.started + {c})
    case WorkerReady(w) => t.(registered := s.registered + {w})
    case TakeReply =>
      var m := Head(s.net, Backend);
      var u := t.(queue := s.queue + [m[0]], readied := s.readied + [m[0]]);
      if m[2] == "READY" then u
      else u.(countdown := s.countdown - 1, phase := if s.countdown - 1 == 0 then Joining else Serving)
    case TakeRequest => t.(queue := s.queue[1..], dispatched := s.dispatched + [s.queue[0]])
    case ClientReceive(c) => t.(answered := s.answered + {c})
    case Join => t.(phase := Killing)
    case Kill => t.(queue := s.queue[1..], notified := s.notified + [s.queue[0]])
    case WorkerExit(w) => t.(exited := s.exited + {w})
    case WorkerServe(_) => t
  }

  predicate Feasible(cfg: Config, s: World, run: seq<Action>)
    decreases |run|
  {
    run == [] || (Enabled(cfg, s, run[0]) && Feasible(cfg, Step(cfg, s, run[0]), run[1..]))
  }

  function After(cfg: Config, s: World, run: seq<Action>): World
    requires Feasible(cfg, s, run)
    decreases |run|
  {
    if run == [] then s else After(cfg, Step(cfg, s, run[0]), run[1..])
  }

  ghost predicate Reachable(cfg: Config, s: World) {
    exists run :: Feasible(cfg, Init(cfg), run) && After(cfg, Init(cfg), run) == s
  }

  // ---------------------------------------------------------------- the invariant

  /** The client whose request or reply `p` is. */
  function Owner(p: Packet<Socket>): multiset<string> {
    match p.sock
    case Frontend => if |p.msg| == 3 then multiset{p.msg[0]} else multiset{}
    case WorkerIn(_) => if |p.msg| == 4 then multiset{p.msg[1]} else multiset{}
    case Backend => if |p.msg| == 5 then multiset{p.msg[2]} else multiset{}
    case ClientIn(c) => multiset{c}
  }

  /** The worker that `p` is held by or comes from. */
  function Carrier(p: Packet<Socket>): multiset<string> {
    match p.sock
    case Backend => if p.msg != [] then multiset{p.msg[0]} else multiset{}
    case WorkerIn(w) => multiset{w}
    case _ => multiset{}
  }

  /** The client at whose socket the reply `p` has arrived. */
  function Arrived(p: Packet<Socket>): multiset<string> {
    if p.sock.ClientIn? then multiset{p.sock.c} else multiset{}
  }

  /** The worker that `p` tells to stop. */
  function Stop(p: Packet<Socket>): multiset<string> {
    if p.sock.WorkerIn? && |p.msg| == 2 then multiset{p.sock.w} else multiset{}
  }

  ghost predicate Shaped(cfg: Config, p: Packet<Socket>) {
    match p.sock
    case Frontend => |p.msg| == 3 && p.msg == [p.msg[0], "", "HELLO"] && p.msg[0] in cfg.clients
    case WorkerIn(w) =>
      && w in cfg.workers
      && (p.msg == ["", "KILL"] || (|p.msg| == 4 && p.msg == ["", p.msg[1], "", "HELLO"] && p.msg[1] in cfg.clients))
    case Backend =>
      && |p.msg| >= 3 && p.msg[0] in cfg.workers
      && (p.msg == [p.msg[0], "", "READY"]
          || (|p.msg| == 5 && p.msg == [p.msg[0], "", p.msg[2], "", "OK"] && p.msg[2] in cfg.clients))
    case ClientIn(c) => c in cfg.clients && p.msg == ["", "OK"]
  }

  function One(b: bool): nat {
    if b then 1 else 0
  }

  ghost predicate Clients(cfg: Config, s: World) {
    && s.started <= cfg.clients && s.answered <= s.started
    && Tally(s.net, Owner) == multiset(s.started - s.answered)
    && |Tally(s.net, Arrived)| + |s.answered| + s.countdown == |cfg.clients|
    && s.countdown >= 0
    && (s.phase == Serving <==> s.countdown > 0)
    && (s.phase == Killing ==> s.answered == cfg.clients)
  }

  ghost predicate WorkerInPlace(s: World, w: string) {
    && Tally(s.net, Carrier)[w] + multiset(s.queue)[w] + One(w in s.exited) == One(w in s.registered)
    && Tally(s.net, Stop)[w] + One(w in s.exited) == multiset(s.notified)[w]
  }

  ghost predicate Workers(cfg: Config, s: World) {
    && s.registered <= cfg.workers
    && (forall w :: WorkerInPlace(s, w))
  }

  /**
    Dispatch and shutdown are first in, first out: who was taken from the queue,
    then who is in it, is who was put in.
  */
  ghost predicate Fifo(s: World) {
    && s.dispatched + s.notified + s.queue == s.readied
    && (s.phase != Killing ==> s.notified == [])
  }

  ghost predicate Inv(cfg: Config, s: World) {
    && (forall p :: p in s.net ==> Shaped(cfg, p))
    && Clients(cfg, s) && Workers(cfg, s) && Fifo(s)
  }
}
