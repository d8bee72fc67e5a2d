/** The main loop and the kill loop of the load-balancing broker, proved to be runs of the whole system. */
module LoadBalancerBroker {
  import opened Wrappers
  import opened Inboxes
  import opened LoadBalancer
  import opened LoadBalancerInvariant
  import opened LoadBalancerTheorems

  /** Nothing in `run` is done by the broker. */
  ghost predicate OfOthers(run: seq<Action>) {
    forall a :: a in run ==> !a.TakeReply? && !a.TakeRequest? && !a.Join? && !a.Kill?
  }

  /** `s` after `run`, or `s` itself if that run cannot be. */
  ghost function Elapse(cfg: Config, s: World, run: seq<Action>): World {
    if Feasible(cfg, s, run) then After(cfg, s, run) else s
  }

  /** What the broker sees of `t` is as in `s`, but that more may have arrived. */
  ghost predicate AsBefore(s: World, t: World) {
    && t.dispatched == s.dispatched && t.queue == s.queue && t.countdown == s.countdown && t.phase == s.phase
    && (Pending(s.net, Frontend) ==> Pending(t.net, Frontend))
  }

  lemma OtherStep(cfg: Config, s: World, a: Action)
    requires Enabled(cfg, s, a) && OfOthers([a])
    ensures AsBefore(s, Step(cfg, s, a))
  {
    assert a in [a];
    if Pending(s.net, Frontend) {
      FrontendStays(cfg, s, a);
    }
  }

  /** Only the broker takes messages from its frontend. */
  lemma FrontendStays(cfg: Config, s: World, a: Action)
    requires Enabled(cfg, s, a) && Source(a) != Some(Frontend) && Pending(s.net, Frontend)
    ensures Pending(NetAfter(cfg, s, a), Frontend)
  {
    var rest := if Source(a).Some? then Taken(s.net, Source(a).value) else s.net;
    PendingIffInbox(s.net, Frontend);
    if Source(a).Some? {
      ReceiveIsFifo(s.net, Source(a).value, Frontend);
    }
    InboxConcat(rest, Output(cfg, s, a), Frontend);
    PendingIffInbox(NetAfter(cfg, s, a), Frontend);
  }

  lemma {:induction false} OthersRun(cfg: Config, s: World, run: seq<Action>)
    requires ValidConfig(cfg) && Inv(cfg, s) && Feasible(cfg, s, run) && OfOthers(run)
    ensures Inv(cfg, After(cfg, s, run)) && AsBefore(s, After(cfg, s, run))
    decreases |run|
  {
    if run == [] {
    } else {
      assert run[0] in run;
      OtherStep(cfg, s, run[0]);
      StepKeepsInv(cfg, s, run[0]);
      OthersRun(cfg, Step(cfg, s, run[0]), run[1..]);
    }
  }

  class Broker {
    const cfg: Config
    var packets: Net
    var workerQueue: seq<string>
    var clientCount: int

    /** The system as the broker sees it is part of the state `w`. */
    ghost predicate SeenIn(w: World)
      reads this
    {
      && ValidConfig(cfg) && Inv(cfg, w)
      && w.net == packets && w.queue == workerQueue && w.countdown == clientCount
    }

    ghost predicate Ran(w: World, run: seq<Action>, w': World)
      reads this
    {
      SeenIn(w') && Feasible(cfg, w, run) && After(cfg, w, run) == w'
    }

    constructor (cfg: Config)
      requires ValidConfig(cfg)
      ensures this.cfg == cfg && SeenIn(Init(cfg))
    {
      this.cfg := cfg;
      packets, workerQueue, clientCount := [], [], |cfg.clients|;
      new;
      InitInv(cfg);
    }

    method Receive(sock: Socket) returns (frames: Message)
      requires Pending(packets, sock)
      modifies this`packets
      ensures frames == Head(old(packets), sock) && packets == Taken(old(packets), sock)
    {
      frames := Head(packets, sock);
      packets := Taken(packets, sock);
    }

    method Send(sock: Socket, frames: Message)
      requires frames != []
      modifies this`packets
      ensures packets == old(packets) + RouterSend(cfg, sock, frames)
    {
      packets := packets + RouterSend(cfg, sock, frames);
    }

    /** The broker did `a` if its deque, its countdown and the sockets are now as the action leaves them. */
    lemma Did(w: World, a: Action)
      requires ValidConfig(cfg) && Inv(cfg, w) && Enabled(cfg, w, a)
      requires var t := Step(cfg, w, a); t.net == packets && t.queue == workerQueue && t.countdown == clientCount
      ensures Ran(w, [a], Step(cfg, w, a))
    {
      StepKeepsInv(cfg, w, a);
      OneAction(cfg, w, a);
    }

    /** A worker is ready again; its reply, if it sent one, goes to the client and is counted. */
    method HandleBackend(ghost w: World) returns (done: bool)
      requires SeenIn(w) && w.phase == Serving && Pending(packets, Backend)
      modifies this`packets, this`workerQueue, this`clientCount
      ensures Enabled(cfg, w, TakeReply) && Ran(w, [TakeReply], Step(cfg, w, TakeReply))
      ensures workerQueue == old(workerQueue) + [Head(old(packets), Backend)[0]]
      ensures done <==> Step(cfg, w, TakeReply).phase == Joining
    {
      HeadShaped(cfg, w, Backend);
      ShapedReadable(cfg, Packet(Backend, Head(w.net, Backend)));
      var parts := Receive(Backend);
      ghost var m := parts;
      workerQueue := workerQueue + [parts[0]];
      assert parts[1] == "";
      var clientAddr := parts[2];
      done := false;
      if clientAddr != "READY" {
        assert parts[3] == "";
        var reply := parts[4];
        Send(Frontend, [clientAddr, "", reply]);
        clientCount := clientCount - 1;
        done := clientCount == 0;
      }
      assert packets == NetAfter(cfg, w, TakeReply);
      Did(w, TakeReply);
    }

    /** The longest-queued worker gets the client's request. */
    method HandleFrontend(ghost w: World)
      requires SeenIn(w) && w.phase == Serving && workerQueue != [] && Pending(packets, Frontend)
      modifies this`packets, this`workerQueue
      ensures Enabled(cfg, w, TakeRequest) && Ran(w, [TakeRequest], Step(cfg, w, TakeRequest))
      ensures [old(workerQueue)[0]] + workerQueue == old(workerQueue)
    {
      HeadShaped(cfg, w, Frontend);
      ShapedReadable(cfg, Packet(Frontend, Head(w.net, Frontend)));
      var parts := Receive(Frontend);
      var clientAddr := parts[0];
      assert parts[1] == "";
      var request := parts[2];
      var workerAddr := workerQueue[0];
      workerQueue := workerQueue[1..];
      Send(Backend, [workerAddr, "", clientAddr, "", request]);
      assert packets == NetAfter(cfg, w, TakeRequest);
      Did(w, TakeRequest);
    }

    /** The system after the first half of a turn. */
    ghost function AfterBackend(w: World): World {
      if Pending(w.net, Backend) && Enabled(cfg, w, TakeReply) then Step(cfg, w, TakeReply) else w
    }

    /**
      The system after one turn of the loop: the poll at its start finds who has
      sent, and the others do `moves` between its two halves.
    */
    ghost function Turned(w: World, moves: seq<Action>): World {
      var mid := AfterBackend(w);
      if mid.phase == Joining then mid
      else
        var moved := Elapse(cfg, mid, moves);
        if w.queue != [] && Pending(w.net, Frontend) && Enabled(cfg, moved, TakeRequest)
        then Step(cfg, moved, TakeRequest) else moved
    }

    /** While the broker was busy with one socket the others have moved. */
    method Meanwhile(ghost w: World, ghost moves: seq<Action>, arrived: Net) returns (ghost w': World)
      requires SeenIn(w) && OfOthers(moves) && arrived == Elapse(cfg, w, moves).net
      modifies this`packets
      ensures SeenIn(w') && w' == Elapse(cfg, w, moves) && AsBefore(w, w')
    {
      w' := Elapse(cfg, w, moves);
      if Feasible(cfg, w, moves) {
        OthersRun(cfg, w, moves);
      }
      packets := arrived;
    }

    /** Takes in a worker's message if the poll found one. */
    method FirstHalf(ghost w: World) returns (done: bool, ghost w': World)
      requires SeenIn(w) && w.phase == Serving
      modifies this`packets, this`workerQueue, this`clientCount
      ensures SeenIn(w') && w' == AfterBackend(w)
      ensures done <==> w'.phase == Joining
      ensures !done ==> w'.phase == Serving
      ensures w.queue != [] ==> w'.queue != []
      ensures Pending(w.net, Frontend) ==> Pending(w'.net, Frontend)
    {
      done, w' := false, w;
      if Pending(packets, Backend) {
        done := HandleBackend(w);
        w' := Step(cfg, w, TakeReply);
        if Pending(w.net, Frontend) {
          FrontendStays(cfg, w, TakeReply);
        }
      }
    }

    /**
      One turn of the main loop: the poll has found a message from a worker, or
      with a worker queued one from a client.
    */
    method Pass(ghost w: World, ghost moves: seq<Action>, arrived: Net) returns (done: bool, ghost w': World)
      requires SeenIn(w) && w.phase == Serving
      requires Pending(packets, Backend) || (workerQueue != [] && Pending(packets, Frontend))
      requires OfOthers(moves) && arrived == Elapse(cfg, AfterBackend(w), moves).net
      modifies this`packets, this`workerQueue, this`clientCount
      ensures SeenIn(w') && w' == Turned(w, moves)
      ensures exists run ::
        Feasible(cfg, w, run) && After(cfg, w, run) == w' && (TakeReply in run || TakeRequest in run)
      ensures done <==> w'.phase == Joining
      ensures !done ==> w'.phase == Serving
    {
      ghost var run := TurnedIsRun(w, moves);
      var frontendReady := workerQueue != [] && Pending(packets, Frontend);
      done, w' := FirstHalf(w);
      if done {
        return;
      }
      w' := Meanwhile(w', moves, arrived);
      if frontendReady {
        ghost var moved := w';
        HandleFrontend(moved);
        w' := Step(cfg, moved, TakeRequest);
      }
    }

    lemma FirstIsRun(w: World) returns (run: seq<Action>)
      requires ValidConfig(cfg) && Inv(cfg, w) && w.phase == Serving
      ensures Feasible(cfg, w, run) && After(cfg, w, run) == AfterBackend(w)
      ensures Inv(cfg, AfterBackend(w)) && run == if Pending(w.net, Backend) then [TakeReply] else []
      ensures Pending(w.net, Backend) || AfterBackend(w) == w
    {
      run := [];
      if Pending(w.net, Backend) {
        HeadShaped(cfg, w, Backend);
        ShapedReadable(cfg, Packet(Backend, Head(w.net, Backend)));
        OneAction(cfg, w, TakeReply);
        StepKeepsInv(cfg, w, TakeReply);
        run := [TakeReply];
      }
    }

    lemma SecondIsRun(w: World, run: seq<Action>, moved: World) returns (run': seq<Action>)
      requires Feasible(cfg, w, run) && After(cfg, w, run) == moved && Enabled(cfg, moved, TakeRequest)
      ensures Feasible(cfg, w, run') && After(cfg, w, run') == Step(cfg, moved, TakeRequest)
      ensures run' == run + [TakeRequest]
    {
      OneAction(cfg, moved, TakeRequest);
      FeasibleConcat(cfg, w, run, [TakeRequest]);
      run' := run + [TakeRequest];
    }

    lemma RequestTaken(w: World, moves: seq<Action>)
      requires ValidConfig(cfg) && Inv(cfg, w) && w.phase == Serving && OfOthers(moves)
      requires w.queue != [] && Pending(w.net, Frontend)
      ensures Enabled(cfg, Elapse(cfg, w, moves), TakeRequest)
    {
      if Feasible(cfg, w, moves) {
        OthersRun(cfg, w, moves);
      }
      var moved := Elapse(cfg, w, moves);
      HeadShaped(cfg, moved, Frontend);
      ShapedReadable(cfg, Packet(Frontend, Head(moved.net, Frontend)));
    }

    /**
      A turn hands on just one request, and only if the poll at its start found
      it with a worker queued by then, and the countdown does not end first; it
      goes to the worker that was at the front.
    */
    lemma PollDecides(w: World, moves: seq<Action>)
      requires ValidConfig(cfg) && Inv(cfg, w) && w.phase == Serving && OfOthers(moves)
      ensures Turned(w, moves).dispatched == w.dispatched
        + if w.queue != [] && Pending(w.net, Frontend) && AfterBackend(w).phase != Joining then [w.queue[0]] else []
    {
      var run := FirstIsRun(w);
      var mid := AfterBackend(w);
      if Pending(w.net, Backend) && Pending(w.net, Frontend) {
        FrontendStays(cfg, w, TakeReply);
      }
      if mid.phase != Joining {
        if Feasible(cfg, mid, moves) {
          OthersRun(cfg, mid, moves);
        }
        if w.queue != [] && Pending(w.net, Frontend) {
          RequestTaken(mid, moves);
        }
      }
    }

    /** A turn and the moves of the others within it are a run of the system, in which the broker does something. */
    lemma TurnedIsRun(w: World, moves: seq<Action>) returns (run: seq<Action>)
      requires ValidConfig(cfg) && Inv(cfg, w) && w.phase == Serving && OfOthers(moves)
      requires Pending(w.net, Backend) || (w.queue != [] && Pending(w.net, Frontend))
      ensures Feasible(cfg, w, run) && After(cfg, w, run) == Turned(w, moves)
      ensures TakeReply in run || TakeRequest in run
    {
      run := FirstIsRun(w);
      var mid := AfterBackend(w);
      if !Pending(w.net, Backend) {
        RequestTaken(w, moves);
      }
      if mid.phase != Joining {
        if Feasible(cfg, mid, moves) {
          FeasibleConcat(cfg, w, run, moves);
          run := run + moves;
        }
        var moved := Elapse(cfg, mid, moves);
        if w.queue != [] && Pending(w.net, Frontend) && Enabled(cfg, moved, TakeRequest) {
          run := SecondIsRun(w, run, moved);
        }
      }
    }

    /** The longest-queued worker is told to stop. */
    method Notify(ghost w: World)
      requires SeenIn(w) && w.phase == Killing && workerQueue != []
      modifies this`packets, this`workerQueue
      ensures Enabled(cfg, w, Kill) && Ran(w, [Kill], Step(cfg, w, Kill))
    {
      var workerAddr := workerQueue[0];
      workerQueue := workerQueue[1..];
      Send(Backend, [workerAddr, "", "KILL"]);
      assert packets == NetAfter(cfg, w, Kill);
      Did(w, Kill);
    }

    lemma OneMoreKill(w: World, run: seq<Action>, mid: World)
      requires Feasible(cfg, w, run) && After(cfg, w, run) == mid
      requires Enabled(cfg, mid, Kill) && Ran(mid, [Kill], Step(cfg, mid, Kill))
      ensures Ran(w, run + [Kill], Step(cfg, mid, Kill))
    {
      FeasibleConcat(cfg, w, run, [Kill]);
    }

    /** The kill loop: it empties the deque, and each worker in it is told to stop once, in order. */
    method KillLoop(ghost w: World) returns (ghost run: seq<Action>, ghost w': World)
      requires SeenIn(w) && w.phase == Killing
      modifies this`packets, this`workerQueue
      ensures Ran(w, run, w') && |run| == |w.queue|
      ensures workerQueue == [] && w'.notified == w.notified + w.queue
    {
      run, w' := [], w;
      while |workerQueue| > 0
        invariant Ran(w, run, w') && w'.phase == Killing && |run| + |workerQueue| == |w.queue|
        invariant w'.notified + workerQueue == w.notified + w.queue
        decreases |workerQueue|
      {
        ghost var mid, front := w', workerQueue[0];
        assert mid.notified + workerQueue == (mid.notified + [front]) + workerQueue[1..];
        Notify(mid);
        OneMoreKill(w, run, mid);
        w' := Step(cfg, mid, Kill);
        assert w'.notified == mid.notified + [front];
        run := run + [Kill];
      }
    }
  }
}
