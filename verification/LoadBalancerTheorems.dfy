/**
  What the load-balancing broker promises over all runs: first in, first out
  dispatch, exactly one reply for each client, and a complete shutdown of the
  workers whose announcement came in time.
*/
module LoadBalancerTheorems {
  import opened Wrappers
  import opened Inboxes
  import opened LoadBalancer
  import opened LoadBalancerInvariant

  lemma RecordsAreFifo(cfg: Config, s: World)
    requires ValidConfig(cfg) && Reachable(cfg, s)
    ensures s.dispatched + s.notified + s.queue == s.readied
    ensures s.phase != Killing ==> s.dispatched + s.queue == s.readied
  {
    ReachableInv(cfg, s);
  }

  lemma FullBag<T>(a: multiset<T>, c: set<T>)
    requires a <= multiset(c) && |a| == |c|
    ensures a == multiset(c)
  {
    assert multiset(c) == a + (multiset(c) - a);
    assert |multiset(c)| == |c|;
  }

  lemma {:induction false} ArrivedAreOwned(net: Net)
    ensures Tally(net, Arrived) <= Tally(net, Owner)
  {
    if net == [] {
    } else {
      ArrivedAreOwned(net[1..]);
    }
  }

  /**
    When the countdown has reached zero every client's one reply has arrived, and it
    has taken it in or still has it before it; no request is anywhere else.
  */
  lemma CountdownMeansAnswered(cfg: Config, s: World)
    requires ValidConfig(cfg) && Reachable(cfg, s)
    ensures s.phase == Serving <==> s.countdown > 0
    ensures s.countdown == 0 <==>
      s.started == cfg.clients && Tally(s.net, Owner) == Tally(s.net, Arrived) == multiset(cfg.clients - s.answered)
  {
    ReachableInv(cfg, s);
    ArrivedAreOwned(s.net);
    assert |multiset(s.started - s.answered)| == |s.started - s.answered|;
    assert s.started == s.answered + (s.started - s.answered);
    assert Tally(s.net, Arrived) + (Tally(s.net, Owner) - Tally(s.net, Arrived)) == Tally(s.net, Owner);
    assert cfg.clients == s.started + (cfg.clients - s.started);
    if s.countdown == 0 {
      FullBag(Tally(s.net, Arrived), s.started - s.answered);
    }
    assert |multiset(cfg.clients - s.answered)| == |cfg.clients - s.answered|;
    assert cfg.clients == s.answered + (cfg.clients - s.answered);
  }

  /** A worker holding a job or a reply, rather than a notice to stop or its announcement. */
  ghost predicate Busy(s: World, w: string) {
    exists i :: 0 <= i < |s.net| && w in Carrier(s.net[i]) && Owner(s.net[i]) != multiset{}
  }

  ghost predicate AnnouncementInFlight(s: World, w: string) {
    exists i :: 0 <= i < |s.net| && s.net[i] == Packet(Backend, [w, "", "READY"])
  }

  /**
    From then on no worker is busy, and each registered worker is queued once and not
    told, or told once and not queued, unless its announcement is still on the way.
  */
  lemma NoWorkerBusy(cfg: Config, s: World, w: string)
    requires ValidConfig(cfg) && Reachable(cfg, s) && s.countdown == 0
    ensures !Busy(s, w)
    ensures multiset(s.queue + s.notified)[w] == One(w in s.registered && !AnnouncementInFlight(s, w))
  {
    ReachableInv(cfg, s);
    CountdownMeansAnswered(cfg, s);
    assert WorkerInPlace(s, w);
    forall i | 0 <= i < |s.net| && !s.net[i].sock.ClientIn? ensures Owner(s.net[i]) == multiset{} {
      OwnedOnlyAtClients(s.net, i);
    }
    CarriedOrStopped(cfg, s, w);
  }

  lemma {:induction false} OwnedOnlyAtClients(net: Net, i: nat)
    requires i < |net| && Tally(net, Owner) == Tally(net, Arrived) && !net[i].sock.ClientIn?
    ensures Owner(net[i]) == multiset{}
  {
    TallyRemove(net, i, Owner);
    TallyRemove(net, i, Arrived);
    ArrivedAreOwned(Remove(net, i));
    forall k ensures Owner(net[i])[k] == 0 {
      assert Tally(net, Owner)[k] == Tally(Remove(net, i), Owner)[k] + Owner(net[i])[k];
      assert Tally(net, Arrived)[k] == Tally(Remove(net, i), Arrived)[k];
    }
  }

  /** With no jobs about, a message held or sent by a worker is a notice to stop or an announcement. */
  lemma CarriedOrStopped(cfg: Config, s: World, w: string)
    requires Inv(cfg, s)
    requires forall i :: 0 <= i < |s.net| && !s.net[i].sock.ClientIn? ==> Owner(s.net[i]) == multiset{}
    ensures Tally(s.net, Carrier)[w] == Tally(s.net, Stop)[w] + One(AnnouncementInFlight(s, w))
  {
    assert WorkerInPlace(s, w) && Tally(s.net, Carrier)[w] <= 1;
    AnnouncementsCounted(cfg, s.net, w);
    if AnnouncementInFlight(s, w) {
      var i :| 0 <= i < |s.net| && s.net[i] == Packet(Backend, [w, "", "READY"]);
      assert w in Announcement(s.net[i]);
      TallyMember(s.net, Announcement, i, w);
    }
    if w in Tally(s.net, Announcement) {
      var i := TallyWitness(s.net, Announcement, w);
      assert s.net[i] in s.net && Shaped(cfg, s.net[i]);
      assert s.net[i] == Packet(Backend, [w, "", "READY"]);
    }
  }

  function Announcement(p: Packet<Socket>): multiset<string> {
    if p.sock == Backend && |p.msg| == 3 then multiset{p.msg[0]} else multiset{}
  }

  lemma {:induction false} AnnouncementsCounted(cfg: Config, net: Net, w: string)
    requires forall p :: p in net ==> Shaped(cfg, p)
    requires forall i :: 0 <= i < |net| && !net[i].sock.ClientIn? ==> Owner(net[i]) == multiset{}
    ensures Tally(net, Carrier)[w] == Tally(net, Stop)[w] + Tally(net, Announcement)[w]
  {
    if net == [] {
    } else {
      var p := net[0];
      assert p in net && Shaped(cfg, p);
      forall i | 0 <= i < |net[1..]| && !net[1..][i].sock.ClientIn? ensures Owner(net[1..][i]) == multiset{} {
        assert net[1..][i] == net[i + 1];
      }
      AnnouncementsCounted(cfg, net[1..], w);
      assert Carrier(p)[w] == Stop(p)[w] + Announcement(p)[w];
    }
  }

  // ---------------------------------------------------------------- every run ends

  function Stage(p: Packet<Socket>): nat {
    match p.sock
    case Frontend => 6
    case WorkerIn(_) => if p.msg == ["", "KILL"] then 1 else 5
    case Backend => 4
    case ClientIn(_) => 1
  }

  /** The weight of what is not in transit. */
  ghost function Pool(cfg: Config, s: World): nat {
    2 * |s.queue| + 7 * |cfg.clients - s.started| + 5 * |cfg.workers - s.registered| + Rank(s.phase)
  }

  function Rank(phase: Phase): nat {
    match phase case Serving => 2 case Joining => 1 case Killing => 0
  }

  ghost function Measure(cfg: Config, s: World): nat {
    Weight(s.net, Stage) + Pool(cfg, s)
  }

  lemma WeightMoves(net: Net, source: Option<Socket>, out: Net, after: Net)
    requires |out| <= 1 && (source.Some? ==> Pending(net, source.value))
    requires after == (if source.Some? then Taken(net, source.value) else net) + out
    ensures Weight(after, Stage) + (if source.Some? then Stage(net[First(net, source.value)]) else 0)
         == Weight(net, Stage) + (if out == [] then 0 else Stage(out[0]))
  {
    var rest := if source.Some? then Taken(net, source.value) else net;
    if source.Some? {
      WeightRemove(net, First(net, source.value), Stage);
    }
    if out == [] {
      assert after == rest;
    } else {
      assert after == rest + [out[0]];
      WeightAppend(rest, out[0], Stage);
    }
  }

  lemma PoolMoves(cfg: Config, s: World, a: Action)
    requires Enabled(cfg, s, a)
    ensures var p, t := Pool(cfg, s), Pool(cfg, Step(cfg, s, a));
      match a
      case ClientSend(_) => t == p - 7
      case WorkerReady(_) => t == p - 5
      case TakeReply => t <= p + 2
      case TakeRequest => t == p - 2
      case Join => t == p - 1
      case Kill => t == p - 2
      case _ => t == p
  {
    match a
    case ClientSend(c) => OneFewer(cfg.clients, s.started, c);
    case WorkerReady(w) => OneFewer(cfg.workers, s.registered, w);
    case _ =>
  }

  lemma OneFewer<T>(all: set<T>, done: set<T>, x: T)
    requires x in all && x !in done
    ensures |all - (done + {x})| == |all - done| - 1
  {
    assert all - done == (all - (done + {x})) + {x};
  }

  lemma OutputStage(cfg: Config, s: World, a: Action)
    requires ValidConfig(cfg) && Inv(cfg, s) && Enabled(cfg, s, a) && Output(cfg, s, a) != []
    ensures Stage(Output(cfg, s, a)[0]) <= match a
      case ClientSend(_) => 6
      case WorkerReady(_) => 4
      case TakeReply => 1
      case TakeRequest => 5
      case WorkerServe(_) => 4
      case Kill => 1
      case _ => 0
  {
    if a.Kill? {
      KillKeepsInv(cfg, s);
    }
  }

  lemma SourceStage(cfg: Config, s: World, a: Action)
    requires ValidConfig(cfg) && Inv(cfg, s) && Enabled(cfg, s, a) && Source(a).Some?
    ensures Stage(Packet(Source(a).value, Head(s.net, Source(a).value))) == match a
      case TakeReply => 4
      case TakeRequest => 6
      case WorkerServe(_) => 5
      case _ => 1
  {
    HeadShaped(cfg, s, Source(a).value);
  }

  lemma StepDecreases(cfg: Config, s: World, a: Action)
    requires ValidConfig(cfg) && Inv(cfg, s) && Enabled(cfg, s, a)
    ensures Measure(cfg, Step(cfg, s, a)) < Measure(cfg, s)
  {
    WeightMoves(s.net, Source(a), Output(cfg, s, a), Step(cfg, s, a).net);
    PoolMoves(cfg, s, a);
    if Output(cfg, s, a) != [] {
      OutputStage(cfg, s, a);
    }
    if Source(a).Some? {
      SourceStage(cfg, s, a);
    }
  }

  lemma {:induction false} RunDecreases(cfg: Config, s: World, run: seq<Action>)
    requires ValidConfig(cfg) && Inv(cfg, s) && Feasible(cfg, s, run)
    ensures |run| + Measure(cfg, After(cfg, s, run)) <= Measure(cfg, s)
    decreases |run|
  {
    if run == [] {
    } else {
      StepDecreases(cfg, s, run[0]);
      StepKeepsInv(cfg, s, run[0]);
      RunDecreases(cfg, Step(cfg, s, run[0]), run[1..]);
    }
  }

  /** No run is longer than seven steps for each client and five for each worker, and two more. */
  lemma BoundedRuns(cfg: Config, run: seq<Action>)
    requires ValidConfig(cfg) && Feasible(cfg, Init(cfg), run)
    ensures |run| <= 7 * |cfg.clients| + 5 * |cfg.workers| + 2
  {
    InitInv(cfg);
    assert Measure(cfg, Init(cfg)) == 7 * |cfg.clients| + 5 * |cfg.workers| + 2 by {
      assert cfg.clients - {} == cfg.clients && cfg.workers - {} == cfg.workers;
    }
    RunDecreases(cfg, Init(cfg), run);
  }

  // ---------------------------------------------------------------- how every run ends

  ghost predicate AtRest(cfg: Config, s: World) {
    forall a :: !Enabled(cfg, s, a)
  }

  lemma CanReceiveHead(cfg: Config, s: World, i: nat)
    requires ValidConfig(cfg) && Inv(cfg, s) && i < |s.net|
    ensures CanReceive(s, s.net[i].sock)
  {
    assert s.net[i] in s.net;
    PendingIffMember(s.net, s.net[i].sock);
    HeadShaped(cfg, s, s.net[i].sock);
    ShapedReadable(cfg, Packet(s.net[i].sock, Head(s.net, s.net[i].sock)));
  }

  /** A message in transit can be received, unless only the broker's main loop takes it and cannot now. */
  lemma MessageMoves(cfg: Config, s: World, i: nat) returns (a: Option<Action>)
    requires ValidConfig(cfg) && Inv(cfg, s) && i < |s.net|
    ensures a.Some? ==> Enabled(cfg, s, a.value)
    ensures a.None? <==>
      || (s.net[i].sock == Backend && s.phase != Serving)
      || (s.net[i].sock == Frontend && (s.phase != Serving || s.queue == []))
  {
    CanReceiveHead(cfg, s, i);
    match s.net[i].sock
    case Backend => a := if s.phase == Serving then Some(TakeReply) else None;
    case Frontend => a := if s.phase == Serving && s.queue != [] then Some(TakeRequest) else None;
    case WorkerIn(w) => a := Some(if Head(s.net, WorkerIn(w))[1] == "KILL" then WorkerExit(w) else WorkerServe(w));
    case ClientIn(c) =>
      TallyMember(s.net, Owner, i, c);
      assert c in multiset(s.started - s.answered);
      a := Some(ClientReceive(c));
  }

  lemma RestNet(cfg: Config, s: World, i: nat)
    requires ValidConfig(cfg) && Inv(cfg, s) && AtRest(cfg, s) && i < |s.net|
    ensures (s.net[i].sock == Backend && s.phase != Serving)
         || (s.net[i].sock == Frontend && (s.phase != Serving || s.queue == []))
  {
    var a := MessageMoves(cfg, s, i);
  }

  lemma RestEveryoneStarted(cfg: Config, s: World)
    requires AtRest(cfg, s) && s.started <= cfg.clients && s.registered <= cfg.workers
    ensures s.started == cfg.clients && s.registered == cfg.workers
  {
    forall c | c in cfg.clients ensures c in s.started {
      assert !Enabled(cfg, s, ClientSend(c));
    }
    forall w | w in cfg.workers ensures w in s.registered {
      assert !Enabled(cfg, s, WorkerReady(w));
    }
  }

  lemma EmptyNetMeansDone(cfg: Config, s: World)
    requires ValidConfig(cfg) && Reachable(cfg, s) && s.started == cfg.clients && s.net == []
    ensures s.countdown == 0
  {
    ReachableInv(cfg, s);
    CountdownMeansAnswered(cfg, s);
    assert Tally(s.net, Owner) == multiset{} && Tally(s.net, Arrived) == multiset{};
  }

  lemma IdleWorkerIsQueued(cfg: Config, s: World, w: string)
    requires Inv(cfg, s) && s.phase == Serving && w in s.registered
    requires forall i :: 0 <= i < |s.net| ==> s.net[i].sock == Frontend
    ensures w in s.queue
  {
    NothingCarried(s.net, w);
    assert WorkerInPlace(s, w);
    assert multiset(s.notified)[w] == 0;
  }

  /**
    The main loop is never left waiting: if there is a worker at all, some
    component can move until the countdown ends.
  */
  lemma ServingMoves(cfg: Config, s: World) returns (a: Action)
    requires ValidConfig(cfg) && cfg.workers != {} && Reachable(cfg, s) && s.phase == Serving
    ensures Enabled(cfg, s, a)
  {
    ReachableInv(cfg, s);
    if c :| c in cfg.clients && c !in s.started {
      a := ClientSend(c);
    } else if w :| w in cfg.workers && w !in s.registered {
      a := WorkerReady(w);
    } else {
      assert s.started == cfg.clients;
      if s.net == [] {
        EmptyNetMeansDone(cfg, s);
        assert false;
      }
      var i := 0;
      if j :| 0 <= j < |s.net| && s.net[j].sock != Frontend {
        i := j;
      } else {
        var w :| w in cfg.workers;
        IdleWorkerIsQueued(cfg, s, w);
      }
      var m := MessageMoves(cfg, s, i);
      a := m.value;
    }
  }

  lemma {:induction false} NothingCarried(net: Net, w: string)
    requires forall i :: 0 <= i < |net| ==> net[i].sock == Frontend
    ensures Tally(net, Carrier)[w] == 0
  {
    if net == [] {
    } else {
      forall i | 0 <= i < |net[1..]| ensures net[1..][i].sock == Frontend {
        assert net[1..][i] == net[i + 1];
      }
      NothingCarried(net[1..], w);
    }
  }

  lemma RestAllAnswered(cfg: Config, s: World)
    requires ValidConfig(cfg) && cfg.workers != {} && Reachable(cfg, s) && AtRest(cfg, s)
    ensures s.phase == Killing && s.queue == [] && s.answered == cfg.clients
  {
    ReachableInv(cfg, s);
    if s.phase == Serving {
      var a := ServingMoves(cfg, s);
    }
    CountdownMeansAnswered(cfg, s);
    forall c | c in cfg.clients ensures c in s.answered {
      if c !in s.answered {
        var i := TallyWitness(s.net, Arrived, c);
        RestNet(cfg, s, i);
      }
    }
    assert s.answered == cfg.clients;
    assert !Enabled(cfg, s, Join) && !Enabled(cfg, s, Kill);
  }

  lemma RestNotices(cfg: Config, s: World, w: string)
    requires ValidConfig(cfg) && Inv(cfg, s) && AtRest(cfg, s)
    ensures multiset(s.notified)[w] == One(w in s.exited)
  {
    assert WorkerInPlace(s, w);
    if w in Tally(s.net, Stop) {
      var i := TallyWitness(s.net, Stop, w);
      RestNet(cfg, s, i);
    }
  }

  /** Every run that can go no further has answered all clients and told every queued worker to stop, and they have. */
  lemma EveryRunShutsDown(cfg: Config, s: World)
    requires ValidConfig(cfg) && cfg.workers != {} && Reachable(cfg, s) && AtRest(cfg, s)
    ensures s.phase == Killing && s.queue == [] && s.answered == cfg.clients && s.registered == cfg.workers
    ensures forall w :: multiset(s.notified)[w] == One(w in s.exited)
    ensures forall w :: w in cfg.workers ==> (w in s.exited <==> !AnnouncementInFlight(s, w))
  {
    ReachableInv(cfg, s);
    RestEveryoneStarted(cfg, s);
    RestAllAnswered(cfg, s);
    forall w ensures multiset(s.notified)[w] == One(w in s.exited) {
      RestNotices(cfg, s, w);
    }
    forall w | w in cfg.workers ensures w in s.exited <==> !AnnouncementInFlight(s, w) {
      NoWorkerBusy(cfg, s, w);
      assert s.queue + s.notified == s.notified;
    }
  }

  // ---------------------------------------------------------------- who is stopped

  lemma {:induction false} QueueIsClosed(cfg: Config, s: World, run: seq<Action>)
    requires Feasible(cfg, s, run) && s.phase != Serving
    ensures var t := After(cfg, s, run);
      t.phase != Serving && t.readied == s.readied && t.dispatched == s.dispatched
    decreases |run|
  {
    if run == [] {
    } else {
      QueueIsClosed(cfg, Step(cfg, s, run[0]), run[1..]);
    }
  }

  lemma {:induction false} FeasibleConcat(cfg: Config, s: World, a: seq<Action>, b: seq<Action>)
    requires Feasible(cfg, s, a) && Feasible(cfg, After(cfg, s, a), b)
    ensures Feasible(cfg, s, a + b) && After(cfg, s, a + b) == After(cfg, After(cfg, s, a), b)
    decreases |a|
  {
    if a == [] {
      assert a + b == b;
    } else {
      assert (a + b)[1..] == a[1..] + b && (a + b)[0] == a[0];
      FeasibleConcat(cfg, Step(cfg, s, a[0]), a[1..], b);
    }
  }

  lemma OneAction(cfg: Config, s: World, a: Action)
    requires Enabled(cfg, s, a)
    ensures Feasible(cfg, s, [a]) && After(cfg, s, [a]) == Step(cfg, s, a)
  {
    assert [a][1..] == [];
  }

  /**
    Once the countdown has reached zero it is settled who will be stopped: those
    then queued, each told exactly once, in the order of the queue.  So all
    workers stop, and the broker's final join returns, exactly if every worker
    was in the queue by then; one whose announcement came too late waits for ever.
  */
  lemma StoppedAreTheQueued(cfg: Config, s: World, run: seq<Action>)
    requires ValidConfig(cfg) && cfg.workers != {} && Reachable(cfg, s) && s.phase == Joining
    requires Feasible(cfg, s, run) && AtRest(cfg, After(cfg, s, run))
    ensures var t := After(cfg, s, run);
      && t.notified == s.queue
      && (forall w :: w in t.exited <==> w in s.queue)
      && (t.exited == cfg.workers <==> forall w :: w in cfg.workers ==> w in s.queue)
  {
    var t := After(cfg, s, run);
    var before :| Feasible(cfg, Init(cfg), before) && After(cfg, Init(cfg), before) == s;
    FeasibleConcat(cfg, Init(cfg), before, run);
    EveryRunShutsDown(cfg, t);
    QueueIsClosed(cfg, s, run);
    RecordsAreFifo(cfg, s);
    RecordsAreFifo(cfg, t);
    assert s.dispatched + s.queue == s.dispatched + t.notified;
    assert t.notified == (s.dispatched + s.queue)[|s.dispatched|..] == s.queue;
    forall w ensures w in t.exited <==> w in s.queue {
      assert multiset(t.notified)[w] == One(w in t.exited);
    }
    ReachableInv(cfg, t);
    forall w | w in t.exited ensures w in cfg.workers {
      assert WorkerInPlace(t, w);
    }
  }
}
