/**
  Exactly when every request can be answered: when every broker that a client's
  request may come to has a worker and sends replies back the way they came.
  Where the links are not mutual the invariant of the federation fails, as a
  reply may be dropped; here is what is left of it.
*/
module FederationReach {
  import opened Wrappers
  import opened Inboxes
  import opened Federation
  import opened FederationInvariant
  import opened FederationTheorems
  import opened FederationLimits

  /** Every message has the envelope of its place, and the deques hold workers of their brokers. */
  ghost predicate Sound(cfg: Config, s: World) {
    && AllShaped(cfg, s.net)
    && s.ready.Keys == cfg.peers.Keys
    && (forall b, id :: b in s.ready && id in s.ready[b] ==> Key(b, id) in cfg.workers)
  }

  /** All of `out` is for the same client as `p`, and in the envelope of its place. */
  ghost predicate Continues(cfg: Config, p: Packet<Socket>, out: Net) {
    forall q :: q in out ==> Shaped(cfg, q) && Owner(q) == Owner(p)
  }

  // ---------------------------------------------------------------- what every step keeps

  /** A reply goes on to its client, or is dropped: no other client has the name it is under. */
  lemma ReplyContinues(cfg: Config, b: string, p: Packet<Socket>, k: Key)
    requires Named(cfg) && (p.sock == LocalBe(b) || p.sock == CloudBe(b)) && Carries(cfg, p, k)
    ensures Continues(cfg, p, ReplyTo(cfg, b, Envelope(Stack(k, b), "OK")))
  {
    CarriesOwner(cfg, p, k);
    if b == k.broker || Linked(cfg, b, k.broker) {
      var q := ReplyCarries(cfg, b, k);
    } else {
      assert Key(b, k.broker) !in cfg.clients;
    }
  }

  lemma BackendContinues(cfg: Config, s: World, a: Action)
    requires Named(cfg) && Sound(cfg, s) && Enabled(cfg, s, a) && (a.LocalBackend? || a.CloudBackend?)
    ensures Continues(cfg, s.net[First(s.net, Source(a).value)], Output(cfg, s, a))
  {
    var p := s.net[First(s.net, Source(a).value)];
    if Announces(cfg, p) {
    } else {
      var k := HeadCarries(cfg, s, Source(a).value);
      ReplyContinues(cfg, a.b, p, k);
      if a.LocalBackend? {
        ReplyFrames(p.msg, k, a.b);
      } else {
        assert p.msg[1..] == Envelope(Stack(k, a.b), "OK");
      }
    }
  }

  lemma DispatchContinues(cfg: Config, s: World, b: string, sock: Socket)
    requires Named(cfg) && Sound(cfg, s) && b in s.ready && s.ready[b] != []
    requires (sock == CloudFe(b) || sock == LocalFe(b)) && Pending(s.net, sock)
    ensures Continues(cfg, s.net[First(s.net, sock)], Dispatch(cfg, b, s.ready[b][0], Head(s.net, sock)))
  {
    var p, w := s.net[First(s.net, sock)], s.ready[b][0];
    var k := HeadCarries(cfg, s, sock);
    var q := Packet(WorkerIn(Key(b, w)), [""] + p.msg);
    assert ([w, ""] + p.msg)[1..] == q.msg;
    assert w in s.ready[b];
    assert Dispatch(cfg, b, w, p.msg) == [q];
    HandedToWorker(cfg, p, q, Key(b, w), k);
  }

  lemma RerouteContinues(cfg: Config, s: World, b: string, peer: string)
    requires Named(cfg) && Sound(cfg, s) && Enabled(cfg, s, LocalRequest(b, Some(peer)))
    ensures Continues(cfg, s.net[First(s.net, LocalFe(b))], Output(cfg, s, LocalRequest(b, Some(peer))))
  {
    var k := HeadCarries(cfg, s, LocalFe(b));
    var m := [peer] + Head(s.net, LocalFe(b));
    var q := Packet(CloudFe(peer), [b] + m[1..]);
    assert RouterSend(cfg, CloudBe(b), m) == [q];
    HandedToPeer(cfg, s.net[First(s.net, LocalFe(b))], q, b, peer, k);
  }

  lemma ServeContinues(cfg: Config, s: World, w: Key)
    requires Named(cfg) && Sound(cfg, s) && Enabled(cfg, s, WorkerServe(w))
    ensures Continues(cfg, s.net[First(s.net, WorkerIn(w))], Output(cfg, s, WorkerServe(w)))
  {
    var k := HeadCarries(cfg, s, WorkerIn(w));
    var frames := ReqReceive(Head(s.net, WorkerIn(w)));
    var q := ReqSend(LocalBe(w.broker), w.id, frames[|frames| - 1 := "OK"]);
    ServedByWorker(cfg, s.net[First(s.net, WorkerIn(w))], q, w, k);
  }

  /** Whoever receives a message sends on at most one, for the same client. */
  lemma StepContinues(cfg: Config, s: World, a: Action)
    requires Named(cfg) && Sound(cfg, s) && Enabled(cfg, s, a) && Source(a).Some?
    ensures Continues(cfg, s.net[First(s.net, Source(a).value)], Output(cfg, s, a))
  {
    match a
    case LocalBackend(_) => BackendContinues(cfg, s, a);
    case CloudBackend(_) => BackendContinues(cfg, s, a);
    case CloudRequest(b) => DispatchContinues(cfg, s, b, CloudFe(b));
    case LocalRequest(b, None) => DispatchContinues(cfg, s, b, LocalFe(b));
    case LocalRequest(b, Some(peer)) => RerouteContinues(cfg, s, b, peer);
    case WorkerServe(w) => ServeContinues(cfg, s, w);
    case ClientReceive(_) =>
  }

  lemma StartsShaped(cfg: Config, s: World, a: Action)
    requires Named(cfg) && Enabled(cfg, s, a) && Source(a).None?
    ensures AllShaped(cfg, Output(cfg, s, a))
    ensures forall q :: q in Output(cfg, s, a) ==> Owner(q) == if a.ClientSend? then multiset{a.k} else multiset{}
  {
    match a
    case ClientSend(k) => assert Carries(cfg, ReqSend(LocalFe(k.broker), k.id, ["HELLO"]), k);
    case WorkerReady(k) => assert Announces(cfg, ReqSend(LocalBe(k.broker), k.id, [READY]));
  }

  /** After a step there is what was there before and what was sent. */
  lemma NetAfter(cfg: Config, s: World, a: Action)
    requires Enabled(cfg, s, a)
    ensures forall q :: q in Step(cfg, s, a).net ==> q in s.net || q in Output(cfg, s, a)
  {
  }

  lemma StepKeepsReady(cfg: Config, s: World, a: Action)
    requires Named(cfg) && Sound(cfg, s) && Enabled(cfg, s, a)
    ensures var t := Step(cfg, s, a);
      && t.ready.Keys == cfg.peers.Keys
      && forall b, id :: b in t.ready && id in t.ready[b] ==> Key(b, id) in cfg.workers
  {
    if a.LocalBackend? {
      var p := s.net[First(s.net, LocalBe(a.b))];
      assert p in s.net && Shaped(cfg, p);
      assert Key(a.b, p.msg[0]) in cfg.workers;
    }
  }

  lemma StepKeepsSound(cfg: Config, s: World, a: Action)
    requires Named(cfg) && Sound(cfg, s) && Enabled(cfg, s, a)
    ensures Sound(cfg, Step(cfg, s, a))
  {
    StepKeepsReady(cfg, s, a);
    NetAfter(cfg, s, a);
    if Source(a).Some? {
      StepContinues(cfg, s, a);
    } else {
      StartsShaped(cfg, s, a);
    }
  }

  lemma {:induction false} RunKeepsSound(cfg: Config, s: World, run: seq<Action>)
    requires Named(cfg) && Sound(cfg, s) && Feasible(cfg, s, run)
    ensures Sound(cfg, After(cfg, s, run))
    decreases |run|
  {
    if run == [] {
    } else {
      StepKeepsSound(cfg, s, run[0]);
      RunKeepsSound(cfg, Step(cfg, s, run[0]), run[1..]);
    }
  }

  // ---------------------------------------------------------------- waiting for ever

  /** Client `k` waits, and all there is of its request, if anything, is at a broker without workers. */
  ghost predicate Stuck(cfg: Config, s: World, k: Key) {
    && k in s.waiting
    && forall p :: p in s.net && k in Owner(p) ==> (p.sock.LocalFe? || p.sock.CloudFe?) && !Staffed(cfg, p.sock.b)
  }

  /** No action takes such a message in. */
  lemma StuckIsNotTaken(cfg: Config, s: World, k: Key, a: Action)
    requires Named(cfg) && Sound(cfg, s) && Stuck(cfg, s, k) && Enabled(cfg, s, a) && Source(a).Some?
    ensures k !in Owner(s.net[First(s.net, Source(a).value)])
  {
    var p := s.net[First(s.net, Source(a).value)];
    assert p in s.net;
    if a.CloudRequest? || a.LocalRequest? {
      ReadyMeansStaffed(cfg, s, a.b);
    }
  }

  lemma ReadyMeansStaffed(cfg: Config, s: World, b: string)
    requires Sound(cfg, s) && b in s.ready && s.ready[b] != []
    ensures Staffed(cfg, b)
  {
    assert s.ready[b][0] in s.ready[b];
    assert Key(b, s.ready[b][0]) in cfg.workers;
  }

  lemma StuckStays(cfg: Config, s: World, k: Key, a: Action)
    requires Named(cfg) && Sound(cfg, s) && Stuck(cfg, s, k) && Enabled(cfg, s, a)
    ensures Stuck(cfg, Step(cfg, s, a), k)
  {
    NetAfter(cfg, s, a);
    if Source(a).Some? {
      StuckIsNotTaken(cfg, s, k, a);
      StepContinues(cfg, s, a);
    } else {
      StartsShaped(cfg, s, a);
    }
  }

  lemma {:induction false} StuckForEver(cfg: Config, s: World, k: Key, run: seq<Action>)
    requires Named(cfg) && Sound(cfg, s) && Stuck(cfg, s, k) && Feasible(cfg, s, run)
    ensures k in After(cfg, s, run).waiting
    decreases |run|
  {
    if run == [] {
    } else {
      StuckStays(cfg, s, k, run[0]);
      StepKeepsSound(cfg, s, run[0]);
      StuckForEver(cfg, Step(cfg, s, run[0]), k, run[1..]);
    }
  }

  /** A client's request can come to any broker in its reach that has no worker. */
  lemma StuckWithoutWorker(cfg: Config, k: Key, b: string) returns (run: seq<Action>)
    requires Named(cfg) && InReach(cfg, k, b) && !Staffed(cfg, b)
    ensures Feasible(cfg, Init(cfg), run) && Stuck(cfg, After(cfg, Init(cfg), run), k)
  {
    var a := k.broker;
    run := [];
    if Staffed(cfg, a) {
      var v :| v in cfg.workers && v.broker == a;
      run := Announce(cfg, run, v);
    }
    Extend(cfg, run, ClientSend(k));
    run := run + [ClientSend(k)];
    var p := Packet(LocalFe(a), [k.id, "", "HELLO"]);
    assert ReqSend(LocalFe(a), k.id, ["HELLO"]) == p;
    assert After(cfg, Init(cfg), run).net == [p];
    if Staffed(cfg, a) {
      var q := Packet(CloudFe(b), [a, k.id, "", "HELLO"]);
      assert ([b] + p.msg)[1..] == p.msg && [a] + p.msg == q.msg;
      OneStep(cfg, run, LocalRequest(a, Some(b)), p, [q]);
      run := run + [LocalRequest(a, Some(b))];
    }
  }

  /** A client's request can be lost at a peer that has a worker but no link back. */
  lemma StuckWithoutLink(cfg: Config, k: Key, b: string) returns (run: seq<Action>)
    requires Named(cfg) && k in cfg.clients && Linked(cfg, k.broker, b) && !Linked(cfg, b, k.broker)
    requires Staffed(cfg, k.broker) && Staffed(cfg, b)
    ensures Feasible(cfg, Init(cfg), run) && Stuck(cfg, After(cfg, Init(cfg), run), k)
  {
    var v :| v in cfg.workers && v.broker == k.broker;
    var w :| w in cfg.workers && w.broker == b;
    assert Key(b, k.broker) !in cfg.clients;
    run := OneWayPeeringLosesRequest(cfg, k, v, w);
  }

  // ---------------------------------------------------------------- the condition

  ghost predicate CanBeAnswered(cfg: Config, s: World, k: Key) {
    exists run :: Feasible(cfg, s, run) && k !in After(cfg, s, run).waiting
  }

  ghost predicate AllAnswerable(cfg: Config) {
    forall s, k :: Reachable(cfg, s) && k in s.waiting ==> CanBeAnswered(cfg, s, k)
  }

  lemma AnswerableIfServed(cfg: Config)
    requires ValidConfig(cfg) && WorkersInReach(cfg)
    ensures AllAnswerable(cfg)
  {
    forall s, k | Reachable(cfg, s) && k in s.waiting ensures CanBeAnswered(cfg, s, k) {
      var run := ComesToRest(cfg, s);
      ReachableAfter(cfg, s, run);
      RestIsComplete(cfg, After(cfg, s, run));
    }
  }

  lemma StuckIsNotAnswerable(cfg: Config, run: seq<Action>, k: Key)
    requires Named(cfg) && Feasible(cfg, Init(cfg), run) && Stuck(cfg, After(cfg, Init(cfg), run), k)
    ensures !AllAnswerable(cfg)
  {
    var s := After(cfg, Init(cfg), run);
    RunKeepsSound(cfg, Init(cfg), run);
    forall more | Feasible(cfg, s, more) ensures k in After(cfg, s, more).waiting {
      StuckForEver(cfg, s, k, more);
    }
    assert Reachable(cfg, s) && !CanBeAnswered(cfg, s, k);
  }

  /**
    Every request can still be answered, whatever has happened so far, exactly
    if the own broker of every client and all the peers of that broker have
    workers, and those peers name that broker in turn.
  */
  lemma AnswerableIff(cfg: Config)
    requires Named(cfg)
    ensures AllAnswerable(cfg) <==> WorkersInReach(cfg) && Mutual(cfg)
  {
    if !WorkersInReach(cfg) {
      var k, b :| InReach(cfg, k, b) && !Staffed(cfg, b);
      var run := StuckWithoutWorker(cfg, k, b);
      StuckIsNotAnswerable(cfg, run, k);
    } else if !Mutual(cfg) {
      var k, b :| k in cfg.clients && Linked(cfg, k.broker, b) && !Linked(cfg, b, k.broker);
      assert InReach(cfg, k, k.broker) && InReach(cfg, k, b);
      var run := StuckWithoutLink(cfg, k, b);
      StuckIsNotAnswerable(cfg, run, k);
    } else {
      AnswerableIfServed(cfg);
    }
  }
}
