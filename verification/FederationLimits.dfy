/**
  Why the hypotheses on the federation are needed: runs after which a client
  waits with nothing of its request in transit.
*/
module FederationLimits {
  import opened Wrappers
  import opened Inboxes
  import opened Federation
  import opened FederationInvariant
  import opened FederationTheorems

  /** A run continued by one more action. */
  lemma Extend(cfg: Config, run: seq<Action>, a: Action)
    requires Feasible(cfg, Init(cfg), run) && Enabled(cfg, After(cfg, Init(cfg), run), a)
    ensures Feasible(cfg, Init(cfg), run + [a])
    ensures After(cfg, Init(cfg), run + [a]) == Step(cfg, After(cfg, Init(cfg), run), a)
  {
    OneAction(cfg, After(cfg, Init(cfg), run), a);
    FeasibleConcat(cfg, Init(cfg), run, [a]);
  }

  /** A worker announces itself and is put in its broker's deque. */
  lemma Announce(cfg: Config, run: seq<Action>, w: Key) returns (run': seq<Action>)
    requires Feasible(cfg, Init(cfg), run)
    requires w in cfg.workers && w.broker in cfg.peers && w.id != ""
    requires var s := After(cfg, Init(cfg), run);
             s.net == [] && w !in s.registered && w.broker in s.ready
    ensures Feasible(cfg, Init(cfg), run')
    ensures var s := After(cfg, Init(cfg), run);
            After(cfg, Init(cfg), run')
            == s.(ready := s.ready[w.broker := s.ready[w.broker] + [w.id]], registered := s.registered + {w})
  {
    var s := After(cfg, Init(cfg), run);
    var p := Packet(LocalBe(w.broker), [w.id, "", READY]);
    Extend(cfg, run, WorkerReady(w));
    var s1 := Step(cfg, s, WorkerReady(w));
    assert ReqSend(LocalBe(w.broker), w.id, [READY]) == p;
    assert s1.net == [p];
    assert Head(s1.net, LocalBe(w.broker)) == p.msg;
    Extend(cfg, run + [WorkerReady(w)], LocalBackend(w.broker));
    run' := run + [WorkerReady(w)] + [LocalBackend(w.broker)];
    assert Step(cfg, s1, LocalBackend(w.broker)).net == [];
  }

  /** The one message in transit is received and another sent. */
  lemma OneStep(cfg: Config, run: seq<Action>, a: Action, p: Packet<Socket>, out: Net)
    requires Feasible(cfg, Init(cfg), run)
    requires var s := After(cfg, Init(cfg), run);
             s.net == [p] && Enabled(cfg, s, a) && Source(a) == Some(p.sock) && Output(cfg, s, a) == out
    ensures Feasible(cfg, Init(cfg), run + [a])
    ensures After(cfg, Init(cfg), run + [a]) == Step(cfg, After(cfg, Init(cfg), run), a)
    ensures After(cfg, Init(cfg), run + [a]).net == out
  {
    Extend(cfg, run, a);
  }

  /**
    If a broker sends requests to a peer that was not started with that broker
    among its own peers, the peer takes the reply for one of its own clients'
    and the socket drops it: the request is lost and its client waits with
    nothing in transit.
  */
  lemma OneWayPeeringLosesRequest(cfg: Config, c: Key, v: Key, w: Key) returns (run: seq<Action>)
    requires c.broker != READY
    requires Linked(cfg, c.broker, w.broker) && !Linked(cfg, w.broker, c.broker)
    requires c.broker in cfg.peers && w.broker in cfg.peers && c.broker != w.broker
    requires c in cfg.clients && Key(w.broker, c.broker) !in cfg.clients
    requires v in cfg.workers && v.broker == c.broker && v.id != ""
    requires w in cfg.workers && w.id != ""
    ensures Feasible(cfg, Init(cfg), run)
    ensures var s := After(cfg, Init(cfg), run); c in s.waiting && s.net == []
  {
    var a, b := c.broker, w.broker;
    run := Announce(cfg, [], v);
    run := Announce(cfg, run, w);
    Extend(cfg, run, ClientSend(c));
    var p := Packet(LocalFe(a), [c.id, "", "HELLO"]);
    run := run + [ClientSend(c)];
    assert ReqSend(LocalFe(a), c.id, ["HELLO"]) == p;
    var q := Packet(CloudFe(b), [a, c.id, "", "HELLO"]);
    assert ([b] + p.msg)[1..] == p.msg && [a] + p.msg == q.msg;
    OneStep(cfg, run, LocalRequest(a, Some(b)), p, [q]);
    run := run + [LocalRequest(a, Some(b))];
    run := LostAtPeer(cfg, run, c, w, q);
  }

  lemma LostAtPeer(cfg: Config, run: seq<Action>, c: Key, w: Key, p: Packet<Socket>) returns (run': seq<Action>)
    requires c.broker != READY && !Linked(cfg, w.broker, c.broker)
    requires c.broker in cfg.peers && w.broker in cfg.peers && w in cfg.workers && w.id != ""
    requires Key(w.broker, c.broker) !in cfg.clients
    requires p == Packet(CloudFe(w.broker), [c.broker, c.id, "", "HELLO"])
    requires Feasible(cfg, Init(cfg), run)
    requires var s := After(cfg, Init(cfg), run);
             s.net == [p] && w.broker in s.ready && s.ready[w.broker] == [w.id] && c in s.waiting
    ensures Feasible(cfg, Init(cfg), run')
    ensures var s := After(cfg, Init(cfg), run'); c in s.waiting && s.net == []
  {
    var b := w.broker;
    var q := Packet(WorkerIn(w), [""] + p.msg);
    assert ([w.id, ""] + p.msg)[1..] == q.msg;
    OneStep(cfg, run, CloudRequest(b), p, [q]);
    var run1 := run + [CloudRequest(b)];
    var r := Packet(LocalBe(b), [w.id, "", c.broker, c.id, "", "OK"]);
    assert ReqReceive(q.msg)[|q.msg| - 2 := "OK"] == [c.broker, c.id, "", "OK"];
    assert ReqSend(LocalBe(b), w.id, [c.broker, c.id, "", "OK"]) == r;
    OneStep(cfg, run1, WorkerServe(w), q, [r]);
    var run2 := run1 + [WorkerServe(w)];
    assert r.msg[2..] == [c.broker, c.id, "", "OK"];
    OneStep(cfg, run2, LocalBackend(b), r, []);
    run' := run2 + [LocalBackend(b)];
  }

  // ---------------------------------------------------------------- names that read as something else

  /** The request of client `c` has been given to its own broker's worker `v`. */
  lemma GivenLocally(cfg: Config, c: Key, v: Key) returns (run: seq<Action>)
    requires c in cfg.clients && c.broker in cfg.peers
    requires v in cfg.workers && v.broker == c.broker && v.id != ""
    ensures Feasible(cfg, Init(cfg), run)
    ensures var s := After(cfg, Init(cfg), run);
      c in s.waiting && c.broker in s.ready && s.net == [Packet(WorkerIn(v), ["", c.id, "", "HELLO"])]
  {
    var b := c.broker;
    run := Announce(cfg, [], v);
    Extend(cfg, run, ClientSend(c));
    run := run + [ClientSend(c)];
    var p := Packet(LocalFe(b), [c.id, "", "HELLO"]);
    assert ReqSend(LocalFe(b), c.id, ["HELLO"]) == p;
    var q := Packet(WorkerIn(v), ["", c.id, "", "HELLO"]);
    assert ([v.id, ""] + p.msg)[1..] == q.msg;
    OneStep(cfg, run, LocalRequest(b, None), p, [q]);
    run := run + [LocalRequest(b, None)];
  }

  /** The request of client `c`, served by its own broker's worker `v`, is on its way back to that broker. */
  lemma ServedLocally(cfg: Config, c: Key, v: Key) returns (run: seq<Action>)
    requires c in cfg.clients && c.broker in cfg.peers
    requires v in cfg.workers && v.broker == c.broker && v.id != ""
    ensures Feasible(cfg, Init(cfg), run)
    ensures var s := After(cfg, Init(cfg), run);
      c in s.waiting && c.broker in s.ready && s.net == [Packet(LocalBe(c.broker), [v.id, "", c.id, "", "OK"])]
  {
    run := GivenLocally(cfg, c, v);
    var q, r := Packet(WorkerIn(v), ["", c.id, "", "HELLO"]), Packet(LocalBe(c.broker), [v.id, "", c.id, "", "OK"]);
    assert ReqReceive(q.msg)[|q.msg| - 2 := "OK"] == [c.id, "", "OK"];
    assert ReqSend(LocalBe(c.broker), v.id, [c.id, "", "OK"]) == r;
    OneStep(cfg, run, WorkerServe(v), q, [r]);
    run := run + [WorkerServe(v)];
  }

  /** The reply to a client of the name READY is taken for a worker's announcement, and goes nowhere. */
  lemma ReadyClientLosesRequest(cfg: Config, c: Key, v: Key) returns (run: seq<Action>)
    requires c in cfg.clients && c.broker in cfg.peers && c.id == READY
    requires v in cfg.workers && v.broker == c.broker && v.id != ""
    ensures Feasible(cfg, Init(cfg), run)
    ensures var s := After(cfg, Init(cfg), run); c in s.waiting && s.net == []
  {
    run := ServedLocally(cfg, c, v);
    OneStep(cfg, run, LocalBackend(c.broker), Packet(LocalBe(c.broker), [v.id, "", READY, "", "OK"]), []);
    run := run + [LocalBackend(c.broker)];
  }

  /** The reply to a client that has the name of a peer is sent to that peer, where it loses the name and is dropped. */
  lemma PeerNamedClientLosesRequest(cfg: Config, c: Key, v: Key) returns (run: seq<Action>)
    requires c in cfg.clients && c.broker in cfg.peers && c.id != READY && Linked(cfg, c.broker, c.id)
    requires Linked(cfg, c.id, c.broker) ==> Key(c.id, "") !in cfg.clients && !Linked(cfg, c.id, "")
    requires v in cfg.workers && v.broker == c.broker && v.id != ""
    ensures Feasible(cfg, Init(cfg), run)
    ensures var s := After(cfg, Init(cfg), run); c in s.waiting && s.net == []
  {
    var b, peer := c.broker, c.id;
    run := ServedLocally(cfg, c, v);
    var p := Packet(LocalBe(b), [v.id, "", peer, "", "OK"]);
    var q := Packet(CloudBe(peer), [b, "", "OK"]);
    assert p.msg[2..] == [peer, "", "OK"] && [b] + [peer, "", "OK"][1..] == q.msg;
    if Linked(cfg, peer, b) {
      OneStep(cfg, run, LocalBackend(b), p, [q]);
      run := run + [LocalBackend(b)];
      assert q.msg[1..] == ["", "OK"];
      OneStep(cfg, run, CloudBackend(peer), q, []);
      run := run + [CloudBackend(peer)];
    } else {
      OneStep(cfg, run, LocalBackend(b), p, []);
      run := run + [LocalBackend(b)];
    }
  }
}
