/**
  What the federation promises over all runs: no request is lost, duplicated or
  answered wrongly, no waiting client is stuck, and every request is answered
  within a bounded number of steps.
*/
module FederationTheorems {
  import opened Wrappers
  import opened Inboxes
  import opened Federation
  import opened FederationInvariant

  // ---------------------------------------------------------------- safety

  lemma OnlyOneCarries<T, K>(s: seq<T>, f: T -> multiset<K>, k: K, i: nat, j: nat)
    requires i < |s| && j < |s| && i != j && k in f(s[i])
    requires Tally(s, f)[k] <= 1
    ensures k !in f(s[j])
  {
    TallyRemove(s, i, f);
    var r := Remove(s, i);
    var j' := if j < i then j else j - 1;
    assert r[j'] == s[j];
    if k in f(s[j]) {
      TallyMember(r, f, j', k);
    }
  }

  /**
    A waiting client's request is in exactly one place, where the message has
    exactly the envelope of its journey so far; nothing of an idle client is in transit.
  */
  lemma ExactlyOnePlace(cfg: Config, s: World, k: Key) returns (i: nat)
    requires ValidConfig(cfg) && Reachable(cfg, s)
    ensures k in s.waiting ==>
      && i < |s.net| && Carries(cfg, s.net[i], k)
      && forall j :: 0 <= j < |s.net| && j != i ==> k !in Owner(s.net[j])
    ensures k !in s.waiting ==> forall j :: 0 <= j < |s.net| ==> k !in Owner(s.net[j])
  {
    ReachableInv(cfg, s);
    i := 0;
    if k in s.waiting {
      i := TallyWitness(s.net, Owner, k);
      var p := s.net[i];
      assert Shaped(cfg, p);
      var o :| Carries(cfg, p, o);
      CarriesOwner(cfg, p, o);
      forall j | 0 <= j < |s.net| && j != i ensures k !in Owner(s.net[j]) {
        OnlyOneCarries(s.net, Owner, k, i, j);
      }
    } else {
      forall j | 0 <= j < |s.net| ensures k !in Owner(s.net[j]) {
        if k in Owner(s.net[j]) {
          TallyMember(s.net, Owner, j, k);
        }
      }
    }
  }

  /**
    Each worker is unregistered and nowhere, or in exactly one place: in its own broker's
    deque, or holding one job, or with one announcement or reply on its way to its own broker.
  */
  lemma WorkerInOnePlace(cfg: Config, s: World, w: Key)
    requires ValidConfig(cfg) && Reachable(cfg, s)
    ensures Slots(s, w) <= 1
    ensures (w in s.registered && Slots(s, w) == 0) <==> exists i :: 0 <= i < |s.net| && w in Carrier(s.net[i])
    ensures forall i, j :: 0 <= i < j < |s.net| && w in Carrier(s.net[i]) ==> w !in Carrier(s.net[j])
    ensures w !in s.registered ==> Slots(s, w) == 0
  {
    ReachableInv(cfg, s);
    assert Places(s, w) == if w in s.registered then 1 else 0;
    if w in s.registered && Slots(s, w) == 0 {
      var i := TallyWitness(s.net, Carrier, w);
    }
    forall i | 0 <= i < |s.net| && w in Carrier(s.net[i])
      ensures w in s.registered && Slots(s, w) == 0
    {
      TallyMember(s.net, Carrier, i, w);
    }
    forall i, j | 0 <= i < j < |s.net| && w in Carrier(s.net[i]) ensures w !in Carrier(s.net[j]) {
      OnlyOneCarries(s.net, Carrier, w, i, j);
    }
  }

  /** The frames a client gets are the one frame "OK", whichever way its request went. */
  lemma ClientGetsOk(cfg: Config, s: World, k: Key)
    requires ValidConfig(cfg) && Reachable(cfg, s) && Enabled(cfg, s, ClientReceive(k))
    ensures ReqReceive(Head(s.net, ClientIn(k))) == ["OK"]
  {
    ReachableInv(cfg, s);
    var o := HeadCarries(cfg, s, ClientIn(k));
  }

  /** A request that came from a peer is never sent to a peer again: it goes to a worker of this broker. */
  lemma CloudRequestStays(cfg: Config, s: World, b: string)
    requires ValidConfig(cfg) && Reachable(cfg, s) && Enabled(cfg, s, CloudRequest(b))
    ensures Output(cfg, s, CloudRequest(b))
         == [Packet(WorkerIn(Key(b, s.ready[b][0])), [""] + Head(s.net, CloudFe(b)))]
    ensures Key(b, s.ready[b][0]) in cfg.workers
  {
    ReachableInv(cfg, s);
    ReadyWorker(cfg, s, b);
    assert ([s.ready[b][0], ""] + Head(s.net, CloudFe(b)))[1..] == [""] + Head(s.net, CloudFe(b));
  }

  /** Only a reroute sends to a peer's frontend, and what it sends is a local client's own request. */
  lemma OnlyOwnRequestsGoOut(cfg: Config, s: World, a: Action, q: Packet<Socket>)
    requires ValidConfig(cfg) && Reachable(cfg, s) && Enabled(cfg, s, a)
    requires q in Output(cfg, s, a) && q.sock.CloudFe?
    ensures a.LocalRequest? && a.reroute == Some(q.sock.b)
    ensures exists k :: k in cfg.clients && k.broker == a.b && Head(s.net, LocalFe(a.b)) == Envelope([k.id], "HELLO")
                        && q.msg == Envelope([a.b, k.id], "HELLO")
  {
    assert a.LocalRequest? && a.reroute.Some?;
    ReachableInv(cfg, s);
    var k := HeadCarries(cfg, s, LocalFe(a.b));
    assert q.msg == Envelope([a.b, k.id], "HELLO");
  }

  lemma WaitingChanges(cfg: Config, s: World, a: Action, k: Key)
    requires Enabled(cfg, s, a)
    ensures k in Step(cfg, s, a).waiting <==> a == ClientSend(k) || (k in s.waiting && a != ClientReceive(k))
    ensures a == ClientSend(k) ==> k !in s.waiting
    ensures a == ClientReceive(k) ==> k in s.waiting
  {
  }

  /** Sends and receives of a client alternate: it has one answer for every request but the one it waits for. */
  lemma {:induction false} AnsweredOnce(cfg: Config, s: World, run: seq<Action>, k: Key)
    requires Feasible(cfg, s, run)
    ensures Times(run, ClientSend(k)) + (if k in s.waiting then 1 else 0)
         == Times(run, ClientReceive(k)) + (if k in After(cfg, s, run).waiting then 1 else 0)
    decreases |run|
  {
    if run == [] {
    } else {
      assert multiset(run) == multiset{run[0]} + multiset(run[1..]) by {
        assert run == [run[0]] + run[1..];
      }
      WaitingChanges(cfg, s, run[0], k);
      AnsweredOnce(cfg, Step(cfg, s, run[0]), run[1..], k);
    }
  }

  // ---------------------------------------------------------------- progress

  lemma CanReceiveHead(cfg: Config, s: World, sock: Socket)
    requires ValidConfig(cfg) && Inv(cfg, s) && Pending(s.net, sock)
    ensures CanReceive(s, sock)
  {
    var p := s.net[First(s.net, sock)];
    assert p in s.net && Shaped(cfg, p);
    if Announces(cfg, p) {
      AnnouncesOwner(cfg, p);
    } else {
      var k :| Carries(cfg, p, k);
      CarriesOwner(cfg, p, k);
    }
  }

  /** The broker side of progress: it can take in a reply, hand out a request, or its workers can move. */
  lemma BrokerMoves(cfg: Config, s: World, b: string) returns (a: Action)
    requires ValidConfig(cfg) && Staffed(cfg, b) && Inv(cfg, s)
    requires b in cfg.peers && (Pending(s.net, LocalFe(b)) || Pending(s.net, CloudFe(b)))
    ensures Enabled(cfg, s, a) && !a.ClientSend?
  {
    if s.ready[b] != [] {
      if Pending(s.net, CloudFe(b)) {
        CanReceiveHead(cfg, s, CloudFe(b));
        a := CloudRequest(b);
      } else {
        CanReceiveHead(cfg, s, LocalFe(b));
        a := LocalRequest(b, None);
      }
    } else {
      var w :| w in cfg.workers && w.broker == b;
      if w !in s.registered {
        a := WorkerReady(w);
      } else {
        assert Places(s, w) == 1;
        var i := TallyWitness(s.net, Carrier, w);
        assert s.net[i] in s.net;
        PendingIffMember(s.net, s.net[i].sock);
        CanReceiveHead(cfg, s, s.net[i].sock);
        a := if s.net[i].sock.LocalBe? then LocalBackend(b) else WorkerServe(w);
      }
    }
  }

  /** Any message in transit lets some component move. */
  lemma MessageMoves(cfg: Config, s: World, i: nat) returns (a: Action)
    requires ValidConfig(cfg) && WorkersInReach(cfg) && Inv(cfg, s) && i < |s.net|
    ensures Enabled(cfg, s, a) && !a.ClientSend?
  {
    var p := s.net[i];
    assert p in s.net && Shaped(cfg, p);
    PendingIffMember(s.net, p.sock);
    CanReceiveHead(cfg, s, p.sock);
    if Announces(cfg, p) {
      a := LocalBackend(p.sock.b);
    } else {
      var k :| Carries(cfg, p, k);
      match p.sock
      case LocalFe(b) =>
        assert InReach(cfg, k, b);
        a := BrokerMoves(cfg, s, b);
      case CloudFe(b) =>
        assert InReach(cfg, k, b) && Linked(cfg, b, k.broker);
        a := BrokerMoves(cfg, s, b);
      case LocalBe(b) => a := LocalBackend(b);
      case CloudBe(b) =>
        if Pending(s.net, LocalBe(b)) {
          CanReceiveHead(cfg, s, LocalBe(b));
          a := LocalBackend(b);
        } else {
          a := CloudBackend(b);
        }
      case WorkerIn(w) => a := WorkerServe(w);
      case ClientIn(c) =>
        CarriesOwner(cfg, p, k);
        TallyMember(s.net, Owner, i, k);
        a := ClientReceive(k);
    }
  }

  /** No reachable state with a waiting client is stuck. */
  lemma NotStuck(cfg: Config, s: World) returns (a: Action)
    requires ValidConfig(cfg) && WorkersInReach(cfg) && Reachable(cfg, s) && s.waiting != {}
    ensures Enabled(cfg, s, a) && !a.ClientSend?
  {
    var k :| k in s.waiting;
    var i := ExactlyOnePlace(cfg, s, k);
    ReachableInv(cfg, s);
    a := MessageMoves(cfg, s, i);
  }

  // ---------------------------------------------------------------- the measure

  /** How many hand-overs a message is from its end. */
  function Stage(p: Packet<Socket>): nat {
    match p.sock
    case LocalFe(_) => 6
    case CloudFe(_) => 5
    case WorkerIn(_) => 4
    case LocalBe(_) => 3
    case CloudBe(_) => 2
    case ClientIn(_) => 1
  }

  ghost function Measure(cfg: Config, s: World): nat {
    Weight(s.net, Stage) + 4 * |cfg.workers - s.registered|
  }

  lemma RelayWeight(net: Net, sock: Socket, out: Net)
    requires Pending(net, sock) && |out| <= 1
    requires forall q :: q in out ==> Stage(q) < Stage(net[First(net, sock)])
    ensures Weight(Taken(net, sock) + out, Stage) < Weight(net, Stage)
  {
    WeightRemove(net, First(net, sock), Stage);
    if out == [] {
      assert Taken(net, sock) + out == Taken(net, sock);
    } else {
      assert out == [out[0]];
      WeightAppend(Taken(net, sock), out[0], Stage);
    }
  }

  lemma RouterSendStage(cfg: Config, from: Socket, m: Message)
    requires m != []
    ensures forall q :: q in RouterSend(cfg, from, m) ==>
      Stage(q) == if from.LocalFe? then 1 else if from.CloudFe? then 2 else if from.LocalBe? then 4 else 5
  {
  }

  lemma OutputStage(cfg: Config, s: World, a: Action)
    requires ValidConfig(cfg) && Inv(cfg, s) && Enabled(cfg, s, a) && Source(a).Some?
    ensures forall q :: q in Output(cfg, s, a) ==> Stage(q) < Stage(Packet(Source(a).value, []))
  {
    match a
    case LocalBackend(b) =>
      var rep := Head(s.net, LocalBe(b))[2..];
      RouterSendStage(cfg, if Linked(cfg, b, rep[0]) then CloudFe(b) else LocalFe(b), rep);
    case CloudBackend(b) =>
      var k := HeadCarries(cfg, s, CloudBe(b));
      assert Head(s.net, CloudBe(b))[1..] == Envelope(Stack(k, b), "OK");
      var q := ReplyCarries(cfg, b, k);
    case CloudRequest(b) =>
      RouterSendStage(cfg, LocalBe(b), [s.ready[b][0], ""] + Head(s.net, CloudFe(b)));
    case LocalRequest(b, None) =>
      RouterSendStage(cfg, LocalBe(b), [s.ready[b][0], ""] + Head(s.net, LocalFe(b)));
    case LocalRequest(b, Some(p)) =>
      RouterSendStage(cfg, CloudBe(b), [p] + Head(s.net, LocalFe(b)));
    case WorkerServe(_) =>
    case ClientReceive(_) =>
  }

  /** Every action but a client's send brings the federation nearer to rest. */
  lemma StepDecreases(cfg: Config, s: World, a: Action)
    requires ValidConfig(cfg) && Inv(cfg, s) && Enabled(cfg, s, a) && !a.ClientSend?
    ensures Measure(cfg, Step(cfg, s, a)) < Measure(cfg, s)
  {
    if a.WorkerReady? {
      WeightAppend(s.net, Output(cfg, s, a)[0], Stage);
      assert cfg.workers - s.registered == (cfg.workers - (s.registered + {a.k})) + {a.k};
    } else {
      OutputStage(cfg, s, a);
      RelayWeight(s.net, Source(a).value, Output(cfg, s, a));
    }
  }

  ghost predicate NoSends(run: seq<Action>) {
    forall a :: a in run ==> !a.ClientSend?
  }

  lemma {:induction false} RunDecreases(cfg: Config, s: World, run: seq<Action>)
    requires ValidConfig(cfg) && Inv(cfg, s) && Feasible(cfg, s, run) && NoSends(run)
    ensures |run| + Measure(cfg, After(cfg, s, run)) <= Measure(cfg, s)
    decreases |run|
  {
    if run == [] {
    } else {
      assert run[0] in run;
      StepDecreases(cfg, s, run[0]);
      StepKeepsInv(cfg, s, run[0]);
      RunDecreases(cfg, Step(cfg, s, run[0]), run[1..]);
    }
  }

  /** A bag whose every token lies in `s`, at most once each, is no larger than `s`. */
  lemma BagInSet<T>(a: multiset<T>, s: set<T>)
    requires forall k :: a[k] <= if k in s then 1 else 0
    ensures |a| <= |s|
  {
    assert multiset(s) == a + (multiset(s) - a);
    assert |multiset(s)| == |s|;
  }

  /** The announcements among the messages a worker has sent. */
  function Announcer(p: Packet<Socket>): multiset<Key> {
    if p.sock.LocalBe? && |p.msg| == 3 then Carrier(p) else multiset{}
  }

  lemma {:induction false} AnnouncersAreCarriers(net: Net, k: Key)
    ensures Tally(net, Announcer)[k] <= Tally(net, Carrier)[k]
  {
    if net == [] {
    } else {
      AnnouncersAreCarriers(net[1..], k);
    }
  }

  lemma {:induction false} WeightOfShaped(cfg: Config, net: Net)
    requires ValidConfig(cfg) && forall p :: p in net ==> Shaped(cfg, p)
    ensures Weight(net, Stage) <= 6 * |Tally(net, Owner)| + 3 * |Tally(net, Announcer)|
  {
    if net == [] {
    } else {
      var p := net[0];
      assert p in net && Shaped(cfg, p);
      WeightOfShaped(cfg, net[1..]);
      if Announces(cfg, p) {
        AnnouncesOwner(cfg, p);
        assert |Announcer(p)| == 1 && Stage(p) == 3;
      } else {
        var k :| Carries(cfg, p, k);
        CarriesOwner(cfg, p, k);
        assert |Owner(p)| == 1 && Stage(p) <= 6;
      }
    }
  }

  /** With sends barred, a run has at most six steps for each waiting client and four for each worker. */
  lemma BoundedRuns(cfg: Config, s: World, run: seq<Action>)
    requires ValidConfig(cfg) && Reachable(cfg, s) && Feasible(cfg, s, run) && NoSends(run)
    ensures |run| <= 6 * |s.waiting| + 4 * |cfg.workers|
  {
    ReachableInv(cfg, s);
    RunDecreases(cfg, s, run);
    WeightOfShaped(cfg, s.net);
    assert |multiset(s.waiting)| == |s.waiting|;
    forall k ensures Tally(s.net, Announcer)[k] <= if k in s.registered then 1 else 0 {
      AnnouncersAreCarriers(s.net, k);
      assert Places(s, k) <= 1;
    }
    BagInSet(Tally(s.net, Announcer), s.registered);
    assert cfg.workers == s.registered + (cfg.workers - s.registered);
  }

  /** A state in which nothing is left to do but for clients to send. */
  ghost predicate AtRest(cfg: Config, s: World) {
    forall a :: Enabled(cfg, s, a) ==> a.ClientSend?
  }

  /** At rest no client waits, nothing is in transit, and every worker stands ready in its own broker's deque. */
  lemma RestIsComplete(cfg: Config, s: World)
    requires ValidConfig(cfg) && WorkersInReach(cfg) && Reachable(cfg, s)
    ensures AtRest(cfg, s) <==> s.net == [] && s.waiting == {} && forall w :: w in cfg.workers ==> Slots(s, w) == 1
  {
    ReachableInv(cfg, s);
    if AtRest(cfg, s) {
      if s.net != [] {
        var a := MessageMoves(cfg, s, 0);
      }
      if s.waiting != {} {
        var a := NotStuck(cfg, s);
      }
      forall w | w in cfg.workers ensures Slots(s, w) == 1 {
        assert !Enabled(cfg, s, WorkerReady(w));
        assert Places(s, w) == 1;
      }
    } else {
      if s.net == [] && forall w :: w in cfg.workers ==> Slots(s, w) == 1 {
        forall w | w in cfg.workers ensures w in s.registered {
          assert Places(s, w) >= 1;
        }
      }
    }
  }

  lemma {:induction false} FeasibleConcat(cfg: Config, s: World, a: seq<Action>, b: seq<Action>)
    requires Feasible(cfg, s, a) && Feasible(cfg, After(cfg, s, a), b)
    ensures Feasible(cfg, s, a + b) && After(cfg, s, a + b) == After(cfg, After(cfg, s, a), b)
    decreases |a|
  {
    if a == [] {
      assert a + b == b;
    } else {
      assert (a + b)[1..] == a[1..] + b && (a + b)[0] == a[0];
      FeasibleConcat(cfg, Step(cfg, s, a[0]), a[1..], b);
    }
  }

  lemma OneAction(cfg: Config, s: World, a: Action)
    ensures Feasible(cfg, s, [a]) <==> Enabled(cfg, s, a)
    ensures Enabled(cfg, s, a) ==> After(cfg, s, [a]) == Step(cfg, s, a)
  {
    assert [a][1..] == [];
  }

  lemma ReachableAfter(cfg: Config, s: World, run: seq<Action>)
    requires Reachable(cfg, s) && Feasible(cfg, s, run)
    ensures Reachable(cfg, After(cfg, s, run))
  {
    var before :| Feasible(cfg, Init(cfg), before) && After(cfg, Init(cfg), before) == s;
    FeasibleConcat(cfg, Init(cfg), before, run);
  }

  /**
    With sends barred, any way of running until nothing more can happen answers
    every waiting client exactly once and no other client at all.
  */
  lemma EveryRequestAnswered(cfg: Config, s: World, run: seq<Action>, k: Key)
    requires ValidConfig(cfg) && WorkersInReach(cfg) && Reachable(cfg, s)
    requires Feasible(cfg, s, run) && NoSends(run) && AtRest(cfg, After(cfg, s, run))
    ensures Times(run, ClientReceive(k)) == if k in s.waiting then 1 else 0
  {
    ReachableAfter(cfg, s, run);
    RestIsComplete(cfg, After(cfg, s, run));
    AnsweredOnce(cfg, s, run, k);
    assert ClientSend(k) !in run;
  }

  /** Such a run always exists: from every reachable state the federation can come to rest. */
  lemma {:induction false} ComesToRest(cfg: Config, s: World) returns (run: seq<Action>)
    requires ValidConfig(cfg) && WorkersInReach(cfg) && Reachable(cfg, s)
    ensures Feasible(cfg, s, run) && NoSends(run) && AtRest(cfg, After(cfg, s, run))
    decreases Measure(cfg, s)
  {
    if AtRest(cfg, s) {
      run := [];
    } else {
      var a :| Enabled(cfg, s, a) && !a.ClientSend?;
      ReachableInv(cfg, s);
      StepDecreases(cfg, s, a);
      OneAction(cfg, s, a);
      ReachableAfter(cfg, s, [a]);
      var rest := ComesToRest(cfg, Step(cfg, s, a));
      run := [a] + rest;
      assert run[1..] == rest;
    }
  }
}
