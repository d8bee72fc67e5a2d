/**
  Why one pass of a broker's loop ends however busy the rest of the federation
  is: each request it hands on either takes a worker from its deque, or is that
  of a client of its own who cannot ask again before the pass is over.
*/
module FederationTurns {
  import opened Wrappers
  import opened Inboxes
  import opened Federation
  import opened FederationInvariant
  import opened FederationTheorems

  /** A broker takes in a reply, or an announcement. */
  predicate TakesReply(a: Action, b: string) {
    a == LocalBackend(b) || a == CloudBackend(b)
  }

  /** The request of client `k` has been taken in by its broker, and the reply has not yet left it. */
  ghost predicate Away(s: World, k: Key) {
    exists p :: p in s.net && k in Owner(p) && !p.sock.LocalFe? && !p.sock.ClientIn?
  }

  /** The clients of broker `b` that have a request before it, or may yet send one. */
  ghost function Askers(cfg: Config, s: World, b: string): set<Key> {
    set k | k in cfg.clients && k.broker == b && !Away(s, k)
  }

  lemma OneOwned(cfg: Config, s: World, i: nat, k: Key)
    requires Inv(cfg, s) && i < |s.net| && k in Owner(s.net[i])
    ensures k in s.waiting
    ensures forall q :: q in Remove(s.net, i) ==> k !in Owner(q)
  {
    TallyMember(s.net, Owner, i, k);
    TallyRemove(s.net, i, Owner);
    forall q | q in Remove(s.net, i) ensures k !in Owner(q) {
      if k in Owner(q) {
        var j :| 0 <= j < |Remove(s.net, i)| && Remove(s.net, i)[j] == q;
        TallyMember(Remove(s.net, i), Owner, j, k);
      }
    }
  }

  /** A message that is not the one taken in is still there. */
  lemma TakenKeepsOthers(net: Net, sock: Socket, p: Packet<Socket>)
    requires Pending(net, sock) && p in net && p != net[First(net, sock)]
    ensures p in Taken(net, sock)
  {
    var i :| 0 <= i < |net| && net[i] == p;
    var f := First(net, sock);
    assert Taken(net, sock)[if i < f then i else i - 1] == p;
  }

  /** What comes of a message that is taken in is for neither a frontend nor, but from its own broker, a client. */
  lemma OutputIsAway(cfg: Config, s: World, a: Action, q: Packet<Socket>, k: Key)
    requires Enabled(cfg, s, a) && Source(a).Some? && q in Output(cfg, s, a) && k in Owner(q)
    requires !TakesReply(a, k.broker)
    ensures !q.sock.LocalFe? && !q.sock.ClientIn?
  {
  }

  /** The taken message of a client other than a reply at its socket is followed by another message of that client. */
  lemma TakenIsFollowed(cfg: Config, s: World, a: Action, k: Key) returns (q: Packet<Socket>)
    requires ValidConfig(cfg) && Inv(cfg, s) && Enabled(cfg, s, a) && Source(a).Some? && a != ClientReceive(k)
    requires k in Owner(s.net[First(s.net, Source(a).value)])
    ensures q in Output(cfg, s, a) && k in Owner(q)
  {
    var t := Step(cfg, s, a);
    OneOwned(cfg, s, First(s.net, Source(a).value), k);
    StepKeepsInv(cfg, s, a);
    WaitingChanges(cfg, s, a, k);
    var j := TallyWitness(t.net, Owner, k);
    q := t.net[j];
    assert t.net == Taken(s.net, Source(a).value) + Output(cfg, s, a);
  }

  lemma AwayStays(cfg: Config, s: World, a: Action, k: Key)
    requires ValidConfig(cfg) && Inv(cfg, s) && Enabled(cfg, s, a) && !TakesReply(a, k.broker)
    requires Away(s, k)
    ensures Away(Step(cfg, s, a), k)
  {
    var p :| p in s.net && k in Owner(p) && !p.sock.LocalFe? && !p.sock.ClientIn?;
    if Source(a).Some? && p == s.net[First(s.net, Source(a).value)] {
      var q := TakenIsFollowed(cfg, s, a, k);
      OutputIsAway(cfg, s, a, q, k);
    } else if Source(a).Some? {
      TakenKeepsOthers(s.net, Source(a).value, p);
    }
  }

  /** Nobody joins those who may ask until the broker takes in a reply. */
  lemma AskersShrink(cfg: Config, s: World, a: Action, b: string)
    requires ValidConfig(cfg) && Inv(cfg, s) && Enabled(cfg, s, a) && !TakesReply(a, b)
    ensures Askers(cfg, Step(cfg, s, a), b) <= Askers(cfg, s, b)
  {
    forall k | k in Askers(cfg, Step(cfg, s, a), b) ensures k in Askers(cfg, s, b) {
      if Away(s, k) {
        AwayStays(cfg, s, a, k);
      }
    }
  }

  /** A client whose request is handed on leaves them. */
  lemma AskerLeaves(cfg: Config, s: World, b: string, reroute: Option<string>) returns (k: Key)
    requires ValidConfig(cfg) && Inv(cfg, s) && Enabled(cfg, s, LocalRequest(b, reroute))
    ensures k in Askers(cfg, s, b) && k !in Askers(cfg, Step(cfg, s, LocalRequest(b, reroute)), b)
  {
    var a := LocalRequest(b, reroute);
    var i := First(s.net, LocalFe(b));
    k := HeadCarries(cfg, s, LocalFe(b));
    OneOwned(cfg, s, i, k);
    if p :| p in s.net && k in Owner(p) && !p.sock.LocalFe? && !p.sock.ClientIn? {
      TakenKeepsOthers(s.net, LocalFe(b), p);
      assert false;
    }
    var q := TakenIsFollowed(cfg, s, a, k);
    OutputIsAway(cfg, s, a, q, k);
  }

  /** How many more requests a pass can hand on. */
  ghost function Load(cfg: Config, s: World, b: string): nat
    requires b in s.ready
  {
    |s.ready[b]| + |Askers(cfg, s, b)|
  }

  /** Handing on a request, to a worker or to a peer, lowers the load. */
  lemma RequestLowersLoad(cfg: Config, s: World, a: Action, b: string)
    requires ValidConfig(cfg) && Inv(cfg, s) && Enabled(cfg, s, a) && b in s.ready
    requires a == CloudRequest(b) || (a.LocalRequest? && a.b == b)
    ensures b in Step(cfg, s, a).ready && Load(cfg, Step(cfg, s, a), b) < Load(cfg, s, b)
  {
    var t := Step(cfg, s, a);
    AskersShrink(cfg, s, a, b);
    SubsetSmaller(Askers(cfg, t, b), Askers(cfg, s, b));
    if a.LocalRequest? {
      var k := AskerLeaves(cfg, s, b, a.reroute);
      SubsetSmaller(Askers(cfg, t, b), Askers(cfg, s, b) - {k});
    }
  }

  lemma SubsetSmaller<T>(a: set<T>, b: set<T>)
    requires a <= b
    ensures |a| <= |b|
  {
    assert b == a + (b - a);
  }

  // ---------------------------------------------------------------- the others

  /** The actions taken by broker `b` itself. */
  predicate ActsFor(a: Action, b: string) {
    match a
    case LocalBackend(x) => x == b
    case CloudBackend(x) => x == b
    case CloudRequest(x) => x == b
    case LocalRequest(x, _) => x == b
    case _ => false
  }

  ghost predicate OfOthers(run: seq<Action>, b: string) {
    forall a :: a in run ==> !ActsFor(a, b)
  }

  /** `s` after `run`, or `s` itself if that run cannot be. */
  ghost function Elapse(cfg: Config, s: World, run: seq<Action>): World {
    if Feasible(cfg, s, run) then After(cfg, s, run) else s
  }

  lemma OtherKeepsReady(cfg: Config, s: World, a: Action, b: string)
    requires Enabled(cfg, s, a) && !ActsFor(a, b) && b in s.ready
    ensures b in Step(cfg, s, a).ready && Step(cfg, s, a).ready[b] == s.ready[b]
  {
  }

  /** Whatever the others do leaves this broker's deque alone, and no more for it to hand on in this pass. */
  lemma {:induction false} OthersRun(cfg: Config, s: World, run: seq<Action>, b: string)
    requires ValidConfig(cfg) && Inv(cfg, s) && Feasible(cfg, s, run) && OfOthers(run, b) && b in s.ready
    ensures var t := After(cfg, s, run);
      Inv(cfg, t) && b in t.ready && t.ready[b] == s.ready[b] && Askers(cfg, t, b) <= Askers(cfg, s, b)
    decreases |run|
  {
    if run == [] {
    } else {
      assert run[0] in run;
      OtherKeepsReady(cfg, s, run[0], b);
      StepKeepsInv(cfg, s, run[0]);
      AskersShrink(cfg, s, run[0], b);
      OthersRun(cfg, Step(cfg, s, run[0]), run[1..], b);
    }
  }

  lemma OthersElapse(cfg: Config, s: World, run: seq<Action>, b: string)
    requires ValidConfig(cfg) && Inv(cfg, s) && OfOthers(run, b) && b in s.ready
    ensures var t := Elapse(cfg, s, run);
      Inv(cfg, t) && b in t.ready && t.ready[b] == s.ready[b] && Load(cfg, t, b) <= Load(cfg, s, b)
  {
    if Feasible(cfg, s, run) {
      OthersRun(cfg, s, run, b);
      SubsetSmaller(Askers(cfg, After(cfg, s, run), b), Askers(cfg, s, b));
    }
  }
}
