/**
  In what order a broker's workers are used, and whose messages it takes first.
  Both are read off the messages of a run, and not off the deques.
*/
module FederationOrder {
  import opened Wrappers
  import opened Inboxes
  import opened Federation
  import opened FederationInvariant
  import opened FederationTheorems

  /** The workers of broker `b` that `out` has requests for. */
  function Addressed(out: Net, b: string): seq<string> {
    if out == [] then []
    else
      (if out[0].sock.WorkerIn? && out[0].sock.k.broker == b then [out[0].sock.k.id] else [])
      + Addressed(out[1..], b)
  }

  /** The workers of broker `b` that are given requests in a run, in order. */
  ghost function Given(cfg: Config, s: World, run: seq<Action>, b: string): seq<string>
    requires Feasible(cfg, s, run)
    decreases |run|
  {
    if run == [] then []
    else Addressed(Output(cfg, s, run[0]), b) + Given(cfg, Step(cfg, s, run[0]), run[1..], b)
  }

  /** The worker whose message the action takes in at broker `b`, if it is that. */
  function Heard(cfg: Config, s: World, a: Action, b: string): seq<string>
    requires Enabled(cfg, s, a)
  {
    if a == LocalBackend(b) then [Head(s.net, LocalBe(b))[0]] else []
  }

  /** The workers whose announcements and replies broker `b` takes in during a run, in order. */
  ghost function Returned(cfg: Config, s: World, run: seq<Action>, b: string): seq<string>
    requires Feasible(cfg, s, run)
    decreases |run|
  {
    if run == [] then []
    else Heard(cfg, s, run[0], b) + Returned(cfg, Step(cfg, s, run[0]), run[1..], b)
  }

  lemma DispatchAddresses(cfg: Config, s: World, a: Action, b: string)
    requires ValidConfig(cfg) && Inv(cfg, s) && Enabled(cfg, s, a)
    requires a == CloudRequest(b) || a == LocalRequest(b, None)
    ensures Addressed(Output(cfg, s, a), b) == [s.ready[b][0]]
  {
    ReadyWorker(cfg, s, b);
    var m := [s.ready[b][0], ""] + Head(s.net, Source(a).value);
    assert Output(cfg, s, a) == [Packet(WorkerIn(Key(b, m[0])), m[1..])];
  }

  lemma OnlyDispatchAddresses(cfg: Config, s: World, a: Action, b: string)
    requires Enabled(cfg, s, a) && a != CloudRequest(b) && a != LocalRequest(b, None)
    ensures Addressed(Output(cfg, s, a), b) == []
  {
  }

  lemma DispatchTakesFront(cfg: Config, s: World, a: Action, b: string)
    requires Enabled(cfg, s, a) && (a == CloudRequest(b) || a == LocalRequest(b, None))
    ensures b in s.ready && s.ready[b] != [] && b in Step(cfg, s, a).ready
    ensures [s.ready[b][0]] + Step(cfg, s, a).ready[b] == s.ready[b]
  {
  }

  lemma OthersKeepFront(cfg: Config, s: World, a: Action, b: string)
    requires Enabled(cfg, s, a) && a != CloudRequest(b) && a != LocalRequest(b, None) && b in s.ready
    ensures b in Step(cfg, s, a).ready && Step(cfg, s, a).ready[b] == s.ready[b] + Heard(cfg, s, a, b)
  {
  }

  lemma StepInOrder(cfg: Config, s: World, a: Action, b: string)
    requires ValidConfig(cfg) && Inv(cfg, s) && Enabled(cfg, s, a) && b in s.ready
    ensures b in Step(cfg, s, a).ready
    ensures Addressed(Output(cfg, s, a), b) + Step(cfg, s, a).ready[b] == s.ready[b] + Heard(cfg, s, a, b)
  {
    if a == CloudRequest(b) || a == LocalRequest(b, None) {
      DispatchAddresses(cfg, s, a, b);
      DispatchTakesFront(cfg, s, a, b);
    } else {
      OnlyDispatchAddresses(cfg, s, a, b);
      OthersKeepFront(cfg, s, a, b);
    }
  }

  lemma Chain(a: seq<string>, as': seq<string>, q: seq<string>, q1: seq<string>, q2: seq<string>,
              h: seq<string>, hs: seq<string>)
    requires a + q1 == q + h && as' + q2 == q1 + hs
    ensures (a + as') + q2 == q + (h + hs)
  {
    assert (a + as') + q2 == a + (as' + q2) == a + (q1 + hs) == (a + q1) + hs;
  }

  lemma {:induction false} RunInOrder(cfg: Config, s: World, run: seq<Action>, b: string)
    requires ValidConfig(cfg) && Inv(cfg, s) && Feasible(cfg, s, run) && b in s.ready
    ensures b in After(cfg, s, run).ready
    ensures Given(cfg, s, run, b) + After(cfg, s, run).ready[b] == s.ready[b] + Returned(cfg, s, run, b)
    decreases |run|
  {
    if run == [] {
    } else {
      var t := Step(cfg, s, run[0]);
      StepInOrder(cfg, s, run[0], b);
      StepKeepsInv(cfg, s, run[0]);
      RunInOrder(cfg, t, run[1..], b);
      Chain(Addressed(Output(cfg, s, run[0]), b), Given(cfg, t, run[1..], b), s.ready[b], t.ready[b],
            After(cfg, s, run).ready[b], Heard(cfg, s, run[0], b), Returned(cfg, t, run[1..], b));
    }
  }

  /**
    A broker uses its workers in the order in which it last heard of them: over
    any run, those given requests, then those still ready, are those that were
    ready, then those whose announcements and replies were taken in.
  */
  lemma WorkersServeInOrder(cfg: Config, s: World, run: seq<Action>, b: string)
    requires ValidConfig(cfg) && Reachable(cfg, s) && Feasible(cfg, s, run) && b in cfg.peers
    ensures b in s.ready && b in After(cfg, s, run).ready
    ensures Given(cfg, s, run, b) + After(cfg, s, run).ready[b] == s.ready[b] + Returned(cfg, s, run, b)
  {
    ReachableInv(cfg, s);
    RunInOrder(cfg, s, run, b);
  }
}
