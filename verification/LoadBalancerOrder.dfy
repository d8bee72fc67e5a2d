/**
  In what order the workers are used and told to stop, read off the messages of
  a run and not off the broker's deque or the records kept beside it.
*/
module LoadBalancerOrder {
  import opened Wrappers
  import opened Inboxes
  import opened LoadBalancer
  import opened LoadBalancerInvariant

  /** The workers that `out` has messages for: requests, or notices to stop. */
  function Addressed(out: Net, stop: bool): seq<string> {
    if out == [] then []
    else
      (if out[0].sock.WorkerIn? && (out[0].msg == ["", "KILL"]) == stop then [out[0].sock.w] else [])
      + Addressed(out[1..], stop)
  }

  /** The workers that are sent requests, or notices to stop, in a run, in order. */
  ghost function SentTo(cfg: Config, s: World, run: seq<Action>, stop: bool): seq<string>
    requires Feasible(cfg, s, run)
    decreases |run|
  {
    if run == [] then []
    else Addressed(Output(cfg, s, run[0]), stop) + SentTo(cfg, Step(cfg, s, run[0]), run[1..], stop)
  }

  /** The worker whose announcement or reply the action takes in, if it is that. */
  function Heard(cfg: Config, s: World, a: Action): seq<string>
    requires Enabled(cfg, s, a)
  {
    if a.TakeReply? then [Head(s.net, Backend)[0]] else []
  }

  /** The workers whose announcements and replies the broker takes in during a run, in order. */
  ghost function Returned(cfg: Config, s: World, run: seq<Action>): seq<string>
    requires Feasible(cfg, s, run)
    decreases |run|
  {
    if run == [] then [] else Heard(cfg, s, run[0]) + Returned(cfg, Step(cfg, s, run[0]), run[1..])
  }

  lemma StepAddresses(cfg: Config, s: World, a: Action)
    requires ValidConfig(cfg) && Inv(cfg, s) && Enabled(cfg, s, a)
    ensures Addressed(Output(cfg, s, a), false) == if a.TakeRequest? then [s.queue[0]] else []
    ensures Addressed(Output(cfg, s, a), true) == if a.Kill? then [s.queue[0]] else []
  {
    if a.TakeRequest? {
      RequestKeepsInv(cfg, s);
    } else if a.Kill? {
      KillKeepsInv(cfg, s);
    }
  }

  /** The records of a step are what its messages say. */
  lemma StepRecords(cfg: Config, s: World, a: Action)
    requires ValidConfig(cfg) && Inv(cfg, s) && Enabled(cfg, s, a)
    ensures var t := Step(cfg, s, a);
      && t.dispatched == s.dispatched + Addressed(Output(cfg, s, a), false)
      && t.notified == s.notified + Addressed(Output(cfg, s, a), true)
      && t.readied == s.readied + Heard(cfg, s, a)
  {
    StepAddresses(cfg, s, a);
    StepWrites(cfg, s, a);
  }

  lemma StepWrites(cfg: Config, s: World, a: Action)
    requires Enabled(cfg, s, a)
    ensures var t := Step(cfg, s, a);
      && t.dispatched == s.dispatched + (if a.TakeRequest? then [s.queue[0]] else [])
      && t.notified == s.notified + (if a.Kill? then [s.queue[0]] else [])
      && t.readied == s.readied + Heard(cfg, s, a)
  {
  }

  lemma {:induction false} RunRecords(cfg: Config, s: World, run: seq<Action>)
    requires ValidConfig(cfg) && Inv(cfg, s) && Feasible(cfg, s, run)
    ensures var t := After(cfg, s, run);
      && t.dispatched == s.dispatched + SentTo(cfg, s, run, false)
      && t.notified == s.notified + SentTo(cfg, s, run, true)
      && t.readied == s.readied + Returned(cfg, s, run)
      && Inv(cfg, t)
    decreases |run|
  {
    if run == [] {
    } else {
      StepRecords(cfg, s, run[0]);
      StepKeepsInv(cfg, s, run[0]);
      var t := Step(cfg, s, run[0]);
      RunRecords(cfg, t, run[1..]);
      Assoc(s.dispatched, Addressed(Output(cfg, s, run[0]), false), SentTo(cfg, t, run[1..], false));
      Assoc(s.notified, Addressed(Output(cfg, s, run[0]), true), SentTo(cfg, t, run[1..], true));
      Assoc(s.readied, Heard(cfg, s, run[0]), Returned(cfg, t, run[1..]));
    }
  }

  lemma Assoc(a: seq<string>, b: seq<string>, c: seq<string>)
    ensures a + b + c == a + (b + c)
  {
  }

  /**
    Over every run, the workers sent requests, then those told to stop, then
    those still queued are the workers heard of, each in the order it came.
  */
  lemma DispatchIsFifo(cfg: Config, run: seq<Action>)
    requires ValidConfig(cfg) && Feasible(cfg, Init(cfg), run)
    ensures var t := After(cfg, Init(cfg), run);
      && SentTo(cfg, Init(cfg), run, false) + SentTo(cfg, Init(cfg), run, true) + t.queue
         == Returned(cfg, Init(cfg), run)
      && t.dispatched == SentTo(cfg, Init(cfg), run, false)
      && t.notified == SentTo(cfg, Init(cfg), run, true)
      && t.readied == Returned(cfg, Init(cfg), run)
  {
    InitInv(cfg);
    RunRecords(cfg, Init(cfg), run);
    var t := After(cfg, Init(cfg), run);
    assert t.dispatched == SentTo(cfg, Init(cfg), run, false) && t.notified == SentTo(cfg, Init(cfg), run, true);
  }

  /** Until the broker begins to stop the workers none is told to. */
  lemma NoneToldWhileServing(cfg: Config, run: seq<Action>)
    requires ValidConfig(cfg) && Feasible(cfg, Init(cfg), run)
    ensures After(cfg, Init(cfg), run).phase != Killing ==> SentTo(cfg, Init(cfg), run, true) == []
  {
    InitInv(cfg);
    RunRecords(cfg, Init(cfg), run);
  }
}
