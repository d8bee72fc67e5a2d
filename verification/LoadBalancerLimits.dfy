/**
  Why the load-balancing broker's shutdown can leave a worker behind: in every
  configuration with two workers the countdown can end before one of them has
  announced itself, and that one is never told to stop.
*/
module LoadBalancerLimits {
  import opened Wrappers
  import opened Inboxes
  import opened LoadBalancer
  import opened LoadBalancerInvariant
  import opened LoadBalancerTheorems

  /** A run continued by one more action. */
  lemma Extend(cfg: Config, run: seq<Action>, a: Action)
    requires Feasible(cfg, Init(cfg), run) && Enabled(cfg, After(cfg, Init(cfg), run), a)
    ensures Feasible(cfg, Init(cfg), run + [a])
    ensures After(cfg, Init(cfg), run + [a]) == Step(cfg, After(cfg, Init(cfg), run), a)
  {
    OneAction(cfg, After(cfg, Init(cfg), run), a);
    FeasibleConcat(cfg, Init(cfg), run, [a]);
  }

  /**
    The run has left nothing in transit and `v` the only worker registered and
    queued, with `done` the clients answered.
  */
  ghost predicate Alone(cfg: Config, run: seq<Action>, v: string, done: set<string>) {
    && Feasible(cfg, Init(cfg), run)
    && var s := After(cfg, Init(cfg), run);
       && s.net == [] && s.queue == [v] && s.registered == {v}
       && s.started == s.answered == done
       && s.countdown == |cfg.clients| - |done|
       && s.phase == if s.countdown > 0 then Serving else Joining
  }

  /** The one message in transit is received, and what the action sends is then all that is in transit. */
  lemma OneStep(cfg: Config, run: seq<Action>, a: Action, p: Packet<Socket>)
    requires Feasible(cfg, Init(cfg), run)
    requires var s := After(cfg, Init(cfg), run);
             s.net == [p] && Enabled(cfg, s, a) && Source(a) == Some(p.sock)
    ensures Feasible(cfg, Init(cfg), run + [a])
    ensures var s := After(cfg, Init(cfg), run);
      After(cfg, Init(cfg), run + [a]) == Step(cfg, s, a) && Step(cfg, s, a).net == Output(cfg, s, a)
  {
    Extend(cfg, run, a);
    Single(p);
  }

  /** Worker `v` announces itself. */
  lemma Begin(cfg: Config, v: string) returns (run: seq<Action>)
    requires ValidConfig(cfg) && v in cfg.workers
    ensures Alone(cfg, run, v, {})
  {
    var p := Packet(Backend, [v, "", "READY"]);
    Extend(cfg, [], WorkerReady(v));
    run := [] + [WorkerReady(v)];
    assert After(cfg, Init(cfg), run).net == [p];
    Single(p);
    OneStep(cfg, run, TakeReply, p);
    run := run + [TakeReply];
  }

  /** The request of client `c` reaches worker `v`. */
  lemma Ask(cfg: Config, run: seq<Action>, v: string, done: set<string>, c: string) returns (run': seq<Action>)
    requires ValidConfig(cfg) && v in cfg.workers && Alone(cfg, run, v, done) && c in cfg.clients && c !in done
    requires |done| < |cfg.clients|
    ensures Feasible(cfg, Init(cfg), run')
    ensures var s, t := After(cfg, Init(cfg), run), After(cfg, Init(cfg), run');
      && t.net == [Packet(WorkerIn(v), ["", c, "", "HELLO"])] && t.queue == []
      && t == s.(net := t.net, queue := t.queue, started := s.started + {c}, dispatched := t.dispatched)
  {
    var p := Packet(Frontend, [c, "", "HELLO"]);
    Extend(cfg, run, ClientSend(c));
    run' := run + [ClientSend(c)];
    assert After(cfg, Init(cfg), run').net == [p];
    Single(p);
    assert [v, "", c, "", "HELLO"][1..] == ["", c, "", "HELLO"];
    OneStep(cfg, run', TakeRequest, p);
    run' := run' + [TakeRequest];
  }

  /** Worker `v` serves client `c`, and is queued again. */
  lemma Serve(cfg: Config, run: seq<Action>, v: string, c: string) returns (run': seq<Action>)
    requires ValidConfig(cfg) && v in cfg.workers && c in cfg.clients && Feasible(cfg, Init(cfg), run)
    requires var s := After(cfg, Init(cfg), run);
      && s.net == [Packet(WorkerIn(v), ["", c, "", "HELLO"])] && s.queue == [] && s.phase == Serving
      && c in s.started && c !in s.answered
    ensures Feasible(cfg, Init(cfg), run')
    ensures var s, t := After(cfg, Init(cfg), run), After(cfg, Init(cfg), run');
      t == s.(net := [], queue := [v], readied := t.readied, answered := s.answered + {c},
              countdown := s.countdown - 1, phase := if s.countdown - 1 == 0 then Joining else Serving)
  {
    var p, q := Packet(WorkerIn(v), ["", c, "", "HELLO"]), Packet(Backend, [v, "", c, "", "OK"]);
    Single(p);
    OneStep(cfg, run, WorkerServe(v), p);
    run' := run + [WorkerServe(v)];
    assert After(cfg, Init(cfg), run') == After(cfg, Init(cfg), run).(net := [q]);
    run' := TakeBack(cfg, run', v, c);
  }

  /** The reply of worker `v` reaches client `c`. */
  lemma TakeBack(cfg: Config, run: seq<Action>, v: string, c: string) returns (run': seq<Action>)
    requires ValidConfig(cfg) && c in cfg.clients && Feasible(cfg, Init(cfg), run)
    requires var s := After(cfg, Init(cfg), run);
      && s.net == [Packet(Backend, [v, "", c, "", "OK"])] && s.queue == [] && s.phase == Serving
      && c in s.started && c !in s.answered
    ensures Feasible(cfg, Init(cfg), run')
    ensures var s, t := After(cfg, Init(cfg), run), After(cfg, Init(cfg), run');
      t == s.(net := [], queue := [v], readied := t.readied, answered := s.answered + {c},
              countdown := s.countdown - 1, phase := if s.countdown - 1 == 0 then Joining else Serving)
  {
    var p, q := Packet(Backend, [v, "", c, "", "OK"]), Packet(ClientIn(c), ["", "OK"]);
    Single(p);
    assert [c, "", "OK"][1..] == ["", "OK"];
    OneStep(cfg, run, TakeReply, p);
    run' := run + [TakeReply];
    assert After(cfg, Init(cfg), run').net == [q];
    Single(q);
    OneStep(cfg, run', ClientReceive(c), q);
    run' := run' + [ClientReceive(c)];
  }

  /** Worker `v` serves all the clients that are left, one after the other. */
  lemma {:induction false} ServeAll(cfg: Config, run: seq<Action>, v: string, done: set<string>)
    returns (run': seq<Action>)
    requires ValidConfig(cfg) && v in cfg.workers && done <= cfg.clients && Alone(cfg, run, v, done)
    ensures Alone(cfg, run', v, cfg.clients)
    decreases cfg.clients - done
  {
    if done == cfg.clients {
      run' := run;
    } else {
      var left := cfg.clients - done;
      assert cfg.clients == done + left;
      assert left != {};
      var c :| c in left;
      run' := Ask(cfg, run, v, done, c);
      run' := Serve(cfg, run', v, c);
      run' := ServeAll(cfg, run', v, done + {c});
    }
  }

  /**
    Whatever the clients and the workers, if there are two workers one of them
    may serve all the clients before another has announced itself.  However the
    system then runs on until nothing more can happen, only the first stops.
  */
  lemma LateWorkerWaitsForEver(cfg: Config, v: string, w: string) returns (run: seq<Action>)
    requires ValidConfig(cfg) && v in cfg.workers && w in cfg.workers && v != w
    ensures Feasible(cfg, Init(cfg), run)
    ensures var s := After(cfg, Init(cfg), run);
      && s.phase == Joining && s.queue == [v]
      && forall more :: Feasible(cfg, s, more) && AtRest(cfg, After(cfg, s, more)) ==>
           After(cfg, s, more).exited == {v} && w in After(cfg, s, more).registered
  {
    run := Begin(cfg, v);
    run := ServeAll(cfg, run, v, {});
    var s := After(cfg, Init(cfg), run);
    forall more | Feasible(cfg, s, more) && AtRest(cfg, After(cfg, s, more))
      ensures After(cfg, s, more).exited == {v} && w in After(cfg, s, more).registered
    {
      StoppedAreTheQueued(cfg, s, more);
      FeasibleConcat(cfg, Init(cfg), run, more);
      EveryRunShutsDown(cfg, After(cfg, s, more));
    }
  }

  // ---------------------------------------------------------------- when everybody stops

  /** From every reachable state the system can run on until nothing more can happen. */
  lemma {:induction false} ComesToRest(cfg: Config, s: World) returns (run: seq<Action>)
    requires ValidConfig(cfg) && Inv(cfg, s)
    ensures Feasible(cfg, s, run) && AtRest(cfg, After(cfg, s, run))
    decreases Measure(cfg, s)
  {
    if AtRest(cfg, s) {
      run := [];
    } else {
      var a :| Enabled(cfg, s, a);
      StepDecreases(cfg, s, a);
      StepKeepsInv(cfg, s, a);
      var rest := ComesToRest(cfg, Step(cfg, s, a));
      run := [a] + rest;
      assert run[1..] == rest;
    }
  }

  /** The worker whose reply ended the countdown is queued or told to stop. */
  lemma {:induction false} SomebodyIsStopped(cfg: Config, s: World, run: seq<Action>)
    requires Feasible(cfg, s, run) && (s.phase != Serving ==> s.notified + s.queue != [])
    ensures var t := After(cfg, s, run); t.phase != Serving ==> t.notified + t.queue != []
    decreases |run|
  {
    if run == [] {
    } else {
      SomebodyIsStopped(cfg, Step(cfg, s, run[0]), run[1..]);
    }
  }

  lemma OneWorkerStops(cfg: Config, run: seq<Action>)
    requires ValidConfig(cfg) && |cfg.workers| == 1
    requires Feasible(cfg, Init(cfg), run) && AtRest(cfg, After(cfg, Init(cfg), run))
    ensures After(cfg, Init(cfg), run).exited == cfg.workers
  {
    var t := After(cfg, Init(cfg), run);
    EveryRunShutsDown(cfg, t);
    SomebodyIsStopped(cfg, Init(cfg), run);
    var v := t.notified[0];
    assert v in multiset(t.notified);
    ReachableInv(cfg, t);
    assert WorkerInPlace(t, v) && v in cfg.workers;
    OnlyElement(cfg.workers, v);
    forall w | w in t.exited ensures w in cfg.workers {
      assert WorkerInPlace(t, w);
    }
  }

  lemma OnlyElement<T>(s: set<T>, x: T)
    requires |s| == 1 && x in s
    ensures s == {x}
  {
    assert |s - {x}| == 0;
  }

  /** That the shutdown stops every worker is certain, however the system runs, only if there is a single worker. */
  lemma ShutdownIsSureIff(cfg: Config)
    requires ValidConfig(cfg) && cfg.workers != {}
    ensures (forall run :: Feasible(cfg, Init(cfg), run) && AtRest(cfg, After(cfg, Init(cfg), run))
                           ==> After(cfg, Init(cfg), run).exited == cfg.workers)
       <==> |cfg.workers| == 1
  {
    if |cfg.workers| == 1 {
      forall run | Feasible(cfg, Init(cfg), run) && AtRest(cfg, After(cfg, Init(cfg), run))
        ensures After(cfg, Init(cfg), run).exited == cfg.workers
      {
        OneWorkerStops(cfg, run);
      }
    } else {
      var v :| v in cfg.workers;
      assert cfg.workers != {v};
      var w :| w in cfg.workers && w != v;
      var run := LateWorkerWaitsForEver(cfg, v, w);
      var s := After(cfg, Init(cfg), run);
      ReachableInv(cfg, s);
      var more := ComesToRest(cfg, s);
      FeasibleConcat(cfg, Init(cfg), run, more);
      assert w !in After(cfg, Init(cfg), run + more).exited;
    }
  }
}
