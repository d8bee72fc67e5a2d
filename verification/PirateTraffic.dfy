/**
  What the Paranoid Pirate broker sends, turn by turn and over whole runs, and
  the order in which its queue stands, from what it receives.
*/
module PirateTraffic {
  import opened Wrappers
  import opened Inboxes
  import opened WorkerQueue
  import opened PirateCommon
  import opened PirateQueue

  // ---------------------------------------------------------------- the queue

  /** `q` without `id`, the others in the same order. */
  function Others(q: seq<string>, id: string): seq<string> {
    if q == [] then [] else (if q[0] == id then [] else [q[0]]) + Others(q[1..], id)
  }

  lemma {:induction false} NoneToLeaveOut(q: seq<string>, id: string)
    requires id !in q
    ensures Others(q, id) == q
  {
    if q == [] {
    } else {
      NoneToLeaveOut(q[1..], id);
    }
  }

  lemma {:induction false} WithoutIsOthers(q: seq<string>, id: string)
    requires Distinct(q)
    ensures Without(q, id) == Others(q, id)
  {
    if q == [] {
    } else if q[0] == id {
      assert id !in q[1..];
      NoneToLeaveOut(q[1..], id);
    } else {
      WithoutIsOthers(q[1..], id);
    }
  }

  /** The queue after a worker's message: one that is ready, or replies and is not queued, goes to the back. */
  function QueueAfter(q: seq<string>, backend: Option<Message>): seq<string> {
    if backend.None? then q
    else
      var m := backend.value;
      if |m| == 2 && m[1] == "READY" then Others(q, m[0]) + [m[0]]
      else if |m| >= 3 && m[0] !in q then q + [m[0]]
      else q
  }

  lemma ReceivedQueue(s: State, input: Input)
    requires Inv(s) && Deliverable(input)
    ensures Received(s, input).roster.queue == QueueAfter(s.roster.queue, input.backend)
  {
    if input.backend.Some? && input.backend.value != [] {
      WithoutIsOthers(s.roster.queue, input.backend.value[0]);
    }
  }

  /** Whether the turn hands on a request: only if somebody was queued when it began. */
  predicate Serves(s: State, input: Input) {
    s.roster.queue != [] && input.frontend.Some?
  }

  /** The queue once the turn's request, if any, has been handed to the worker at its front. */
  function QueueServed(s: State, input: Input): (q: seq<string>) {
    var q := QueueAfter(s.roster.queue, input.backend);
    if Serves(s, input) && q != [] then q[1..] else q
  }

  lemma QueueStaysNonempty(s: State, input: Input)
    ensures s.roster.queue != [] ==> QueueAfter(s.roster.queue, input.backend) != []
  {
  }

  lemma DispatchedQueue(s: State, input: Input)
    requires Inv(s) && Deliverable(input)
    ensures Dispatched(s, Received(s, input), input).roster.queue == QueueServed(s, input)
  {
    ReceivedQueue(s, input);
  }

  // ---------------------------------------------------------------- one turn

  /** What a turn sends to the clients: the reply of a worker, without the worker's identity. */
  function Forwarded(input: Input): seq<Message> {
    if input.backend.Some? && |input.backend.value| >= 3 then [input.backend.value[1..]] else []
  }

  /** A turn ends the loop exactly on an interrupted receive or a stray heartbeat. */
  lemma PassStatus(s: State, input: Input)
    requires Inv(s) && s.status == Running && Deliverable(input)
    ensures Pass(s, input).status == if input.backend == Some([]) then Stopped
                                     else if StrayHeartbeat(s, input) then Aborted else Running
    ensures Received(s, input).status == Pass(s, input).status
  {
  }

  lemma PassForwards(s: State, input: Input)
    requires Inv(s) && s.status == Running && Deliverable(input)
    ensures Pass(s, input).toClients == s.toClients + Forwarded(input)
  {
    ReceivedForwards(s, input);
  }

  lemma ReceivedForwards(s: State, input: Input)
    requires Deliverable(input)
    ensures Received(s, input).toClients == s.toClients + Forwarded(input)
  {
  }

  /** The clock is past the time for the next heartbeats, and there is somebody to send them to. */
  predicate BeatsDue(s: State, input: Input) {
    QueueServed(s, input) != [] && input.clock(1) > s.heartbeatAt
  }

  /**
    What a turn that goes through sends to the workers: the request to the front
    one, and a heartbeat to each that is queued.
  */
  function ToWorkers(s: State, input: Input): seq<Message> {
    var front, q := QueueAfter(s.roster.queue, input.backend), QueueServed(s, input);
    (if Serves(s, input) && front != [] then [[front[0]] + input.frontend.value] else [])
    + (if BeatsDue(s, input) then seq(|q|, i requires 0 <= i < |q| => [q[i], "HEARTBEAT"]) else [])
  }

  lemma ReceivedSendsNoWorker(s: State, input: Input)
    requires Deliverable(input)
    ensures Received(s, input).toWorkers == s.toWorkers && Received(s, input).heartbeatAt == s.heartbeatAt
  {
  }

  lemma DispatchedSends(s: State, input: Input)
    requires Inv(s) && Deliverable(input)
    ensures var front, t := QueueAfter(s.roster.queue, input.backend), Dispatched(s, Received(s, input), input);
      && t.toWorkers == s.toWorkers
         + (if Serves(s, input) && front != [] then [[front[0]] + input.frontend.value] else [])
      && t.heartbeatAt == s.heartbeatAt
  {
    ReceivedSendsNoWorker(s, input);
    ReceivedQueue(s, input);
  }

  lemma TickSends(s: State, clock: Clock)
    ensures var q, due := s.roster.queue, s.roster.queue != [] && clock(1) > s.heartbeatAt;
      && Tick(s, clock).toWorkers
         == s.toWorkers + (if due then seq(|q|, i requires 0 <= i < |q| => [q[i], "HEARTBEAT"]) else [])
      && Tick(s, clock).heartbeatAt == if due then clock(2) + INTERVAL else s.heartbeatAt
  {
  }

  lemma PassSendsWorkers(s: State, input: Input)
    requires Inv(s) && s.status == Running && Deliverable(input)
    ensures var t := Pass(s, input);
      if t.status == Running then
        && t.toWorkers == s.toWorkers + ToWorkers(s, input)
        && t.heartbeatAt == if BeatsDue(s, input) then input.clock(2) + INTERVAL else s.heartbeatAt
      else t.toWorkers == s.toWorkers && t.heartbeatAt == s.heartbeatAt
  {
    PassStatus(s, input);
    ReceivedSendsNoWorker(s, input);
    DispatchedQueue(s, input);
    DispatchedSends(s, input);
    TickSends(Dispatched(s, Received(s, input), input), input.clock);
  }

  /** The request goes to the worker at the front exactly if that is the worker it is said to be given to. */
  lemma GivenIsFront(s: State, input: Input, id: string)
    requires Inv(s) && Deliverable(input)
    ensures GivenRequest(s, input, id)
       <==> Serves(s, input) && QueueAfter(s.roster.queue, input.backend)[..1] == [id]
  {
    ReceivedQueue(s, input);
    QueueStaysNonempty(s, input);
  }

  /** Who is queued after a turn that goes through is what the purge leaves of those queued when it begins. */
  lemma PassPurges(s: State, input: Input)
    requires Inv(s) && s.status == Running && Deliverable(input) && Pass(s, input).status == Running
    ensures var r := Dispatched(s, Received(s, input), input).roster;
      && Consistent(r) && r.queue == QueueServed(s, input)
      && Pass(s, input).roster == Purge(r, Later(input.clock))
  {
    PassStatus(s, input);
    DispatchedQueue(s, input);
    ReceivedKeepsInv(s, input);
    DispatchedKeepsInv(s, Received(s, input), input);
    var r := Dispatched(s, Received(s, input), input).roster;
    if r.queue == [] {
      PurgeIdentity(r, Later(input.clock));
    }
  }

  // ---------------------------------------------------------------- whole runs

  /** How many of the inputs were taken: all, or those up to the one that ended the loop. */
  function TurnsTaken(now: int, inputs: seq<Input>): (n: nat)
    requires forall i :: i in inputs ==> Deliverable(i)
    ensures n <= |inputs|
    decreases |inputs|
  {
    if inputs == [] then 0
    else
      var init := inputs[..|inputs| - 1];
      if Run(Init(now), init).status == Running then |inputs| else TurnsTaken(now, init)
  }

  function AllForwarded(inputs: seq<Input>): seq<Message> {
    if inputs == [] then [] else AllForwarded(inputs[..|inputs| - 1]) + Forwarded(inputs[|inputs| - 1])
  }

  /** Over every run the clients are sent just the replies of the workers, in the order they came. */
  lemma {:induction false} RunForwards(now: int, inputs: seq<Input>)
    requires forall i :: i in inputs ==> Deliverable(i)
    ensures Run(Init(now), inputs).toClients == AllForwarded(inputs[..TurnsTaken(now, inputs)])
    decreases |inputs|
  {
    if inputs == [] {
    } else {
      RunForwards(now, inputs[..|inputs| - 1]);
      LastTurnForwards(now, inputs);
      LastTurnTaken(now, inputs);
    }
  }

  lemma LastTurnForwards(now: int, inputs: seq<Input>)
    requires inputs != [] && forall i :: i in inputs ==> Deliverable(i)
    ensures var init, last := inputs[..|inputs| - 1], inputs[|inputs| - 1];
      Run(Init(now), inputs).toClients == Run(Init(now), init).toClients
        + (if Run(Init(now), init).status == Running then Forwarded(last) else [])
  {
    var n := |inputs| - 1;
    if Run(Init(now), inputs[..n]).status == Running {
      RunKeepsInv(now, inputs[..n]);
      PassForwards(Run(Init(now), inputs[..n]), inputs[n]);
    }
  }

  lemma LastTurnTaken(now: int, inputs: seq<Input>)
    requires inputs != [] && forall i :: i in inputs ==> Deliverable(i)
    ensures var init, last := inputs[..|inputs| - 1], inputs[|inputs| - 1];
      AllForwarded(inputs[..TurnsTaken(now, inputs)]) == AllForwarded(init[..TurnsTaken(now, init)])
        + (if Run(Init(now), init).status == Running then Forwarded(last) else [])
  {
    var init := inputs[..|inputs| - 1];
    if Run(Init(now), init).status == Running {
      AllTaken(now, init);
      assert init[..|init|] == init && inputs[..|inputs|] == inputs;
    } else {
      assert init[..TurnsTaken(now, inputs)] == inputs[..TurnsTaken(now, inputs)];
    }
  }

  lemma AllTaken(now: int, inputs: seq<Input>)
    requires (forall i :: i in inputs ==> Deliverable(i)) && Run(Init(now), inputs).status == Running
    ensures TurnsTaken(now, inputs) == |inputs|
  {
  }

  /** What the turns of a run send to the workers, each from the state it finds. */
  function AllToWorkers(now: int, inputs: seq<Input>): seq<Message>
    requires forall i :: i in inputs ==> Deliverable(i)
    decreases |inputs|
  {
    if inputs == [] then []
    else
      var init, last := inputs[..|inputs| - 1], inputs[|inputs| - 1];
      AllToWorkers(now, init)
      + (if Run(Init(now), inputs).status == Running then ToWorkers(Run(Init(now), init), last) else [])
  }

  /** Over every run the workers are sent just the requests and the heartbeats of its turns, in order. */
  lemma {:induction false} RunSendsWorkers(now: int, inputs: seq<Input>)
    requires forall i :: i in inputs ==> Deliverable(i)
    ensures Run(Init(now), inputs).toWorkers == AllToWorkers(now, inputs)
    decreases |inputs|
  {
    if inputs == [] {
    } else {
      var n := |inputs| - 1;
      RunSendsWorkers(now, inputs[..n]);
      LastTurnSendsWorkers(now, inputs);
    }
  }

  lemma LastTurnSendsWorkers(now: int, inputs: seq<Input>)
    requires inputs != [] && forall i :: i in inputs ==> Deliverable(i)
    ensures var before := Run(Init(now), inputs[..|inputs| - 1]);
      Run(Init(now), inputs).toWorkers
      == before.toWorkers
         + (if Run(Init(now), inputs).status == Running then ToWorkers(before, inputs[|inputs| - 1]) else [])
  {
    var n := |inputs| - 1;
    var before := Run(Init(now), inputs[..n]);
    if before.status == Running {
      RunKeepsInv(now, inputs[..n]);
      PassSendsWorkers(before, inputs[n]);
    }
  }

  /** When the next heartbeats are due: an interval after the start, and after each turn that sent some. */
  function NextBeats(now: int, inputs: seq<Input>): int
    requires forall i :: i in inputs ==> Deliverable(i)
    decreases |inputs|
  {
    if inputs == [] then now + INTERVAL
    else
      var init, last := inputs[..|inputs| - 1], inputs[|inputs| - 1];
      if Run(Init(now), inputs).status == Running && QueueServed(Run(Init(now), init), last) != []
         && last.clock(1) > NextBeats(now, init)
      then last.clock(2) + INTERVAL else NextBeats(now, init)
  }

  /** Over every run the broker beats by that timetable. */
  lemma {:induction false} RunBeats(now: int, inputs: seq<Input>)
    requires forall i :: i in inputs ==> Deliverable(i)
    ensures Run(Init(now), inputs).heartbeatAt == NextBeats(now, inputs)
    decreases |inputs|
  {
    if inputs == [] {
    } else {
      var n := |inputs| - 1;
      var before := Run(Init(now), inputs[..n]);
      RunBeats(now, inputs[..n]);
      if before.status == Running {
        RunKeepsInv(now, inputs[..n]);
        PassSendsWorkers(before, inputs[n]);
      }
    }
  }
}
