/**
  The Paranoid Pirate broker: a loop that takes at most one message from the
  workers and one from the clients, beats, and purges.  `Pass` is one turn of
  that loop; a run is any sequence of inputs.
*/
module PirateQueue {
  import opened Wrappers
  import opened Inboxes
  import opened WorkerQueue
  import opened Workers
  import opened PirateCommon

  /** Aborted: an assertion of the queue failed.  Stopped: a receive was interrupted. */
  datatype Status = Running | Stopped | Aborted

  datatype State = State(
    roster: Roster,
    touched: map<string, int>,
    heartbeatAt: int,
    status: Status,
    toClients: seq<Message>,
    toWorkers: seq<Message>)

  /**
    What one turn finds.  The clock is read once for a push or refresh, twice
    for the heartbeat, and then in each turn of the purge.
  */
  datatype Input = Input(backend: Option<Message>, frontend: Option<Message>, clock: Clock)

  /** A router never delivers an identity alone; an interrupted receive gives no frames. */
  predicate Deliverable(input: Input) {
    input.backend.Some? ==> |input.backend.value| != 1
  }

  function Init(now: int): State {
    State(Roster([], map[]), map[], now + INTERVAL, Running, [], [])
  }

  function Touch(s: State, r: Roster, id: string, now: int): State {
    s.(roster := r, touched := s.touched[id := now])
  }

  function OnBackend(s: State, m: Message, now: int): State
    requires |m| != 1
  {
    if m == [] then s.(status := Stopped)
    else
      var id, frames := m[0], m[1..];
      if |frames| == 1 then
        if frames[0] == "READY" then Touch(s, Push(Erase(s.roster, id), id, now + TTL), id, now)
        else if frames[0] == "HEARTBEAT" then
          if id in s.roster.expiry then
            Touch(s, s.roster.(expiry := s.roster.expiry[id := now + TTL]), id, now)
          else s.(status := Aborted)
        else s
      else
        var t := s.(toClients := s.toClients + [frames]);
        if id in s.roster.expiry then t else Touch(t, Push(s.roster, id, now + TTL), id, now)
  }

  function OnFrontend(s: State, m: Message): State
    requires s.roster.queue != []
  {
    s.(toWorkers := s.toWorkers + [[s.roster.queue[0]] + m], roster := Pop(s.roster))
  }

  function Beats(queue: seq<string>): seq<Message> {
    seq(|queue|, i requires 0 <= i < |queue| => [queue[i], "HEARTBEAT"])
  }

  function Later(clock: Clock): Clock {
    (i: nat) => clock(i + 3)
  }

  function Tick(s: State, clock: Clock): State {
    if s.roster.queue == [] then s
    else
      var t := if clock(1) > s.heartbeatAt
               then s.(toWorkers := s.toWorkers + Beats(s.roster.queue), heartbeatAt := clock(2) + INTERVAL)
               else s;
      t.(roster := Purge(s.roster, Later(clock)))
  }

  /** One turn: the clients are polled only if a worker was ready before. */
  function Pass(s: State, input: Input): State
    requires Deliverable(input)
  {
    var s1 := Received(s, input);
    if s1.status != Running then s1
    else Tick(Dispatched(s, s1, input), input.clock)
  }

  function Received(s: State, input: Input): State
    requires Deliverable(input)
  {
    if input.backend.Some? then OnBackend(s, input.backend.value, input.clock(0)) else s
  }

  function Dispatched(s: State, s1: State, input: Input): State {
    if s.roster.queue != [] && input.frontend.Some? && s1.roster.queue != []
    then OnFrontend(s1, input.frontend.value) else s1
  }

  // ---------------------------------------------------------------- the invariant

  ghost predicate Inv(s: State) {
    Consistent(s.roster) && Fresh(s.roster, s.touched, TTL)
  }

  lemma PushKeepsInv(s: State, r: Roster, id: string, now: int)
    requires Inv(s) && Consistent(r) && id !in r.expiry
    requires forall x :: x in r.expiry ==> x in s.roster.expiry && r.expiry[x] == s.roster.expiry[x]
    ensures Inv(Touch(s, Push(r, id, now + TTL), id, now))
  {
    PushKeepsConsistent(r, id, now + TTL);
  }

  lemma ReceivedKeepsInv(s: State, input: Input)
    requires Inv(s) && Deliverable(input)
    ensures Inv(Received(s, input))
  {
    if input.backend.Some? && input.backend.value != [] {
      var m, now := input.backend.value, input.clock(0);
      var id := m[0];
      if |m| == 2 {
        if m[1] == "READY" {
          EraseKeepsConsistent(s.roster, id);
          PushKeepsInv(s, Erase(s.roster, id), id, now);
        }
      } else if id !in s.roster.expiry {
        PushKeepsInv(s.(toClients := s.toClients + [m[1..]]), s.roster, id, now);
      }
    }
  }

  lemma DispatchedKeepsInv(s: State, s1: State, input: Input)
    requires Inv(s1)
    ensures Inv(Dispatched(s, s1, input))
  {
    PopKeepsConsistent(s1.roster);
  }

  lemma TickKeepsInv(s: State, clock: Clock)
    requires Inv(s)
    ensures Inv(Tick(s, clock))
  {
    PurgeKeepsFresh(s.roster, Later(clock), s.touched, TTL);
  }

  lemma PassKeepsInv(s: State, input: Input)
    requires Inv(s) && Deliverable(input)
    ensures Inv(Pass(s, input))
  {
    ReceivedKeepsInv(s, input);
    DispatchedKeepsInv(s, Received(s, input), input);
    TickKeepsInv(Dispatched(s, Received(s, input), input), input.clock);
  }

  /** `front` is never asked of an empty deque: a message from a worker never empties it. */
  lemma FrontIsSafe(s: State, input: Input)
    requires Inv(s) && Deliverable(input)
    ensures s.roster.queue != [] ==> Received(s, input).roster.queue != []
  {
  }

  // ---------------------------------------------------------------- runs

  function Run(s: State, inputs: seq<Input>): State
    requires forall i :: i in inputs ==> Deliverable(i)
    decreases |inputs|
  {
    if inputs == [] then s
    else
      var last := inputs[|inputs| - 1];
      var before := Run(s, inputs[..|inputs| - 1]);
      if before.status == Running then Pass(before, last) else before
  }

  /**
    Over all runs the deque and the expiry table agree, and each expiry time is
    the latest push or refresh plus the ttl.
  */
  lemma {:induction false} RunKeepsInv(now: int, inputs: seq<Input>)
    requires forall i :: i in inputs ==> Deliverable(i)
    ensures Inv(Run(Init(now), inputs))
    decreases |inputs|
  {
    if inputs == [] {
    } else {
      RunKeepsInv(now, inputs[..|inputs| - 1]);
      PassKeepsInv(Run(Init(now), inputs[..|inputs| - 1]), inputs[|inputs| - 1]);
    }
  }

  /** A heartbeat from a worker that is not queued: too slow, or busy with a request. */
  predicate StrayHeartbeat(s: State, input: Input) {
    && input.backend.Some? && |input.backend.value| == 2
    && input.backend.value[1] == "HEARTBEAT" && input.backend.value[0] !in s.roster.queue
  }

  /** Turn `i` of the run was taken while running, and received a stray heartbeat. */
  predicate StrayAt(s: State, inputs: seq<Input>, i: nat)
    requires i < |inputs| && forall j :: j in inputs ==> Deliverable(j)
  {
    var before := Run(s, inputs[..i]);
    before.status == Running && StrayHeartbeat(before, inputs[i])
  }

  ghost predicate Strayed(s: State, inputs: seq<Input>)
    requires forall j :: j in inputs ==> Deliverable(j)
  {
    exists i :: 0 <= i < |inputs| && StrayAt(s, inputs, i)
  }

  /** The broker has aborted exactly if some turn, taken while it was running, received a stray heartbeat. */
  lemma {:induction false} AbortsExactlyOnStrayHeartbeat(now: int, inputs: seq<Input>)
    requires forall i :: i in inputs ==> Deliverable(i)
    ensures Run(Init(now), inputs).status == Aborted <==> Strayed(Init(now), inputs)
    decreases |inputs|
  {
    if inputs == [] {
    } else {
      AbortsExactlyOnStrayHeartbeat(now, inputs[..|inputs| - 1]);
      LastTurnAborts(now, inputs);
      StrayedBeforeOrLast(Init(now), inputs);
    }
  }

  lemma StrayedBeforeOrLast(s: State, inputs: seq<Input>)
    requires inputs != [] && forall j :: j in inputs ==> Deliverable(j)
    ensures var n := |inputs| - 1;
      Strayed(s, inputs) <==> Strayed(s, inputs[..n]) || StrayAt(s, inputs, n)
  {
    var n := |inputs| - 1;
    if i :| 0 <= i < n && StrayAt(s, inputs[..n], i) {
      StrayAtPrefix(s, inputs, i);
    }
    if i :| 0 <= i < n && StrayAt(s, inputs, i) {
      StrayAtPrefix(s, inputs, i);
    }
  }

  lemma StrayAtPrefix(s: State, inputs: seq<Input>, i: nat)
    requires i < |inputs| - 1 && forall j :: j in inputs ==> Deliverable(j)
    ensures StrayAt(s, inputs[..|inputs| - 1], i) <==> StrayAt(s, inputs, i)
  {
    assert inputs[..|inputs| - 1][..i] == inputs[..i];
  }

  /** Once it has stopped or aborted the broker reads no more. */
  lemma {:induction false} RestIsIgnored(s: State, inputs: seq<Input>, i: nat)
    requires i <= |inputs| && forall j :: j in inputs ==> Deliverable(j)
    requires Run(s, inputs[..i]).status != Running
    ensures Run(s, inputs) == Run(s, inputs[..i])
    decreases |inputs|
  {
    if i == |inputs| {
      assert inputs[..i] == inputs;
    } else {
      assert inputs[..|inputs| - 1][..i] == inputs[..i];
      RestIsIgnored(s, inputs[..|inputs| - 1], i);
    }
  }

  lemma LastTurnAborts(now: int, inputs: seq<Input>)
    requires inputs != [] && forall i :: i in inputs ==> Deliverable(i)
    ensures var n := |inputs| - 1;
      Run(Init(now), inputs).status == Aborted
      <==> Run(Init(now), inputs[..n]).status == Aborted || StrayAt(Init(now), inputs, n)
  {
    var n := |inputs| - 1;
    var before := Run(Init(now), inputs[..n]);
    RunKeepsInv(now, inputs[..n]);
    if before.status == Running {
      StrayAborts(before, inputs[n]);
    }
  }

  lemma StrayAborts(s: State, input: Input)
    requires Inv(s) && s.status == Running && Deliverable(input)
    ensures Pass(s, input).status == Aborted <==> StrayHeartbeat(s, input)
  {
  }

  // ---------------------------------------------------------------- who is kept

  /** The turn pushes or refreshes `id`: it is READY, or beats while queued, or replies while not queued. */
  predicate Touches(s: State, input: Input, id: string)
    requires Deliverable(input)
  {
    && input.backend.Some? && |input.backend.value| >= 2 && input.backend.value[0] == id
    && var frames := input.backend.value[1..];
       if |frames| == 1 then frames[0] == "READY" || (frames[0] == "HEARTBEAT" && id in s.roster.queue)
       else id !in s.roster.queue
  }

  /** Turn `i` of the run was taken while running, and pushed or refreshed `id`. */
  predicate TouchedAt(s: State, inputs: seq<Input>, id: string, i: nat)
    requires i < |inputs| && forall j :: j in inputs ==> Deliverable(j)
  {
    var before := Run(s, inputs[..i]);
    before.status == Running && Touches(before, inputs[i], id)
  }

  /** Turn `i` was the last to push or refresh `id`. */
  ghost predicate LastTouch(s: State, inputs: seq<Input>, id: string, i: nat)
    requires i < |inputs| && forall j :: j in inputs ==> Deliverable(j)
  {
    TouchedAt(s, inputs, id, i) && forall k :: i < k < |inputs| ==> !TouchedAt(s, inputs, id, k)
  }

  lemma TouchedAtPrefix(s: State, inputs: seq<Input>, id: string, i: nat)
    requires i < |inputs| - 1 && forall j :: j in inputs ==> Deliverable(j)
    ensures TouchedAt(s, inputs[..|inputs| - 1], id, i) <==> TouchedAt(s, inputs, id, i)
  {
    assert inputs[..|inputs| - 1][..i] == inputs[..i];
  }

  /** `id`, if queued after a turn, was touched in it at time `now`, or was queued before with the same expiry time. */
  ghost predicate TouchedOrKept(s: State, r: Roster, id: string, touched: bool, now: int) {
    id in r.expiry ==>
      if touched then r.expiry[id] == now + TTL
      else id in s.roster.expiry && r.expiry[id] == s.roster.expiry[id]
  }

  lemma ReceivedTouches(s: State, input: Input, id: string)
    requires Inv(s) && Deliverable(input)
    ensures TouchedOrKept(s, Received(s, input).roster, id, Touches(s, input, id), input.clock(0))
  {
  }

  lemma PassTouches(s: State, input: Input, id: string)
    requires Inv(s) && Deliverable(input)
    ensures TouchedOrKept(s, Pass(s, input).roster, id, Touches(s, input, id), input.clock(0))
  {
    ReceivedTouches(s, input, id);
  }

  lemma LastTouchExtends(s: State, inputs: seq<Input>, id: string, i: nat)
    requires inputs != [] && forall j :: j in inputs ==> Deliverable(j)
    requires i < |inputs| - 1 && LastTouch(s, inputs[..|inputs| - 1], id, i)
    requires !TouchedAt(s, inputs, id, |inputs| - 1)
    ensures LastTouch(s, inputs, id, i)
  {
    forall k | i <= k < |inputs| - 1
      ensures TouchedAt(s, inputs, id, k) <==> TouchedAt(s, inputs[..|inputs| - 1], id, k)
    {
      TouchedAtPrefix(s, inputs, id, k);
    }
  }

  /** The last turn of a run, if it did not touch `id`, found it with the expiry time that it leaves it. */
  lemma LastTurnTouches(now: int, inputs: seq<Input>, id: string)
    requires inputs != [] && forall j :: j in inputs ==> Deliverable(j)
    ensures var n := |inputs| - 1;
      TouchedOrKept(Run(Init(now), inputs[..n]), Run(Init(now), inputs).roster, id,
                    TouchedAt(Init(now), inputs, id, n), inputs[n].clock(0))
  {
    var n := |inputs| - 1;
    RunKeepsInv(now, inputs[..n]);
    PassTouches(Run(Init(now), inputs[..n]), inputs[n], id);
  }

  /**
    Over any run the expiry time of a queued worker is the ttl after the turn
    that last pushed or refreshed it.
  */
  lemma {:induction false} ExpiryIsLastTouch(now: int, inputs: seq<Input>, id: string) returns (i: nat)
    requires forall j :: j in inputs ==> Deliverable(j)
    requires id in Run(Init(now), inputs).roster.expiry
    ensures i < |inputs| && LastTouch(Init(now), inputs, id, i)
    ensures Run(Init(now), inputs).roster.expiry[id] == inputs[i].clock(0) + TTL
    decreases |inputs|
  {
    if inputs == [] {
      assert false;
    } else {
      i := |inputs| - 1;
      LastTurnTouches(now, inputs, id);
      if !TouchedAt(Init(now), inputs, id, i) {
        i := ExpiryIsLastTouch(now, inputs[..|inputs| - 1], id);
        LastTouchExtends(Init(now), inputs, id, i);
      }
    }
  }

  /** The tick's purge reaches `id`, and the clock reading made at its position is later than `expires`. */
  predicate FoundExpired(s: State, clock: Clock, id: string, expires: int)
    requires id in s.roster.queue
  {
    var j := Position(s.roster.queue, id);
    Reached(s.roster, Later(clock), j) && clock(j + 3) > expires
  }

  /**
    A tick drops a queued worker exactly if its purge reaches the worker and the
    clock reading made there is more than the ttl after its latest push or refresh.
  */
  lemma PurgeSparesFresh(s: State, clock: Clock, id: string)
    requires Inv(s) && id in s.roster.queue
    ensures id in s.touched
    ensures id !in Tick(s, clock).roster.queue <==> FoundExpired(s, clock, id, s.touched[id] + TTL)
  {
    PurgeDropsAt(s.roster, Later(clock), Position(s.roster.queue, id));
  }

  /** The worker that this turn's request, if there is one, is given to. */
  predicate GivenRequest(s: State, input: Input, id: string)
    requires Deliverable(input)
  {
    s.roster.queue != [] && input.frontend.Some? && Received(s, input).roster.queue[..1] == [id]
  }

  lemma ReceivedKeepsWorker(s: State, input: Input, id: string)
    requires Inv(s) && Deliverable(input) && id in s.roster.queue
    ensures id in Received(s, input).roster.queue && id in Received(s, input).touched
    ensures Received(s, input).touched[id] == if Touches(s, input, id) then input.clock(0) else s.touched[id]
  {
  }

  /** A request takes exactly the worker it is given to from the queue. */
  lemma DispatchedKeepsWorker(s: State, input: Input, id: string)
    requires Inv(s) && Deliverable(input) && id in s.roster.queue
    ensures var s2 := Dispatched(s, Received(s, input), input);
            && (id in s2.roster.queue <==> !GivenRequest(s, input, id))
            && s2.touched == Received(s, input).touched
  {
    ReceivedKeepsInv(s, input);
    ReceivedKeepsWorker(s, input, id);
    PopTakesFront(Received(s, input).roster, id);
  }

  /**
    The purge that ends the turn finds `id` expired, by the time it was last
    pushed or refreshed, this turn included.
  */
  predicate DroppedIn(s: State, input: Input, id: string)
    requires Inv(s) && Deliverable(input) && id in s.roster.queue && !GivenRequest(s, input, id)
  {
    DispatchedKeepsWorker(s, input, id);
    var touched := if Touches(s, input, id) then input.clock(0) else s.touched[id];
    FoundExpired(Dispatched(s, Received(s, input), input), input.clock, id, touched + TTL)
  }

  /**
    A turn takes a queued worker out exactly if it goes through and the worker
    is given the client's request, or the purge reaches it and the clock reading
    made there is more than the ttl after it was last pushed or refreshed, this
    turn included.
  */
  lemma WorkerIsKept(s: State, input: Input, id: string)
    requires Inv(s) && s.status == Running && Deliverable(input) && id in s.roster.queue
    ensures id !in Pass(s, input).roster.queue
       <==> Received(s, input).status == Running && (GivenRequest(s, input, id) || DroppedIn(s, input, id))
  {
    ReceivedKeepsWorker(s, input, id);
    if Received(s, input).status == Running {
      ReceivedKeepsInv(s, input);
      DispatchedKeepsInv(s, Received(s, input), input);
      DispatchedKeepsWorker(s, input, id);
      var s2 := Dispatched(s, Received(s, input), input);
      if GivenRequest(s, input, id) {
        PurgeDropsExactly(s2.roster, Later(input.clock));
      } else {
        PurgeSparesFresh(s2, input.clock, id);
      }
    }
  }

  // ---------------------------------------------------------------- a heartbeat that crosses a request

  /** A worker whose heartbeat is on the way while it is given a request makes the broker abort. */
  lemma CrossingHeartbeatAborts(s: State, dispatch: Input, beat: Input, id: string)
    requires Inv(s) && s.status == Running && Deliverable(dispatch) && Deliverable(beat)
    requires id in s.roster.queue && GivenRequest(s, dispatch, id) && Received(s, dispatch).status == Running
    requires beat.backend == Some([id, "HEARTBEAT"])
    ensures Pass(Pass(s, dispatch), beat).status == Aborted
  {
    PassKeepsInv(s, dispatch);
    WorkerIsKept(s, dispatch, id);
    StrayAborts(Pass(s, dispatch), beat);
  }

  lemma RunAppends(s: State, inputs: seq<Input>, last: Input)
    requires (forall j :: j in inputs ==> Deliverable(j)) && Deliverable(last)
    ensures Run(s, inputs + [last])
         == if Run(s, inputs).status == Running then Pass(Run(s, inputs), last) else Run(s, inputs)
  {
    assert (inputs + [last])[..|inputs|] == inputs;
  }

  /** The shortest such run: a worker announces itself, is given a request, and its heartbeat comes in. */
  lemma HeartbeatCrossesRequest(now: int, id: string, request: Message, c0: Clock, c1: Clock, c2: Clock)
    ensures Run(Init(now), [Input(Some([id, "READY"]), None, c0),
                            Input(None, Some(request), c1),
                            Input(Some([id, "HEARTBEAT"]), None, c2)]).status == Aborted
  {
    var a := Input(Some([id, "READY"]), None, c0);
    var b := Input(None, Some(request), c1);
    var c := Input(Some([id, "HEARTBEAT"]), None, c2);
    var s0 := Init(now);
    var s1 := Pass(s0, a);
    RunAppends(s0, [], a);
    RunAppends(s0, [a], b);
    RunAppends(s0, [a] + [b], c);
    assert [] + [a] == [a] && [a] + [b] + [c] == [a, b, c];
    PassKeepsInv(s0, a);
    OnlyReady(s0, a, id);
    PassKeepsInv(s1, b);
    if id in s1.roster.queue {
      CrossingHeartbeatAborts(s1, b, c, id);
    } else {
      StrayAborts(Pass(s1, b), c);
    }
  }

  /** After the first announcement there is no other worker in the queue. */
  lemma OnlyReady(s: State, input: Input, id: string)
    requires Inv(s) && s.roster.queue == [] && Deliverable(input) && input.backend == Some([id, "READY"])
    ensures Pass(s, input).roster.queue == [id] || Pass(s, input).roster.queue == []
  {
    ReceivedKeepsInv(s, input);
    var s1 := Received(s, input);
    assert s1.roster.queue == [id];
    PurgeDropsExactly(s1.roster, Later(input.clock));
    PassKeepsInv(s, input);
    var q := Pass(s, input).roster.queue;
    if |q| >= 2 {
      assert q[0] in q && q[1] in q;
    }
  }
}
