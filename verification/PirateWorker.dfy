/**
  The Paranoid Pirate worker: a countdown of silent polls, reconnection with
  exponential backoff, and heartbeats of its own.
*/
module PirateWorker {
  import opened Wrappers
  import opened Inboxes
  import opened Powers
  import opened PirateCommon

  /** `timeout` and `slept` are in seconds; `connects` counts the sockets opened, each announced with READY. */
  datatype Worker = Worker(
    liveness: nat,
    timeout: nat,
    heartbeatAt: int,
    cycles: nat,
    slept: nat,
    connects: nat,
    sent: seq<Message>,
    running: bool)

  /**
    What one turn finds: the frames received, if the poll was not silent; whether
    a crash is simulated, which counts only after ten requests; and two clock readings.
  */
  datatype Poll = Poll(frames: Option<Message>, crash: bool, checked: int, reset: int)

  function Start(now: int): Worker {
    Worker(LIVENESS, FIRST_TIMEOUT, now + INTERVAL, 0, 0, 1, [["READY"]], true)
  }

  predicate IsRequest(p: Poll) {
    p.frames.Some? && |p.frames.value| == 3
  }

  predicate IsHeartbeat(p: Poll) {
    p.frames == Some(["HEARTBEAT"])
  }

  predicate Silent(p: Poll) {
    p.frames.None?
  }

  function OnFrames(w: Worker, p: Poll): Worker
    requires p.frames.Some?
  {
    if IsRequest(p) then
      if w.cycles + 1 > 10 && p.crash then w.(cycles := w.cycles + 1, running := false)
      else
        w.(cycles := w.cycles + 1, liveness := LIVENESS, timeout := FIRST_TIMEOUT, sent := w.sent + [p.frames.value])
    else if IsHeartbeat(p) then w.(liveness := LIVENESS, timeout := FIRST_TIMEOUT)
    else w.(running := false)
  }

  function OnSilence(w: Worker): Worker
    requires w.liveness > 0
  {
    if w.liveness - 1 > 0 then w.(liveness := w.liveness - 1)
    else
      w.(liveness := LIVENESS,
         slept := w.slept + w.timeout,
         timeout := if w.timeout < MAX_TIMEOUT then w.timeout * 2 else w.timeout,
         connects := w.connects + 1,
         sent := w.sent + [["READY"]])
  }

  function Beat(w: Worker, p: Poll): Worker {
    if p.checked > w.heartbeatAt then w.(heartbeatAt := p.reset + INTERVAL, sent := w.sent + [["HEARTBEAT"]]) else w
  }

  function Turn(w: Worker, p: Poll): (t: Worker)
    requires w.liveness > 0
    ensures t.liveness > 0
  {
    var t := if Silent(p) then OnSilence(w) else OnFrames(w, p);
    if t.running then Beat(t, p) else t
  }

  function Run(w: Worker, polls: seq<Poll>): (t: Worker)
    requires w.liveness > 0
    ensures t.liveness > 0
    decreases |polls|
  {
    if polls == [] then w
    else
      var t := Run(w, polls[..|polls| - 1]);
      if t.running then Turn(t, polls[|polls| - 1]) else t
  }

  /** How many polls at the end of the run were silent. */
  function Silence(polls: seq<Poll>): (k: nat)
    ensures k <= |polls|
    decreases |polls|
  {
    if polls == [] || !Silent(polls[|polls| - 1]) then 0 else 1 + Silence(polls[..|polls| - 1])
  }

  /** The sleep before reconnection number `j` of a silence, counting from 0. */
  function Backoff(j: nat): nat {
    if j >= 5 then MAX_TIMEOUT else Pow2(j)
  }

  function TotalSleep(j: nat): nat {
    if j == 0 then 0 else TotalSleep(j - 1) + Backoff(j - 1)
  }

  lemma Powers32()
    ensures Pow2(0) == 1 && Pow2(1) == 2 && Pow2(2) == 4 && Pow2(3) == 8 && Pow2(4) == 16 && Pow2(5) == 32
  {
    assert Pow2(3) == 8;
  }

  lemma {:induction false} Pow2AtLeast32(j: nat)
    requires j >= 5
    ensures Pow2(j) >= 32
  {
    Powers32();
    if j == 5 {
    } else {
      Pow2AtLeast32(j - 1);
    }
  }

  /**
    The backoff is the power of two, capped, and the sleeps add up to a power of
    two less one, and then grow linearly.
  */
  lemma {:induction false} SleepClosedForm(j: nat)
    ensures Backoff(j) == if Pow2(j) <= 32 then Pow2(j) else 32
    ensures TotalSleep(j) == if j <= 6 then Pow2(j) - 1 else 63 + 32 * (j - 6)
  {
    Powers32();
    if j >= 5 {
      Pow2AtLeast32(j);
    }
    if j == 0 {
    } else {
      SleepClosedForm(j - 1);
    }
  }

  /** The state after `k` silent polls, when `w` had just started or taken a valid message. */
  ghost predicate AfterSilence(w: Worker, t: Worker, k: nat) {
    && t.liveness == 3 - k % 3
    && t.timeout == Backoff(k / 3)
    && t.connects == w.connects + k / 3
    && t.slept == w.slept + TotalSleep(k / 3)
    && t.cycles == w.cycles
  }

  lemma OneMoreSilence(w: Worker, t: Worker, k: nat, p: Poll)
    requires AfterSilence(w, t, k) && Silent(p) && t.liveness > 0
    ensures AfterSilence(w, Turn(t, p), k + 1)
  {
    Powers32();
    if k % 3 == 2 {
      assert (k + 1) / 3 == k / 3 + 1 && (k + 1) % 3 == 0;
    } else {
      assert (k + 1) / 3 == k / 3 && (k + 1) % 3 == k % 3 + 1;
    }
  }

  lemma MessageRestarts(t: Worker, p: Poll)
    requires t.liveness > 0 && !Silent(p) && Turn(t, p).running
    ensures AfterSilence(Turn(t, p), Turn(t, p), 0)
  {
    Powers32();
  }

  /**
    Over every run that is still going: with k the silent polls since the start
    or the last valid message, liveness, timeout, reconnections and total sleep
    are those of k polls of silence, whatever came before.
  */
  lemma {:induction false} SilenceDeterminesState(now: int, polls: seq<Poll>)
    requires Run(Start(now), polls).running
    ensures var k := Silence(polls);
      AfterSilence(Run(Start(now), polls[..|polls| - k]), Run(Start(now), polls), k)
    decreases |polls|
  {
    if polls == [] {
      Powers32();
    } else {
      var n := |polls| - 1;
      var init, p := polls[..n], polls[n];
      var t := Run(Start(now), init);
      SilenceDeterminesState(now, init);
      if Silent(p) {
        var k := Silence(init);
        assert Silence(polls) == k + 1 && polls[..|polls| - (k + 1)] == init[..n - k];
        OneMoreSilence(Run(Start(now), init[..n - k]), t, k, p);
      } else {
        assert Silence(polls) == 0 && polls[..|polls|] == polls;
        MessageRestarts(t, p);
      }
    }
  }

  // ---------------------------------------------------------------- what is sent

  /** How many requests the polls brought. */
  function Requests(polls: seq<Poll>): nat {
    if polls == [] then 0
    else Requests(polls[..|polls| - 1]) + (if IsRequest(polls[|polls| - 1]) then 1 else 0)
  }

  /** The last of the polls ends the worker: an invalid message, or a crash after ten requests. */
  predicate Ends(polls: seq<Poll>)
    requires polls != []
  {
    var p := polls[|polls| - 1];
    && p.frames.Some?
    && if IsRequest(p) then Requests(polls) > 10 && p.crash else !IsHeartbeat(p)
  }

  /** None of the polls ended the worker. */
  predicate Lives(polls: seq<Poll>) {
    polls == [] || (Lives(polls[..|polls| - 1]) && !Ends(polls))
  }

  /** When the next heartbeat is due: an interval after the last was sent. */
  function NextBeat(now: int, polls: seq<Poll>): int
    decreases |polls|, 1
  {
    if polls == [] then now + INTERVAL
    else if BeatDue(now, polls) then polls[|polls| - 1].reset + INTERVAL
    else NextBeat(now, polls[..|polls| - 1])
  }

  predicate BeatDue(now: int, polls: seq<Poll>)
    requires polls != []
    decreases |polls|, 0
  {
    polls[|polls| - 1].checked > NextBeat(now, polls[..|polls| - 1])
  }

  /** The last poll is the third, sixth or a later third of a silence. */
  predicate Reconnects(polls: seq<Poll>)
    requires polls != []
  {
    Silent(polls[|polls| - 1]) && Silence(polls) % 3 == 0
  }

  /** What a turn sends: the request back, or READY on a new socket, and a heartbeat when it is due. */
  function Said(now: int, polls: seq<Poll>): seq<Message>
    requires polls != []
  {
    var p := polls[|polls| - 1];
    (if IsRequest(p) then [p.frames.value] else [])
    + (if Reconnects(polls) then [["READY"]] else [])
    + (if BeatDue(now, polls) then [["HEARTBEAT"]] else [])
  }

  /** What the worker sends over a run, from the polls alone: nothing more once it has ended. */
  function AllSaid(now: int, polls: seq<Poll>): seq<Message> {
    if polls == [] then [["READY"]]
    else AllSaid(now, polls[..|polls| - 1]) + (if Lives(polls) then Said(now, polls) else [])
  }

  lemma {:induction false} RunLives(now: int, polls: seq<Poll>)
    ensures Run(Start(now), polls).running <==> Lives(polls)
    ensures Lives(polls) ==>
      Run(Start(now), polls).cycles == Requests(polls) && Run(Start(now), polls).heartbeatAt == NextBeat(now, polls)
    decreases |polls|
  {
    if polls == [] {
    } else {
      RunLives(now, polls[..|polls| - 1]);
    }
  }

  /** A silent poll reconnects exactly if it is the third of its silence, or a multiple of that. */
  lemma SilentTurnReconnects(now: int, polls: seq<Poll>)
    requires polls != [] && Lives(polls)
    ensures var t := Run(Start(now), polls[..|polls| - 1]);
      Silent(polls[|polls| - 1]) ==> (t.liveness == 1 <==> Reconnects(polls))
  {
    var init := polls[..|polls| - 1];
    RunLives(now, init);
    LivenessOf(now, init);
    ThirdPoll(Silence(init));
  }

  lemma LivenessOf(now: int, polls: seq<Poll>)
    requires Run(Start(now), polls).running
    ensures Run(Start(now), polls).liveness == 3 - Silence(polls) % 3
  {
    SilenceDeterminesState(now, polls);
  }

  lemma ThirdPoll(k: nat)
    ensures 3 - k % 3 == 1 <==> (k + 1) % 3 == 0
  {
  }

  lemma TurnSays(now: int, polls: seq<Poll>)
    requires polls != [] && Lives(polls)
    ensures Run(Start(now), polls).sent == Run(Start(now), polls[..|polls| - 1]).sent + Said(now, polls)
  {
    RunLives(now, polls);
    RunLives(now, polls[..|polls| - 1]);
    SilentTurnReconnects(now, polls);
  }

  lemma LastTurnSaysNothing(now: int, polls: seq<Poll>)
    requires polls != [] && !Lives(polls)
    ensures Run(Start(now), polls).sent == Run(Start(now), polls[..|polls| - 1]).sent
  {
    RunLives(now, polls);
    RunLives(now, polls[..|polls| - 1]);
  }

  /**
    Over every run the worker sends READY, then turn by turn each request back
    but the one it crashed on, READY again for each reconnection, and a
    heartbeat when one is due.
  */
  lemma {:induction false} RunSays(now: int, polls: seq<Poll>)
    ensures Run(Start(now), polls).sent == AllSaid(now, polls)
    ensures Run(Start(now), polls).running <==> Lives(polls)
    decreases |polls|
  {
    RunLives(now, polls);
    if polls == [] {
    } else {
      RunSays(now, polls[..|polls| - 1]);
      if Lives(polls) {
        TurnSays(now, polls);
      } else {
        LastTurnSaysNothing(now, polls);
      }
    }
  }

  /** The messages of three frames among `sent`. */
  function Echoes(sent: seq<Message>): seq<Message> {
    if sent == [] then []
    else Echoes(sent[..|sent| - 1]) + (if |sent[|sent| - 1]| == 3 then [sent[|sent| - 1]] else [])
  }

  /** The requests taken, without the one that was crashed on. */
  function Served(polls: seq<Poll>): seq<Message> {
    if polls == [] then []
    else
      var p := polls[|polls| - 1];
      Served(polls[..|polls| - 1]) + (if Lives(polls) && IsRequest(p) then [p.frames.value] else [])
  }

  lemma {:induction false} EchoesConcat(a: seq<Message>, b: seq<Message>)
    ensures Echoes(a + b) == Echoes(a) + Echoes(b)
    decreases |b|
  {
    if b == [] {
      assert a + b == a;
    } else {
      assert (a + b)[..|a + b| - 1] == a + b[..|b| - 1];
      EchoesConcat(a, b[..|b| - 1]);
    }
  }

  lemma EchoesSaid(now: int, polls: seq<Poll>)
    requires polls != []
    ensures Echoes(Said(now, polls))
         == if IsRequest(polls[|polls| - 1]) then [polls[|polls| - 1].frames.value] else []
  {
    var p := polls[|polls| - 1];
    var a := if IsRequest(p) then [p.frames.value] else [];
    var b: seq<Message> := if Reconnects(polls) then [["READY"]] else [];
    var c: seq<Message> := if BeatDue(now, polls) then [["HEARTBEAT"]] else [];
    EchoesConcat(a + b, c);
    EchoesConcat(a, b);
  }

  /** Every request is answered with itself, in order, and nothing else of three frames is ever sent. */
  lemma {:induction false} RequestsAreEchoed(now: int, polls: seq<Poll>)
    ensures Echoes(Run(Start(now), polls).sent) == Served(polls)
    decreases |polls|
  {
    if polls == [] {
    } else {
      var init := polls[..|polls| - 1];
      RequestsAreEchoed(now, init);
      if Lives(polls) {
        TurnSays(now, polls);
        EchoesConcat(Run(Start(now), init).sent, Said(now, polls));
        EchoesSaid(now, polls);
      } else {
        LastTurnSaysNothing(now, polls);
      }
    }
  }

  // ---------------------------------------------------------------- the loop

  class WorkerLoop {
    var liveness: nat
    var timeout: nat
    var heartbeatAt: int
    var cycles: nat
    var slept: nat
    var connects: nat
    var sent: seq<Message>
    var running: bool

    function Now(): Worker
      reads this
    {
      Worker(liveness, timeout, heartbeatAt, cycles, slept, connects, sent, running)
    }

    constructor (now: int)
      ensures Now() == Start(now)
    {
      liveness, timeout, heartbeatAt := LIVENESS, FIRST_TIMEOUT, now + INTERVAL;
      cycles, slept, connects, sent, running := 0, 0, 1, [["READY"]], true;
    }

    method NewSocket()
      modifies this`connects, this`sent
      ensures connects == old(connects) + 1 && sent == old(sent) + [["READY"]]
    {
      connects := connects + 1;
      sent := sent + [["READY"]];
    }

    method Step(p: Poll)
      requires running && liveness > 0
      modifies this
      ensures Now() == Turn(old(Now()), p)
    {
      if p.frames.Some? {
        var frames := p.frames.value;
        if frames == [] {
          running := false;
          return;
        }
        assert |frames| == 1 ==> frames == [frames[0]];
        if |frames| == 3 {
          cycles := cycles + 1;
          if cycles > 10 && p.crash {
            running := false;
            return;
          }
          sent := sent + [frames];
          liveness := LIVENESS;
        } else if |frames| == 1 && frames[|frames| - 1] == "HEARTBEAT" {
          liveness := LIVENESS;
        } else {
          running := false;
          return;
        }
        timeout := FIRST_TIMEOUT;
      } else {
        liveness := liveness - 1;
        if liveness == 0 {
          slept := slept + timeout;
          if timeout < MAX_TIMEOUT {
            timeout := timeout * 2;
          }
          NewSocket();
          liveness := LIVENESS;
        }
      }
      if p.checked > heartbeatAt {
        heartbeatAt := p.reset + INTERVAL;
        sent := sent + [["HEARTBEAT"]];
      }
    }

    /** The loop, until it stops or the polls run out. */
    method Loop(polls: seq<Poll>, ghost start: int) returns (taken: nat)
      requires Now() == Start(start)
      modifies this
      ensures taken <= |polls| && Now() == Run(Start(start), polls[..taken])
      ensures sent == AllSaid(start, polls[..taken])
      ensures taken < |polls| ==> !running
      ensures running ==> taken == |polls|
      ensures running ==>
        AfterSilence(Run(Start(start), polls[..|polls| - Silence(polls)]), Now(), Silence(polls))
    {
      taken := 0;
      while taken < |polls| && running
        invariant taken <= |polls|
        invariant Now() == Run(Start(start), polls[..taken])
      {
        assert polls[..taken + 1][..taken] == polls[..taken];
        Step(polls[taken]);
        taken := taken + 1;
      }
      RunSays(start, polls[..taken]);
      if running {
        assert polls[..taken] == polls;
        SilenceDeterminesState(start, polls);
      }
    }
  }
}
