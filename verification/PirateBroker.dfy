/** The main loop of the Paranoid Pirate broker, over its queue object. */
module PirateBroker {
  import opened Wrappers
  import opened Inboxes
  import opened WorkerQueue
  import W = Workers
  import opened PirateCommon
  import opened PirateQueue
  import opened PirateTraffic

  class Broker {
    const workers: W.Workers
    var heartbeatAt: int
    var status: Status
    var toClients: seq<Message>
    var toWorkers: seq<Message>

    ghost function Now(): State
      reads this, workers
    {
      State(workers.Contents(), workers.touched, heartbeatAt, status, toClients, toWorkers)
    }

    ghost predicate Valid()
      reads this, workers
    {
      workers.Valid() && workers.ttl == TTL
    }

    constructor (now: int)
      ensures Valid() && fresh(workers) && Now() == Init(now)
    {
      workers := new W.Workers(TTL);
      heartbeatAt := now + INTERVAL;
      status, toClients, toWorkers := Running, [], [];
    }

    /** A message from a worker.  Neither assertion of the queue can fail here but the one in `refresh`. */
    method OnBackend(message: Message, now: int)
      requires Valid() && |message| != 1
      modifies this`status, this`toClients, workers
      ensures Valid() && Now() == PirateQueue.OnBackend(old(Now()), message, now)
      ensures toClients == old(toClients) + (if |message| >= 3 then [message[1..]] else [])
    {
      var frames := message;
      if frames == [] {
        status := Stopped;
        return;
      }
      var id := frames[0];
      frames := frames[1..];
      if |frames| == 1 {
        assert message == [id, frames[0]];
        OnWord(id, frames[0], now);
      } else {
        Forward(id, frames, now);
      }
    }

    /** A word from a worker: it is ready, or it is there. */
    method OnWord(id: string, word: string, now: int)
      requires Valid()
      modifies this`status, workers
      ensures Valid() && Now() == PirateQueue.OnBackend(old(Now()), [id, word], now)
    {
      assert [id, word][1..] == [word];
      if word == "READY" {
        EraseKeepsConsistent(workers.Contents(), id);
        workers.Erase(id);
        workers.Push(id, now);
      } else if word == "HEARTBEAT" {
        if id !in workers.lookup {
          status := Aborted;
        } else {
          workers.Refresh(id, now);
        }
      }
    }

    /** A worker's reply goes back to the client, and the worker is ready again. */
    method Forward(id: string, frames: Message, now: int)
      requires Valid()
      modifies this`toClients, workers
      ensures Valid() && toClients == old(toClients) + [frames]
      ensures var t := old(Now()).(toClients := toClients);
        Now() == if id in old(workers.lookup) then t
                 else Touch(t, WorkerQueue.Push(old(workers.Contents()), id, now + TTL), id, now)
    {
      toClients := toClients + [frames];
      var pushed := workers.TryPush(id, now);
    }

    /** A client's request goes to the worker that has been queued longest. */
    method OnFrontend(message: Message)
      requires Valid() && workers.queue != []
      modifies this`toWorkers, workers
      ensures Valid() && Now() == PirateQueue.OnFrontend(old(Now()), message)
      ensures toWorkers == old(toWorkers) + [[old(workers.queue)[0]] + message]
    {
      var worker := workers.Front();
      var frames := [worker] + message;
      workers.Pop();
      toWorkers := toWorkers + [frames];
    }

    method Tick(clock: Clock)
      requires Valid()
      modifies this`heartbeatAt, this`toWorkers, workers
      ensures Valid() && Now() == PirateQueue.Tick(old(Now()), clock)
    {
      var none := workers.Empty();
      if !none {
        if clock(1) > heartbeatAt {
          Beat();
          heartbeatAt := clock(2) + INTERVAL;
        }
        workers.Purge(Later(clock));
      }
    }

    /** A heartbeat to every queued worker, in the order of the queue. */
    method Beat()
      modifies this`toWorkers
      ensures toWorkers == old(toWorkers) + Beats(workers.queue)
    {
      var i := 0;
      while i < |workers.queue|
        invariant 0 <= i <= |workers.queue|
        invariant toWorkers == old(toWorkers) + Beats(workers.queue[..i])
      {
        toWorkers := toWorkers + [[workers.queue[i], "HEARTBEAT"]];
        assert Beats(workers.queue[..i + 1]) == Beats(workers.queue[..i]) + [[workers.queue[i], "HEARTBEAT"]];
        i := i + 1;
      }
      assert workers.queue[..i] == workers.queue;
    }

    /** One turn of the loop. */
    method Turn(input: Input)
      requires Valid() && Deliverable(input) && status == Running
      modifies this, workers
      ensures Valid() && Now() == Pass(old(Now()), input)
    {
      ghost var s := Now();
      FrontIsSafe(s, input);
      var none := workers.Empty();
      var polled := !none;
      if input.backend.Some? {
        OnBackend(input.backend.value, input.clock(0));
        if status != Running {
          return;
        }
      }
      if polled && input.frontend.Some? {
        OnFrontend(input.frontend.value);
      }
      Tick(input.clock);
    }

    /** The loop, until it stops or aborts or the inputs run out. */
    method Loop(inputs: seq<Input>, ghost start: int)
      requires Valid() && Now() == Init(start)
      requires forall i :: i in inputs ==> Deliverable(i)
      modifies this, workers
      ensures Valid() && Now() == Run(Init(start), inputs)
      ensures toClients == AllForwarded(inputs[..TurnsTaken(start, inputs)]) && toWorkers == AllToWorkers(start, inputs)
    {
      RunForwards(start, inputs);
      RunSendsWorkers(start, inputs);
      var i := 0;
      while i < |inputs| && status == Running
        invariant 0 <= i <= |inputs| && Valid()
        invariant Now() == Run(Init(start), inputs[..i])
      {
        assert inputs[..i + 1][..i] == inputs[..i];
        Turn(inputs[i]);
        i := i + 1;
      }
      if i < |inputs| {
        RestIsIgnored(Init(start), inputs, i);
      }
      assert i == |inputs| ==> inputs[..i] == inputs;
    }
  }
}
