# Verified models of the zguide message brokers

The C++ programs in this repository are small brokers and agents built on ZeroMQ sockets.  This project
models the ones that hold protocol state and proves what their protocols promise, over every run.

Sockets are modelled as first-in first-out inboxes of multipart messages.  A ROUTER socket puts the sender's
identity in front of what it receives and takes the first frame off what it sends, dropping a message for an
identity it does not know; a REQ socket adds and strips the empty delimiter (ZeroMQ RFC 28/REQREP, "The ROUTER
Socket Type" and "The REQ Socket Type").  Random choices, arrivals and clock readings are parameters.

| files | what they model |
|---|---|
| `Wrappers`, `Powers`, `Inboxes` | optional values, powers of two, and inboxes with bags of tokens for conservation laws |
| `Federation`, `FederationInvariant`, `FederationTheorems`, `FederationLimits`, `FederationReach` | the federated brokers of `peering2.cpp`: the system of all brokers, workers and clients as labelled steps, what every step keeps, safety and progress over all runs, runs that lose a request where the hypotheses fail, and exactly when every request can be answered |
| `FederationOrder` | in what order a broker uses its workers, read off the messages of a run |
| `FederationTurns`, `FederationBroker` | why a pass of a broker's loop ends while the others go on, and the loop as a class that refines the system |
| `WorkerQueue`, `Workers` | the Paranoid Pirate queue of workers: the exact effect and the convergence of `purge`, and the class itself |
| `PirateCommon`, `PirateQueue`, `PirateTraffic`, `PirateBroker`, `PirateWorker` | the Paranoid Pirate broker and worker: who is queued, what is sent over whole runs, and the loops in place |
| `SequenceNumbers`, `FreelanceServer`, `FreelanceViews`, `Freelance`, `FreelanceExchange` | the Freelance agent with its shared server objects, the histories of its loop, its peer, the sequence numbers between them, and what the application sees |
| `LoadBalancer`, `LoadBalancerInvariant`, `LoadBalancerTheorems`, `LoadBalancerOrder`, `LoadBalancerLimits`, `LoadBalancerBroker` | the load-balancing broker with shutdown, for any number of clients and workers, and exactly when the shutdown is sure to stop every worker |
| `Framing` | multipart framing: sending, receiving and relaying frames |

## Hypotheses

Federation (`ValidConfig`), in two parts:

- `Named`: the strings given as peers are the brokers' identities; no client, and no broker that has clients, is called
  the one-byte READY word; no client has the name of a peer of its broker, nor of a client's broker that its own is a
  peer of; no broker with clients is its own peer; worker identities are not empty.  Client and worker identities need
  be distinct only within a broker.
- `Mutual`: the peers of a broker with clients name that broker in turn (the operator starts them all and waits before
  going on).  Links from a broker without clients need not be mutual.

Progress also needs a worker at the own broker of every client and at each peer of that broker (`WorkersInReach`); no
other broker needs one.  Given the names, this is exact: every request can still be answered, whatever has happened so
far, if and only if `Mutual` and `WorkersInReach` hold (`FederationReach.AnswerableIff`).

Where a hypothesis on names or links fails a request can be lost.  Three lemmas give such a run:
`OneWayPeeringLosesRequest` when a peer does not name the broker in turn (with a client and a worker at that broker, a
worker at the peer, and no client of the peer that bears the broker's name), `PeerNamedClientLosesRequest` when a client
has the name of a peer (with a worker at its broker, and no nameless client or peer at that peer), and
`ReadyClientLosesRequest` when a client is called READY (with a worker at its broker).

Load balancer: at least one client, and no client is called READY or KILL.

## Where the code and its comments differ

The model follows the code.

- `purge` is described as removing dead workers; its bound shrinks as it removes, so one pass may leave some
  (`WorkerQueue.OnePassComplete` says exactly when it does not, going by the positions of the expired workers, and
  `AllExpiredHalvesExactly` how many it may leave).
- The comment at `refresh` has in mind a worker that was purged for being slow; a worker that keeps the protocol can
  cause the same failure, by a heartbeat sent before it was given a request (`PirateQueue.CrossingHeartbeatAborts`).
- The federation comment says that a fifth of the requests are rerouted; the code does it for one roll in six.
- The agent's `ping` is described as deleting expired servers; it only pings.
- Each dispatch of the agent puts another endpoint in front of the request it keeps, so a request sent to a second
  server carries the first one's endpoint where the sequence number should be, and the answer is accepted whatever the
  latest request is; `FreelanceServer.AnswerAcceptedIff` says exactly when an answer is accepted.  A PONG always is, and ends the pending request with an empty answer, which
  the application cannot tell from a failure (`FreelanceExchange.PongEndsRequest`).
- The load balancer's final joins return only if every worker's announcement was processed before the reply countdown
  ended (`LoadBalancerTheorems.StoppedAreTheQueued`).  With two workers or more they may always wait for ever
  (`LoadBalancerLimits.ShutdownIsSureIff`).

## Model

| member | source | states |
|---|---|---|
| Inboxes.ReceiveIsFifo | prototyping-the-local-and-cloud-flows/peering2.cpp:318-336 | receiving takes the oldest message of that socket and leaves every other inbox as it was |
| Inboxes.SendIsFifo | prototyping-the-local-and-cloud-flows/peering2.cpp:339-355 | sending appends to the inbox of the destination and leaves every other as it was |
| FederationInvariant.StepKeepsInv | prototyping-the-local-and-cloud-flows/peering2.cpp:137-248 | every step of every broker, worker and client keeps all envelopes in shape, one message per waiting client, one place per registered worker |
| FederationInvariant.ReplyCarries | prototyping-the-local-and-cloud-flows/peering2.cpp:181-192 | the stack of identities a worker was given brings its reply to the client, or to the client's own broker with exactly that broker's name taken off |
| FederationInvariant.DispatchKeepsInv | prototyping-the-local-and-cloud-flows/peering2.cpp:238-246 | a dispatched request reaches the front worker of this broker's deque, with its identity stack intact under the delimiter |
| FederationInvariant.ServeKeepsInv | prototyping-the-local-and-cloud-flows/peering2.cpp:276-287 | a worker's answer goes to its own broker and carries the very stack of the request it was given, with OK for the body |
| FederationInvariant.ReachableInv | prototyping-the-local-and-cloud-flows/peering2.cpp:135-248 | all of this holds in every state of every run of any federation |
| FederationTheorems.ExactlyOnePlace | prototyping-the-local-and-cloud-flows/peering2.cpp:137-247 | in every reachable state a waiting client's request or reply is in exactly one place, in exactly the envelope of that place, and an idle client's in none |
| FederationTheorems.WorkerInOnePlace | prototyping-the-local-and-cloud-flows/peering2.cpp:155-165 | a worker is unregistered, or queued once at its own broker, or holds or has sent exactly one message |
| FederationTheorems.ClientGetsOk | prototyping-the-local-and-cloud-flows/peering2.cpp:301-315 | what a client receives is the one frame OK, whichever way its request went |
| FederationTheorems.CloudRequestStays | prototyping-the-local-and-cloud-flows/peering2.cpp:213-219 | a request that came from a peer goes to a worker of this broker and never to a peer again |
| FederationTheorems.OnlyOwnRequestsGoOut | prototyping-the-local-and-cloud-flows/peering2.cpp:232-237 | only a reroute reaches a peer's frontend, and what it sends is a local client's own request under this broker's name |
| FederationTheorems.NotStuck | prototyping-the-local-and-cloud-flows/peering2.cpp:143-247 | no reachable state with a waiting client is stuck |
| FederationTheorems.StepDecreases | prototyping-the-local-and-cloud-flows/peering2.cpp:143-247 | every step but a client's send lowers the stage-weighted measure over messages and unregistered workers |
| FederationTheorems.BoundedRuns | prototyping-the-local-and-cloud-flows/peering2.cpp:143-247 | with sends barred a run has at most six steps for each waiting client and four for each worker |
| FederationTheorems.RestIsComplete | prototyping-the-local-and-cloud-flows/peering2.cpp:137-248 | nothing but sends can happen exactly when no client waits, nothing is in transit and every worker is in its own broker's deque |
| FederationTheorems.EveryRequestAnswered | prototyping-the-local-and-cloud-flows/peering2.cpp:137-248 | with sends barred, any way of running to the end answers every waiting client exactly once and nobody else |
| FederationTheorems.ComesToRest | prototyping-the-local-and-cloud-flows/peering2.cpp:137-248 | from every reachable state such a run exists |
| FederationLimits.OneWayPeeringLosesRequest | prototyping-the-local-and-cloud-flows/peering2.cpp:181-192 | with a one-way link there is a run after which a client waits with nothing in transit |
| FederationLimits.PeerNamedClientLosesRequest | prototyping-the-local-and-cloud-flows/peering2.cpp:181-192 | a client with the name of a peer: its reply goes to that peer and is dropped there |
| FederationLimits.ReadyClientLosesRequest | prototyping-the-local-and-cloud-flows/peering2.cpp:155-165 | a client with the name READY: its reply is taken for an announcement and dropped |
| FederationReach.StepContinues | prototyping-the-local-and-cloud-flows/peering2.cpp:137-248 | whether links are mutual or not, whoever receives a message sends on at most one, for the same client and in the envelope of its place |
| FederationReach.StuckForEver | prototyping-the-local-and-cloud-flows/peering2.cpp:201-246 | a client whose request is nowhere, or at a broker without workers, waits for ever |
| FederationReach.AnswerableIff | prototyping-the-local-and-cloud-flows/peering2.cpp:137-248 | every request can still be answered in every reachable state if and only if every client's own broker and all its peers have workers and those peers name that broker in turn |
| FederationTurns.RequestLowersLoad | prototyping-the-local-and-cloud-flows/peering2.cpp:201-246 | each request handed on lowers what is left for this pass, as a client whose request was handed on cannot ask again before a reply is taken in |
| FederationTurns.OthersElapse | prototyping-the-local-and-cloud-flows/peering2.cpp:201-246 | whatever the others do leaves this broker's deque alone and adds nothing to what is left for this pass |
| FederationOrder.WorkersServeInOrder | prototyping-the-local-and-cloud-flows/peering2.cpp:156 | over any run the workers given requests, then those still ready, are those ready before, then those whose announcements and replies were taken in, in that order |
| FederationBroker.Broker.SendReply | prototyping-the-local-and-cloud-flows/peering2.cpp:181-192 | the scan of the peers sends the frames once, to a peer if the first frame names one and to a client otherwise |
| FederationBroker.Broker.TakeReply | prototyping-the-local-and-cloud-flows/peering2.cpp:147-179 | workers before peers; the worker heard of goes to the back of the deque; both assertions hold; the frames to send are those of the system's step |
| FederationBroker.Broker.HandleBackends | prototyping-the-local-and-cloud-flows/peering2.cpp:143-192 | the first half of the loop is one step of this broker, or none |
| FederationBroker.Broker.RouteRequest | prototyping-the-local-and-cloud-flows/peering2.cpp:201-246 | one turn of the inner loop is one step of this broker, peers' requests first |
| FederationBroker.Broker.WorkersComeFirst | prototyping-the-local-and-cloud-flows/peering2.cpp:147-179 | the first half of a pass takes the oldest message of a worker, or of a peer if there is none |
| FederationBroker.Broker.PeersComeFirst | prototyping-the-local-and-cloud-flows/peering2.cpp:213-228 | a turn of the inner loop takes the oldest request of a peer, or of a client if there is none |
| FederationBroker.AnyPeerCanBeChosen | prototyping-the-local-and-cloud-flows/peering2.cpp:232-237 | the dice can choose any peer |
| FederationBroker.Broker.NothingToDo | prototyping-the-local-and-cloud-flows/peering2.cpp:137-248 | a pass does nothing if and only if the broker can do nothing |
| FederationBroker.Broker.TurnedIsRun | prototyping-the-local-and-cloud-flows/peering2.cpp:201-246 | the turns of the inner loop, with any moves of the others before each poll, are a run of the system |
| FederationBroker.Broker.RouteRequests | prototyping-the-local-and-cloud-flows/peering2.cpp:201-246 | the inner loop, with any moves of the others before each poll, comes to an end, and only for want of workers or requests |
| FederationBroker.Broker.Pass | prototyping-the-local-and-cloud-flows/peering2.cpp:137-248 | one pass of the loop, with any moves of the others before each poll, is a run of the system that ends for want of workers or requests |
| WorkerQueue.TurnsBounds | robust-reliable-queuing/workers.cpp:83-92 | of n workers a purge examines m and removes r, with m equal to n - r or n - r + 1 and at least half of n |
| WorkerQueue.TurnIsTaken | robust-reliable-queuing/workers.cpp:83 | the loop with its shrinking bound reaches a position if and only if it and the expired workers in front of it are fewer than the queue was long |
| WorkerQueue.PurgeDropsExactly | robust-reliable-queuing/workers.cpp:83-92 | a worker is dropped if and only if its position is reached and it has expired by the clock reading made there; the others keep their expiry times |
| WorkerQueue.PurgeKeepsOrder | robust-reliable-queuing/workers.cpp:83-92 | two workers that stay keep their order unless only the first was reached, and then change it |
| WorkerQueue.PurgeIdentity | robust-reliable-queuing/workers.cpp:83-92 | a purge that finds nobody expired leaves queue and table as they were |
| WorkerQueue.PurgeHalves | robust-reliable-queuing/workers.cpp:80-95 | possibly expired workers form a prefix that at least halves in each pass |
| WorkerQueue.PurgeConverges | robust-reliable-queuing/workers.cpp:79-95 | floor(log2 n) + 1 passes at one clock reading leave exactly the workers not expired, with their expiry times |
| WorkerQueue.OnePassComplete | robust-reliable-queuing/workers.cpp:79-95 | one pass leaves nobody expired if and only if each expired worker's position and the expired workers in front of it are fewer than the queue is long |
| WorkerQueue.AllExpiredHalvesExactly | robust-reliable-queuing/workers.cpp:83-92 | when all are expired, k passes leave exactly n / 2^k, so the bound on passes is the best possible |
| Workers.Workers.Purge | robust-reliable-queuing/workers.cpp:80-95 | the loop in place leaves the unreached workers followed by the survivors of those reached, and the table to match |
| Workers.Workers.Erase | robust-reliable-queuing/workers.cpp:20-33 | the identity leaves both the queue and the table; the others keep their order |
| Workers.Workers.Push | robust-reliable-queuing/workers.cpp:36-44 | a new identity goes to the back, with the time of the push plus the ttl |
| Workers.Workers.TryPush | robust-reliable-queuing/workers.cpp:47-54 | pushes exactly if the identity is not queued |
| Workers.Workers.Refresh | robust-reliable-queuing/workers.cpp:56-63 | the expiry becomes the time of the refresh plus the ttl; the queue is unchanged |
| Workers.Workers.Pop | robust-reliable-queuing/workers.cpp:71-77 | the front worker leaves queue and table; nothing happens to an empty queue |
| PirateQueue.RunKeepsInv | robust-reliable-queuing/ppqueue.cpp:33-113 | over all runs the queue has no duplicates, its elements are the keys of the table, and each expiry is the latest push or refresh plus the ttl |
| PirateQueue.FrontIsSafe | robust-reliable-queuing/ppqueue.cpp:40-92 | when the clients are polled there is still a worker at the front after the workers' message has been handled |
| PirateQueue.AbortsExactlyOnStrayHeartbeat | robust-reliable-queuing/ppqueue.cpp:60-65 | the broker has aborted if and only if some turn received a HEARTBEAT from an identity not queued |
| PirateQueue.CrossingHeartbeatAborts | robust-reliable-queuing/ppqueue.cpp:60-65 | from any state of any run, a worker whose heartbeat comes in after it was given a request makes the broker abort |
| PirateQueue.HeartbeatCrossesRequest | robust-reliable-queuing/ppqueue.cpp:60-65 | the shortest such run, for every worker, request and clock: READY, a request, HEARTBEAT |
| PirateQueue.ExpiryIsLastTouch | robust-reliable-queuing/workers.cpp:36-63 | over any run a queued worker's expiry is the ttl after the clock reading of the last turn that pushed or refreshed it |
| PirateQueue.PurgeSparesFresh | robust-reliable-queuing/ppqueue.cpp:97-112 | a tick drops a worker if and only if the purge reaches its position and the clock reading made there is more than the ttl after its latest push or refresh |
| PirateQueue.WorkerIsKept | robust-reliable-queuing/ppqueue.cpp:40-112 | a turn takes a queued worker out if and only if it goes through and the worker is given the request, or is reached by the purge with a clock reading more than the ttl after it was last heard, this turn included |
| PirateTraffic.ReceivedQueue | robust-reliable-queuing/ppqueue.cpp:53-79 | after a worker's message the queue is as before, but one that is ready, or replies unqueued, stands at the back |
| PirateTraffic.PassForwards | robust-reliable-queuing/ppqueue.cpp:74-78 | a turn sends the clients just the reply of the worker it heard, without the worker's identity |
| PirateTraffic.PassSendsWorkers | robust-reliable-queuing/ppqueue.cpp:82-106 | a turn sends the workers the request, to the one at the front, and when beats are due one to each queued, in order |
| PirateTraffic.PassStatus | robust-reliable-queuing/ppqueue.cpp:47-65 | a turn ends the loop exactly on an interrupted receive or a stray heartbeat |
| PirateTraffic.PassPurges | robust-reliable-queuing/ppqueue.cpp:97-112 | who is queued after a turn is what the purge leaves of those queued once the request is handed on |
| PirateTraffic.RunForwards | robust-reliable-queuing/ppqueue.cpp:33-113 | over every run the clients are sent just the replies of the workers, in order |
| PirateTraffic.RunSendsWorkers | robust-reliable-queuing/ppqueue.cpp:33-113 | over every run the workers are sent just the requests and heartbeats of its turns, in order |
| PirateTraffic.RunBeats | robust-reliable-queuing/ppqueue.cpp:97-106 | over every run heartbeats are due an interval after the start and after each time some were sent |
| PirateBroker.Broker.OnBackend | robust-reliable-queuing/ppqueue.cpp:45-80 | READY, HEARTBEAT and reply in place; a reply is forwarded; the assertion in push never fires |
| PirateBroker.Broker.OnFrontend | robust-reliable-queuing/ppqueue.cpp:82-95 | the request goes to the longest-queued worker, which leaves the queue |
| PirateBroker.Broker.Tick | robust-reliable-queuing/ppqueue.cpp:97-112 | a heartbeat to every queued worker in order when due, then a purge |
| PirateBroker.Broker.Loop | robust-reliable-queuing/ppqueue.cpp:33-113 | the loop over any inputs is the run that the theorems speak of, stops with it, and has sent what they say |
| PirateWorker.SilenceDeterminesState | robust-reliable-queuing/ppworker.cpp:41-107 | after k silent polls since the start or the last valid message liveness is 3 - k mod 3, there were k/3 reconnections, and the backoff and the total sleep are those of k/3 reconnections |
| PirateWorker.SleepClosedForm | robust-reliable-queuing/ppworker.cpp:85-96 | the backoff is min(2^j, 32), and j reconnections sleep 2^j - 1 seconds up to six and 63 + 32(j - 6) beyond |
| PirateWorker.RunSays | robust-reliable-queuing/ppworker.cpp:41-107 | over every run, from the polls alone: what is sent is READY, then turn by turn the request back, READY on reconnection, and a heartbeat when due; and the worker runs until an invalid message or a crash |
| PirateWorker.RequestsAreEchoed | robust-reliable-queuing/ppworker.cpp:69 | the three-frame messages sent are the requests taken, in order, but the one crashed on |
| PirateWorker.WorkerLoop.Step | robust-reliable-queuing/ppworker.cpp:42-106 | one turn of the loop in place |
| PirateWorker.WorkerLoop.Loop | robust-reliable-queuing/ppworker.cpp:41-107 | the loop over any polls, with what it has sent, and the closed form of its state while it runs |
| SequenceNumbers.PrintParseRoundTrip | model-three-complex-and-nasty/flcliagent.hpp:217-223 | parsing the print of any number below 2^31 gives it back, for a long of 32 or 64 bits |
| SequenceNumbers.SignedIsParsed | model-three-complex-and-nasty/flcliagent.hpp:217-223 | a number with spaces and a sign before it is read as that, with anything behind it as none |
| SequenceNumbers.EchoAccepted | model-three-complex-and-nasty/flcliagent.hpp:187-192 | exactly when the echo of request n is accepted with m the latest, below 2^31 and above it |
| FreelanceServer.Answer | model-three-complex-and-nasty/flserver3.cpp:47-66 | PING is answered PONG, anything else with its control frame and OK, addressed to the sender |
| FreelanceServer.AnswerAcceptedIff | model-three-complex-and-nasty/flserver3.cpp:47-66 | with endpoints that do not begin like a number, the answer to a request is accepted if and only if it had been sent to an earlier server or is the latest request |
| FreelanceServer.SecondDispatchAnswersAnything | model-three-complex-and-nasty/flcliagent.hpp:111-116 | a request dispatched again comes back with an endpoint where the sequence number should be |
| FreelanceServer.PongAnswersAnything | model-three-complex-and-nasty/flcliagent.hpp:186-196 | a PONG is passed on as an answer whatever the latest request |
| FreelanceExchange.PongEndsRequest | model-three-complex-and-nasty/flcliapi.hpp:43-56 | a PONG from a connected server ends the pending request with a bare OK, which the application's call returns as it does a failure |
| FreelanceExchange.AnswerIsNotFailure | model-three-complex-and-nasty/flcliapi.hpp:43-56 | the answer to a request that is no PING is not returned as a failure is |
| Freelance.DequeBound | model-three-complex-and-nasty/flcliagent.hpp:111-120 | servers each queued at most twice make a deque of at most twice their number |
| Freelance.Agent.NextWake | model-three-complex-and-nasty/flcliagent.hpp:79-90 | the wake-up is the exact minimum of the pending deadlines, capped at an hour from now |
| Freelance.Agent.Connect | model-three-complex-and-nasty/flcliagent.hpp:138-150 | a fresh server, not flagged alive, joins table and deque |
| Freelance.Agent.Request | model-three-complex-and-nasty/flcliagent.hpp:151-160 | the pending request is the next sequence number and the content, for three seconds; made while one is pending it aborts |
| Freelance.Agent.OnControlMessage | model-three-complex-and-nasty/flcliagent.hpp:132-161 | a CONNECT adds one fresh server and leaves the request; a REQUEST makes the next one if none is pending and aborts if one is; any other word does nothing |
| Freelance.Agent.MarkAlive | model-three-complex-and-nasty/flcliagent.hpp:178-181 | a server not flagged is pushed again and flagged, which keeps it at most twice in the deque |
| Freelance.Agent.OnRouterMessage | model-three-complex-and-nasty/flcliagent.hpp:168-197 | the sender is alive and renewed, the reply is passed on unless it bears a stale number, no other server changes; from an endpoint not connected to it aborts |
| Freelance.Agent.DropExpired | model-three-complex-and-nasty/flcliagent.hpp:111-120 | exactly the maximal expired prefix of the deque leaves, with its flags cleared, and no other flag changes |
| Freelance.Agent.Dispatch | model-three-complex-and-nasty/flcliagent.hpp:110-121 | the request goes to the first server not expired, with its endpoint in front of the endpoints it went to before |
| Freelance.Agent.PingAll | model-three-complex-and-nasty/flcliagent.hpp:124-125 | each server that is due is pinged exactly once and no other, and every next ping is as it should be |
| Freelance.Agent.Ping | model-three-complex-and-nasty/flcliagent.hpp:201-211 | one ping, sent exactly if it is due |
| Freelance.Agent.Pursue | model-three-complex-and-nasty/flcliagent.hpp:103-122 | an overdue request fails with one FAILED message and is cleared; one in time goes to the first server not expired, if there is one, just the expired ones in front of it leaving the deque unflagged |
| Freelance.Agent.PingDue | model-three-complex-and-nasty/flcliagent.hpp:124-125 | each connected server that is due is sent one ping and no other; nothing else changes |
| Freelance.Agent.TakeCommand | model-three-complex-and-nasty/flcliagent.hpp:132-161 | a command as the turn takes it, on all of the agent's state |
| Freelance.Agent.TakeReply | model-three-complex-and-nasty/flcliagent.hpp:168-197 | a server's message as the turn takes it, on all of the agent's state |
| Freelance.Agent.Turn | model-three-complex-and-nasty/flcliagent.hpp:97-125 | a turn is a command, a reply, the pursuit of the request and the pings, and ends at an abort; after it no deadline is due or past |
| FreelanceViews.TurnSettles | model-three-complex-and-nasty/flcliagent.hpp:97-122 | what a turn sends the application, and what it leaves of the request, its number and its deadline |
| FreelanceViews.AbortsExactlyOnOffence | model-three-complex-and-nasty/flcliagent.hpp:153-177 | the agent aborts exactly on a request made while one is pending or a sender never connected to, and takes nothing more |
| FreelanceViews.OksArePassedOn | model-three-complex-and-nasty/flcliagent.hpp:187-196 | over any history the OK messages are just the replies accepted, in order |
| Freelance.Agent.AgentTask | model-three-complex-and-nasty/flcliagent.hpp:72-127 | the loop over any inputs is a history in which each input leads from one view to the next; the deque has at most twice as many entries as there were CONNECTs, and FAILED messages and a pending request are at most the REQUESTs |
| FreelanceViews.Server.constructor | model-three-complex-and-nasty/flcliserver.hpp:36-41 | a server starts unflagged, with its first ping and its expiry ahead |
| FreelanceViews.Server.Renew | model-three-complex-and-nasty/flcliserver.hpp:55-69 | both deadlines are set from now |
| LoadBalancerInvariant.StepKeepsInv | load-balancing-message-broker/lbbroker.cpp:58-167 | every step of broker, clients and workers keeps one message per unanswered client, one place per worker, the countdown and the queue's history right |
| LoadBalancerOrder.DispatchIsFifo | load-balancing-message-broker/lbbroker.cpp:56-127 | over every run, the workers sent requests, then those told to stop, then those queued are those whose announcements and replies were taken in, in that order |
| LoadBalancerTheorems.CountdownMeansAnswered | load-balancing-message-broker/lbbroker.cpp:83-105 | the countdown is zero if and only if every client has had its one reply sent to it, and no request or reply is anywhere else |
| LoadBalancerTheorems.NoWorkerBusy | load-balancing-message-broker/lbbroker.cpp:103-143 | from then on no worker is busy, and each registered worker is queued or told to stop exactly once unless its announcement is still on the way |
| LoadBalancerTheorems.ServingMoves | load-balancing-message-broker/lbbroker.cpp:58-143 | with at least one worker the system is never stuck before the countdown ends |
| LoadBalancerTheorems.BoundedRuns | load-balancing-message-broker/lbbroker.cpp:58-167 | no run is longer than seven steps for each client, five for each worker, and two |
| LoadBalancerTheorems.EveryRunShutsDown | load-balancing-message-broker/lbbroker.cpp:145-170 | a run that can go no further has answered all clients and emptied the queue, and exactly the workers told to stop, each once, have stopped |
| LoadBalancerTheorems.StoppedAreTheQueued | load-balancing-message-broker/lbbroker.cpp:151-170 | the workers stopped are those queued when the countdown ended, in order; all workers stop if and only if all were queued by then |
| LoadBalancerLimits.LateWorkerWaitsForEver | load-balancing-message-broker/lbbroker.cpp:83-105 | with two workers, whatever else there is, one may serve all clients before another is queued; then however the system runs on only the first stops |
| LoadBalancerLimits.ShutdownIsSureIff | load-balancing-message-broker/lbbroker.cpp:145-170 | every run that can go no further has stopped all workers if and only if there is just one worker |
| LoadBalancerBroker.Broker.HandleBackend | load-balancing-message-broker/lbbroker.cpp:70-106 | the worker goes to the back of the queue and its reply is forwarded and counted, as one step of the system |
| LoadBalancerBroker.Broker.HandleFrontend | load-balancing-message-broker/lbbroker.cpp:109-142 | the request goes to the longest-queued worker, as one step of the system |
| LoadBalancerBroker.Broker.PollDecides | load-balancing-message-broker/lbbroker.cpp:58-142 | a turn hands on just one request, to the worker at the front, and only if its poll found one with a worker queued by then |
| LoadBalancerBroker.Broker.TurnedIsRun | load-balancing-message-broker/lbbroker.cpp:58-143 | a turn of the main loop, with any moves of the others between its halves, is a run of the system in which the broker does something |
| LoadBalancerBroker.Broker.Pass | load-balancing-message-broker/lbbroker.cpp:58-143 | one turn of the main loop, with any moves of the others between its halves, is such a run, and it leaves the loop exactly when the countdown ends |
| LoadBalancerBroker.Broker.KillLoop | load-balancing-message-broker/lbbroker.cpp:151-167 | the kill loop empties the queue, telling each worker in it once, in order |
| Framing.SendReceiveRoundTrip | robust-reliable-queuing/ppcommon.cpp:26-51 | receiving the stream sent for any nonempty messages yields the same messages and boundaries |
| Framing.ReceiveSendRoundTrip | extended-request-reply/rrbroker.cpp:58-80 | receiving every message of a whole stream and sending it again gives the same stream |
| Framing.RelayIsReceiveThenSend | extended-request-reply/rrbroker.cpp:58-80 | frames passed on one by one are those of the message received whole and sent again |
| Framing.Socket.RecvFrames | robust-reliable-queuing/ppcommon.cpp:26-43 | the loop takes exactly the first message off the stream |
| Framing.Socket.SendFrames | robust-reliable-queuing/ppcommon.cpp:45-51 | the loop sends the frames of the message, all but the last marked |
| Framing.Relay | extended-request-reply/rrbroker.cpp:58-68 | the relay loop sends what receiving and sending the whole message would |
| Framing.RelayAll | extended-request-reply/rrbroker.cpp:52-81 | any whole stream comes out as it went in |

## Left out

- FederationBroker.Broker.Pass: the others move before each poll, and not between a poll and what the broker does on its result.
- LoadBalancerBroker.Broker.Pass: the others move between the two halves of a turn, and not within one.
- LoadBalancerBroker.Broker.KillLoop: proved for a loop during which no other component moves; the system itself interleaves every notice with everything else, and LoadBalancerTheorems.StoppedAreTheQueued speaks of all such runs.
- Freelance.Agent.PingAll: the order of the pings is left open, as the iteration order of the table is.
- Where a federation broker stands in its loop: any of its actions may be taken whenever its guard holds, which covers the loop and more.
- Real ZeroMQ transport, reconnection with a clashing identity, high-water marks and linger.
- Builds without assertions, in which a failed assertion would be passed over; here it is an abort or is shown not to fail.
- Interrupted receives, except in the Paranoid Pirate programs, and the shutdown of the agent's context.
- The slow-down and the one-second job of the Paranoid Pirate worker; its crash is a choice of the input.
- The rounding of the agent's poll timeout to milliseconds.
- The load balancer with no clients, whose countdown never ends.
- Option parsing, printing, version checks, thread start-up and the guarded output.
- The repository's other demonstrations, which have no state beyond one request and reply or are simpler forms of these.
