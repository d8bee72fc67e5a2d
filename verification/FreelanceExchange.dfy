/** What the application sees when a server's PONG arrives while it waits for an answer. */
module FreelanceExchange {
  import opened Inboxes
  import opened SequenceNumbers
  import opened FreelanceServer
  import opened Freelance

  /** What the application's call returns for a message of the agent: nothing, if the request failed. */
  function Returned(reply: Message): (m: Message) {
    if reply == [] || reply[0] == "FAILED" then [] else reply[1..]
  }

  /**
    An answer from a server has a frame besides the one for its sequence number,
    so it is not taken for a failure.
  */
  lemma AnswerIsNotFailure(agent: string, request: Message)
    requires |request| >= 2 && request[1] != "PING"
    ensures var back := Exchange(agent, request);
      |back| >= 2 && Returned(["OK"] + back[2..]) == ["OK"] != Returned(["FAILED"])
  {
    assert ([agent] + request[1..])[1] == request[1];
  }

  /**
    A PONG from a connected server answers the pending request, whichever it is,
    with nothing; to the application that is the same as a failure.
  */
  method PongEndsRequest(agent: Agent, identity: string, endpoint: string, now: int)
    requires agent.Valid() && agent.request != [] && endpoint in agent.connMap
    modifies agent`aliveServers, agent`pipeOut, agent`request, agent`aborted, agent.created
    ensures agent.Valid() && agent.aborted == old(agent.aborted)
    ensures agent.request == [] && agent.pipeOut == old(agent.pipeOut) + [["OK"]]
    ensures Returned(["OK"]) == Returned(["FAILED"])
  {
    PongAnswersAnything(identity, endpoint, agent.sequence, agent.longMax);
    var pong := Exchange(identity, [endpoint, "PING"]);
    assert pong[2..] == [] && ["OK"] + pong[2..] == ["OK"];
    agent.OnRouterMessage(pong, now);
  }
}
