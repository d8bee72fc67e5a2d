/** The name server that the Freelance agent talks to, and the exchange between the two. */
module FreelanceServer {
  import opened Inboxes
  import opened SequenceNumbers

  /** Frames of a request: the client's identity, then PING or a control frame, then the rest. */
  function Reply(request: Message): Message
    requires |request| >= 2
  {
    if request[1] == "PING" then [request[0], "PONG"] else [request[0], request[1], "OK"]
  }

  method Answer(message: Message) returns (reply: Message)
    requires |message| >= 2
    ensures reply == Reply(message)
    ensures reply == [message[0]] + (if message[1] == "PING" then ["PONG"] else [message[1], "OK"])
  {
    var request := message;
    var identity := request[0];
    request := request[1..];
    var control := request[0];
    request := request[1..];
    reply := [];
    if control == "PING" {
      reply := ["PONG"] + reply;
    } else {
      reply := ["OK"] + reply;
      reply := [control] + reply;
    }
    reply := [identity] + reply;
  }

  /**
    What the agent, known to the server as `agent`, receives back for `request`,
    if the reply is addressed to it: each router takes off the identity it routes
    by and puts on the sender's.
  */
  function Exchange(agent: string, request: Message): (back: Message)
    requires |request| >= 2
    ensures |back| >= 2
  {
    var reply := Reply([agent] + request[1..]);
    if reply[0] == agent then [request[0]] + reply[1..] else []
  }

  /** An endpoint that does not begin like a number. */
  predicate NonNumeric(s: string) {
    s != [] && !IsDigit(s[0]) && !IsSpace(s[0]) && s[0] !in "+-\0"
  }

  /**
    A request sent to one server comes back with its own sequence number, and
    the agent takes it exactly if no later request has been made.
  */
  lemma EchoAnswersLatest(agent: string, endpoint: string, n: nat, content: Message, latest: nat, longMax: nat)
    requires n < TWO31 && latest < TWO32 && longMax >= TWO31 - 1
    ensures var back := Exchange(agent, [endpoint, ToString(n)] + content);
      && back == [endpoint, ToString(n), "OK"]
      && (Accepted(back[1], latest, longMax) <==> n == latest)
  {
    assert ToString(n)[0] != 'P';
    assert [agent] + ([endpoint, ToString(n)] + content)[1..] == [agent, ToString(n)] + content;
    EchoAccepted(n, latest, longMax);
  }

  /**
    A request sent on to a second server has the first endpoint where the
    sequence number should be: the reply carries that endpoint, and as it is no
    number the agent takes the reply for any later request too.
  */
  lemma SecondDispatchAnswersAnything(
      agent: string, first: string, second: string, rest: Message, latest: nat, longMax: nat)
    requires NonNumeric(first) && first != "PING"
    ensures var back := Exchange(agent, [second, first] + rest);
      back == [second, first, "OK"] && Accepted(back[1], latest, longMax)
  {
    assert [agent] + ([second, first] + rest)[1..] == [agent, first] + rest;
    NonNumericAccepted(first, latest, longMax);
  }

  /**
    What the agent sends for request `n` is the endpoints it has been sent to so
    far, the number and the content.  The answer is accepted exactly if it was
    sent to an earlier server, or it is the latest request.
  */
  lemma AnswerAcceptedIff(agent: string, hops: seq<string>, n: nat, content: Message, latest: nat, longMax: nat)
    requires hops != [] && forall e :: e in hops ==> NonNumeric(e) && e != "PING"
    requires n < TWO31 && latest < TWO32 && longMax >= TWO31 - 1
    ensures Accepted(Exchange(agent, hops + [ToString(n)] + content)[1], latest, longMax)
       <==> |hops| >= 2 || n == latest
  {
    if |hops| == 1 {
      assert hops + [ToString(n)] + content == [hops[0], ToString(n)] + content;
      EchoAnswersLatest(agent, hops[0], n, content, latest, longMax);
    } else {
      var rest := hops[2..] + [ToString(n)] + content;
      assert hops + [ToString(n)] + content == [hops[0], hops[1]] + rest;
      SecondDispatchAnswersAnything(agent, hops[1], hops[0], rest, latest, longMax);
    }
  }

  /** The answer to a PING is accepted whatever the latest request is, and though none was made. */
  lemma PongAnswersAnything(agent: string, endpoint: string, latest: nat, longMax: nat)
    ensures var back := Exchange(agent, [endpoint, "PING"]);
      back == [endpoint, "PONG"] && Accepted(back[1], latest, longMax)
  {
    assert [agent] + [endpoint, "PING"][1..] == [agent, "PING"];
    NonNumericAccepted("PONG", latest, longMax);
  }
}
