/**
  The server objects that the Freelance agent shares, what its turns find, and
  what a turn makes of the agent's state, seen from outside: `View` is all of
  that state, and the predicates relate a view to the next.
*/
module FreelanceViews {
  import opened Wrappers
  import opened Inboxes
  import opened SequenceNumbers

  const SECOND := 1000
  const PING_INTERVAL := 2 * SECOND
  const SERVER_TTL := 6 * SECOND
  const GLOBAL_TIMEOUT := 3 * SECOND
  const HOUR := 3600 * SECOND

  class Server {
    const endpoint: string
    var alive: bool
    var pingAt: int
    var expires: int

    constructor (endpoint: string, now: int)
      ensures this.endpoint == endpoint && !alive
      ensures pingAt == now + PING_INTERVAL && expires == now + SERVER_TTL
    {
      this.endpoint := endpoint;
      alive := false;
      pingAt := now + PING_INTERVAL;
      expires := now + SERVER_TTL;
    }

    predicate Expired(now: int)
      reads this
    {
      now >= expires
    }

    /** A message from the server, or its connection, puts off its expiry and the next ping. */
    method Renew(now: int)
      modifies this`pingAt, this`expires
      ensures pingAt == now + PING_INTERVAL && expires == now + SERVER_TTL
    {
      pingAt := now + PING_INTERVAL;
      expires := now + SERVER_TTL;
    }
  }

  /** What one turn finds: the time, and what its two sockets have. */
  datatype Input = Input(now: int, control: Option<Message>, router: Option<Message>)

  predicate IsConnect(m: Message) {
    m != [] && m[0] == "CONNECT"
  }

  predicate IsRequest(m: Message) {
    m != [] && m[0] == "REQUEST"
  }

  /** The application makes a request. */
  predicate Makes(input: Input) {
    input.control.Some? && IsRequest(input.control.value)
  }

  /** The application names an endpoint to connect to. */
  predicate WellFormed(m: Message) {
    m != [] && (IsConnect(m) ==> |m| >= 2)
  }

  /** The router puts the server's identity in front of at least one frame. */
  predicate Admissible(input: Input) {
    && (input.control.Some? ==> WellFormed(input.control.value))
    && (input.router.Some? ==> |input.router.value| >= 2)
  }

  function Pings(endpoints: seq<string>): seq<Message> {
    seq(|endpoints|, i requires 0 <= i < |endpoints| => [endpoints[i], "PING"])
  }

  lemma PingsOf(e: string)
    ensures Pings([]) == [] && Pings([e]) == [[e] + ["PING"]]
  {
    assert [e] + ["PING"] == [e, "PING"];
  }

  lemma PingsConcat(a: seq<string>, b: seq<string>)
    ensures Pings(a + b) == Pings(a) + Pings(b)
  {
  }

  // ---------------------------------------------------------------- views

  /** The fields of a server object. */
  datatype Status = Status(alive: bool, pingAt: int, expires: int)

  datatype View = View(
    request: Message,
    sequence: nat,
    expires: int,
    aborted: bool,
    routerOut: seq<Message>,
    pipeOut: seq<Message>,
    deque: seq<Server>,
    connMap: map<string, Server>,
    servers: map<Server, Status>)

  predicate Connecting(input: Input) {
    input.control.Some? && IsConnect(input.control.value)
  }

  /** A new server object joins table and deque if the command is CONNECT; nothing else is done to servers. */
  ghost predicate Enlisted(input: Input, v: View, u: View)
    requires Admissible(input)
  {
    if Connecting(input) then
      var e := input.control.value[1];
      && e in u.connMap && u.connMap[e] !in v.servers && u.connMap[e].endpoint == e
      && u.connMap == v.connMap[e := u.connMap[e]] && u.deque == v.deque + [u.connMap[e]]
      && u.servers
         == v.servers[u.connMap[e] := Status(false, input.now + PING_INTERVAL, input.now + SERVER_TTL)]
    else u.connMap == v.connMap && u.deque == v.deque && u.servers == v.servers
  }

  /** What a command does: CONNECT, REQUEST, a REQUEST out of turn, or anything else. */
  ghost predicate Commanded(input: Input, v: View, u: View)
    requires Admissible(input)
  {
    && Enlisted(input, v, u)
    && u.routerOut == v.routerOut && u.pipeOut == v.pipeOut
    && (u.aborted <==> v.aborted || (Makes(input) && v.request != []))
    && if Makes(input) && v.request == [] then
         && u.sequence == (v.sequence + 1) % TWO32 && u.expires == input.now + GLOBAL_TIMEOUT
         && u.request == [ToString(u.sequence)] + input.control.value[1..]
       else u.sequence == v.sequence && u.expires == v.expires && u.request == v.request
  }

  /**
    What word from a server does to the servers: it is alive, in the deque if it
    was not flagged, and its deadlines are put off.
  */
  function Heard(u: View, s: Server, now: int): View
    requires s in u.servers
  {
    u.(deque := u.deque + (if u.servers[s].alive then [] else [s]),
       servers := u.servers[s := Status(true, now + PING_INTERVAL, now + SERVER_TTL)])
  }

  /** What a message from a server does. */
  ghost predicate Replied(input: Input, u: View, w: View, longMax: nat)
    requires Admissible(input)
  {
    if input.router.None? then w == u
    else
      var m := input.router.value;
      if m[0] !in u.connMap then w == u.(aborted := true)
      else
        && u.connMap[m[0]] in u.servers
        && var h := Heard(u, u.connMap[m[0]], input.now);
           if Accepted(m[1], u.sequence, longMax) then
             w == h.(request := [], pipeOut := u.pipeOut + [["OK"] + m[2..]])
           else w == h
  }

  lemma IsEnlisted(input: Input, v: View, u: View)
    requires Admissible(input) && Connecting(input)
    requires var e := input.control.value[1];
      && e in u.connMap && u.connMap[e] !in v.servers && u.connMap[e].endpoint == e
      && u.connMap == v.connMap[e := u.connMap[e]] && u.deque == v.deque + [u.connMap[e]]
      && u.servers
         == v.servers[u.connMap[e] := Status(false, input.now + PING_INTERVAL, input.now + SERVER_TTL)]
    ensures Enlisted(input, v, u)
  {
  }

  lemma IsReplied(input: Input, u: View, w: View, longMax: nat)
    requires Admissible(input) && input.router.Some?
    requires var m := input.router.value;
      && m[0] in u.connMap && u.connMap[m[0]] in u.servers
      && w.servers
         == u.servers[u.connMap[m[0]] := Status(true, input.now + PING_INTERVAL, input.now + SERVER_TTL)]
      && w.deque == u.deque + (if u.servers[u.connMap[m[0]]].alive then [] else [u.connMap[m[0]]])
      && (if Accepted(m[1], u.sequence, longMax) then w.request == [] && w.pipeOut == u.pipeOut + [["OK"] + m[2..]]
          else w.request == u.request && w.pipeOut == u.pipeOut)
    requires w.sequence == u.sequence && w.expires == u.expires && w.aborted == u.aborted
    requires w.routerOut == u.routerOut && w.connMap == u.connMap
    ensures Replied(input, u, w, longMax)
  {
  }

  /** A server's entry, its flag cleared if it is one of those that left the deque. */
  function Unflagged(servers: map<Server, Status>, gone: seq<Server>): map<Server, Status> {
    map s | s in servers :: if s in gone then servers[s].(alive := false) else servers[s]
  }

  /**
    What happens to a pending request: it fails when it is overdue; otherwise
    just the expired servers at the front of the deque leave it, and the request
    goes to the one then at the front, with its endpoint on top.
  */
  ghost predicate Pursued(now: int, v: View, w: View) {
    if v.request == [] then w == v
    else if now >= v.expires then w == v.(request := [], pipeOut := v.pipeOut + [["FAILED"]])
    else
      && |w.deque| <= |v.deque|
      && var n := |v.deque| - |w.deque|;
         && w.deque == v.deque[n..]
         && (forall i :: 0 <= i < n ==> v.deque[i] in v.servers && now >= v.servers[v.deque[i]].expires)
         && (w.deque != [] ==> w.deque[0] in v.servers && now < v.servers[w.deque[0]].expires)
         && var x := v.(deque := w.deque, servers := Unflagged(v.servers, v.deque[..n]));
            if w.deque == [] then w == x
            else
              var sent := [w.deque[0].endpoint] + v.request;
              w == x.(request := sent, routerOut := v.routerOut + [sent])
  }

  lemma SentOn(now: int, v: View, w: View, gone: seq<Server>)
    requires v.request != [] && now < v.expires && v.deque == gone + w.deque
    requires forall s :: s in gone ==> s in v.servers && now >= v.servers[s].expires
    requires w.deque != [] ==> w.deque[0] in v.servers && now < v.servers[w.deque[0]].expires
    requires var x := v.(deque := w.deque, servers := Unflagged(v.servers, gone));
      if w.deque == [] then w == x
      else var sent := [w.deque[0].endpoint] + v.request; w == x.(request := sent, routerOut := v.routerOut + [sent])
    ensures Pursued(now, v, w)
  {
    assert v.deque[..|gone|] == gone && v.deque[|gone|..] == w.deque;
  }

  /** Server `s` is connected, and its time for a ping has come. */
  predicate Due(v: View, s: Server, now: int)
    requires s in v.servers
  {
    s.endpoint in v.connMap && v.connMap[s.endpoint] == s && v.servers[s].pingAt <= now
  }

  function AfterPings(v: View, now: int): map<Server, Status> {
    map s | s in v.servers ::
      if Due(v, s, now) then v.servers[s].(pingAt := now + PING_INTERVAL) else v.servers[s]
  }

  /** Each connected server that is due is sent one ping, and no other is. */
  ghost predicate Pinged(now: int, v: View, w: View, pinged: seq<string>) {
    && w.routerOut == v.routerOut + Pings(pinged)
    && (forall e :: multiset(pinged)[e]
                    == if e in v.connMap && v.connMap[e] in v.servers && Due(v, v.connMap[e], now) then 1 else 0)
    && w == v.(routerOut := w.routerOut, servers := AfterPings(v, now))
  }

  /** The stages of one turn: after the command, after the reply, and after the pursuit of the request. */
  datatype Stages = Stages(commanded: View, replied: View, pursued: View, pinged: seq<string>)

  /** One turn leads from `v` to `w`; it goes no further than the stage at which the agent aborts. */
  ghost predicate Turned(input: Input, v: View, st: Stages, w: View, longMax: nat)
    requires Admissible(input)
  {
    && Commanded(input, v, st.commanded)
    && if st.commanded.aborted then w == st.commanded
       else
         && Replied(input, st.commanded, st.replied, longMax)
         && if st.replied.aborted then w == st.replied
            else Pursued(input.now, st.replied, st.pursued) && Pinged(input.now, st.pursued, w, st.pinged)
  }

  // ---------------------------------------------------------------- histories

  /** The views before and after each turn, and the stages of each. */
  datatype History = History(views: seq<View>, stages: seq<Stages>)

  /** Each input leads from one view to the next, and an agent that has aborted takes no more. */
  ghost predicate IsHistory(inputs: seq<Input>, h: History, longMax: nat) {
    && |h.views| == |inputs| + 1 && |h.stages| == |inputs|
    && (forall i {:trigger inputs[i]} :: 0 <= i < |inputs| ==> Admissible(inputs[i]) && !h.views[i].aborted)
    && (forall i {:trigger h.stages[i]} :: 0 <= i < |inputs| ==>
          Turned(inputs[i], h.views[i], h.stages[i], h.views[i + 1], longMax))
  }

  lemma HistoryGrows(inputs: seq<Input>, i: nat, h: History, st: Stages, w: View, longMax: nat) returns (h': History)
    requires i < |inputs| && IsHistory(inputs[..i], h, longMax) && !h.views[i].aborted
    requires Admissible(inputs[i]) && Turned(inputs[i], h.views[i], st, w, longMax)
    ensures IsHistory(inputs[..i + 1], h', longMax) && h'.views[0] == h.views[0] && h'.views[i + 1] == w
  {
    h' := History(h.views + [w], h.stages + [st]);
  }

  /** The endpoints connected to, with the one that the command names. */
  function Known(input: Input, v: View): set<string>
    requires Admissible(input)
  {
    v.connMap.Keys + (if Connecting(input) then {input.control.value[1]} else {})
  }

  /** A REQUEST out of turn, or word from an endpoint never connected to. */
  predicate Offends(input: Input, v: View)
    requires Admissible(input)
  {
    || (Makes(input) && v.request != [])
    || (input.router.Some? && input.router.value[0] !in Known(input, v))
  }

  lemma TurnAborts(input: Input, v: View, st: Stages, w: View, longMax: nat)
    requires Admissible(input) && !v.aborted && Turned(input, v, st, w, longMax)
    ensures w.aborted <==> Offends(input, v)
  {
  }

  /** The agent has aborted exactly if one of its inputs offends, and that is the last it took. */
  lemma AbortsExactlyOnOffence(inputs: seq<Input>, h: History, longMax: nat)
    requires IsHistory(inputs, h, longMax) && inputs != []
    ensures h.views[|inputs|].aborted <==> Offends(inputs[|inputs| - 1], h.views[|inputs| - 1])
    ensures forall i :: 0 <= i < |inputs| - 1 ==> !Offends(inputs[i], h.views[i])
  {
    var n := |inputs| - 1;
    TurnAborts(inputs[n], h.views[n], h.stages[n], h.views[n + 1], longMax);
    forall i | 0 <= i < n ensures !Offends(inputs[i], h.views[i]) {
      assert Admissible(inputs[i + 1]);
      TurnAborts(inputs[i], h.views[i], h.stages[i], h.views[i + 1], longMax);
    }
  }

  /** The replies that a turn passes on: that of a known server, unless it bears a number that is not the latest. */
  function PassedOn(input: Input, v: View, longMax: nat): seq<Message>
    requires Admissible(input)
  {
    var latest := if Makes(input) then (v.sequence + 1) % TWO32 else v.sequence;
    if !Offends(input, v) && input.router.Some? && Accepted(input.router.value[1], latest, longMax)
    then [["OK"] + input.router.value[2..]] else []
  }

  /** The request a turn fails: one that is pending, not answered in it, and overdue. */
  function Failed(input: Input, v: View, longMax: nat): seq<Message>
    requires Admissible(input)
  {
    if !Offends(input, v) && v.request != [] && PassedOn(input, v, longMax) == [] && input.now >= v.expires
    then [["FAILED"]] else []
  }

  /** What one turn sends to the application, and what it leaves of the request. */
  lemma TurnSettles(input: Input, v: View, st: Stages, w: View, longMax: nat)
    requires Admissible(input) && !v.aborted && Turned(input, v, st, w, longMax)
    ensures w.pipeOut == v.pipeOut + PassedOn(input, v, longMax) + Failed(input, v, longMax)
    ensures !w.aborted ==>
      && w.sequence == (if Makes(input) then (v.sequence + 1) % TWO32 else v.sequence)
      && w.expires == (if Makes(input) then input.now + GLOBAL_TIMEOUT else v.expires)
      && var asked := if Makes(input) then [ToString(w.sequence)] + input.control.value[1..] else v.request;
         w.request == if PassedOn(input, v, longMax) + Failed(input, v, longMax) != [] then []
                      else if asked == [] || w.deque == [] then asked
                      else [w.deque[0].endpoint] + asked
  {
    TurnAborts(input, v, st, w, longMax);
    if !w.aborted {
      ReplySettles(input, v, st.commanded, st.replied, longMax);
      PursuitSettles(input.now, st.replied, st.pursued);
    }
  }

  lemma ReplySettles(input: Input, v: View, u: View, w: View, longMax: nat)
    requires Admissible(input) && !v.aborted && Commanded(input, v, u) && !u.aborted
    requires Replied(input, u, w, longMax) && !w.aborted && !Offends(input, v)
    ensures w.pipeOut == v.pipeOut + PassedOn(input, v, longMax)
    ensures w.sequence == u.sequence && w.expires == u.expires
    ensures w.request == if PassedOn(input, v, longMax) != [] then [] else u.request
  {
  }

  lemma PursuitSettles(now: int, v: View, w: View)
    requires Pursued(now, v, w)
    ensures w.pipeOut == v.pipeOut + (if v.request != [] && now >= v.expires then [["FAILED"]] else [])
    ensures w.sequence == v.sequence && w.expires == v.expires
    ensures w.request == if v.request == [] || now >= v.expires then []
                         else if w.deque == [] then v.request else [w.deque[0].endpoint] + v.request
  {
  }

  /** The messages to the application that say OK. */
  function Oks(pipe: seq<Message>): seq<Message> {
    if pipe == [] then []
    else
      var last := pipe[|pipe| - 1];
      Oks(pipe[..|pipe| - 1]) + (if last != [] && last[0] == "OK" then [last] else [])
  }

  /** What the first `n` turns of a history pass on. */
  function AllPassedOn(inputs: seq<Input>, views: seq<View>, n: nat, longMax: nat): seq<Message>
    requires n <= |inputs| < |views| && forall i :: 0 <= i < |inputs| ==> Admissible(inputs[i])
  {
    if n == 0 then []
    else AllPassedOn(inputs, views, n - 1, longMax) + PassedOn(inputs[n - 1], views[n - 1], longMax)
  }

  lemma OksAppend(pipe: seq<Message>, passed: seq<Message>, failed: seq<Message>)
    requires passed == [] || (|passed| == 1 && passed[0] != [] && passed[0][0] == "OK")
    requires failed == [] || failed == [["FAILED"]]
    ensures Oks(pipe + passed + failed) == Oks(pipe) + passed
  {
    if passed != [] {
      assert (pipe + passed)[..|pipe|] == pipe;
    } else {
      assert pipe + passed == pipe;
    }
    if failed != [] {
      assert (pipe + passed + failed)[..|pipe + passed|] == pipe + passed;
    } else {
      assert pipe + passed + failed == pipe + passed;
    }
  }

  /** Over any history the application is told OK with just the replies passed on, in the order they came. */
  lemma {:induction false} OksArePassedOn(inputs: seq<Input>, h: History, n: nat, longMax: nat)
    requires IsHistory(inputs, h, longMax) && n <= |inputs|
    ensures Oks(h.views[n].pipeOut) == Oks(h.views[0].pipeOut) + AllPassedOn(inputs, h.views, n, longMax)
  {
    if n == 0 {
    } else {
      OksArePassedOn(inputs, h, n - 1, longMax);
      NextOk(inputs, h, n - 1, longMax);
      Assoc(Oks(h.views[0].pipeOut), AllPassedOn(inputs, h.views, n - 1, longMax),
            PassedOn(inputs[n - 1], h.views[n - 1], longMax));
    }
  }

  lemma Assoc<T>(a: seq<T>, b: seq<T>, c: seq<T>)
    ensures a + b + c == a + (b + c)
  {
  }

  lemma NextOk(inputs: seq<Input>, h: History, i: nat, longMax: nat)
    requires IsHistory(inputs, h, longMax) && i < |inputs|
    ensures Oks(h.views[i + 1].pipeOut) == Oks(h.views[i].pipeOut) + PassedOn(inputs[i], h.views[i], longMax)
  {
    TurnSettles(inputs[i], h.views[i], h.stages[i], h.views[i + 1], longMax);
    OksAppend(h.views[i].pipeOut, PassedOn(inputs[i], h.views[i], longMax), Failed(inputs[i], h.views[i], longMax));
  }
}
