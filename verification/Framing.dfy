/**
  Multipart messages as a stream of frames, each marked if more frames of its
  message follow: sending, receiving, and relaying frame by frame.
*/
module Framing {
  import opened Inboxes

  datatype Frame = Frame(data: string, more: bool)

  /** The frames of a message on the wire. */
  function Encode(m: Message): (s: seq<Frame>)
    requires m != []
  {
    seq(|m|, i requires 0 <= i < |m| => Frame(m[i], i < |m| - 1))
  }

  predicate NoneEmpty(ms: seq<Message>) {
    forall i :: 0 <= i < |ms| ==> ms[i] != []
  }

  function Wire(ms: seq<Message>): seq<Frame>
    requires NoneEmpty(ms)
  {
    if ms == [] then [] else Encode(ms[0]) + Wire(ms[1..])
  }

  /** Where the first message of the stream ends: after its first frame without a "more" mark, if there is one. */
  function MessageEnd(s: seq<Frame>): (n: nat)
    ensures n <= |s| && (s != [] ==> n > 0)
    ensures forall i :: 0 <= i < n - 1 ==> s[i].more
  {
    if s == [] then 0 else if !s[0].more then 1 else 1 + MessageEnd(s[1..])
  }

  /** The stream begins with a whole message. */
  predicate HasMessage(s: seq<Frame>) {
    s != [] && !s[MessageEnd(s) - 1].more
  }

  function Data(s: seq<Frame>): (m: Message)
    ensures |m| == |s|
  {
    seq(|s|, i requires 0 <= i < |s| => s[i].data)
  }

  function FirstMessage(s: seq<Frame>): Message {
    Data(s[..MessageEnd(s)])
  }

  /** The whole messages at the start of the stream. */
  function Messages(s: seq<Frame>): seq<Message>
    decreases |s|
  {
    if !HasMessage(s) then [] else [FirstMessage(s)] + Messages(s[MessageEnd(s)..])
  }

  /** The stream ends with a frame that ends its message. */
  predicate Terminated(s: seq<Frame>) {
    s == [] || !s[|s| - 1].more
  }

  lemma {:induction false} EndOfEncoded(m: Message, rest: seq<Frame>)
    requires m != []
    ensures MessageEnd(Encode(m) + rest) == |m| && HasMessage(Encode(m) + rest)
  {
    var s := Encode(m) + rest;
    if |m| == 1 {
    } else {
      assert s[1..] == Encode(m[1..]) + rest;
      EndOfEncoded(m[1..], rest);
    }
  }

  /** Receiving what was sent yields the same messages, with the same boundaries. */
  lemma {:induction false} SendReceiveRoundTrip(ms: seq<Message>)
    requires NoneEmpty(ms)
    ensures Messages(Wire(ms)) == ms
  {
    if ms == [] {
    } else {
      var m, rest := ms[0], Wire(ms[1..]);
      EndOfEncoded(m, rest);
      assert Wire(ms) == Encode(m) + rest;
      assert Wire(ms)[..|m|] == Encode(m) && Wire(ms)[|m|..] == rest;
      assert Data(Encode(m)) == m;
      SendReceiveRoundTrip(ms[1..]);
    }
  }

  /** Frames passed on one by one are the frames of the message received whole and sent again. */
  lemma RelayIsReceiveThenSend(s: seq<Frame>)
    requires HasMessage(s)
    ensures Encode(FirstMessage(s)) == s[..MessageEnd(s)]
  {
  }

  lemma {:induction false} TerminatedHasMessage(s: seq<Frame>)
    requires s != [] && Terminated(s)
    ensures HasMessage(s) && Terminated(s[MessageEnd(s)..])
  {
    if !s[0].more {
    } else {
      assert Terminated(s[1..]);
      TerminatedHasMessage(s[1..]);
      assert s[1..][MessageEnd(s[1..])..] == s[MessageEnd(s)..];
    }
  }

  lemma WireCons(m: Message, ms: seq<Message>)
    requires m != [] && NoneEmpty(ms)
    ensures NoneEmpty([m] + ms) && Wire([m] + ms) == Encode(m) + Wire(ms)
  {
    assert ([m] + ms)[1..] == ms;
  }

  /** Every whole stream is the wire form of some messages. */
  lemma {:induction false} Decompose(s: seq<Frame>) returns (ms: seq<Message>)
    requires Terminated(s)
    ensures NoneEmpty(ms) && Wire(ms) == s
    decreases |s|
  {
    if s == [] {
      ms := [];
    } else {
      TerminatedHasMessage(s);
      var rest := Decompose(s[MessageEnd(s)..]);
      RelayIsReceiveThenSend(s);
      WireCons(FirstMessage(s), rest);
      ms := [FirstMessage(s)] + rest;
    }
  }

  /**
    So a relay of any whole stream, frame by frame, gives the stream that
    receiving and sending every message gives.
  */
  lemma ReceiveSendRoundTrip(s: seq<Frame>)
    requires Terminated(s)
    ensures NoneEmpty(Messages(s)) && Wire(Messages(s)) == s
  {
    var ms := Decompose(s);
    SendReceiveRoundTrip(ms);
  }

  // ---------------------------------------------------------------- the loops

  /** A socket: the frames still to be received, and those sent. */
  class Socket {
    var incoming: seq<Frame>
    var outgoing: seq<Frame>

    constructor (incoming: seq<Frame>)
      ensures this.incoming == incoming && outgoing == []
    {
      this.incoming := incoming;
      outgoing := [];
    }

    method Recv() returns (frame: Frame)
      requires incoming != []
      modifies this`incoming
      ensures frame == old(incoming)[0] && incoming == old(incoming)[1..]
    {
      frame := incoming[0];
      incoming := incoming[1..];
    }

    method Send(data: string, more: bool)
      modifies this`outgoing
      ensures outgoing == old(outgoing) + [Frame(data, more)]
    {
      outgoing := outgoing + [Frame(data, more)];
    }

    /** Receives the frames of one message. */
    method RecvFrames() returns (frames: Message)
      requires HasMessage(incoming)
      modifies this`incoming
      ensures frames == FirstMessage(old(incoming)) && incoming == old(incoming)[MessageEnd(old(incoming))..]
    {
      ghost var s := incoming;
      frames := [];
      var moreFrames := true;
      while moreFrames
        invariant |frames| <= MessageEnd(s) && incoming == s[|frames|..]
        invariant frames == Data(s[..|frames|])
        invariant moreFrames <==> |frames| < MessageEnd(s)
        decreases MessageEnd(s) - |frames|
      {
        var frame := Recv();
        assert frame == s[|frames|];
        frames := frames + [frame.data];
        moreFrames := frame.more;
      }
    }

    /** Sends all frames but the last with the mark, and then the last. */
    method SendFrames(frames: Message)
      requires frames != []
      modifies this`outgoing
      ensures outgoing == old(outgoing) + Encode(frames)
    {
      var i := 0;
      while i < |frames| - 1
        invariant 0 <= i <= |frames| - 1
        invariant outgoing == old(outgoing) + Encode(frames)[..i]
      {
        Send(frames[i], true);
        i := i + 1;
      }
      Send(frames[|frames| - 1], false);
    }
  }

  /** Passes one message on, a frame at a time, with the mark each came with. */
  method Relay(from: Socket, to: Socket)
    requires HasMessage(from.incoming)
    modifies from`incoming, to`outgoing
    ensures to.outgoing == old(to.outgoing) + Encode(FirstMessage(old(from.incoming)))
    ensures from.incoming == old(from.incoming)[MessageEnd(old(from.incoming))..]
  {
    ghost var s := from.incoming;
    ghost var n := 0;
    RelayIsReceiveThenSend(s);
    while true
      invariant n < MessageEnd(s) && from.incoming == s[n..]
      invariant to.outgoing == old(to.outgoing) + s[..n]
      decreases MessageEnd(s) - n
    {
      var message := from.Recv();
      assert message == s[n] && message == Frame(message.data, message.more);
      to.Send(message.data, message.more);
      n := n + 1;
      assert s[..n] == s[..n - 1] + [s[n - 1]];
      if !message.more {
        break;
      }
    }
  }

  /** Any whole stream relayed message by message comes out as it went in. */
  method RelayAll(from: Socket, to: Socket)
    requires from != to && Terminated(from.incoming)
    modifies from`incoming, to`outgoing
    ensures to.outgoing == old(to.outgoing) + old(from.incoming)
    ensures from.incoming == []
  {
    ghost var s := from.incoming;
    ghost var n := 0;
    while from.incoming != []
      invariant n <= |s| && from.incoming == s[n..] && Terminated(from.incoming)
      invariant to.outgoing == old(to.outgoing) + s[..n]
      decreases |from.incoming|
    {
      TerminatedHasMessage(from.incoming);
      RelayIsReceiveThenSend(from.incoming);
      ghost var k := MessageEnd(from.incoming);
      Relay(from, to);
      assert s[..n + k] == s[..n] + s[n..][..k];
      n := n + k;
    }
    assert s[..n] == s;
  }
}
