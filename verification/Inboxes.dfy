/**
  Sockets as first-in first-out inboxes of multipart messages.

  All messages in transit are kept in one sequence, in order of arrival; the
  inbox of a socket is the subsequence addressed to it, and receiving takes the
  earliest such packet.  `Tally` adds up, over a sequence, the bag of tokens
  that each element carries: conservation laws are equations between tallies.
*/
module Inboxes {

  type Message = seq<string>

  datatype Packet<S> = Packet(sock: S, msg: Message)

  /** The index of the earliest packet addressed to `s`, or the length of `net`. */
  function First<S(==)>(net: seq<Packet<S>>, s: S): (i: nat)
    ensures i <= |net|
    ensures i < |net| ==> net[i].sock == s
    ensures forall j :: 0 <= j < i ==> net[j].sock != s
  {
    if net == [] || net[0].sock == s then 0 else 1 + First(net[1..], s)
  }

  /** What a poll for input on `s` reports. */
  predicate Pending<S(==)>(net: seq<Packet<S>>, s: S) {
    First(net, s) < |net|
  }

  function Head<S(==)>(net: seq<Packet<S>>, s: S): (m: Message)
    requires Pending(net, s)
    ensures Packet(s, m) in net
  {
    net[First(net, s)].msg
  }

  function Remove<T>(s: seq<T>, i: nat): (r: seq<T>)
    requires i < |s|
    ensures forall x :: x in r ==> x in s
  {
    s[..i] + s[i + 1..]
  }

  /** The packets left after receiving from `s`. */
  function Taken<S(==)>(net: seq<Packet<S>>, s: S): (r: seq<Packet<S>>)
    requires Pending(net, s)
    ensures |r| == |net| - 1
    ensures forall x :: x in r ==> x in net
  {
    Remove(net, First(net, s))
  }

  /** The messages waiting at `s`, oldest first. */
  function Inbox<S(==)>(net: seq<Packet<S>>, s: S): seq<Message> {
    if net == [] then []
    else (if net[0].sock == s then [net[0].msg] else []) + Inbox(net[1..], s)
  }

  lemma PendingIffMember<S>(net: seq<Packet<S>>, s: S)
    ensures Pending(net, s) <==> exists p :: p in net && p.sock == s
  {
    if Pending(net, s) {
      assert net[First(net, s)] in net;
    }
  }

  lemma {:induction false} InboxConcat<S>(a: seq<Packet<S>>, b: seq<Packet<S>>, s: S)
    ensures Inbox(a + b, s) == Inbox(a, s) + Inbox(b, s)
  {
    if a == [] {
      assert a + b == b;
    } else {
      assert (a + b)[1..] == a[1..] + b;
      InboxConcat(a[1..], b, s);
    }
  }

  lemma InboxCons<S>(p: Packet<S>, rest: seq<Packet<S>>, t: S)
    ensures Inbox([p] + rest, t) == (if p.sock == t then [p.msg] else []) + Inbox(rest, t)
  {
    assert ([p] + rest)[1..] == rest;
  }

  lemma TakenCons<S>(p: Packet<S>, rest: seq<Packet<S>>, s: S)
    requires Pending([p] + rest, s)
    ensures p.sock == s ==> Head([p] + rest, s) == p.msg && Taken([p] + rest, s) == rest
    ensures p.sock != s ==>
      Pending(rest, s) && Head([p] + rest, s) == Head(rest, s) && Taken([p] + rest, s) == [p] + Taken(rest, s)
  {
    assert ([p] + rest)[1..] == rest;
  }

  /** Receiving takes the oldest message of that inbox and disturbs no other one. */
  lemma {:induction false} ReceiveIsFifo<S>(net: seq<Packet<S>>, s: S, t: S)
    requires Pending(net, s)
    ensures Inbox(net, s) == [Head(net, s)] + Inbox(Taken(net, s), s)
    ensures t != s ==> Inbox(Taken(net, s), t) == Inbox(net, t)
  {
    var p, rest := net[0], net[1..];
    assert net == [p] + rest;
    TakenCons(p, rest, s);
    InboxCons(p, rest, s);
    InboxCons(p, rest, t);
    if p.sock == s {
    } else {
      ReceiveIsFifo(rest, s, t);
      InboxCons(p, Taken(rest, s), s);
      InboxCons(p, Taken(rest, s), t);
    }
  }

  lemma {:induction false} NoneInbox<S>(net: seq<Packet<S>>, s: S)
    requires !Pending(net, s)
    ensures Inbox(net, s) == []
  {
    if net == [] {
    } else {
      NoneInbox(net[1..], s);
    }
  }

  lemma PendingIffInbox<S>(net: seq<Packet<S>>, s: S)
    ensures Pending(net, s) <==> Inbox(net, s) != []
    ensures Pending(net, s) ==> Head(net, s) == Inbox(net, s)[0]
  {
    if Pending(net, s) {
      ReceiveIsFifo(net, s, s);
    } else {
      NoneInbox(net, s);
    }
  }

  /** With one packet in transit, receiving it leaves nothing. */
  lemma Single<S>(p: Packet<S>)
    ensures Pending([p], p.sock) && Head([p], p.sock) == p.msg && Taken([p], p.sock) == []
  {
  }

  /** Sending appends to the inbox of the destination and disturbs no other one. */
  lemma SendIsFifo<S>(net: seq<Packet<S>>, p: Packet<S>, t: S)
    ensures Inbox(net + [p], t) == Inbox(net, t) + (if p.sock == t then [p.msg] else [])
  {
    InboxConcat(net, [p], t);
  }

  // ---------------------------------------------------------------- tallies

  ghost function Tally<T, K>(s: seq<T>, f: T -> multiset<K>): multiset<K> {
    if s == [] then multiset{} else f(s[0]) + Tally(s[1..], f)
  }

  lemma {:induction false} TallyConcat<T, K>(a: seq<T>, b: seq<T>, f: T -> multiset<K>)
    ensures Tally(a + b, f) == Tally(a, f) + Tally(b, f)
  {
    if a == [] {
      assert a + b == b;
    } else {
      assert (a + b)[1..] == a[1..] + b;
      TallyConcat(a[1..], b, f);
    }
  }

  lemma TallyInsert<T, K>(a: seq<T>, x: T, b: seq<T>, f: T -> multiset<K>)
    ensures Tally(a + ([x] + b), f) == Tally(a + b, f) + f(x)
  {
    TallyConcat(a, [x] + b, f);
    TallyConcat(a, b, f);
    assert ([x] + b)[1..] == b;
  }

  lemma TallyRemove<T, K>(s: seq<T>, i: nat, f: T -> multiset<K>)
    requires i < |s|
    ensures Tally(s, f) == Tally(Remove(s, i), f) + f(s[i])
  {
    assert s == s[..i] + ([s[i]] + s[i + 1..]);
    TallyInsert(s[..i], s[i], s[i + 1..], f);
  }

  lemma TallyAppend<T, K>(s: seq<T>, x: T, f: T -> multiset<K>)
    ensures Tally(s + [x], f) == Tally(s, f) + f(x)
  {
    TallyConcat(s, [x], f);
    assert Tally([x], f) == f(x);
  }

  lemma Cancel<T>(a: multiset<T>, b: multiset<T>, c: multiset<T>)
    requires a + c == b + c
    ensures a == b
  {
    forall k ensures a[k] == b[k] {
      assert (a + c)[k] == (b + c)[k];
    }
  }

  /** A token in the tally is carried by some element. */
  lemma {:induction false} TallyWitness<T, K>(s: seq<T>, f: T -> multiset<K>, k: K) returns (i: nat)
    requires k in Tally(s, f)
    ensures i < |s| && k in f(s[i])
  {
    if k in f(s[0]) {
      i := 0;
    } else {
      var j := TallyWitness(s[1..], f, k);
      i := j + 1;
    }
  }

  lemma {:induction false} TallyMember<T, K>(s: seq<T>, f: T -> multiset<K>, i: nat, k: K)
    requires i < |s| && k in f(s[i])
    ensures k in Tally(s, f)
  {
    TallyRemove(s, i, f);
  }

  // ---------------------------------------------------------------- weights

  ghost function Weight<T>(s: seq<T>, w: T -> nat): nat {
    if s == [] then 0 else w(s[0]) + Weight(s[1..], w)
  }

  lemma {:induction false} WeightConcat<T>(a: seq<T>, b: seq<T>, w: T -> nat)
    ensures Weight(a + b, w) == Weight(a, w) + Weight(b, w)
  {
    if a == [] {
      assert a + b == b;
    } else {
      assert (a + b)[1..] == a[1..] + b;
      WeightConcat(a[1..], b, w);
    }
  }

  lemma WeightInsert<T>(a: seq<T>, x: T, b: seq<T>, w: T -> nat)
    ensures Weight(a + ([x] + b), w) == Weight(a + b, w) + w(x)
  {
    WeightConcat(a, [x] + b, w);
    WeightConcat(a, b, w);
    assert ([x] + b)[1..] == b;
  }

  lemma WeightRemove<T>(s: seq<T>, i: nat, w: T -> nat)
    requires i < |s|
    ensures Weight(s, w) == Weight(Remove(s, i), w) + w(s[i])
  {
    assert s == s[..i] + ([s[i]] + s[i + 1..]);
    WeightInsert(s[..i], s[i], s[i + 1..], w);
  }

  lemma WeightAppend<T>(s: seq<T>, x: T, w: T -> nat)
    ensures Weight(s + [x], w) == Weight(s, w) + w(x)
  {
    WeightConcat(s, [x], w);
    assert Weight([x], w) == w(x);
  }
}
