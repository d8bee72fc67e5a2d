/** The queue object of the Paranoid Pirate broker, updated in place. */
module Workers {
  import opened WorkerQueue

  class Workers {
    const ttl: int
    var queue: seq<string>
    var lookup: map<string, int>
    /** When each identity was last pushed or refreshed. */
    ghost var touched: map<string, int>

    ghost function Contents(): Roster
      reads this
    {
      Roster(queue, lookup)
    }

    /** The deque and the table agree, and every expiry time is the latest push or refresh plus the ttl. */
    ghost predicate Valid()
      reads this
    {
      && Consistent(Contents())
      && Fresh(Contents(), touched, ttl)
    }

    constructor (ttl: int)
      ensures Valid() && this.ttl == ttl && Contents() == Roster([], map[]) && touched == map[]
    {
      this.ttl := ttl;
      queue, lookup, touched := [], map[], map[];
    }

    method Empty() returns (b: bool)
      ensures b <==> Contents().queue == []
    {
      b := queue == [];
    }

    /** The position of `identity` in the deque, or the length of the deque. */
    method Find(identity: string) returns (i: nat)
      ensures i <= |queue| && identity !in queue[..i] && (i < |queue| ==> queue[i] == identity)
    {
      i := 0;
      while i < |queue| && queue[i] != identity
        invariant i <= |queue| && identity !in queue[..i]
      {
        i := i + 1;
      }
    }

    method Erase(identity: string)
      requires Valid()
      modifies this`queue, this`lookup
      ensures Valid() && Contents() == WorkerQueue.Erase(old(Contents()), identity)
      ensures identity !in queue && lookup == old(lookup) - {identity}
      ensures if identity !in old(queue) then queue == old(queue)
              else exists i :: 0 <= i < |old(queue)| && old(queue)[i] == identity
                               && queue == old(queue)[..i] + old(queue)[i + 1..]
    {
      EraseKeepsConsistent(Contents(), identity);
      var i := Find(identity);
      lookup := lookup - {identity};
      if i < |queue| {
        FoundAt(queue, identity, i);
        queue := queue[..i] + queue[i + 1..];
      } else {
        assert queue[..i] == queue;
      }
    }

    /** The precondition is the source's assertion. */
    method Push(identity: string, now: int)
      requires Valid() && identity !in lookup
      modifies this
      ensures Valid() && Contents() == WorkerQueue.Push(old(Contents()), identity, now + ttl)
      ensures queue == old(queue) + [identity] && lookup == old(lookup)[identity := now + ttl]
      ensures touched == old(touched)[identity := now]
    {
      PushKeepsConsistent(Contents(), identity, now + ttl);
      lookup := lookup[identity := now + ttl];
      queue := queue + [identity];
      touched := touched[identity := now];
    }

    method TryPush(identity: string, now: int) returns (pushed: bool)
      requires Valid()
      modifies this
      ensures Valid() && pushed == (identity !in old(lookup))
      ensures pushed ==> Contents() == WorkerQueue.Push(old(Contents()), identity, now + ttl)
                         && touched == old(touched)[identity := now]
      ensures !pushed ==> Contents() == old(Contents()) && touched == old(touched)
    {
      if identity in lookup {
        return false;
      }
      Push(identity, now);
      return true;
    }

    /** The precondition is the source's assertion. */
    method Refresh(identity: string, now: int)
      requires Valid() && identity in lookup
      modifies this
      ensures Valid() && queue == old(queue) && lookup == old(lookup)[identity := now + ttl]
      ensures touched == old(touched)[identity := now]
    {
      lookup := lookup[identity := now + ttl];
      touched := touched[identity := now];
    }

    method Front() returns (identity: string)
      requires queue != []
      ensures identity == Contents().queue[0]
    {
      identity := queue[0];
    }

    method Pop()
      requires Valid()
      modifies this`queue, this`lookup
      ensures Valid() && Contents() == WorkerQueue.Pop(old(Contents()))
      ensures old(queue) != [] ==>
        [old(queue)[0]] + queue == old(queue) && lookup == old(lookup) - {old(queue)[0]}
    {
      PopKeepsConsistent(Contents());
      if queue == [] {
        return;
      }
      lookup := lookup - {queue[0]};
      queue := queue[1..];
    }

    /** The body of the purge loop: drops the front worker if it has expired, and moves it to the back if not. */
    method ExamineFront(now: int)
      requires queue != [] && queue[0] in lookup
      modifies this`queue, this`lookup
      ensures if now > old(lookup)[old(queue)[0]] then
                queue == old(queue)[1..] && lookup == old(lookup) - {old(queue)[0]}
              else
                queue == (old(queue) + [old(queue)[0]])[1..] && lookup == old(lookup)
    {
      if now > lookup[queue[0]] {
        lookup := lookup - {queue[0]};
        queue := queue[1..];
      } else {
        queue := queue + [queue[0]];
        queue := queue[1..];
      }
    }

    /** Rotates the live workers to the back and drops the expired ones, up to a bound that shrinks with the queue. */
    method Purge(clock: Clock)
      requires Valid()
      modifies this`queue, this`lookup
      ensures Valid() && Contents() == WorkerQueue.Purge(old(Contents()), clock)
    {
      ghost var r := Contents();
      PurgeBegins(r, clock);
      var i := 0;
      while i < |queue|
        invariant i <= |r.queue| && Turns(r, clock, 0) == Turns(r, clock, i)
        invariant queue == Rotation(r, clock, i) && lookup == Restrict(r, queue)
        decreases |r.queue| - i
      {
        Turn(r, clock, i);
        ExamineFront(clock(i));
        i := i + 1;
      }
      PurgeKeepsFresh(r, clock, touched, ttl);
    }
  }

  ghost predicate Fresh(r: Roster, touched: map<string, int>, ttl: int) {
    forall id :: id in r.expiry ==> id in touched && r.expiry[id] == touched[id] + ttl
  }

  lemma {:induction false} FoundAt(q: seq<string>, id: string, i: nat)
    requires i < |q| && q[i] == id && id !in q[..i]
    ensures Without(q, id) == q[..i] + q[i + 1..]
  {
    if i == 0 {
    } else {
      assert q[0] == q[..i][0];
      assert q[1..][..i - 1] == q[..i][1..];
      FoundAt(q[1..], id, i - 1);
    }
  }

  lemma PurgeBegins(r: Roster, clock: Clock)
    requires Consistent(r)
    ensures r.queue == Rotation(r, clock, 0) && r.expiry == Restrict(r, r.queue)
  {
    RestrictAll(r);
  }

  lemma PurgeKeepsFresh(r: Roster, clock: Clock, touched: map<string, int>, ttl: int)
    requires Consistent(r) && Fresh(r, touched, ttl)
    ensures Consistent(Purge(r, clock)) && Fresh(Purge(r, clock), touched, ttl)
  {
    PurgeKeepsConsistent(r, clock);
  }

  /** One turn of the purge loop: the front worker is dropped or goes to the back. */
  lemma Turn(r: Roster, clock: Clock, i: nat)
    requires Consistent(r) && i <= |r.queue| && i < |Rotation(r, clock, i)|
    ensures i < |r.queue| && Turns(r, clock, i) == Turns(r, clock, i + 1)
    ensures var queue := Rotation(r, clock, i);
            var lookup := Restrict(r, queue);
            && queue[0] in lookup
            && if clock(i) > lookup[queue[0]] then
                 && queue[1..] == Rotation(r, clock, i + 1)
                 && lookup - {queue[0]} == Restrict(r, Rotation(r, clock, i + 1))
               else
                 && (queue + [queue[0]])[1..] == Rotation(r, clock, i + 1)
                 && lookup == Restrict(r, Rotation(r, clock, i + 1))
  {
    var queue := Rotation(r, clock, i);
    TurnFront(r, clock, i);
    RotationIsDistinct(r, clock, i);
    RestrictTail(r, queue);
    RestrictRotated(r, queue);
    assert (queue + [queue[0]])[1..] == queue[1..] + [queue[0]];
  }

  lemma TurnFront(r: Roster, clock: Clock, i: nat)
    requires Consistent(r) && i <= |r.queue| && i < |Rotation(r, clock, i)|
    ensures i < |r.queue| && Rotation(r, clock, i)[0] == r.queue[i]
    ensures r.queue[i] in r.expiry && r.queue[i] in Restrict(r, Rotation(r, clock, i))
    ensures Rotation(r, clock, i + 1)
         == Rotation(r, clock, i)[1..] + (if Live(r, clock, i) then [r.queue[i]] else [])
  {
    assert i < |r.queue|;
    assert r.queue[i..] == [r.queue[i]] + r.queue[i + 1..];
    RotationMember(r, clock, i, i);
    RotationFront(r.queue[i], r.queue[i + 1..], Survivors(r, clock, i));
    assert r.queue[i] in r.queue;
  }

  lemma RotationFront(x: string, rest: seq<string>, tail: seq<string>)
    ensures ([x] + rest + tail)[0] == x && ([x] + rest + tail)[1..] == rest + tail
  {
  }
}
