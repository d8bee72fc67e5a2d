/**
  The queue of ready workers with its expiry times, and `purge`, whose loop
  bound shrinks as it removes.  Every clock reading is a parameter: `clock(i)`
  is what the clock shows in the i-th turn of the loop.
*/
module WorkerQueue {
  import opened Powers

  type Clock = nat -> int

  /** The deque and the expiry table. */
  datatype Roster = Roster(queue: seq<string>, expiry: map<string, int>)

  ghost predicate Distinct<T>(q: seq<T>) {
    forall i, j :: 0 <= i < j < |q| ==> q[i] != q[j]
  }

  lemma DistinctConcat<T>(a: seq<T>, b: seq<T>)
    requires Distinct(a) && Distinct(b)
    ensures Distinct(a + b) <==> forall x :: x in a ==> x !in b
  {
    if x :| x in a && x in b {
      var i :| 0 <= i < |a| && a[i] == x;
      var j :| 0 <= j < |b| && b[j] == x;
      assert (a + b)[i] == (a + b)[|a| + j];
    } else {
      forall i, j | 0 <= i < j < |a + b| ensures (a + b)[i] != (a + b)[j] {
        if i < |a| <= j {
          assert a[i] in a && b[j - |a|] in b;
        }
      }
    }
  }

  /** No worker is queued twice, and those queued are exactly those with an expiry time. */
  ghost predicate Consistent(r: Roster) {
    && Distinct(r.queue)
    && (forall id :: id in r.queue <==> id in r.expiry)
  }

  // ---------------------------------------------------------------- erase, push, pop

  /** `q` without the first occurrence of `id`. */
  function Without(q: seq<string>, id: string): (r: seq<string>)
    ensures id !in q ==> r == q
    ensures forall x :: x in r ==> x in q
    ensures forall x :: x in q && x != id ==> x in r
  {
    if q == [] then []
    else if q[0] == id then
      assert forall x :: x in q && x != id ==> x in q[1..];
      q[1..]
    else [q[0]] + Without(q[1..], id)
  }

  lemma {:induction false} WithoutIsDistinct(q: seq<string>, id: string)
    requires Distinct(q)
    ensures Distinct(Without(q, id)) && id !in Without(q, id)
  {
    if q == [] || q[0] == id {
    } else {
      WithoutIsDistinct(q[1..], id);
      assert q[0] !in q[1..];
      DistinctConcat([q[0]], Without(q[1..], id));
    }
  }

  /** Where `id` stands in the queue. */
  function Position(q: seq<string>, id: string): (i: nat)
    requires id in q
    ensures i < |q| && q[i] == id
  {
    if q[0] == id then 0 else 1 + Position(q[1..], id)
  }

  function Erase(r: Roster, id: string): Roster {
    Roster(Without(r.queue, id), r.expiry - {id})
  }

  function Push(r: Roster, id: string, expires: int): Roster {
    Roster(r.queue + [id], r.expiry[id := expires])
  }

  function Pop(r: Roster): Roster {
    if r.queue == [] then r else Roster(r.queue[1..], r.expiry - {r.queue[0]})
  }

  lemma EraseKeepsConsistent(r: Roster, id: string)
    requires Consistent(r)
    ensures Consistent(Erase(r, id)) && id !in Erase(r, id).queue
  {
    WithoutIsDistinct(r.queue, id);
  }

  lemma PushKeepsConsistent(r: Roster, id: string, expires: int)
    requires Consistent(r) && id !in r.expiry
    ensures Consistent(Push(r, id, expires))
  {
    var t := Push(r, id, expires);
    assert forall x :: x in t.queue <==> x in r.queue || x == id;
  }

  lemma PopKeepsConsistent(r: Roster)
    requires Consistent(r)
    ensures Consistent(Pop(r))
  {
    if r.queue != [] {
      assert forall x :: x in r.queue <==> x == r.queue[0] || x in r.queue[1..];
    }
  }

  /** Only the front worker leaves. */
  lemma PopTakesFront(r: Roster, id: string)
    requires Consistent(r) && r.queue != [] && id in r.queue
    ensures id in Pop(r).queue <==> r.queue[..1] != [id]
  {
    assert r.queue == [r.queue[0]] + r.queue[1..] && r.queue[..1] == [r.queue[0]];
  }

  // ---------------------------------------------------------------- purge

  /** The verdict on the worker at position `j`, examined in turn `j`. */
  predicate Live(r: Roster, clock: Clock, j: nat)
    requires j < |r.queue|
  {
    r.queue[j] in r.expiry && clock(j) <= r.expiry[r.queue[j]]
  }

  /** How many of the first `i` workers have expired. */
  function Removed(r: Roster, clock: Clock, i: nat): (n: nat)
    requires i <= |r.queue|
    ensures n <= i
  {
    if i == 0 then 0
    else Removed(r, clock, i - 1) + (if Live(r, clock, i - 1) then 0 else 1)
  }

  /** The live ones among the first `i` workers. */
  function Survivors(r: Roster, clock: Clock, i: nat): (s: seq<string>)
    requires i <= |r.queue|
    ensures |s| == i - Removed(r, clock, i)
  {
    if i == 0 then []
    else Survivors(r, clock, i - 1) + (if Live(r, clock, i - 1) then [r.queue[i - 1]] else [])
  }

  /** How many turns the loop takes, from turn `i` on: it stops when `i` reaches the current size. */
  function Turns(r: Roster, clock: Clock, i: nat): (m: nat)
    requires i <= |r.queue|
    ensures i <= m <= |r.queue|
    ensures m >= |r.queue| - Removed(r, clock, m)
    ensures forall j :: i <= j < m ==> j < |r.queue| - Removed(r, clock, j)
    decreases |r.queue| - i
  {
    if i < |r.queue| - Removed(r, clock, i) then Turns(r, clock, i + 1) else i
  }

  /** The deque after `i` turns: those not reached, then the survivors of those reached. */
  function Rotation(r: Roster, clock: Clock, i: nat): seq<string>
    requires i <= |r.queue|
  {
    r.queue[i..] + Survivors(r, clock, i)
  }

  /** The expiry times of those in `queue`. */
  function Restrict(r: Roster, queue: seq<string>): map<string, int> {
    map id | id in r.expiry && id in queue :: r.expiry[id]
  }

  /** What one purge leaves: the workers it did not reach, then the survivors of those it did. */
  function Purge(r: Roster, clock: Clock): Roster {
    var queue := Rotation(r, clock, Turns(r, clock, 0));
    Roster(queue, Restrict(r, queue))
  }

  /** The worker at position `j` is dropped exactly if it was reached and found expired. */
  lemma {:induction false} SurvivorsMember(r: Roster, clock: Clock, i: nat)
    requires i <= |r.queue| && Consistent(r)
    ensures forall j :: 0 <= j < i ==> (r.queue[j] in Survivors(r, clock, i) <==> Live(r, clock, j))
    ensures forall x :: x in Survivors(r, clock, i) ==> x in r.queue[..i]
    ensures Distinct(Survivors(r, clock, i))
  {
    if i == 0 {
    } else {
      SurvivorsMember(r, clock, i - 1);
      assert r.queue[..i] == r.queue[..i - 1] + [r.queue[i - 1]];
      forall j | 0 <= j < i - 1 ensures r.queue[j] != r.queue[i - 1] {}
      DistinctConcat(Survivors(r, clock, i - 1), [r.queue[i - 1]]);
    }
  }

  /** One purge examines m workers and removes r: m is n - r or n - r + 1, and at least half of n. */
  lemma TurnsBounds(r: Roster, clock: Clock)
    ensures var n, m := |r.queue|, Turns(r, clock, 0);
            var removed := Removed(r, clock, m);
            && (m == n - removed || m == n - removed + 1)
            && 2 * m >= n
            && |Purge(r, clock).queue| == n - removed
  {
    var m := Turns(r, clock, 0);
    if m > 0 {
      assert m - 1 < |r.queue| - Removed(r, clock, m - 1);
    }
  }

  lemma RestrictAll(r: Roster)
    requires Consistent(r)
    ensures Restrict(r, r.queue) == r.expiry
  {
  }

  lemma RestrictRotated(r: Roster, q: seq<string>)
    requires q != []
    ensures Restrict(r, q[1..] + [q[0]]) == Restrict(r, q)
  {
    forall id ensures id in q[1..] + [q[0]] <==> id in q {
      assert q == [q[0]] + q[1..];
    }
  }

  lemma RestrictTail(r: Roster, q: seq<string>)
    requires q != [] && Distinct(q)
    ensures Restrict(r, q[1..]) == Restrict(r, q) - {q[0]}
  {
    forall id ensures id in q[1..] <==> id in q && id != q[0] {
      assert q == [q[0]] + q[1..];
    }
  }

  /** What is left after `i` turns has no duplicates and is a part of the queue. */
  lemma RotationIsDistinct(r: Roster, clock: Clock, i: nat)
    requires Consistent(r) && i <= |r.queue|
    ensures Distinct(Rotation(r, clock, i))
    ensures forall id :: id in Rotation(r, clock, i) ==> id in r.queue
  {
    SurvivorsMember(r, clock, i);
    DistinctConcat(r.queue[i..], Survivors(r, clock, i));
  }

  lemma RotationMember(r: Roster, clock: Clock, i: nat, j: nat)
    requires Consistent(r) && i <= |r.queue| && j < |r.queue|
    ensures r.queue[j] in Rotation(r, clock, i) <==> i <= j || Live(r, clock, j)
  {
    SurvivorsMember(r, clock, i);
    if i <= j {
      assert r.queue[i..][j - i] == r.queue[j];
    } else {
      assert r.queue[j] !in r.queue[i..];
    }
  }

  lemma PurgeKeepsConsistent(r: Roster, clock: Clock)
    requires Consistent(r)
    ensures Consistent(Purge(r, clock))
  {
    RotationIsDistinct(r, clock, Turns(r, clock, 0));
  }

  /**
    The purge reaches position `j`: `j` and the expired workers in front of it
    are together fewer than the queue was long.
  */
  predicate Reached(r: Roster, clock: Clock, j: nat)
    requires j < |r.queue|
  {
    j + Removed(r, clock, j) < |r.queue|
  }

  lemma {:induction false} RemovedGrows(r: Roster, clock: Clock, i: nat, j: nat)
    requires i <= j <= |r.queue|
    ensures Removed(r, clock, i) <= Removed(r, clock, j)
    decreases j - i
  {
    if i == j {
    } else {
      RemovedGrows(r, clock, i, j - 1);
    }
  }

  /** The loop, whose bound shrinks as it goes, takes turn `j` exactly if it reaches position `j` in this sense. */
  lemma TurnIsTaken(r: Roster, clock: Clock, j: nat)
    requires j < |r.queue|
    ensures j < Turns(r, clock, 0) <==> Reached(r, clock, j)
  {
    var m := Turns(r, clock, 0);
    if m <= j {
      RemovedGrows(r, clock, m, j);
    }
  }

  lemma PurgeDropsAt(r: Roster, clock: Clock, j: nat)
    requires Consistent(r) && j < |r.queue|
    ensures r.queue[j] !in Purge(r, clock).queue <==> Reached(r, clock, j) && !Live(r, clock, j)
  {
    RotationMember(r, clock, Turns(r, clock, 0), j);
    TurnIsTaken(r, clock, j);
  }

  /** Exactly who stays: everyone but those reached and found expired, each with the same expiry time. */
  lemma PurgeDropsExactly(r: Roster, clock: Clock)
    requires Consistent(r)
    ensures Consistent(Purge(r, clock))
    ensures forall j :: 0 <= j < |r.queue| ==>
      (r.queue[j] !in Purge(r, clock).queue <==> Reached(r, clock, j) && !Live(r, clock, j))
    ensures forall id :: id in Purge(r, clock).queue ==> id in r.queue
    ensures forall id :: id in Purge(r, clock).expiry ==> id in r.expiry && Purge(r, clock).expiry[id] == r.expiry[id]
  {
    PurgeKeepsConsistent(r, clock);
    RotationIsDistinct(r, clock, Turns(r, clock, 0));
    forall j | 0 <= j < |r.queue|
      ensures r.queue[j] !in Purge(r, clock).queue <==> Reached(r, clock, j) && !Live(r, clock, j)
    {
      PurgeDropsAt(r, clock, j);
    }
  }

  lemma PositionIs(q: seq<string>, i: nat)
    requires Distinct(q) && i < |q|
    ensures Position(q, q[i]) == i
  {
    assert q[Position(q, q[i])] == q[i];
  }

  lemma PositionInConcat(a: seq<string>, b: seq<string>, id: string)
    requires Distinct(a + b) && (id in a || id in b)
    ensures id in a ==> Position(a + b, id) == Position(a, id)
    ensures id in b ==> Position(a + b, id) == |a| + Position(b, id)
  {
    if id in a {
      assert (a + b)[Position(a, id)] == id;
      PositionIs(a + b, Position(a, id));
    }
    if id in b {
      assert (a + b)[|a| + Position(b, id)] == id;
      PositionIs(a + b, |a| + Position(b, id));
    }
  }

  lemma {:induction false} SurvivorsInOrder(r: Roster, clock: Clock, i: nat, a: nat, b: nat)
    requires Consistent(r) && a < b < i <= |r.queue| && Live(r, clock, a) && Live(r, clock, b)
    ensures var s := Survivors(r, clock, i);
      r.queue[a] in s && r.queue[b] in s && Position(s, r.queue[a]) < Position(s, r.queue[b])
    decreases i
  {
    PositionOfEarlier(r, clock, i, a);
    if b == i - 1 {
      PositionOfLast(r, clock, i);
    } else {
      PositionOfEarlier(r, clock, i, b);
      SurvivorsInOrder(r, clock, i - 1, a, b);
    }
  }

  lemma PositionOfEarlier(r: Roster, clock: Clock, i: nat, a: nat)
    requires Consistent(r) && a < i - 1 < |r.queue| && Live(r, clock, a)
    ensures r.queue[a] in Survivors(r, clock, i - 1) && r.queue[a] in Survivors(r, clock, i)
    ensures Position(Survivors(r, clock, i), r.queue[a]) == Position(Survivors(r, clock, i - 1), r.queue[a])
  {
    SurvivorsMember(r, clock, i);
    SurvivorsMember(r, clock, i - 1);
    var last := if Live(r, clock, i - 1) then [r.queue[i - 1]] else [];
    PositionInConcat(Survivors(r, clock, i - 1), last, r.queue[a]);
  }

  lemma PositionOfLast(r: Roster, clock: Clock, i: nat)
    requires Consistent(r) && 0 < i <= |r.queue| && Live(r, clock, i - 1)
    ensures r.queue[i - 1] in Survivors(r, clock, i)
    ensures Position(Survivors(r, clock, i), r.queue[i - 1]) == |Survivors(r, clock, i - 1)|
  {
    SurvivorsMember(r, clock, i);
    PositionIs(Survivors(r, clock, i), |Survivors(r, clock, i - 1)|);
  }

  lemma UnreachedPosition(r: Roster, m: nat, j: nat)
    requires Consistent(r) && m <= j < |r.queue|
    ensures r.queue[j] in r.queue[m..] && Position(r.queue[m..], r.queue[j]) == j - m
  {
    assert r.queue[m..][j - m] == r.queue[j];
    PositionIs(r.queue[m..], j - m);
  }

  /** Two workers that both stay keep their order, unless the first was reached and the second not. */
  lemma PurgeKeepsOrder(r: Roster, clock: Clock, a: nat, b: nat)
    requires Consistent(r) && a < b < |r.queue|
    requires r.queue[a] in Purge(r, clock).queue && r.queue[b] in Purge(r, clock).queue
    ensures Position(Purge(r, clock).queue, r.queue[a]) < Position(Purge(r, clock).queue, r.queue[b])
       <==> (Reached(r, clock, a) <==> Reached(r, clock, b))
  {
    var m := Turns(r, clock, 0);
    var s := Survivors(r, clock, m);
    RotationIsDistinct(r, clock, m);
    TurnIsTaken(r, clock, a);
    TurnIsTaken(r, clock, b);
    PlaceAfterPurge(r, clock, a);
    PlaceAfterPurge(r, clock, b);
    if b < m {
      SurvivorsInOrder(r, clock, m, a, b);
    }
  }

  lemma PlaceAfterPurge(r: Roster, clock: Clock, j: nat)
    requires Consistent(r) && j < |r.queue| && r.queue[j] in Purge(r, clock).queue
    ensures var m := Turns(r, clock, 0);
      var s := Survivors(r, clock, m);
      if m <= j then Position(Purge(r, clock).queue, r.queue[j]) == j - m
      else Live(r, clock, j) && r.queue[j] in s
           && Position(Purge(r, clock).queue, r.queue[j]) == |r.queue| - m + Position(s, r.queue[j])
  {
    var m := Turns(r, clock, 0);
    RotationIsDistinct(r, clock, m);
    RotationMember(r, clock, m, j);
    SurvivorsMember(r, clock, m);
    if m <= j {
      UnreachedPosition(r, m, j);
    }
    PositionInConcat(r.queue[m..], Survivors(r, clock, m), r.queue[j]);
  }

  /** A purge that finds nobody expired reaches everybody and puts the queue back as it was. */
  lemma PurgeIdentity(r: Roster, clock: Clock)
    requires Consistent(r) && forall j :: 0 <= j < |r.queue| ==> Live(r, clock, j)
    ensures Purge(r, clock) == r
  {
    var m := Turns(r, clock, 0);
    AllSurvive(r, clock, m);
    assert r.queue[m..] + r.queue[..m] == r.queue;
    RestrictAll(r);
  }

  lemma {:induction false} AllSurvive(r: Roster, clock: Clock, i: nat)
    requires i <= |r.queue| && forall j :: 0 <= j < i ==> Live(r, clock, j)
    ensures Survivors(r, clock, i) == r.queue[..i]
  {
    if i == 0 {
    } else {
      AllSurvive(r, clock, i - 1);
      assert r.queue[..i] == r.queue[..i - 1] + [r.queue[i - 1]];
    }
  }

  // ---------------------------------------------------------------- convergence at a fixed clock

  function At(now: int): Clock {
    (i: nat) => now
  }

  function PurgeAt(r: Roster, now: int): Roster {
    Purge(r, At(now))
  }

  function PurgeTimes(r: Roster, now: int, k: nat): Roster
    decreases k
  {
    if k == 0 then r else PurgeTimes(PurgeAt(r, now), now, k - 1)
  }

  predicate Expired(r: Roster, now: int, id: string) {
    id in r.expiry && now > r.expiry[id]
  }

  /** Only the first `p` workers may be expired. */
  ghost predicate ExpiredWithin(r: Roster, now: int, p: nat) {
    forall j :: p <= j < |r.queue| ==> !Expired(r, now, r.queue[j])
  }

  /** The workers a purge has not reached form a prefix, at most half as long as the one it began with. */
  lemma PurgeHalves(r: Roster, now: int, p: nat)
    requires Consistent(r) && ExpiredWithin(r, now, p)
    ensures ExpiredWithin(PurgeAt(r, now), now, p / 2)
  {
    var m := Turns(r, At(now), 0);
    var t := PurgeAt(r, now);
    TurnsBounds(r, At(now));
    PurgeDropsExactly(r, At(now));
    SurvivorsMember(r, At(now), m);
    forall j | p / 2 <= j < |t.queue| ensures !Expired(t, now, t.queue[j]) {
      if j < |r.queue| - m {
        assert t.queue[j] == r.queue[m + j];
      } else {
        var x := t.queue[j];
        assert x in Survivors(r, At(now), m) && x in r.queue[..m];
        var i :| 0 <= i < m && r.queue[i] == x;
        assert Live(r, At(now), i);
      }
    }
  }

  /** `t` has worker `id` exactly if `r` has it and it has not expired, and with the same expiry time. */
  ghost predicate Settled(r: Roster, t: Roster, now: int, id: string) {
    && (id in t.queue <==> id in r.queue && !Expired(r, now, id))
    && (id in t.expiry ==> id in r.expiry && t.expiry[id] == r.expiry[id])
  }

  ghost predicate AllSettled(r: Roster, t: Roster, now: int) {
    forall id :: Settled(r, t, now, id)
  }

  /** The passes that are enough for `p` possibly expired workers: floor(log2 p) + 1. */
  function Passes(p: nat): nat {
    if p == 0 then 0 else Log2(p) + 1
  }

  /**
    Repeated purging converges: floor(log2 n) + 1 passes at one clock reading
    leave exactly the workers that were not expired.
  */
  lemma {:induction false} PurgeConverges(r: Roster, now: int, p: nat)
    requires Consistent(r) && ExpiredWithin(r, now, p)
    ensures Consistent(PurgeTimes(r, now, Passes(p)))
    ensures AllSettled(r, PurgeTimes(r, now, Passes(p)), now)
    decreases p
  {
    if p == 0 {
      SettledBase(r, now);
    } else {
      var u := PurgeAt(r, now);
      PurgeHalves(r, now, p);
      PurgeKeepsConsistent(r, At(now));
      PurgeConverges(u, now, p / 2);
      assert Passes(p) == Passes(p / 2) + 1;
      SettledStep(r, PurgeTimes(u, now, Passes(p / 2)), now);
    }
  }

  lemma SettledBase(r: Roster, now: int)
    requires Consistent(r) && ExpiredWithin(r, now, 0)
    ensures AllSettled(r, r, now)
  {
    forall id ensures Settled(r, r, now, id) {
      if id in r.queue {
        var j :| 0 <= j < |r.queue| && r.queue[j] == id;
      }
    }
  }

  lemma SettledStep(r: Roster, t: Roster, now: int)
    requires Consistent(r) && AllSettled(PurgeAt(r, now), t, now)
    ensures AllSettled(r, t, now)
  {
    forall id ensures Settled(r, t, now, id) {
      assert Settled(PurgeAt(r, now), t, now, id);
      PurgeKeepsLive(r, now, id);
    }
  }

  lemma PurgeKeepsLive(r: Roster, now: int, id: string)
    requires Consistent(r)
    ensures var u := PurgeAt(r, now);
            && ((id in u.queue && !Expired(u, now, id)) <==> (id in r.queue && !Expired(r, now, id)))
            && (id in u.expiry ==> id in r.expiry && u.expiry[id] == r.expiry[id])
  {
    PurgeDropsExactly(r, At(now));
    if id in r.queue {
      var j :| 0 <= j < |r.queue| && r.queue[j] == id;
    }
  }

  /**
    One pass is enough exactly if every expired worker stands so far forward
    that its position and the expired workers in front of it are together fewer
    than the queue is long.
  */
  lemma OnePassComplete(r: Roster, now: int)
    requires Consistent(r)
    ensures (forall id :: id in PurgeAt(r, now).queue ==> !Expired(r, now, id))
       <==> (forall j :: 0 <= j < |r.queue| && Expired(r, now, r.queue[j]) ==> Reached(r, At(now), j))
  {
    PurgeDropsExactly(r, At(now));
    forall j | 0 <= j < |r.queue| ensures Expired(r, now, r.queue[j]) <==> !Live(r, At(now), j) {
      assert r.queue[j] in r.expiry;
    }
    var q := PurgeAt(r, now).queue;
    forall id | id in q && Expired(r, now, id)
      ensures exists j :: 0 <= j < |r.queue| && r.queue[j] == id && !Reached(r, At(now), j)
    {
      var j :| 0 <= j < |r.queue| && r.queue[j] == id;
    }
  }

  lemma {:induction false} NoneSurvive(r: Roster, clock: Clock, i: nat)
    requires i <= |r.queue| && forall j :: 0 <= j < i ==> !Live(r, clock, j)
    ensures Survivors(r, clock, i) == []
  {
    if i == 0 {
    } else {
      NoneSurvive(r, clock, i - 1);
    }
  }

  lemma AllExpiredHalve(r: Roster, now: int)
    requires Consistent(r) && forall id :: id in r.queue ==> Expired(r, now, id)
    ensures var u := PurgeAt(r, now);
      Consistent(u) && |u.queue| == |r.queue| / 2 && forall id :: id in u.queue ==> Expired(u, now, id)
  {
    TurnsBounds(r, At(now));
    PurgeDropsExactly(r, At(now));
    NoneSurvive(r, At(now), Turns(r, At(now), 0));
  }

  /**
    The bound cannot be improved: when all are expired each pass removes just
    half, rounded up, so that after k passes n / 2^k workers remain.
  */
  lemma {:induction false} AllExpiredHalvesExactly(r: Roster, now: int, k: nat)
    requires Consistent(r) && forall id :: id in r.queue ==> Expired(r, now, id)
    ensures |PurgeTimes(r, now, k).queue| == |r.queue| / Pow2(k)
    decreases k
  {
    if k == 0 {
    } else {
      AllExpiredHalve(r, now);
      AllExpiredHalvesExactly(PurgeAt(r, now), now, k - 1);
      HalfOfHalf(|r.queue|, Pow2(k - 1));
    }
  }
}
