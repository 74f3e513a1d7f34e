/**
 Going round a ring of servers: which ones are picked, how often, and what
 remains of that once each call returns its picks as a set.
 */
module RoundRobin {
  import opened SwimTypes

  ghost predicate Distinct(ring: seq<Server>) {
    forall i, j :: 0 <= i < j < |ring| ==> ring[i] != ring[j]
  }

  /** The place on a ring of size `size` after `n` picks starting from `p`. */
  function Place(size: nat, p: nat, n: nat): (q: nat)
    requires p < size
    ensures q < size
  {
    if n == 0 then p
    else
      var q := Place(size, p, n - 1);
      if q + 1 == size then 0 else q + 1
  }

  /** The servers picked by `n` picks starting from place `p`. */
  function Picks(ring: seq<Server>, p: nat, n: nat): (s: seq<Server>)
    requires p < |ring|
    ensures |s| == n
  {
    if n == 0 then [] else Picks(ring, p, n - 1) + [ring[Place(|ring|, p, n - 1)]]
  }

  lemma {:induction false} PickAt(ring: seq<Server>, p: nat, n: nat, i: nat)
    requires p < |ring| && i < n
    ensures Picks(ring, p, n)[i] == ring[Place(|ring|, p, i)]
  {
    if i == n - 1 {
    } else {
      PickAt(ring, p, n - 1, i);
    }
  }

  /** Two calls in a row go on where the first one stopped. */
  lemma {:induction false} PicksGoOn(ring: seq<Server>, p: nat, a: nat, b: nat)
    requires p < |ring|
    ensures Place(|ring|, p, a + b) == Place(|ring|, Place(|ring|, p, a), b)
    ensures Picks(ring, p, a + b) == Picks(ring, p, a) + Picks(ring, Place(|ring|, p, a), b)
  {
    if b == 0 {
    } else {
      PicksGoOn(ring, p, a, b - 1);
    }
  }

  // ----- One call: different servers, until all are used up -----

  lemma {:induction false} PlaceInFirstRound(size: nat, p: nat, i: nat)
    requires p < size && i <= size
    ensures Place(size, p, i) == if p + i < size then p + i else p + i - size
  {
    if i == 0 {
    } else {
      PlaceInFirstRound(size, p, i - 1);
    }
  }

  /** Up to one round, the picks are all different; from one round on, everybody has been picked. */
  lemma FirstRound(ring: seq<Server>, p: nat, n: nat)
    requires p < |ring| && Distinct(ring)
    ensures n <= |ring| ==> Distinct(Picks(ring, p, n))
    ensures n >= |ring| ==> forall x :: x in ring ==> x in Picks(ring, p, n)
  {
    var s, size := Picks(ring, p, n), |ring|;
    if n <= size {
      forall i, j | 0 <= i < j < n ensures s[i] != s[j] {
        PickAt(ring, p, n, i);
        PickAt(ring, p, n, j);
        PlaceInFirstRound(size, p, i);
        PlaceInFirstRound(size, p, j);
      }
    }
    if n >= size {
      forall x | x in ring ensures x in s {
        var q :| 0 <= q < size && ring[q] == x;
        var i := if p <= q then q - p else q + size - p;
        PickAt(ring, p, n, i);
        PlaceInFirstRound(size, p, i);
        assert s[i] == x;
      }
    }
  }

  lemma {:induction false} PicksAreFromRing(ring: seq<Server>, p: nat, n: nat)
    requires p < |ring|
    ensures forall x :: x in Picks(ring, p, n) ==> x in ring
  {
    if n == 0 {
    } else {
      PicksAreFromRing(ring, p, n - 1);
    }
  }

  ghost function Elements(s: seq<Server>): set<Server> {
    set x | x in s
  }

  lemma {:induction false} DistinctSize(s: seq<Server>)
    requires Distinct(s)
    ensures |Elements(s)| == |s|
  {
    if s == [] {
    } else {
      var init, x := s[..|s| - 1], s[|s| - 1];
      assert s == init + [x];
      DistinctSize(init);
      assert Elements(s) == Elements(init) + {x};
    }
  }

  /** A call returns as many different servers as it made picks, or all of them. */
  lemma PickedSize(ring: seq<Server>, p: nat, n: nat)
    requires p < |ring| && Distinct(ring)
    ensures |Elements(Picks(ring, p, n))| == Min(n, |ring|)
    ensures Elements(Picks(ring, p, n)) <= Elements(ring)
  {
    FirstRound(ring, p, n);
    PicksAreFromRing(ring, p, n);
    DistinctSize(ring);
    if n <= |ring| {
      DistinctSize(Picks(ring, p, n));
    } else {
      assert Elements(Picks(ring, p, n)) == Elements(ring);
    }
  }

  // ----- Many calls: fairness of the picks -----

  /** How often the picks pass the end of the ring. */
  ghost function Laps(size: nat, p: nat, n: nat): nat
    requires p < size
  {
    if n == 0 then 0
    else Laps(size, p, n - 1) + if Place(size, p, n - 1) + 1 == size then 1 else 0
  }

  ghost function Bit(b: bool): nat {
    if b then 1 else 0
  }

  lemma SamePlace(ring: seq<Server>, i: nat, j: nat)
    requires Distinct(ring) && i < |ring| && j < |ring|
    ensures ring[i] == ring[j] <==> i == j
  {
  }

  lemma CountAppended(s: seq<Server>, x: Server, y: Server)
    ensures multiset(s + [x])[y] == multiset(s)[y] + Bit(x == y)
  {
  }

  lemma PickedOnceMore(ring: seq<Server>, p: nat, n: nat, q: nat)
    requires p < |ring| && q < |ring| && Distinct(ring) && n > 0
    ensures multiset(Picks(ring, p, n))[ring[q]] ==
      multiset(Picks(ring, p, n - 1))[ring[q]] + Bit(Place(|ring|, p, n - 1) == q)
  {
    var last := Place(|ring|, p, n - 1);
    CountAppended(Picks(ring, p, n - 1), ring[last], ring[q]);
    SamePlace(ring, last, q);
  }

  /** Each server has been picked once a lap, give or take the partial laps at both ends. */
  lemma {:induction false} PickCount(ring: seq<Server>, p: nat, n: nat, q: nat)
    requires p < |ring| && q < |ring| && Distinct(ring)
    ensures multiset(Picks(ring, p, n))[ring[q]] + Bit(q < p)
      == Laps(|ring|, p, n) + Bit(q < Place(|ring|, p, n))
  {
    if n == 0 {
    } else {
      PickCount(ring, p, n - 1, q);
      PickedOnceMore(ring, p, n, q);
    }
  }

  /** No server is ever picked two times more often than another. */
  lemma PicksAreFair(ring: seq<Server>, p: nat, n: nat, x: Server, y: Server)
    requires p < |ring| && Distinct(ring) && x in ring && y in ring
    ensures multiset(Picks(ring, p, n))[x] <= multiset(Picks(ring, p, n))[y] + 1
  {
    var i :| 0 <= i < |ring| && ring[i] == x;
    var j :| 0 <= j < |ring| && ring[j] == y;
    PickCount(ring, p, n, i);
    PickCount(ring, p, n, j);
  }

  /** The number of picks in a series of calls. */
  function Total(ns: seq<nat>): nat {
    if ns == [] then 0 else Total(ns[..|ns| - 1]) + ns[|ns| - 1]
  }

  /** The picks of a series of calls, one after the other. */
  function CallPicks(ring: seq<Server>, p: nat, ns: seq<nat>): seq<Server>
    requires p < |ring|
  {
    if ns == [] then []
    else
      var before := ns[..|ns| - 1];
      CallPicks(ring, p, before) + Picks(ring, Place(|ring|, p, Total(before)), ns[|ns| - 1])
  }

  lemma {:induction false} CallsAreOneRun(ring: seq<Server>, p: nat, ns: seq<nat>)
    requires p < |ring|
    ensures CallPicks(ring, p, ns) == Picks(ring, p, Total(ns))
  {
    if ns == [] {
    } else {
      var before := ns[..|ns| - 1];
      CallsAreOneRun(ring, p, before);
      PicksGoOn(ring, p, Total(before), ns[|ns| - 1]);
    }
  }

  /**
   Over any series of calls, however many servers each of them asks for, the numbers of picks of any
   two servers differ by at most one; and once there were as many picks as servers, all were picked.
   */
  lemma CallsAreFair(ring: seq<Server>, p: nat, ns: seq<nat>, x: Server, y: Server)
    requires p < |ring| && Distinct(ring) && x in ring && y in ring
    ensures multiset(CallPicks(ring, p, ns))[x] <= multiset(CallPicks(ring, p, ns))[y] + 1
    ensures Total(ns) >= |ring| ==> x in CallPicks(ring, p, ns)
  {
    CallsAreOneRun(ring, p, ns);
    PicksAreFair(ring, p, Total(ns), x, y);
    FirstRound(ring, p, Total(ns));
  }

  // ----- Many calls: what they return -----

  ghost predicate NoneAbove(ns: seq<nat>, bound: nat) {
    forall i :: 0 <= i < |ns| ==> ns[i] <= bound
  }

  /** How often each server is returned: a call that picks a server twice returns it once. */
  ghost function Returned(ring: seq<Server>, p: nat, ns: seq<nat>): multiset<Server>
    requires p < |ring|
  {
    if ns == [] then multiset{}
    else
      var before := ns[..|ns| - 1];
      Returned(ring, p, before) + multiset(Elements(Picks(ring, Place(|ring|, p, Total(before)), ns[|ns| - 1])))
  }

  lemma {:induction false} DistinctMultiset(s: seq<Server>)
    requires Distinct(s)
    ensures multiset(Elements(s)) == multiset(s)
  {
    if s == [] {
    } else {
      var init, x := s[..|s| - 1], s[|s| - 1];
      assert s == init + [x];
      DistinctMultiset(init);
      assert Elements(s) == Elements(init) + {x};
      assert multiset(Elements(s)) == multiset(Elements(init)) + multiset{x};
    }
  }

  /** A call returns each pick once if and only if it does not go round more than once. */
  lemma ReturnsEveryPickIff(ring: seq<Server>, p: nat, n: nat)
    requires p < |ring| && Distinct(ring)
    ensures multiset(Elements(Picks(ring, p, n))) == multiset(Picks(ring, p, n)) <==> n <= |ring|
  {
    FirstRound(ring, p, n);
    PickedSize(ring, p, n);
    if n <= |ring| {
      DistinctMultiset(Picks(ring, p, n));
    } else {
      assert |multiset(Picks(ring, p, n))| == n;
      assert |multiset(Elements(Picks(ring, p, n)))| == |Elements(Picks(ring, p, n))|;
    }
  }

  lemma {:induction false} ReturnedIsPicked(ring: seq<Server>, p: nat, ns: seq<nat>)
    requires p < |ring| && Distinct(ring) && NoneAbove(ns, |ring|)
    ensures Returned(ring, p, ns) == multiset(CallPicks(ring, p, ns))
  {
    if ns == [] {
    } else {
      var before, n := ns[..|ns| - 1], ns[|ns| - 1];
      ReturnedIsPicked(ring, p, before);
      ReturnsEveryPickIff(ring, Place(|ring|, p, Total(before)), n);
    }
  }

  lemma {:induction false} PickedIsReturned(ring: seq<Server>, p: nat, ns: seq<nat>, x: Server)
    requires p < |ring| && x in CallPicks(ring, p, ns)
    ensures x in Returned(ring, p, ns)
  {
    if ns == [] {
      assert false;
    } else if x in CallPicks(ring, p, ns[..|ns| - 1]) {
      PickedIsReturned(ring, p, ns[..|ns| - 1], x);
    }
  }

  /** If no call goes round more than once, what is returned is fair too. */
  lemma ReturnsAreFair(ring: seq<Server>, p: nat, ns: seq<nat>, x: Server, y: Server)
    requires p < |ring| && Distinct(ring) && x in ring && y in ring
    requires NoneAbove(ns, |ring|)
    ensures Returned(ring, p, ns)[x] <= Returned(ring, p, ns)[y] + 1
  {
    ReturnedIsPicked(ring, p, ns);
    CallsAreFair(ring, p, ns, x, y);
  }

  lemma TotalAppended(ns: seq<nat>, n: nat)
    ensures Total(ns + [n]) == Total(ns) + n
  {
  }

  lemma ReturnedAppended(ring: seq<Server>, p: nat, ns: seq<nat>, n: nat, q: nat)
    requires p < |ring| && q == Place(|ring|, p, Total(ns))
    ensures Returned(ring, p, ns + [n]) == Returned(ring, p, ns) + multiset(Elements(Picks(ring, q, n)))
  {
  }

  lemma OneMoreCall(ring: seq<Server>, p: nat, ns: seq<nat>, n: nat, q: nat)
    requires p < |ring| && q == Place(|ring|, p, Total(ns))
    ensures Place(|ring|, p, Total(ns + [n])) == Place(|ring|, q, n)
    ensures Returned(ring, p, ns + [n]) == Returned(ring, p, ns) + multiset(Elements(Picks(ring, q, n)))
  {
    TotalAppended(ns, n);
    PicksGoOn(ring, p, Total(ns), n);
    ReturnedAppended(ring, p, ns, n, q);
  }

  // ----- Calls that go round more than once -----

  /** After some calls, asking in turn for all servers but one and for all and one more. */
  function Alternating(start: seq<nat>, size: nat, r: nat): seq<nat>
    requires size > 0
  {
    if r == 0 then start else Alternating(start, size, r - 1) + [size - 1] + [size + 1]
  }

  /** From the start of the ring, a call that is one short of a round misses the last server. */
  lemma ShortCall(ring: seq<Server>, n: nat, q: nat)
    requires Distinct(ring) && n + 1 == |ring| && q < |ring|
    ensures Place(|ring|, 0, n) == n && (ring[q] in Picks(ring, 0, n) <==> q != n)
  {
    PlaceInFirstRound(|ring|, 0, n);
    var s := Picks(ring, 0, n);
    forall i | 0 <= i < n ensures s[i] == ring[i] {
      PickAt(ring, 0, n, i);
      PlaceInFirstRound(|ring|, 0, i);
    }
    assert q != n ==> s[q] == ring[q];
  }

  /** A call that picks one more than a round returns everybody once, and is one place further. */
  lemma LongCall(ring: seq<Server>, p: nat, q: nat)
    requires Distinct(ring) && p + 1 == |ring| && q < |ring|
    ensures Place(|ring|, p, |ring| + 1) == 0 && ring[q] in Picks(ring, p, |ring| + 1)
  {
    PlaceInFirstRound(|ring|, p, |ring|);
    FirstRound(ring, p, |ring| + 1);
  }

  lemma ReturnedOnceMore(ring: seq<Server>, p: nat, ns: seq<nat>, n: nat, q: nat, x: Server)
    requires p < |ring| && q == Place(|ring|, p, Total(ns))
    ensures Place(|ring|, p, Total(ns + [n])) == Place(|ring|, q, n)
    ensures Returned(ring, p, ns + [n])[x] == Returned(ring, p, ns)[x] + Bit(x in Picks(ring, q, n))
  {
    OneMoreCall(ring, p, ns, n, q);
  }

  /** The series of calls ends at place `q`, and has returned the server `x` so many times. */
  ghost predicate HasReturned(ring: seq<Server>, p: nat, ns: seq<nat>, q: nat, x: Server, times: nat) {
    p < |ring| && Place(|ring|, p, Total(ns)) == q && Returned(ring, p, ns)[x] == times
  }

  lemma AfterShortCall(ring: seq<Server>, p: nat, ns: seq<nat>, n: nat, q: nat, times: nat)
    requires Distinct(ring) && n + 1 == |ring| && q < |ring| && HasReturned(ring, p, ns, 0, ring[q], times)
    ensures HasReturned(ring, p, ns + [n], n, ring[q], times + Bit(q != n))
  {
    ShortCall(ring, n, q);
    ReturnedOnceMore(ring, p, ns, n, 0, ring[q]);
  }

  lemma AfterLongCall(ring: seq<Server>, p: nat, ns: seq<nat>, n: nat, q: nat, times: nat)
    requires Distinct(ring) && n + 1 == |ring| && q < |ring| && HasReturned(ring, p, ns, n, ring[q], times)
    ensures HasReturned(ring, p, ns + [n + 2], 0, ring[q], times + 1)
  {
    LongCall(ring, n, q);
    ReturnedOnceMore(ring, p, ns, n + 2, n, ring[q]);
  }

  lemma AfterBothCalls(ring: seq<Server>, p: nat, ns: seq<nat>, ns': seq<nat>, q: nat, times: nat, times': nat)
    requires Distinct(ring) && q < |ring| && HasReturned(ring, p, ns, 0, ring[q], times)
    requires ns' == ns + [|ring| - 1] + [|ring| + 1] && times' == times + if q == |ring| - 1 then 1 else 2
    ensures HasReturned(ring, p, ns', 0, ring[q], times')
  {
    var last := |ring| - 1;
    AfterShortCall(ring, p, ns, last, q, times);
    AfterLongCall(ring, p, ns + [last], last, q, times' - 1);
  }

  /** How often `r` turns of alternating calls return a server. */
  function Share(isLast: bool, r: nat): nat {
    if isLast then r else 2 * r
  }

  /** Alternating calls return the last server once where they return each other server twice. */
  lemma {:induction false} AlternatingReturns(ring: seq<Server>, p: nat, start: seq<nat>, r: nat, q: nat, times: nat)
    requires Distinct(ring) && q < |ring| && HasReturned(ring, p, start, 0, ring[q], times)
    ensures HasReturned(ring, p, Alternating(start, |ring|, r), 0, ring[q], times + Share(q == |ring| - 1, r))
  {
    if r == 0 {
    } else {
      var isLast, size := q == |ring| - 1, |ring|;
      AlternatingReturns(ring, p, start, r - 1, q, times);
      AfterBothCalls(ring, p, Alternating(start, size, r - 1), Alternating(start, size, r), q,
                     times + Share(isLast, r - 1), times + Share(isLast, r));
    }
  }

  lemma {:induction false} AlternatingBound(start: seq<nat>, size: nat, r: nat)
    requires size > 0 && NoneAbove(start, size + 1)
    ensures NoneAbove(Alternating(start, size, r), size + 1)
  {
    if r == 0 {
    } else {
      AlternatingBound(start, size, r - 1);
    }
  }

  /** From place `p` on, calls of at most `bound` picks return all servers equally often, give or take one. */
  ghost predicate FairFrom(ring: seq<Server>, p: nat, bound: nat)
    requires p < |ring|
  {
    forall ns, x, y :: NoneAbove(ns, bound) && x in ring && y in ring ==>
      Returned(ring, p, ns)[x] <= Returned(ring, p, ns)[y] + 1
  }

  lemma ReachEnd(ring: seq<Server>, p: nat, start: seq<nat>)
    requires p < |ring| && start == [|ring| - p]
    ensures Place(|ring|, p, Total(start)) == 0 && forall x :: Returned(ring, p, start)[x] <= 1
  {
    PlaceInFirstRound(|ring|, p, |ring| - p);
    assert start[..0] == [];
  }

  /** Calls that may go one beyond a round can favor a server: first to the end of the ring, then alternating. */
  lemma ReturnsCanBeUnfair(ring: seq<Server>, p: nat) returns (ns: seq<nat>)
    requires p < |ring| && Distinct(ring) && |ring| > 1
    ensures NoneAbove(ns, |ring| + 1)
    ensures Returned(ring, p, ns)[ring[0]] > Returned(ring, p, ns)[ring[|ring| - 1]] + 1
  {
    var start, last := [|ring| - p], |ring| - 1;
    ReachEnd(ring, p, start);
    ns := Alternating(start, |ring|, 3);
    AlternatingBound(start, |ring|, 3);
    AlternatingReturns(ring, p, start, 3, 0, Returned(ring, p, start)[ring[0]]);
    AlternatingReturns(ring, p, start, 3, last, Returned(ring, p, start)[ring[last]]);
  }

  /** What is returned is fair if and only if no call may go round more than once, or there is nobody to favor. */
  lemma FairIff(ring: seq<Server>, p: nat, bound: nat)
    requires p < |ring| && Distinct(ring)
    ensures FairFrom(ring, p, bound) <==> |ring| == 1 || bound <= |ring|
  {
    if bound <= |ring| {
      forall ns, x, y | NoneAbove(ns, bound) && x in ring && y in ring
        ensures Returned(ring, p, ns)[x] <= Returned(ring, p, ns)[y] + 1
      {
        ReturnsAreFair(ring, p, ns, x, y);
      }
    } else if |ring| > 1 {
      var ns := ReturnsCanBeUnfair(ring, p);
      assert NoneAbove(ns, bound) && ring[0] in ring && ring[|ring| - 1] in ring;
    }
  }
}
