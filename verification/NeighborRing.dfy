/**
 The ring of neighbors that the failure detector goes round, laid over the ordered
 alive set, and what series of calls return.
 */
module NeighborRing {
  import opened SwimTypes
  import opened RecordSet
  import opened RoundRobin
  import ReportLaws
  import Reporting

  /** The servers other than `self`, in the order of the set. */
  ghost function Ring(s: seq<Record>, self: Server): seq<Server> {
    if s == [] then []
    else Ring(s[..|s| - 1], self) + if s[|s| - 1].server == self then [] else [s[|s| - 1].server]
  }

  /** The place on the ring of the next server to be picked when the index into the set is `index`. */
  ghost function RingPlace(s: seq<Record>, self: Server, index: nat): nat {
    var i := if index < |s| then index else 0;
    var place := |Ring(s[..i], self)|;
    if place == |Ring(s, self)| then 0 else place
  }

  lemma {:induction false} RingPrefix(s: seq<Record>, self: Server, i: nat)
    requires i <= |s|
    ensures Ring(s[..i], self) <= Ring(s, self)
  {
    if i < |s| {
      RingPrefix(s[..|s| - 1], self, i);
      assert s[..|s| - 1][..i] == s[..i];
    } else {
      assert s[..i] == s;
    }
  }

  lemma RingStep(s: seq<Record>, self: Server, i: nat)
    requires i < |s|
    ensures Ring(s[..i + 1], self) == Ring(s[..i], self) + if s[i].server == self then [] else [s[i].server]
    ensures s[i].server != self ==>
      |Ring(s[..i], self)| < |Ring(s, self)| && Ring(s, self)[|Ring(s[..i], self)|] == s[i].server
  {
    assert s[..i + 1][..i] == s[..i];
    RingPrefix(s, self, i + 1);
  }

  lemma {:induction false} RingMembers(s: seq<Record>, self: Server)
    requires ReportLaws.DistinctNames(s)
    ensures Distinct(Ring(s, self))
    ensures forall x :: x in Ring(s, self) <==> x in Reporting.Names(s) && x != self
    ensures |Ring(s, self)| == |s| - if self in Reporting.Names(s) then 1 else 0
  {
    if s == [] {
    } else {
      var init, r := s[..|s| - 1], s[|s| - 1];
      RingMembers(init, self);
      assert s == init + [r];
      assert Reporting.Names(s) == Reporting.Names(init) + {r.server};
      assert r.server !in Reporting.Names(init);
    }
  }

  lemma NamesAreKeys(s: seq<Record>)
    requires Sorted(s)
    ensures ReportLaws.DistinctNames(s) && Reporting.Names(s) == Contents(s).Keys
  {
  }

  /** Moving past a server other than `self` moves on by one place; moving past `self` does not. */
  lemma RingPlaceStep(s: seq<Record>, self: Server, i: nat)
    requires i < |s| && Ring(s, self) != []
    ensures RingPlace(s, self, i) < |Ring(s, self)|
    ensures s[i].server != self ==>
      && Ring(s, self)[RingPlace(s, self, i)] == s[i].server
      && RingPlace(s, self, i + 1) == Place(|Ring(s, self)|, RingPlace(s, self, i), 1)
    ensures s[i].server == self ==> RingPlace(s, self, i + 1) == RingPlace(s, self, i)
  {
    RingStep(s, self, i);
    RingPrefix(s, self, i);
    if i + 1 == |s| {
      assert s[..i + 1] == s && s[..0] == [];
    } else {
      RingPrefix(s, self, i + 1);
    }
    assert Place(|Ring(s, self)|, RingPlace(s, self, i), 0) == RingPlace(s, self, i);
  }

  lemma RingPlaceInRange(s: seq<Record>, self: Server, index: nat)
    requires Ring(s, self) != []
    ensures RingPlace(s, self, index) < |Ring(s, self)|
  {
    RingPrefix(s, self, if index < |s| then index else 0);
  }

  ghost predicate SelfIsNext(s: seq<Record>, self: Server, index: nat) {
    s != [] && s[if index < |s| then index else 0].server == self
  }

  /** After `idx` picks starting from place `p`: `others` holds what was picked, and `index` is next. */
  ghost predicate Picked(s: seq<Record>, self: Server, p: nat, idx: nat, others: set<Server>, index: nat) {
    var ring := Ring(s, self);
    if ring == [] then others == {}
    else
      && p < |ring|
      && others == Elements(Picks(ring, p, idx))
      && RingPlace(s, self, index) == Place(|ring|, p, idx)
  }

  lemma PickedStart(s: seq<Record>, self: Server, index: nat)
    ensures Picked(s, self, RingPlace(s, self, index), 0, {}, index)
  {
    if Ring(s, self) != [] {
      RingPlaceInRange(s, self, index);
    }
  }

  lemma PickOne(s: seq<Record>, self: Server, p: nat, idx: nat, others: set<Server>, i: nat)
    requires Picked(s, self, p, idx, others, i) && i < |s| && s[i].server != self
    ensures Picked(s, self, p, idx + 1, others + {s[i].server}, i + 1)
  {
    RingStep(s, self, i);
    RingPlaceStep(s, self, i);
    var ring := Ring(s, self);
    PicksGoOn(ring, p, idx, 1);
    assert Picks(ring, p, idx + 1) == Picks(ring, p, idx) + [s[i].server];
  }

  /**
   The index moves past the server itself without a pick, and the next one is another server; if
   there is no other, nothing more can be picked.
   */
  lemma SkipSelf(s: seq<Record>, self: Server, p: nat, idx: nat, n: nat, others: set<Server>, i: nat)
    requires Sorted(s) && Picked(s, self, p, idx, others, i) && i < |s| && s[i].server == self
    ensures Picked(s, self, p, idx, others, i + 1)
    ensures |s| > 1 ==> !SelfIsNext(s, self, i + 1)
    ensures |s| == 1 ==> Picked(s, self, p, n, others, i + 1)
  {
    SortedDistinct(s);
    if Ring(s, self) != [] {
      RingPlaceStep(s, self, i);
    }
    if |s| == 1 {
      RingStep(s, self, 0);
      assert s[..1] == s && s[..0] == [];
    }
  }

  lemma PickedResult(s: seq<Record>, self: Server, p: nat, k: nat, others: set<Server>, index: nat)
    requires Sorted(s) && Picked(s, self, p, Min(k, |s|), others, index)
    ensures |others| == Min(k, |s| - if self in Contents(s) then 1 else 0)
    ensures self !in others && forall x :: x in others ==> x in Contents(s)
  {
    NamesAreKeys(s);
    RingMembers(s, self);
    var ring := Ring(s, self);
    if ring != [] {
      PickedSize(ring, p, Min(k, |s|));
    }
  }

  // ----- Series of calls -----

  /** Calls made one after the other while the alive set does not change. */
  ghost predicate CallSeries(s: seq<Record>, self: Server, ns: seq<nat>, indexes: seq<nat>, results: seq<set<Server>>) {
    && |indexes| == |ns| + 1 && |results| == |ns|
    && forall i :: 0 <= i < |ns| ==> Picked(s, self, RingPlace(s, self, indexes[i]), ns[i], results[i], indexes[i + 1])
  }

  /** How often each server appears in the results. */
  ghost function Appearances(results: seq<set<Server>>): multiset<Server> {
    if results == [] then multiset{}
    else Appearances(results[..|results| - 1]) + multiset(results[|results| - 1])
  }

  lemma SeriesPrefix(s: seq<Record>, self: Server, ns: seq<nat>, indexes: seq<nat>, results: seq<set<Server>>, i: nat)
    requires CallSeries(s, self, ns, indexes, results) && i < |ns|
    ensures CallSeries(s, self, ns[..i], indexes[..i + 1], results[..i])
    ensures Picked(s, self, RingPlace(s, self, indexes[i]), ns[i], results[i], indexes[i + 1])
  {
  }

  lemma {:induction false} SeriesIsOneRun(s: seq<Record>, self: Server, ns: seq<nat>,
                                          indexes: seq<nat>, results: seq<set<Server>>)
    requires Ring(s, self) != [] && CallSeries(s, self, ns, indexes, results)
    ensures var ring, p := Ring(s, self), RingPlace(s, self, indexes[0]);
      && p < |ring|
      && RingPlace(s, self, indexes[|ns|]) == Place(|ring|, p, Total(ns))
      && Appearances(results) == Returned(ring, p, ns)
  {
    RingPlaceInRange(s, self, indexes[0]);
    if ns == [] {
    } else {
      var last, ring, p := |ns| - 1, Ring(s, self), RingPlace(s, self, indexes[0]);
      SeriesPrefix(s, self, ns, indexes, results, last);
      SeriesIsOneRun(s, self, ns[..last], indexes[..last + 1], results[..last]);
      PicksGoOn(ring, p, Total(ns[..last]), ns[last]);
      assert results[last] == Elements(Picks(ring, Place(|ring|, p, Total(ns[..last])), ns[last]));
    }
  }

  /** Everybody is reached once there were as many picks as other servers. */
  lemma SeriesReachesAll(s: seq<Record>, self: Server, ns: seq<nat>,
                         indexes: seq<nat>, results: seq<set<Server>>, x: Server)
    requires Sorted(s) && CallSeries(s, self, ns, indexes, results)
    requires Total(ns) >= |Ring(s, self)| && x in Ring(s, self)
    ensures x in Appearances(results)
  {
    NamesAreKeys(s);
    RingMembers(s, self);
    var ring, p := Ring(s, self), RingPlace(s, self, indexes[0]);
    SeriesIsOneRun(s, self, ns, indexes, results);
    CallsAreFair(ring, p, ns, x, x);
    PickedIsReturned(ring, p, ns, x);
  }

  /**
   While the alive set does not change, and no call asks for more servers than there are others, any
   two servers are returned equally often, give or take one.
   */
  lemma SeriesIsFair(s: seq<Record>, self: Server, ns: seq<nat>,
                     indexes: seq<nat>, results: seq<set<Server>>, x: Server, y: Server)
    requires Sorted(s) && CallSeries(s, self, ns, indexes, results)
    requires x in Ring(s, self) && y in Ring(s, self) && NoneAbove(ns, |Ring(s, self)|)
    ensures Appearances(results)[x] <= Appearances(results)[y] + 1
  {
    NamesAreKeys(s);
    RingMembers(s, self);
    SeriesIsOneRun(s, self, ns, indexes, results);
    ReturnsAreFair(Ring(s, self), RingPlace(s, self, indexes[0]), ns, x, y);
  }

  // ----- When a series of calls is fair -----

  /** Every place on the ring is that of some index. */
  lemma {:induction false} IndexOfPlace(s: seq<Record>, self: Server, q: nat) returns (i: nat)
    requires q < |Ring(s, self)|
    ensures i < |s| && |Ring(s[..i], self)| == q && RingPlace(s, self, i) == q
  {
    if s == [] {
      assert false;
    } else {
      var last := |s| - 1;
      if q < |Ring(s[..last], self)| {
        i := IndexOfPlace(s[..last], self, q);
        assert s[..last][..i] == s[..i];
      } else {
        i := last;
      }
    }
  }

  /** Any numbers of picks can be asked for in series. */
  lemma {:induction false} SeriesExists(s: seq<Record>, self: Server, index: nat, ns: seq<nat>)
    returns (indexes: seq<nat>, results: seq<set<Server>>)
    requires Ring(s, self) != []
    ensures CallSeries(s, self, ns, indexes, results) && indexes[0] == index
  {
    if ns == [] {
      indexes, results := [index], [];
    } else {
      var last, ring := |ns| - 1, Ring(s, self);
      indexes, results := SeriesExists(s, self, index, ns[..last]);
      var p := RingPlace(s, self, indexes[last]);
      RingPlaceInRange(s, self, indexes[last]);
      var next := IndexOfPlace(s, self, Place(|ring|, p, ns[last]));
      indexes, results := indexes + [next], results + [Elements(Picks(ring, p, ns[last]))];
    }
  }

  /**
   Any series of calls that starts at the index, and whose calls ask for at most `k` servers each,
   returns any two servers equally often, give or take one.
   */
  ghost predicate FairSeries(s: seq<Record>, self: Server, index: nat, k: nat) {
    forall ns, indexes, results, x, y ::
      && CallSeries(s, self, ns, indexes, results) && indexes[0] == index && NoneAbove(ns, Min(k, |s|))
      && x in Ring(s, self) && y in Ring(s, self)
      ==> Appearances(results)[x] <= Appearances(results)[y] + 1
  }

  lemma FairSeriesIsFairRing(s: seq<Record>, self: Server, index: nat, k: nat)
    requires Ring(s, self) != [] && RingPlace(s, self, index) < |Ring(s, self)|
    ensures FairSeries(s, self, index, k) <==> FairFrom(Ring(s, self), RingPlace(s, self, index), Min(k, |s|))
  {
    var ring, p, bound := Ring(s, self), RingPlace(s, self, index), Min(k, |s|);
    if FairSeries(s, self, index, k) {
      forall ns, x, y | NoneAbove(ns, bound) && x in ring && y in ring
        ensures Returned(ring, p, ns)[x] <= Returned(ring, p, ns)[y] + 1
      {
        var indexes, results := SeriesExists(s, self, index, ns);
        SeriesIsOneRun(s, self, ns, indexes, results);
      }
    }
    if FairFrom(ring, p, bound) {
      forall ns, indexes, results, x, y |
        && CallSeries(s, self, ns, indexes, results) && indexes[0] == index && NoneAbove(ns, bound)
        && x in ring && y in ring
        ensures Appearances(results)[x] <= Appearances(results)[y] + 1
      {
        SeriesIsOneRun(s, self, ns, indexes, results);
      }
    }
  }

  /**
   Series of calls are fair if and only if the calls ask for no more servers than there are others,
   or the server itself is not in its alive set, or there are not two others.
   */
  lemma SeriesIsFairIff(s: seq<Record>, self: Server, index: nat, k: nat)
    requires Sorted(s)
    ensures FairSeries(s, self, index, k) <==>
      k <= |Ring(s, self)| || self !in Contents(s) || |Ring(s, self)| <= 1
  {
    NamesAreKeys(s);
    RingMembers(s, self);
    var ring := Ring(s, self);
    if ring != [] {
      RingPlaceInRange(s, self, index);
      FairSeriesIsFairRing(s, self, index, k);
      FairIff(ring, RingPlace(s, self, index), Min(k, |s|));
    }
  }
}
