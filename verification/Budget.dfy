/**
 The reporting budget: which records go into a report, and which suspects a
 garbage-collection pass, which works from a report, can see.

 Costs are kept in whole units: a record aged `t` seconds costs `t * t`, and the
 budget of 300 with the decay constant 0.01 becomes 30000.
 */
module Budget {
  import opened SwimTypes

  const TWO_63: int := 0x8000_0000_0000_0000
  const TWO_64: int := 0x1_0000_0000_0000_0000
  const MSEC_PER_SEC: int := 1000
  const BUDGET: int := 30000

  /** The difference of two unsigned 64-bit times, read as a signed number of milliseconds. */
  function ToInt64(x: int): int {
    if x >= TWO_63 then x - TWO_64 else if x < -TWO_63 then x + TWO_64 else x
  }

  /** The age in whole seconds, up to sign: `duration_cast` truncates towards zero. */
  function Age(now: nat, timestamp: nat): nat {
    var dt := ToInt64(now - timestamp);
    (if dt < 0 then -dt else dt) / MSEC_PER_SEC
  }

  /** For times that a signed clock can hold, the age is their distance in whole seconds, past or future. */
  lemma AgeInWholeSeconds(now: nat, timestamp: nat)
    requires now < TWO_63 && timestamp < TWO_63
    ensures var distance := if now < timestamp then timestamp - now else now - timestamp;
      1000 * Age(now, timestamp) <= distance < 1000 * (Age(now, timestamp) + 1)
  {
  }

  function Square(t: nat): nat {
    t * t
  }

  function Cost(rs: seq<Record>, now: nat): nat {
    if rs == [] then 0 else Cost(rs[..|rs| - 1], now) + Square(Age(now, rs[|rs| - 1].timestamp))
  }

  ghost predicate Descending(rs: seq<Record>) {
    forall i, j :: 0 <= i < j < |rs| ==> rs[i].lamport >= rs[j].lamport
  }

  /** `order` is one of the results `std::sort` may leave: ties come in any order. */
  ghost predicate SortedFrom(order: seq<Record>, records: seq<Record>) {
    multiset(order) == multiset(records) && Descending(order)
  }

  /** The first `n` records of `order` fit, and no longer prefix does. */
  ghost predicate Greedy(order: seq<Record>, now: nat, n: nat) {
    && n <= |order|
    && Cost(order[..n], now) <= BUDGET
    && (n < |order| ==> Cost(order[..n + 1], now) > BUDGET)
  }

  /** `chosen` is what the budget lets through of `records`, for some way of breaking ties. */
  ghost predicate Budgeted(records: seq<Record>, now: nat, chosen: seq<Record>) {
    exists order :: SortedFrom(order, records) && chosen <= order && Greedy(order, now, |chosen|)
  }

  // ----- Cost -----

  lemma {:induction false} CostConcat(a: seq<Record>, b: seq<Record>, now: nat)
    ensures Cost(a + b, now) == Cost(a, now) + Cost(b, now)
  {
    if b == [] {
      assert a + b == a;
    } else {
      assert (a + b)[..|a + b| - 1] == a + b[..|b| - 1];
      CostConcat(a, b[..|b| - 1], now);
    }
  }

  lemma CostSplit(rs: seq<Record>, i: nat, now: nat)
    requires i < |rs|
    ensures Cost(rs, now) == Cost(rs[..i] + rs[i + 1..], now) + Square(Age(now, rs[i].timestamp))
  {
    var x := [rs[i]];
    assert rs == rs[..i] + x + rs[i + 1..];
    assert x[..|x| - 1] == [];
    CostConcat(rs[..i] + x, rs[i + 1..], now);
    CostConcat(rs[..i], x, now);
    CostConcat(rs[..i], rs[i + 1..], now);
  }

  /** The cost does not depend on the order. */
  lemma {:induction false} CostPermutation(a: seq<Record>, b: seq<Record>, now: nat)
    requires multiset(a) == multiset(b)
    ensures Cost(a, now) == Cost(b, now)
    decreases |a|
  {
    if a == [] {
      assert |multiset(b)| == 0;
    } else {
      var init, r := a[..|a| - 1], a[|a| - 1];
      assert a == init + [r];
      assert r in multiset(b);
      var i :| 0 <= i < |b| && b[i] == r;
      assert b == b[..i] + [r] + b[i + 1..];
      assert multiset(init) == multiset(a) - multiset{r};
      assert multiset(b[..i] + b[i + 1..]) == multiset(b) - multiset{r};
      CostPermutation(init, b[..i] + b[i + 1..], now);
      CostSplit(b, i, now);
    }
  }

  lemma CostPrefix(rs: seq<Record>, n: nat, now: nat)
    requires n <= |rs|
    ensures Cost(rs[..n], now) <= Cost(rs, now)
  {
    assert rs == rs[..n] + rs[n..];
    CostConcat(rs[..n], rs[n..], now);
  }

  // ----- What a budgeted report contains -----

  lemma PrefixIsMostRecent(order: seq<Record>, n: nat, r: Record, x: Record)
    requires Descending(order) && n <= |order| && r in order[..n] && x in order[n..]
    ensures r.lamport >= x.lamport
  {
  }

  /**
   The records split into those sent and the rest: those sent stay within the budget, and nothing
   in the rest is more recent than anything sent.
   */
  lemma BudgetedIsMostRecent(records: seq<Record>, now: nat, chosen: seq<Record>) returns (rest: seq<Record>)
    requires Budgeted(records, now, chosen)
    ensures multiset(chosen) + multiset(rest) == multiset(records)
    ensures Cost(chosen, now) <= BUDGET
    ensures forall r: Record, x: Record :: r in chosen && x in rest ==> r.lamport >= x.lamport
  {
    var order :| SortedFrom(order, records) && chosen <= order && Greedy(order, now, |chosen|);
    var n := |chosen|;
    rest := order[n..];
    assert order == order[..n] + rest && order[..n] == chosen;
    forall r: Record, x: Record | r in chosen && x in rest ensures r.lamport >= x.lamport {
      PrefixIsMostRecent(order, n, r, x);
    }
  }

  /** Everything is sent if and only if everything fits. */
  lemma AllSentIffAllFit(records: seq<Record>, now: nat, chosen: seq<Record>)
    requires Budgeted(records, now, chosen)
    ensures Cost(records, now) <= BUDGET <==> multiset(chosen) == multiset(records)
  {
    var order :| SortedFrom(order, records) && chosen <= order && Greedy(order, now, |chosen|);
    CostPermutation(order, records, now);
    assert order[..|chosen|] == chosen && order[..|order|] == order;
    if Cost(records, now) <= BUDGET && |chosen| < |order| {
      CostPrefix(order, |chosen| + 1, now);
    }
    if multiset(chosen) == multiset(records) {
      CostPermutation(chosen, records, now);
    }
  }

  lemma SquareGrows(a: nat, b: nat)
    requires a <= b
    ensures Square(a) <= Square(b)
  {
  }

  /** No record of 174 seconds or more is ever sent. */
  lemma NoOldRecordSent(records: seq<Record>, now: nat, chosen: seq<Record>, r: Record)
    requires Budgeted(records, now, chosen) && r in chosen
    ensures Age(now, r.timestamp) <= 173
  {
    var _ := BudgetedIsMostRecent(records, now, chosen);
    var i :| 0 <= i < |chosen| && chosen[i] == r;
    CostSplit(chosen, i, now);
    if Age(now, r.timestamp) >= 174 {
      SquareGrows(174, Age(now, r.timestamp));
    }
  }

  // ----- How many different ages fit -----

  ghost function Ages(rs: seq<Record>, now: nat): set<nat> {
    set r | r in rs :: Age(now, r.timestamp)
  }

  /** The sum of the squares below `n`. */
  ghost function Pyramid(n: nat): nat {
    if n == 0 then 0 else Pyramid(n - 1) + Square(n - 1)
  }

  lemma {:induction false} PyramidClosedForm(n: nat)
    ensures 6 * Pyramid(n + 1) == n * (n + 1) * (2 * n + 1)
  {
    if n == 0 {
    } else {
      PyramidClosedForm(n - 1);
      assert (n - 1) * n * (2 * n - 1) + 6 * (n * n) == n * (n + 1) * (2 * n + 1);
    }
  }

  lemma {:induction false} PyramidGrows(m: nat, n: nat)
    requires m <= n
    ensures Pyramid(m) <= Pyramid(n)
  {
    if m == n {
    } else {
      PyramidGrows(m, n - 1);
    }
  }

  lemma PyramidFits(n: nat)
    ensures Pyramid(n) <= BUDGET <==> n <= 45
  {
    if n <= 45 {
      PyramidGrows(n, 45);
      PyramidClosedForm(44);
    } else {
      PyramidGrows(46, n);
      PyramidClosedForm(45);
    }
  }

  lemma {:induction false} SmallSet(s: set<nat>, bound: nat)
    requires forall t :: t in s ==> t < bound
    ensures |s| <= bound
  {
    if bound == 0 {
      assert forall t :: t !in s;
    } else {
      SmallSet(s - {bound - 1}, bound - 1);
    }
  }

  lemma AppendRecord(rs: seq<Record>, r: Record, now: nat)
    ensures Cost(rs + [r], now) == Cost(rs, now) + Square(Age(now, r.timestamp))
    ensures Ages(rs + [r], now) == Ages(rs, now) + {Age(now, r.timestamp)}
  {
    assert (rs + [r])[..|rs + [r]| - 1] == rs;
  }

  /** `rs` without the records of age `a`. */
  ghost function Without(rs: seq<Record>, now: nat, a: nat): seq<Record> {
    if rs == [] then []
    else
      Without(rs[..|rs| - 1], now, a) +
      if Age(now, rs[|rs| - 1].timestamp) == a then [] else [rs[|rs| - 1]]
  }

  lemma {:induction false} WithoutMembers(rs: seq<Record>, now: nat, a: nat)
    ensures forall r :: r in Without(rs, now, a) <==> r in rs && Age(now, r.timestamp) != a
  {
    if rs == [] {
    } else {
      assert rs == rs[..|rs| - 1] + [rs[|rs| - 1]];
      WithoutMembers(rs[..|rs| - 1], now, a);
    }
  }

  lemma WithoutLast(init: seq<Record>, r: Record, now: nat, a: nat)
    ensures Without(init + [r], now, a) ==
      if Age(now, r.timestamp) == a then Without(init, now, a) else Without(init, now, a) + [r]
  {
    assert (init + [r])[..|init|] == init;
  }

  lemma WithoutStep(init: seq<Record>, r: Record, now: nat, a: nat, age: nat)
    requires age == Age(now, r.timestamp)
    ensures Cost(init + [r], now) == Cost(init, now) + Square(age)
    ensures Ages(init + [r], now) == Ages(init, now) + {age}
    ensures Cost(Without(init + [r], now, a), now) == Cost(Without(init, now, a), now) + if age == a then 0 else Square(age)
  {
    AppendRecord(init, r, now);
    WithoutLast(init, r, now, a);
    AppendRecord(Without(init, now, a), r, now);
  }

  lemma {:induction false} WithoutCost(rs: seq<Record>, now: nat, a: nat)
    ensures Cost(rs, now) >= Cost(Without(rs, now, a), now) + if a in Ages(rs, now) then Square(a) else 0
  {
    if rs == [] {
    } else {
      var init, r := rs[..|rs| - 1], rs[|rs| - 1];
      assert rs == init + [r];
      WithoutCost(init, now, a);
      WithoutStep(init, r, now, a, Age(now, r.timestamp));
    }
  }

  lemma WithoutAge(rs: seq<Record>, now: nat, a: nat)
    ensures Ages(Without(rs, now, a), now) == Ages(rs, now) - {a}
    ensures Cost(rs, now) >= Cost(Without(rs, now, a), now) + if a in Ages(rs, now) then Square(a) else 0
  {
    WithoutMembers(rs, now, a);
    WithoutCost(rs, now, a);
  }

  lemma LargeMember(s: set<nat>) returns (a: nat)
    requires s != {}
    ensures a in s && a >= |s| - 1
  {
    if forall t :: t in s ==> t < |s| - 1 {
      SmallSet(s, |s| - 1);
    }
    a :| a in s && a >= |s| - 1;
  }

  /** Different ages cost at least as much as the smallest different ages do. */
  lemma {:induction false} DistinctAgesCost(rs: seq<Record>, now: nat)
    ensures Cost(rs, now) >= Pyramid(|Ages(rs, now)|)
    decreases |Ages(rs, now)|
  {
    var ages := Ages(rs, now);
    if ages == {} {
    } else {
      var a := LargeMember(ages);
      WithoutAge(rs, now, a);
      assert |ages - {a}| == |ages| - 1;
      DistinctAgesCost(Without(rs, now, a), now);
      SquareGrows(|ages| - 1, a);
    }
  }

  /** However ties are broken, the records of one list have at most 45 different ages. */
  lemma AtMost45Ages(records: seq<Record>, now: nat, chosen: seq<Record>)
    requires Budgeted(records, now, chosen)
    ensures |Ages(chosen, now)| <= 45
  {
    var _ := BudgetedIsMostRecent(records, now, chosen);
    DistinctAgesCost(chosen, now);
    PyramidFits(|Ages(chosen, now)|);
  }

  /** One record of each age below `n`, each of another server. */
  ghost function Ladder(host: string, now: nat, n: nat): seq<Record>
    requires now >= 1000 * n
  {
    if n == 0 then [] else Ladder(host, now, n - 1) + [Record(Server(host, n), 0, now - 1000 * (n - 1), 0)]
  }

  lemma LadderStep(host: string, now: nat, n: nat)
    requires 0 < n && 1000 * n <= now < TWO_63
    ensures Cost(Ladder(host, now, n), now) == Cost(Ladder(host, now, n - 1), now) + Square(n - 1)
    ensures Ages(Ladder(host, now, n), now) == Ages(Ladder(host, now, n - 1), now) + {n - 1}
  {
    var r := Record(Server(host, n), 0, now - 1000 * (n - 1), 0);
    AppendRecord(Ladder(host, now, n - 1), r, now);
    assert Age(now, r.timestamp) == n - 1 by { AgeInWholeSeconds(now, r.timestamp); }
  }

  lemma {:induction false} LadderCost(host: string, now: nat, n: nat)
    requires 1000 * n <= now < TWO_63
    ensures Cost(Ladder(host, now, n), now) == Pyramid(n)
  {
    if n == 0 {
    } else {
      LadderStep(host, now, n);
      LadderCost(host, now, n - 1);
    }
  }

  lemma OneLarger(s: set<nat>, n: nat)
    requires |s| == n && forall t :: t in s ==> t < n
    ensures |s + {n}| == n + 1 && forall t :: t in s + {n} ==> t < n + 1
  {
  }

  lemma {:induction false} LadderAges(host: string, now: nat, n: nat)
    requires 1000 * n <= now < TWO_63
    ensures |Ages(Ladder(host, now, n), now)| == n && forall t :: t in Ages(Ladder(host, now, n), now) ==> t < n
  {
    if n == 0 {
    } else {
      LadderAges(host, now, n - 1);
      LadderStep(host, now, n);
      OneLarger(Ages(Ladder(host, now, n - 1), now), n - 1);
    }
  }

  /** A list of `n` different servers, one of each age below `n`, is sent whole if and only if `n` is at most 45. */
  lemma LadderFitsIff(host: string, now: nat, n: nat)
    requires 1000 * n <= now < TWO_63
    ensures Budgeted(Ladder(host, now, n), now, Ladder(host, now, n)) <==> n <= 45
  {
    var rs := Ladder(host, now, n);
    LadderCost(host, now, n);
    PyramidFits(n);
    if n <= 45 {
      LadderStamps(host, now, n);
      assert SortedFrom(rs, rs) && rs <= rs && rs[..|rs|] == rs && Greedy(rs, now, |rs|);
    } else if Budgeted(rs, now, rs) {
      var _ := BudgetedIsMostRecent(rs, now, rs);
    }
  }

  lemma {:induction false} LadderStamps(host: string, now: nat, n: nat)
    requires now >= 1000 * n
    ensures |Ladder(host, now, n)| == n
    ensures forall i :: 0 <= i < n ==> Ladder(host, now, n)[i].lamport == 0
  {
    if n == 0 {
    } else {
      LadderStamps(host, now, n - 1);
    }
  }
}
