/**
 Prepared reports and what is done with them: the first report a newcomer hears,
 and the garbage collection of suspects, which reads them off a report.
 */
module Reporting {
  import opened SwimTypes
  import opened Membership
  import opened ReportLaws
  import opened Budget
  import Listener

  /** `records` is the content of `m`, each record once, in some order. */
  ghost predicate Lists(records: seq<Record>, m: map<Server, Record>) {
    DistinctNames(records) && forall r :: r in records <==> r.server in m && m[r.server] == r
  }

  /** `chosen` is what the budget lets through of the records in `m`. */
  ghost predicate Selection(m: map<Server, Record>, now: nat, chosen: seq<Record>) {
    exists records :: Lists(records, m) && Budgeted(records, now, chosen)
  }

  /** `PrepareReport`, with the clock read once for each list. */
  ghost predicate Prepared(n: Node, report: Report, nowAlive: nat, nowSuspected: nat) {
    && report.sender == n.self
    && Selection(n.alive, nowAlive, report.alive)
    && Selection(n.suspected, nowSuspected, report.suspected)
  }

  /** All the records of `m` together stay within the budget. */
  ghost predicate Fits(m: map<Server, Record>, now: nat) {
    exists records :: Lists(records, m) && Cost(records, now) <= BUDGET
  }

  ghost function Names(rs: seq<Record>): set<Server> {
    set r | r in rs :: r.server
  }

  // ----- Lists and their permutations -----

  lemma {:induction false} NoRepeats(rs: seq<Record>, r: Record)
    requires DistinctNames(rs)
    ensures multiset(rs)[r] == if r in rs then 1 else 0
  {
    if rs == [] {
    } else {
      var init, x := rs[..|rs| - 1], rs[|rs| - 1];
      assert rs == init + [x];
      NoRepeats(init, r);
      assert multiset(rs)[r] == multiset(init)[r] + multiset([x])[r];
    }
  }

  lemma SameList(a: seq<Record>, b: seq<Record>, m: map<Server, Record>)
    requires Lists(a, m) && Lists(b, m)
    ensures multiset(a) == multiset(b)
  {
    forall r ensures multiset(a)[r] == multiset(b)[r] {
      NoRepeats(a, r);
      NoRepeats(b, r);
    }
  }

  lemma OneRecordPerName(rs: seq<Record>, r: Record, x: Record)
    requires DistinctNames(rs) && r in rs && x in rs && r.server == x.server
    ensures r == x
  {
  }

  lemma PermutedList(order: seq<Record>, records: seq<Record>)
    requires DistinctNames(records) && multiset(order) == multiset(records)
    ensures DistinctNames(order) && forall r :: r in order <==> r in records
  {
    assert forall r :: r in order <==> r in multiset(order);
    assert forall r :: r in records <==> r in multiset(records);
    forall i, j | 0 <= i < j < |order| ensures order[i].server != order[j].server {
      var r := order[j];
      NoRepeats(records, r);
      assert order == order[..j] + [r] + order[j + 1..];
      assert multiset(order)[r] == multiset(order[..j])[r] + 1 + multiset(order[j + 1..])[r];
      assert order[i] in order[..j];
      assert order[i] != r && order[i] in records && r in records;
      if order[i].server == r.server {
        OneRecordPerName(records, order[i], r);
      }
    }
  }

  /** What is selected comes from the set, and names each server once. */
  lemma SelectionIsFromSet(m: map<Server, Record>, now: nat, chosen: seq<Record>)
    requires Selection(m, now, chosen)
    ensures DistinctNames(chosen)
    ensures forall r :: r in chosen ==> r.server in m && m[r.server] == r
  {
    var records :| Lists(records, m) && Budgeted(records, now, chosen);
    var order :| SortedFrom(order, records) && chosen <= order && Greedy(order, now, |chosen|);
    PermutedList(order, records);
  }

  lemma FittingSetIsSent(m: map<Server, Record>, now: nat, chosen: seq<Record>, k: Server)
    requires Selection(m, now, chosen) && Fits(m, now) && k in m && m[k].server == k
    ensures m[k] in chosen
  {
    var records :| Lists(records, m) && Budgeted(records, now, chosen);
    var rs :| Lists(rs, m) && Cost(rs, now) <= BUDGET;
    SameList(rs, records, m);
    CostPermutation(rs, records, now);
    AllSentIffAllFit(records, now, chosen);
    assert m[k] in records && m[k] in multiset(chosen);
  }

  lemma SentSetFits(m: map<Server, Record>, now: nat, chosen: seq<Record>)
    requires Selection(m, now, chosen) && forall k :: k in m ==> m[k] in chosen
    ensures Fits(m, now)
  {
    SelectionIsFromSet(m, now, chosen);
    var records :| Lists(records, m) && Budgeted(records, now, chosen);
    var rest := BudgetedIsMostRecent(records, now, chosen);
    assert Lists(chosen, m);
  }

  /** The whole set is reported if and only if it fits. */
  lemma WholeSetIffFits(m: map<Server, Record>, now: nat, chosen: seq<Record>)
    requires Selection(m, now, chosen) && forall k :: k in m ==> m[k].server == k
    ensures Fits(m, now) <==> (forall k :: k in m ==> m[k] in chosen)
  {
    if Fits(m, now) {
      forall k | k in m ensures m[k] in chosen {
        FittingSetIsSent(m, now, chosen, k);
      }
    } else if forall k :: k in m ==> m[k] in chosen {
      SentSetFits(m, now, chosen);
    }
  }

  // ----- Bootstrap -----

  ghost predicate NewsFrom(a: Node, e: Envelope, nowAlive: nat, nowSuspected: nat) {
    && e.payload.StatusReport? && Prepared(a, e.payload.report, nowAlive, nowSuspected)
    && e.sender == a.self && a.clock < e.lamport
  }

  lemma PreparedIsWellFormed(a: Node, e: Envelope, nowAlive: nat, nowSuspected: nat)
    requires Inv(a) && NewsFrom(a, e, nowAlive, nowSuspected)
    ensures WellFormed(e)
  {
    SelectionIsFromSet(a.alive, nowAlive, e.payload.report.alive);
    SelectionIsFromSet(a.suspected, nowSuspected, e.payload.report.suspected);
  }

  /** `b` knows nobody, and hears `e` from `a` first of all. */
  ghost predicate FirstNews(a: Node, b: Node, e: Envelope, nowAlive: nat, nowSuspected: nat) {
    && Inv(a) && a.self.port != 0 && NewsFrom(a, e, nowAlive, nowSuspected)
    && b.alive == map[] && b.suspected == map[] && b.self != a.self
  }

  lemma FirstNewsIsBelieved(a: Node, b: Node, e: Envelope, nowAlive: nat, nowSuspected: nat, k: Server)
    requires FirstNews(a, b, e, nowAlive, nowSuspected)
    ensures var t, report := UpdateLamportTime(b, e.lamport), e.payload.report;
      && (Heard(t, a.self, report, k) <==> k in Names(report.alive) + {a.self} - {b.self})
      && (Blamed(t, a.self, report, k) <==> k in Names(report.suspected) - {b.self})
  {
    var report := e.payload.report;
    PreparedIsWellFormed(a, e, nowAlive, nowSuspected);
    SelectionIsFromSet(a.alive, nowAlive, report.alive);
    SelectionIsFromSet(a.suspected, nowSuspected, report.suspected);
  }

  /** A newcomer takes over what it is told, apart from news about itself. */
  lemma BootstrapAt(a: Node, b: Node, e: Envelope, nowAlive: nat, nowSuspected: nat, now: nat, k: Server)
    requires FirstNews(a, b, e, nowAlive, nowSuspected)
    ensures k in Deliver(b, e, now).alive <==> k in Names(e.payload.report.alive) + {a.self} - {b.self}
    ensures k in Deliver(b, e, now).suspected <==> k in Names(e.payload.report.suspected) - {b.self}
  {
    FirstNewsIsBelieved(a, b, e, nowAlive, nowSuspected, k);
    OnReportClosedForm(UpdateLamportTime(b, e.lamport), e.sender, e.payload.report, now, k);
    DisjointNames(a, e, nowAlive, nowSuspected);
  }

  lemma DisjointNames(a: Node, e: Envelope, nowAlive: nat, nowSuspected: nat)
    requires Inv(a) && NewsFrom(a, e, nowAlive, nowSuspected)
    ensures Names(e.payload.report.alive) !! Names(e.payload.report.suspected)
    ensures a.self !in Names(e.payload.report.suspected)
  {
    SelectionIsFromSet(a.alive, nowAlive, e.payload.report.alive);
    SelectionIsFromSet(a.suspected, nowSuspected, e.payload.report.suspected);
  }

  lemma BootstrapAlive(a: Node, b: Node, e: Envelope, nowAlive: nat, nowSuspected: nat, now: nat)
    requires FirstNews(a, b, e, nowAlive, nowSuspected)
    ensures Deliver(b, e, now).alive.Keys == Names(e.payload.report.alive) + {a.self} - {b.self}
  {
    forall k ensures k in Deliver(b, e, now).alive <==> k in Names(e.payload.report.alive) + {a.self} - {b.self} {
      BootstrapAt(a, b, e, nowAlive, nowSuspected, now, k);
    }
  }

  lemma BootstrapSuspected(a: Node, b: Node, e: Envelope, nowAlive: nat, nowSuspected: nat, now: nat)
    requires FirstNews(a, b, e, nowAlive, nowSuspected)
    ensures Deliver(b, e, now).suspected.Keys == Names(e.payload.report.suspected) - {b.self}
  {
    forall k ensures k in Deliver(b, e, now).suspected <==> k in Names(e.payload.report.suspected) - {b.self} {
      BootstrapAt(a, b, e, nowAlive, nowSuspected, now, k);
    }
  }

  /**
   When everything `a` knows fits the budget, a newcomer ends up with `a`'s membership, with `a`
   itself alive and without itself.
   */
  lemma Bootstrap(a: Node, b: Node, e: Envelope, nowAlive: nat, nowSuspected: nat, now: nat)
    requires FirstNews(a, b, e, nowAlive, nowSuspected)
    requires Fits(a.alive, nowAlive) && Fits(a.suspected, nowSuspected)
    ensures Deliver(b, e, now).alive.Keys == a.alive.Keys + {a.self} - {b.self}
    ensures Deliver(b, e, now).suspected.Keys == a.suspected.Keys - {b.self}
  {
    BootstrapAlive(a, b, e, nowAlive, nowSuspected, now);
    BootstrapSuspected(a, b, e, nowAlive, nowSuspected, now);
    FittingNames(a.alive, nowAlive, e.payload.report.alive);
    FittingNames(a.suspected, nowSuspected, e.payload.report.suspected);
  }

  lemma FittingNames(m: map<Server, Record>, now: nat, chosen: seq<Record>)
    requires Selection(m, now, chosen) && Fits(m, now) && forall k :: k in m ==> m[k].server == k
    ensures Names(chosen) == m.Keys
  {
    WholeSetIffFits(m, now, chosen);
    NamesOfSelection(m, now, chosen);
  }

  lemma NamesOfSelection(m: map<Server, Record>, now: nat, chosen: seq<Record>)
    requires Selection(m, now, chosen) && forall k :: k in m ==> m[k] in chosen
    requires forall k :: k in m ==> m[k].server == k
    ensures Names(chosen) == m.Keys
  {
    SelectionIsFromSet(m, now, chosen);
    forall k | k in m ensures k in Names(chosen) {
      assert m[k] in chosen;
    }
  }

  // ----- Eviction -----

  /** The unsigned time before which a suspect counts as expired. */
  function Cutoff(now: nat, grace: int): int {
    if now < grace then now - grace + TWO_64 else now - grace
  }

  function EvictExpired(n: Node, rs: seq<Record>, cutoff: int): Node {
    if rs == [] then n
    else
      var n' := EvictExpired(n, rs[..|rs| - 1], cutoff);
      var r := rs[|rs| - 1];
      if r.timestamp < cutoff then RemoveSuspected(n', r.server, true) else n'
  }

  /** A pass removes exactly the reported suspects older than the cutoff. */
  lemma {:induction false} EvictExpiredAt(n: Node, rs: seq<Record>, cutoff: int, k: Server)
    ensures var n' := EvictExpired(n, rs, cutoff);
      && n'.alive == n.alive && SameFrame(n, n')
      && (k in n'.suspected <==> k in n.suspected && !exists r :: r in rs && r.server == k && r.timestamp < cutoff)
      && (k in n'.suspected ==> n'.suspected[k] == n.suspected[k])
  {
    if rs == [] {
    } else {
      assert rs == rs[..|rs| - 1] + [rs[|rs| - 1]];
      EvictExpiredAt(n, rs[..|rs| - 1], cutoff, k);
    }
  }

  /** A pass keeps the invariant and tells the listener of every removal. */
  lemma {:induction false} EvictExpiredIsSound(n: Node, rs: seq<Record>, cutoff: int)
    requires Inv(n) && Listener.Mirrored(n)
    ensures Inv(EvictExpired(n, rs, cutoff)) && Listener.Mirrored(EvictExpired(n, rs, cutoff))
  {
    if rs == [] {
    } else {
      var n', r := EvictExpired(n, rs[..|rs| - 1], cutoff), rs[|rs| - 1];
      EvictExpiredIsSound(n, rs[..|rs| - 1], cutoff);
      RemoveSuspectedKeepsInv(n', r.server, true);
      Listener.EvictMirrored(n', r.server);
    }
  }

  ghost predicate Evicted(n: Node, chosen: seq<Record>, now: nat, grace: int, k: Server) {
    k in n.suspected && k !in EvictExpired(n, chosen, Cutoff(now, grace)).suspected
  }

  lemma EvictedIff(n: Node, at: nat, chosen: seq<Record>, now: nat, grace: int, k: Server)
    requires Inv(n) && Selection(n.suspected, at, chosen)
    ensures Evicted(n, chosen, now, grace, k) <==>
      k in n.suspected && n.suspected[k] in chosen && n.suspected[k].timestamp < Cutoff(now, grace)
  {
    SelectionIsFromSet(n.suspected, at, chosen);
    EvictExpiredAt(n, chosen, Cutoff(now, grace), k);
  }

  /**
   A reported suspect is evicted exactly when its grace period is over, if and only if the grace
   period does not reach back before the epoch.  If it does, the unsigned cutoff wraps around and
   every reported suspect is evicted.
   */
  lemma EvictionFollowsGraceIff(n: Node, at: nat, chosen: seq<Record>, now: nat, grace: int, k: Server)
    requires Inv(n) && Selection(n.suspected, at, chosen)
    requires now < TWO_63 && -TWO_63 <= grace < TWO_63
    requires k in n.suspected && n.suspected[k] in chosen && n.suspected[k].timestamp < TWO_63
    ensures (Evicted(n, chosen, now, grace, k) <==> n.suspected[k].timestamp < now - grace) <==> grace <= now
    ensures now < grace ==> Evicted(n, chosen, now, grace, k)
  {
    EvictedIff(n, at, chosen, now, grace, k);
  }

  /** Nothing within its grace period is evicted. */
  lemma GraceIsRespected(n: Node, at: nat, chosen: seq<Record>, now: nat, grace: int, k: Server)
    requires Inv(n) && Selection(n.suspected, at, chosen)
    requires grace <= now && Evicted(n, chosen, now, grace, k)
    ensures n.suspected[k].timestamp < now - grace
  {
    EvictedIff(n, at, chosen, now, grace, k);
  }

  /** When all suspects fit the budget, every expired one is evicted. */
  lemma ExpiredAreEvicted(n: Node, at: nat, chosen: seq<Record>, now: nat, grace: int, k: Server)
    requires Inv(n) && Selection(n.suspected, at, chosen) && Fits(n.suspected, at)
    requires k in n.suspected && n.suspected[k].timestamp < now - grace
    ensures Evicted(n, chosen, now, grace, k)
  {
    FittingSetIsSent(n.suspected, at, chosen, k);
    EvictedIff(n, at, chosen, now, grace, k);
  }

  /**
   A grace period of 173999 ms or more evicts nobody: a suspect that old no longer fits any report.
   `at` is when the report was prepared and `now` when the cutoff was taken.
   */
  lemma LongGraceEvictsNobody(n: Node, at: nat, chosen: seq<Record>, now: nat, grace: int, k: Server)
    requires Inv(n) && Selection(n.suspected, at, chosen)
    requires at <= now < TWO_63 && 173999 + (now - at) <= grace <= now
    ensures !Evicted(n, chosen, now, grace, k)
  {
    if Evicted(n, chosen, now, grace, k) {
      EvictedIff(n, at, chosen, now, grace, k);
      var records :| Lists(records, n.suspected) && Budgeted(records, at, chosen);
      NoOldRecordSent(records, at, chosen, n.suspected[k]);
      AgeInWholeSeconds(at, n.suspected[k].timestamp);
    }
  }

  lemma OneSuspectIsReported(self: Server, k: Server, at: nat, time: nat)
    requires k != self && k.port != 0 && time <= at < TWO_63 && at - time <= 173999
    ensures var n := ReportSuspected(NewNode(self), k, time);
      Inv(n) && n.suspected == map[k := Record(k, 0, time, 0)] && Selection(n.suspected, at, [Record(k, 0, time, 0)])
  {
    var r, n := Record(k, 0, time, 0), ReportSuspected(NewNode(self), k, time);
    AgeInWholeSeconds(at, time);
    SquareGrows(Age(at, time), 173);
    assert [r][..1] == [r] && [r][..0] == [];
    assert Cost([r], at) == Square(Age(at, time));
    assert Lists([r], n.suspected);
    assert SortedFrom([r], [r]) && [r] <= [r] && Greedy([r], at, |[r]|);
    assert Budgeted([r], at, [r]);
  }

  /** Any shorter grace period evicts a suspect that was just young enough to be reported. */
  lemma ShorterGraceEvicts(self: Server, k: Server, at: nat, now: nat, grace: int)
    requires k != self && k.port != 0 && 173999 <= at <= now < TWO_63 && grace < 173999 + (now - at)
    ensures var n := ReportSuspected(NewNode(self), k, at - 173999);
      && Inv(n) && k in n.suspected
      && Selection(n.suspected, at, [n.suspected[k]]) && Evicted(n, [n.suspected[k]], now, grace, k)
  {
    OneSuspectIsReported(self, k, at, at - 173999);
    var n := ReportSuspected(NewNode(self), k, at - 173999);
    EvictedIff(n, at, [n.suspected[k]], now, grace, k);
  }

  /** A grace period that reaches back before the epoch evicts a suspect that was reported the moment it became one. */
  lemma EndlessGraceEvicts(self: Server, k: Server, at: nat, now: nat, grace: int)
    requires k != self && k.port != 0 && at <= now < TWO_63 && now < grace < TWO_63
    ensures var n := ReportSuspected(NewNode(self), k, at);
      && Inv(n) && k in n.suspected
      && Selection(n.suspected, at, [n.suspected[k]]) && Evicted(n, [n.suspected[k]], now, grace, k)
  {
    OneSuspectIsReported(self, k, at, at);
    var n := ReportSuspected(NewNode(self), k, at);
    EvictedIff(n, at, [n.suspected[k]], now, grace, k);
  }

  /** No suspect of any server is evicted by a pass that prepares its report at `at` and takes its cutoff at `now`. */
  ghost predicate EvictsNobody(at: nat, now: nat, grace: int) {
    forall n, chosen, k :: Inv(n) && Selection(n.suspected, at, chosen) ==> !Evicted(n, chosen, now, grace, k)
  }

  /** The grace periods that evict nobody, exactly. */
  lemma EvictsNobodyIff(at: nat, now: nat, grace: int)
    requires 173999 <= at <= now < TWO_63 && -TWO_63 <= grace < TWO_63
    ensures EvictsNobody(at, now, grace) <==> 173999 + (now - at) <= grace <= now
  {
    var self, k := Server("", 1), Server("", 2);
    if grace < 173999 + (now - at) {
      ShorterGraceEvicts(self, k, at, now, grace);
    } else if now < grace {
      EndlessGraceEvicts(self, k, at, now, grace);
    } else {
      forall n, chosen, k | Inv(n) && Selection(n.suspected, at, chosen) ensures !Evicted(n, chosen, now, grace, k) {
        LongGraceEvictsNobody(n, at, chosen, now, grace, k);
      }
    }
  }

  // ----- A report with as many ages as fit -----

  /** A server that has seen one other server of each age below `n`. */
  function LadderNode(self: Server, host: string, now: nat, n: nat): Node
    requires now >= 1000 * n
  {
    if n == 0 then NewNode(self)
    else AddAlive(LadderNode(self, host, now, n - 1), Server(host, n), now - 1000 * (n - 1))
  }

  lemma OneMoreListed(rs: seq<Record>, r: Record, m: map<Server, Record>)
    requires Lists(rs, m) && r.server !in m
    ensures Lists(rs + [r], m[r.server := r])
  {
    forall x ensures x in rs + [r] <==> x.server in m[r.server := r] && m[r.server := r][x.server] == x {
    }
  }

  /** The alive set of `node` is listed by `rs`, with ports up to `n`. */
  ghost predicate Rungs(node: Node, rs: seq<Record>, n: nat) {
    Inv(node) && node.clock == 0 && Lists(rs, node.alive) && forall k :: k in node.alive ==> k.port <= n
  }

  lemma NextRung(node: Node, rs: seq<Record>, host: string, n: nat, time: nat)
    requires n > 0 && Rungs(node, rs, n - 1)
    ensures Rungs(AddAlive(node, Server(host, n), time), rs + [Record(Server(host, n), 0, time, 0)], n)
  {
    var k, r := Server(host, n), Record(Server(host, n), 0, time, 0);
    AddAliveKeepsInv(node, k, time);
    assert k !in node.alive;
    OneMoreListed(rs, r, node.alive);
    assert AddAlive(node, k, time).alive == node.alive[k := r];
  }

  lemma {:induction false} LadderIsAliveSet(self: Server, host: string, now: nat, n: nat)
    requires now >= 1000 * n
    ensures Rungs(LadderNode(self, host, now, n), Ladder(host, now, n), n)
  {
    if n == 0 {
    } else {
      LadderIsAliveSet(self, host, now, n - 1);
      NextRung(LadderNode(self, host, now, n - 1), Ladder(host, now, n - 1), host, n, now - 1000 * (n - 1));
    }
  }

  /**
   The bound of 45 different ages is reached: a server that has seen one other server of each age
   below `n` can report them all if and only if `n` is at most 45.
   */
  lemma AgesFitIff(self: Server, host: string, now: nat, n: nat)
    requires 1000 * n <= now < TWO_63
    ensures var node, rs := LadderNode(self, host, now, n), Ladder(host, now, n);
      Inv(node) && |Ages(rs, now)| == n && Lists(rs, node.alive) && (Selection(node.alive, now, rs) <==> n <= 45)
  {
    var node, rs := LadderNode(self, host, now, n), Ladder(host, now, n);
    LadderIsAliveSet(self, host, now, n);
    LadderAges(host, now, n);
    LadderFitsIff(host, now, n);
    if Selection(node.alive, now, rs) {
      var records :| Lists(records, node.alive) && Budgeted(records, now, rs);
      AtMost45Ages(records, now, rs);
    }
  }
}
