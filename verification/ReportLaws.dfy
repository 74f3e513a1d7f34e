/**
 What `OnReport` computes, said without its loops, and the laws that follow:
 order independence, the priority of good news, and idempotence.
 */
module ReportLaws {
  import opened SwimTypes
  import opened Membership

  // ----- The entries of a report about one server -----

  /** The entries of `rs` about `k`, in order. */
  ghost function About(rs: seq<Record>, k: Server): seq<Record> {
    if rs == [] then []
    else About(rs[..|rs| - 1], k) + if rs[|rs| - 1].server == k then [rs[|rs| - 1]] else []
  }

  /** The entries a report may apply to `k`: none to the server itself or to a port-0 server. */
  ghost function Entries(n: Node, rs: seq<Record>, k: Server): seq<Record> {
    if k == n.self || k.port == 0 then [] else About(rs, k)
  }

  predicate IsOlder(r: Record, known: Option<Record>) {
    known.Some? && r.lamport < known.value.lamport
  }

  /** The entries from the first one on that is not older than `known`. */
  ghost function NotOlder(rs: seq<Record>, known: Option<Record>): seq<Record> {
    if rs == [] then []
    else
      var before, r := NotOlder(rs[..|rs| - 1], known), rs[|rs| - 1];
      if before != [] || !IsOlder(r, known) then before + [r] else []
  }

  /** The highest incarnation among the entries, and at least `low`. */
  ghost function Highest(low: nat, rs: seq<Record>): (h: nat)
    ensures low <= h
  {
    if rs == [] then low else Max(Highest(low, rs[..|rs| - 1]), rs[|rs| - 1].incarnation)
  }

  /** What is known of `k` as alive once `vouchers` were accepted: the last of them sets the time. */
  ghost function VouchedRecord(n: Node, k: Server, vouchers: seq<Record>): Option<Record> {
    if vouchers == [] then Lookup(n.alive, k)
    else
      var low := if k in n.alive then n.alive[k].incarnation else 0;
      Some(Record(k, Highest(low, vouchers), vouchers[|vouchers| - 1].timestamp, n.clock))
  }

  /** What is known of `k` as suspected once `accusers` were accepted: the first of them sets the time. */
  ghost function AccusedRecord(n: Node, k: Server, accusers: seq<Record>): Option<Record> {
    if accusers == [] then Lookup(n.suspected, k)
    else if k in n.suspected then
      Some(n.suspected[k].(incarnation := Highest(n.suspected[k].incarnation, accusers)))
    else
      Some(Record(k, Highest(0, accusers), accusers[0].timestamp, n.clock))
  }

  /** What one more voucher makes of the alive record. */
  ghost function Vouch(known: Option<Record>, r: Record, clock: nat): Option<Record> {
    Some(Record(r.server, Max(if known.Some? then known.value.incarnation else 0, r.incarnation), r.timestamp, clock))
  }

  /** What one more accuser makes of the suspected record. */
  ghost function Accuse(known: Option<Record>, r: Record, clock: nat): Option<Record> {
    if known.None? then Some(Record(r.server, r.incarnation, r.timestamp, clock))
    else Some(known.value.(incarnation := Max(known.value.incarnation, r.incarnation)))
  }

  lemma HighestAppended(low: nat, rs: seq<Record>, r: Record)
    ensures Highest(low, rs + [r]) == Max(Highest(low, rs), r.incarnation)
  {
    assert (rs + [r])[..|rs|] == rs;
  }

  lemma OneMoreEntry(n: Node, rs: seq<Record>, r: Record)
    ensures VouchedRecord(n, r.server, rs + [r]) == Vouch(VouchedRecord(n, r.server, rs), r, n.clock)
    ensures AccusedRecord(n, r.server, rs + [r]) == Accuse(AccusedRecord(n, r.server, rs), r, n.clock)
  {
    HighestAppended(0, rs, r);
    HighestAppended(if r.server in n.alive then n.alive[r.server].incarnation else 0, rs, r);
    HighestAppended(if r.server in n.suspected then n.suspected[r.server].incarnation else 0, rs, r);
  }

  lemma VouchedEntry(n: Node, r: Record)
    requires Inv(n) && r.server != n.self && r.server.port != 0 && !StaleAlive(n, r)
    ensures Lookup(AliveEntry(n, r).alive, r.server) == Vouch(Lookup(n.alive, r.server), r, n.clock)
    ensures Lookup(AliveEntry(n, r).suspected, r.server) == None
  {
  }

  lemma AccusedEntry(n: Node, r: Record)
    requires Inv(n) && r.server != n.self && r.server.port != 0 && !StaleSuspect(n, r)
    ensures Lookup(SuspectEntry(n, r).suspected, r.server) == Accuse(Lookup(n.suspected, r.server), r, n.clock)
    ensures Lookup(SuspectEntry(n, r).alive, r.server) == None
  {
  }

  lemma {:induction false} AboutNames(rs: seq<Record>, k: Server)
    ensures forall r :: r in About(rs, k) <==> r in rs && r.server == k
  {
    if rs == [] {
    } else {
      assert rs == rs[..|rs| - 1] + [rs[|rs| - 1]];
      AboutNames(rs[..|rs| - 1], k);
    }
  }

  lemma {:induction false} AllOlder(rs: seq<Record>, known: Option<Record>)
    ensures NotOlder(rs, known) == [] <==> forall r :: r in rs ==> IsOlder(r, known)
  {
    if rs == [] {
    } else {
      var init, r := rs[..|rs| - 1], rs[|rs| - 1];
      assert rs == init + [r];
      AllOlder(init, known);
      assert r in rs;
    }
  }

  // ----- The two loops, one server at a time -----

  ghost predicate AcceptsAlive(n: Node, rs: seq<Record>, k: Server) {
    k != n.self && k.port != 0 && exists r :: r in rs && r.server == k && !StaleAlive(n, r)
  }

  ghost predicate AcceptsSuspect(n: Node, rs: seq<Record>, k: Server) {
    k != n.self && k.port != 0 && exists r :: r in rs && r.server == k && !StaleSuspect(n, r)
  }

  /** Some entry about `k` is fresh if and only if some entries about it count. */
  lemma SomeCount(n: Node, rs: seq<Record>, k: Server)
    ensures AcceptsAlive(n, rs, k) <==> NotOlder(Entries(n, rs, k), Lookup(n.suspected, k)) != []
    ensures AcceptsSuspect(n, rs, k) <==> NotOlder(Entries(n, rs, k), Lookup(n.alive, k)) != []
  {
    AboutNames(rs, k);
    AllOlder(Entries(n, rs, k), Lookup(n.suspected, k));
    AllOlder(Entries(n, rs, k), Lookup(n.alive, k));
  }

  /** An entry about one server changes nothing for another. */
  lemma EntryElsewhere(n: Node, r: Record, k: Server)
    requires Inv(n) && (r.server != k || k == n.self || k.port == 0)
    ensures SameAt(n, AliveEntry(n, r), k) && SameAt(n, SuspectEntry(n, r), k)
  {
  }

  /**
   The first loop leaves for `k` what the entries that count say: with none of them nothing changes,
   with some `k` is alive with the record they vouch for.
   */
  lemma {:induction false} AliveLoopAt(n: Node, rs: seq<Record>, k: Server)
    requires Inv(n)
    ensures Inv(AliveLoop(n, rs)) && SameFrame(n, AliveLoop(n, rs))
    ensures var n', vouchers := AliveLoop(n, rs), NotOlder(Entries(n, rs, k), Lookup(n.suspected, k));
      && (vouchers != [] <==> AcceptsAlive(n, rs, k))
      && Lookup(n'.alive, k) == VouchedRecord(n, k, vouchers)
      && Lookup(n'.suspected, k) == if vouchers == [] then Lookup(n.suspected, k) else None
  {
    SomeCount(n, rs, k);
    if rs == [] {
    } else {
      var init, r := rs[..|rs| - 1], rs[|rs| - 1];
      var n1 := AliveLoop(n, init);
      AliveLoopAt(n, init, k);
      AliveEntryKeepsInv(n1, r);
      AliveEntryAt(n, init, n1, r, k);
    }
  }

  lemma AliveEntryAt(n: Node, init: seq<Record>, n1: Node, r: Record, k: Server)
    requires Inv(n1) && SameFrame(n, n1)
    requires var vouchers := NotOlder(Entries(n, init, k), Lookup(n.suspected, k));
      && Lookup(n1.alive, k) == VouchedRecord(n, k, vouchers)
      && Lookup(n1.suspected, k) == if vouchers == [] then Lookup(n.suspected, k) else None
    ensures var n', vouchers := AliveEntry(n1, r), NotOlder(Entries(n, init + [r], k), Lookup(n.suspected, k));
      && Lookup(n'.alive, k) == VouchedRecord(n, k, vouchers)
      && Lookup(n'.suspected, k) == if vouchers == [] then Lookup(n.suspected, k) else None
  {
    EntriesAppended(n, init, r, k, Lookup(n.suspected, k));
    if r.server != k || k == n.self || k.port == 0 {
      EntryElsewhere(n1, r, k);
    } else if !StaleAlive(n1, r) {
      VouchedEntry(n1, r);
      OneMoreEntry(n, NotOlder(Entries(n, init, k), Lookup(n.suspected, k)), r);
    }
  }

  lemma EntriesAppended(n: Node, init: seq<Record>, r: Record, k: Server, known: Option<Record>)
    ensures var before, after := NotOlder(Entries(n, init, k), known), NotOlder(Entries(n, init + [r], k), known);
      if r.server == k && k != n.self && k.port != 0 && (before != [] || !IsOlder(r, known)) then after == before + [r]
      else after == before
  {
    assert (init + [r])[..|init|] == init;
    var about := About(init, k);
    assert about + [] == about && (about + [r])[..|about|] == about;
  }

  /** The second loop likewise: with some entries that count, `k` is suspected with the record they leave. */
  lemma {:induction false} SuspectLoopAt(n: Node, rs: seq<Record>, k: Server)
    requires Inv(n)
    ensures Inv(SuspectLoop(n, rs)) && SameFrame(n, SuspectLoop(n, rs))
    ensures var n', accusers := SuspectLoop(n, rs), NotOlder(Entries(n, rs, k), Lookup(n.alive, k));
      && (accusers != [] <==> AcceptsSuspect(n, rs, k))
      && Lookup(n'.suspected, k) == AccusedRecord(n, k, accusers)
      && Lookup(n'.alive, k) == if accusers == [] then Lookup(n.alive, k) else None
  {
    SomeCount(n, rs, k);
    if rs == [] {
    } else {
      var init, r := rs[..|rs| - 1], rs[|rs| - 1];
      var n1 := SuspectLoop(n, init);
      SuspectLoopAt(n, init, k);
      SuspectEntryKeepsInv(n1, r);
      SuspectEntryAt(n, init, n1, r, k);
    }
  }

  lemma SuspectEntryAt(n: Node, init: seq<Record>, n1: Node, r: Record, k: Server)
    requires Inv(n1) && SameFrame(n, n1)
    requires var accusers := NotOlder(Entries(n, init, k), Lookup(n.alive, k));
      && Lookup(n1.suspected, k) == AccusedRecord(n, k, accusers)
      && Lookup(n1.alive, k) == if accusers == [] then Lookup(n.alive, k) else None
    ensures var n', accusers := SuspectEntry(n1, r), NotOlder(Entries(n, init + [r], k), Lookup(n.alive, k));
      && Lookup(n'.suspected, k) == AccusedRecord(n, k, accusers)
      && Lookup(n'.alive, k) == if accusers == [] then Lookup(n.alive, k) else None
  {
    EntriesAppended(n, init, r, k, Lookup(n.alive, k));
    if r.server != k || k == n.self || k.port == 0 {
      EntryElsewhere(n1, r, k);
    } else if !StaleSuspect(n1, r) {
      AccusedEntry(n1, r);
      OneMoreEntry(n, NotOlder(Entries(n, init, k), Lookup(n.alive, k)), r);
    }
  }

  // ----- The whole report -----

  /** The alive entries about `k` that count: if `k` sent the report itself, all of them. */
  ghost function Vouchers(n: Node, sender: Server, report: Report, k: Server): seq<Record> {
    NotOlder(Entries(n, report.alive, k), if k == sender then None else Lookup(n.suspected, k))
  }

  /** What is known of `k` as alive before the accusations are read. */
  ghost function Seen(n: Node, sender: Server, report: Report, now: nat, k: Server): Option<Record> {
    var vouchers := Vouchers(n, sender, report, k);
    if vouchers == [] && k == sender && k.port != 0 then Some(AliveRecord(n, k, now)) else VouchedRecord(n, k, vouchers)
  }

  /** The suspect entries about `k` that count. */
  ghost function Accusers(n: Node, sender: Server, report: Report, now: nat, k: Server): seq<Record> {
    NotOlder(Entries(n, report.suspected, k), Seen(n, sender, report, now, k))
  }

  /** What is known of `k` as suspected before the accusations are read: nothing, if it was vouched for. */
  ghost function Unrefuted(n: Node, sender: Server, report: Report, k: Server): Node {
    if Vouchers(n, sender, report, k) != [] || (k == sender && k.port != 0) then RemoveSuspected(n, k, false) else n
  }

  lemma SenderFirst(n: Node, sender: Server, report: Report, now: nat, k: Server)
    requires Inv(n)
    ensures var n1 := AliveLoop(AddAlive(n, sender, now), report.alive);
      && Inv(n1) && SameFrame(n, n1)
      && Lookup(n1.alive, k) == Seen(n, sender, report, now, k)
      && Lookup(n1.suspected, k) == Lookup(Unrefuted(n, sender, report, k).suspected, k)
  {
    var n0 := AddAlive(n, sender, now);
    AddAliveKeepsInv(n, sender, now);
    AliveLoopAt(n0, report.alive, k);
    assert k != sender ==> SameAt(n, n0, k);
  }

  /**
   The exact records of `k` after a report: incarnation, time and stamp in either set, from what was
   known of `k` and from the entries about it in their order.
   */
  lemma OnReportRecords(n: Node, sender: Server, report: Report, now: nat, k: Server)
    requires Inv(n)
    ensures var n', accusers := OnReport(n, sender, report, now), Accusers(n, sender, report, now, k);
      && Inv(n') && SameFrame(n, n')
      && Lookup(n'.alive, k) == (if accusers == [] then Seen(n, sender, report, now, k) else None)
      && Lookup(n'.suspected, k) == AccusedRecord(Unrefuted(n, sender, report, k), k, accusers)
  {
    SenderFirst(n, sender, report, now, k);
    SuspectLoopAt(AliveLoop(AddAlive(n, sender, now), report.alive), report.suspected, k);
  }

  lemma SameSeen(n: Node, m: Node, sender: Server, p: Report, q: Report, now: nat, k: Server)
    requires SameFrame(n, m) && SameAt(n, m, k) && About(p.alive, k) == About(q.alive, k)
    ensures Vouchers(n, sender, p, k) == Vouchers(m, sender, q, k)
    ensures Seen(n, sender, p, now, k) == Seen(m, sender, q, now, k)
    ensures SameAt(Unrefuted(n, sender, p, k), Unrefuted(m, sender, q, k), k)
  {
  }

  /**
   What a report does to one server depends only on what was known of that server and on the
   entries about it: two nodes that agree on `k` still agree after reports that agree on `k`.
   */
  lemma OnReportLocal(n: Node, m: Node, sender: Server, p: Report, q: Report, now: nat, k: Server)
    requires Inv(n) && Inv(m) && SameFrame(n, m) && SameAt(n, m, k)
    requires About(p.alive, k) == About(q.alive, k) && About(p.suspected, k) == About(q.suspected, k)
    ensures SameAt(OnReport(n, sender, p, now), OnReport(m, sender, q, now), k)
  {
    SameSeen(n, m, sender, p, q, now, k);
    OnReportRecords(n, sender, p, now, k);
    OnReportRecords(m, sender, q, now, k);
  }

  // ----- The closed form -----

  /** `k` is vouched for: it sent the report, or a non-stale alive entry names it. */
  ghost predicate Heard(n: Node, sender: Server, report: Report, k: Server) {
    k.port != 0 &&
    (k == sender ||
     (k != n.self && exists r :: r in report.alive && r.server == k && !StaleAlive(n, r)))
  }

  /** `k` is accused: a suspect entry about it is at least as recent as what is known after the first loop. */
  ghost predicate Blamed(n: Node, sender: Server, report: Report, k: Server) {
    k.port != 0 && k != n.self &&
    exists r :: r in report.suspected && r.server == k &&
      (if Heard(n, sender, report, k) then n.clock <= r.lamport else !StaleSuspect(n, r))
  }

  /** Who is vouched for, said by the entries that count. */
  lemma HeardByVouchers(n: Node, sender: Server, report: Report, k: Server)
    ensures Heard(n, sender, report, k) <==> Vouchers(n, sender, report, k) != [] || (k == sender && k.port != 0)
  {
    AboutNames(report.alive, k);
    var entries := Entries(n, report.alive, k);
    AllOlder(entries, if k == sender then None else Lookup(n.suspected, k));
    assert entries != [] ==> entries[0] in report.alive;
  }

  /** And who is accused. */
  lemma BlamedByAccusers(n: Node, sender: Server, report: Report, now: nat, k: Server)
    ensures Blamed(n, sender, report, k) <==> Accusers(n, sender, report, now, k) != []
  {
    HeardByVouchers(n, sender, report, k);
    AboutNames(report.suspected, k);
    AllOlder(Entries(n, report.suspected, k), Seen(n, sender, report, now, k));
  }

  lemma OnReportClosedForm(n: Node, sender: Server, report: Report, now: nat, k: Server)
    requires Inv(n)
    ensures var n' := OnReport(n, sender, report, now);
      var heard, blamed := Heard(n, sender, report, k), Blamed(n, sender, report, k);
      && Inv(n') && SameFrame(n, n')
      && (k in n'.alive <==> (heard || k in n.alive) && !blamed)
      && (k in n'.suspected <==> blamed || (k in n.suspected && !heard))
      && (k in n'.alive ==> n'.alive[k].lamport == if heard then n.clock else n.alive[k].lamport)
      && (k in n'.suspected ==>
            n'.suspected[k].lamport == if k in n.suspected && !heard then n.suspected[k].lamport else n.clock)
      && (k in n.suspected && k in n'.suspected && !heard ==>
            n'.suspected[k].timestamp == n.suspected[k].timestamp)
      && (k in n'.suspected && !(k in n.suspected && !heard) ==>
            var accusers := Accusers(n, sender, report, now, k);
            accusers != [] && n'.suspected[k].timestamp == accusers[0].timestamp)
      && (k in n'.alive && heard ==>
            var vouchers := Vouchers(n, sender, report, k);
            n'.alive[k].timestamp == if vouchers == [] then now else vouchers[|vouchers| - 1].timestamp)
      && (!heard && !blamed ==> SameAt(n, n', k))
  {
    HeardByVouchers(n, sender, report, k);
    BlamedByAccusers(n, sender, report, now, k);
    OnReportRecords(n, sender, report, now, k);
  }

  // ----- Order independence -----

  ghost predicate SameEntries(rs: seq<Record>, rs': seq<Record>) {
    forall r :: r in rs <==> r in rs'
  }

  ghost predicate SameStamps(m: map<Server, Record>, m': map<Server, Record>) {
    m.Keys == m'.Keys && forall k :: k in m ==> m'[k].lamport == m[k].lamport
  }

  /** Neither the order nor the repetition of a report's entries matters for membership and stamps. */
  lemma OrderIndependence(n: Node, sender: Server, p: Report, q: Report, now: nat)
    requires Inv(n)
    requires SameEntries(p.alive, q.alive) && SameEntries(p.suspected, q.suspected)
    ensures SameStamps(OnReport(n, sender, p, now).alive, OnReport(n, sender, q, now).alive)
    ensures SameStamps(OnReport(n, sender, p, now).suspected, OnReport(n, sender, q, now).suspected)
  {
    var a, b := OnReport(n, sender, p, now), OnReport(n, sender, q, now);
    forall k ensures (k in a.alive <==> k in b.alive) && (k in a.alive ==> b.alive[k].lamport == a.alive[k].lamport)
             ensures (k in a.suspected <==> k in b.suspected)
             ensures k in a.suspected ==> b.suspected[k].lamport == a.suspected[k].lamport
    {
      OnReportClosedForm(n, sender, p, now, k);
      OnReportClosedForm(n, sender, q, now, k);
      assert Heard(n, sender, p, k) <==> Heard(n, sender, q, k);
      assert Blamed(n, sender, p, k) <==> Blamed(n, sender, q, k);
    }
  }

  // ----- Reports that name each server once -----

  ghost predicate DistinctNames(rs: seq<Record>) {
    forall i, j :: 0 <= i < j < |rs| ==> rs[i].server != rs[j].server
  }

  ghost predicate NamesOnce(report: Report) {
    DistinctNames(report.alive) && DistinctNames(report.suspected)
  }

  lemma {:induction false} AboutNobody(rs: seq<Record>, k: Server)
    requires forall r :: r in rs ==> r.server != k
    ensures About(rs, k) == []
  {
    if rs == [] {
    } else {
      assert rs[|rs| - 1] in rs;
      AboutNobody(rs[..|rs| - 1], k);
    }
  }

  lemma {:induction false} AboutOnly(rs: seq<Record>, r: Record)
    requires DistinctNames(rs) && r in rs
    ensures About(rs, r.server) == [r]
  {
    if rs == [] {
      assert false;
    } else {
      var init, x := rs[..|rs| - 1], rs[|rs| - 1];
      assert rs == init + [x];
      if x == r {
        AboutNobody(init, r.server);
      } else {
        AboutOnly(init, r);
      }
    }
  }

  lemma SameAbout(rs: seq<Record>, rs': seq<Record>, k: Server)
    requires DistinctNames(rs) && DistinctNames(rs') && SameEntries(rs, rs')
    ensures About(rs, k) == About(rs', k)
  {
    if r :| r in rs && r.server == k {
      AboutOnly(rs, r);
      AboutOnly(rs', r);
    } else {
      AboutNobody(rs, k);
      AboutNobody(rs', k);
    }
  }

  /** For reports that name each server once, as all prepared ones do, whole records are order independent too. */
  lemma PermutedReport(n: Node, sender: Server, p: Report, q: Report, now: nat)
    requires Inv(n)
    requires DistinctNames(p.alive) && DistinctNames(q.alive) && SameEntries(p.alive, q.alive)
    requires DistinctNames(p.suspected) && DistinctNames(q.suspected) && SameEntries(p.suspected, q.suspected)
    ensures OnReport(n, sender, p, now).alive == OnReport(n, sender, q, now).alive
    ensures OnReport(n, sender, p, now).suspected == OnReport(n, sender, q, now).suspected
  {
    var a, b := OnReport(n, sender, p, now), OnReport(n, sender, q, now);
    forall k ensures SameAt(a, b, k) {
      SameAbout(p.alive, q.alive, k);
      SameAbout(p.suspected, q.suspected, k);
      OnReportLocal(n, n, sender, p, q, now, k);
    }
    SameEverywhere(a, b);
  }

  lemma SameEverywhere(a: Node, b: Node)
    requires forall k :: SameAt(a, b, k)
    ensures a.alive == b.alive && a.suspected == b.suspected
  {
    forall k ensures (k in a.alive <==> k in b.alive) && (k in a.alive ==> a.alive[k] == b.alive[k])
             ensures (k in a.suspected <==> k in b.suspected) && (k in a.suspected ==> a.suspected[k] == b.suspected[k])
    {
      assert SameAt(a, b, k);
    }
  }

  lemma OneEntry(n: Node, r: Record)
    ensures AliveLoop(n, [r]) == AliveEntry(n, r) && SuspectLoop(n, [r]) == SuspectEntry(n, r)
    ensures VouchedRecord(n, r.server, [r]) == Vouch(Lookup(n.alive, r.server), r, n.clock)
    ensures AccusedRecord(n, r.server, [r]) == Accuse(Lookup(n.suspected, r.server), r, n.clock)
  {
    assert [] + [r] == [r] && [r][..0] == [];
    OneMoreEntry(n, [], r);
  }

  // ----- Single entries and incarnations -----

  lemma OneCounts(r: Record, known: Option<Record>)
    ensures NotOlder([r], known) == if IsOlder(r, known) then [] else [r]
  {
    assert [r][..0] == [] && NotOlder([], known) == [];
  }

  /** The record left by the only entry about a server, in a report that calls it alive. */
  lemma AliveRecordOf(n: Node, sender: Server, p: Report, now: nat, r: Record)
    requires Inv(n) && r.server != n.self && r.server != sender && r.server.port != 0 && !StaleAlive(n, r)
    requires About(p.alive, r.server) == [r] && About(p.suspected, r.server) == []
    ensures var k, n' := r.server, OnReport(n, sender, p, now);
      && k in n'.alive && k !in n'.suspected
      && n'.alive[k] ==
           Record(k, Max(r.incarnation, if k in n.alive then n.alive[k].incarnation else 0), r.timestamp, n.clock)
  {
    OneEntry(n, r);
    OneCounts(r, Lookup(n.suspected, r.server));
    assert Vouchers(n, sender, p, r.server) == [r];
    OnReportRecords(n, sender, p, now, r.server);
  }

  /** The record left by the only entry about a server, in a report that suspects it. */
  lemma SuspectRecordOf(n: Node, sender: Server, p: Report, now: nat, r: Record)
    requires Inv(n) && r.server != n.self && r.server != sender && r.server.port != 0 && !StaleSuspect(n, r)
    requires About(p.alive, r.server) == [] && About(p.suspected, r.server) == [r]
    ensures var k, n' := r.server, OnReport(n, sender, p, now);
      && k in n'.suspected && k !in n'.alive
      && n'.suspected[k] ==
           if k in n.suspected then n.suspected[k].(incarnation := Max(r.incarnation, n.suspected[k].incarnation))
           else Record(k, r.incarnation, r.timestamp, n.clock)
  {
    OneEntry(n, r);
    OneCounts(r, Lookup(n.alive, r.server));
    assert Vouchers(n, sender, p, r.server) == [];
    OnReportRecords(n, sender, p, now, r.server);
  }

  /** A server that is alive before and after a report has not lost its incarnation. */
  lemma IncarnationNeverFalls(n: Node, sender: Server, p: Report, now: nat, k: Server)
    requires Inv(n) && k in n.alive && k in OnReport(n, sender, p, now).alive
    ensures OnReport(n, sender, p, now).alive[k].incarnation >= n.alive[k].incarnation
  {
    OnReportRecords(n, sender, p, now, k);
  }

  // ----- Well-formed reports -----

  /** Every record is older than the envelope that carries it. */
  ghost predicate WellFormed(e: Envelope) {
    e.payload.StatusReport? ==>
      forall r :: r in e.payload.report.alive || r in e.payload.report.suspected ==> r.lamport < e.lamport
  }

  /** Good news wins: whoever a well-formed report vouches for is alive, even if it also accuses it. */
  lemma GoodNewsWins(n: Node, e: Envelope, now: nat, k: Server)
    requires Inv(n) && e.payload.StatusReport? && WellFormed(e)
    ensures e.sender.port != 0 ==> e.sender in Deliver(n, e, now).alive && e.sender !in Deliver(n, e, now).suspected
    ensures Heard(n, e.sender, e.payload.report, k) ==>
      k in Deliver(n, e, now).alive && k !in Deliver(n, e, now).suspected
  {
    var t := UpdateLamportTime(n, e.lamport);
    OnReportClosedForm(t, e.sender, e.payload.report, now, k);
    OnReportClosedForm(t, e.sender, e.payload.report, now, e.sender);
  }

  /** A suspicion keeps its stamp and its time for as long as it stands. */
  lemma SuspicionIsFixed(n: Node, e: Envelope, now: nat, k: Server)
    requires Inv(n) && WellFormed(e)
    requires k in n.suspected && k in Deliver(n, e, now).suspected
    ensures Deliver(n, e, now).suspected[k].lamport == n.suspected[k].lamport
    ensures Deliver(n, e, now).suspected[k].timestamp == n.suspected[k].timestamp
  {
    if e.payload.StatusReport? {
      OnReportClosedForm(UpdateLamportTime(n, e.lamport), e.sender, e.payload.report, now, k);
    }
  }

  /** Nor does a server that is suspected before and after such a message lose its incarnation. */
  lemma SuspectIncarnationNeverFalls(n: Node, e: Envelope, now: nat, k: Server)
    requires Inv(n) && WellFormed(e)
    requires k in n.suspected && k in Deliver(n, e, now).suspected
    ensures Deliver(n, e, now).suspected[k].incarnation >= n.suspected[k].incarnation
  {
    if e.payload.StatusReport? {
      var t := UpdateLamportTime(n, e.lamport);
      OnReportRecords(t, e.sender, e.payload.report, now, k);
      AboutNames(e.payload.report.suspected, k);
      AllOlder(Entries(t, e.payload.report.suspected, k), Seen(t, e.sender, e.payload.report, now, k));
    }
  }

  // ----- Idempotence -----

  lemma {:induction false} QuietAliveLoop(n: Node, rs: seq<Record>)
    requires Inv(n)
    requires forall k :: AcceptsAlive(n, rs, k) ==> k in n.alive
    ensures AliveLoop(n, rs).log == n.log
  {
    if rs == [] {
    } else {
      var init, r := rs[..|rs| - 1], rs[|rs| - 1];
      assert rs == init + [r];
      QuietAliveLoop(n, init);
      AliveLoopAt(n, init, r.server);
    }
  }

  lemma {:induction false} QuietSuspectLoop(n: Node, rs: seq<Record>)
    requires Inv(n)
    requires forall k :: AcceptsSuspect(n, rs, k) ==> k in n.suspected
    ensures SuspectLoop(n, rs).log == n.log
  {
    if rs == [] {
    } else {
      var init, r := rs[..|rs| - 1], rs[|rs| - 1];
      assert rs == init + [r];
      QuietSuspectLoop(n, init);
      SuspectLoopAt(n, init, r.server);
    }
  }

  /** The membership and the listener's log, which a repeated report must not change. */
  ghost predicate SameMembership(n: Node, n': Node) {
    n'.alive.Keys == n.alive.Keys && n'.suspected.Keys == n.suspected.Keys && n'.log == n.log
  }

  lemma QuietReportLog(n: Node, sender: Server, report: Report, now: nat)
    requires Inv(n)
    requires forall k :: Heard(n, sender, report, k) ==> k in n.alive
    requires forall k :: Blamed(n, sender, report, k) ==> k in n.suspected
    ensures OnReport(n, sender, report, now).log == n.log
  {
    var n0 := AddAlive(n, sender, now);
    AddAliveKeepsInv(n, sender, now);
    assert sender.port != 0 ==> Heard(n, sender, report, sender);
    forall k | AcceptsAlive(n0, report.alive, k) ensures k in n0.alive {
      assert k != sender ==> Heard(n, sender, report, k);
    }
    QuietAliveLoop(n0, report.alive);
    var n1 := AliveLoop(n0, report.alive);
    AliveLoopKeepsInv(n0, report.alive);
    forall k | AcceptsSuspect(n1, report.suspected, k) ensures k in n1.suspected {
      SenderFirst(n, sender, report, now, k);
      SomeCount(n1, report.suspected, k);
      BlamedByAccusers(n, sender, report, now, k);
      QuietAt(n, sender, report, now, k);
    }
    QuietSuspectLoop(n1, report.suspected);
  }

  lemma QuietAt(n: Node, sender: Server, report: Report, now: nat, k: Server)
    requires Inv(n) && k in n.suspected && (Heard(n, sender, report, k) ==> k in n.alive)
    ensures k in AliveLoop(AddAlive(n, sender, now), report.alive).suspected
  {
    HeardByVouchers(n, sender, report, k);
    SenderFirst(n, sender, report, now, k);
  }

  /** A report that vouches only for live servers and accuses only suspects changes no membership. */
  lemma QuietReport(n: Node, sender: Server, report: Report, now: nat)
    requires Inv(n)
    requires forall k :: Heard(n, sender, report, k) ==> k in n.alive
    requires forall k :: Blamed(n, sender, report, k) ==> k in n.suspected
    ensures SameMembership(n, OnReport(n, sender, report, now))
  {
    QuietReportLog(n, sender, report, now);
    forall k ensures k in OnReport(n, sender, report, now).alive <==> k in n.alive
             ensures k in OnReport(n, sender, report, now).suspected <==> k in n.suspected
    {
      OnReportClosedForm(n, sender, report, now, k);
    }
  }

  /** The second time, a report vouches only for live servers and accuses only suspects. */
  lemma RepeatedAt(n: Node, e: Envelope, now: nat, k: Server)
    requires Inv(n) && e.payload.StatusReport? && WellFormed(e)
    ensures var n1 := Deliver(n, e, now);
      && (Heard(n1, e.sender, e.payload.report, k) ==> k in n1.alive)
      && (Blamed(UpdateLamportTime(n1, e.lamport), e.sender, e.payload.report, k) ==> k in n1.suspected)
  {
    OnReportClosedForm(UpdateLamportTime(n, e.lamport), e.sender, e.payload.report, now, k);
  }

  lemma RepeatedReport(n: Node, e: Envelope, now: nat, later: nat)
    requires Inv(n) && e.payload.StatusReport? && WellFormed(e)
    ensures SameMembership(Deliver(n, e, now), Deliver(Deliver(n, e, now), e, later))
  {
    DeliverKeepsInv(n, e, now);
    var n1, report := Deliver(n, e, now), e.payload.report;
    var t := UpdateLamportTime(n1, e.lamport);
    forall k ensures Heard(t, e.sender, report, k) ==> k in t.alive
             ensures Blamed(t, e.sender, report, k) ==> k in t.suspected
    {
      RepeatedAt(n, e, now, k);
      assert Heard(t, e.sender, report, k) <==> Heard(n1, e.sender, report, k);
    }
    QuietReport(t, e.sender, report, later);
  }

  /** Receiving the same message twice in a row is receiving it once; the second time nobody is notified. */
  lemma Idempotence(n: Node, e: Envelope, now: nat, later: nat)
    requires Inv(n) && WellFormed(e)
    ensures SameMembership(Deliver(n, e, now), Deliver(Deliver(n, e, now), e, later))
  {
    if e.payload.StatusReport? {
      RepeatedReport(n, e, now, later);
    } else {
      var n1, t := Deliver(n, e, now), UpdateLamportTime(Deliver(n, e, now), e.lamport);
      assert e.sender.port != 0 && !e.payload.Unrecognized? ==> e.sender in n1.alive && e.sender !in n1.suspected;
      assert AddAlive(t, e.sender, later).alive.Keys == t.alive.Keys || e.payload.Unrecognized?;
    }
  }
}
