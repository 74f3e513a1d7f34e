/**
 What it means to ignore an entry of a report, and exactly which entries a server
 ignores.
 */
module Staleness {
  import opened SwimTypes
  import opened Membership
  import opened ReportLaws
  import opened Cluster

  // ----- What it means to ignore an entry -----

  function Drop(rs: seq<Record>, x: Record): (rs': seq<Record>)
    ensures forall r :: r in rs' <==> r in rs && r != x
  {
    if rs == [] then []
    else
      assert rs == rs[..|rs| - 1] + [rs[|rs| - 1]];
      Drop(rs[..|rs| - 1], x) + if rs[|rs| - 1] == x then [] else [rs[|rs| - 1]]
  }

  /** The envelope as it would be had it not listed `x` as alive. */
  function WithoutAlive(e: Envelope, x: Record): Envelope
    requires e.payload.StatusReport?
  {
    e.(payload := StatusReport(e.payload.report.(alive := Drop(e.payload.report.alive, x))))
  }

  function WithoutSuspected(e: Envelope, x: Record): Envelope
    requires e.payload.StatusReport?
  {
    e.(payload := StatusReport(e.payload.report.(suspected := Drop(e.payload.report.suspected, x))))
  }

  /** Receiving `e` and receiving `e'` lead to the same membership with the same stamps. */
  ghost predicate SameEffect(n: Node, e: Envelope, e': Envelope, now: nat) {
    && SameStamps(Deliver(n, e, now).alive, Deliver(n, e', now).alive)
    && SameStamps(Deliver(n, e, now).suspected, Deliver(n, e', now).suspected)
  }

  ghost predicate SameVerdicts(n: Node, sender: Server, p: Report, q: Report) {
    forall k ::
      && (Heard(n, sender, p, k) <==> Heard(n, sender, q, k))
      && (Blamed(n, sender, p, k) <==> Blamed(n, sender, q, k))
  }

  lemma SameVerdictsSameEffect(n: Node, e: Envelope, e': Envelope, now: nat)
    requires Inv(n) && e.payload.StatusReport? && e'.payload.StatusReport?
    requires e'.sender == e.sender && e'.lamport == e.lamport
    requires SameVerdicts(UpdateLamportTime(n, e.lamport), e.sender, e.payload.report, e'.payload.report)
    ensures SameEffect(n, e, e', now)
  {
    var t, p, q := UpdateLamportTime(n, e.lamport), e.payload.report, e'.payload.report;
    var a, b := OnReport(t, e.sender, p, now), OnReport(t, e.sender, q, now);
    forall k ensures (k in a.alive <==> k in b.alive) && (k in a.alive ==> b.alive[k].lamport == a.alive[k].lamport)
             ensures (k in a.suspected <==> k in b.suspected)
             ensures k in a.suspected ==> b.suspected[k].lamport == a.suspected[k].lamport
    {
      assert Heard(t, e.sender, p, k) <==> Heard(t, e.sender, q, k);
      OnReportClosedForm(t, e.sender, p, now, k);
      OnReportClosedForm(t, e.sender, q, now, k);
    }
  }

  /** Receiving `e` and receiving `e'` come to the same in every respect: records, listener calls, envelopes sent. */
  ghost predicate SameInAll(n: Node, e: Envelope, e': Envelope, now: nat) {
    var a, b := Deliver(n, e, now), Deliver(n, e', now);
    a == b && Sent(a, Receive(n.self, e, now)) == Sent(b, Receive(n.self, e', now))
  }

  /** Entries that do nothing when they are read may as well be absent. */
  lemma {:induction false} DropFromAliveLoop(n: Node, rs: seq<Record>, x: Record)
    requires forall i :: 0 <= i < |rs| && rs[i] == x ==> AliveEntry(AliveLoop(n, rs[..i]), x) == AliveLoop(n, rs[..i])
    ensures AliveLoop(n, Drop(rs, x)) == AliveLoop(n, rs)
  {
    if rs == [] {
    } else {
      var init, r := rs[..|rs| - 1], rs[|rs| - 1];
      forall i | 0 <= i < |init| && init[i] == x ensures AliveEntry(AliveLoop(n, init[..i]), x) == AliveLoop(n, init[..i]) {
        assert init[..i] == rs[..i] && rs[i] == x;
      }
      DropFromAliveLoop(n, init, x);
      assert (Drop(init, x) + [r])[..|Drop(init, x)|] == Drop(init, x) && Drop(init, x) + [] == Drop(init, x);
    }
  }

  lemma {:induction false} DropFromSuspectLoop(n: Node, rs: seq<Record>, x: Record)
    requires forall i :: 0 <= i < |rs| && rs[i] == x ==> SuspectEntry(SuspectLoop(n, rs[..i]), x) == SuspectLoop(n, rs[..i])
    ensures SuspectLoop(n, Drop(rs, x)) == SuspectLoop(n, rs)
  {
    if rs == [] {
    } else {
      var init, r := rs[..|rs| - 1], rs[|rs| - 1];
      forall i | 0 <= i < |init| && init[i] == x
        ensures SuspectEntry(SuspectLoop(n, init[..i]), x) == SuspectLoop(n, init[..i])
      {
        assert init[..i] == rs[..i] && rs[i] == x;
      }
      DropFromSuspectLoop(n, init, x);
      assert (Drop(init, x) + [r])[..|Drop(init, x)|] == Drop(init, x) && Drop(init, x) + [] == Drop(init, x);
    }
  }

  ghost predicate AllStaleAlive(n: Node, rs: seq<Record>, k: Server) {
    forall y :: y in rs && y.server == k ==> StaleAlive(n, y)
  }

  ghost predicate AllStaleSuspect(n: Node, rs: seq<Record>, k: Server) {
    forall y :: y in rs && y.server == k ==> StaleSuspect(n, y)
  }

  lemma StaleAliveLoop(n: Node, rs: seq<Record>, x: Record)
    requires Inv(n) && AllStaleAlive(n, rs, x.server)
    ensures AliveLoop(n, Drop(rs, x)) == AliveLoop(n, rs)
  {
    forall i | 0 <= i < |rs| && rs[i] == x ensures AliveEntry(AliveLoop(n, rs[..i]), x) == AliveLoop(n, rs[..i]) {
      AliveLoopAt(n, rs[..i], x.server);
      assert x in rs;
    }
    DropFromAliveLoop(n, rs, x);
  }

  lemma StaleSuspectLoop(n: Node, rs: seq<Record>, x: Record)
    requires Inv(n) && AllStaleSuspect(n, rs, x.server)
    ensures SuspectLoop(n, Drop(rs, x)) == SuspectLoop(n, rs)
  {
    forall i | 0 <= i < |rs| && rs[i] == x ensures SuspectEntry(SuspectLoop(n, rs[..i]), x) == SuspectLoop(n, rs[..i]) {
      SuspectLoopAt(n, rs[..i], x.server);
      assert x in rs;
    }
    DropFromSuspectLoop(n, rs, x);
  }

  /** Whom a report accuses decides what is sent in reply. */
  lemma SameDenials(n: Node, p: Report, q: Report)
    requires q.sender == p.sender
    requires (exists r :: r in p.suspected && r.server == n.self) <==> (exists r :: r in q.suspected && r.server == n.self)
    ensures (set d | d in Denials(n, p, p.suspected)) == (set d | d in Denials(n, q, q.suspected))
  {
    DenialsArePings(n, p, p.suspected);
    DenialsArePings(n, q, q.suspected);
  }

  /**
   An alive entry older than the suspicion it meets changes no membership and no stamp.  It changes
   nothing at all if its server did not send the report and the report has nothing fresher about it.
   */
  lemma StaleAliveIsIgnored(n: Node, e: Envelope, now: nat, x: Record)
    requires Inv(n) && e.payload.StatusReport? && StaleAlive(n, x)
    ensures SameEffect(n, e, WithoutAlive(e, x), now)
    ensures x.server != e.sender && AllStaleAlive(n, e.payload.report.alive, x.server) ==>
      SameInAll(n, e, WithoutAlive(e, x), now)
  {
    var t, p, q := UpdateLamportTime(n, e.lamport), e.payload.report, WithoutAlive(e, x).payload.report;
    forall k ensures Heard(t, e.sender, p, k) <==> Heard(t, e.sender, q, k)
             ensures Blamed(t, e.sender, p, k) <==> Blamed(t, e.sender, q, k)
    {
      assert Heard(t, e.sender, p, k) <==> Heard(t, e.sender, q, k);
    }
    SameVerdictsSameEffect(n, e, WithoutAlive(e, x), now);
    if x.server != e.sender && AllStaleAlive(n, p.alive, x.server) {
      AddAliveKeepsInv(t, e.sender, now);
      assert AllStaleAlive(AddAlive(t, e.sender, now), p.alive, x.server);
      StaleAliveLoop(AddAlive(t, e.sender, now), p.alive, x);
      SameDenials(Deliver(n, e, now), p, q);
    }
  }

  /** Reading the alive list does not make an accusation fresher. */
  lemma StillStale(n: Node, sender: Server, report: Report, now: nat, k: Server)
    requires Inv(n) && k in n.alive && AllStaleSuspect(n, report.suspected, k)
    ensures var n1 := AliveLoop(AddAlive(n, sender, now), report.alive);
      Inv(n1) && AllStaleSuspect(n1, report.suspected, k)
  {
    SenderFirst(n, sender, report, now, k);
  }

  /**
   A suspect entry older than the sign of life it meets changes no membership and no stamp.  If the
   report has nothing fresher against its server it changes no record at all, and only an accusation
   of the receiver itself is answered.
   */
  lemma StaleSuspectIsIgnored(n: Node, e: Envelope, now: nat, x: Record)
    requires Inv(n) && e.payload.StatusReport? && WellFormed(e) && StaleSuspect(n, x)
    ensures SameEffect(n, e, WithoutSuspected(e, x), now)
    ensures AllStaleSuspect(n, e.payload.report.suspected, x.server) ==>
      && Deliver(n, e, now) == Deliver(n, WithoutSuspected(e, x), now)
      && (x.server != n.self ==> SameInAll(n, e, WithoutSuspected(e, x), now))
  {
    var t, p, q := UpdateLamportTime(n, e.lamport), e.payload.report, WithoutSuspected(e, x).payload.report;
    forall k ensures Heard(t, e.sender, p, k) <==> Heard(t, e.sender, q, k)
             ensures Blamed(t, e.sender, p, k) <==> Blamed(t, e.sender, q, k)
    {
      assert Heard(t, e.sender, p, k) <==> Heard(t, e.sender, q, k);
    }
    SameVerdictsSameEffect(n, e, WithoutSuspected(e, x), now);
    if AllStaleSuspect(n, p.suspected, x.server) {
      StillStale(t, e.sender, p, now, x.server);
      StaleSuspectLoop(AliveLoop(AddAlive(t, e.sender, now), p.alive), p.suspected, x);
      if x.server != n.self {
        DeliverKeepsInv(n, e, now);
        SameDenials(Deliver(n, e, now), p, q);
      }
    }
  }

  // ----- Exactly which entries are ignored -----

  /** In a list that names each server once, nothing else is about the server of `x`. */
  lemma OnlyEntry(rs: seq<Record>, x: Record, i: nat)
    requires DistinctNames(rs) && i < |rs| && rs[i] == x
    ensures About(rs, x.server) == [x] && About(rs[..i], x.server) == [] && About(Drop(rs, x), x.server) == []
  {
    AboutOnly(rs, x);
    AboutNobody(rs[..i], x.server);
    AboutNobody(Drop(rs, x), x.server);
  }

  /** What a report in flight is like: older than its envelope, with each server named once in a list. */
  ghost predicate InFlight(e: Envelope) {
    e.payload.StatusReport? && WellFormed(e) && NamesOnce(e.payload.report)
  }

  /**
   The alive entry `x` has nothing to say: it is about the receiver or a port-0 server; or it is
   stale; or, if it is about the sender, whose arrival clears any suspicion, it adds nothing to that.
   */
  ghost predicate NothingAlive(n: Node, sender: Server, now: nat, x: Record) {
    || x.server == n.self || x.server.port == 0
    || (if x.server == sender then x.timestamp == now && x.incarnation <= KnownIncarnation(n.alive, x.server)
        else StaleAlive(n, x))
  }

  lemma NothingAliveIsDropped(n: Node, e: Envelope, now: nat, x: Record)
    requires Inv(n) && InFlight(e) && x in e.payload.report.alive && NothingAlive(n, e.sender, now, x)
    ensures SameInAll(n, e, WithoutAlive(e, x), now)
  {
    var rs, k := e.payload.report.alive, x.server;
    var n0 := AddAlive(UpdateLamportTime(n, e.lamport), e.sender, now);
    AddAliveKeepsInv(UpdateLamportTime(n, e.lamport), e.sender, now);
    forall i | 0 <= i < |rs| && rs[i] == x ensures AliveEntry(AliveLoop(n0, rs[..i]), x) == AliveLoop(n0, rs[..i]) {
      OnlyEntry(rs, x, i);
      AliveLoopAt(n0, rs[..i], k);
      EntryAddsNothing(n, e.lamport, e.sender, now, AliveLoop(n0, rs[..i]), x);
    }
    DropFromAliveLoop(n0, rs, x);
    SameDenials(Deliver(n, e, now), e.payload.report, WithoutAlive(e, x).payload.report);
  }

  lemma EntryAddsNothing(n: Node, time: nat, sender: Server, now: nat, n1: Node, x: Record)
    requires Inv(n) && Inv(n1) && NothingAlive(n, sender, now, x)
    requires var n0 := AddAlive(UpdateLamportTime(n, time), sender, now);
      SameFrame(n0, n1) && SameAt(n0, n1, x.server)
    ensures AliveEntry(n1, x) == n1
  {
    if x.server == n.self || x.server.port == 0 {
    } else if x.server == sender {
      var n' := AddAlive(n1, x.server, x.timestamp);
      assert n'.alive == n1.alive && n'.suspected == n1.suspected;
    } else {
      assert StaleAlive(n1, x);
    }
  }

  lemma OnlyVoucher(n: Node, sender: Server, report: Report, x: Record)
    requires DistinctNames(report.alive) && x in report.alive && x.server != n.self && x.server.port != 0
    requires x.server == sender || !StaleAlive(n, x)
    ensures Vouchers(n, sender, report, x.server) == [x] && Heard(n, sender, report, x.server)
  {
    var i :| 0 <= i < |report.alive| && report.alive[i] == x;
    OnlyEntry(report.alive, x, i);
    OneCounts(x, if x.server == sender then None else Lookup(n.suspected, x.server));
    HeardByVouchers(n, sender, report, x.server);
  }

  lemma VoucherIsNoted(n: Node, e: Envelope, now: nat, x: Record)
    requires Inv(n) && InFlight(e) && x in e.payload.report.alive && x.server != n.self && x.server.port != 0
    requires x.server == e.sender || !StaleAlive(n, x)
    ensures Lookup(Deliver(n, e, now).alive, x.server)
      == Vouch(Lookup(n.alive, x.server), x, Max(n.clock, e.lamport) + 1)
  {
    var t := UpdateLamportTime(n, e.lamport);
    OnlyVoucher(t, e.sender, e.payload.report, x);
    NoAccuserCounts(n, e, now, x.server);
    OneEntry(t, x);
    OnReportRecords(t, e.sender, e.payload.report, now, x.server);
  }

  /** Against a server it vouches for, a report in flight has nothing to say. */
  lemma NoAccuserCounts(n: Node, e: Envelope, now: nat, k: Server)
    requires Inv(n) && e.payload.StatusReport? && WellFormed(e)
    ensures var t := UpdateLamportTime(n, e.lamport);
      Heard(t, e.sender, e.payload.report, k) ==> Accusers(t, e.sender, e.payload.report, now, k) == []
  {
    var t, report := UpdateLamportTime(n, e.lamport), e.payload.report;
    BlamedByAccusers(t, e.sender, report, now, k);
  }

  lemma SenderWithoutVoucher(n: Node, e: Envelope, now: nat, x: Record)
    requires Inv(n) && InFlight(e) && x in e.payload.report.alive && x.server == e.sender && x.server.port != 0
    ensures Lookup(Deliver(n, WithoutAlive(e, x), now).alive, x.server)
      == Some(AliveRecord(UpdateLamportTime(n, e.lamport), x.server, now))
  {
    var t, q, rs := UpdateLamportTime(n, e.lamport), WithoutAlive(e, x).payload.report, e.payload.report.alive;
    var i :| 0 <= i < |rs| && rs[i] == x;
    OnlyEntry(rs, x, i);
    NoAccuserCounts(n, WithoutAlive(e, x), now, x.server);
    OnReportRecords(t, e.sender, q, now, x.server);
  }

  lemma OtherWithoutVoucher(n: Node, e: Envelope, now: nat, x: Record)
    requires Inv(n) && InFlight(e) && x in e.payload.report.alive && x.server != e.sender
    ensures var known := Lookup(Deliver(n, WithoutAlive(e, x), now).alive, x.server);
      known.None? || known == Lookup(n.alive, x.server)
  {
    var t, q, rs := UpdateLamportTime(n, e.lamport), WithoutAlive(e, x).payload.report, e.payload.report.alive;
    var i :| 0 <= i < |rs| && rs[i] == x;
    OnlyEntry(rs, x, i);
    OnReportRecords(t, e.sender, q, now, x.server);
  }

  lemma SomethingAliveIsNoticed(n: Node, e: Envelope, now: nat, x: Record)
    requires Inv(n) && InFlight(e) && x in e.payload.report.alive && !NothingAlive(n, e.sender, now, x)
    ensures Deliver(n, e, now) != Deliver(n, WithoutAlive(e, x), now)
  {
    VoucherIsNoted(n, e, now, x);
    if x.server == e.sender {
      SenderWithoutVoucher(n, e, now, x);
    } else {
      OtherWithoutVoucher(n, e, now, x);
    }
  }

  /** An alive entry of a report in flight is ignored, in every respect, if and only if it has nothing to say. */
  lemma AliveEntryIgnoredIff(n: Node, e: Envelope, now: nat, x: Record)
    requires Inv(n) && InFlight(e) && x in e.payload.report.alive
    ensures SameInAll(n, e, WithoutAlive(e, x), now) <==> NothingAlive(n, e.sender, now, x)
  {
    if NothingAlive(n, e.sender, now, x) {
      NothingAliveIsDropped(n, e, now, x);
    } else {
      SomethingAliveIsNoticed(n, e, now, x);
    }
  }

  /** A suspect that lists itself as alive is believed, stale or not: what counts is its time, not that of the arrival. */
  lemma SenderVouchesForItself(n: Node, e: Envelope, now: nat, x: Record)
    requires Inv(n) && InFlight(e) && x in e.payload.report.alive && x.server == e.sender && StaleAlive(n, x)
    ensures var k, clock := x.server, Max(n.clock, e.lamport) + 1;
      && Lookup(Deliver(n, e, now).alive, k) == Some(Record(k, x.incarnation, x.timestamp, clock))
      && Lookup(Deliver(n, WithoutAlive(e, x), now).alive, k) == Some(Record(k, 0, now, clock))
  {
    assert x.server !in n.alive;
    VoucherIsNoted(n, e, now, x);
    SenderWithoutVoucher(n, e, now, x);
  }

  /**
   The suspect entry `x` has nothing to say: it is not about the receiver, which would answer; and
   it is about a port-0 server, or stale, or against a server the report vouches for, or against a
   suspect, of which it knows no higher incarnation.
   */
  ghost predicate NothingSuspect(n: Node, sender: Server, report: Report, x: Record) {
    && x.server != n.self
    && (|| x.server.port == 0 || StaleSuspect(n, x) || Heard(n, sender, report, x.server)
        || (x.server in n.suspected && x.incarnation <= n.suspected[x.server].incarnation))
  }

  lemma NothingSuspectIsDropped(n: Node, e: Envelope, now: nat, x: Record)
    requires Inv(n) && InFlight(e) && x in e.payload.report.suspected
    requires NothingSuspect(n, e.sender, e.payload.report, x)
    ensures SameInAll(n, e, WithoutSuspected(e, x), now)
  {
    var t, report := UpdateLamportTime(n, e.lamport), e.payload.report;
    var rs, n1 := report.suspected, AliveLoop(AddAlive(t, e.sender, now), report.alive);
    SenderFirst(t, e.sender, report, now, x.server);
    HeardByVouchers(t, e.sender, report, x.server);
    forall i | 0 <= i < |rs| && rs[i] == x ensures SuspectEntry(SuspectLoop(n1, rs[..i]), x) == SuspectLoop(n1, rs[..i]) {
      OnlyEntry(rs, x, i);
      SuspectLoopAt(n1, rs[..i], x.server);
      AccusationAddsNothing(n1, SuspectLoop(n1, rs[..i]), x);
    }
    DropFromSuspectLoop(n1, rs, x);
    DeliverKeepsInv(n, e, now);
    SameDenials(Deliver(n, e, now), report, WithoutSuspected(e, x).payload.report);
  }

  lemma AccusationAddsNothing(n1: Node, n2: Node, x: Record)
    requires Inv(n1) && Inv(n2) && SameFrame(n1, n2) && SameAt(n1, n2, x.server) && x.server != n1.self
    requires || x.server.port == 0 || StaleSuspect(n1, x)
      || (x.server in n1.suspected && x.incarnation <= n1.suspected[x.server].incarnation)
    ensures SuspectEntry(n2, x) == n2
  {
    if x.server in n2.suspected {
      assert n2.alive - {x.server} == n2.alive;
    }
  }

  /** An accusation of the receiver is answered, stale or not. */
  lemma AccusationIsAnswered(n: Node, e: Envelope, now: nat, x: Record)
    requires Inv(n) && InFlight(e) && x in e.payload.report.suspected && x.server == n.self
    ensures var n' := Deliver(n, e, now);
      Sent(n', Receive(n.self, e, now)) == {Post(n', e.payload.report.sender, StatusUpdate)}
    ensures Sent(Deliver(n, WithoutSuspected(e, x), now), Receive(n.self, WithoutSuspected(e, x), now)) == {}
  {
    var n', report := Deliver(n, e, now), e.payload.report;
    var e' := WithoutSuspected(e, x);
    DeliverKeepsInv(n, e, now);
    DenialsArePings(n', report, report.suspected);
    DeliverKeepsInv(n, e', now);
    DenialsArePings(Deliver(n, e', now), e'.payload.report, e'.payload.report.suspected);
  }

  lemma OnlyAccuser(n: Node, sender: Server, report: Report, now: nat, x: Record)
    requires DistinctNames(report.suspected) && x in report.suspected && x.server != n.self && x.server.port != 0
    requires !Heard(n, sender, report, x.server) && !StaleSuspect(n, x)
    ensures Accusers(n, sender, report, now, x.server) == [x]
    ensures Seen(n, sender, report, now, x.server) == Lookup(n.alive, x.server)
    ensures Unrefuted(n, sender, report, x.server) == n
  {
    var i :| 0 <= i < |report.suspected| && report.suspected[i] == x;
    OnlyEntry(report.suspected, x, i);
    HeardByVouchers(n, sender, report, x.server);
    OneCounts(x, Lookup(n.alive, x.server));
  }

  lemma WithoutAccuser(n: Node, e: Envelope, now: nat, x: Record)
    requires Inv(n) && InFlight(e) && x in e.payload.report.suspected && !Heard(n, e.sender, e.payload.report, x.server)
    ensures Lookup(Deliver(n, WithoutSuspected(e, x), now).suspected, x.server) == Lookup(n.suspected, x.server)
  {
    var t, q, rs := UpdateLamportTime(n, e.lamport), WithoutSuspected(e, x).payload.report, e.payload.report.suspected;
    var i :| 0 <= i < |rs| && rs[i] == x;
    OnlyEntry(rs, x, i);
    HeardByVouchers(t, e.sender, q, x.server);
    OnReportRecords(t, e.sender, q, now, x.server);
  }

  lemma SomethingSuspectIsNoticed(n: Node, e: Envelope, now: nat, x: Record)
    requires Inv(n) && InFlight(e) && x in e.payload.report.suspected && x.server != n.self
    requires !NothingSuspect(n, e.sender, e.payload.report, x)
    ensures Deliver(n, e, now) != Deliver(n, WithoutSuspected(e, x), now)
  {
    var t, k := UpdateLamportTime(n, e.lamport), x.server;
    OnlyAccuser(t, e.sender, e.payload.report, now, x);
    OneEntry(t, x);
    OnReportRecords(t, e.sender, e.payload.report, now, k);
    WithoutAccuser(n, e, now, x);
  }

  /** A suspect entry of a report in flight is ignored, in every respect, if and only if it has nothing to say. */
  lemma SuspectEntryIgnoredIff(n: Node, e: Envelope, now: nat, x: Record)
    requires Inv(n) && InFlight(e) && x in e.payload.report.suspected
    ensures SameInAll(n, e, WithoutSuspected(e, x), now) <==> NothingSuspect(n, e.sender, e.payload.report, x)
  {
    if NothingSuspect(n, e.sender, e.payload.report, x) {
      NothingSuspectIsDropped(n, e, now, x);
    } else if x.server == n.self {
      AccusationIsAnswered(n, e, now, x);
    } else {
      SomethingSuspectIsNoticed(n, e, now, x);
    }
  }

  /** A suspicion that meets only older signs of life stands unchanged. */
  lemma OnlyStaleAlive(n: Node, e: Envelope, now: nat, k: Server)
    requires Inv(n) && e.payload.StatusReport? && k in n.suspected && k != e.sender
    requires forall y :: y in e.payload.report.alive && y.server == k ==> StaleAlive(n, y)
    ensures k in Deliver(n, e, now).suspected && k !in Deliver(n, e, now).alive
    ensures Deliver(n, e, now).suspected[k].lamport == n.suspected[k].lamport
    ensures Deliver(n, e, now).suspected[k].timestamp == n.suspected[k].timestamp
  {
    OnReportClosedForm(UpdateLamportTime(n, e.lamport), e.sender, e.payload.report, now, k);
  }

  /** A live server that meets only older suspicions stays alive. */
  lemma OnlyStaleSuspect(n: Node, e: Envelope, now: nat, k: Server)
    requires Inv(n) && e.payload.StatusReport? && WellFormed(e) && k in n.alive
    requires forall y :: y in e.payload.report.suspected && y.server == k ==> StaleSuspect(n, y)
    ensures k in Deliver(n, e, now).alive && k !in Deliver(n, e, now).suspected
  {
    OnReportClosedForm(UpdateLamportTime(n, e.lamport), e.sender, e.payload.report, now, k);
  }
}
