/**
 Full rounds of the failure detector: whom it contacts, what it sends, what it
 concludes, and whom a series of rounds reaches.
 */
module Rounds {
  import opened SwimTypes
  import opened RecordSet
  import opened RoundRobin
  import opened NeighborRing
  import opened Membership
  import Listener

  /** Live neighbors other than the server itself. */
  ghost predicate Contactable(n: Node, others: set<Server>) {
    others <= n.alive.Keys && n.self !in others
  }

  // ----- What is concluded -----

  /** What a server concludes from a neighbor's reply or silence. */
  ghost function Noted(n: Node, other: Server, replied: bool, now: nat): Node {
    if replied then AddAlive(n, other, now) else ReportSuspected(n, other, now)
  }

  ghost function AllNoted(n: Node, done: seq<Server>, replies: set<Server>, now: nat): Node {
    if done == [] then n
    else
      var other := done[|done| - 1];
      Noted(AllNoted(n, done[..|done| - 1], replies, now), other, other in replies, now)
  }

  lemma NotedNext(n: Node, done: seq<Server>, replies: set<Server>, other: Server, now: nat)
    ensures AllNoted(n, done + [other], replies, now)
      == Noted(AllNoted(n, done, replies, now), other, other in replies, now)
  {
    assert (done + [other])[..|done|] == done;
  }

  lemma ListedMore(list: seq<Server>, listed: set<Server>, x: Server)
    requires Distinct(list) && Elements(list) == listed && x !in listed
    ensures Distinct(list + [x]) && Elements(list + [x]) == listed + {x}
  {
    assert x !in Elements(list);
    assert Elements(list + [x]) == Elements(list) + {x};
  }

  lemma VisitedBefore(list: seq<Server>, i: nat)
    requires Distinct(list) && i < |list|
    ensures Distinct(list[..i]) && Elements(list[..i]) <= Elements(list)
    ensures list[..i + 1] == list[..i] + [list[i]]
  {
  }

  lemma NotedKeys(n: Node, other: Server, replied: bool, now: nat)
    requires Inv(n) && other in n.alive && other != n.self
    ensures Inv(Noted(n, other, replied, now)) && Noted(n, other, replied, now).self == n.self
    ensures Noted(n, other, replied, now).alive.Keys == n.alive.Keys - if replied then {} else {other}
    ensures Noted(n, other, replied, now).suspected.Keys == n.suspected.Keys + if replied then {} else {other}
  {
  }

  /** Contacting live neighbors moves exactly the silent ones to the suspected set. */
  lemma {:induction false} AllNotedKeys(n: Node, done: seq<Server>, replies: set<Server>, now: nat)
    requires Inv(n) && Distinct(done) && Elements(done) <= n.alive.Keys && n.self !in Elements(done)
    ensures Inv(AllNoted(n, done, replies, now)) && AllNoted(n, done, replies, now).self == n.self
    ensures AllNoted(n, done, replies, now).alive.Keys == n.alive.Keys - (Elements(done) - replies)
    ensures AllNoted(n, done, replies, now).suspected.Keys == n.suspected.Keys + (Elements(done) - replies)
  {
    if done == [] {
    } else {
      var init, other := done[..|done| - 1], done[|done| - 1];
      LastContact(done, replies);
      AllNotedKeys(n, init, replies, now);
      NotedKeys(AllNoted(n, init, replies, now), other, other in replies, now);
    }
  }

  lemma LastContact(done: seq<Server>, replies: set<Server>)
    requires Distinct(done) && done != []
    ensures var init, other := done[..|done| - 1], done[|done| - 1];
      && Elements(done) == Elements(init) + {other} && other !in Elements(init)
      && Elements(done) - replies == (Elements(init) - replies) + if other in replies then {} else {other}
  {
  }

  /** What becomes of `x`: seen now if it replied, suspected now if it was contacted in vain, else as it was. */
  ghost predicate Concluded(n: Node, n': Node, contacted: bool, replied: bool, now: nat, x: Server) {
    if !contacted then SameAt(n, n', x)
    else if replied then
      Lookup(n'.alive, x) == Some(Record(x, KnownIncarnation(n.alive, x), now, n.clock)) && x !in n'.suspected
    else Lookup(n'.suspected, x) == Some(Record(x, 0, now, n.clock)) && x !in n'.alive
  }

  lemma NotedRecords(n: Node, other: Server, replied: bool, now: nat, x: Server)
    requires Inv(n) && other in n.alive && other != n.self
    ensures Noted(n, other, replied, now).clock == n.clock
    ensures Concluded(n, Noted(n, other, replied, now), x == other, replied, now, x)
  {
    AddAliveSees(n, other, now);
    ReportSuspectedSuspects(n, other, now);
  }

  lemma ConcludedNext(n: Node, n1: Node, n2: Node, done: seq<Server>, other: Server, replies: set<Server>, now: nat,
                      x: Server)
    requires n1.clock == n.clock && other !in done && Concluded(n, n1, x in done, x in replies, now, x)
    requires Concluded(n1, n2, x == other, other in replies, now, x)
    ensures Concluded(n, n2, x in done + [other], x in replies, now, x)
  {
  }

  /**
   After contacting live neighbors: who replied has been seen now, who stayed silent has been
   suspected now, and nothing else has changed.
   */
  lemma {:induction false} AllNotedRecords(n: Node, done: seq<Server>, replies: set<Server>, now: nat, x: Server)
    requires Inv(n) && Distinct(done) && Elements(done) <= n.alive.Keys && n.self !in Elements(done)
    ensures AllNoted(n, done, replies, now).clock == n.clock
    ensures Concluded(n, AllNoted(n, done, replies, now), x in done, x in replies, now, x)
  {
    if done == [] {
    } else {
      var init, other := done[..|done| - 1], done[|done| - 1];
      LastContact(done, replies);
      AllNotedKeys(n, init, replies, now);
      AllNotedRecords(n, init, replies, now, x);
      var n1 := AllNoted(n, init, replies, now);
      NotedRecords(n1, other, other in replies, now, x);
      ConcludedNext(n, n1, Noted(n1, other, other in replies, now), init, other, replies, now, x);
      assert done == init + [other];
    }
  }

  lemma {:induction false} AllNotedMirrored(n: Node, done: seq<Server>, replies: set<Server>, now: nat)
    requires Inv(n) && Distinct(done) && Elements(done) <= n.alive.Keys && n.self !in Elements(done) && Listener.Mirrored(n)
    ensures Listener.Mirrored(AllNoted(n, done, replies, now))
  {
    if done == [] {
    } else {
      var init, other := done[..|done| - 1], done[|done| - 1];
      LastContact(done, replies);
      AllNotedKeys(n, init, replies, now);
      AllNotedMirrored(n, init, replies, now);
      Listener.AddAliveMirrored(AllNoted(n, init, replies, now), other, now);
      Listener.ReportSuspectedMirrored(AllNoted(n, init, replies, now), other, now);
    }
  }

  // ----- Who is picked -----

  /** `others` are the next `k` servers on the ring over the keys of `m`, or all; then `index'` is next. */
  ghost predicate PickedFrom(m: map<Server, Record>, self: Server, index: nat, k: nat, others: set<Server>, index': nat) {
    exists s :: Sorted(s) && Contents(s) == m && Picked(s, self, RingPlace(s, self, index), Min(k, |s|), others, index')
  }

  lemma PickedFromSet(s: seq<Record>, self: Server, index: nat, k: nat, others: set<Server>, index': nat)
    requires Sorted(s) && Picked(s, self, RingPlace(s, self, index), Min(k, |s|), others, index')
    ensures PickedFrom(Contents(s), self, index, k, others, index')
  {
  }

  lemma OthersCount(s: seq<Record>, self: Server)
    requires Sorted(s)
    ensures |Contents(s).Keys - {self}| == |s| - if self in Contents(s) then 1 else 0
  {
    SizeIsKeyCount(s);
    if self !in Contents(s) {
      assert Contents(s).Keys - {self} == Contents(s).Keys;
    }
  }

  // ----- What is sent -----

  lemma Associates(a: seq<Envelope>, b: seq<Envelope>, c: seq<Envelope>)
    ensures a + b + c == a + (b + c)
  {
  }

  /** A request to ping `other`, sent to a live server that is neither `other` nor the sender. */
  ghost predicate RequestAbout(n: Node, other: Server, e: Envelope) {
    && e == Post(n, e.dest, StatusRequest(other))
    && e.dest in n.alive && e.dest != other && e.dest != n.self
  }

  /** A server just reported as suspected is not alive, unless it is the reporting server itself. */
  lemma SuspectIsNotAlive(n: Node, other: Server, now: nat)
    requires Inv(n)
    ensures other == n.self || other !in ReportSuspected(n, other, now).alive
  {
  }

  ghost function Dests(es: seq<Envelope>): set<Server> {
    set e | e in es :: e.dest
  }

  /** One request to ping `other` to each of the given servers. */
  ghost predicate Asked(n: Node, other: Server, forwards: set<Server>, es: seq<Envelope>) {
    && |es| == |forwards| && Dests(es) == forwards
    && (forall i :: 0 <= i < |es| ==> RequestAbout(n, other, es[i]))
    && (forall i, j :: 0 <= i < j < |es| ==> es[i].dest != es[j].dest)
  }

  lemma AskedInOrder(n: Node, other: Server, forwards: set<Server>, list: seq<Server>, es: seq<Envelope>)
    requires Distinct(list) && Elements(list) == forwards && |es| == |list|
    requires other !in forwards && n.self !in forwards && forwards <= n.alive.Keys
    requires forall j :: 0 <= j < |es| ==> es[j] == Post(n, list[j], StatusRequest(other))
    ensures Asked(n, other, forwards, es)
  {
    DistinctSize(list);
    forall x ensures x in Dests(es) <==> x in forwards {
      if x in forwards {
        var j :| 0 <= j < |list| && list[j] == x;
        assert es[j] in es && es[j].dest == x;
      }
    }
    forall j | 0 <= j < |es| ensures RequestAbout(n, other, es[j]) {
      assert list[j] in Elements(list);
    }
  }

  /** Requests to ping `other`, one to each of the next `k` neighbors on the ring. */
  ghost predicate Requests(n: Node, other: Server, k: nat, index: nat, es: seq<Envelope>, index': nat) {
    && Asked(n, other, Dests(es), es) && |es| == Min(k, |n.alive.Keys - {n.self}|)
    && PickedFrom(n.alive, n.self, index, k, Dests(es), index')
  }

  lemma AskedNext(s: seq<Record>, n: Node, other: Server, k: nat, index: nat, forwards: set<Server>, es: seq<Envelope>,
                  index': nat)
    requires Sorted(s) && Contents(s) == n.alive && Asked(n, other, forwards, es)
    requires Picked(s, n.self, RingPlace(s, n.self, index), Min(k, |s|), forwards, index')
    requires |forwards| == Min(k, |s| - if n.self in n.alive then 1 else 0)
    ensures Requests(n, other, k, index, es, index')
  {
    OthersCount(s, n.self);
    PickedFromSet(s, n.self, index, k, forwards, index');
  }

  /** The report, and if the neighbor stays silent the requests to ping it. */
  ghost predicate ContactSends(n: Node, report: Report, other: Server, replied: bool, now: nat, k: nat,
                               index: nat, es: seq<Envelope>, index': nat)
  {
    && es != [] && es[0] == Post(n, other, StatusReport(report))
    && if replied then |es| == 1 && index' == index
       else Requests(ReportSuspected(n, other, now), other, k, index, es[1..], index')
  }

  /** One contact of a round: the neighbor, what was sent on its account, and the index afterwards. */
  datatype Sending = Sending(other: Server, sent: seq<Envelope>, index: nat)

  ghost function Others(trace: seq<Sending>): seq<Server> {
    seq(|trace|, i requires 0 <= i < |trace| => trace[i].other)
  }

  ghost function Flat(trace: seq<Sending>): seq<Envelope> {
    if trace == [] then [] else Flat(trace[..|trace| - 1]) + trace[|trace| - 1].sent
  }

  ghost function IndexAfter(index: nat, trace: seq<Sending>): nat {
    if trace == [] then index else trace[|trace| - 1].index
  }

  /** After the contacts `before`, the next one sends what it should. */
  ghost predicate RoundStep(n: Node, report: Report, replies: set<Server>, now: nat, k: nat, index: nat,
                            before: seq<Sending>, next: Sending)
  {
    ContactSends(AllNoted(n, Others(before), replies, now), report, next.other, next.other in replies, now, k,
                 IndexAfter(index, before), next.sent, next.index)
  }

  /** One contact after the other, each with what the ones before have left. */
  ghost predicate Round(n: Node, report: Report, replies: set<Server>, now: nat, k: nat, index: nat, trace: seq<Sending>) {
    if trace == [] then true
    else
      var init, last := trace[..|trace| - 1], trace[|trace| - 1];
      Round(n, report, replies, now, k, index, init) && RoundStep(n, report, replies, now, k, index, init, last)
  }

  lemma OthersAppended(trace: seq<Sending>, last: Sending)
    ensures Others(trace + [last]) == Others(trace) + [last.other]
  {
    var others, others' := Others(trace + [last]), Others(trace) + [last.other];
    forall i | 0 <= i < |others| ensures others[i] == others'[i] {
      if i < |trace| {
        assert (trace + [last])[i] == trace[i];
      }
    }
  }

  lemma TraceAppended(trace: seq<Sending>, last: Sending)
    ensures (trace + [last])[..|trace|] == trace
    ensures Others(trace + [last]) == Others(trace) + [last.other] && Flat(trace + [last]) == Flat(trace) + last.sent
  {
    OthersAppended(trace, last);
    assert (trace + [last])[..|trace|] == trace;
  }

  lemma OneSendingMore(n: Node, report: Report, replies: set<Server>, now: nat, k: nat, index: nat,
                       trace: seq<Sending>, last: Sending)
    requires Round(n, report, replies, now, k, index, trace)
    requires RoundStep(n, report, replies, now, k, index, trace, last)
    ensures Round(n, report, replies, now, k, index, trace + [last])
  {
    TraceAppended(trace, last);
  }

  lemma StepKeepsIndex(n: Node, report: Report, replies: set<Server>, now: nat, k: nat, index: nat,
                       before: seq<Sending>, next: Sending)
    requires RoundStep(n, report, replies, now, k, index, before, next) && next.other in replies
    ensures next.index == IndexAfter(index, before)
  {
  }

  /** If everybody replies the round leaves the index where the picks have left it. */
  lemma {:induction false} AllReply(n: Node, report: Report, replies: set<Server>, now: nat, k: nat, index: nat,
                                    trace: seq<Sending>)
    requires Round(n, report, replies, now, k, index, trace)
    requires forall i :: 0 <= i < |trace| ==> trace[i].other in replies
    ensures IndexAfter(index, trace) == index
  {
    if trace == [] {
    } else {
      var init, last := trace[..|trace| - 1], trace[|trace| - 1];
      AllReply(n, report, replies, now, k, index, init);
      StepKeepsIndex(n, report, replies, now, k, index, init, last);
    }
  }

  /** The positions of the reports to `x`. */
  ghost function ReportsTo(es: seq<Envelope>, x: Server): set<nat> {
    set i: nat | i < |es| && es[i].payload.StatusReport? && es[i].dest == x
  }

  ghost predicate OneReportEach(es: seq<Envelope>, contacts: set<Server>) {
    forall x :: |ReportsTo(es, x)| == if x in contacts then 1 else 0
  }

  /** The envelope is the report to a contact, or a request to a live server to ping a silent contact. */
  ghost predicate BelongsToRound(n: Node, report: Report, contacts: set<Server>, replies: set<Server>, e: Envelope) {
    || (e.dest in contacts && e == Post(n, e.dest, StatusReport(report)))
    || exists c :: c in contacts && c !in replies && e == Post(n, e.dest, StatusRequest(c)) &&
                   e.dest in n.alive && e.dest != c && e.dest != n.self
  }

  lemma OneReportMore(es: seq<Envelope>, sent: seq<Envelope>, x: Server)
    requires sent != [] && sent[0].payload.StatusReport?
    requires forall i :: 0 < i < |sent| ==> !sent[i].payload.StatusReport?
    ensures |ReportsTo(es + sent, x)| == |ReportsTo(es, x)| + if sent[0].dest == x then 1 else 0
  {
    assert ReportsTo(es + sent, x) == ReportsTo(es, x) + if sent[0].dest == x then {|es|} else {};
  }

  lemma SentAtContact(n: Node, report: Report, other: Server, replied: bool, now: nat, k: nat,
                      index: nat, es: seq<Envelope>, index': nat)
    requires ContactSends(n, report, other, replied, now, k, index, es, index')
    ensures es[0].payload.StatusReport? && es[0].dest == other
    ensures forall i :: 0 < i < |es| ==> !replied && RequestAbout(ReportSuspected(n, other, now), other, es[i])
  {
    forall i | 0 < i < |es| ensures !replied && RequestAbout(ReportSuspected(n, other, now), other, es[i]) {
      assert es[i] == es[1..][i - 1];
    }
  }

  lemma OthersPrefix(trace: seq<Sending>, i: nat)
    requires i <= |trace|
    ensures Others(trace[..i]) == Others(trace)[..i]
  {
  }

  /** Each contact of a round sends what it should, given what the contacts before it have left. */
  lemma {:induction false} RoundAt(n: Node, report: Report, replies: set<Server>, now: nat, k: nat, index: nat,
                                   trace: seq<Sending>, i: nat)
    requires Round(n, report, replies, now, k, index, trace) && i < |trace|
    ensures RoundStep(n, report, replies, now, k, index, trace[..i], trace[i])
  {
    if i == |trace| - 1 {
    } else {
      var init := trace[..|trace| - 1];
      assert init[..i] == trace[..i] && init[i] == trace[i];
      RoundAt(n, report, replies, now, k, index, init, i);
    }
  }

  /** What is sent on account of a contact begins with the report to it, and holds no other report. */
  ghost predicate ReportFirst(s: Sending) {
    && s.sent != [] && s.sent[0].payload.StatusReport? && s.sent[0].dest == s.other
    && forall i :: 0 < i < |s.sent| ==> !s.sent[i].payload.StatusReport?
  }

  lemma DistinctPrefix(others: seq<Server>, other: Server)
    requires Distinct(others + [other])
    ensures Distinct(others) && other !in others
  {
    var all := others + [other];
    forall i, j | 0 <= i < j < |others| ensures others[i] != others[j] {
      assert all[i] == others[i] && all[j] == others[j];
    }
    forall i | 0 <= i < |others| ensures others[i] != other {
      assert all[i] == others[i] && all[|others|] == other;
    }
  }

  lemma {:induction false} ReportCount(trace: seq<Sending>, x: Server)
    requires Distinct(Others(trace)) && forall i :: 0 <= i < |trace| ==> ReportFirst(trace[i])
    ensures |ReportsTo(Flat(trace), x)| == if x in Others(trace) then 1 else 0
  {
    if trace == [] {
    } else {
      var init, last := trace[..|trace| - 1], trace[|trace| - 1];
      assert trace == init + [last];
      TraceAppended(init, last);
      DistinctPrefix(Others(init), last.other);
      ReportCount(init, x);
      assert ReportFirst(last);
      OneReportMore(Flat(init), last.sent, x);
    }
  }

  /** A round sends exactly one report to each contact. */
  lemma RoundReports(n: Node, report: Report, replies: set<Server>, now: nat, k: nat, index: nat, trace: seq<Sending>)
    requires Round(n, report, replies, now, k, index, trace) && Distinct(Others(trace))
    ensures OneReportEach(Flat(trace), Elements(Others(trace)))
  {
    forall i | 0 <= i < |trace| ensures ReportFirst(trace[i]) {
      RoundAt(n, report, replies, now, k, index, trace, i);
      var n', next := AllNoted(n, Others(trace[..i]), replies, now), trace[i];
      SentAtContact(n', report, next.other, next.other in replies, now, k,
                    IndexAfter(index, trace[..i]), next.sent, next.index);
    }
    forall x ensures |ReportsTo(Flat(trace), x)| == if x in Elements(Others(trace)) then 1 else 0 {
      ReportCount(trace, x);
    }
  }

  lemma StillBelongs(n: Node, report: Report, contacts: set<Server>, more: set<Server>, replies: set<Server>, e: Envelope)
    requires BelongsToRound(n, report, contacts, replies, e) && contacts <= more
    ensures BelongsToRound(n, report, more, replies, e)
  {
  }

  lemma ContactEnvelopes(n: Node, n': Node, report: Report, s: Sending, replies: set<Server>, now: nat, e: Envelope)
    requires n'.self == n.self && n'.clock == n.clock && n'.alive.Keys <= n.alive.Keys && s.other != n.self
    requires s.sent != [] && s.sent[0] == Post(n', s.other, StatusReport(report)) && e in s.sent
    requires forall i :: 0 < i < |s.sent| ==>
      s.other !in replies && RequestAbout(ReportSuspected(n', s.other, now), s.other, s.sent[i])
    ensures BelongsToRound(n, report, {s.other}, replies, e)
  {
    var i :| 0 <= i < |s.sent| && s.sent[i] == e;
    assert ReportSuspected(n', s.other, now).alive.Keys <= n'.alive.Keys;
  }

  lemma StepEnvelopes(n: Node, report: Report, replies: set<Server>, now: nat, k: nat, index: nat,
                      before: seq<Sending>, next: Sending, e: Envelope)
    requires Inv(n) && Distinct(Others(before)) && Contactable(n, Elements(Others(before)))
    requires RoundStep(n, report, replies, now, k, index, before, next) && e in next.sent && next.other != n.self
    ensures BelongsToRound(n, report, {next.other}, replies, e)
  {
    var n' := AllNoted(n, Others(before), replies, now);
    AllNotedKeys(n, Others(before), replies, now);
    AllNotedRecords(n, Others(before), replies, now, n.self);
    SentAtContact(n', report, next.other, next.other in replies, now, k, IndexAfter(index, before), next.sent, next.index);
    ContactEnvelopes(n, n', report, next, replies, now, e);
  }

  lemma {:induction false} FlatMember(trace: seq<Sending>, e: Envelope) returns (i: nat)
    requires e in Flat(trace)
    ensures i < |trace| && e in trace[i].sent
  {
    if trace == [] {
      assert false;
    } else if e in trace[|trace| - 1].sent {
      i := |trace| - 1;
    } else {
      i := FlatMember(trace[..|trace| - 1], e);
    }
  }

  lemma OthersBefore(trace: seq<Sending>, i: nat)
    requires i < |trace| && Distinct(Others(trace))
    ensures trace[i].other in Elements(Others(trace)) && Distinct(Others(trace[..i]))
    ensures Elements(Others(trace[..i])) <= Elements(Others(trace))
  {
    OthersPrefix(trace, i);
    assert Others(trace)[i] == trace[i].other;
  }

  /** And nothing but those reports, and requests to ping the contacts that stayed silent. */
  lemma RoundEnvelopes(n: Node, report: Report, replies: set<Server>, now: nat, k: nat, index: nat,
                       trace: seq<Sending>, e: Envelope)
    requires Inv(n) && Distinct(Others(trace)) && Contactable(n, Elements(Others(trace)))
    requires Round(n, report, replies, now, k, index, trace) && e in Flat(trace)
    ensures BelongsToRound(n, report, Elements(Others(trace)), replies, e)
  {
    var i := FlatMember(trace, e);
    OthersBefore(trace, i);
    RoundAt(n, report, replies, now, k, index, trace, i);
    StepEnvelopes(n, report, replies, now, k, index, trace[..i], trace[i], e);
    StillBelongs(n, report, {trace[i].other}, Elements(Others(trace)), replies, e);
  }

  // ----- Series of rounds -----

  lemma SameKeysSameNames(s: seq<Record>, s': seq<Record>)
    requires Sorted(s) && Sorted(s') && Contents(s).Keys == Contents(s').Keys
    ensures |s| == |s'| && forall i :: 0 <= i < |s| ==> s[i].server == s'[i].server
  {
    SizeIsKeyCount(s);
    SizeIsKeyCount(s');
    assert |Contents(s).Keys| == |Contents(s')|;
    forall i | 0 <= i < |s| ensures s[i].server == s'[i].server {
      RankIsPosition(s, i);
      RankIsPosition(s', i);
      EachKeyAtOneIndex(Contents(s).Keys, s[i].server, s'[i].server);
    }
  }

  lemma {:induction false} SameNamesSameRing(s: seq<Record>, s': seq<Record>, self: Server)
    requires |s| == |s'| && forall i :: 0 <= i < |s| ==> s[i].server == s'[i].server
    ensures Ring(s, self) == Ring(s', self)
  {
    if s == [] {
    } else {
      SameNamesSameRing(s[..|s| - 1], s'[..|s'| - 1], self);
    }
  }

  lemma SameKeysSamePicks(s: seq<Record>, s': seq<Record>, self: Server, index: nat, n: nat, others: set<Server>,
                          index': nat)
    requires Sorted(s) && Sorted(s') && Contents(s).Keys == Contents(s').Keys
    ensures |s| == |s'| && RingPlace(s, self, index) == RingPlace(s', self, index)
    ensures var p := RingPlace(s, self, index);
      Picked(s, self, p, n, others, index') <==> Picked(s', self, p, n, others, index')
  {
    SameKeysSameNames(s, s');
    SameNamesSameRing(s, s', self);
    SamePlaces(s, s', self, index);
    SamePlaces(s, s', self, index');
  }

  lemma SamePlaces(s: seq<Record>, s': seq<Record>, self: Server, index: nat)
    requires |s| == |s'| && forall i :: 0 <= i < |s| ==> s[i].server == s'[i].server
    ensures RingPlace(s, self, index) == RingPlace(s', self, index)
  {
    var i := if index < |s| then index else 0;
    SameNamesSameRing(s, s', self);
    SameNamesSameRing(s[..i], s'[..i], self);
  }

  /** Rounds one after the other that leave the same servers alive, as rounds do in which everybody replies. */
  ghost predicate RoundSeries(ms: seq<map<Server, Record>>, self: Server, k: nat, indexes: seq<nat>,
                              contacts: seq<set<Server>>)
  {
    && ms != [] && |indexes| == |ms| + 1 && |contacts| == |ms|
    && forall i :: 0 <= i < |ms| ==>
         ms[i].Keys == ms[0].Keys && PickedFrom(ms[i], self, indexes[i], k, contacts[i], indexes[i + 1])
  }

  ghost function Repeated(n: nat, times: nat): seq<nat> {
    if times == 0 then [] else Repeated(n, times - 1) + [n]
  }

  lemma {:induction false} RepeatedItems(n: nat, times: nat)
    ensures |Repeated(n, times)| == times && forall i :: 0 <= i < times ==> Repeated(n, times)[i] == n
  {
    if times == 0 {
    } else {
      RepeatedItems(n, times - 1);
    }
  }

  lemma {:induction false} RepeatedTotal(n: nat, times: nat)
    ensures Total(Repeated(n, times)) == times * n
  {
    if times == 0 {
    } else {
      RepeatedTotal(n, times - 1);
      TotalAppended(Repeated(n, times - 1), n);
      assert times * n == (times - 1) * n + n;
    }
  }

  /** Such rounds are one series of calls. */
  lemma RoundsAreSeries(ms: seq<map<Server, Record>>, self: Server, k: nat, indexes: seq<nat>, contacts: seq<set<Server>>)
    returns (s: seq<Record>)
    requires RoundSeries(ms, self, k, indexes, contacts)
    ensures Sorted(s) && Contents(s) == ms[0] && CallSeries(s, self, Repeated(Min(k, |s|), |ms|), indexes, contacts)
  {
    assert PickedFrom(ms[0], self, indexes[0], k, contacts[0], indexes[1]);
    s :| Sorted(s) && Contents(s) == ms[0]
      && Picked(s, self, RingPlace(s, self, indexes[0]), Min(k, |s|), contacts[0], indexes[1]);
    var n := Min(k, |s|);
    RepeatedItems(n, |ms|);
    forall i | 0 <= i < |ms| ensures Picked(s, self, RingPlace(s, self, indexes[i]), n, contacts[i], indexes[i + 1]) {
      assert PickedFrom(ms[i], self, indexes[i], k, contacts[i], indexes[i + 1]);
      var s' :| Sorted(s') && Contents(s') == ms[i]
        && Picked(s', self, RingPlace(s', self, indexes[i]), Min(k, |s'|), contacts[i], indexes[i + 1]);
      SameKeysSamePicks(s, s', self, indexes[i], n, contacts[i], indexes[i + 1]);
    }
  }

  lemma {:induction false} AppearsSomewhere(results: seq<set<Server>>, x: Server) returns (i: nat)
    requires x in Appearances(results)
    ensures i < |results| && x in results[i]
  {
    if results == [] {
      assert false;
    } else if x in results[|results| - 1] {
      i := |results| - 1;
    } else {
      i := AppearsSomewhere(results[..|results| - 1], x);
    }
  }

  lemma RingIsOthers(s: seq<Record>, self: Server)
    requires Sorted(s)
    ensures |Ring(s, self)| == |Contents(s).Keys - {self}|
    ensures forall x :: x in Ring(s, self) <==> x in Contents(s) && x != self
  {
    NamesAreKeys(s);
    RingMembers(s, self);
    OthersCount(s, self);
  }

  /** Enough rounds contact everybody: as many picks as there are other servers. */
  lemma RoundsReachAll(ms: seq<map<Server, Record>>, self: Server, k: nat, indexes: seq<nat>, contacts: seq<set<Server>>,
                       x: Server)
    returns (i: nat)
    requires RoundSeries(ms, self, k, indexes, contacts) && x in ms[0] && x != self
    requires |ms| * Min(k, |ms[0]|) >= |ms[0].Keys - {self}|
    ensures i < |contacts| && x in contacts[i]
  {
    var s := RoundsAreSeries(ms, self, k, indexes, contacts);
    SizeIsKeyCount(s);
    RingIsOthers(s, self);
    RepeatedTotal(Min(k, |s|), |ms|);
    SeriesReachesAll(s, self, Repeated(Min(k, |s|), |ms|), indexes, contacts, x);
    i := AppearsSomewhere(contacts, x);
  }

  /** Rounds that contact at most all others contact any two servers equally often, give or take one. */
  lemma RoundsAreFair(ms: seq<map<Server, Record>>, self: Server, k: nat, indexes: seq<nat>, contacts: seq<set<Server>>,
                      x: Server, y: Server)
    requires RoundSeries(ms, self, k, indexes, contacts) && x in ms[0] && x != self && y in ms[0] && y != self
    requires k <= |ms[0].Keys - {self}|
    ensures Appearances(contacts)[x] <= Appearances(contacts)[y] + 1
  {
    var s := RoundsAreSeries(ms, self, k, indexes, contacts);
    RingIsOthers(s, self);
    RepeatedItems(Min(k, |s|), |ms|);
    SeriesIsFair(s, self, Repeated(Min(k, |s|), |ms|), indexes, contacts, x, y);
  }

  // ----- A whole round -----

  /** Who replied has been seen, who stayed silent has been suspected, and nothing else has changed. */
  ghost predicate RoundConcludes(n: Node, n': Node, contacts: set<Server>, replies: set<Server>, now: nat) {
    && n'.self == n.self && n'.clock == n.clock
    && forall x :: Concluded(n, n', x in contacts, x in replies, now, x)
  }

  /** What has been sent is one report to each contact, and requests to ping the silent ones. */
  ghost predicate RoundSends(n: Node, report: Report, contacts: set<Server>, replies: set<Server>, es: seq<Envelope>) {
    && OneReportEach(es, contacts)
    && forall e :: e in es ==> BelongsToRound(n, report, contacts, replies, e)
  }

  /** A round in which the contacts come in any order has these effects. */
  lemma RoundEffects(n: Node, report: Report, replies: set<Server>, now: nat, k: nat, index: nat, trace: seq<Sending>)
    requires Inv(n) && Distinct(Others(trace)) && Contactable(n, Elements(Others(trace)))
    requires Round(n, report, replies, now, k, index, trace)
    ensures RoundConcludes(n, AllNoted(n, Others(trace), replies, now), Elements(Others(trace)), replies, now)
    ensures RoundSends(n, report, Elements(Others(trace)), replies, Flat(trace))
    ensures Elements(Others(trace)) <= replies ==> IndexAfter(index, trace) == index
  {
    RoundIsNoted(n, Others(trace), replies, now);
    RoundReports(n, report, replies, now, k, index, trace);
    forall e | e in Flat(trace) ensures BelongsToRound(n, report, Elements(Others(trace)), replies, e) {
      RoundEnvelopes(n, report, replies, now, k, index, trace, e);
    }
    if Elements(Others(trace)) <= replies {
      forall i | 0 <= i < |trace| ensures trace[i].other in replies {
        assert Others(trace)[i] == trace[i].other && Others(trace)[i] in Elements(Others(trace));
      }
      AllReply(n, report, replies, now, k, index, trace);
    }
  }

  lemma RoundIsNoted(n: Node, done: seq<Server>, replies: set<Server>, now: nat)
    requires Inv(n) && Distinct(done) && Contactable(n, Elements(done))
    ensures RoundConcludes(n, AllNoted(n, done, replies, now), Elements(done), replies, now)
  {
    var n' := AllNoted(n, done, replies, now);
    AllNotedKeys(n, done, replies, now);
    AllNotedRecords(n, done, replies, now, n.self);
    forall x ensures Concluded(n, n', x in Elements(done), x in replies, now, x) {
      AllNotedRecords(n, done, replies, now, x);
    }
  }

  /**
   A full round from `n` to `n'`, in which the index moves from `index` to `index'`.  The contacts are the
   next `reports` neighbors on the ring, or all, after which `next` would be picked.  Each gets the
   report once.  Those that stay silent become suspects, and the next `forwards` neighbors, or all,
   are asked to ping each of them.
   */
  ghost predicate FullRound(n: Node, n': Node, index: nat, index': nat, reports: nat, forwards: nat, report: Report,
                            contacts: set<Server>, replies: set<Server>, now: nat, next: nat, trace: seq<Sending>)
  {
    && Contactable(n, contacts) && |contacts| == Min(reports, |n.alive.Keys - {n.self}|)
    && PickedFrom(n.alive, n.self, index, reports, contacts, next)
    && Distinct(Others(trace)) && Elements(Others(trace)) == contacts && index' == IndexAfter(next, trace)
    && Round(n, report, replies, now, forwards, next, trace)
    && RoundConcludes(n, n', contacts, replies, now)
    && RoundSends(n, report, contacts, replies, Flat(trace))
    && (contacts <= replies ==> index' == next)
    && n'.alive.Keys == n.alive.Keys - (contacts - replies)
    && n'.suspected.Keys == n.suspected.Keys + (contacts - replies)
  }

  lemma WholeRound(n: Node, index: nat, reports: nat, forwards: nat, report: Report, contacts: set<Server>,
                   replies: set<Server>, now: nat, next: nat, trace: seq<Sending>)
    requires Inv(n) && Contactable(n, contacts) && |contacts| == Min(reports, |n.alive.Keys - {n.self}|)
    requires PickedFrom(n.alive, n.self, index, reports, contacts, next)
    requires Distinct(Others(trace)) && Elements(Others(trace)) == contacts
    requires Round(n, report, replies, now, forwards, next, trace)
    ensures FullRound(n, AllNoted(n, Others(trace), replies, now), index, IndexAfter(next, trace), reports, forwards,
                      report, contacts, replies, now, next, trace)
    ensures Listener.Mirrored(n) ==> Listener.Mirrored(AllNoted(n, Others(trace), replies, now))
  {
    RoundEffects(n, report, replies, now, forwards, next, trace);
    AllNotedKeys(n, Others(trace), replies, now);
    if Listener.Mirrored(n) {
      AllNotedMirrored(n, Others(trace), replies, now);
    }
  }

  /** A server without neighbors contacts nobody. */
  lemma NobodyToContact(n: Node, index: nat, reports: nat, forwards: nat, report: Report, replies: set<Server>, now: nat)
    requires Inv(n) && n.alive == map[]
    ensures FullRound(n, n, index, index, reports, forwards, report, {}, replies, now, index, []) && Flat([]) == []
  {
    var s: seq<Record> := [];
    EmptyContents(s);
    assert Picked(s, n.self, RingPlace(s, n.self, index), Min(reports, |s|), {}, index);
    PickedFromSet(s, n.self, index, reports, {}, index);
    assert n.alive.Keys - {n.self} == {} && Others([]) == [];
    assert forall x :: ReportsTo([], x) == {};
  }
}
