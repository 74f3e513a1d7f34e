/**
 What one call of a `SwimServer` does to its membership, as functions on values.

 A `Node` is the part of a server the protocol reads and writes: the two record
 sets, the Lamport clock and the calls made to the status listener.  The class
 in `GossipServer.dfy` is proved to compute these functions.
 */
module Membership {
  import opened SwimTypes

  datatype Node = Node(
    self: Server,
    alive: map<Server, Record>,
    suspected: map<Server, Record>,
    clock: nat,
    log: seq<Event>)

  function NewNode(self: Server): Node {
    Node(self, map[], map[], 0, [])
  }

  function UpdateLamportTime(n: Node, time: nat): Node {
    n.(clock := Max(n.clock, time) + 1)
  }

  function RemoveSuspected(n: Node, s: Server, evicted: bool): Node {
    n.(suspected := n.suspected - {s},
       log := if evicted && s in n.suspected then n.log + [Event(s, Removed)] else n.log)
  }

  /** The record `AddAlive` leaves for `s`: a fresh one, or the old one with new times. */
  function AliveRecord(n: Node, s: Server, timestamp: nat): Record {
    if s in n.alive then n.alive[s].(timestamp := timestamp, lamport := n.clock)
    else Record(s, 0, timestamp, n.clock)
  }

  function AddAlive(n: Node, s: Server, timestamp: nat): Node {
    if s.port == 0 then n
    else
      n.(suspected := n.suspected - {s},
         alive := n.alive[s := AliveRecord(n, s, timestamp)],
         log := if s in n.alive then n.log else n.log + [Event(s, Alive)])
  }

  function ReportSuspected(n: Node, s: Server, timestamp: nat): Node {
    if s.port == 0 then n
    else if s == n.self then AddAlive(n, s, timestamp)
    else if s in n.suspected then n.(alive := n.alive - {s})
    else
      n.(alive := n.alive - {s},
         suspected := n.suspected[s := Record(s, 0, timestamp, n.clock)],
         log := n.log + [Event(s, Suspect)])
  }

  function OnUpdate(n: Node, client: Server, now: nat): Node {
    var n' := AddAlive(n, client, now);
    n'.(suspected := n'.suspected - {client})
  }

  /** `m` with the incarnation of `r`'s server raised to `r`'s, if that is higher. */
  function Raise(m: map<Server, Record>, r: Record): map<Server, Record> {
    if r.server in m && m[r.server].incarnation < r.incarnation
    then m[r.server := m[r.server].(incarnation := r.incarnation)]
    else m
  }

  /** The server was suspected after it was reported healthy. */
  predicate StaleAlive(n: Node, r: Record) {
    r.server in n.suspected && n.suspected[r.server].lamport > r.lamport
  }

  /** The server was reported healthy after it was suspected. */
  predicate StaleSuspect(n: Node, r: Record) {
    r.server in n.alive && n.alive[r.server].lamport > r.lamport
  }

  /** One iteration over the alive list of a report. */
  function AliveEntry(n: Node, r: Record): Node {
    if r.server == n.self || StaleAlive(n, r) then n
    else
      var n' := AddAlive(n, r.server, r.timestamp);
      n'.(alive := Raise(n'.alive, r))
  }

  /** One iteration over the suspected list of a report. */
  function SuspectEntry(n: Node, r: Record): Node {
    if r.server == n.self || StaleSuspect(n, r) then n
    else
      var n' := ReportSuspected(n, r.server, r.timestamp);
      n'.(suspected := Raise(n'.suspected, r))
  }

  function AliveLoop(n: Node, rs: seq<Record>): Node {
    if rs == [] then n else AliveEntry(AliveLoop(n, rs[..|rs| - 1]), rs[|rs| - 1])
  }

  function SuspectLoop(n: Node, rs: seq<Record>): Node {
    if rs == [] then n else SuspectEntry(SuspectLoop(n, rs[..|rs| - 1]), rs[|rs| - 1])
  }

  function OnReport(n: Node, sender: Server, report: Report, now: nat): Node {
    SuspectLoop(AliveLoop(AddAlive(n, sender, now), report.alive), report.suspected)
  }

  /** The pings by which a server denies being down, one for each entry that suspects it. */
  function Denials(n: Node, report: Report, rs: seq<Record>): seq<Envelope> {
    if rs == [] then []
    else
      Denials(n, report, rs[..|rs| - 1]) +
      if rs[|rs| - 1].server == n.self then [Post(n, report.sender, StatusUpdate)] else []
  }

  /** The envelope a client sends that was created when the clock of its server read `time`. */
  function PostAt(self: Server, time: nat, dest: Server, payload: Payload): Envelope {
    Envelope(self, dest, time + 1, payload)
  }

  /** The same for a client created and used at once. */
  function Post(n: Node, dest: Server, payload: Payload): Envelope {
    PostAt(n.self, n.clock, dest, payload)
  }

  /** The report a forwarder sends to the suspect, on behalf of `requestor`. */
  function ForwardedReport(requestor: Server, suspect: Server, timestamp: nat): Report {
    Report(requestor, [], [Record(suspect, 0, timestamp, 0)])
  }

  /** The report comes in the name of `requestor` and has one thing to say: that `suspect` is suspected. */
  ghost predicate OnlyAccuses(report: Report, requestor: Server, suspect: Server) {
    && report.sender == requestor && report.alive == []
    && |report.suspected| == 1 && report.suspected[0].server == suspect
    && report.suspected[0].incarnation == 0 && report.suspected[0].lamport == 0
  }

  /** The message dispatch of the listening loop. */
  function Deliver(n: Node, e: Envelope, now: nat): Node {
    match e.payload
    case StatusUpdate => OnUpdate(UpdateLamportTime(n, e.lamport), e.sender, now)
    case StatusReport(report) => OnReport(UpdateLamportTime(n, e.lamport), e.sender, report, now)
    case StatusRequest(_) => AddAlive(UpdateLamportTime(n, e.lamport), e.sender, now)
    case Unrecognized => n
  }

  // ----- The invariant every call keeps -----

  ghost predicate Keyed(m: map<Server, Record>, clock: nat) {
    forall k :: k in m ==> m[k].server == k && k.port != 0 && m[k].lamport <= clock
  }

  ghost predicate Inv(n: Node) {
    && Keyed(n.alive, n.clock)
    && Keyed(n.suspected, n.clock)
    && n.self !in n.suspected
    && n.alive.Keys !! n.suspected.Keys
  }

  /** Nothing changed for `k`. */
  ghost predicate SameAt(n: Node, n': Node, k: Server) {
    && (k in n.alive <==> k in n'.alive)
    && (k in n.alive ==> n'.alive[k] == n.alive[k])
    && (k in n.suspected <==> k in n'.suspected)
    && (k in n.suspected ==> n'.suspected[k] == n.suspected[k])
  }

  /** The calls of one server leave its identity and its clock alone. */
  ghost predicate SameFrame(n: Node, n': Node) {
    n'.self == n.self && n'.clock == n.clock
  }

  lemma AddAliveKeepsInv(n: Node, s: Server, timestamp: nat)
    requires Inv(n)
    ensures Inv(AddAlive(n, s, timestamp)) && SameFrame(n, AddAlive(n, s, timestamp))
  {
  }

  lemma ReportSuspectedKeepsInv(n: Node, s: Server, timestamp: nat)
    requires Inv(n)
    ensures Inv(ReportSuspected(n, s, timestamp)) && SameFrame(n, ReportSuspected(n, s, timestamp))
  {
  }

  lemma RemoveSuspectedKeepsInv(n: Node, s: Server, evicted: bool)
    requires Inv(n)
    ensures Inv(RemoveSuspected(n, s, evicted)) && SameFrame(n, RemoveSuspected(n, s, evicted))
  {
  }

  lemma AliveEntryKeepsInv(n: Node, r: Record)
    requires Inv(n)
    ensures Inv(AliveEntry(n, r)) && SameFrame(n, AliveEntry(n, r))
  {
    AddAliveKeepsInv(n, r.server, r.timestamp);
  }

  lemma SuspectEntryKeepsInv(n: Node, r: Record)
    requires Inv(n)
    ensures Inv(SuspectEntry(n, r)) && SameFrame(n, SuspectEntry(n, r))
  {
    ReportSuspectedKeepsInv(n, r.server, r.timestamp);
  }

  lemma {:induction false} AliveLoopKeepsInv(n: Node, rs: seq<Record>)
    requires Inv(n)
    ensures Inv(AliveLoop(n, rs)) && SameFrame(n, AliveLoop(n, rs))
  {
    if rs == [] {
    } else {
      AliveLoopKeepsInv(n, rs[..|rs| - 1]);
      AliveEntryKeepsInv(AliveLoop(n, rs[..|rs| - 1]), rs[|rs| - 1]);
    }
  }

  lemma {:induction false} SuspectLoopKeepsInv(n: Node, rs: seq<Record>)
    requires Inv(n)
    ensures Inv(SuspectLoop(n, rs)) && SameFrame(n, SuspectLoop(n, rs))
  {
    if rs == [] {
    } else {
      SuspectLoopKeepsInv(n, rs[..|rs| - 1]);
      SuspectEntryKeepsInv(SuspectLoop(n, rs[..|rs| - 1]), rs[|rs| - 1]);
    }
  }

  lemma OnReportKeepsInv(n: Node, sender: Server, report: Report, now: nat)
    requires Inv(n)
    ensures Inv(OnReport(n, sender, report, now)) && SameFrame(n, OnReport(n, sender, report, now))
  {
    AddAliveKeepsInv(n, sender, now);
    AliveLoopKeepsInv(AddAlive(n, sender, now), report.alive);
    SuspectLoopKeepsInv(AliveLoop(AddAlive(n, sender, now), report.alive), report.suspected);
  }

  /** Whatever arrives, the invariant holds afterwards and the clock has not gone back. */
  lemma DeliverKeepsInv(n: Node, e: Envelope, now: nat)
    requires Inv(n)
    ensures Inv(Deliver(n, e, now)) && Deliver(n, e, now).self == n.self
    ensures Deliver(n, e, now).clock == if e.payload.Unrecognized? then n.clock else Max(n.clock, e.lamport) + 1
  {
    var t := UpdateLamportTime(n, e.lamport);
    assert Inv(t);
    AddAliveKeepsInv(t, e.sender, now);
    if e.payload.StatusReport? {
      OnReportKeepsInv(t, e.sender, e.payload.report, now);
    }
  }

  /** The erase that follows `AddAlive` in `OnUpdate` finds nothing to remove. */
  lemma OnUpdateIsAddAlive(n: Node, client: Server, now: nat)
    requires Inv(n)
    ensures client !in AddAlive(n, client, now).suspected
    ensures OnUpdate(n, client, now) == AddAlive(n, client, now)
  {
  }

  // ----- What a call leaves behind -----

  ghost function Lookup(m: map<Server, Record>, k: Server): Option<Record> {
    if k in m then Some(m[k]) else None
  }

  ghost function KnownIncarnation(m: map<Server, Record>, k: Server): nat {
    if k in m then m[k].incarnation else 0
  }

  ghost predicate ChangedOnlyAt(n: Node, n': Node, s: Server) {
    forall k :: k != s ==> SameAt(n, n', k)
  }

  /**
   From `n` to `n'` the server `s` was seen at the given time: it is alive with its former incarnation,
   that time and the given stamp, the listener was told if that is news, and nobody else changed.
   */
  ghost predicate JustSeen(n: Node, n': Node, s: Server, time: nat, stamp: nat) {
    && n'.self == n.self
    && Lookup(n'.alive, s) == Some(Record(s, KnownIncarnation(n.alive, s), time, stamp)) && s !in n'.suspected
    && ChangedOnlyAt(n, n', s)
    && n'.log == n.log + if s in n.alive then [] else [Event(s, Alive)]
  }

  /**
   From `n` to `n'` the server `s` was suspected: a new suspicion has the given time and stamp, a
   standing one is as before, the listener was told of a new one, and nobody else changed.
   */
  ghost predicate JustSuspected(n: Node, n': Node, s: Server, time: nat, stamp: nat) {
    && n'.self == n.self
    && s !in n'.alive
    && Lookup(n'.suspected, s) == Some(if s in n.suspected then n.suspected[s] else Record(s, 0, time, stamp))
    && ChangedOnlyAt(n, n', s)
    && n'.log == n.log + if s in n.suspected then [] else [Event(s, Suspect)]
  }

  lemma AddAliveSees(n: Node, s: Server, timestamp: nat)
    requires Inv(n)
    ensures if s.port == 0 then AddAlive(n, s, timestamp) == n
            else JustSeen(n, AddAlive(n, s, timestamp), s, timestamp, n.clock)
  {
  }

  /** Suspecting oneself is seeing oneself; a port-0 server is never suspected. */
  lemma ReportSuspectedSuspects(n: Node, s: Server, timestamp: nat)
    requires Inv(n)
    ensures var n' := ReportSuspected(n, s, timestamp);
      if s.port == 0 then n' == n
      else if s == n.self then JustSeen(n, n', s, timestamp, n.clock)
      else JustSuspected(n, n', s, timestamp, n.clock)
  {
  }

  /**
   After a ping or a request its sender has been seen now, with the new clock as stamp.  A port-0
   sender moves the clock only, and an unknown message does nothing.
   */
  lemma SenderIsSeen(n: Node, e: Envelope, now: nat)
    requires Inv(n) && !e.payload.StatusReport?
    ensures var n' := Deliver(n, e, now);
      if e.payload.Unrecognized? then n' == n
      else
        var clock := Max(n.clock, e.lamport) + 1;
        n'.clock == clock && if e.sender.port == 0 then n' == n.(clock := clock) else JustSeen(n, n', e.sender, now, clock)
  {
    var t := UpdateLamportTime(n, e.lamport);
    AddAliveSees(t, e.sender, now);
    if e.payload.StatusUpdate? {
      OnUpdateIsAddAlive(t, e.sender, now);
    }
  }

  // ----- Denials -----

  /** The positions of the entries about `k`. */
  ghost function Positions(rs: seq<Record>, k: Server): set<nat> {
    set i: nat | i < |rs| && rs[i].server == k
  }

  lemma PositionsAppended(rs: seq<Record>, r: Record, k: Server)
    ensures Positions(rs + [r], k) == Positions(rs, k) + if r.server == k then {|rs|} else {}
  {
  }

  /** One ping goes to the sender of the report for each entry that suspects the receiver, and nothing else. */
  lemma {:induction false} OneDenialEach(n: Node, report: Report, rs: seq<Record>)
    ensures |Denials(n, report, rs)| == |Positions(rs, n.self)|
    ensures forall d :: d in Denials(n, report, rs) ==> d == Post(n, report.sender, StatusUpdate)
  {
    if rs == [] {
    } else {
      var init, r := rs[..|rs| - 1], rs[|rs| - 1];
      OneDenialEach(n, report, init);
      assert rs == init + [r];
      PositionsAppended(init, r, n.self);
    }
  }
}
