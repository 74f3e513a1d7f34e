/**
 Runs that show where the guarantees about stale news end, and one in which a
 false suspicion is refuted.  They exist in every cluster with the servers they
 need, and at any times.
 */
module Scenarios {
  import opened SwimTypes
  import opened Membership
  import opened ReportLaws
  import opened Cluster
  import opened Causality
  import Reporting
  import Budget

  // ----- Building runs step by step -----

  /** A run so far. */
  datatype Course = Course(cs: seq<State>, steps: seq<Step>)

  ghost predicate Runs(r: Course) {
    IsRun(r.cs, r.steps)
  }

  ghost function End(r: Course): State
    requires Runs(r)
  {
    r.cs[|r.steps|]
  }

  ghost predicate Member(r: Course, s: Server) {
    Runs(r) && s in End(r).hosts && End(r).hosts[s].node.self == s
  }

  ghost function HostOf(r: Course, s: Server): Host
    requires Member(r, s)
  {
    End(r).hosts[s]
  }

  ghost function NodeOf(r: Course, s: Server): Node
    requires Member(r, s)
  {
    HostOf(r, s).node
  }

  /** `r'` goes on where `r` stops. */
  ghost predicate Extends(r: Course, r': Course) {
    Runs(r) && Runs(r') && r.cs <= r'.cs && r.steps <= r'.steps
  }

  /** Nobody but `s` has changed since `r`, and all envelopes are still there. */
  ghost predicate OnlyAt(r: Course, r': Course, s: Server) {
    && Runs(r) && Runs(r') && End(r).net <= End(r').net
    && forall t :: t != s && Member(r, t) ==> Member(r', t) && HostOf(r', t) == HostOf(r, t)
  }

  /** All servers of a cluster, before the first step. */
  lemma Begin(servers: set<Server>) returns (r: Course)
    ensures Runs(r) && r.steps == [] && forall s :: s in servers ==> Member(r, s) && HostOf(r, s) == NewHost(s)
  {
    r := Course([State(map s | s in servers :: NewHost(s), {})], []);
  }

  /** One more step. */
  lemma Does(r: Course, step: Step) returns (r': Course)
    requires Member(r, step.at) && Enabled(End(r), step)
    ensures Extends(r, r') && r'.steps == r.steps + [step] && OnlyAt(r, r', step.at)
    ensures Member(r', step.at) && HostOf(r', step.at) == HostAfter(HostOf(r, step.at), step)
    ensures End(r').net == End(r).net + Sent(NodeOf(r', step.at), step)
  {
    var c := Act(End(r), step);
    r' := Course(r.cs + [c], r.steps + [step]);
    RunKeepsInv(r'.cs, r'.steps, |r'.steps|);
  }

  // ----- What one server can do -----

  ghost predicate Unknown(n: Node, k: Server) {
    k !in n.alive && k !in n.suspected
  }

  ghost predicate SuspectedWith(n: Node, k: Server, stamp: nat) {
    k !in n.alive && k in n.suspected && n.suspected[k].lamport == stamp
  }

  ghost predicate Empty(n: Node) {
    n.alive == map[] && n.suspected == map[]
  }

  lemma Reads(r: Course, s: Server) returns (r': Course)
    requires Member(r, s)
    ensures Extends(r, r') && r'.steps == r.steps + [ReadClock(s)] && OnlyAt(r, r', s)
    ensures Member(r', s) && NodeOf(r', s) == NodeOf(r, s)
    ensures HostOf(r', s).readings == HostOf(r, s).readings + {NodeOf(r, s).clock}
    ensures HostOf(r', s).prepared == HostOf(r, s).prepared && HostOf(r', s).forwards == HostOf(r, s).forwards
    ensures ClockAfter(r'.cs, r'.steps, |r.steps|) == NodeOf(r, s).clock
  {
    r' := Does(r, ReadClock(s));
  }

  /** `s` suspects `k`; a suspicion it holds already stays as it is. */
  lemma Suspects(r: Course, s: Server, k: Server, now: nat) returns (r': Course)
    requires Member(r, s) && k != s && k.port != 0
    ensures Extends(r, r') && r'.steps == r.steps + [NoteSuspect(s, k, now)] && OnlyAt(r, r', s)
    ensures Member(r', s) && NodeOf(r', s).clock == NodeOf(r, s).clock
    ensures k !in NodeOf(r, s).suspected ==>
      && SuspectedWith(NodeOf(r', s), k, NodeOf(r, s).clock)
      && BeginsToSuspect(r'.cs, r'.steps, |r.steps|, k)
    ensures forall stamp :: SuspectedWith(NodeOf(r, s), k, stamp) ==> SuspectedWith(NodeOf(r', s), k, stamp)
    ensures HostOf(r', s).(node := NodeOf(r, s)) == HostOf(r, s)
    ensures NodeOf(r', s).alive == NodeOf(r, s).alive - {k}
    ensures NodeOf(r', s).suspected.Keys == NodeOf(r, s).suspected.Keys + {k}
    ensures Empty(NodeOf(r, s)) ==> NodeOf(r', s).suspected == map[k := Record(k, 0, now, NodeOf(r, s).clock)]
  {
    r' := Does(r, NoteSuspect(s, k, now));
  }

  /** A suspicion that is reported again keeps its stamp. */
  lemma StillSuspects(r: Course, s: Server, k: Server, now: nat, stamp: nat) returns (r': Course)
    requires Member(r, s) && k != s && k.port != 0 && SuspectedWith(NodeOf(r, s), k, stamp)
    ensures Extends(r, r') && r'.steps == r.steps + [NoteSuspect(s, k, now)] && OnlyAt(r, r', s)
    ensures Member(r', s) && SuspectedWith(NodeOf(r', s), k, stamp)
  {
    r' := Suspects(r, s, k, now);
  }

  /** `s` gives `k` up. */
  lemma Evicts(r: Course, s: Server, k: Server) returns (r': Course)
    requires Member(r, s) && k !in NodeOf(r, s).alive
    ensures Extends(r, r') && r'.steps == r.steps + [Evict(s, k)] && OnlyAt(r, r', s)
    ensures Member(r', s) && NodeOf(r', s).clock == NodeOf(r, s).clock && Unknown(NodeOf(r', s), k)
    ensures HostOf(r', s).(node := NodeOf(r, s)) == HostOf(r, s)
    ensures NodeOf(r', s).alive == NodeOf(r, s).alive && NodeOf(r', s).suspected == NodeOf(r, s).suspected - {k}
  {
    r' := Does(r, Evict(s, k));
  }

  /** `s` sees `k`. */
  lemma Sees(r: Course, s: Server, k: Server, now: nat) returns (r': Course)
    requires Member(r, s) && k.port != 0
    ensures Extends(r, r') && r'.steps == r.steps + [NoteAlive(s, k, now)] && OnlyAt(r, r', s)
    ensures Member(r', s) && NodeOf(r', s).clock == NodeOf(r, s).clock
    ensures StampsAlive(r'.cs, r'.steps, |r.steps|, k) && k !in NodeOf(r', s).suspected
    ensures HostOf(r', s).(node := NodeOf(r, s)) == HostOf(r, s)
    ensures Empty(NodeOf(r, s)) ==>
      var x := Record(k, 0, now, NodeOf(r, s).clock); NodeOf(r', s).alive == map[k := x] && NodeOf(r', s).suspected == map[]
  {
    r' := Does(r, NoteAlive(s, k, now));
  }

  /** A server that knows one other can report it. */
  lemma ReportOfOne(n: Node, x: Record, now: nat)
    requires x.timestamp == now
    ensures n.alive == map[x.server := x] && n.suspected == map[] ==>
      Reporting.Prepared(n, Report(n.self, [x], []), now, now)
    ensures n.alive == map[] && n.suspected == map[x.server := x] ==>
      Reporting.Prepared(n, Report(n.self, [], [x]), now, now)
  {
    SelectOne(map[x.server := x], x, now);
    SelectNone(now);
  }

  lemma SelectOne(m: map<Server, Record>, x: Record, now: nat)
    requires m == map[x.server := x] && x.timestamp == now
    ensures Reporting.Selection(m, now, [x])
  {
    assert [x][..1] == [x] && [x][..0] == [];
    assert Reporting.Lists([x], m);
    assert Budget.SortedFrom([x], [x]) && [x] <= [x] && Budget.Greedy([x], now, |[x]|);
    assert Budget.Budgeted([x], now, [x]);
  }

  lemma SelectNone(now: nat)
    ensures Reporting.Selection(map[], now, [])
  {
    var none: seq<Record> := [];
    assert none[..0] == none && Reporting.Lists(none, map[]);
    assert Budget.SortedFrom(none, none) && none <= none && Budget.Greedy(none, now, |none|);
    assert Budget.Budgeted(none, now, none);
  }

  lemma Prepares(r: Course, s: Server, report: Report, now: nat) returns (r': Course)
    requires Member(r, s) && Reporting.Prepared(NodeOf(r, s), report, now, now)
    ensures Extends(r, r') && r'.steps == r.steps + [Prepare(s, report, now, now)] && OnlyAt(r, r', s)
    ensures Member(r', s) && NodeOf(r', s) == NodeOf(r, s) && HostOf(r', s).readings == HostOf(r, s).readings
    ensures (report, NodeOf(r, s).clock) in HostOf(r', s).prepared
  {
    r' := Does(r, Prepare(s, report, now, now));
  }

  // ----- What has been shown of a run -----

  ghost predicate Shows(r: Course, i: nat, x: Record) {
    Runs(r) && i < |r.steps| && HoldsAlive(r.cs, r.steps, i, x)
  }

  ghost predicate ShowsSuspected(r: Course, i: nat, x: Record) {
    Runs(r) && i < |r.steps| && HoldsSuspected(r.cs, r.steps, i, x)
  }

  ghost predicate Begins(r: Course, j: nat, k: Server) {
    Runs(r) && j < |r.steps| && BeginsToSuspect(r.cs, r.steps, j, k)
  }

  ghost predicate Stamps(r: Course, j: nat, k: Server) {
    Runs(r) && j < |r.steps| && StampsAlive(r.cs, r.steps, j, k)
  }

  ghost predicate Carries(r: Course, hop: Hop) {
    Runs(r) && Delivered(r.cs, r.steps, hop)
  }

  /** Server `s` read the clock at step `i`. */
  ghost predicate ReadAt(r: Course, i: nat, s: Server, time: nat) {
    Runs(r) && i < |r.steps| && r.steps[i] == ReadClock(s) && ClockAfter(r.cs, r.steps, i) == time
  }

  /** What the run has shown so far stays shown when it goes on. */
  lemma Remains(r: Course, r': Course, i: nat, x: Record)
    requires Extends(r, r') && i < |r.steps|
    ensures Shows(r, i, x) ==> Shows(r', i, x)
    ensures ShowsSuspected(r, i, x) ==> ShowsSuspected(r', i, x)
    ensures Begins(r, i, x.server) ==> Begins(r', i, x.server)
    ensures Stamps(r, i, x.server) ==> Stamps(r', i, x.server)
  {
    assert r'.cs[i] == r.cs[i] && r'.cs[i + 1] == r.cs[i + 1] && r'.steps[i] == r.steps[i];
  }

  lemma RemainsCarried(r: Course, r': Course, hop: Hop)
    requires Extends(r, r') && Carries(r, hop)
    ensures Carries(r', hop)
  {
    assert r'.cs[hop.sent + 1] == r.cs[hop.sent + 1] && r'.cs[hop.read + 1] == r.cs[hop.read + 1];
  }

  lemma RemainsRead(r: Course, r': Course, i: nat, s: Server, time: nat)
    requires Extends(r, r') && ReadAt(r, i, s, time)
    ensures ReadAt(r', i, s, time)
  {
    assert r'.cs[i + 1] == r.cs[i + 1];
  }

  lemma OneHop(r: Course, from: nat, hop: Hop, to: nat)
    requires Carries(r, hop) && from <= hop.read && hop.received <= to < |r.steps|
    requires r.steps[from].at == r.steps[hop.read].at && r.steps[hop.received].at == r.steps[to].at
    ensures Reaches(r.cs, r.steps, from, [hop], to)
  {
    assert [hop][1..] == [];
    assert Reaches(r.cs, r.steps, hop.received, [], to);
  }

  // ----- Sending and receiving -----

  /** The step sends the one envelope `e`, which is received at once. */
  lemma Delivers(r: Course, send: Step, e: Envelope, now: nat) returns (r': Course)
    requires Member(r, send.at) && Member(r, e.dest) && send.at != e.dest && Enabled(End(r), send)
    requires send.SendReport? || send.SendPing? || send.SendRequest? || send.Forward?
    requires Sent(NodeOf(r, send.at), send) == {e}
    ensures Extends(r, r') && r'.steps == r.steps + [send] + [Receive(e.dest, e, now)] && OnlyAt(r, r', e.dest)
    ensures Member(r', e.dest) && HostOf(r', e.dest) == HostAfter(HostOf(r, e.dest), Receive(e.dest, e, now))
    ensures Sent(NodeOf(r', e.dest), Receive(e.dest, e, now)) <= End(r').net
    ensures forall read :: ReadAt(r, read, send.at, send.time) ==> Carries(r', Hop(read, |r.steps|, |r.steps| + 1))
  {
    var r1 := Does(r, send);
    r' := Does(r1, Receive(e.dest, e, now));
    forall read | ReadAt(r, read, send.at, send.time) ensures Carries(r', Hop(read, |r.steps|, |r.steps| + 1)) {
      RemainsRead(r, r', read, send.at, send.time);
      assert r'.cs[|r.steps| + 1] == r1.cs[|r.steps| + 1];
    }
  }

  /** A ping or a request tells the receiver nothing about third servers. */
  lemma HailedNode(n: Node, e: Envelope, now: nat, k: Server)
    requires (e.payload.StatusUpdate? || e.payload.StatusRequest?) && k != e.sender
    ensures var n' := Deliver(n, e, now);
      && n'.self == n.self && n'.clock == Max(n.clock, e.lamport) + 1 && SameAt(n, n', k)
      && (Empty(n) ==> n'.alive.Keys <= {e.sender} && n'.suspected == map[])
  {
  }

  lemma Hails(r: Course, send: Step, k: Server, read: nat, now: nat) returns (r': Course)
    requires (send.SendPing? || send.SendRequest?) && Member(r, send.at) && Member(r, send.dest)
    requires send.at != send.dest && k != send.at
    requires send.time in HostOf(r, send.at).readings && ReadAt(r, read, send.at, send.time)
    ensures Extends(r, r') && |r'.steps| == |r.steps| + 2 && OnlyAt(r, r', send.dest)
    ensures r'.steps[|r.steps|] == send && r'.steps[|r.steps| + 1].at == send.dest
    ensures Carries(r', Hop(read, |r.steps|, |r.steps| + 1))
    ensures Member(r', send.dest) && SameAt(NodeOf(r, send.dest), NodeOf(r', send.dest), k)
    ensures NodeOf(r', send.dest).clock == Max(NodeOf(r, send.dest).clock, send.time + 1) + 1
    ensures HostOf(r', send.dest).readings == HostOf(r, send.dest).readings
    ensures Empty(NodeOf(r, send.dest)) ==>
      NodeOf(r', send.dest).alive.Keys <= {send.at} && NodeOf(r', send.dest).suspected == map[]
  {
    var e := PostAt(send.at, send.time, send.dest, if send.SendPing? then StatusUpdate else StatusRequest(send.suspect));
    HailedNode(NodeOf(r, send.dest), e, now, k);
    r' := Delivers(r, send, e, now);
  }

  /** `a` sends `b` a report it has prepared, in which `x` is not stale for `b`. */
  lemma Tells(r: Course, a: Server, b: Server, report: Report, made: nat, time: nat, x: Record, now: nat)
    returns (r': Course)
    requires Member(r, a) && Member(r, b) && a != b && report.suspected == []
    requires (report, made) in HostOf(r, a).prepared && made <= time && time in HostOf(r, a).readings
    requires x in report.alive && x.server != b && x.server.port != 0 && !StaleAlive(NodeOf(r, b), x)
    ensures Extends(r, r') && |r'.steps| == |r.steps| + 2
    ensures r'.steps[|r.steps| + 1] == Receive(b, PostAt(a, time, b, StatusReport(report)), now)
    ensures KnownAlive(End(r'), b, x.server)
  {
    r' := Delivers(r, SendReport(a, b, report, made, time), PostAt(a, time, b, StatusReport(report)), now);
    StateBeforeLast(r, r', b);
    FreshAliveIsKnown(r'.cs, r'.steps, |r.steps| + 1, x);
  }

  /** The step before the last, by another server, has not changed `s`. */
  lemma StateBeforeLast(r: Course, r': Course, s: Server)
    requires Extends(r, r') && |r'.steps| == |r.steps| + 2 && Member(r, s) && r'.steps[|r.steps|].at != s
    ensures s in r'.cs[|r.steps| + 1].hosts && r'.cs[|r.steps| + 1].hosts[s] == HostOf(r, s)
  {
    assert r'.cs[|r.steps|] == End(r);
    assert r'.cs[|r.steps| + 1] == Act(r'.cs[|r.steps|], r'.steps[|r.steps|]);
  }

  /** `a` sends `b` a prepared report that suspects `k`, of whom `b` knows nothing. */
  lemma Accuses(r: Course, a: Server, b: Server, x: Record, made: nat, time: nat, now: nat) returns (r': Course)
    requires Member(r, a) && Member(r, b) && a != b && x.server != a && x.server != b && x.server.port != 0
    requires (Report(a, [], [x]), made) in HostOf(r, a).prepared && made <= time && time in HostOf(r, a).readings
    requires Unknown(NodeOf(r, b), x.server)
    ensures Extends(r, r') && |r'.steps| == |r.steps| + 2
    ensures r'.steps[|r.steps| + 1] == Receive(b, PostAt(a, time, b, StatusReport(Report(a, [], [x]))), now)
    ensures Begins(r', |r.steps| + 1, x.server)
  {
    var report := Report(a, [], [x]);
    var e := PostAt(a, time, b, StatusReport(report));
    r' := Delivers(r, SendReport(a, b, report, made, time), e, now);
    StateBeforeLast(r, r', b);
    RunKeepsInv(r.cs, r.steps, |r.steps|);
    RumorIsBelieved(NodeOf(r, b), e, x, now);
  }

  lemma RumorIsBelieved(n: Node, e: Envelope, x: Record, now: nat)
    requires Inv(n) && e.payload.StatusReport? && e.payload.report.suspected == [x] && e.payload.report.alive == []
    requires x.server != e.sender && x.server != n.self && x.server.port != 0 && Unknown(n, x.server)
    ensures x.server in Deliver(n, e, now).suspected
  {
    assert x in e.payload.report.suspected;
    OnReportClosedForm(UpdateLamportTime(n, e.lamport), e.sender, e.payload.report, now, x.server);
  }

  // ----- One server that has seen another -----

  /** `s`, which knows nobody, sees `k`, prepares a report about it and reads its clock. */
  lemma SeesAndPrepares(r: Course, s: Server, k: Server, now: nat) returns (r': Course)
    requires Member(r, s) && Empty(NodeOf(r, s)) && k.port != 0
    ensures Extends(r, r') && |r'.steps| == |r.steps| + 3 && OnlyAt(r, r', s) && r'.steps[|r.steps|].at == s
    ensures Member(r', s) && HostOf(r, s).readings <= HostOf(r', s).readings
    ensures var clock := NodeOf(r, s).clock;
      var x := Record(k, 0, now, clock);
      && Shows(r', |r.steps|, x) && (Report(s, [x], []), clock) in HostOf(r', s).prepared
      && clock in HostOf(r', s).readings && ReadAt(r', |r.steps| + 2, s, clock)
  {
    var x := Record(k, 0, now, NodeOf(r, s).clock);
    var r1 := Sees(r, s, k, now);
    ReportOfOne(NodeOf(r1, s), x, now);
    var r2 := Prepares(r1, s, Report(s, [x], []), now);
    r' := Reads(r2, s);
    Remains(r1, r', |r.steps|, x);
  }

  /** The same with a suspicion. */
  lemma SuspectsAndPrepares(r: Course, s: Server, k: Server, now: nat) returns (r': Course)
    requires Member(r, s) && Empty(NodeOf(r, s)) && k != s && k.port != 0
    ensures Extends(r, r') && |r'.steps| == |r.steps| + 3 && OnlyAt(r, r', s) && r'.steps[|r.steps|].at == s
    ensures Member(r', s)
    ensures var clock := NodeOf(r, s).clock;
      var x := Record(k, 0, now, clock);
      && ShowsSuspected(r', |r.steps|, x) && (Report(s, [], [x]), clock) in HostOf(r', s).prepared
      && clock in HostOf(r', s).readings && ReadAt(r', |r.steps| + 2, s, clock)
  {
    var x := Record(k, 0, now, NodeOf(r, s).clock);
    var r1 := Suspects(r, s, k, now);
    assert NodeOf(r1, s).alive == map[];
    ReportOfOne(NodeOf(r1, s), x, now);
    var r2 := Prepares(r1, s, Report(s, [], [x]), now);
    r' := Reads(r2, s);
    Remains(r1, r', |r.steps|, x);
  }

  // ----- Old news is believed -----

  /** What the run has shown once `b` has heard, through `hop`, from `a`, which has seen `k`. */
  ghost predicate HeardWitness(r: Course, a: Server, b: Server, k: Server, t: nat, hop: Hop) {
    && Member(r, a) && Member(r, b) && Carries(r, hop)
    && r.steps[0].at == r.steps[hop.read].at == a && r.steps[hop.received].at == b && Shows(r, 0, Record(k, 0, t, 0))
    && (Report(a, [Record(k, 0, t, 0)], []), 0) in HostOf(r, a).prepared && 0 in HostOf(r, a).readings
  }

  lemma HearsWitness(cluster: set<Server>, a: Server, b: Server, k: Server, t: nat) returns (r: Course)
    requires {a, b} <= cluster && a != b && k != a && k != b && k.port != 0
    ensures HeardWitness(r, a, b, k, t, Hop(2, 3, 4)) && |r.steps| == 5 && Unknown(NodeOf(r, b), k)
  {
    var r0 := Begin(cluster);
    var r3 := SeesAndPrepares(r0, a, k, t);
    r := Hails(r3, SendPing(a, b, 0), k, 2, t);
    Remains(r3, r, 0, Record(k, 0, t, 0));
    RemainsRead(r3, r, 2, a, 0);
  }

  /** Steps of `b` alone take nothing of that back. */
  lemma StillHeardWitness(r: Course, r': Course, a: Server, b: Server, k: Server, t: nat, hop: Hop)
    requires HeardWitness(r, a, b, k, t, hop) && Extends(r, r') && OnlyAt(r, r', b) && Member(r', b) && a != b
    ensures HeardWitness(r', a, b, k, t, hop)
  {
    Remains(r, r', 0, Record(k, 0, t, 0));
    RemainsCarried(r, r', hop);
  }

  /** `b` hears from `a`, which has seen `k`, and then begins to suspect `k`. */
  lemma HearsAndSuspects(cluster: set<Server>, a: Server, b: Server, k: Server, t: nat, u: nat) returns (r: Course)
    requires {a, b} <= cluster && a != b && k != a && k != b && k.port != 0
    ensures HeardWitness(r, a, b, k, t, Hop(2, 3, 4)) && |r.steps| == 6
    ensures r.steps[5].at == b && Begins(r, 5, k) && k !in NodeOf(r, b).alive
  {
    var r5 := HearsWitness(cluster, a, b, k, t);
    r := Suspects(r5, b, k, u);
    StillHeardWitness(r5, r, a, b, k, t, Hop(2, 3, 4));
  }

  /**
   `b` hears from `a`, then suspects `k` and gives it up.  A report that `a` prepared before all this
   arrives last, and brings `k` back.
   */
  lemma EvictedServerIsRevived(cluster: set<Server>, a: Server, b: Server, k: Server, t: nat, u: nat, v: nat)
    returns (cs: seq<State>, steps: seq<Step>)
    requires {a, b} <= cluster && a != b && k != a && k != b && k.port != 0
    ensures IsRun(cs, steps) && |steps| == 9
    ensures HoldsAlive(cs, steps, 0, Record(k, 0, t, 0)) && Reaches(cs, steps, 0, [Hop(2, 3, 4)], 5)
    ensures steps[5].at == b && BeginsToSuspect(cs, steps, 5, k) && steps[6] == Evict(b, k)
    ensures steps[8] == Receive(b, PostAt(a, 0, b, StatusReport(Report(a, [Record(k, 0, t, 0)], []))), v)
    ensures KnownAlive(cs[9], b, k)
  {
    var x := Record(k, 0, t, 0);
    var r6 := HearsAndSuspects(cluster, a, b, k, t, u);
    var r7 := Evicts(r6, b, k);
    var r := Tells(r7, a, b, Report(a, [x], []), 0, 0, x, v);
    Remains(r6, r, 0, x);
    Remains(r6, r, 5, x);
    RemainsCarried(r6, r, Hop(2, 3, 4));
    OneHop(r, 0, Hop(2, 3, 4), 5);
    cs, steps := r.cs, r.steps;
  }

  /** What the run of an old suspicion has shown once `b` has heard from `a`, which suspects `k`. */
  ghost predicate HeardAccuser(r: Course, a: Server, b: Server, k: Server, t: nat) {
    && |r.steps| >= 5 && Member(r, a) && Member(r, b)
    && r.steps[0].at == r.steps[2].at == a && r.steps[4].at == b
    && ShowsSuspected(r, 0, Record(k, 0, t, 0)) && Carries(r, Hop(2, 3, 4))
    && (Report(a, [], [Record(k, 0, t, 0)]), 0) in HostOf(r, a).prepared && 0 in HostOf(r, a).readings
  }

  lemma HearsAccuser(cluster: set<Server>, a: Server, b: Server, k: Server, t: nat) returns (r: Course)
    requires {a, b} <= cluster && a != b && k != a && k != b && k.port != 0
    ensures |r.steps| == 5 && HeardAccuser(r, a, b, k, t)
  {
    var r0 := Begin(cluster);
    var r3 := SuspectsAndPrepares(r0, a, k, t);
    r := Hails(r3, SendPing(a, b, 0), k, 2, t);
    Remains(r3, r, 0, Record(k, 0, t, 0));
    RemainsRead(r3, r, 2, a, 0);
  }

  /** Steps of `b` alone take nothing of that back. */
  lemma StillHeardAccuser(r: Course, r': Course, a: Server, b: Server, k: Server, t: nat)
    requires HeardAccuser(r, a, b, k, t) && Extends(r, r') && OnlyAt(r, r', b) && Member(r', b) && a != b
    ensures HeardAccuser(r', a, b, k, t)
  {
    Remains(r, r', 0, Record(k, 0, t, 0));
    RemainsCarried(r, r', Hop(2, 3, 4));
  }

  /** `b` hears from `a`, which suspects `k`, then sees `k` and gives it up. */
  lemma HearsSeesAndGivesUp(cluster: set<Server>, a: Server, b: Server, k: Server, t: nat, u: nat) returns (r: Course)
    requires {a, b} <= cluster && a != b && k != a && k != b && k.port != 0
    ensures |r.steps| == 8 && HeardAccuser(r, a, b, k, t) && Unknown(NodeOf(r, b), k)
    ensures r.steps[5].at == b && Stamps(r, 5, k) && r.steps[7] == Evict(b, k)
  {
    var r5 := HearsAccuser(cluster, a, b, k, t);
    var r6 := Sees(r5, b, k, u);
    StillHeardAccuser(r5, r6, a, b, k, t);
    var r7 := Suspects(r6, b, k, u);
    StillHeardAccuser(r6, r7, a, b, k, t);
    r := Evicts(r7, b, k);
    StillHeardAccuser(r7, r, a, b, k, t);
    Remains(r6, r, 5, Record(k, 0, t, 0));
  }

  /**
   `b` hears from `a`, then sees `k` and gives it up.  The suspicion that `a` held before all this
   arrives last, and is believed.
   */
  lemma OldSuspicionReturns(cluster: set<Server>, a: Server, b: Server, k: Server, t: nat, u: nat, v: nat)
    returns (cs: seq<State>, steps: seq<Step>)
    requires {a, b} <= cluster && a != b && k != a && k != b && k.port != 0
    ensures IsRun(cs, steps) && |steps| == 10
    ensures HoldsSuspected(cs, steps, 0, Record(k, 0, t, 0)) && Reaches(cs, steps, 0, [Hop(2, 3, 4)], 5)
    ensures steps[5].at == b && StampsAlive(cs, steps, 5, k) && steps[7] == Evict(b, k)
    ensures steps[9] == Receive(b, PostAt(a, 0, b, StatusReport(Report(a, [], [Record(k, 0, t, 0)]))), v)
    ensures BeginsToSuspect(cs, steps, 9, k)
  {
    var x := Record(k, 0, t, 0);
    var r8 := HearsSeesAndGivesUp(cluster, a, b, k, t, u);
    var r := Accuses(r8, a, b, x, 0, 0, v);
    Remains(r8, r, 0, x);
    Remains(r8, r, 5, x);
    RemainsCarried(r8, r, Hop(2, 3, 4));
    OneHop(r, 0, Hop(2, 3, 4), 5);
    cs, steps := r.cs, r.steps;
  }

  // ----- A repeated suspicion -----

  /** `b` suspects `k` and hears from `a`, which has seen `k`. */
  lemma SuspectsAndHears(cluster: set<Server>, a: Server, b: Server, k: Server, t: nat) returns (r: Course)
    requires {a, b} <= cluster && a != b && k != a && k != b && k.port != 0
    ensures HeardWitness(r, a, b, k, t, Hop(2, 4, 5)) && |r.steps| == 6 && SuspectedWith(NodeOf(r, b), k, 0)
  {
    var r0 := Begin(cluster);
    var r3 := SeesAndPrepares(r0, a, k, t);
    var r4 := Suspects(r3, b, k, t);
    RemainsRead(r3, r4, 2, a, 0);
    r := Hails(r4, SendPing(a, b, 0), k, 2, t);
    RemainsRead(r4, r, 2, a, 0);
    Remains(r3, r, 0, Record(k, 0, t, 0));
  }

  /** Then it reports `k` as suspected once more. */
  lemma SuspectsAgain(cluster: set<Server>, a: Server, b: Server, k: Server, t: nat, u: nat) returns (r: Course)
    requires {a, b} <= cluster && a != b && k != a && k != b && k.port != 0
    ensures HeardWitness(r, a, b, k, t, Hop(2, 4, 5)) && |r.steps| == 7 && SuspectedWith(NodeOf(r, b), k, 0)
    ensures r.steps[6] == NoteSuspect(b, k, u)
  {
    var r6 := SuspectsAndHears(cluster, a, b, k, t);
    r := StillSuspects(r6, b, k, u, 0);
    StillHeardWitness(r6, r, a, b, k, t, Hop(2, 4, 5));
  }

  /**
   A repeated suspicion that follows the sign of life causally is not refreshed: the sign of life
   still brings `k` back when it arrives.
   */
  lemma LateSuspicionIsOverturned(cluster: set<Server>, a: Server, b: Server, k: Server, t: nat, u: nat, v: nat)
    returns (cs: seq<State>, steps: seq<Step>)
    requires {a, b} <= cluster && a != b && k != a && k != b && k.port != 0
    ensures IsRun(cs, steps) && |steps| == 9
    ensures HoldsAlive(cs, steps, 0, Record(k, 0, t, 0)) && Reaches(cs, steps, 0, [Hop(2, 4, 5)], 6)
    ensures steps[6] == NoteSuspect(b, k, u)
    ensures steps[8] == Receive(b, PostAt(a, 0, b, StatusReport(Report(a, [Record(k, 0, t, 0)], []))), v)
    ensures KnownAlive(cs[9], b, k)
  {
    var x := Record(k, 0, t, 0);
    var r7 := SuspectsAgain(cluster, a, b, k, t, u);
    var r := Tells(r7, a, b, Report(a, [x], []), 0, 0, x, v);
    Remains(r7, r, 0, x);
    RemainsCarried(r7, r, Hop(2, 4, 5));
    OneHop(r, 0, Hop(2, 4, 5), 6);
    cs, steps := r.cs, r.steps;
  }

  // ----- An old clock reading -----

  /** `a` and `b` read their clocks, and `a` hears from `b`. */
  lemma BothReadClocks(cluster: set<Server>, a: Server, b: Server, t: nat) returns (r: Course)
    requires {a, b} <= cluster && a != b
    ensures Runs(r) && |r.steps| == 4 && Member(r, a) && Member(r, b) && ReadAt(r, 0, a, 0)
    ensures NodeOf(r, a).alive.Keys <= {b} && NodeOf(r, a).suspected == map[] && NodeOf(r, a).clock == 2
    ensures 0 in HostOf(r, a).readings && NodeOf(r, b) == NewNode(b)
  {
    var r0 := Begin(cluster);
    var r1 := Reads(r0, a);
    var r2 := Reads(r1, b);
    r := Hails(r2, SendPing(b, a, 0), a, 1, t);
    RemainsRead(r1, r, 0, a, 0);
  }

  /** Then `a` gives `b` up again, but its clock has moved on. */
  lemma ClockMovesOn(cluster: set<Server>, a: Server, b: Server, t: nat) returns (r: Course)
    requires {a, b} <= cluster && a != b && b.port != 0
    ensures Runs(r) && |r.steps| == 6 && Member(r, a) && Member(r, b) && ReadAt(r, 0, a, 0)
    ensures Empty(NodeOf(r, a)) && NodeOf(r, a).clock == 2 && 0 in HostOf(r, a).readings
    ensures NodeOf(r, b) == NewNode(b)
  {
    var r4 := BothReadClocks(cluster, a, b, t);
    var r5 := Suspects(r4, a, b, t);
    r := Evicts(r5, a, b);
    RemainsRead(r4, r, 0, a, 0);
    assert NodeOf(r, a).alive.Keys == {} && NodeOf(r, a).suspected.Keys == {};
  }

  /**
   `a` sees `k`.  It then asks `b` to ping another server, with the clock it read before, and `b`
   begins to suspect `k`.
   */
  lemma AsksWithOldClock(cluster: set<Server>, a: Server, b: Server, k: Server, d: Server, t: nat, u: nat)
    returns (r: Course)
    requires {a, b} <= cluster && a != b && k != a && k != b && b.port != 0 && k.port != 0
    ensures Runs(r) && |r.steps| == 12 && Member(r, a) && Member(r, b) && SuspectedWith(NodeOf(r, b), k, 2)
    ensures Shows(r, 6, Record(k, 0, t, 2)) && r.steps[6].at == a
    ensures (Report(a, [Record(k, 0, t, 2)], []), 2) in HostOf(r, a).prepared && 2 in HostOf(r, a).readings
    ensures Carries(r, Hop(0, 9, 10)) && r.steps[9] == SendRequest(a, b, d, 0)
    ensures r.steps[10].at == r.steps[11].at == b && Begins(r, 11, k)
  {
    var x := Record(k, 0, t, 2);
    var r6 := ClockMovesOn(cluster, a, b, t);
    var r9 := SeesAndPrepares(r6, a, k, t);
    RemainsRead(r6, r9, 0, a, 0);
    var r11 := Hails(r9, SendRequest(a, b, d, 0), k, 0, t);
    r := Suspects(r11, b, k, u);
    RemainsCarried(r11, r, Hop(0, 9, 10));
    Remains(r9, r, 6, x);
  }

  /**
   An envelope that carries an old clock reading breaks causality.  Here `b` begins to suspect `k`
   after a request from `a`, and `a` had seen `k` before it sent that.  Still the sign of life
   overturns the suspicion: the reading the request carries is older than the sign of life.
   */
  lemma OldReadingBreaksCausality(cluster: set<Server>, a: Server, b: Server, k: Server, d: Server, t: nat, u: nat, v: nat)
    returns (cs: seq<State>, steps: seq<Step>)
    requires {a, b} <= cluster && a != b && k != a && k != b && b.port != 0 && k.port != 0
    ensures IsRun(cs, steps) && |steps| == 14
    ensures HoldsAlive(cs, steps, 6, Record(k, 0, t, 2)) && steps[6].at == a
    ensures Delivered(cs, steps, Hop(0, 9, 10)) && steps[9] == SendRequest(a, b, d, 0)
    ensures steps[10].at == steps[11].at == b && BeginsToSuspect(cs, steps, 11, k)
    ensures steps[13] == Receive(b, PostAt(a, 2, b, StatusReport(Report(a, [Record(k, 0, t, 2)], []))), v)
    ensures KnownAlive(cs[14], b, k)
  {
    var x := Record(k, 0, t, 2);
    var r12 := AsksWithOldClock(cluster, a, b, k, d, t, u);
    var r := Tells(r12, a, b, Report(a, [x], []), 2, 2, x, v);
    Remains(r12, r, 6, x);
    Remains(r12, r, 11, x);
    RemainsCarried(r12, r, Hop(0, 9, 10));
    cs, steps := r.cs, r.steps;
  }

  // ----- A refuted suspicion -----

  /** `a` suspects `b` and asks `f` to ping it. */
  lemma RequestComes(cluster: set<Server>, a: Server, f: Server, b: Server, t: nat) returns (r: Course)
    requires {a, f, b} <= cluster && a != f && a != b && f != b && b.port != 0
    ensures Runs(r) && |r.steps| == 4 && Member(r, a) && Member(r, f) && Member(r, b)
    ensures Begins(r, 0, b) && r.steps[0].at == a
    ensures r.steps[2] == SendRequest(a, f, b, 0) && Carries(r, Hop(1, 2, 3))
    ensures (a, b) in HostOf(r, f).forwards
  {
    var r0 := Begin(cluster);
    var r1 := Suspects(r0, a, b, t);
    var r2 := Reads(r1, a);
    var send, e := SendRequest(a, f, b, 0), PostAt(a, 0, f, StatusRequest(b));
    r := Delivers(r2, send, e, t);
    Remains(r1, r, 0, Record(b, 0, 0, 0));
    assert ReadAt(r2, 1, a, 0);
  }

  /** The last step is a receipt by `b` that sends `denial`. */
  ghost predicate Denies(r: Course, b: Server, denial: Envelope) {
    && Runs(r) && r.steps != [] && b in End(r).hosts && denial in End(r).net
    && var last := r.steps[|r.steps| - 1];
       last.Receive? && last.at == b && denial in Sent(End(r).hosts[b].node, last)
  }

  /** `f` passes the accusation of `b` on, and `b` denies it. */
  lemma Forwards(r: Course, a: Server, f: Server, b: Server, read: nat, time: nat, now: nat)
    returns (r': Course, denial: Envelope)
    requires Member(r, a) && Member(r, f) && Member(r, b) && a != b && f != b
    requires (a, b) in HostOf(r, f).forwards && time in HostOf(r, f).readings && ReadAt(r, read, f, time)
    ensures Extends(r, r') && |r'.steps| == |r.steps| + 2 && Member(r', a)
    ensures AccusationSent(r'.steps[|r.steps|], a, f, b) && Carries(r', Hop(read, |r.steps|, |r.steps| + 1))
    ensures denial.dest == a && Denies(r', b, denial)
  {
    var e := PostAt(f, time, b, StatusReport(ForwardedReport(a, b, now)));
    RunKeepsInv(r.cs, r.steps, |r.steps|);
    AccusedPingsRequestor(NodeOf(r, b), e, now, a, now);
    r' := Delivers(r, Forward(f, a, b, now, time), e, now);
    denial := Post(NodeOf(r', b), a, StatusUpdate);
  }

  lemma DenialComes(r: Course, a: Server, b: Server, denial: Envelope, now: nat) returns (r': Course)
    requires Member(r, a) && Denies(r, b, denial) && denial.dest == a
    ensures Extends(r, r') && |r'.steps| == |r.steps| + 1
    ensures Carries(r', Hop(|r.steps| - 1, |r.steps| - 1, |r.steps|))
  {
    r' := Does(r, Receive(a, denial, now));
    assert r'.cs[|r.steps|] == End(r);
  }

  lemma WholeExchange(cluster: set<Server>, a: Server, f: Server, b: Server, t: nat) returns (r: Course)
    requires {a, f, b} <= cluster && a != f && a != b && f != b && b.port != 0
    ensures Runs(r) && |r.steps| == 8 && Begins(r, 0, b) && r.steps[0].at == a
    ensures RequestSent(r.steps[2], a, f, b) && AccusationSent(r.steps[5], a, f, b)
    ensures Carries(r, Hop(1, 2, 3)) && Carries(r, Hop(4, 5, 6)) && Carries(r, Hop(6, 6, 7))
  {
    var r4 := RequestComes(cluster, a, f, b, t);
    var time := NodeOf(r4, f).clock;
    var r5 := Reads(r4, f);
    var r7, denial := Forwards(r5, a, f, b, 4, time, t);
    r := DenialComes(r7, a, b, denial, t);
    Remains(r4, r, 0, Record(b, 0, 0, 0));
    RemainsCarried(r4, r, Hop(1, 2, 3));
    RemainsCarried(r7, r, Hop(4, 5, 6));
  }

  /** Among any three servers the exchange that refutes a suspicion can happen, and then it does. */
  lemma SuspicionCanBeRefuted(cluster: set<Server>, a: Server, f: Server, b: Server, t: nat)
    returns (cs: seq<State>, steps: seq<Step>)
    requires {a, f, b} <= cluster && a != f && a != b && f != b && a.port != 0 && f.port != 0 && b.port != 0
    ensures IsRun(cs, steps) && |steps| == 8
    ensures steps[0].at == a && BeginsToSuspect(cs, steps, 0, b)
    ensures Exchange(cs, steps, a, f, b, Hop(1, 2, 3), Hop(4, 5, 6), Hop(6, 6, 7))
    ensures KnownAlive(cs[8], a, b)
  {
    var r := WholeExchange(cluster, a, f, b, t);
    cs, steps := r.cs, r.steps;
    FalseSuspicionIsRefuted(cs, steps, a, f, b, Hop(1, 2, 3), Hop(4, 5, 6), Hop(6, 6, 7));
  }
}
