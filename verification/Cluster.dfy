/**
 A cluster of servers that exchange envelopes over an unreliable network, and
 its runs.

 The network is the set of envelopes ever sent: any of them may arrive at its
 destination late, repeatedly or never.  A step is one call of a handler or of
 the failure detector.  What the detector decides on the strength of a reply or
 of a timeout may happen at any moment.

 A client of the detector reads the clock when it is created and sends later;
 the server may have moved its clock on in between.  Reading is therefore a step
 of its own, and a send uses some earlier reading.
 */
module Cluster {
  import opened SwimTypes
  import opened Membership
  import opened ReportLaws
  import opened Listener
  import Reporting

  /**
   A server with its work in progress: clock readings taken, reports prepared together with the
   clock at that time, and pings promised to requestors.
   */
  datatype Host = Host(node: Node, readings: set<nat>, prepared: set<(Report, nat)>, forwards: set<(Server, Server)>)

  datatype State = State(hosts: map<Server, Host>, net: set<Envelope>)

  datatype Step =
    | Receive(at: Server, e: Envelope, now: nat)
    | Prepare(at: Server, report: Report, nowAlive: nat, nowSuspected: nat)
    | ReadClock(at: Server)
    | SendReport(at: Server, dest: Server, report: Report, made: nat, time: nat)
    | SendPing(at: Server, dest: Server, time: nat)
    | SendRequest(at: Server, dest: Server, suspect: Server, time: nat)
    | Forward(at: Server, requestor: Server, suspect: Server, now: nat, time: nat)
    | NoteAlive(at: Server, server: Server, now: nat)
    | NoteSuspect(at: Server, server: Server, now: nat)
    | Evict(at: Server, server: Server)

  function NewHost(s: Server): Host {
    Host(NewNode(s), {}, {}, {})
  }

  ghost predicate Init(c: State) {
    c.net == {} && forall s :: s in c.hosts ==> c.hosts[s] == NewHost(s)
  }

  ghost predicate Enabled(c: State, step: Step) {
    step.at in c.hosts &&
    match step
    case Receive(at, e, _) => e in c.net && e.dest == at
    case Prepare(at, report, nowAlive, nowSuspected) =>
      Reporting.Prepared(c.hosts[at].node, report, nowAlive, nowSuspected)
    case SendReport(at, _, report, made, time) =>
      (report, made) in c.hosts[at].prepared && made <= time && time in c.hosts[at].readings
    case SendPing(at, _, time) => time in c.hosts[at].readings
    case SendRequest(at, _, _, time) => time in c.hosts[at].readings
    case Forward(at, requestor, suspect, _, time) =>
      (requestor, suspect) in c.hosts[at].forwards && time in c.hosts[at].readings
    case _ => true
  }

  function NodeAfter(n: Node, step: Step): Node {
    match step
    case Receive(_, e, now) => Deliver(n, e, now)
    case NoteAlive(_, s, now) => AddAlive(n, s, now)
    case NoteSuspect(_, s, now) => ReportSuspected(n, s, now)
    case Evict(_, s) => RemoveSuspected(n, s, true)
    case _ => n
  }

  function HostAfter(h: Host, step: Step): Host {
    Host(NodeAfter(h.node, step),
         if step.ReadClock? then h.readings + {h.node.clock} else h.readings,
         if step.Prepare? then h.prepared + {(step.report, h.node.clock)} else h.prepared,
         if step.Receive? && step.e.payload.StatusRequest?
         then h.forwards + {(step.e.sender, step.e.payload.destination)} else h.forwards)
  }

  /** The envelopes a step sends, given the node after the step. */
  function Sent(n: Node, step: Step): set<Envelope> {
    match step
    case Receive(_, e, _) =>
      if e.payload.StatusReport?
      then (set d | d in Denials(n, e.payload.report, e.payload.report.suspected)) else {}
    case SendReport(_, dest, report, _, time) => {PostAt(n.self, time, dest, StatusReport(report))}
    case SendPing(_, dest, time) => {PostAt(n.self, time, dest, StatusUpdate)}
    case SendRequest(_, dest, suspect, time) => {PostAt(n.self, time, dest, StatusRequest(suspect))}
    case Forward(_, requestor, suspect, now, time) =>
      {PostAt(n.self, time, suspect, StatusReport(ForwardedReport(requestor, suspect, now)))}
    case _ => {}
  }

  function Act(c: State, step: Step): State
    requires step.at in c.hosts
  {
    var h := HostAfter(c.hosts[step.at], step);
    State(c.hosts[step.at := h], c.net + Sent(h.node, step))
  }

  ghost predicate IsRun(cs: seq<State>, steps: seq<Step>) {
    && |cs| == |steps| + 1
    && Init(cs[0])
    && forall i :: 0 <= i < |steps| ==> Enabled(cs[i], steps[i]) && cs[i + 1] == Act(cs[i], steps[i])
  }

  // ----- The invariant of all reachable states -----

  ghost predicate NoLaterThan(report: Report, clock: nat) {
    forall r :: r in report.alive || r in report.suspected ==> r.lamport <= clock
  }

  ghost predicate HostInv(h: Host, s: Server) {
    && h.node.self == s
    && Inv(h.node)
    && Mirrored(h.node)
    && (forall t :: t in h.readings ==> t <= h.node.clock)
    && (forall p :: p in h.prepared ==> NoLaterThan(p.0, p.1) && NamesOnce(p.0) && p.1 <= h.node.clock)
  }

  /**
   An envelope on the network carries a stamp above all its records and some payload a client sends;
   the lists of a report name each server once.
   */
  ghost predicate Sane(e: Envelope) {
    WellFormed(e) && !e.payload.Unrecognized? && (e.payload.StatusReport? ==> NamesOnce(e.payload.report))
  }

  ghost predicate ClusterInv(c: State) {
    && (forall s :: s in c.hosts ==> HostInv(c.hosts[s], s))
    && (forall e :: e in c.net ==> Sane(e))
  }

  /** A step stamps nothing by a clock that has gone back. */
  lemma NodeStep(n: Node, step: Step)
    requires Inv(n) && Mirrored(n)
    ensures Inv(NodeAfter(n, step)) && Mirrored(NodeAfter(n, step))
    ensures NodeAfter(n, step).self == n.self && n.clock <= NodeAfter(n, step).clock
  {
    match step
    case Receive(_, e, now) =>
      DeliverKeepsInv(n, e, now);
      DeliverMirrored(n, e, now);
    case NoteAlive(_, s, now) =>
      AddAliveKeepsInv(n, s, now);
      AddAliveMirrored(n, s, now);
    case NoteSuspect(_, s, now) =>
      ReportSuspectedKeepsInv(n, s, now);
      ReportSuspectedMirrored(n, s, now);
    case Evict(_, s) =>
      RemoveSuspectedKeepsInv(n, s, true);
      EvictMirrored(n, s);
    case _ =>
  }

  lemma HostStep(c: State, step: Step)
    requires ClusterInv(c) && Enabled(c, step)
    ensures HostInv(HostAfter(c.hosts[step.at], step), step.at)
  {
    var h := c.hosts[step.at];
    NodeStep(h.node, step);
    if step.Prepare? {
      Reporting.SelectionIsFromSet(h.node.alive, step.nowAlive, step.report.alive);
      Reporting.SelectionIsFromSet(h.node.suspected, step.nowSuspected, step.report.suspected);
    }
  }

  lemma {:induction false} DenialsArePings(n: Node, report: Report, rs: seq<Record>)
    ensures forall d :: d in Denials(n, report, rs) ==> d == Post(n, report.sender, StatusUpdate)
    ensures (exists r :: r in rs && r.server == n.self) <==> Post(n, report.sender, StatusUpdate) in Denials(n, report, rs)
  {
    if rs == [] {
    } else {
      assert rs == rs[..|rs| - 1] + [rs[|rs| - 1]];
      DenialsArePings(n, report, rs[..|rs| - 1]);
    }
  }

  /** The clock reading a step sends with: an earlier one, or the clock itself for a denial. */
  function Reading(n: Node, step: Step): nat {
    if step.SendReport? || step.SendPing? || step.SendRequest? || step.Forward? then step.time else n.clock
  }

  /** Everything sent carries the reading plus one, which is at most the clock plus one, and only older records. */
  lemma SentIsSane(c: State, step: Step, e: Envelope)
    requires ClusterInv(c) && Enabled(c, step)
    requires e in Sent(HostAfter(c.hosts[step.at], step).node, step)
    ensures var n := HostAfter(c.hosts[step.at], step).node;
      e.lamport == Reading(n, step) + 1 <= n.clock + 1
    ensures Sane(e) && e.sender == step.at
  {
    var n := HostAfter(c.hosts[step.at], step).node;
    NodeStep(c.hosts[step.at].node, step);
    if step.Receive? {
      DenialsArePings(n, step.e.payload.report, step.e.payload.report.suspected);
    }
  }

  lemma StepKeepsInv(c: State, step: Step)
    requires ClusterInv(c) && Enabled(c, step)
    ensures ClusterInv(Act(c, step))
  {
    HostStep(c, step);
    var n := HostAfter(c.hosts[step.at], step).node;
    forall e | e in Sent(n, step) ensures Sane(e) {
      SentIsSane(c, step, e);
    }
  }

  /**
   In every state of every run, at every server: stored stamps do not exceed the clock, the two sets
   are disjoint, hold no port-0 server and never suspect the server itself, the listener has been
   told exactly the membership, and every record in flight is older than its envelope and the only
   one in its list about its server.
   */
  lemma {:induction false} RunKeepsInv(cs: seq<State>, steps: seq<Step>, i: nat)
    requires IsRun(cs, steps) && i < |cs|
    ensures ClusterInv(cs[i])
  {
    if i == 0 {
    } else {
      RunKeepsInv(cs, steps, i - 1);
      StepKeepsInv(cs[i - 1], steps[i - 1]);
    }
  }

  lemma ClockStep(c: State, step: Step, s: Server)
    requires ClusterInv(c) && Enabled(c, step) && s in c.hosts
    ensures s in Act(c, step).hosts && c.hosts[s].node.clock <= Act(c, step).hosts[s].node.clock
  {
    if s == step.at {
      NodeStep(c.hosts[s].node, step);
    }
  }

  lemma ClockNext(cs: seq<State>, steps: seq<Step>, i: nat, s: Server)
    requires IsRun(cs, steps) && i < |steps| && s in cs[i].hosts
    ensures s in cs[i + 1].hosts && cs[i].hosts[s].node.clock <= cs[i + 1].hosts[s].node.clock
  {
    RunKeepsInv(cs, steps, i);
    ClockStep(cs[i], steps[i], s);
  }

  /** Servers neither join nor leave, and no clock goes back. */
  lemma {:induction false} ClockGrows(cs: seq<State>, steps: seq<Step>, i: nat, j: nat, s: Server)
    requires IsRun(cs, steps) && i <= j < |cs| && s in cs[i].hosts
    ensures s in cs[j].hosts && cs[i].hosts[s].node.clock <= cs[j].hosts[s].node.clock
  {
    if i == j {
    } else {
      ClockGrows(cs, steps, i, j - 1, s);
      ClockNext(cs, steps, j - 1, s);
    }
  }

  // ----- Consequences for every run -----

  /** A repeated delivery changes no membership and notifies nobody. */
  lemma RepeatedDelivery(cs: seq<State>, steps: seq<Step>, i: nat, s: Server, e: Envelope, now: nat, later: nat)
    requires IsRun(cs, steps) && i < |cs| && s in cs[i].hosts && e in cs[i].net
    ensures var n := Deliver(cs[i].hosts[s].node, e, now); SameMembership(n, Deliver(n, e, later))
  {
    RunKeepsInv(cs, steps, i);
    Idempotence(cs[i].hosts[s].node, e, now, later);
  }

  /** In every run, replaying the listener's calls gives exactly the two sets of the server. */
  lemma ReplayIsMembership(cs: seq<State>, steps: seq<Step>, i: nat, s: Server)
    requires IsRun(cs, steps) && i < |cs| && s in cs[i].hosts
    ensures Replay(cs[i].hosts[s].node.log)
      == Roster(cs[i].hosts[s].node.alive.Keys, cs[i].hosts[s].node.suspected.Keys)
  {
    RunKeepsInv(cs, steps, i);
  }

  /** In every run, a removal follows a suspicion of the same server with nothing about it in between. */
  lemma RemovalsFollowSuspicions(cs: seq<State>, steps: seq<Step>, i: nat, s: Server, k: Server, j: nat) returns (m: nat)
    requires IsRun(cs, steps) && i < |cs| && s in cs[i].hosts
    requires j < |cs[i].hosts[s].node.log| && cs[i].hosts[s].node.log[j] == Event(k, Removed)
    ensures m < j && cs[i].hosts[s].node.log[m] == Event(k, Suspect)
    ensures forall x :: m < x < j ==> cs[i].hosts[s].node.log[x].server != k
  {
    RunKeepsInv(cs, steps, i);
    m := RemovedFollowsSuspect(cs[i].hosts[s].node.log, j, k);
  }

  /** In every run, a suspicion that outlives a step keeps its stamp and its time. */
  lemma SuspicionOutlivesStep(cs: seq<State>, steps: seq<Step>, i: nat, s: Server, k: Server)
    requires IsRun(cs, steps) && i < |steps| && s in cs[i].hosts
    requires k in cs[i].hosts[s].node.suspected && k in cs[i + 1].hosts[s].node.suspected
    ensures cs[i + 1].hosts[s].node.suspected[k].lamport == cs[i].hosts[s].node.suspected[k].lamport
    ensures cs[i + 1].hosts[s].node.suspected[k].timestamp == cs[i].hosts[s].node.suspected[k].timestamp
  {
    RunKeepsInv(cs, steps, i);
    if s == steps[i].at && steps[i].Receive? {
      SuspicionIsFixed(cs[i].hosts[s].node, steps[i].e, steps[i].now, k);
    }
  }
}
