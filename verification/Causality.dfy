/**
 Lamport clocks at work: news that a server has already superseded is ignored
 when it arrives, and a suspect that denies its death is believed.
 */
module Causality {
  import opened SwimTypes
  import opened Membership
  import opened ReportLaws
  import opened Cluster
  import opened Staleness

  // ----- Causal paths -----

  /**
   An envelope sent at step `sent` and received at step `received`, which carries the clock reading
   its sender took at step `read`.
   */
  datatype Hop = Hop(read: nat, sent: nat, received: nat)

  /** The clock of the acting server right after step `i`. */
  ghost function ClockAfter(cs: seq<State>, steps: seq<Step>, i: nat): nat
    requires IsRun(cs, steps) && i < |steps|
  {
    cs[i + 1].hosts[steps[i].at].node.clock
  }

  ghost predicate Delivered(cs: seq<State>, steps: seq<Step>, hop: Hop)
    requires IsRun(cs, steps)
  {
    && hop.read <= hop.sent < hop.received < |steps|
    && steps[hop.read].at == steps[hop.sent].at
    && (steps[hop.read].ReadClock? || hop.read == hop.sent)
    && var n := cs[hop.sent + 1].hosts[steps[hop.sent].at].node;
       && Reading(n, steps[hop.sent]) == ClockAfter(cs, steps, hop.read)
       && steps[hop.received].Receive? && steps[hop.received].e in Sent(n, steps[hop.sent])
  }

  /** Step `from` reaches step `to` through the given envelopes, and through time passing at one server. */
  ghost predicate Reaches(cs: seq<State>, steps: seq<Step>, from: nat, hops: seq<Hop>, to: nat)
    requires IsRun(cs, steps)
    decreases |hops|
  {
    if hops == [] then from <= to < |steps| && steps[from].at == steps[to].at
    else
      && from <= hops[0].read
      && Delivered(cs, steps, hops[0])
      && steps[from].at == steps[hops[0].read].at
      && Reaches(cs, steps, hops[0].received, hops[1..], to)
  }

  lemma LocalClock(cs: seq<State>, steps: seq<Step>, from: nat, to: nat)
    requires IsRun(cs, steps) && from <= to < |steps| && steps[from].at == steps[to].at
    ensures ClockAfter(cs, steps, from) <= ClockAfter(cs, steps, to)
  {
    ClockGrows(cs, steps, from + 1, to + 1, steps[from].at);
  }

  /** A delivery leaves the receiver's clock at least two above the clock the sender read. */
  lemma HopClock(cs: seq<State>, steps: seq<Step>, hop: Hop)
    requires IsRun(cs, steps) && Delivered(cs, steps, hop)
    ensures ClockAfter(cs, steps, hop.received) >= ClockAfter(cs, steps, hop.read) + 2
  {
    RunKeepsInv(cs, steps, hop.sent);
    SentIsSane(cs[hop.sent], steps[hop.sent], steps[hop.received].e);
    RunKeepsInv(cs, steps, hop.received);
    var step := steps[hop.received];
    DeliverKeepsInv(cs[hop.received].hosts[step.at].node, step.e, step.now);
  }

  /** Along a causal path the clock gains at least two for each envelope. */
  lemma {:induction false} CausalClock(cs: seq<State>, steps: seq<Step>, from: nat, hops: seq<Hop>, to: nat)
    requires IsRun(cs, steps) && Reaches(cs, steps, from, hops, to)
    ensures from < |steps| && to < |steps|
    ensures ClockAfter(cs, steps, to) >= ClockAfter(cs, steps, from) + 2 * |hops|
    decreases |hops|
  {
    if hops == [] {
      LocalClock(cs, steps, from, to);
    } else {
      LocalClock(cs, steps, from, hops[0].read);
      HopClock(cs, steps, hops[0]);
      CausalClock(cs, steps, hops[0].received, hops[1..], to);
    }
  }

  /** Every clock reading a server holds was taken at an earlier step. */
  lemma {:induction false} ReadingWasTaken(cs: seq<State>, steps: seq<Step>, i: nat, s: Server, time: nat)
    returns (read: nat)
    requires IsRun(cs, steps) && i < |cs| && s in cs[i].hosts && time in cs[i].hosts[s].readings
    ensures read < i && steps[read] == ReadClock(s) && ClockAfter(cs, steps, read) == time
  {
    if i == 0 {
      assert false;
    } else if s in cs[i - 1].hosts && time in cs[i - 1].hosts[s].readings {
      read := ReadingWasTaken(cs, steps, i - 1, s, time);
    } else {
      read := i - 1;
    }
  }

  /** Every envelope that is sent and received is a hop: the reading it carries was taken at some step. */
  lemma EveryDeliveryIsAHop(cs: seq<State>, steps: seq<Step>, sent: nat, received: nat) returns (hop: Hop)
    requires IsRun(cs, steps) && sent < received < |steps| && steps[received].Receive?
    requires steps[received].e in Sent(cs[sent + 1].hosts[steps[sent].at].node, steps[sent])
    ensures hop.sent == sent && hop.received == received && Delivered(cs, steps, hop)
  {
    if steps[sent].Receive? {
      hop := Hop(sent, sent, received);
    } else {
      var read := ReadingWasTaken(cs, steps, sent, steps[sent].at, steps[sent].time);
      hop := Hop(read, sent, received);
    }
  }

  // ----- Stamps never fall behind the event that set them -----

  /** After a step a record carries the stamp it had before, or the clock. */
  lemma StampStep(n: Node, step: Step, k: Server)
    requires Inv(n)
    ensures var n' := NodeAfter(n, step);
      && (k in n'.alive ==>
            n'.alive[k].lamport == n'.clock || (k in n.alive && n'.alive[k].lamport == n.alive[k].lamport))
      && (k in n'.suspected ==>
            n'.suspected[k].lamport == n'.clock || (k in n.suspected && n'.suspected[k].lamport == n.suspected[k].lamport))
  {
    if step.Receive? && step.e.payload.StatusReport? {
      OnReportClosedForm(UpdateLamportTime(n, step.e.lamport), step.e.sender, step.e.payload.report, step.now, k);
    }
  }

  /** Whatever the alive set says of `k` was stamped at `floor` or later. */
  ghost predicate AliveSince(n: Node, k: Server, floor: nat) {
    floor <= n.clock && (k in n.alive ==> floor <= n.alive[k].lamport)
  }

  ghost predicate SuspectedSince(n: Node, k: Server, floor: nat) {
    floor <= n.clock && (k in n.suspected ==> floor <= n.suspected[k].lamport)
  }

  lemma SinceStep(c: State, step: Step, s: Server, k: Server, floor: nat)
    requires ClusterInv(c) && Enabled(c, step) && s in c.hosts
    ensures AliveSince(c.hosts[s].node, k, floor) ==> AliveSince(Act(c, step).hosts[s].node, k, floor)
    ensures SuspectedSince(c.hosts[s].node, k, floor) ==> SuspectedSince(Act(c, step).hosts[s].node, k, floor)
  {
    ClockStep(c, step, s);
    if s == step.at {
      StampStep(c.hosts[s].node, step, k);
    }
  }

  lemma SinceNext(cs: seq<State>, steps: seq<Step>, i: nat, s: Server, k: Server, floor: nat)
    requires IsRun(cs, steps) && i < |steps| && s in cs[i].hosts
    ensures s in cs[i + 1].hosts
    ensures AliveSince(cs[i].hosts[s].node, k, floor) ==> AliveSince(cs[i + 1].hosts[s].node, k, floor)
    ensures SuspectedSince(cs[i].hosts[s].node, k, floor) ==> SuspectedSince(cs[i + 1].hosts[s].node, k, floor)
  {
    RunKeepsInv(cs, steps, i);
    SinceStep(cs[i], steps[i], s, k, floor);
  }

  lemma {:induction false} SinceForever(cs: seq<State>, steps: seq<Step>, i: nat, m: nat,
                                        s: Server, k: Server, floor: nat)
    requires IsRun(cs, steps) && i <= m < |cs| && s in cs[i].hosts
    ensures s in cs[m].hosts
    ensures AliveSince(cs[i].hosts[s].node, k, floor) ==> AliveSince(cs[m].hosts[s].node, k, floor)
    ensures SuspectedSince(cs[i].hosts[s].node, k, floor) ==> SuspectedSince(cs[m].hosts[s].node, k, floor)
  {
    if i == m {
    } else {
      SinceForever(cs, steps, i, m - 1, s, k, floor);
      SinceNext(cs, steps, m - 1, s, k, floor);
    }
  }

  // ----- Causal staleness -----

  /** The server that acts at step `i` holds `r` in its alive set right after it. */
  ghost predicate HoldsAlive(cs: seq<State>, steps: seq<Step>, i: nat, r: Record)
    requires IsRun(cs, steps) && i < |steps|
  {
    var n := cs[i + 1].hosts[steps[i].at].node;
    r.server in n.alive && n.alive[r.server] == r
  }

  ghost predicate HoldsSuspected(cs: seq<State>, steps: seq<Step>, i: nat, r: Record)
    requires IsRun(cs, steps) && i < |steps|
  {
    var n := cs[i + 1].hosts[steps[i].at].node;
    r.server in n.suspected && n.suspected[r.server] == r
  }

  /** The server that acts at step `j` did not suspect `k` before the step and does after it. */
  ghost predicate BeginsToSuspect(cs: seq<State>, steps: seq<Step>, j: nat, k: Server)
    requires IsRun(cs, steps) && j < |steps|
  {
    k !in cs[j].hosts[steps[j].at].node.suspected && k in cs[j + 1].hosts[steps[j].at].node.suspected
  }

  /** The server that acts at step `j` stamps `k` alive in that step. */
  ghost predicate StampsAlive(cs: seq<State>, steps: seq<Step>, j: nat, k: Server)
    requires IsRun(cs, steps) && j < |steps|
  {
    var n := cs[j + 1].hosts[steps[j].at].node;
    k in n.alive && n.alive[k].lamport == n.clock
  }

  /** Step `m` brings the server that acted at step `j` a report. */
  ghost predicate ReportArrives(cs: seq<State>, steps: seq<Step>, j: nat, m: nat)
    requires IsRun(cs, steps)
  {
    j < m < |steps| && steps[m].Receive? && steps[m].at == steps[j].at && steps[m].e.payload.StatusReport?
  }

  /** `s` takes `k` for alive, and has just stamped it so. */
  ghost predicate KnownAlive(c: State, s: Server, k: Server) {
    s in c.hosts && k in c.hosts[s].node.alive && k !in c.hosts[s].node.suspected
      && c.hosts[s].node.alive[k].lamport == c.hosts[s].node.clock
  }

  ghost predicate KnownSuspected(c: State, b: Server, k: Server) {
    b in c.hosts && k in c.hosts[b].node.suspected
  }

  /** An alive entry that is not stale makes its server known alive. */
  lemma FreshAliveIsKnown(cs: seq<State>, steps: seq<Step>, m: nat, x: Record)
    requires IsRun(cs, steps) && m < |steps| && steps[m].Receive? && steps[m].e.payload.StatusReport?
    requires x in steps[m].e.payload.report.alive && x.server != steps[m].at && x.server.port != 0
    requires !StaleAlive(cs[m].hosts[steps[m].at].node, x)
    ensures KnownAlive(cs[m + 1], steps[m].at, x.server)
  {
    RunKeepsInv(cs, steps, m);
    var n, e := cs[m].hosts[steps[m].at].node, steps[m].e;
    assert Heard(n, e.sender, e.payload.report, x.server);
    GoodNewsWins(n, e, steps[m].now, x.server);
    OnReportClosedForm(UpdateLamportTime(n, e.lamport), e.sender, e.payload.report, steps[m].now, x.server);
  }

  /** A suspect entry that is not stale makes its server a suspect, unless the report vouches for it. */
  lemma FreshSuspectIsBelieved(n: Node, e: Envelope, now: nat, x: Record)
    requires Inv(n) && e.payload.StatusReport? && WellFormed(e)
    requires x in e.payload.report.suspected && x.server != n.self && x.server.port != 0 && !StaleSuspect(n, x)
    ensures x.server in Deliver(n, e, now).suspected <==> !Heard(n, e.sender, e.payload.report, x.server)
  {
    OnReportClosedForm(UpdateLamportTime(n, e.lamport), e.sender, e.payload.report, now, x.server);
  }

  /** What an alive entry that arrives in a run does. */
  lemma ArrivingAlive(cs: seq<State>, steps: seq<Step>, m: nat, x: Record)
    requires IsRun(cs, steps) && m < |steps| && steps[m].Receive? && steps[m].e.payload.StatusReport?
    requires x.server.port != 0
    ensures var n, e, now := cs[m].hosts[steps[m].at].node, steps[m].e, steps[m].now;
      && n.self == steps[m].at
      && (StaleAlive(n, x) ==> SameEffect(n, e, WithoutAlive(e, x), now))
      && (x in e.payload.report.alive ==> (SameInAll(n, e, WithoutAlive(e, x), now) <==> NothingAlive(n, e.sender, now, x)))
      && (!StaleAlive(n, x) && x in e.payload.report.alive && x.server != n.self ==>
            KnownAlive(cs[m + 1], steps[m].at, x.server))
  {
    RunKeepsInv(cs, steps, m);
    var n, e, now := cs[m].hosts[steps[m].at].node, steps[m].e, steps[m].now;
    if x in e.payload.report.alive {
      AliveEntryIgnoredIff(n, e, now, x);
    }
    if StaleAlive(n, x) {
      StaleAliveIsIgnored(n, e, now, x);
    } else if x.server != steps[m].at && x in e.payload.report.alive {
      FreshAliveIsKnown(cs, steps, m, x);
    }
  }

  /** What a suspect entry that arrives in a run does. */
  lemma ArrivingSuspicion(cs: seq<State>, steps: seq<Step>, m: nat, x: Record)
    requires IsRun(cs, steps) && m < |steps| && steps[m].Receive? && steps[m].e.payload.StatusReport?
    requires x.server.port != 0
    ensures var n, e, now := cs[m].hosts[steps[m].at].node, steps[m].e, steps[m].now;
      && n.self == steps[m].at
      && (StaleSuspect(n, x) ==> SameEffect(n, e, WithoutSuspected(e, x), now))
      && (x in e.payload.report.suspected ==>
            (SameInAll(n, e, WithoutSuspected(e, x), now) <==> NothingSuspect(n, e.sender, e.payload.report, x)))
      && (!StaleSuspect(n, x) && x in e.payload.report.suspected && x.server != n.self ==>
            (x.server in NodeAfter(n, steps[m]).suspected <==> !Heard(n, e.sender, e.payload.report, x.server)))
  {
    RunKeepsInv(cs, steps, m);
    var n, e, now := cs[m].hosts[steps[m].at].node, steps[m].e, steps[m].now;
    if x in e.payload.report.suspected {
      SuspectEntryIgnoredIff(n, e, now, x);
    }
    if StaleSuspect(n, x) {
      StaleSuspectIsIgnored(n, e, now, x);
    } else if x.server != steps[m].at && x in e.payload.report.suspected {
      FreshSuspectIsBelieved(n, e, now, x);
    }
  }

  /**
   Server `a` holds `r` in its alive set after step `i`.  That step reaches, through at least one
   envelope, step `j`, at which `b` begins to suspect the server.  When `r`, or anything older,
   arrives at `b` later, it is ignored if and only if `b` suspects the server at that moment, unless
   the server itself is the sender.  If `b` does not suspect it, because it was evicted or has come back
   meanwhile, the old news makes it alive and stamps it with the current clock.
   */
  lemma SupersededAlive(cs: seq<State>, steps: seq<Step>, i: nat, hops: seq<Hop>, j: nat, r: Record, m: nat, x: Record)
    requires IsRun(cs, steps) && hops != [] && Reaches(cs, steps, i, hops, j) && i < |steps| && j < |steps|
    requires HoldsAlive(cs, steps, i, r) && BeginsToSuspect(cs, steps, j, r.server)
    requires ReportArrives(cs, steps, j, m) && x.server == r.server && x.lamport <= r.lamport
    ensures var n := cs[m].hosts[steps[m].at].node;
      && (StaleAlive(n, x) <==> r.server in n.suspected)
      && (r.server in n.suspected ==> SameEffect(n, steps[m].e, WithoutAlive(steps[m].e, x), steps[m].now))
    ensures var n, e, now := cs[m].hosts[steps[m].at].node, steps[m].e, steps[m].now;
      r.server != steps[m].at && x in e.payload.report.alive ==>
        (SameInAll(n, e, WithoutAlive(e, x), now) <==>
          if r.server == e.sender then x.timestamp == now && x.incarnation <= KnownIncarnation(n.alive, r.server)
          else r.server in n.suspected)
    ensures r.server !in cs[m].hosts[steps[m].at].node.suspected ==>
      r.server != steps[m].at && x in steps[m].e.payload.report.alive ==>
        KnownAlive(cs[m + 1], steps[m].at, r.server)
  {
    CausalClock(cs, steps, i, hops, j);
    RunKeepsInv(cs, steps, i + 1);
    RunKeepsInv(cs, steps, j);
    RunKeepsInv(cs, steps, m);
    StampStep(cs[j].hosts[steps[j].at].node, steps[j], r.server);
    SinceForever(cs, steps, j + 1, m, steps[j].at, r.server, ClockAfter(cs, steps, j));
    var n := cs[m].hosts[steps[m].at].node;
    ArrivingAlive(cs, steps, m, x);
  }

  /**
   The same with the roles exchanged: `a` holds `r` in its suspected set after step `i`, and `b`
   stamps the server alive at step `j`.  The old suspicion is stale if and only if the server is
   alive at `b` when it arrives.  If not, the server is a suspect afterwards, unless the same report
   vouches for it.  It is ignored in every respect if it is stale and not about `b` itself, and else
   exactly if the report vouches for the server or `b` suspects it already with that incarnation.
   */
  lemma SupersededSuspicion(cs: seq<State>, steps: seq<Step>, i: nat, hops: seq<Hop>, j: nat, r: Record, m: nat, x: Record)
    requires IsRun(cs, steps) && hops != [] && Reaches(cs, steps, i, hops, j) && i < |steps| && j < |steps|
    requires HoldsSuspected(cs, steps, i, r) && StampsAlive(cs, steps, j, r.server)
    requires ReportArrives(cs, steps, j, m) && x.server == r.server && x.lamport <= r.lamport
    ensures var n := cs[m].hosts[steps[m].at].node;
      && (StaleSuspect(n, x) <==> r.server in n.alive)
      && (r.server in n.alive ==> SameEffect(n, steps[m].e, WithoutSuspected(steps[m].e, x), steps[m].now))
    ensures var n, e := cs[m].hosts[steps[m].at].node, steps[m].e;
      x in e.payload.report.suspected ==>
        (SameInAll(n, e, WithoutSuspected(e, x), steps[m].now) <==>
          && r.server != steps[m].at
          && (|| r.server in n.alive || Heard(n, e.sender, e.payload.report, r.server)
              || (r.server in n.suspected && x.incarnation <= n.suspected[r.server].incarnation)))
    ensures var n := cs[m].hosts[steps[m].at].node;
      r.server !in n.alive && r.server != steps[m].at && x in steps[m].e.payload.report.suspected ==>
        (r.server in NodeAfter(n, steps[m]).suspected <==>
          !Heard(n, steps[m].e.sender, steps[m].e.payload.report, r.server))
  {
    CausalClock(cs, steps, i, hops, j);
    RunKeepsInv(cs, steps, i + 1);
    RunKeepsInv(cs, steps, m);
    SinceForever(cs, steps, j + 1, m, steps[j].at, r.server, ClockAfter(cs, steps, j));
    var n := cs[m].hosts[steps[m].at].node;
    ArrivingSuspicion(cs, steps, m, x);
  }

  // ----- Repeated suspicions -----

  /** Server `b` suspects `k` in all states from `i` to `m`. */
  ghost predicate Stands(cs: seq<State>, i: nat, m: nat, b: Server, k: Server) {
    i <= m < |cs| && forall t :: i <= t <= m ==> KnownSuspected(cs[t], b, k)
  }

  /** Server `b`, which begins to suspect `k` at step `j`, has not stopped up to state `m`. */
  ghost predicate SuspectsSince(cs: seq<State>, steps: seq<Step>, j: nat, m: nat, k: Server)
    requires IsRun(cs, steps) && j < |steps|
  {
    BeginsToSuspect(cs, steps, j, k) && Stands(cs, j + 1, m, steps[j].at, k)
  }

  ghost function SuspicionStamp(c: State, b: Server, k: Server): nat
    requires KnownSuspected(c, b, k)
  {
    c.hosts[b].node.suspected[k].lamport
  }

  lemma BeginningStamp(cs: seq<State>, steps: seq<Step>, j: nat, k: Server)
    requires IsRun(cs, steps) && j < |steps| && BeginsToSuspect(cs, steps, j, k)
    ensures SuspicionStamp(cs[j + 1], steps[j].at, k) == ClockAfter(cs, steps, j)
  {
    RunKeepsInv(cs, steps, j);
    StampStep(cs[j].hosts[steps[j].at].node, steps[j], k);
  }

  lemma StampOutlivesStep(cs: seq<State>, steps: seq<Step>, i: nat, b: Server, k: Server)
    requires IsRun(cs, steps) && i < |steps| && KnownSuspected(cs[i], b, k) && KnownSuspected(cs[i + 1], b, k)
    ensures SuspicionStamp(cs[i + 1], b, k) == SuspicionStamp(cs[i], b, k)
  {
    SuspicionOutlivesStep(cs, steps, i, b, k);
  }

  lemma {:induction false} StampStands(cs: seq<State>, steps: seq<Step>, i: nat, m: nat, b: Server, k: Server)
    requires IsRun(cs, steps) && Stands(cs, i, m, b, k)
    ensures KnownSuspected(cs[i], b, k) && KnownSuspected(cs[m], b, k)
    ensures SuspicionStamp(cs[m], b, k) == SuspicionStamp(cs[i], b, k)
  {
    if i == m {
    } else {
      assert KnownSuspected(cs[m], b, k);
      StampStands(cs, steps, i, m - 1, b, k);
      StampOutlivesStep(cs, steps, m - 1, b, k);
    }
  }

  /** However often the suspicion is renewed, its stamp is the one of the step that began it. */
  lemma StandingSuspicionStamp(cs: seq<State>, steps: seq<Step>, j: nat, m: nat, k: Server)
    requires IsRun(cs, steps) && j < |steps| && j < m && SuspectsSince(cs, steps, j, m, k)
    ensures KnownSuspected(cs[m], steps[j].at, k)
    ensures SuspicionStamp(cs[m], steps[j].at, k) == ClockAfter(cs, steps, j)
  {
    BeginningStamp(cs, steps, j, k);
    StampStands(cs, steps, j + 1, m, steps[j].at, k);
  }

  /**
   That a suspicion begins at step `j` matters: reporting a suspect again does not refresh its stamp.
   As long as the suspicion stands, a sign of life `x` is ignored if and only if it is older than the
   step that began it, whatever was reported later, unless the suspect itself sends it.
   */
  lemma FirstSuspicionDecides(cs: seq<State>, steps: seq<Step>, j: nat, m: nat, x: Record)
    requires IsRun(cs, steps) && j < |steps| && ReportArrives(cs, steps, j, m)
    requires SuspectsSince(cs, steps, j, m, x.server)
    ensures var n, e, now := cs[m].hosts[steps[m].at].node, steps[m].e, steps[m].now;
      && (StaleAlive(n, x) <==> x.lamport < ClockAfter(cs, steps, j))
      && (StaleAlive(n, x) ==> SameEffect(n, e, WithoutAlive(e, x), now))
      && (!StaleAlive(n, x) && x in e.payload.report.alive ==> KnownAlive(cs[m + 1], steps[m].at, x.server))
      && (x in e.payload.report.alive ==>
            (SameInAll(n, e, WithoutAlive(e, x), now) <==>
              if x.server == e.sender then x.timestamp == now && x.incarnation == 0
              else x.lamport < ClockAfter(cs, steps, j)))
  {
    StandingSuspicionStamp(cs, steps, j, m, x.server);
    RunKeepsInv(cs, steps, m);
    ArrivingAlive(cs, steps, m, x);
  }

  // ----- Refutation -----

  /**
   The exchange that clears a false suspicion: `a` asks `f` to ping `b`, `f` passes the accusation on,
   having read its clock after the request came, and what `b` sends on hearing it arrives at `a`.
   Any other steps may come in between.
   */
  ghost predicate Exchange(cs: seq<State>, steps: seq<Step>, a: Server, f: Server, b: Server,
                           request: Hop, accusation: Hop, denial: Hop)
    requires IsRun(cs, steps)
  {
    && Delivered(cs, steps, request) && Delivered(cs, steps, accusation) && Delivered(cs, steps, denial)
    && request.received < accusation.read && accusation.received == denial.read == denial.sent
    && RequestSent(steps[request.sent], a, f, b)
    && AccusationSent(steps[accusation.sent], a, f, b)
  }

  ghost predicate RequestSent(step: Step, a: Server, f: Server, b: Server) {
    step.SendRequest? && step.at == a && step.dest == f && step.suspect == b
  }

  ghost predicate AccusationSent(step: Step, a: Server, f: Server, b: Server) {
    step.Forward? && step.at == f && step.requestor == a && step.suspect == b
  }

  lemma PingMakesKnown(cs: seq<State>, steps: seq<Step>, i: nat)
    requires IsRun(cs, steps) && i < |steps| && steps[i].Receive? && steps[i].e.sender.port != 0
    ensures KnownAlive(cs[i + 1], steps[i].at, steps[i].e.sender)
  {
    RunKeepsInv(cs, steps, i);
    var n, e := cs[i].hosts[steps[i].at].node, steps[i].e;
    DeliverKeepsInv(n, e, steps[i].now);
    if e.payload.StatusReport? {
      OnReportClosedForm(UpdateLamportTime(n, e.lamport), e.sender, e.payload.report, steps[i].now, e.sender);
    }
  }

  /** A forwarded report accuses the suspect in the name of the requestor, and says nothing else. */
  lemma ForwardedOnlyAccuses(requestor: Server, suspect: Server, timestamp: nat)
    ensures OnlyAccuses(ForwardedReport(requestor, suspect, timestamp), requestor, suspect)
  {
  }

  lemma OnlyOneAccused(n: Node, e: Envelope, suspect: Server, now: nat, k: Server)
    requires Inv(n) && e.payload.StatusReport? && OnlyAccuses(e.payload.report, e.payload.report.sender, suspect)
    requires k != e.sender && (k != suspect || k == n.self)
    ensures SameAt(n, Deliver(n, e, now), k)
  {
    var report, t := e.payload.report, UpdateLamportTime(n, e.lamport);
    assert k != n.self ==> About(report.suspected, k) == [];
    OnReportRecords(t, e.sender, report, now, k);
  }

  lemma ForwarderIsSeen(n: Node, e: Envelope, suspect: Server, now: nat)
    requires Inv(n) && e.payload.StatusReport? && OnlyAccuses(e.payload.report, e.payload.report.sender, suspect)
    requires e.sender.port != 0
    ensures var n', clock := Deliver(n, e, now), Max(n.clock, e.lamport) + 1;
      && Lookup(n'.alive, e.sender) == Some(Record(e.sender, KnownIncarnation(n.alive, e.sender), now, clock))
      && e.sender !in n'.suspected
  {
    var report, t := e.payload.report, UpdateLamportTime(n, e.lamport);
    var r := report.suspected[0];
    assert report.suspected == [r];
    OneCounts(r, Seen(t, e.sender, report, now, e.sender));
    OnReportRecords(t, e.sender, report, now, e.sender);
  }

  /** The accusation of another server is believed, unless there is a later sign of life. */
  ghost predicate TookAccusation(n: Node, n': Node, suspect: Server, timestamp: nat) {
    if suspect in n.alive && n.alive[suspect].lamport > 0 then SameAt(n, n', suspect)
    else
      && suspect !in n'.alive && suspect in n'.suspected
      && n'.suspected[suspect] ==
           if suspect in n.suspected then n.suspected[suspect] else Record(suspect, 0, timestamp, n'.clock)
  }

  lemma AccusationArrives(n: Node, e: Envelope, suspect: Server, now: nat)
    requires Inv(n) && e.payload.StatusReport? && OnlyAccuses(e.payload.report, e.payload.report.sender, suspect)
    requires e.sender != suspect && suspect != n.self && suspect.port != 0
    ensures TookAccusation(n, Deliver(n, e, now), suspect, e.payload.report.suspected[0].timestamp)
  {
    var report, t := e.payload.report, UpdateLamportTime(n, e.lamport);
    var r := report.suspected[0];
    assert report.suspected == [r];
    OneCounts(r, Lookup(t.alive, suspect));
    OneEntry(t, r);
    OnReportRecords(t, e.sender, report, now, suspect);
  }

  /**
   What a forwarded report does where it arrives.  Its forwarder has been seen.  To the accused it
   says nothing of anybody else.  Any other server learns of the suspect only, which it suspects from
   then on unless it has a later sign of life of it.
   */
  lemma ForwardedReportArrives(n: Node, e: Envelope, requestor: Server, suspect: Server, timestamp: nat, now: nat,
                               k: Server)
    requires Inv(n) && e.payload == StatusReport(ForwardedReport(requestor, suspect, timestamp))
    ensures var n', clock := Deliver(n, e, now), Max(n.clock, e.lamport) + 1;
      && n'.clock == clock
      && (e.sender.port != 0 ==>
            && Lookup(n'.alive, e.sender) == Some(Record(e.sender, KnownIncarnation(n.alive, e.sender), now, clock))
            && e.sender !in n'.suspected)
      && (k != e.sender && k != suspect ==> SameAt(n, n', k))
      && (suspect == n.self ==> ChangedOnlyAt(n, n', e.sender))
      && (suspect != n.self && suspect != e.sender && suspect.port != 0 ==> TookAccusation(n, n', suspect, timestamp))
  {
    ForwardedOnlyAccuses(requestor, suspect, timestamp);
    DeliverKeepsInv(n, e, now);
    if e.sender.port != 0 {
      ForwarderIsSeen(n, e, suspect, now);
    }
    if k != e.sender && k != suspect {
      OnlyOneAccused(n, e, suspect, now, k);
    }
    if suspect == n.self {
      OnlyForwarderChanges(n, e, now);
    } else if suspect != e.sender && suspect.port != 0 {
      AccusationArrives(n, e, suspect, now);
    }
  }

  lemma OnlyForwarderChanges(n: Node, e: Envelope, now: nat)
    requires Inv(n) && e.payload.StatusReport? && OnlyAccuses(e.payload.report, e.payload.report.sender, n.self)
    ensures ChangedOnlyAt(n, Deliver(n, e, now), e.sender)
  {
    forall k | k != e.sender ensures SameAt(n, Deliver(n, e, now), k) {
      OnlyOneAccused(n, e, n.self, now, k);
    }
  }

  /** On hearing itself accused in a forwarded report, a server pings the original requestor. */
  lemma AccusedPingsRequestor(n: Node, e: Envelope, now: nat, requestor: Server, timestamp: nat)
    requires Inv(n) && e.payload == StatusReport(ForwardedReport(requestor, n.self, timestamp))
    ensures var n' := Deliver(n, e, now);
      Sent(n', Receive(n.self, e, now)) == {Post(n', requestor, StatusUpdate)}
  {
    var n', report := Deliver(n, e, now), e.payload.report;
    DeliverKeepsInv(n, e, now);
    DenialsArePings(n', report, report.suspected);
    assert report.suspected[0] in report.suspected && report.suspected[0].server == n'.self;
  }

  lemma RequestIsHeard(cs: seq<State>, steps: seq<Step>, a: Server, f: Server, b: Server, hop: Hop)
    requires IsRun(cs, steps) && Delivered(cs, steps, hop) && RequestSent(steps[hop.sent], a, f, b) && a.port != 0
    ensures steps[hop.received].at == f
    ensures KnownAlive(cs[hop.received + 1], f, a) && (a, b) in cs[hop.received + 1].hosts[f].forwards
  {
    RunKeepsInv(cs, steps, hop.sent);
    SentIsSane(cs[hop.sent], steps[hop.sent], steps[hop.received].e);
    PingMakesKnown(cs, steps, hop.received);
  }

  lemma AccusationIsHeard(cs: seq<State>, steps: seq<Step>, a: Server, f: Server, b: Server, hop: Hop)
    requires IsRun(cs, steps) && Delivered(cs, steps, hop) && AccusationSent(steps[hop.sent], a, f, b) && f.port != 0
    ensures steps[hop.received].at == b && KnownAlive(cs[hop.received + 1], b, f)
    ensures var n := cs[hop.received + 1].hosts[b].node; Sent(n, steps[hop.received]) == {Post(n, a, StatusUpdate)}
    ensures ChangedOnlyAt(cs[hop.received].hosts[b].node, cs[hop.received + 1].hosts[b].node, f)
  {
    RunKeepsInv(cs, steps, hop.sent);
    SentIsSane(cs[hop.sent], steps[hop.sent], steps[hop.received].e);
    PingMakesKnown(cs, steps, hop.received);
    RunKeepsInv(cs, steps, hop.received);
    var step := steps[hop.received];
    var n := cs[hop.received].hosts[b].node;
    AccusedPingsRequestor(n, step.e, step.now, a, steps[hop.sent].now);
    ForwardedOnlyAccuses(a, b, steps[hop.sent].now);
    OnlyForwarderChanges(n, step.e, step.now);
  }

  lemma DenialIsHeard(cs: seq<State>, steps: seq<Step>, a: Server, b: Server, hop: Hop)
    requires IsRun(cs, steps) && Delivered(cs, steps, hop) && steps[hop.sent].at == b && b.port != 0
    requires steps[hop.received].e == Post(cs[hop.sent + 1].hosts[b].node, a, StatusUpdate)
    ensures steps[hop.received].at == a && KnownAlive(cs[hop.received + 1], a, b)
  {
    RunKeepsInv(cs, steps, hop.sent + 1);
    PingMakesKnown(cs, steps, hop.received);
  }

  /**
   After the exchange everyone involved has heard of everyone: `a` is alive at `f`, `f` is alive at
   `b`, `b` answers `a` and nobody else, and `b` is alive and no longer suspected at `a`.  Hearing the
   accusation, `b` changes its mind about nobody but `f`.
   */
  lemma FalseSuspicionIsRefuted(cs: seq<State>, steps: seq<Step>, a: Server, f: Server, b: Server,
                                request: Hop, accusation: Hop, denial: Hop)
    requires IsRun(cs, steps) && Exchange(cs, steps, a, f, b, request, accusation, denial)
    requires a.port != 0 && f.port != 0 && b.port != 0
    ensures steps[request.received].at == f && steps[accusation.received].at == b && steps[denial.received].at == a
    ensures KnownAlive(cs[request.received + 1], f, a) && (a, b) in cs[request.received + 1].hosts[f].forwards
    ensures KnownAlive(cs[accusation.received + 1], b, f)
    ensures ChangedOnlyAt(cs[accusation.received].hosts[b].node, cs[accusation.received + 1].hosts[b].node, f)
    ensures steps[denial.received].e == Post(cs[denial.sent + 1].hosts[b].node, a, StatusUpdate)
    ensures KnownAlive(cs[denial.received + 1], a, b)
  {
    RequestIsHeard(cs, steps, a, f, b, request);
    AccusationIsHeard(cs, steps, a, f, b, accusation);
    DenialIsHeard(cs, steps, a, b, denial);
  }

  lemma ExchangeReaches(cs: seq<State>, steps: seq<Step>, a: Server, f: Server, b: Server,
                        request: Hop, accusation: Hop, denial: Hop, h: nat)
    requires IsRun(cs, steps) && Exchange(cs, steps, a, f, b, request, accusation, denial)
    requires a.port != 0 && f.port != 0 && b.port != 0
    requires h <= request.read && steps[h].at == a
    ensures Reaches(cs, steps, h, [request, accusation, denial], denial.received)
  {
    RequestIsHeard(cs, steps, a, f, b, request);
    var hops := [request, accusation, denial];
    assert hops[1..] == [accusation, denial] && hops[1..][1..] == [denial] && hops[1..][1..][1..] == [];
    assert Reaches(cs, steps, denial.received, [], denial.received);
    assert Reaches(cs, steps, accusation.received, hops[1..][1..], denial.received);
    assert Reaches(cs, steps, request.received, hops[1..], denial.received);
  }

  /**
   The refutation sticks: a suspicion `a` held before it read its clock for the request, coming back
   to `a` later by whatever route, is ignored if and only if `a` then takes `b` for alive.
   */
  lemma RefutationSticks(cs: seq<State>, steps: seq<Step>, a: Server, f: Server, b: Server,
                         request: Hop, accusation: Hop, denial: Hop, h: nat, m: nat, x: Record)
    requires IsRun(cs, steps) && Exchange(cs, steps, a, f, b, request, accusation, denial)
    requires a.port != 0 && f.port != 0 && b.port != 0
    requires h <= request.read && steps[h].at == a && b in cs[h + 1].hosts[a].node.suspected
    requires ReportArrives(cs, steps, denial.received, m)
    requires x.server == b && x.lamport <= cs[h + 1].hosts[a].node.suspected[b].lamport
    ensures steps[m].at == a && a in cs[m].hosts
    ensures var n := cs[m].hosts[a].node;
      && (StaleSuspect(n, x) <==> b in n.alive)
      && (b in n.alive ==> SameEffect(n, steps[m].e, WithoutSuspected(steps[m].e, x), steps[m].now))
      && (x in steps[m].e.payload.report.suspected && b in n.alive ==>
            SameInAll(n, steps[m].e, WithoutSuspected(steps[m].e, x), steps[m].now))
  {
    FalseSuspicionIsRefuted(cs, steps, a, f, b, request, accusation, denial);
    ExchangeReaches(cs, steps, a, f, b, request, accusation, denial, h);
    RunKeepsInv(cs, steps, h + 1);
    SupersededSuspicion(cs, steps, h, [request, accusation, denial], denial.received,
                        cs[h + 1].hosts[a].node.suspected[b], m, x);
  }
}
