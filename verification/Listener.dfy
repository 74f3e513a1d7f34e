/**
 The status listener as a faithful observer: replaying the calls it received
 rebuilds the two membership sets.
 */
module Listener {
  import opened SwimTypes
  import opened Membership

  /** What a listener can know: who is alive and who is suspected. */
  datatype Roster = Roster(alive: set<Server>, suspected: set<Server>)

  function Observe(v: Roster, e: Event): Roster {
    match e.status
    case Alive => Roster(v.alive + {e.server}, v.suspected - {e.server})
    case Suspect => Roster(v.alive - {e.server}, v.suspected + {e.server})
    case Removed => Roster(v.alive, v.suspected - {e.server})
  }

  function Replay(log: seq<Event>): Roster {
    if log == [] then Roster({}, {}) else Observe(Replay(log[..|log| - 1]), log[|log| - 1])
  }

  /** The event is news: it changes what the listener knows. */
  ghost predicate News(v: Roster, e: Event) {
    match e.status
    case Alive => e.server !in v.alive
    case Suspect => e.server !in v.suspected
    case Removed => e.server in v.suspected && e.server !in v.alive
  }

  ghost predicate AllNews(log: seq<Event>) {
    log == [] || (AllNews(log[..|log| - 1]) && News(Replay(log[..|log| - 1]), log[|log| - 1]))
  }

  /** The listener knows exactly the membership, and was never told what it knew already. */
  ghost predicate Mirrored(n: Node) {
    Replay(n.log) == Roster(n.alive.Keys, n.suspected.Keys) && AllNews(n.log)
  }

  lemma Append(log: seq<Event>, e: Event)
    ensures Replay(log + [e]) == Observe(Replay(log), e)
    ensures AllNews(log + [e]) <==> AllNews(log) && News(Replay(log), e)
  {
    assert (log + [e])[..|log + [e]| - 1] == log;
  }

  lemma AddAliveMirrored(n: Node, s: Server, timestamp: nat)
    requires Inv(n) && Mirrored(n)
    ensures Mirrored(AddAlive(n, s, timestamp))
  {
    var n' := AddAlive(n, s, timestamp);
    if s.port != 0 {
      Append(n.log, Event(s, Alive));
      assert n'.alive.Keys == n.alive.Keys + {s};
      assert n'.suspected.Keys == n.suspected.Keys - {s};
      if s in n.alive {
        assert n'.alive.Keys == n.alive.Keys && n'.suspected.Keys == n.suspected.Keys;
      }
    }
  }

  lemma ReportSuspectedMirrored(n: Node, s: Server, timestamp: nat)
    requires Inv(n) && Mirrored(n)
    ensures Mirrored(ReportSuspected(n, s, timestamp))
  {
    var n' := ReportSuspected(n, s, timestamp);
    if s.port == 0 {
    } else if s == n.self {
      AddAliveMirrored(n, s, timestamp);
    } else {
      Append(n.log, Event(s, Suspect));
      assert n'.alive.Keys == n.alive.Keys - {s};
      assert n'.suspected.Keys == n.suspected.Keys + {s};
    }
  }

  lemma EvictMirrored(n: Node, s: Server)
    requires Inv(n) && Mirrored(n)
    ensures Mirrored(RemoveSuspected(n, s, true))
  {
    var n' := RemoveSuspected(n, s, true);
    Append(n.log, Event(s, Removed));
    assert n'.suspected.Keys == n.suspected.Keys - {s};
  }

  lemma RaiseKeepsKeys(m: map<Server, Record>, r: Record)
    ensures Raise(m, r).Keys == m.Keys
  {
  }

  lemma {:induction false} AliveLoopMirrored(n: Node, rs: seq<Record>)
    requires Inv(n) && Mirrored(n)
    ensures Mirrored(AliveLoop(n, rs))
  {
    if rs == [] {
    } else {
      var n1, r := AliveLoop(n, rs[..|rs| - 1]), rs[|rs| - 1];
      AliveLoopKeepsInv(n, rs[..|rs| - 1]);
      AliveLoopMirrored(n, rs[..|rs| - 1]);
      AddAliveMirrored(n1, r.server, r.timestamp);
      RaiseKeepsKeys(AddAlive(n1, r.server, r.timestamp).alive, r);
    }
  }

  lemma {:induction false} SuspectLoopMirrored(n: Node, rs: seq<Record>)
    requires Inv(n) && Mirrored(n)
    ensures Mirrored(SuspectLoop(n, rs))
  {
    if rs == [] {
    } else {
      var n1, r := SuspectLoop(n, rs[..|rs| - 1]), rs[|rs| - 1];
      SuspectLoopKeepsInv(n, rs[..|rs| - 1]);
      SuspectLoopMirrored(n, rs[..|rs| - 1]);
      ReportSuspectedMirrored(n1, r.server, r.timestamp);
      RaiseKeepsKeys(ReportSuspected(n1, r.server, r.timestamp).suspected, r);
    }
  }

  lemma DeliverMirrored(n: Node, e: Envelope, now: nat)
    requires Inv(n) && Mirrored(n)
    ensures Mirrored(Deliver(n, e, now))
  {
    var t := UpdateLamportTime(n, e.lamport);
    AddAliveMirrored(t, e.sender, now);
    AddAliveKeepsInv(t, e.sender, now);
    match e.payload
    case StatusUpdate => OnUpdateIsAddAlive(t, e.sender, now);
    case StatusReport(report) =>
      var t0 := AddAlive(t, e.sender, now);
      AliveLoopMirrored(t0, report.alive);
      AliveLoopKeepsInv(t0, report.alive);
      SuspectLoopMirrored(AliveLoop(t0, report.alive), report.suspected);
    case StatusRequest(_) =>
    case Unrecognized =>
  }

  /** A server the listener takes for suspected was announced as such, and nothing was said of it since. */
  lemma {:induction false} LastWordOnSuspect(log: seq<Event>, s: Server) returns (i: nat)
    requires s in Replay(log).suspected
    ensures i < |log| && log[i] == Event(s, Suspect)
    ensures forall j :: i < j < |log| ==> log[j].server != s
  {
    if log == [] {
      assert false;
    } else if log[|log| - 1] == Event(s, Suspect) {
      i := |log| - 1;
    } else {
      i := LastWordOnSuspect(log[..|log| - 1], s);
    }
  }

  lemma {:induction false} PrefixIsNews(log: seq<Event>, j: nat)
    requires AllNews(log) && j < |log|
    ensures News(Replay(log[..j]), log[j])
  {
    if j == |log| - 1 {
    } else {
      PrefixIsNews(log[..|log| - 1], j);
      assert log[..|log| - 1][..j] == log[..j];
    }
  }

  /** Every removal follows a suspicion of the same server, with no other event about it in between. */
  lemma RemovedFollowsSuspect(log: seq<Event>, j: nat, s: Server) returns (i: nat)
    requires AllNews(log) && j < |log| && log[j] == Event(s, Removed)
    ensures i < j && log[i] == Event(s, Suspect)
    ensures forall m :: i < m < j ==> log[m].server != s
  {
    PrefixIsNews(log, j);
    i := LastWordOnSuspect(log[..j], s);
  }
}
