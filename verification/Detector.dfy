/**
 The failure detector: whom it contacts, what it concludes from their silence
 and which suspects it gives up on.
 */
module Detector {
  import opened SwimTypes
  import opened RecordSet
  import opened RoundRobin
  import opened NeighborRing
  import opened Rounds
  import opened GossipServer
  import Listener
  import Membership
  import Reporting

  lemma EvictOneMore(n: Membership.Node, rs: seq<Record>, i: nat, cutoff: int)
    requires i < |rs|
    ensures Reporting.EvictExpired(n, rs[..i + 1], cutoff) ==
      var n' := Reporting.EvictExpired(n, rs[..i], cutoff);
      if rs[i].timestamp < cutoff then Membership.RemoveSuspected(n', rs[i].server, true) else n'
  {
    assert rs[..i + 1][..i] == rs[..i];
  }

  class GossipFailureDetector {
    const server: SwimServer
    var roundRobinIndex: nat
    var numReports: nat
    var numForwards: nat
    var gracePeriod: int

    constructor (server: SwimServer, gracePeriod: int)
      ensures this.server == server && this.gracePeriod == gracePeriod
      ensures roundRobinIndex == 0 && numReports == 6 && numForwards == 3
    {
      this.server, this.gracePeriod := server, gracePeriod;
      roundRobinIndex, numReports, numForwards := 0, 6, 3;
    }

    /** The neighbor at the index, which starts over past the end and moves on by one. */
    method NextNeighbor() returns (other: Server)
      requires server.Valid() && server.alive != []
      modifies this`roundRobinIndex
      ensures 0 < roundRobinIndex <= |server.alive|
      ensures roundRobinIndex - 1 == if old(roundRobinIndex) < |server.alive| then old(roundRobinIndex) else 0
      ensures other == server.alive[roundRobinIndex - 1].server
    {
      if roundRobinIndex > |server.alive| - 1 {
        roundRobinIndex := 0;
      }
      EmptyContents(server.alive);
      var neighbor := server.GetNeighborByIndex(roundRobinIndex);
      other := neighbor.value;
      KeyAtPosition(server.alive, roundRobinIndex, other);
      roundRobinIndex := roundRobinIndex + 1;
    }

    /**
     One turn of the loop: picks the next neighbor, unless that is the server itself.  A turn without
     a pick is followed by one with a pick; if the server is alone, no pick will ever come.
     */
    method PickNext(ghost p: nat, idx: nat, ghost n: nat, others: set<Server>)
      returns (idx': nat, others': set<Server>, alone: bool)
      requires server.Valid() && server.alive != []
      requires Picked(server.alive, server.self, p, idx, others, roundRobinIndex)
      modifies this`roundRobinIndex
      ensures idx' == idx + 1 || idx' == idx
      ensures Picked(server.alive, server.self, p, if alone then n else idx', others', roundRobinIndex)
      ensures idx' == idx && !alone ==>
        && old(SelfIsNext(server.alive, server.self, roundRobinIndex))
        && !SelfIsNext(server.alive, server.self, roundRobinIndex)
    {
      ghost var s, self := server.alive, server.self;
      idx', others', alone := idx, others, false;
      var other := NextNeighbor();
      if other == server.self {
        SkipSelf(s, self, p, idx, n, others, roundRobinIndex - 1);
        alone := |server.alive| <= 1;
      } else {
        PickOne(s, self, p, idx, others, roundRobinIndex - 1);
        idx', others' := idx + 1, others + {other};
      }
    }

    /**
     Picks round robin from the alive set, skipping the server itself.  The picks go on where the
     last call stopped, and the result holds as many different servers as asked for, or all.
     */
    method GetUniqueNeighbors(k: nat) returns (others: set<Server>)
      requires server.Valid()
      modifies this`roundRobinIndex
      ensures Picked(server.alive, server.self, RingPlace(server.alive, server.self, old(roundRobinIndex)),
                     Min(k, |server.alive|), others, roundRobinIndex)
      ensures |others| == Min(k, |server.alive| - if server.self in server.View().alive then 1 else 0)
      ensures server.self !in others && forall x :: x in others ==> x in server.View().alive
    {
      ghost var s, self, p := server.alive, server.self, RingPlace(server.alive, server.self, roundRobinIndex);
      others := {};
      var n := Min(k, |server.alive|);
      var idx := 0;
      PickedStart(s, self, roundRobinIndex);
      while idx < n
        invariant 0 <= idx <= n && Picked(s, self, p, idx, others, roundRobinIndex)
        decreases n - idx, if SelfIsNext(s, self, roundRobinIndex) then 1 else 0
      {
        var alone;
        idx, others, alone := PickNext(p, idx, n, others);
        if alone {
          break;
        }
      }
      PickedResult(s, self, p, k, others, roundRobinIndex);
    }

    /** Removes the expired suspects among those a report would list. */
    method GarbageCollectSuspected(nowAlive: nat, nowSuspected: nat, now: nat) returns (report: Report)
      requires server.Valid()
      modifies server`suspected, server`log
      ensures server.Valid() && Reporting.Prepared(old(server.View()), report, nowAlive, nowSuspected)
      ensures server.View() ==
        Reporting.EvictExpired(old(server.View()), report.suspected, Reporting.Cutoff(now, gracePeriod))
    {
      report := server.PrepareReport(nowAlive, nowSuspected);
      ghost var n := server.View();
      var expiredTime := Reporting.Cutoff(now, gracePeriod);
      var i := 0;
      while i < |report.suspected|
        invariant 0 <= i <= |report.suspected| && server.Valid()
        invariant server.View() == Reporting.EvictExpired(n, report.suspected[..i], expiredTime)
      {
        EvictOneMore(n, report.suspected, i, expiredTime);
        if report.suspected[i].timestamp < expiredTime {
          server.RemoveSuspected(report.suspected[i].server, true);
        }
        i := i + 1;
      }
      assert report.suspected[..i] == report.suspected;
    }

    /** Asks each of the given servers to ping `other`. */
    method RequestPings(other: Server, forwards: set<Server>) returns (requests: seq<Envelope>)
      requires server.Valid()
      requires other !in forwards && server.self !in forwards && forall x :: x in forwards ==> x in server.View().alive
      modifies server`outbox
      ensures server.Valid() && server.View() == old(server.View()) && server.outbox == old(server.outbox) + requests
      ensures Asked(server.View(), other, forwards, requests)
    {
      var list := InSomeOrder(forwards);
      ghost var n := server.View();
      requests := [];
      var i := 0;
      while i < |list|
        invariant 0 <= i <= |list| && server.Valid() && server.View() == n
        invariant server.outbox == old(server.outbox) + requests
        invariant |requests| == i
        invariant forall j :: 0 <= j < i ==> requests[j] == Membership.Post(n, list[j], StatusRequest(other))
      {
        var request := server.Send(list[i], StatusRequest(other));
        Associates(old(server.outbox), requests, [request]);
        requests := requests + [request];
        i := i + 1;
      }
      AskedInOrder(n, other, forwards, list, requests);
    }

    /** Asks the next live neighbors on the ring to ping `other`, which is not one of them. */
    method AskOthers(other: Server) returns (requests: seq<Envelope>)
      requires server.Valid() && (other !in server.View().alive || other == server.self)
      modifies this`roundRobinIndex, server`outbox
      ensures server.Valid() && server.View() == old(server.View()) && server.outbox == old(server.outbox) + requests
      ensures Requests(server.View(), other, numForwards, old(roundRobinIndex), requests, roundRobinIndex)
    {
      var forwards := GetUniqueNeighbors(numForwards);
      requests := RequestPings(other, forwards);
      AskedNext(server.alive, server.View(), other, numForwards, old(roundRobinIndex), forwards, requests, roundRobinIndex);
    }

    /** A neighbor that did not reply becomes a suspect, and others are asked to ping it. */
    method NoteSilence(other: Server, now: nat) returns (requests: seq<Envelope>)
      requires server.Valid() && Membership.Inv(server.View())
      modifies this`roundRobinIndex, server`alive, server`suspected, server`log, server`outbox
      ensures server.Valid() && server.View() == Membership.ReportSuspected(old(server.View()), other, now)
      ensures server.outbox == old(server.outbox) + requests
      ensures Requests(server.View(), other, numForwards, old(roundRobinIndex), requests, roundRobinIndex)
    {
      SuspectIsNotAlive(server.View(), other, now);
      var _ := server.ReportSuspected(other, now);
      requests := AskOthers(other);
    }

    /**
     Sends the report to one neighbor.  If it does not reply it becomes a suspect, and some live
     servers, neither the suspect nor this one, are asked to ping it.
     */
    method SendReportTo(report: Report, other: Server, replied: bool, now: nat) returns (sent: seq<Envelope>)
      requires server.Valid() && Membership.Inv(server.View())
      modifies this`roundRobinIndex, server`alive, server`suspected, server`log, server`outbox
      ensures server.Valid() && Membership.Inv(server.View())
      ensures server.View() ==
        if replied then old(server.View()) else Membership.ReportSuspected(old(server.View()), other, now)
      ensures server.outbox == old(server.outbox) + sent
      ensures ContactSends(old(server.View()), report, other, replied, now, numForwards,
                           old(roundRobinIndex), sent, roundRobinIndex)
    {
      var first := server.Send(other, StatusReport(report));
      sent := [first];
      if !replied {
        Membership.ReportSuspectedKeepsInv(server.View(), other, now);
        var requests := NoteSilence(other, now);
        Associates(old(server.outbox), sent, requests);
        sent := sent + requests;
        assert sent[1..] == requests;
      }
    }

    /** Sends the report to a neighbor, and notes whether it replied. */
    method Contact(report: Report, other: Server, replied: bool, now: nat) returns (sent: seq<Envelope>)
      requires server.Valid() && Membership.Inv(server.View())
      modifies this`roundRobinIndex, server`alive, server`suspected, server`log, server`outbox
      ensures server.Valid() && server.View() == Noted(old(server.View()), other, replied, now)
      ensures server.outbox == old(server.outbox) + sent
      ensures ContactSends(old(server.View()), report, other, replied, now, numForwards,
                           old(roundRobinIndex), sent, roundRobinIndex)
    {
      sent := SendReportTo(report, other, replied, now);
      if replied {
        var _ := server.AddAlive(other, now);
      }
    }

    /** The next neighbors on the ring, as many as a round contacts. */
    method PickContacts() returns (contacts: set<Server>)
      requires server.Valid()
      modifies this`roundRobinIndex
      ensures Contactable(server.View(), contacts)
      ensures |contacts| == Min(numReports, |server.View().alive.Keys - {server.self}|)
      ensures PickedFrom(server.View().alive, server.self, old(roundRobinIndex), numReports, contacts, roundRobinIndex)
    {
      contacts := GetUniqueNeighbors(numReports);
      OthersCount(server.alive, server.self);
      PickedFromSet(server.alive, server.self, old(roundRobinIndex), numReports, contacts, roundRobinIndex);
    }

    /** Contacts one more neighbor of the round. */
    method ContactNext(report: Report, other: Server, replies: set<Server>, now: nat,
                       ghost n: Membership.Node, ghost index: nat, ghost trace: seq<Sending>)
      returns (ghost trace': seq<Sending>)
      requires server.Valid() && Membership.Inv(n) && Contactable(n, Elements(Others(trace))) && Distinct(Others(trace))
      requires server.View() == AllNoted(n, Others(trace), replies, now) && roundRobinIndex == IndexAfter(index, trace)
      requires Round(n, report, replies, now, numForwards, index, trace)
      modifies this`roundRobinIndex, server`alive, server`suspected, server`log, server`outbox
      ensures server.Valid() && Others(trace') == Others(trace) + [other]
      ensures server.View() == AllNoted(n, Others(trace'), replies, now) && roundRobinIndex == IndexAfter(index, trace')
      ensures Round(n, report, replies, now, numForwards, index, trace')
      ensures forall box :: old(server.outbox) == box + Flat(trace) ==> server.outbox == box + Flat(trace')
    {
      AllNotedKeys(n, Others(trace), replies, now);
      var sent := Contact(report, other, other in replies, now);
      ghost var last := Sending(other, sent, roundRobinIndex);
      trace' := trace + [last];
      NotedNext(n, Others(trace), replies, other, now);
      OneSendingMore(n, report, replies, now, numForwards, index, trace, last);
      TraceAppended(trace, last);
      forall box | old(server.outbox) == box + Flat(trace) ensures server.outbox == box + Flat(trace') {
        Associates(box, Flat(trace), sent);
      }
    }

    method ContactAll(report: Report, contacts: set<Server>, replies: set<Server>, now: nat)
      returns (ghost trace: seq<Sending>)
      requires server.Valid() && Membership.Inv(server.View()) && Contactable(server.View(), contacts)
      modifies this`roundRobinIndex, server`alive, server`suspected, server`log, server`outbox
      ensures server.Valid() && Membership.Inv(server.View())
      ensures Distinct(Others(trace)) && Elements(Others(trace)) == contacts
      ensures server.View() == AllNoted(old(server.View()), Others(trace), replies, now)
      ensures Round(old(server.View()), report, replies, now, numForwards, old(roundRobinIndex), trace)
      ensures roundRobinIndex == IndexAfter(old(roundRobinIndex), trace)
      ensures server.outbox == old(server.outbox) + Flat(trace)
    {
      var list := InSomeOrder(contacts);
      ghost var n, index := server.View(), roundRobinIndex;
      trace := [];
      var i := 0;
      while i < |list|
        invariant 0 <= i <= |list| && server.Valid() && Others(trace) == list[..i]
        invariant server.View() == AllNoted(n, Others(trace), replies, now) && roundRobinIndex == IndexAfter(index, trace)
        invariant Round(n, report, replies, now, numForwards, index, trace)
        invariant server.outbox == old(server.outbox) + Flat(trace)
      {
        VisitedBefore(list, i);
        trace := ContactNext(report, list[i], replies, now, n, index, trace);
        i := i + 1;
      }
      assert list[..i] == list;
      AllNotedKeys(n, Others(trace), replies, now);
    }

    /** Picks the neighbors to contact and sends them the report. */
    method ContactNeighbors(report: Report, replies: set<Server>, now: nat)
      returns (contacts: set<Server>, ghost next: nat, ghost trace: seq<Sending>)
      requires server.Valid() && Membership.Inv(server.View())
      modifies this`roundRobinIndex, server`alive, server`suspected, server`log, server`outbox
      ensures server.Valid() && Membership.Inv(server.View())
      ensures FullRound(old(server.View()), server.View(), old(roundRobinIndex), roundRobinIndex, numReports, numForwards,
                        report, contacts, replies, now, next, trace)
      ensures server.outbox == old(server.outbox) + Flat(trace)
      ensures Listener.Mirrored(old(server.View())) ==> Listener.Mirrored(server.View())
    {
      ghost var n, index := server.View(), roundRobinIndex;
      contacts := PickContacts();
      next := roundRobinIndex;
      trace := ContactAll(report, contacts, replies, now);
      assert server.View() == AllNoted(n, Others(trace), replies, now) && roundRobinIndex == IndexAfter(next, trace);
      WholeRound(n, index, numReports, numForwards, report, contacts, replies, now, next, trace);
    }

    /**
     One full round: `replies` are the servers that would answer.  The contacts are the next neighbors
     on the ring.  Each gets the prepared report once; those that stay silent become suspects, and
     others are asked to ping them.
     */
    method SendReports(nowAlive: nat, nowSuspected: nat, now: nat, replies: set<Server>)
      returns (contacts: set<Server>, ghost report: Report, ghost next: nat, ghost trace: seq<Sending>)
      requires server.Valid() && Membership.Inv(server.View())
      modifies this`roundRobinIndex, server`alive, server`suspected, server`log, server`outbox
      ensures server.Valid() && Membership.Inv(server.View())
      ensures contacts != {} ==> Reporting.Prepared(old(server.View()), report, nowAlive, nowSuspected)
      ensures FullRound(old(server.View()), server.View(), old(roundRobinIndex), roundRobinIndex, numReports, numForwards,
                        report, contacts, replies, now, next, trace)
      ensures server.outbox == old(server.outbox) + Flat(trace)
      ensures Listener.Mirrored(old(server.View())) ==> Listener.Mirrored(server.View())
    {
      report, next, trace := Report(server.self, [], []), roundRobinIndex, [];
      if |server.alive| == 0 {
        contacts := {};
        EmptyContents(server.alive);
        NobodyToContact(server.View(), roundRobinIndex, numReports, numForwards, report, replies, now);
        return;
      }
      var prepared := server.PrepareReport(nowAlive, nowSuspected);
      report := prepared;
      contacts, next, trace := ContactNeighbors(prepared, replies, now);
    }
  }

  /** The elements of a set, each once, in some order. */
  method InSomeOrder(s: set<Server>) returns (list: seq<Server>)
    ensures Distinct(list) && Elements(list) == s
  {
    list := [];
    var todo := s;
    while todo != {}
      invariant todo <= s && Distinct(list) && Elements(list) == s - todo
    {
      var x :| x in todo;
      ListedMore(list, s - todo, x);
      todo, list := todo - {x}, list + [x];
    }
  }
}
