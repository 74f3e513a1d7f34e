/**
 The server object.  Its methods edit the two record sets in place; each is
 proved to do to the server's `View` what the function of the same name in
 `Membership` does to a node.
 */
module GossipServer {
  import opened SwimTypes
  import opened RecordSet
  import Membership
  import Budget
  import Reporting

  class SwimServer {
    const self: Server
    var alive: seq<Record>
    var suspected: seq<Record>
    var lamportTime: nat
    /** The calls made to the status listener. */
    var log: seq<Event>
    /** The envelopes handed to a client for sending. */
    var outbox: seq<Envelope>

    ghost predicate Valid()
      reads this
    {
      Sorted(alive) && Sorted(suspected)
    }

    ghost function View(): Membership.Node
      requires Valid()
      reads this
    {
      Membership.Node(self, Contents(alive), Contents(suspected), lamportTime, log)
    }

    constructor (self: Server)
      ensures Valid() && View() == Membership.NewNode(self) && outbox == []
    {
      this.self := self;
      alive, suspected, lamportTime, log, outbox := [], [], 0, [], [];
    }

    method UpdateLamportTime(time: nat)
      requires Valid()
      modifies this`lamportTime
      ensures Valid() && View() == Membership.UpdateLamportTime(old(View()), time)
    {
      lamportTime := Max(lamportTime, time) + 1;
    }

    method RemoveSuspected(server: Server, evicted: bool)
      requires Valid()
      modifies this`suspected, this`log
      ensures Valid() && View() == Membership.RemoveSuspected(old(View()), server, evicted)
    {
      var num := if Find(suspected, server).Some? then 1 else 0;
      suspected := Erase(suspected, server);
      if num > 0 && evicted {
        log := log + [Event(server, Removed)];
      }
    }

    method AddAlive(server: Server, timestamp: nat) returns (inserted: bool)
      requires Valid()
      modifies this`alive, this`suspected, this`log
      ensures Valid() && View() == Membership.AddAlive(old(View()), server, timestamp)
      ensures Membership.Inv(old(View())) && server.port != 0 ==>
        Membership.JustSeen(old(View()), View(), server, timestamp, lamportTime)
      ensures inserted <==> server.port != 0 && server !in old(View()).alive
    {
      if Membership.Inv(View()) {
        Membership.AddAliveSees(View(), server, timestamp);
      }
      if server.port == 0 {
        return false;
      }
      RemoveSuspected(server, false);
      inserted := Find(alive, server).None?;
      alive := Insert(alive, Record(server, 0, timestamp, lamportTime));
      if !inserted {
        var found := Find(alive, server);
        if found.Some? {
          var p := found.value;
          var updated := alive[p].(timestamp := timestamp, lamport := lamportTime);
          Replace(alive, p, updated);
          alive := alive[p := updated];
        }
      }
      if inserted {
        log := log + [Event(server, Alive)];
      }
    }

    method ReportSuspected(server: Server, timestamp: nat) returns (inserted: bool)
      requires Valid()
      modifies this`alive, this`suspected, this`log
      ensures Valid() && View() == Membership.ReportSuspected(old(View()), server, timestamp)
      ensures Membership.Inv(old(View())) && server.port != 0 ==>
        if server == self then Membership.JustSeen(old(View()), View(), server, timestamp, lamportTime)
        else Membership.JustSuspected(old(View()), View(), server, timestamp, lamportTime)
      ensures inserted <==> server.port != 0 && server != self && server !in old(View()).suspected
    {
      if Membership.Inv(View()) {
        Membership.ReportSuspectedSuspects(View(), server, timestamp);
      }
      if server.port == 0 {
        return false;
      }
      if server == self {
        var _ := AddAlive(server, timestamp);
        return false;
      }
      var suspectRecord := Record(server, 0, timestamp, lamportTime);
      alive := Erase(alive, server);
      inserted := Find(suspected, server).None?;
      suspected := Insert(suspected, suspectRecord);
      if inserted {
        log := log + [Event(server, Suspect)];
      }
    }

    /** `removed` tells whether the second erase found anything; after `AddAlive` it never does. */
    method OnUpdate(client: Server, now: nat) returns (removed: bool)
      requires Valid()
      modifies this`alive, this`suspected, this`log
      ensures Valid() && View() == Membership.OnUpdate(old(View()), client, now)
      ensures Membership.Inv(old(View())) ==> !removed && View() == Membership.AddAlive(old(View()), client, now)
    {
      if Membership.Inv(View()) {
        Membership.OnUpdateIsAddAlive(View(), client, now);
      }
      var _ := AddAlive(client, now);
      removed := Find(suspected, client).Some?;
      suspected := Erase(suspected, client);
    }

    /** Extracts the alive record of `r`'s server, raises its incarnation and puts it back. */
    method RaiseAlive(r: Record)
      requires Valid()
      modifies this`alive
      ensures Valid() && View() == old(View()).(alive := Membership.Raise(old(View()).alive, r))
    {
      var found := Find(alive, r.server);
      if found.Some? && r.incarnation > alive[found.value].incarnation {
        var update := alive[found.value].(incarnation := r.incarnation);
        alive := Erase(alive, r.server);
        alive := Insert(alive, update);
      }
    }

    method RaiseSuspected(r: Record)
      requires Valid()
      modifies this`suspected
      ensures Valid() && View() == old(View()).(suspected := Membership.Raise(old(View()).suspected, r))
    {
      var found := Find(suspected, r.server);
      if found.Some? && r.incarnation > suspected[found.value].incarnation {
        var update := suspected[found.value].(incarnation := r.incarnation);
        suspected := Erase(suspected, r.server);
        suspected := Insert(suspected, update);
      }
    }

    method ReadAliveEntry(r: Record)
      requires Valid()
      modifies this`alive, this`suspected, this`log
      ensures Valid() && View() == Membership.AliveEntry(old(View()), r)
    {
      if r.server == self {
        return;
      }
      var found := Find(suspected, r.server);
      if found.Some? && suspected[found.value].lamport > r.lamport {
        return;
      }
      var _ := AddAlive(r.server, r.timestamp);
      RaiseAlive(r);
    }

    /** Sends a message with a client created and used at once; `e` is the envelope sent. */
    method Send(dest: Server, payload: Payload) returns (e: Envelope)
      requires Valid()
      modifies this`outbox
      ensures Valid() && View() == old(View()) && outbox == old(outbox) + [e]
      ensures e == Membership.Post(View(), dest, payload)
    {
      e := Envelope(self, dest, lamportTime + 1, payload);
      outbox := outbox + [e];
    }

    method ReadSuspectEntry(r: Record, sender: Server)
      requires Valid()
      modifies this`alive, this`suspected, this`log, this`outbox
      ensures Valid() && View() == Membership.SuspectEntry(old(View()), r)
      ensures outbox == old(outbox) +
        if r.server == self then [Membership.Post(View(), sender, StatusUpdate)] else []
    {
      if r.server == self {
        var _ := Send(sender, StatusUpdate);
      } else {
        WeighSuspicion(r);
      }
    }

    /** Believes the suspicion of another server unless it has been heard from since. */
    method WeighSuspicion(r: Record)
      requires Valid() && r.server != self
      modifies this`alive, this`suspected, this`log
      ensures Valid() && View() == Membership.SuspectEntry(old(View()), r)
    {
      var found := Find(alive, r.server);
      if found.Some? && alive[found.value].lamport > r.lamport {
        return;
      }
      var _ := ReportSuspected(r.server, r.timestamp);
      RaiseSuspected(r);
    }

    method ReadAliveList(rs: seq<Record>)
      requires Valid()
      modifies this`alive, this`suspected, this`log
      ensures Valid() && View() == Membership.AliveLoop(old(View()), rs)
    {
      var i := 0;
      while i < |rs|
        invariant 0 <= i <= |rs| && Valid()
        invariant View() == Membership.AliveLoop(old(View()), rs[..i])
      {
        ReadAliveEntry(rs[i]);
        assert rs[..i + 1][..i] == rs[..i];
        i := i + 1;
      }
      assert rs[..i] == rs;
    }

    method ReadSuspectedList(report: Report)
      requires Valid()
      modifies this`alive, this`suspected, this`log, this`outbox
      ensures Valid() && View() == Membership.SuspectLoop(old(View()), report.suspected)
      ensures outbox == old(outbox) + Membership.Denials(old(View()), report, report.suspected)
    {
      var rs, i := report.suspected, 0;
      while i < |rs|
        invariant 0 <= i <= |rs| && Valid()
        invariant View() == Membership.SuspectLoop(old(View()), rs[..i])
        invariant outbox == old(outbox) + Membership.Denials(old(View()), report, rs[..i])
      {
        ReadSuspectEntry(rs[i], report.sender);
        assert rs[..i + 1][..i] == rs[..i];
        i := i + 1;
      }
      assert rs[..i] == rs;
    }

    method OnReport(sender: Server, report: Report, now: nat)
      requires Valid()
      modifies this`alive, this`suspected, this`log, this`outbox
      ensures Valid() && View() == Membership.OnReport(old(View()), sender, report, now)
      ensures outbox == old(outbox) + Membership.Denials(old(View()), report, report.suspected)
    {
      var _ := AddAlive(sender, now);
      ReadAliveList(report.alive);
      SameDenials(old(View()), View(), report, report.suspected);
      ReadSuspectedList(report);
    }

    /**
     The background part of `OnForwardRequest`.  `replied` is the outcome of the send; `seconds` is
     the default time of a new record, which unlike `now` counts in seconds.
     */
    method ForwardPing(requestor: Server, destination: Server, replied: bool, seconds: nat, now: nat)
      requires Valid()
      modifies this`alive, this`suspected, this`log, this`outbox
      ensures Valid()
      ensures View() == if replied then old(View()) else Membership.ReportSuspected(old(View()), destination, now)
      ensures outbox == old(outbox) +
        [Membership.Post(old(View()), destination,
                         StatusReport(Membership.ForwardedReport(requestor, destination, seconds)))]
      ensures Membership.OnlyAccuses(Membership.ForwardedReport(requestor, destination, seconds), requestor, destination)
    {
      var report := Report(requestor, [], [Record(destination, 0, seconds, 0)]);
      var _ := Send(destination, StatusReport(report));
      if !replied {
        var _ := ReportSuspected(destination, now);
      }
    }

    /** A report arrives; every entry that suspects this server is answered by one ping. */
    method ReceiveReport(e: Envelope, now: nat)
      requires Valid() && e.payload.StatusReport?
      modifies this`alive, this`suspected, this`log, this`outbox, this`lamportTime
      ensures Valid() && View() == Membership.Deliver(old(View()), e, now)
      ensures Answered(old(outbox), outbox, View(), e.payload.report)
    {
      UpdateLamportTime(e.lamport);
      ghost var n, report := View(), e.payload.report;
      OnReport(e.sender, e.payload.report, now);
      SameDenials(n, View(), report, report.suspected);
      AnsweredByDenials(old(outbox), View(), report);
    }

    /** A ping or a request arrives; a request leaves its forwarding to a background thread. */
    method ReceiveCall(e: Envelope, now: nat)
      requires Valid() && (e.payload.StatusUpdate? || e.payload.StatusRequest?)
      modifies this`alive, this`suspected, this`log, this`lamportTime
      ensures Valid() && View() == Membership.Deliver(old(View()), e, now)
    {
      UpdateLamportTime(e.lamport);
      if e.payload.StatusUpdate? {
        var _ := OnUpdate(e.sender, now);
      } else {
        var _ := AddAlive(e.sender, now);
      }
    }

    /** The dispatch of the listening loop. */
    method Receive(e: Envelope, now: nat)
      requires Valid()
      modifies this`alive, this`suspected, this`log, this`outbox, this`lamportTime
      ensures Valid() && View() == Membership.Deliver(old(View()), e, now)
      ensures Membership.Inv(old(View())) ==> Membership.Inv(View())
      ensures Membership.Inv(old(View())) && (e.payload.StatusUpdate? || e.payload.StatusRequest?) && e.sender.port != 0 ==>
        Membership.JustSeen(old(View()), View(), e.sender, now, Max(old(lamportTime), e.lamport) + 1)
      ensures e.payload.Unrecognized? ==> View() == old(View())
      ensures e.payload.StatusReport? ==> Answered(old(outbox), outbox, View(), e.payload.report)
      ensures !e.payload.StatusReport? ==> outbox == old(outbox)
    {
      ghost var n := View();
      match e.payload {
        case StatusUpdate => ReceiveCall(e, now);
        case StatusReport(_) => ReceiveReport(e, now);
        case StatusRequest(_) => ReceiveCall(e, now);
        case Unrecognized =>
      }
      if Membership.Inv(n) {
        Membership.DeliverKeepsInv(n, e, now);
        if !e.payload.StatusReport? {
          Membership.SenderIsSeen(n, e, now);
        }
      }
    }

    /** The key at the index, in the order of the set; none if there are no keys. */
    method GetNeighborByIndex(index: nat) returns (r: Option<Server>)
      requires Valid()
      ensures r.None? <==> View().alive == map[]
      ensures r.Some? ==> IsKeyAt(View().alive.Keys, index, r.value)
    {
      EmptyContents(alive);
      var size := |alive|;
      if size == 0 {
        return None;
      }
      var i := if index >= size then 0 else index;
      r := Some(alive[i].server);
      KeyAtPosition(alive, index, alive[i].server);
    }

    method PrepareReport(nowAlive: nat, nowSuspected: nat) returns (report: Report)
      requires Valid()
      ensures Reporting.Prepared(View(), report, nowAlive, nowSuspected)
    {
      var a := AddRecordsToBudget(alive, nowAlive);
      var s := AddRecordsToBudget(suspected, nowSuspected);
      report := Report(self, a, s);
      SortedIsList(alive);
      SortedIsList(suspected);
    }
  }

  /** The envelopes sent since are the pings to the report's sender, one for each entry that suspects the receiver. */
  ghost predicate Answered(before: seq<Envelope>, after: seq<Envelope>, n: Membership.Node, report: Report) {
    && |after| == |before| + |Membership.Positions(report.suspected, n.self)|
    && after[..|before|] == before
    && forall i :: |before| <= i < |after| ==> after[i] == Membership.Post(n, report.sender, StatusUpdate)
  }

  lemma AnsweredByDenials(before: seq<Envelope>, n: Membership.Node, report: Report)
    ensures Answered(before, before + Membership.Denials(n, report, report.suspected), n, report)
  {
    var pings := Membership.Denials(n, report, report.suspected);
    Membership.OneDenialEach(n, report, report.suspected);
    assert forall i :: |before| <= i < |before + pings| ==> (before + pings)[i] in pings;
  }

  lemma {:induction false} SameDenials(n: Membership.Node, n': Membership.Node, report: Report, rs: seq<Record>)
    requires Membership.SameFrame(n, n')
    ensures Membership.Denials(n, report, rs) == Membership.Denials(n', report, rs)
  {
    if rs == [] {
    } else {
      SameDenials(n, n', report, rs[..|rs| - 1]);
    }
  }

  lemma SortedIsList(s: seq<Record>)
    requires Sorted(s)
    ensures Reporting.Lists(s, Contents(s))
  {
  }

  method InsertByLamport(order: seq<Record>, r: Record) returns (order': seq<Record>)
    requires Budget.Descending(order)
    ensures Budget.Descending(order') && multiset(order') == multiset(order) + multiset{r}
  {
    var p := 0;
    while p < |order| && order[p].lamport >= r.lamport
      invariant 0 <= p <= |order|
      invariant forall j :: 0 <= j < p ==> order[j].lamport >= r.lamport
    {
      p := p + 1;
    }
    InsertedInOrder(order, p, r);
    InsertedRecords(order, p, r);
    order' := order[..p] + [r] + order[p..];
  }

  /** A sort by descending Lamport time that promises nothing about ties. */
  method SortByLamport(records: seq<Record>) returns (order: seq<Record>)
    ensures Budget.SortedFrom(order, records)
  {
    order := [];
    var i := 0;
    while i < |records|
      invariant 0 <= i <= |records|
      invariant Budget.SortedFrom(order, records[..i])
    {
      var r := records[i];
      order := InsertByLamport(order, r);
      assert records[..i + 1] == records[..i] + [r];
      i := i + 1;
    }
    assert records[..i] == records;
  }

  lemma InsertedInOrder(order: seq<Record>, p: nat, r: Record)
    requires Budget.Descending(order) && p <= |order|
    requires forall j :: 0 <= j < p ==> order[j].lamport >= r.lamport
    requires p < |order| ==> order[p].lamport < r.lamport
    ensures Budget.Descending(order[..p] + [r] + order[p..])
  {
  }

  lemma InsertedRecords(order: seq<Record>, p: nat, r: Record)
    requires p <= |order|
    ensures multiset(order[..p] + [r] + order[p..]) == multiset(order) + multiset{r}
  {
    assert order == order[..p] + order[p..];
  }

  /** Takes records, most recent first, until the budget is used up. */
  method AddRecordsToBudget(records: seq<Record>, now: nat) returns (chosen: seq<Record>)
    ensures Budget.Budgeted(records, now, chosen)
  {
    var order := SortByLamport(records);
    var runningCost := 0;
    chosen := [];
    var i := 0;
    while i < |order|
      invariant 0 <= i <= |order| && chosen == order[..i]
      invariant runningCost == Budget.Cost(chosen, now) <= Budget.BUDGET
    {
      assert order[..i + 1][..i] == order[..i];
      runningCost := runningCost + Budget.Square(Budget.Age(now, order[i].timestamp));
      if runningCost > Budget.BUDGET {
        break;
      }
      chosen := chosen + [order[i]];
      i := i + 1;
    }
    assert |chosen| == i && Budget.Greedy(order, now, i);
  }
}
