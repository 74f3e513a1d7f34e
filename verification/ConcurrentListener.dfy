/**
 The status listener under concurrency.  It is called after the lock has been
 released, so its log may lag behind the sets, and calls may reach it in another
 order than the changes they announce.
 */
module ConcurrentListener {
  import opened SwimTypes
  import opened Listener
  import opened ConcurrentServer

  ghost predicate Announced(s: Shared, k: Server) {
    k in Replay(s.log).alive
  }

  ghost predicate Accused(s: Shared, k: Server) {
    k in Replay(s.log).suspected
  }

  /** What the listener knows of `k` is the truth. */
  ghost predicate Agrees(s: Shared, k: Server) {
    (Announced(s, k) <==> k in s.alive) && (Accused(s, k) <==> k in s.suspected) && !InBoth(s, k)
  }

  // ----- Calls in progress -----

  predicate InAddAlive(p: Progress, k: Server) {
    AddsAlive(p, k) || p == AliveInserted(k)
  }

  predicate InReportSuspected(p: Progress, k: Server) {
    Suspects(p, k) || p == SuspectInserted(k)
  }

  predicate InEvict(p: Progress, k: Server) {
    p == EvictBegun(k) || p == EvictErased(k)
  }

  predicate SuspectHasCleared(p: Progress, k: Server) {
    p.SuspectCleared? && p.k == k
  }

  /** No call about `k` is in progress, up to and including its call of the listener. */
  ghost predicate AllDone(s: Shared, k: Server) {
    forall t :: var p := Doing(s, t); !InAddAlive(p, k) && !InReportSuspected(p, k) && !InEvict(p, k)
  }

  /** A call of `ReportSuspected(k)` is in progress together with an `AddAlive(k)` or an eviction of `k`. */
  ghost predicate Conflict(s: Shared, k: Server) {
    exists t, u :: (InAddAlive(Doing(s, t), k) || InEvict(Doing(s, t), k)) && InReportSuspected(Doing(s, u), k)
  }

  /** Some call is at `p`. */
  ghost predicate Pending(s: Shared, p: Progress) {
    exists t :: Doing(s, t) == p
  }

  ghost predicate SomeCleared(s: Shared, k: Server) {
    exists t :: HasCleared(Doing(s, t), k)
  }

  ghost predicate SomeSuspectCleared(s: Shared, k: Server) {
    exists t :: SuspectHasCleared(Doing(s, t), k)
  }

  // ----- The invariant -----

  /** Where `k` is, the listener knows it, or is about to be told; what it knows too much is being put right. */
  ghost predicate UpToDate(s: Shared, k: Server) {
    && !(k in s.alive && k in s.suspected) && !(Announced(s, k) && Accused(s, k))
    && (k in s.alive ==> Pending(s, AliveInserted(k)) || (Announced(s, k) && !Accused(s, k)))
    && (k in s.suspected ==> Pending(s, SuspectInserted(k)) || (Accused(s, k) && !Announced(s, k)))
    && (k !in s.alive && k !in s.suspected && Announced(s, k) ==> SomeSuspectCleared(s, k))
    && (k !in s.alive && k !in s.suspected && Accused(s, k) ==> SomeCleared(s, k) || Pending(s, EvictErased(k)))
  }

  /** What a call has done to the sets still stands. */
  ghost predicate StillStands(s: Shared, k: Server, p: Progress) {
    && (p == AliveInserted(k) ==> k in s.alive)
    && (p == SuspectInserted(k) ==> k in s.suspected)
    && (HasCleared(p, k) || p == EvictErased(k) ==> k !in s.suspected)
    && (SuspectHasCleared(p, k) ==> k !in s.alive)
  }

  ghost predicate AllStand(s: Shared, k: Server) {
    forall t :: StillStands(s, k, Doing(s, t))
  }

  lemma OwnCallStands(s: Shared, m: Move, k: Server)
    requires Enabled(s, m) && StillStands(s, k, Doing(s, m.t))
    ensures StillStands(Next(s, m), k, Doing(Next(s, m), m.t))
  {
  }

  lemma OtherCallStands(s: Shared, m: Move, k: Server, u: nat)
    requires Enabled(s, m) && StillStands(s, k, Doing(s, u)) && !Conflict(s, k) && u != m.t
    ensures StillStands(Next(s, m), k, Doing(s, u))
  {
    MembershipStep(s, m, k);
    assert !((InAddAlive(Doing(s, u), k) || InEvict(Doing(s, u), k)) && InReportSuspected(Doing(s, m.t), k));
    assert !((InAddAlive(Doing(s, m.t), k) || InEvict(Doing(s, m.t), k)) && InReportSuspected(Doing(s, u), k));
  }

  lemma AllStandStep(s: Shared, m: Move, k: Server)
    requires Enabled(s, m) && AllStand(s, k) && !Conflict(s, k)
    ensures AllStand(Next(s, m), k)
  {
    forall u ensures StillStands(Next(s, m), k, Doing(Next(s, m), u)) {
      assert StillStands(s, k, Doing(s, u)) && StillStands(s, k, Doing(s, m.t));
      if u == m.t {
        OwnCallStands(s, m, k);
      } else {
        OtherThreads(s, m, u);
        OtherCallStands(s, m, k, u);
      }
    }
  }

  /** The call of the listener a call makes next, if that is what it does next. */
  function Says(p: Progress): Option<Event> {
    match p
    case AliveInserted(k) => Some(Event(k, Alive))
    case SuspectInserted(k) => Some(Event(k, Suspect))
    case EvictErased(k) => Some(Event(k, Removed))
    case _ => None
  }

  lemma NextLog(s: Shared, m: Move)
    ensures Next(s, m).log ==
      if m.Continue? && Says(Doing(s, m.t)).Some? then s.log + [Says(Doing(s, m.t)).value] else s.log
  {
  }

  /** What a step lets the listener know of `k`. */
  lemma LogStep(s: Shared, m: Move, k: Server)
    ensures var s' := Next(s, m);
      && (Announced(s', k) <==>
            (Announced(s, k) || Runs(s, m, AliveInserted(k))) && !Runs(s, m, SuspectInserted(k)))
      && (Accused(s', k) <==>
            && (Accused(s, k) || Runs(s, m, SuspectInserted(k)))
            && !Runs(s, m, AliveInserted(k)) && !Runs(s, m, EvictErased(k)))
  {
    NextLog(s, m);
    if m.Continue? && Says(Doing(s, m.t)).Some? {
      Append(s.log, Says(Doing(s, m.t)).value);
    }
  }

  // ----- Calls that wait, and calls that come to wait -----

  lemma PendingStays(s: Shared, m: Move, p: Progress)
    requires Enabled(s, m) && Pending(s, p) && !p.Idle? && !Runs(s, m, p)
    ensures Pending(Next(s, m), p)
  {
    var t :| Doing(s, t) == p;
    if t != m.t {
      OtherThreads(s, m, t);
    }
    assert Doing(Next(s, m), t) == p;
  }

  lemma ClearedStays(s: Shared, m: Move, k: Server)
    requires Enabled(s, m) && SomeCleared(s, k) && !InsertsAlive(s, m, k)
    ensures SomeCleared(Next(s, m), k)
  {
    var t :| HasCleared(Doing(s, t), k);
    if t != m.t {
      OtherThreads(s, m, t);
    }
    assert HasCleared(Doing(Next(s, m), t), k);
  }

  lemma SuspectClearedStays(s: Shared, m: Move, k: Server)
    requires Enabled(s, m) && SomeSuspectCleared(s, k) && !InsertsSuspected(s, m, k)
    ensures SomeSuspectCleared(Next(s, m), k)
  {
    var t :| SuspectHasCleared(Doing(s, t), k);
    if t != m.t {
      OtherThreads(s, m, t);
    }
    assert SuspectHasCleared(Doing(Next(s, m), t), k);
  }

  lemma ComesToWait(s: Shared, m: Move, k: Server)
    ensures InsertsAlive(s, m, k) && k !in s.alive ==> Pending(Next(s, m), AliveInserted(k))
    ensures InsertsSuspected(s, m, k) && k !in s.suspected ==> Pending(Next(s, m), SuspectInserted(k))
    ensures Evicts(s, m, k) && k in s.suspected ==> Pending(Next(s, m), EvictErased(k))
    ensures ClearsSuspected(s, m, k) ==> SomeCleared(Next(s, m), k)
    ensures ClearsAlive(s, m, k) ==> SomeSuspectCleared(Next(s, m), k)
  {
    var p := Doing(Next(s, m), m.t);
    assert InsertsAlive(s, m, k) && k !in s.alive ==> p == AliveInserted(k);
    assert InsertsSuspected(s, m, k) && k !in s.suspected ==> p == SuspectInserted(k);
    assert Evicts(s, m, k) && k in s.suspected ==> p == EvictErased(k);
    assert ClearsSuspected(s, m, k) ==> HasCleared(p, k);
    assert ClearsAlive(s, m, k) ==> SuspectHasCleared(p, k);
  }

  /** Without a conflict, nobody undoes what is still to be announced. */
  lemma NothingUndone(s: Shared, m: Move, k: Server)
    requires !Conflict(s, k)
    ensures ClearsAlive(s, m, k) ==> !Pending(s, AliveInserted(k))
    ensures ClearsSuspected(s, m, k) || Evicts(s, m, k) ==> !Pending(s, SuspectInserted(k))
  {
    forall t ensures Doing(s, t) == AliveInserted(k) ==> !ClearsAlive(s, m, k)
             ensures Doing(s, t) == SuspectInserted(k) ==> !ClearsSuspected(s, m, k) && !Evicts(s, m, k)
    {
      assert !((InAddAlive(Doing(s, t), k) || InEvict(Doing(s, t), k)) && InReportSuspected(Doing(s, m.t), k));
      assert !((InAddAlive(Doing(s, m.t), k) || InEvict(Doing(s, m.t), k)) && InReportSuspected(Doing(s, t), k));
    }
  }

  lemma UpToDateStep(s: Shared, m: Move, k: Server)
    requires Enabled(s, m) && UpToDate(s, k) && AllStand(s, k) && !Conflict(s, k)
    ensures UpToDate(Next(s, m), k)
  {
    assert StillStands(s, k, Doing(s, m.t));
    MembershipStep(s, m, k);
    LogStep(s, m, k);
    ComesToWait(s, m, k);
    NothingUndone(s, m, k);
    if Pending(s, AliveInserted(k)) && !Runs(s, m, AliveInserted(k)) {
      PendingStays(s, m, AliveInserted(k));
    }
    if Pending(s, SuspectInserted(k)) && !Runs(s, m, SuspectInserted(k)) {
      PendingStays(s, m, SuspectInserted(k));
    }
    if Pending(s, EvictErased(k)) && !Runs(s, m, EvictErased(k)) {
      PendingStays(s, m, EvictErased(k));
    }
    if SomeCleared(s, k) && !InsertsAlive(s, m, k) {
      ClearedStays(s, m, k);
    }
    if SomeSuspectCleared(s, k) && !InsertsSuspected(s, m, k) {
      SuspectClearedStays(s, m, k);
    }
  }

  // ----- The listener catches up -----

  lemma {:induction false} UpToDateWithoutConflict(ss: seq<Shared>, moves: seq<Move>, k: Server, i: nat)
    requires IsRun(ss, moves) && i < |ss| && AllDone(ss[0], k) && Agrees(ss[0], k)
    requires forall j :: 0 <= j < i ==> !Conflict(ss[j], k)
    ensures UpToDate(ss[i], k) && AllStand(ss[i], k)
  {
    if i == 0 {
      DoneStands(ss[0], k);
    } else {
      UpToDateWithoutConflict(ss, moves, k, i - 1);
      AllStandStep(ss[i - 1], moves[i - 1], k);
      UpToDateStep(ss[i - 1], moves[i - 1], k);
    }
  }

  lemma DoneStands(s: Shared, k: Server)
    requires AllDone(s, k)
    ensures AllStand(s, k) && (UpToDate(s, k) <==> Agrees(s, k))
  {
    forall t ensures StillStands(s, k, Doing(s, t))
             ensures !HasCleared(Doing(s, t), k) && !SuspectHasCleared(Doing(s, t), k)
             ensures Doing(s, t) != AliveInserted(k) && Doing(s, t) != SuspectInserted(k) && Doing(s, t) != EvictErased(k)
    {
      assert !InAddAlive(Doing(s, t), k) && !InReportSuspected(Doing(s, t), k) && !InEvict(Doing(s, t), k);
    }
  }

  /**
   As long as no `ReportSuspected(k)` overlaps an `AddAlive(k)` or an eviction of `k`, the listener
   knows the truth about `k` whenever no call about `k` is in progress.
   */
  lemma ListenerCatchesUp(ss: seq<Shared>, moves: seq<Move>, k: Server, i: nat)
    requires IsRun(ss, moves) && i < |ss| && AllDone(ss[0], k) && Agrees(ss[0], k)
    requires forall j :: 0 <= j < i ==> !Conflict(ss[j], k)
    requires AllDone(ss[i], k)
    ensures Agrees(ss[i], k)
  {
    UpToDateWithoutConflict(ss, moves, k, i);
    DoneStands(ss[i], k);
  }

  // ----- Calls in the wrong order -----

  /** The calls of all other threads are where they were. */
  ghost predicate OthersWait(s: Shared, s': Shared, t: nat) {
    s'.self == s.self && forall u :: u != t ==> Doing(s', u) == Doing(s, u)
  }

  /** Thread `t` goes on by one block. */
  lemma Proceeds(ss: seq<Shared>, moves: seq<Move>, m: Move) returns (ss': seq<Shared>, moves': seq<Move>)
    requires IsRun(ss, moves) && Enabled(ss[|moves|], m)
    ensures IsRun(ss', moves') && |moves'| == |moves| + 1 && ss'[0] == ss[0]
    ensures ss'[|moves'|] == Next(ss[|moves|], m) && OthersWait(ss[|moves|], ss'[|moves'|], m.t)
  {
    ss', moves' := Goes(ss, moves, m);
    forall u | u != m.t ensures Doing(ss'[|moves'|], u) == Doing(ss[|moves|], u) {
      OtherThreads(ss[|moves|], m, u);
    }
  }

  /** Thread `t` suspects `k`, which was no suspect, and tells the listener. */
  lemma SuspectsThrough(ss: seq<Shared>, moves: seq<Move>, t: nat, k: Server) returns (ss': seq<Shared>, moves': seq<Move>)
    requires IsRun(ss, moves) && Doing(ss[|moves|], t).Idle?
    requires k.port != 0 && k != ss[|moves|].self && k !in ss[|moves|].suspected
    ensures IsRun(ss', moves') && ss'[0] == ss[0] && OthersWait(ss[|moves|], ss'[|moves'|], t)
    ensures var s' := ss'[|moves'|];
      Doing(s', t).Idle? && k !in s'.alive && k in s'.suspected && s'.log == ss[|moves|].log + [Event(k, Suspect)]
  {
    ss', moves' := Proceeds(ss, moves, CallReportSuspected(t, k));
    ss', moves' := Proceeds(ss', moves', Continue(t));
    ss', moves' := Proceeds(ss', moves', Continue(t));
    ss', moves' := Proceeds(ss', moves', Continue(t));
    ss', moves' := Proceeds(ss', moves', Continue(t));
  }

  /** Thread 0 has inserted `k` into the alive set and is about to tell the listener. */
  lemma AboutToAnnounce(s: Shared, k: Server) returns (ss: seq<Shared>, moves: seq<Move>)
    requires Init(s) && k.port != 0
    ensures IsRun(ss, moves) && ss[0] == s && OthersWait(s, ss[|moves|], 0)
    ensures var s' := ss[|moves|]; Doing(s', 0) == AliveInserted(k) && k !in s'.suspected && s'.log == []
  {
    ss, moves := [s], [];
    ss, moves := Proceeds(ss, moves, CallAddAlive(0, k));
    ss, moves := Proceeds(ss, moves, Continue(0));
    ss, moves := Proceeds(ss, moves, Continue(0));
    ss, moves := Proceeds(ss, moves, Continue(0));
  }

  /**
   An `AddAlive(k)` that tells the listener only after a whole `ReportSuspected(k)`: `k` is suspected,
   and the listener takes it for alive for as long as nothing more happens.
   */
  lemma LateAliveMisleads(s: Shared, k: Server) returns (ss: seq<Shared>, moves: seq<Move>)
    requires Init(s) && k.port != 0 && k != s.self
    ensures IsRun(ss, moves) && ss[0] == s && AllDone(ss[|moves|], k)
    ensures var s' := ss[|moves|]; k in s'.suspected && k !in s'.alive && Announced(s', k) && !Accused(s', k)
  {
    ss, moves := AboutToAnnounce(s, k);
    ss, moves := SuspectsThrough(ss, moves, 1, k);
    LogStep(ss[|moves|], Continue(0), k);
    MembershipStep(ss[|moves|], Continue(0), k);
    ss, moves := Proceeds(ss, moves, Continue(0));
  }

  /** `k` is suspected, and thread 1 has erased it and is about to tell the listener. */
  lemma AboutToTellRemoval(s: Shared, k: Server) returns (ss: seq<Shared>, moves: seq<Move>)
    requires Init(s) && k.port != 0 && k != s.self
    ensures IsRun(ss, moves) && ss[0] == s && ss[|moves|].self == s.self && k !in ss[|moves|].suspected
    ensures Doing(ss[|moves|], 1) == EvictErased(k) && forall u :: u != 1 ==> Doing(ss[|moves|], u).Idle?
  {
    ss, moves := SuspectsThrough([s], [], 0, k);
    ss, moves := Proceeds(ss, moves, CallEvict(1, k));
    ss, moves := Proceeds(ss, moves, Continue(1));
  }

  /** An eviction that tells the listener only after a new `ReportSuspected(k)`: the listener forgets the suspect. */
  lemma LateRemovalMisleads(s: Shared, k: Server) returns (ss: seq<Shared>, moves: seq<Move>)
    requires Init(s) && k.port != 0 && k != s.self
    ensures IsRun(ss, moves) && ss[0] == s && AllDone(ss[|moves|], k)
    ensures var s' := ss[|moves|]; k in s'.suspected && !Announced(s', k) && !Accused(s', k)
  {
    ss, moves := AboutToTellRemoval(s, k);
    var log := ss[|moves|].log;
    ss, moves := SuspectsThrough(ss, moves, 0, k);
    Append(log, Event(k, Suspect));
    LogStep(ss[|moves|], Continue(1), k);
    MembershipStep(ss[|moves|], Continue(1), k);
    ss, moves := Proceeds(ss, moves, Continue(1));
  }
}
