/**
 One server, many threads: every block guarded by a mutex, every read of the
 atomic clock and every call of the listener, which comes after the lock has been
 released, is one step.  The steps of different calls interleave freely.

 A call in progress is described by what it has done so far.  Sets are kept with
 their stamps only; times and incarnations play no part here.
 */
module ConcurrentServer {
  import opened SwimTypes
  import opened Listener
  import Membership

  datatype Progress =
    | Idle
    | AliveBegun(k: Server)
    | AliveCleared(k: Server)
    | AliveStamped(k: Server, stamp: nat)
    | AliveFound(k: Server)
    | AliveInserted(k: Server)
    | SuspectBegun(k: Server)
    | SuspectStamped(k: Server, stamp: nat)
    | SuspectCleared(k: Server, stamp: nat)
    | SuspectInserted(k: Server)
    | EvictBegun(k: Server)
    | EvictErased(k: Server)

  datatype Shared = Shared(
    self: Server,
    alive: map<Server, nat>,
    suspected: map<Server, nat>,
    clock: nat,
    log: seq<Event>,
    threads: map<nat, Progress>)

  /** What a thread does next: start a call, go on with the one in progress, or advance the clock. */
  datatype Move =
    | CallAddAlive(t: nat, k: Server)
    | CallReportSuspected(t: nat, k: Server)
    | CallEvict(t: nat, k: Server)
    | Continue(t: nat)
    | Tick(t: nat, time: nat)

  function Doing(s: Shared, t: nat): Progress {
    if t in s.threads then s.threads[t] else Idle
  }

  function At(s: Shared, t: nat, p: Progress): Shared {
    s.(threads := s.threads[t := p])
  }

  ghost predicate Enabled(s: Shared, m: Move) {
    m.Continue? || m.Tick? || Doing(s, m.t).Idle?
  }

  /** The next block of the call thread `t` is in. */
  function Proceed(s: Shared, t: nat): Shared {
    match Doing(s, t)
    case Idle => s
    case AliveBegun(k) => At(s, t, AliveCleared(k)).(suspected := s.suspected - {k})
    case AliveCleared(k) => At(s, t, AliveStamped(k, s.clock))
    case AliveStamped(k, stamp) =>
      if k in s.alive then At(s, t, AliveFound(k)) else At(s, t, AliveInserted(k)).(alive := s.alive[k := stamp])
    case AliveFound(k) => At(s, t, Idle).(alive := if k in s.alive then s.alive[k := s.clock] else s.alive)
    case AliveInserted(k) => At(s, t, Idle).(log := s.log + [Event(k, Alive)])
    case SuspectBegun(k) => At(s, t, SuspectStamped(k, s.clock))
    case SuspectStamped(k, stamp) => At(s, t, SuspectCleared(k, stamp)).(alive := s.alive - {k})
    case SuspectCleared(k, stamp) =>
      if k in s.suspected then At(s, t, Idle) else At(s, t, SuspectInserted(k)).(suspected := s.suspected[k := stamp])
    case SuspectInserted(k) => At(s, t, Idle).(log := s.log + [Event(k, Suspect)])
    case EvictBegun(k) =>
      if k in s.suspected then At(s, t, EvictErased(k)).(suspected := s.suspected - {k}) else At(s, t, Idle)
    case EvictErased(k) => At(s, t, Idle).(log := s.log + [Event(k, Removed)])
  }

  /** Calls about a port-0 server return at once; suspecting oneself is a call of `AddAlive`. */
  function Next(s: Shared, m: Move): Shared {
    match m
    case CallAddAlive(t, k) => if k.port == 0 then s else At(s, t, AliveBegun(k))
    case CallReportSuspected(t, k) =>
      if k.port == 0 then s else if k == s.self then At(s, t, AliveBegun(k)) else At(s, t, SuspectBegun(k))
    case CallEvict(t, k) => At(s, t, EvictBegun(k))
    case Continue(t) => Proceed(s, t)
    case Tick(_, time) => s.(clock := Max(s.clock, time) + 1)
  }

  ghost predicate IsRun(ss: seq<Shared>, moves: seq<Move>) {
    && |ss| == |moves| + 1
    && forall i :: 0 <= i < |moves| ==> Enabled(ss[i], moves[i]) && ss[i + 1] == Next(ss[i], moves[i])
  }

  // ----- What one step does to one server -----

  /** The step is a block of the call `p`. */
  ghost predicate Runs(s: Shared, m: Move, p: Progress) {
    m.Continue? && Doing(s, m.t) == p
  }

  ghost predicate ClearsSuspected(s: Shared, m: Move, k: Server) {
    Runs(s, m, AliveBegun(k))
  }

  ghost predicate InsertsAlive(s: Shared, m: Move, k: Server) {
    m.Continue? && Doing(s, m.t).AliveStamped? && Doing(s, m.t).k == k
  }

  ghost predicate ClearsAlive(s: Shared, m: Move, k: Server) {
    m.Continue? && Doing(s, m.t).SuspectStamped? && Doing(s, m.t).k == k
  }

  ghost predicate InsertsSuspected(s: Shared, m: Move, k: Server) {
    m.Continue? && Doing(s, m.t).SuspectCleared? && Doing(s, m.t).k == k
  }

  ghost predicate Evicts(s: Shared, m: Move, k: Server) {
    Runs(s, m, EvictBegun(k))
  }

  lemma AliveStep(s: Shared, m: Move, k: Server)
    ensures k in Next(s, m).alive <==> (InsertsAlive(s, m, k) || k in s.alive) && !ClearsAlive(s, m, k)
  {
  }

  lemma SuspectedStep(s: Shared, m: Move, k: Server)
    ensures k in Next(s, m).suspected <==>
      (InsertsSuspected(s, m, k) || k in s.suspected) && !ClearsSuspected(s, m, k) && !Evicts(s, m, k)
  {
  }

  /** The steps that change whether `k` is in a set. */
  lemma MembershipStep(s: Shared, m: Move, k: Server)
    ensures var s' := Next(s, m);
      && (k in s'.alive <==> (InsertsAlive(s, m, k) || k in s.alive) && !ClearsAlive(s, m, k))
      && (k in s'.suspected <==>
            (InsertsSuspected(s, m, k) || k in s.suspected) && !ClearsSuspected(s, m, k) && !Evicts(s, m, k))
  {
    AliveStep(s, m, k);
    SuspectedStep(s, m, k);
  }

  /** A step leaves the calls of other threads where they are. */
  lemma OtherThreads(s: Shared, m: Move, u: nat)
    requires u != m.t
    ensures Doing(Next(s, m), u) == Doing(s, u)
  {
  }

  /** One more step of a run. */
  lemma Goes(ss: seq<Shared>, moves: seq<Move>, m: Move) returns (ss': seq<Shared>, moves': seq<Move>)
    requires IsRun(ss, moves) && Enabled(ss[|moves|], m)
    ensures IsRun(ss', moves') && moves' == moves + [m] && ss'[0] == ss[0]
    ensures ss'[|moves'|] == Next(ss[|moves|], m)
  {
    ss', moves' := ss + [Next(ss[|moves|], m)], moves + [m];
  }

  // ----- Both sets at once -----

  predicate AddsAlive(p: Progress, k: Server) {
    p == AliveBegun(k) || p == AliveCleared(k) || (p.AliveStamped? && p.k == k) || p == AliveFound(k)
  }

  predicate Suspects(p: Progress, k: Server) {
    p == SuspectBegun(k) || ((p.SuspectStamped? || p.SuspectCleared?) && p.k == k)
  }

  /** The call has erased `k` from the suspected set and is about to insert it into the alive set. */
  predicate HasCleared(p: Progress, k: Server) {
    p == AliveCleared(k) || (p.AliveStamped? && p.k == k)
  }

  /** A call of `AddAlive(k)` and a call of `ReportSuspected(k)` are in progress at once. */
  ghost predicate Overlap(s: Shared, k: Server) {
    exists t, u :: AddsAlive(Doing(s, t), k) && Suspects(Doing(s, u), k)
  }

  ghost predicate InBoth(s: Shared, k: Server) {
    k in s.alive && k in s.suspected
  }

  /** A call that has erased `k` from the other set still finds it erased. */
  ghost predicate ErasedStaysErased(s: Shared, k: Server) {
    && (forall t :: HasCleared(Doing(s, t), k) ==> k !in s.suspected)
    && (forall t :: Doing(s, t).SuspectCleared? && Doing(s, t).k == k ==> k !in s.alive)
  }

  lemma ErasedAt(s: Shared, m: Move, k: Server, u: nat)
    requires Enabled(s, m) && ErasedStaysErased(s, k) && !Overlap(s, k)
    ensures var s' := Next(s, m);
      && (HasCleared(Doing(s', u), k) ==> k !in s'.suspected)
      && (Doing(s', u).SuspectCleared? && Doing(s', u).k == k ==> k !in s'.alive)
  {
    if u == m.t {
    } else {
      OtherThreads(s, m, u);
      assert !(AddsAlive(Doing(s, u), k) && Suspects(Doing(s, m.t), k));
      assert !(AddsAlive(Doing(s, m.t), k) && Suspects(Doing(s, u), k));
    }
  }

  lemma ErasedStep(s: Shared, m: Move, k: Server)
    requires Enabled(s, m) && ErasedStaysErased(s, k) && !Overlap(s, k)
    ensures ErasedStaysErased(Next(s, m), k)
  {
    var s' := Next(s, m);
    forall u ensures HasCleared(Doing(s', u), k) ==> k !in s'.suspected
             ensures Doing(s', u).SuspectCleared? && Doing(s', u).k == k ==> k !in s'.alive
    {
      ErasedAt(s, m, k, u);
    }
  }

  lemma DisjointStep(s: Shared, m: Move, k: Server)
    requires Enabled(s, m) && ErasedStaysErased(s, k) && !InBoth(s, k)
    ensures !InBoth(Next(s, m), k)
  {
    MembershipStep(s, m, k);
  }

  /**
   As long as no `AddAlive(k)` overlaps a `ReportSuspected(k)`, the sets stay disjoint on `k` in every
   intermediate state, whatever goes on about other servers.
   */
  lemma {:induction false} DisjointWithoutOverlap(ss: seq<Shared>, moves: seq<Move>, k: Server, i: nat)
    requires IsRun(ss, moves) && i < |ss|
    requires ErasedStaysErased(ss[0], k) && !InBoth(ss[0], k)
    requires forall j :: 0 <= j < i ==> !Overlap(ss[j], k)
    ensures ErasedStaysErased(ss[i], k) && !InBoth(ss[i], k)
  {
    if i == 0 {
    } else {
      DisjointWithoutOverlap(ss, moves, k, i - 1);
      ErasedStep(ss[i - 1], moves[i - 1], k);
      DisjointStep(ss[i - 1], moves[i - 1], k);
    }
  }

  /** A freshly constructed server. */
  ghost predicate Init(s: Shared) {
    s.alive == map[] && s.suspected == map[] && s.log == [] && s.threads == map[]
  }

  /** A server found in both sets proves that two calls about it overlapped before. */
  lemma InBothOnlyByOverlap(ss: seq<Shared>, moves: seq<Move>, k: Server, i: nat) returns (j: nat)
    requires IsRun(ss, moves) && i < |ss| && Init(ss[0]) && InBoth(ss[i], k)
    ensures j < i && Overlap(ss[j], k)
  {
    if forall x :: 0 <= x < i ==> !Overlap(ss[x], k) {
      DisjointWithoutOverlap(ss, moves, k, i);
    }
    j :| 0 <= j < i && Overlap(ss[j], k);
  }

  /** No call of `AddAlive(k)` or `ReportSuspected(k)` is in progress. */
  ghost predicate Quiet(s: Shared, k: Server) {
    forall t :: !AddsAlive(Doing(s, t), k) && !Suspects(Doing(s, t), k)
  }

  // ----- Which interleavings leave a server in both sets -----

  /**
   In the run one call of `AddAlive(k)` clears the suspected set at step `a0` and inserts at step `a1`,
   one call of `ReportSuspected(k)` clears the alive set at step `s0` and inserts at step `s1`, and
   nothing else happens to `k`.
   */
  ghost predicate OneEach(ss: seq<Shared>, moves: seq<Move>, k: Server, a0: nat, a1: nat, s0: nat, s1: nat) {
    && IsRun(ss, moves) && a0 < |moves| && a1 < |moves| && s0 < |moves| && s1 < |moves|
    && forall i :: 0 <= i < |moves| ==>
         && (ClearsSuspected(ss[i], moves[i], k) <==> i == a0)
         && (InsertsAlive(ss[i], moves[i], k) <==> i == a1)
         && (ClearsAlive(ss[i], moves[i], k) <==> i == s0)
         && (InsertsSuspected(ss[i], moves[i], k) <==> i == s1)
         && !Evicts(ss[i], moves[i], k)
  }

  lemma {:induction false} AliveStays(ss: seq<Shared>, moves: seq<Move>, k: Server, i: nat, j: nat)
    requires IsRun(ss, moves) && i <= j < |ss|
    requires forall x :: i <= x < j ==> !InsertsAlive(ss[x], moves[x], k) && !ClearsAlive(ss[x], moves[x], k)
    ensures k in ss[j].alive <==> k in ss[i].alive
  {
    if i == j {
    } else {
      AliveStays(ss, moves, k, i, j - 1);
      MembershipStep(ss[j - 1], moves[j - 1], k);
    }
  }

  lemma {:induction false} SuspectedStays(ss: seq<Shared>, moves: seq<Move>, k: Server, i: nat, j: nat)
    requires IsRun(ss, moves) && i <= j < |ss|
    requires forall x :: i <= x < j ==>
      !InsertsSuspected(ss[x], moves[x], k) && !ClearsSuspected(ss[x], moves[x], k) && !Evicts(ss[x], moves[x], k)
    ensures k in ss[j].suspected <==> k in ss[i].suspected
  {
    if i == j {
    } else {
      SuspectedStays(ss, moves, k, i, j - 1);
      MembershipStep(ss[j - 1], moves[j - 1], k);
    }
  }

  /** Each set ends up as the last of the two steps on it left it. */
  lemma LastStepDecides(ss: seq<Shared>, moves: seq<Move>, k: Server, a0: nat, a1: nat, s0: nat, s1: nat)
    requires OneEach(ss, moves, k, a0, a1, s0, s1)
    ensures k in ss[|moves|].alive <==> s0 < a1
    ensures k in ss[|moves|].suspected <==> a0 < s1
  {
    var lastAlive := if s0 < a1 then a1 else s0;
    MembershipStep(ss[lastAlive], moves[lastAlive], k);
    AliveStays(ss, moves, k, lastAlive + 1, |moves|);
    var lastSuspected := if a0 < s1 then s1 else a0;
    MembershipStep(ss[lastSuspected], moves[lastSuspected], k);
    SuspectedStays(ss, moves, k, lastSuspected + 1, |moves|);
  }

  /** A call that is past its erase was so before the step, or the step is that erase. */
  lemma HowCleared(s: Shared, m: Move, k: Server, t: nat)
    ensures HasCleared(Doing(Next(s, m), t), k) ==> HasCleared(Doing(s, t), k) || ClearsSuspected(s, m, k)
    ensures Doing(Next(s, m), t).SuspectCleared? && Doing(Next(s, m), t).k == k ==>
      (Doing(s, t).SuspectCleared? && Doing(s, t).k == k) || ClearsAlive(s, m, k)
  {
    if t == m.t {
    } else {
      OtherThreads(s, m, t);
    }
  }

  lemma {:induction false} ClearedFirst(ss: seq<Shared>, moves: seq<Move>, k: Server, i: nat, t: nat) returns (j: nat)
    requires IsRun(ss, moves) && i < |ss| && Quiet(ss[0], k) && HasCleared(Doing(ss[i], t), k)
    ensures j < i && ClearsSuspected(ss[j], moves[j], k)
  {
    if i == 0 {
      assert false;
    } else if ClearsSuspected(ss[i - 1], moves[i - 1], k) {
      j := i - 1;
    } else {
      HowCleared(ss[i - 1], moves[i - 1], k, t);
      j := ClearedFirst(ss, moves, k, i - 1, t);
    }
  }

  lemma {:induction false} SuspectClearedFirst(ss: seq<Shared>, moves: seq<Move>, k: Server, i: nat, t: nat)
    returns (j: nat)
    requires IsRun(ss, moves) && i < |ss| && Quiet(ss[0], k) && Doing(ss[i], t).SuspectCleared? && Doing(ss[i], t).k == k
    ensures j < i && ClearsAlive(ss[j], moves[j], k)
  {
    if i == 0 {
      assert false;
    } else if ClearsAlive(ss[i - 1], moves[i - 1], k) {
      j := i - 1;
    } else {
      HowCleared(ss[i - 1], moves[i - 1], k, t);
      j := SuspectClearedFirst(ss, moves, k, i - 1, t);
    }
  }

  /**
   However one `AddAlive(k)` and one `ReportSuspected(k)` interleave: `k` is in both sets afterwards if
   and only if each call's erase came before the other's insert, and it is never lost.
   */
  lemma InBothIff(ss: seq<Shared>, moves: seq<Move>, k: Server, a0: nat, a1: nat, s0: nat, s1: nat)
    requires OneEach(ss, moves, k, a0, a1, s0, s1) && Quiet(ss[0], k)
    ensures a0 < a1 && s0 < s1
    ensures InBoth(ss[|moves|], k) <==> a0 < s1 && s0 < a1
    ensures k in ss[|moves|].alive || k in ss[|moves|].suspected
  {
    LastStepDecides(ss, moves, k, a0, a1, s0, s1);
    var a := ClearedFirst(ss, moves, k, a1, moves[a1].t);
    var u := SuspectClearedFirst(ss, moves, k, s1, moves[s1].t);
  }

  /** And an overlap can lead there: `ReportSuspected` erases, `AddAlive` runs through, `ReportSuspected` inserts. */
  lemma OverlapCanLeaveBoth(s: Shared, k: Server) returns (ss: seq<Shared>, moves: seq<Move>)
    requires Init(s) && k.port != 0 && k != s.self
    ensures IsRun(ss, moves) && ss[0] == s && InBoth(ss[|moves|], k)
  {
    ss, moves := BothErased(s, k);
    ss, moves := Goes(ss, moves, Continue(1));
    ss, moves := Goes(ss, moves, Continue(1));
    MembershipStep(ss[|moves|], Continue(0), k);
    ss, moves := Goes(ss, moves, Continue(0));
  }

  /** Both calls have begun and made their erase. */
  lemma BothErased(s: Shared, k: Server) returns (ss: seq<Shared>, moves: seq<Move>)
    requires Init(s) && k.port != 0 && k != s.self
    ensures IsRun(ss, moves) && ss[0] == s
    ensures var last := ss[|moves|];
      && Doing(last, 0).SuspectCleared? && Doing(last, 0).k == k && Doing(last, 1) == AliveCleared(k)
      && k !in last.alive
  {
    ss, moves := [s], [];
    ss, moves := Goes(ss, moves, CallReportSuspected(0, k));
    ss, moves := Goes(ss, moves, CallAddAlive(1, k));
    ss, moves := Goes(ss, moves, Continue(0));
    ss, moves := Goes(ss, moves, Continue(0));
    ss, moves := Goes(ss, moves, Continue(1));
  }

  /** The step erases `k` from one of the sets: the first change a call about `k` makes. */
  ghost predicate Erases(s: Shared, m: Move, k: Server) {
    ClearsSuspected(s, m, k) || ClearsAlive(s, m, k) || Evicts(s, m, k)
  }

  /** The call is past its erase of `k`. */
  predicate HasErased(p: Progress, k: Server) {
    HasCleared(p, k) || p == AliveFound(k) || (p.SuspectCleared? && p.k == k)
  }

  /** No call about `k` has come as far as its erase. */
  ghost predicate Untouched(s: Shared, k: Server) {
    forall t :: !HasErased(Doing(s, t), k)
  }

  lemma UntouchedStep(s: Shared, m: Move, k: Server)
    requires Enabled(s, m) && Untouched(s, k) && !Erases(s, m, k)
    ensures Untouched(Next(s, m), k) && (InBoth(Next(s, m), k) <==> InBoth(s, k))
  {
    MembershipStep(s, m, k);
    assert !HasErased(Doing(s, m.t), k);
    forall u ensures !HasErased(Doing(Next(s, m), u), k) {
      if u == m.t {
        NotYetErased(s, m, k);
      } else {
        assert !HasErased(Doing(s, u), k);
        OtherThreads(s, m, u);
      }
    }
  }

  lemma NotYetErased(s: Shared, m: Move, k: Server)
    requires Enabled(s, m) && !HasErased(Doing(s, m.t), k) && !Erases(s, m, k)
    ensures !HasErased(Doing(Next(s, m), m.t), k)
  {
  }

  ghost predicate NoneErases(ss: seq<Shared>, moves: seq<Move>, k: Server, i: nat)
    requires IsRun(ss, moves) && i <= |moves|
  {
    forall j :: 0 <= j < i ==> !Erases(ss[j], moves[j], k)
  }

  /**
   From a quiet state on, as long as no opposite calls about `k` overlap: a server in both sets stays
   there until the first erase by a call about it, and is never in both again after that.
   */
  lemma {:induction false} InBothUntilErased(ss: seq<Shared>, moves: seq<Move>, k: Server, i: nat)
    requires IsRun(ss, moves) && i < |ss| && Quiet(ss[0], k)
    requires forall j :: 0 <= j < i ==> !Overlap(ss[j], k)
    ensures ErasedStaysErased(ss[i], k) && (NoneErases(ss, moves, k, i) ==> Untouched(ss[i], k))
    ensures InBoth(ss[i], k) <==> InBoth(ss[0], k) && NoneErases(ss, moves, k, i)
  {
    if i == 0 {
    } else {
      var s, m := ss[i - 1], moves[i - 1];
      InBothUntilErased(ss, moves, k, i - 1);
      ErasedStep(s, m, k);
      if NoneErases(ss, moves, k, i) {
        UntouchedStep(s, m, k);
      } else if !NoneErases(ss, moves, k, i - 1) {
        DisjointStep(s, m, k);
      }
    }
  }

  // ----- What no interleaving breaks -----

  ghost predicate GoodCall(s: Shared, p: Progress) {
    && (!p.Idle? && !p.EvictBegun? && !p.EvictErased? ==> p.k.port != 0)
    && (p.SuspectBegun? || p.SuspectStamped? || p.SuspectCleared? || p.SuspectInserted? ==> p.k != s.self)
    && (p.AliveStamped? || p.SuspectStamped? || p.SuspectCleared? ==> p.stamp <= s.clock)
  }

  ghost predicate Good(s: Shared) {
    && s.self !in s.suspected
    && (forall k :: k in s.alive ==> k.port != 0 && s.alive[k] <= s.clock)
    && (forall k :: k in s.suspected ==> k.port != 0 && s.suspected[k] <= s.clock)
    && (forall t :: GoodCall(s, Doing(s, t)))
  }

  lemma GoodAlive(s: Shared, m: Move)
    requires Good(s)
    ensures var s' := Next(s, m);
      s'.self == s.self && s.clock <= s'.clock && forall k :: k in s'.alive ==> k.port != 0 && s'.alive[k] <= s'.clock
  {
    assert GoodCall(s, Doing(s, m.t));
  }

  lemma GoodSuspected(s: Shared, m: Move)
    requires Good(s)
    ensures var s' := Next(s, m);
      s'.self !in s'.suspected && forall k :: k in s'.suspected ==> k.port != 0 && s'.suspected[k] <= s'.clock
  {
    assert GoodCall(s, Doing(s, m.t));
  }

  lemma GoodNextBlock(s: Shared, m: Move)
    requires Good(s)
    ensures GoodCall(Next(s, m), Doing(Next(s, m), m.t))
  {
    assert GoodCall(s, Doing(s, m.t));
  }

  lemma GoodStep(s: Shared, m: Move)
    requires Good(s)
    ensures Good(Next(s, m))
  {
    var s' := Next(s, m);
    GoodAlive(s, m);
    GoodSuspected(s, m);
    forall u ensures GoodCall(s', Doing(s', u)) {
      if u == m.t {
        GoodNextBlock(s, m);
      } else {
        assert GoodCall(s, Doing(s, u));
        OtherThreads(s, m, u);
      }
    }
  }

  /**
   Under any interleaving of any number of threads the server never suspects itself, neither set
   holds a port-0 server, and no stamp is ahead of the clock.
   */
  lemma {:induction false} GoodUnderAnyInterleaving(ss: seq<Shared>, moves: seq<Move>, i: nat)
    requires IsRun(ss, moves) && i < |ss| && Init(ss[0])
    ensures Good(ss[i])
  {
    if i == 0 {
    } else {
      GoodUnderAnyInterleaving(ss, moves, i - 1);
      GoodStep(ss[i - 1], moves[i - 1]);
    }
  }

  // ----- Where stamps come from -----

  predicate HoldsAliveStamp(p: Progress, k: Server, stamp: nat) {
    p == AliveStamped(k, stamp)
  }

  predicate HoldsSuspectStamp(p: Progress, k: Server, stamp: nat) {
    p == SuspectStamped(k, stamp) || p == SuspectCleared(k, stamp)
  }

  /** Thread `t` is in one call about `k`, which read its stamp at step `j` and still holds it in state `i`. */
  ghost predicate OneCall(ss: seq<Shared>, moves: seq<Move>, k: Server, t: nat, j: nat, i: nat)
    requires IsRun(ss, moves)
  {
    && j < i < |ss| && moves[j] == Continue(t)
    && (|| (&& Doing(ss[j], t) == AliveCleared(k)
            && forall x :: j < x <= i ==> HoldsAliveStamp(Doing(ss[x], t), k, ss[j].clock))
        || (&& Doing(ss[j], t) == SuspectBegun(k)
            && forall x :: j < x <= i ==> HoldsSuspectStamp(Doing(ss[x], t), k, ss[j].clock)))
  }

  lemma StampStep(s: Shared, m: Move, t: nat, k: Server, stamp: nat)
    requires Enabled(s, m)
    ensures HoldsAliveStamp(Doing(Next(s, m), t), k, stamp) ==>
      HoldsAliveStamp(Doing(s, t), k, stamp) || (m == Continue(t) && Doing(s, t) == AliveCleared(k) && stamp == s.clock)
    ensures HoldsSuspectStamp(Doing(Next(s, m), t), k, stamp) ==>
      HoldsSuspectStamp(Doing(s, t), k, stamp) || (m == Continue(t) && Doing(s, t) == SuspectBegun(k) && stamp == s.clock)
  {
    if t == m.t {
    } else {
      OtherThreads(s, m, t);
    }
  }

  /** A stamp that a call holds is the clock as the same call read it. */
  lemma {:induction false} StampWasRead(ss: seq<Shared>, moves: seq<Move>, k: Server, t: nat, i: nat, stamp: nat)
    returns (j: nat)
    requires IsRun(ss, moves) && i < |ss| && Init(ss[0])
    requires HoldsAliveStamp(Doing(ss[i], t), k, stamp) || HoldsSuspectStamp(Doing(ss[i], t), k, stamp)
    ensures OneCall(ss, moves, k, t, j, i) && ss[j].clock == stamp
  {
    if i == 0 {
      assert false;
    } else {
      var s, m := ss[i - 1], moves[i - 1];
      StampStep(s, m, t, k, stamp);
      if HoldsAliveStamp(Doing(s, t), k, stamp) || HoldsSuspectStamp(Doing(s, t), k, stamp) {
        SameKindOfStamp(s, m, t, k, stamp);
        j := StampWasRead(ss, moves, k, t, i - 1, stamp);
      } else {
        j := i - 1;
      }
    }
  }

  lemma SameKindOfStamp(s: Shared, m: Move, t: nat, k: Server, stamp: nat)
    requires Enabled(s, m)
    ensures HoldsAliveStamp(Doing(s, t), k, stamp) ==> !HoldsSuspectStamp(Doing(Next(s, m), t), k, stamp)
    ensures HoldsSuspectStamp(Doing(s, t), k, stamp) ==> !HoldsAliveStamp(Doing(Next(s, m), t), k, stamp)
  {
    if t == m.t {
    } else {
      OtherThreads(s, m, t);
    }
  }

  /**
   The stamp of a new record is the clock in the state in which the inserting call read it, however
   much the clock has moved since.
   */
  lemma InsertedStampWasRead(ss: seq<Shared>, moves: seq<Move>, k: Server, i: nat) returns (j: nat)
    requires IsRun(ss, moves) && i < |moves| && Init(ss[0])
    requires (k !in ss[i].alive && k in ss[i + 1].alive) || (k !in ss[i].suspected && k in ss[i + 1].suspected)
    ensures OneCall(ss, moves, k, moves[i].t, j, i)
    ensures k !in ss[i].alive && k in ss[i + 1].alive ==>
      ss[i + 1].alive[k] == ss[j].clock && Doing(ss[j], moves[i].t) == AliveCleared(k)
    ensures k !in ss[i].suspected && k in ss[i + 1].suspected ==>
      ss[i + 1].suspected[k] == ss[j].clock && Doing(ss[j], moves[i].t) == SuspectBegun(k)
  {
    MembershipStep(ss[i], moves[i], k);
    var t := moves[i].t;
    j := StampWasRead(ss, moves, k, t, i, Doing(ss[i], t).stamp);
  }

  /** A stored stamp changes only when a known server is seen again, and then it is the clock of that moment. */
  lemma StoredStampStep(s: Shared, m: Move, k: Server)
    ensures var s' := Next(s, m);
      && (k in s.alive && k in s'.alive ==> s'.alive[k] == if Runs(s, m, AliveFound(k)) then s.clock else s.alive[k])
      && (k in s.suspected && k in s'.suspected ==> s'.suspected[k] == s.suspected[k])
  {
  }

  // ----- Calls that nobody interrupts -----

  function Stamps(m: map<Server, Record>): map<Server, nat> {
    map k | k in m :: m[k].lamport
  }

  lemma StampsErased(m: map<Server, Record>, k: Server)
    ensures Stamps(m - {k}) == Stamps(m) - {k}
  {
  }

  lemma StampsUpdated(m: map<Server, Record>, k: Server, r: Record)
    ensures Stamps(m[k := r]) == Stamps(m)[k := r.lamport]
  {
  }

  /** The shared state stands for node `n`, and thread `t` is idle. */
  ghost predicate Represents(s: Shared, n: Membership.Node, t: nat) {
    && s.self == n.self && s.clock == n.clock && Doing(s, t).Idle?
    && s.alive == Stamps(n.alive) && s.suspected == Stamps(n.suspected) && s.log == n.log
  }

  /** The blocks of one call, run to the end without interruption. */
  function RunAlone(s: Shared, t: nat): Shared
    decreases Remaining(Doing(s, t))
  {
    if Doing(s, t).Idle? then s else RunAlone(Proceed(s, t), t)
  }

  function Remaining(p: Progress): nat {
    match p
    case Idle => 0
    case AliveBegun(_) => 4
    case AliveCleared(_) => 3
    case AliveStamped(_, _) => 2
    case AliveFound(_) => 1
    case AliveInserted(_) => 1
    case SuspectBegun(_) => 4
    case SuspectStamped(_, _) => 3
    case SuspectCleared(_, _) => 2
    case SuspectInserted(_) => 1
    case EvictBegun(_) => 2
    case EvictErased(_) => 1
  }

  lemma AliveAlone(s: Shared, t: nat, k: Server)
    requires Doing(s, t) == AliveBegun(k)
    ensures var r := RunAlone(s, t);
      && Doing(r, t).Idle? && r.self == s.self && r.clock == s.clock && r.suspected == s.suspected - {k}
      && r.alive == s.alive[k := s.clock] && r.log == (if k in s.alive then s.log else s.log + [Event(k, Alive)])
  {
    var s2 := Proceed(s, t);
    var s3 := Proceed(s2, t);
    var s4 := Proceed(s3, t);
    assert RunAlone(s, t) == RunAlone(s2, t) == RunAlone(s3, t) == RunAlone(s4, t);
    assert RunAlone(s4, t) == Proceed(s4, t);
  }

  /** Run alone, the blocks of `AddAlive` do what the whole call is taken to do elsewhere. */
  lemma UninterruptedAddAlive(s: Shared, n: Membership.Node, t: nat, k: Server, now: nat)
    requires Represents(s, n, t)
    ensures Represents(RunAlone(Next(s, CallAddAlive(t, k)), t), Membership.AddAlive(n, k, now), t)
  {
    if k.port != 0 {
      StampsErased(n.suspected, k);
      StampsUpdated(n.alive, k, Membership.AliveRecord(n, k, now));
      AliveAlone(Next(s, CallAddAlive(t, k)), t, k);
    }
  }

  lemma SuspectAlone(s: Shared, t: nat, k: Server)
    requires Doing(s, t) == SuspectBegun(k)
    ensures var r := RunAlone(s, t);
      && Doing(r, t).Idle? && r.self == s.self && r.clock == s.clock && r.alive == s.alive - {k}
      && r.suspected == (if k in s.suspected then s.suspected else s.suspected[k := s.clock])
      && r.log == (if k in s.suspected then s.log else s.log + [Event(k, Suspect)])
  {
    var s2 := Proceed(s, t);
    var s3 := Proceed(s2, t);
    var s4 := Proceed(s3, t);
    assert RunAlone(s, t) == RunAlone(s2, t) == RunAlone(s3, t) == RunAlone(s4, t);
    assert RunAlone(s4, t) == if k in s.suspected then s4 else Proceed(s4, t);
  }

  lemma UninterruptedReportSuspected(s: Shared, n: Membership.Node, t: nat, k: Server, now: nat)
    requires Represents(s, n, t)
    ensures Represents(RunAlone(Next(s, CallReportSuspected(t, k)), t), Membership.ReportSuspected(n, k, now), t)
  {
    if k == s.self {
      UninterruptedAddAlive(s, n, t, k, now);
    } else if k.port != 0 {
      StampsErased(n.alive, k);
      StampsUpdated(n.suspected, k, Record(k, 0, now, n.clock));
      SuspectAlone(Next(s, CallReportSuspected(t, k)), t, k);
    }
  }

  /** Suspecting oneself, run alone, is being seen. */
  lemma SelfSuspicionAlone(s: Shared, t: nat)
    requires Doing(s, t).Idle? && s.self.port != 0
    ensures var r := RunAlone(Next(s, CallReportSuspected(t, s.self)), t);
      && Doing(r, t).Idle? && r.clock == s.clock
      && r.alive == s.alive[s.self := s.clock] && r.suspected == s.suspected - {s.self}
      && r.log == s.log + if s.self in s.alive then [] else [Event(s.self, Alive)]
  {
    AliveAlone(Next(s, CallReportSuspected(t, s.self)), t, s.self);
  }

  /** Advancing the clock is one step, and does the same to the shared state as to the node. */
  lemma TickIsUpdate(s: Shared, n: Membership.Node, t: nat, u: nat, time: nat)
    requires Represents(s, n, t)
    ensures Represents(Next(s, Tick(u, time)), Membership.UpdateLamportTime(n, time), t)
    ensures Next(s, Tick(u, time)).clock > s.clock && Next(s, Tick(u, time)).clock > time
    ensures forall v :: Doing(Next(s, Tick(u, time)), v) == Doing(s, v)
  {
  }

  lemma UninterruptedEvict(s: Shared, n: Membership.Node, t: nat, k: Server)
    requires Represents(s, n, t)
    ensures Represents(RunAlone(Next(s, CallEvict(t, k)), t), Membership.RemoveSuspected(n, k, true), t)
  {
    StampsErased(n.suspected, k);
    var s1 := Next(s, CallEvict(t, k));
    var s2 := Proceed(s1, t);
    assert RunAlone(s1, t) == RunAlone(s2, t);
    assert RunAlone(s2, t) == if k in s.suspected then Proceed(s2, t) else s2;
    assert k !in n.suspected ==> n.suspected - {k} == n.suspected;
  }
}
