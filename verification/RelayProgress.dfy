/**
 The relay's table lock and its `once`s never block each other: whoever waits, somebody can step, and finitely
 many steps bring the waiting thread through.
 */
module RelayProgress {
  import opened Bytes
  import opened RelayMachine
  import opened RelayInvariants
  import opened RelaySteps
  import opened RelayTheorems
  import opened RelayRuns

  /** A thread waits for the table lock, or is about to enter a peer's `once`. */
  predicate Waits(s: State, t: Tid) {
    t in s.threads &&
    var pc := s.threads[t];
    WantsRead(pc) || WantsWrite(pc) || RoleAt(pc).Announced? || (pc.Evicting? && pc.stage.Enter?)
  }

  /** A step that depends on nothing outside the relay: no network, no clock, no new connection. */
  predicate Internal(a: Action) {
    match a
    case Lock(_, _) => true
    case Accepts(step) => step.TestFull?
    case Joins(_, step) => step.CloseOld? || step.Store?
    case Routes(_, step) => step.LookupHit? || step.LookupMiss?
    case Evicts(_, _) => true
    case Sweeps(step) => step.ScanPeer?
    case Stops(step) => step.CloseOne?
    case _ => false
  }

  predicate CanStep(s: State, a: Action) {
    Internal(a) && Enabled(s, a)
  }

  /** What the invariant says about one thread. */
  lemma ThreadFacts(s: State, t: Tid)
    requires t in s.threads && Inv(s)
    ensures Placed(t, s.threads[t]) && Refers(s.threads[t], s.registered)
    ensures s.writer.Some? ==> s.writer.value in s.threads
    ensures s.readers <= s.threads.Keys
    ensures RoleAt(s.threads[t]) in {Announced, Writes} <==> s.writer == Some(t)
    ensures RoleAt(s.threads[t]) == Reading <==> t in s.readers
  {
    hide Keys, Table, Onces, Evictions, Done, NoOrphans, OldClosed, Buffering, Routing, Clocks;
  }

  lemma RegisteredHasKey(s: State, p: ConnId)
    requires p in s.registered && Keys(s.threads, s.publicKey, s.registered, s.joining)
    ensures p in s.publicKey
  {
    assert KeyState(PhaseOf(s.threads, p), p in s.publicKey, p in s.registered);
  }

  lemma JoiningHasKey(s: State, c: ConnId)
    requires Handler(c) in s.threads && PhaseAt(s.threads[Handler(c)]) == Phase.Joining
    requires Keys(s.threads, s.publicKey, s.registered, s.joining)
    ensures c in s.publicKey
  {
    assert KeyState(PhaseOf(s.threads, c), c in s.publicKey, c in s.registered);
  }

  /** Every point of a read-locked section has a next step. */
  lemma ReaderSteps(s: State, t: Tid) returns (a: Action)
    requires t in s.threads && RoleAt(s.threads[t]) == Reading && Placed(t, s.threads[t])
    requires Buffering(s)
    ensures CanStep(s, a) && Mover(a) == t
  {
    match s.threads[t]
    case FullTest(_) => a := Accepts(TestFull);
    case LookupTest =>
      FrameInHand(s, t.conn);
      a := Routes(t.conn, if Prefix(Buffer(s, t.conn)) in s.table then LookupHit else LookupMiss);
    case SweepScan(_, todo, _, _) =>
      if p :| p in todo {
        a := Sweeps(ScanPeer(p));
      } else {
        a := Lock(t, ReadUnlock);
      }
    case FullTested(_, _) => a := Lock(t, ReadUnlock);
    case LookupDone(_) => a := Lock(t, ReadUnlock);
  }

  /** So has every point of a write-locked section. */
  lemma WriterSteps(s: State, t: Tid) returns (a: Action)
    requires t in s.threads && RoleAt(s.threads[t]) == Writes
    requires Placed(t, s.threads[t]) && Refers(s.threads[t], s.registered)
    requires Keys(s.threads, s.publicKey, s.registered, s.joining)
    ensures CanStep(s, a) && Mover(a) == t
  {
    match s.threads[t]
    case RegClose =>
      JoiningHasKey(s, t.conn);
      a := Joins(t.conn, CloseOld);
    case RegStore =>
      JoiningHasKey(s, t.conn);
      a := Joins(t.conn, Store);
    case RegUnlock => a := Lock(t, Unlock);
    case StopClose(todo) =>
      if p :| p in todo {
        a := Stops(CloseOne(p));
      } else {
        a := Lock(t, Unlock);
      }
    case Evicting(p, stage, _) =>
      if stage.Delete? {
        RegisteredHasKey(s, p);
        a := Evicts(t, DeleteEntry);
      } else {
        a := Lock(t, Unlock);
      }
  }

  /** While somebody holds the lock or has announced to write, the lock moves on. */
  lemma LockedSteps(s: State, w: Tid) returns (a: Action)
    requires s.writer == Some(w) && Inv(s)
    ensures CanStep(s, a) && (Mover(a) == w || Mover(a) in s.readers)
  {
    hide Places, Locks, References, Table, Onces, Evictions, Done, NoOrphans, OldClosed, Routing, Clocks;
    hide Keys, Buffering;
    assert w in s.threads by {
      WriterIsThread(s, w);
    }
    ThreadFacts(s, w);
    if RoleAt(s.threads[w]) == Writes {
      a := WriterSteps(s, w);
    } else if r :| r in s.readers {
      ThreadFacts(s, r);
      a := ReaderSteps(s, r);
    } else {
      a := Lock(w, Acquire);
    }
  }

  lemma WriterIsThread(s: State, w: Tid)
    requires s.writer == Some(w) && Locks(s.threads, s.writer, s.readers)
    ensures w in s.threads
  {
  }

  lemma OnceHeldBy(s: State, p: ConnId, u: Tid)
    requires Onces(s.threads, s.running, s.evicted) && p in s.running && s.running[p] == u
    ensures u in s.threads && s.threads[u].Evicting? && s.threads[u].peer == p && !s.threads[u].stage.Enter?
  {
  }

  /** With the lock free, whoever is inside a `once` can go on, and so can whoever waits for one. */
  lemma UnlockedSteps(s: State, t: Tid) returns (a: Action)
    requires Waits(s, t) && s.writer == None && Inv(s)
    ensures CanStep(s, a)
  {
    hide Places, Locks, Keys, References, Table, Onces, Evictions, Done;
    hide NoOrphans, OldClosed, Buffering, Routing, Clocks;
    ThreadFacts(s, t);
    var pc := s.threads[t];
    if WantsRead(pc) {
      a := Lock(t, ReadLock);
    } else if WantsWrite(pc) {
      a := Lock(t, Announce);
    } else if pc.peer in s.evicted {
      a := Evicts(t, SkipOnce);
    } else if pc.peer !in s.running {
      a := Evicts(t, EnterOnce);
    } else {
      var u := s.running[pc.peer];
      OnceHeldBy(s, pc.peer, u);
      ThreadFacts(s, u);
      match s.threads[u].stage
      case Close => a := Evicts(u, CloseEvicted);
      case Want => a := Lock(u, Announce);
      case Finish => a := Evicts(u, LeaveOnce);
    }
  }

  /**
   Whenever a thread waits for the table lock or for a peer's `once`, some thread can take a step that
   depends on nothing outside the relay. In particular `evict` and the lock cannot deadlock.
   */
  lemma LockProgress(s: State, t: Tid) returns (a: Action)
    requires Reachable(s) && Waits(s, t)
    ensures Internal(a) && Enabled(s, a)
  {
    hide Inv;
    ReachableInv(s);
    if s.writer.Some? {
      a := LockedSteps(s, s.writer.value);
    } else {
      a := UnlockedSteps(s, t);
    }
  }

  // --- a waiting thread gets through ---

  /** The thread that takes an internal step. */
  function Mover(a: Action): Tid {
    match a
    case Lock(t, _) => t
    case Accepts(_) => Acceptor
    case Joins(c, _) => Handler(c)
    case Routes(c, _) => Handler(c)
    case Evicts(t, _) => t
    case Sweeps(_) => Sweeper
    case Stops(_) => Stopper
    case _ => Acceptor
  }

  /** Only this thread has moved. */
  ghost predicate OnlyMoved(s: State, s': State, t: Tid) {
    t in s.threads && t in s'.threads && s'.threads == s.threads[t := s'.threads[t]]
  }

  ghost predicate SameLock(s: State, s': State) {
    s'.writer == s.writer && s'.readers == s.readers
  }

  lemma JoinMoves(s: State, c: ConnId, step: JoinStep)
    requires (step.CloseOld? || step.Store?) && JoinEnabled(s, c, step)
    ensures OnlyMoved(s, JoinApply(s, c, step), Handler(c)) && SameLock(s, JoinApply(s, c, step))
  {
    hide KeyOf, Registered;
  }

  lemma LookupMoves(s: State, c: ConnId, step: RouteStep)
    requires (step.LookupHit? || step.LookupMiss?) && RouteEnabled(s, c, step)
    ensures OnlyMoved(s, RouteApply(s, c, step), Handler(c)) && SameLock(s, RouteApply(s, c, step))
  {
    hide Prefix, Buffer, Fates;
  }

  lemma OnceMoves(s: State, t: Tid, step: OnceStep)
    requires OnceEnabled(s, t, step)
    ensures OnlyMoved(s, OnceApply(s, t, step), t) && SameLock(s, OnceApply(s, t, step))
  {
    hide KeyOf, Removed, AfterEvict;
  }

  lemma LockMoves(s: State, t: Tid, step: LockStep)
    requires LockEnabled(s, t, step)
    ensures OnlyMoved(s, LockApply(s, t, step), t)
  {
    hide AfterReadLock, AfterReadUnlock, AfterAnnounce, AfterAcquire, AfterUnlock;
  }

  /** How much a thread still has to do inside the lock. */
  function Rank(pc: Pc): nat {
    match pc
    case FullTest(_) => 2
    case LookupTest => 2
    case SweepScan(_, todo, _, _) => |todo| + 1
    case RegClose => 3
    case RegStore => 2
    case StopClose(todo) => |todo| + 1
    case Evicting(_, stage, _) => if stage.Delete? then 2 else 1
    case _ => 1
  }

  /** One step towards the end of the locked section, or out of it. */
  ghost predicate Nears(s: State, s': State, t: Tid) {
    && OnlyMoved(s, s', t)
    && if RoleAt(s'.threads[t]) == RoleAt(s.threads[t]) then
         SameLock(s, s') && Rank(s'.threads[t]) < Rank(s.threads[t])
       else
         && RoleAt(s'.threads[t]) == Free
         && s'.readers == s.readers - {t}
         && s'.writer == if s.writer == Some(t) then None else s.writer
  }

  lemma TestNears(s: State)
    requires AcceptEnabled(s, TestFull)
    ensures Nears(s, AcceptApply(s, TestFull), Acceptor)
  {
  }

  lemma LookupNears(s: State, c: ConnId, step: RouteStep)
    requires (step.LookupHit? || step.LookupMiss?) && RouteEnabled(s, c, step)
    ensures Nears(s, RouteApply(s, c, step), Handler(c))
  {
    hide Prefix, Buffer, Fates;
    LookupMoves(s, c, step);
  }

  lemma ScanNears(s: State, p: ConnId)
    requires SweepEnabled(s, ScanPeer(p))
    ensures Nears(s, SweepApply(s, ScanPeer(p)), Sweeper)
  {
    hide Stale;
    assert |s.threads[Sweeper].todo - {p}| < |s.threads[Sweeper].todo|;
  }

  lemma UnlockNears(s: State, t: Tid, step: LockStep)
    requires LockEnabled(s, t, step) && (step.ReadUnlock? || step.Unlock?)
    requires RoleAt(s.threads[t]) in {Reading, Writes}
    requires s.writer == Some(t) <==> step.Unlock?
    requires t in s.readers <==> step.ReadUnlock?
    ensures Nears(s, LockApply(s, t, step), t)
  {
    LockMoves(s, t, step);
    hide OnlyMoved;
    assert step.Unlock? ==> s.readers - {t} == s.readers;
  }

  lemma JoinNears(s: State, c: ConnId, step: JoinStep)
    requires (step.CloseOld? || step.Store?) && JoinEnabled(s, c, step)
    ensures Nears(s, JoinApply(s, c, step), Handler(c))
  {
    hide KeyOf, Registered;
    JoinMoves(s, c, step);
  }

  lemma DeleteNears(s: State, t: Tid)
    requires OnceEnabled(s, t, DeleteEntry)
    ensures Nears(s, OnceApply(s, t, DeleteEntry), t)
  {
    hide KeyOf, Removed;
    OnceMoves(s, t, DeleteEntry);
  }

  lemma CloseNears(s: State, p: ConnId)
    requires StopEnabled(s, CloseOne(p))
    ensures Nears(s, StopApply(s, CloseOne(p)), Stopper)
  {
    assert |s.threads[Stopper].todo - {p}| < |s.threads[Stopper].todo|;
  }

  lemma StepNears(s: State, t: Tid, a: Action)
    requires CanStep(s, a) && Mover(a) == t && t in s.threads
    requires RoleAt(s.threads[t]) in {Reading, Writes}
    requires s.writer == Some(t) <==> RoleAt(s.threads[t]) == Writes
    requires t in s.readers <==> RoleAt(s.threads[t]) == Reading
    ensures Nears(s, Apply(s, a), t)
  {
    hide AcceptApply, JoinApply, RouteApply, OnceApply, SweepApply, StopApply, LockApply, Nears;
    match a {
      case Accepts(_) => TestNears(s);
      case Joins(c, step) => JoinNears(s, c, step);
      case Routes(c, step) => LookupNears(s, c, step);
      case Evicts(_, _) => DeleteNears(s, t);
      case Sweeps(step) => ScanNears(s, step.peer);
      case Stops(step) => CloseNears(s, step.peer);
      case Lock(_, step) => UnlockNears(s, t, step);
    }
  }

  ghost predicate AllInternal(actions: seq<Action>) {
    forall a <- actions :: Internal(a)
  }

  /** Some internal run leads from one state to the other. */
  ghost predicate Gets(s: State, s': State) {
    exists actions: seq<Action> :: AllInternal(actions) && Run(s, actions) == Some(s')
  }

  lemma GetsNowhere(s: State)
    ensures Gets(s, s)
  {
    assert AllInternal([]) && Run(s, []) == Some(s);
  }

  lemma GetsOn(s: State, s1: State, a: Action)
    requires Gets(s, s1) && CanStep(s1, a) && Inv(s1)
    ensures Gets(s, Apply(s1, a)) && Inv(Apply(s1, a))
  {
    hide Inv, Enabled, Apply, Internal, Run;
    var actions: seq<Action> :| AllInternal(actions) && Run(s, actions) == Some(s1);
    OneMore(s, actions, a);
    StepKeeps(s1, a);
    assert AllInternal(actions + [a]);
  }

  /** The threads that are not among these have not moved. */
  ghost predicate Still(s: State, s': State, movers: set<Tid>) {
    forall t <- s.threads :: t !in movers ==> t in s'.threads && s'.threads[t] == s.threads[t]
  }

  /** A thread inside the lock leaves it, and nobody else moves. */
  lemma {:induction false} LeavesLock(s0: State, s: State, t: Tid) returns (s': State)
    requires Gets(s0, s) && t in s.threads && RoleAt(s.threads[t]) in {Reading, Writes} && Inv(s)
    ensures Gets(s0, s') && Still(s, s', {t}) && Inv(s')
    ensures t in s'.threads && RoleAt(s'.threads[t]) == Free
    ensures s'.readers == s.readers - {t} && s'.writer == if s.writer == Some(t) then None else s.writer
    decreases Rank(s.threads[t])
  {
    hide Inv, Gets, Enabled, Apply, Rank, RoleAt;
    var a := LockedStep(s, t);
    GetsOn(s0, s, a);
    s' := Apply(s, a);
    if RoleAt(s'.threads[t]) == RoleAt(s.threads[t]) {
      var s1 := s';
      s' := LeavesLock(s0, s1, t);
    }
  }

  lemma LockedStep(s: State, t: Tid) returns (a: Action)
    requires t in s.threads && RoleAt(s.threads[t]) in {Reading, Writes} && Inv(s)
    ensures CanStep(s, a) && Nears(s, Apply(s, a), t)
  {
    hide Inv, Enabled, Apply, Nears, RoleAt, Buffering, Keys;
    ThreadFacts(s, t);
    RoutingParts(s);
    if RoleAt(s.threads[t]) == Reading {
      a := ReaderSteps(s, t);
    } else {
      a := WriterSteps(s, t);
    }
    StepNears(s, t, a);
  }

  lemma RoutingParts(s: State)
    requires Inv(s)
    ensures Buffering(s) && Keys(s.threads, s.publicKey, s.registered, s.joining)
    ensures forall t <- s.threads :: RoleAt(s.threads[t]) == Writes ==> s.readers == {}
  {
  }

  /** The readers inside leave, one after the other. */
  lemma {:induction false} DrainReaders(s0: State, s: State) returns (s': State)
    requires Gets(s0, s) && Inv(s)
    ensures Gets(s0, s') && Still(s, s', s.readers) && Inv(s')
    ensures s'.readers == {} && s'.writer == s.writer
    decreases |s.readers|
  {
    hide Inv, Gets, RoleAt;
    s' := s;
    if r :| r in s.readers {
      assert r in s.threads && RoleAt(s.threads[r]) == Reading && s.writer != Some(r) by {
        ReaderFacts(s, r);
      }
      var s1 := LeavesLock(s0, s, r);
      assert |s1.readers| < |s.readers|;
      s' := DrainReaders(s0, s1);
    }
  }

  lemma ReaderFacts(s: State, r: Tid)
    requires r in s.readers && Inv(s)
    ensures r in s.threads && RoleAt(s.threads[r]) == Reading && s.writer != Some(r)
  {
    hide Inv;
    assert r in s.threads by {
      ReadersAreThreads(s);
    }
    ThreadFacts(s, r);
  }

  lemma ReadersAreThreads(s: State)
    requires Inv(s)
    ensures s.readers <= s.threads.Keys
  {
  }

  /** An announced writer gets the lock. */
  lemma Acquires(s0: State, s: State, t: Tid) returns (s': State)
    requires Gets(s0, s) && t in s.threads && RoleAt(s.threads[t]).Announced? && Inv(s)
    ensures Gets(s0, s') && Still(s, s', s.readers + {t}) && Inv(s')
    ensures s'.writer == Some(t) && s'.readers == {} && t in s'.threads
    ensures s'.threads[t] == AfterAcquire(s', s.threads[t])
  {
    hide Inv, Gets;
    ThreadFacts(s, t);
    var s1 := DrainReaders(s0, s);
    GetsOn(s0, s1, Lock(t, Acquire));
    s' := Apply(s1, Lock(t, Acquire));
  }

  lemma Announces(s0: State, s: State, t: Tid) returns (s': State)
    requires Gets(s0, s) && t in s.threads && WantsWrite(s.threads[t]) && s.writer == None && Inv(s)
    ensures Gets(s0, s') && Still(s, s', {t}) && Inv(s')
    ensures s'.writer == Some(t) && s'.readers == s.readers && t in s'.threads
    ensures s'.threads[t] == AfterAnnounce(s.threads[t])
  {
    hide Inv, Gets;
    GetsOn(s0, s, Lock(t, Announce));
    s' := Apply(s, Lock(t, Announce));
  }

  /** A writer, inside or announced, gets the lock and gives it back. */
  lemma FreesLock(s0: State, s: State, w: Tid) returns (s': State)
    requires Gets(s0, s) && s.writer == Some(w) && Inv(s)
    ensures Gets(s0, s') && Still(s, s', s.readers + {w}) && s'.writer == None && Inv(s')
  {
    hide Inv, Gets, AfterAcquire;
    assert w in s.threads by {
      WriterInside(s, w);
    }
    ThreadFacts(s, w);
    var s1 := s;
    if RoleAt(s.threads[w]).Announced? {
      s1 := Acquires(s0, s, w);
      ThreadFacts(s1, w);
      AcquiredWrites(s1, s.threads[w]);
    }
    s' := LeavesLock(s0, s1, w);
  }

  lemma WriterInside(s: State, w: Tid)
    requires s.writer == Some(w) && Inv(s)
    ensures w in s.threads
  {
  }

  lemma AcquiredWrites(s: State, pc: Pc)
    requires RoleAt(pc).Announced?
    ensures RoleAt(AfterAcquire(s, pc)) == Writes
  {
  }

  /** Thread `u` is inside the `once` of `p`, at this stage. */
  predicate Inside(s: State, u: Tid, p: ConnId, stage: EvictStage) {
    u in s.threads && s.threads[u].Evicting? && s.threads[u].peer == p && s.threads[u].stage == stage
  }

  lemma FinishesOnce(s0: State, s: State, u: Tid, p: ConnId) returns (s': State)
    requires Gets(s0, s) && Inside(s, u, p, Finish) && Inv(s)
    ensures Gets(s0, s') && Still(s, s', {u}) && p in s'.evicted && s'.writer == s.writer && Inv(s')
  {
    hide Inv, Gets;
    GetsOn(s0, s, Evicts(u, LeaveOnce));
    s' := Apply(s, Evicts(u, LeaveOnce));
  }

  lemma DeleteStep(s: State, u: Tid, p: ConnId)
    requires Inside(s, u, p, Delete) && p in s.publicKey
    ensures var a := Evicts(u, DeleteEntry);
      CanStep(s, a) && Inside(Apply(s, a), u, p, Release) && Still(s, Apply(s, a), {u})
  {
    hide KeyOf, Removed;
  }

  lemma ReleaseStep(s: State, u: Tid, p: ConnId)
    requires Inside(s, u, p, Release)
    ensures var a := Lock(u, Unlock);
      && CanStep(s, a) && Inside(Apply(s, a), u, p, Finish) && Still(s, Apply(s, a), {u})
      && Apply(s, a).writer == None
  {
  }

  lemma DeletesInOnce(s0: State, s: State, u: Tid, p: ConnId) returns (s': State)
    requires Gets(s0, s) && Inside(s, u, p, Delete) && Inv(s)
    ensures Gets(s0, s') && Still(s, s', {u}) && p in s'.evicted && s'.writer == None && Inv(s')
  {
    hide Inv, Gets, Enabled, Apply;
    ThreadFacts(s, u);
    assert p in s.publicKey by {
      RoutingParts(s);
      RegisteredHasKey(s, p);
    }
    DeleteStep(s, u, p);
    GetsOn(s0, s, Evicts(u, DeleteEntry));
    var s1 := Apply(s, Evicts(u, DeleteEntry));
    ReleaseStep(s1, u, p);
    GetsOn(s0, s1, Lock(u, Unlock));
    s' := FinishesOnce(s0, Apply(s1, Lock(u, Unlock)), u, p);
  }

  lemma LocksInOnce(s0: State, s: State, u: Tid, p: ConnId) returns (s': State)
    requires Gets(s0, s) && Inside(s, u, p, Want) && s.writer == None && Inv(s)
    ensures Gets(s0, s') && Still(s, s', s.readers + {u}) && p in s'.evicted && s'.writer == None && Inv(s')
  {
    hide Inv, Gets;
    var s1 := Announces(s0, s, u);
    var s2 := Acquires(s0, s1, u);
    s' := DeletesInOnce(s0, s2, u, p);
  }

  lemma ClosesInOnce(s0: State, s: State, u: Tid, p: ConnId) returns (s': State)
    requires Gets(s0, s) && Inside(s, u, p, Close) && s.writer == None && Inv(s)
    ensures Gets(s0, s') && Still(s, s', s.readers + {u}) && p in s'.evicted && s'.writer == None && Inv(s')
  {
    hide Inv, Gets;
    GetsOn(s0, s, Evicts(u, CloseEvicted));
    s' := LocksInOnce(s0, Apply(s, Evicts(u, CloseEvicted)), u, p);
  }

  /** With the lock free, whoever is inside a `once` completes it. */
  lemma CompletesOnce(s0: State, s: State, u: Tid, p: ConnId) returns (s': State)
    requires Gets(s0, s) && u in s.threads && OnceAt(s.threads[u]) == Some(p) && s.writer == None && Inv(s)
    ensures Gets(s0, s') && Still(s, s', s.readers + {u}) && p in s'.evicted && s'.writer == None && Inv(s')
  {
    hide Inv, Gets;
    ThreadFacts(s, u);
    match s.threads[u].stage
    case Close => s' := ClosesInOnce(s0, s, u, p);
    case Want => s' := LocksInOnce(s0, s, u, p);
    case Finish => s' := FinishesOnce(s0, s, u, p);
  }

  /** With the lock free, a waiting thread gets what it waits for. */
  lemma PassesFree(s0: State, s: State, t: Tid) returns (s': State)
    requires Gets(s0, s) && Waits(s, t) && s.writer == None && Inv(s)
    ensures Gets(s0, s') && t in s'.threads && !Waits(s', t)
  {
    hide Inv, Gets;
    ThreadFacts(s, t);
    if WantsRead(s.threads[t]) {
      s' := ReadsFree(s0, s, t);
    } else if WantsWrite(s.threads[t]) {
      s' := WritesFree(s0, s, t);
    } else {
      s' := EntersFree(s0, s, t);
    }
  }

  lemma ReadsFree(s0: State, s: State, t: Tid) returns (s': State)
    requires Gets(s0, s) && t in s.threads && WantsRead(s.threads[t]) && s.writer == None && Inv(s)
    ensures Gets(s0, s') && t in s'.threads && !Waits(s', t)
  {
    hide Inv, Gets;
    GetsOn(s0, s, Lock(t, ReadLock));
    s' := Apply(s, Lock(t, ReadLock));
  }

  lemma WritesFree(s0: State, s: State, t: Tid) returns (s': State)
    requires Gets(s0, s) && t in s.threads && WantsWrite(s.threads[t]) && s.writer == None && Inv(s)
    ensures Gets(s0, s') && t in s'.threads && !Waits(s', t)
  {
    hide Inv, Gets;
    var s1 := Announces(s0, s, t);
    s' := Acquires(s0, s1, t);
  }

  lemma EnterStep(s: State, t: Tid)
    requires t in s.threads && s.threads[t].Evicting? && s.threads[t].stage.Enter?
    requires s.threads[t].peer !in s.evicted && s.threads[t].peer !in s.running
    ensures var a := Evicts(t, EnterOnce);
      CanStep(s, a) && t in Apply(s, a).threads && !Waits(Apply(s, a), t)
  {
  }

  lemma EntersFree(s0: State, s: State, t: Tid) returns (s': State)
    requires Gets(s0, s) && t in s.threads && s.threads[t].Evicting? && s.threads[t].stage.Enter?
    requires s.writer == None && Inv(s)
    ensures Gets(s0, s') && t in s'.threads && !Waits(s', t)
  {
    hide Inv, Gets, Waits, Enabled, Apply;
    var p := s.threads[t].peer;
    if p in s.evicted {
      s' := SkipsOnce(s0, s, t);
    } else if p in s.running {
      ThreadFacts(s, t);
      RunningFacts(s, p);
      var s1 := CompletesOnce(s0, s, s.running[p], p);
      s' := SkipsOnce(s0, s1, t);
    } else {
      EnterStep(s, t);
      GetsOn(s0, s, Evicts(t, EnterOnce));
      s' := Apply(s, Evicts(t, EnterOnce));
    }
  }

  lemma RunningFacts(s: State, p: ConnId)
    requires p in s.running && Inv(s)
    ensures s.running[p] in s.threads && OnceAt(s.threads[s.running[p]]) == Some(p)
  {
  }

  lemma SkipsOnce(s0: State, s: State, t: Tid) returns (s': State)
    requires Gets(s0, s) && t in s.threads && s.threads[t].Evicting? && s.threads[t].stage.Enter?
    requires s.threads[t].peer in s.evicted && Inv(s)
    ensures Gets(s0, s') && t in s'.threads && !Waits(s', t)
  {
    hide Inv, Gets;
    GetsOn(s0, s, Evicts(t, SkipOnce));
    s' := Apply(s, Evicts(t, SkipOnce));
  }

  /**
   No waiting thread is stuck: from every state that can be reached, whatever the other threads hold or wait
   for, some finite run of internal steps brings a thread that waits for the table lock, or for a peer's
   `once`, through.
   */
  lemma GetsThrough(s: State, t: Tid) returns (actions: seq<Action>, s': State)
    requires Reachable(s) && Waits(s, t)
    ensures AllInternal(actions) && Run(s, actions) == Some(s')
    ensures t in s'.threads && !Waits(s', t)
  {
    hide Inv, Gets;
    ReachableInv(s);
    GetsNowhere(s);
    ThreadFacts(s, t);
    if s.writer == Some(t) {
      s' := Acquires(s, s, t);
      AcquiredWrites(s', s.threads[t]);
    } else {
      var s1 := s;
      if s.writer.Some? {
        s1 := FreesLock(s, s, s.writer.value);
      }
      s' := PassesFree(s, s1, t);
    }
    actions := GetsBy(s, s');
  }

  lemma GetsBy(s: State, s': State) returns (actions: seq<Action>)
    requires Gets(s, s')
    ensures AllInternal(actions) && Run(s, actions) == Some(s')
  {
    actions :| AllInternal(actions) && Run(s, actions) == Some(s');
  }

  /** The reason: nobody enters a `once`, or closes inside of it, while holding the table lock. */
  lemma OnceOutsideLock(s: State, t: Tid)
    requires Reachable(s) && t in s.threads && s.threads[t].Evicting?
    requires s.threads[t].stage in {Enter, Close, Want}
    ensures t !in s.readers && s.writer != Some(t)
  {
    hide Inv;
    ReachableInv(s);
    ThreadFacts(s, t);
  }

  /** The lock excludes: a thread inside a write-locked section is alone with the table. */
  lemma WriterExcludes(s: State, t: Tid, u: Tid)
    requires Reachable(s) && t in s.threads && u in s.threads && t != u
    requires RoleAt(s.threads[t]) == Writes
    ensures RoleAt(s.threads[u]) == Free
  {
    hide Places, Keys, References, Table, Onces, Evictions, Done, NoOrphans, OldClosed, Buffering, Routing, Clocks;
    ReachableInv(s);
  }
}
