/**
 How long the table lock and a peer's `once` can be held. Whatever the other threads do, whoever has the lock or
 has announced to take it gives it back after a bounded number of steps of its own and of the readers inside,
 and whoever is inside a `once` leaves it after six steps at most.
 */
module RelayRelease {
  import opened Bytes
  import opened Protocol
  import opened RelayMachine
  import opened RelayInvariants
  import opened RelaySteps
  import opened RelayTheorems
  import opened RelayProgress

  /** The thread that takes a step, unless the world outside does. */
  function Taker(a: Action): Option<Tid> {
    match a
    case World(_) => None
    case Buffers(c, _) => Some(Handler(c))
    case _ => Some(Mover(a))
  }

  // --- a step moves one thread ---

  /** No thread but this one has moved; there may be new threads. */
  ghost predicate OthersStill(s: State, s': State, taker: Option<Tid>) {
    forall t <- s.threads :: taker != Some(t) ==> t in s'.threads && s'.threads[t] == s.threads[t]
  }

  lemma AcceptStill(s: State, step: AcceptStep)
    requires AcceptEnabled(s, step) && Places(s.threads, s.nextConn, s.nextEvictor)
    ensures OthersStill(s, AcceptApply(s, step), Some(Acceptor)) && SameLock(s, AcceptApply(s, step))
  {
  }

  lemma JoinStill(s: State, c: ConnId, step: JoinStep)
    requires JoinEnabled(s, c, step)
    ensures OthersStill(s, JoinApply(s, c, step), Some(Handler(c))) && SameLock(s, JoinApply(s, c, step))
  {
    hide KeyOf, Registered, HandshakeOf;
  }

  lemma BufferStill(s: State, c: ConnId, step: BufferStep)
    requires BufferEnabled(s, c, step)
    ensures OthersStill(s, BufferApply(s, c, step), Some(Handler(c))) && SameLock(s, BufferApply(s, c, step))
  {
    hide Buffer, Fates, Sent;
  }

  /** A failed write starts a goroutine that did not exist before. */
  lemma SpawnStill(s: State, c: ConnId, fate: Fate, p: ConnId)
    requires Evictor(s.nextEvictor) !in s.threads
    ensures var s' := SpawnEvictor(Settle(s, c, fate), p);
      OthersStill(s, s', Some(Handler(c))) && SameLock(s, s')
  {
    hide Fates;
  }

  lemma NewEvictor(threads: map<Tid, Pc>, nextConn: nat, nextEvictor: nat)
    requires Places(threads, nextConn, nextEvictor)
    ensures Evictor(nextEvictor) !in threads
  {
    hide Placed;
  }

  lemma RouteStill(s: State, c: ConnId, step: RouteStep)
    requires RouteEnabled(s, c, step) && Places(s.threads, s.nextConn, s.nextEvictor)
    ensures OthersStill(s, RouteApply(s, c, step), Some(Handler(c))) && SameLock(s, RouteApply(s, c, step))
  {
    hide Prefix, Packet, Buffer, Fates, DeliveredTo, Places, SpawnEvictor;
    NewEvictor(s.threads, s.nextConn, s.nextEvictor);
    match step {
      case DeadlineFails =>
        SpawnStill(s, c, DeadlineFailed(s.threads[Handler(c)].recipient), s.threads[Handler(c)].recipient);
      case WriteFails =>
        SpawnStill(s, c, WriteFailed(s.threads[Handler(c)].recipient), s.threads[Handler(c)].recipient);
      case _ =>
    }
  }

  lemma SweepStill(s: State, step: SweepStep)
    requires SweepEnabled(s, step)
    ensures OthersStill(s, SweepApply(s, step), Some(Sweeper)) && SameLock(s, SweepApply(s, step))
  {
  }

  lemma StopStill(s: State, step: StopStep)
    requires StopEnabled(s, step)
    ensures OthersStill(s, StopApply(s, step), Some(Stopper)) && SameLock(s, StopApply(s, step))
  {
  }

  lemma WorldStill(s: State, step: WorldStep)
    requires WorldEnabled(s, step)
    ensures OthersStill(s, WorldApply(s, step), None) && SameLock(s, WorldApply(s, step))
  {
  }

  lemma MovedStill(s: State, s': State, t: Tid)
    requires OnlyMoved(s, s', t)
    ensures OthersStill(s, s', Some(t))
  {
  }

  lemma StepStill(s: State, a: Action)
    requires Enabled(s, a) && Places(s.threads, s.nextConn, s.nextEvictor)
    ensures OthersStill(s, Apply(s, a), Taker(a)) && (!a.Lock? ==> SameLock(s, Apply(s, a)))
  {
    hide LockApply, AcceptApply, JoinApply, BufferApply, RouteApply, OnceApply, SweepApply, StopApply, Places;
    hide OthersStill, OnlyMoved, WorldApply;
    match a {
      case World(step) => WorldStill(s, step);
      case Lock(t, step) =>
        LockMoves(s, t, step);
        MovedStill(s, LockApply(s, t, step), t);
      case Accepts(step) => AcceptStill(s, step);
      case Joins(c, step) => JoinStill(s, c, step);
      case Buffers(c, step) => BufferStill(s, c, step);
      case Routes(c, step) => RouteStill(s, c, step);
      case Evicts(t, step) =>
        OnceMoves(s, t, step);
        MovedStill(s, OnceApply(s, t, step), t);
      case Sweeps(step) => SweepStill(s, step);
      case Stops(step) => StopStill(s, step);
    }
  }

  // --- the work left inside the lock ---

  ghost function SumRanks(threads: map<Tid, Pc>, ts: set<Tid>): nat
    requires ts <= threads.Keys
  {
    if ts == {} then 0
    else
      var t :| t in ts;
      Rank(threads[t]) + SumRanks(threads, ts - {t})
  }

  lemma {:induction false} SumPull(threads: map<Tid, Pc>, ts: set<Tid>, t: Tid)
    requires ts <= threads.Keys && t in ts
    ensures SumRanks(threads, ts) == Rank(threads[t]) + SumRanks(threads, ts - {t})
    decreases ts
  {
    hide Rank;
    var u :| u in ts && SumRanks(threads, ts) == Rank(threads[u]) + SumRanks(threads, ts - {u});
    if u != t {
      SumPull(threads, ts - {u}, t);
      SumPull(threads, ts - {t}, u);
      assert ts - {u} - {t} == ts - {t} - {u};
    }
  }

  lemma {:induction false} SumSame(threads: map<Tid, Pc>, threads': map<Tid, Pc>, ts: set<Tid>)
    requires ts <= threads.Keys && ts <= threads'.Keys && forall t <- ts :: threads'[t] == threads[t]
    ensures SumRanks(threads', ts) == SumRanks(threads, ts)
    decreases ts
  {
    hide Rank;
    if t :| t in ts {
      SumPull(threads, ts, t);
      SumPull(threads', ts, t);
      SumSame(threads, threads', ts - {t});
    }
  }

  /** What a writer has to do from here on until it gives the lock back. */
  function WriterWork(s: State, pc: Pc): nat {
    match pc
    case RegWait => 4
    case StopWait => |s.table.Values| + 2
    case Evicting(_, stage, _) => if stage.Wait? then 3 else Rank(pc)
    case _ => Rank(pc)
  }

  /** The steps that the writer and the readers inside need at most until the lock is given back. */
  ghost function Work(s: State, w: Tid): nat
    requires w in s.threads && s.readers <= s.threads.Keys
  {
    SumRanks(s.threads, s.readers) + WriterWork(s, s.threads[w])
  }

  /** A step of the writer, or of a reader inside. */
  predicate TakenInside(s: State, a: Action, w: Tid) {
    Taker(a) == Some(w) || (Taker(a).Some? && Taker(a).value in s.readers)
  }

  /** Whoever is inside the lock takes only steps that depend on nothing outside the relay. */
  lemma InsideIsInternal(s: State, a: Action, t: Tid)
    requires Enabled(s, a) && Taker(a) == Some(t) && t in s.threads && RoleAt(s.threads[t]) in {Reading, Writes}
    ensures CanStep(s, a) && Mover(a) == t
  {
    hide Prefix, Buffer, GoodHello, Sent, Fates;
  }

  lemma InsideNears(s: State, a: Action, t: Tid)
    requires Enabled(s, a) && Taker(a) == Some(t) && t in s.threads
    requires RoleAt(s.threads[t]) in {Reading, Writes} && Inv(s)
    ensures Nears(s, Apply(s, a), t)
  {
    hide Inv, Enabled, Apply, Nears, RoleAt;
    InsideIsInternal(s, a, t);
    ThreadFacts(s, t);
    StepNears(s, t, a);
  }

  /** A reader inside comes closer to its end. */
  lemma ReaderWorks(s: State, a: Action, w: Tid, r: Tid)
    requires Enabled(s, a) && Taker(a) == Some(r) && r in s.readers && s.writer == Some(w) && Inv(s)
    ensures var s' := Apply(s, a);
      s'.writer == Some(w) && w in s.threads && w in s'.threads && s.readers <= s.threads.Keys &&
      s'.readers <= s'.threads.Keys && s'.table == s.table && Work(s', w) < Work(s, w)
  {
    hide Inv, Enabled, Apply, Rank, RoleAt, WriterWork;
    var s' := Apply(s, a);
    WriterInside(s, w);
    ReaderFacts(s, r);
    ReadersAreThreads(s);
    InsideNears(s, a, r);
    TableStays(s, a, w);
    SumPull(s.threads, s.readers, r);
    SumSame(s.threads, s'.threads, s.readers - {r});
    if r in s'.readers {
      SumPull(s'.threads, s'.readers, r);
    }
    assert s'.threads[w] == s.threads[w];
    WorkOfTable(s, s', s.threads[w]);
    RankPositive(s.threads[r]);
  }

  lemma RankPositive(pc: Pc)
    ensures Rank(pc) > 0
  {
  }

  lemma WorkOfTable(s: State, s': State, pc: Pc)
    requires s'.table == s.table
    ensures WriterWork(s', pc) == WriterWork(s, pc)
  {
  }

  /** Only the writer changes the table. */
  lemma TableStays(s: State, a: Action, w: Tid)
    requires Enabled(s, a) && Taker(a) != Some(w) && s.writer == Some(w) && Inv(s)
    ensures Apply(s, a).table == s.table
  {
    hide Inv, Apply, Enabled;
    TableSteps(s, a);
    if Deleting(s, a).Some? {
      ThreadFacts(s, a.t);
    } else if Storing(a).Some? {
      ThreadFacts(s, Handler(a.conn));
    }
  }

  /** So does the writer, unless it gives the lock back. */
  lemma WriterWorks(s: State, a: Action, w: Tid)
    requires Enabled(s, a) && Taker(a) == Some(w) && s.writer == Some(w) && Apply(s, a).writer == Some(w) && Inv(s)
    ensures var s' := Apply(s, a);
      w in s.threads && w in s'.threads && s.readers <= s.threads.Keys && s'.readers <= s'.threads.Keys &&
      Work(s', w) < Work(s, w)
  {
    hide Inv, Enabled, Apply, Rank, RoleAt, WriterWork;
    var s' := Apply(s, a);
    WriterInside(s, w);
    ReadersAreThreads(s);
    ThreadFacts(s, w);
    if RoleAt(s.threads[w]) == Writes {
      InsideNears(s, a, w);
      SumSame(s.threads, s'.threads, s.readers);
      WritesWork(s, s', s.threads[w], s'.threads[w]);
    } else {
      AcquireWorks(s, a, w);
      SumSame(s.threads, s'.threads, s.readers);
    }
  }

  lemma WritesWork(s: State, s': State, pc: Pc, pc': Pc)
    requires RoleAt(pc) == RoleAt(pc') == Writes && Rank(pc') < Rank(pc)
    ensures WriterWork(s', pc') < WriterWork(s, pc)
  {
  }

  lemma AnnouncedAcquires(s: State, a: Action, w: Tid)
    requires Enabled(s, a) && Taker(a) == Some(w) && w in s.threads && RoleAt(s.threads[w]).Announced?
    ensures a == Lock(w, Acquire)
  {
    hide Prefix, Buffer, GoodHello, Sent, Fates;
  }

  lemma AcquireWorks(s: State, a: Action, w: Tid)
    requires Enabled(s, a) && Taker(a) == Some(w) && w in s.threads && RoleAt(s.threads[w]).Announced?
    requires w !in s.readers
    ensures var s' := Apply(s, a);
      && s'.readers == s.readers == {} && w in s'.threads && s'.threads.Keys == s.threads.Keys
      && WriterWork(s', s'.threads[w]) < WriterWork(s, s.threads[w])
  {
    AnnouncedAcquires(s, a, w);
    AcquiredWork(s, s.threads[w]);
    hide AfterAcquire, WriterWork;
    WorkOfTable(s, Apply(s, a), AfterAcquire(s, s.threads[w]));
  }

  lemma AcquiredWork(s: State, pc: Pc)
    requires RoleAt(pc).Announced?
    ensures WriterWork(s, AfterAcquire(s, pc)) < WriterWork(s, pc)
  {
  }

  /** All other steps leave the work as it is; no reader enters. */
  lemma OthersWork(s: State, a: Action, w: Tid)
    requires Enabled(s, a) && !TakenInside(s, a, w) && s.writer == Some(w) && Inv(s)
    ensures var s' := Apply(s, a);
      w in s.threads && w in s'.threads && s.readers <= s.threads.Keys && s'.readers <= s'.threads.Keys &&
      s'.writer == Some(w) && Work(s', w) == Work(s, w)
  {
    hide Inv, Apply, Rank, RoleAt, WriterWork, OthersStill;
    var s' := Apply(s, a);
    WriterInside(s, w);
    ReadersAreThreads(s);
    PlacesHold(s);
    StepStill(s, a);
    TableStays(s, a, w);
    OutsideLock(s, a, w);
    StillHere(s, s', Taker(a), s.readers + {w});
    SumSame(s.threads, s'.threads, s.readers);
    WorkOfTable(s, s', s.threads[w]);
  }

  lemma StillHere(s: State, s': State, taker: Option<Tid>, ts: set<Tid>)
    requires OthersStill(s, s', taker) && ts <= s.threads.Keys && (taker.Some? ==> taker.value !in ts)
    ensures forall t <- ts :: t in s'.threads && s'.threads[t] == s.threads[t]
  {
  }

  lemma PlacesHold(s: State)
    requires Inv(s)
    ensures Places(s.threads, s.nextConn, s.nextEvictor)
  {
  }

  lemma OutsideLock(s: State, a: Action, w: Tid)
    requires Enabled(s, a) && !TakenInside(s, a, w) && s.writer == Some(w) && Inv(s)
    ensures SameLock(s, Apply(s, a))
  {
    hide Inv, Apply;
    if a.Lock? {
      assert LockEnabled(s, a.t, a.lock);
      ThreadFacts(s, a.t);
      assert false;
    } else {
      PlacesHold(s);
      StepStill(s, a);
    }
  }

  lemma StepWorks(s: State, a: Action, w: Tid)
    requires Enabled(s, a) && s.writer == Some(w) && Apply(s, a).writer == Some(w) && Inv(s)
    ensures var s' := Apply(s, a);
      w in s.threads && w in s'.threads && s.readers <= s.threads.Keys && s'.readers <= s'.threads.Keys &&
      Work(s', w) + (if TakenInside(s, a, w) then 1 else 0) <= Work(s, w)
  {
    hide Inv, Enabled, Apply, Work;
    if Taker(a) == Some(w) {
      WriterWorks(s, a, w);
    } else if TakenInside(s, a, w) {
      ReaderWorks(s, a, w, Taker(a).value);
    } else {
      OthersWork(s, a, w);
    }
  }

  // --- runs ---

  /** Before each of these steps, and after them, `w` has the lock or has announced to take it. */
  ghost predicate HoldsOn(s: State, actions: seq<Action>, w: Tid) {
    && Run(s, actions).Some? && Run(s, actions).value.writer == Some(w)
    && (actions != [] ==> HoldsOn(s, actions[..|actions| - 1], w))
  }

  /** How many of the steps are taken by the writer or by a reader inside. */
  ghost function StepsInside(s: State, actions: seq<Action>, w: Tid): nat {
    if actions == [] then 0
    else
      var front, a := actions[..|actions| - 1], actions[|actions| - 1];
      StepsInside(s, front, w) + if Run(s, front).Some? && TakenInside(Run(s, front).value, a, w) then 1 else 0
  }

  lemma WorkDefined(s: State, w: Tid)
    requires s.writer == Some(w) && Inv(s)
    ensures w in s.threads && s.readers <= s.threads.Keys
  {
    hide Inv;
    WriterInside(s, w);
    ReadersAreThreads(s);
  }

  lemma {:induction false} RunWorks(s: State, actions: seq<Action>, w: Tid)
    requires HoldsOn(s, actions, w) && s.writer == Some(w) && Inv(s)
    ensures var s' := Run(s, actions).value;
      w in s.threads && w in s'.threads && s.readers <= s.threads.Keys && s'.readers <= s'.threads.Keys &&
      Work(s', w) + StepsInside(s, actions, w) <= Work(s, w)
  {
    hide Inv, Enabled, Apply, Work;
    WorkDefined(s, w);
    if actions != [] {
      var front, a := actions[..|actions| - 1], actions[|actions| - 1];
      RunWorks(s, front, w);
      RunKeeps(s, front);
      StepWorks(Run(s, front).value, a, w);
    }
  }

  lemma RankBound(pc: Pc, registered: set<ConnId>)
    requires Refers(pc, registered)
    ensures Rank(pc) <= |registered| + 3
    ensures RoleAt(pc) == Reading ==> Rank(pc) <= |registered| + 2
  {
    if pc.SweepScan? {
      Smaller(pc.todo, registered);
    } else if pc.StopClose? {
      Smaller(pc.todo, registered);
    }
  }

  lemma Smaller<T>(a: set<T>, b: set<T>)
    requires a <= b
    ensures |a| <= |b|
  {
    assert b == a + (b - a);
  }

  lemma {:induction false} SumBound(threads: map<Tid, Pc>, ts: set<Tid>, most: nat)
    requires ts <= threads.Keys && forall t <- ts :: Rank(threads[t]) <= most
    ensures SumRanks(threads, ts) <= most * |ts|
    decreases ts
  {
    hide Rank;
    if t :| t in ts {
      SumPull(threads, ts, t);
      SumBound(threads, ts - {t}, most);
      assert |ts - {t}| == |ts| - 1;
      OneLess(most, |ts|);
    }
  }

  lemma OneLess(most: nat, n: nat)
    requires n > 0
    ensures most + most * (n - 1) == most * n
  {
  }

  /** How much work that can be: every reader inside and the writer may have to go through all registered peers. */
  lemma WorkBound(s: State, w: Tid)
    requires s.writer == Some(w) && Inv(s)
    ensures w in s.threads && s.readers <= s.threads.Keys
    ensures Work(s, w) <= (|s.registered| + 2) * |s.readers| + |s.registered| + 4
  {
    hide Inv, Rank, RoleAt;
    WorkDefined(s, w);
    forall r <- s.readers
      ensures Rank(s.threads[r]) <= |s.registered| + 2
    {
      ReaderFacts(s, r);
      ThreadFacts(s, r);
      RankBound(s.threads[r], s.registered);
    }
    SumBound(s.threads, s.readers, |s.registered| + 2);
    ThreadFacts(s, w);
    RankBound(s.threads[w], s.registered);
    EntriesRegistered(s);
    Smaller(s.table.Values, s.registered);
  }

  lemma EntriesRegistered(s: State)
    requires Inv(s)
    ensures s.table.Values <= s.registered
  {
    hide Places, Locks, Keys, References, Onces, Evictions, Done, NoOrphans, OldClosed, Buffering, Routing, Clocks;
  }

  /**
   The lock is released. As long as a thread holds it, or waits for the readers inside, that thread and those
   readers can take only so many steps as they have work left, whatever steps all other threads and the world
   outside take in between; and one of them can always take its next step.
   */
  lemma LockIsReleased(s: State, actions: seq<Action>, w: Tid) returns (a: Action)
    requires Reachable(s) && s.writer == Some(w) && HoldsOn(s, actions, w)
    ensures w in s.threads && s.readers <= s.threads.Keys && StepsInside(s, actions, w) <= Work(s, w)
    ensures Work(s, w) <= (|s.registered| + 2) * |s.readers| + |s.registered| + 4
    ensures var s' := Run(s, actions).value; CanStep(s', a) && TakenInside(s', a, w)
  {
    hide Inv, Enabled, Work, Run;
    ReachableInv(s);
    RunWorks(s, actions, w);
    WorkBound(s, w);
    RunKeeps(s, actions);
    a := LockedSteps(Run(s, actions).value, w);
  }

  // --- the `once` of a peer ---

  function StagesLeft(stage: EvictStage): nat {
    match stage
    case Enter => 7
    case Close => 6
    case Want => 5
    case Wait => 4
    case Delete => 3
    case Release => 2
    case Finish => 1
  }

  /** Thread `u` runs the `once` of `p`. */
  predicate RunsOnce(s: State, u: Tid, p: ConnId) {
    u in s.threads && OnceAt(s.threads[u]) == Some(p)
  }

  function OnceLeft(s: State, u: Tid, p: ConnId): nat
    requires RunsOnce(s, u, p)
  {
    StagesLeft(s.threads[u].stage)
  }

  /** Each step of the thread inside brings it to the next stage, and no other step moves it. */
  lemma StageLeft(s: State, a: Action, u: Tid, p: ConnId)
    requires Enabled(s, a) && RunsOnce(s, u, p) && RunsOnce(Apply(s, a), u, p) && Inv(s)
    ensures OnceLeft(Apply(s, a), u, p) + (if Taker(a) == Some(u) then 1 else 0) <= OnceLeft(s, u, p)
  {
    hide Inv, Apply, Enabled, OthersStill;
    if Taker(a) == Some(u) {
      OwnStage(s, a, u);
    } else {
      PlacesHold(s);
      StepStill(s, a);
      StillHere(s, Apply(s, a), Taker(a), {u});
    }
  }

  /** What a thread inside a `once` can do. */
  lemma OwnSteps(s: State, a: Action, u: Tid)
    requires Enabled(s, a) && Taker(a) == Some(u) && u in s.threads && OnceAt(s.threads[u]).Some?
    ensures (a.Lock? && a.t == u && !a.lock.ReadLock? && !a.lock.ReadUnlock?)
            || (a.Evicts? && a.t == u && !a.once.EnterOnce? && !a.once.SkipOnce?)
  {
    hide Prefix, Buffer, GoodHello, Sent, Fates;
  }

  lemma LockStage(s: State, u: Tid, step: LockStep)
    requires LockEnabled(s, u, step) && OnceAt(s.threads[u]).Some? && !step.ReadLock? && !step.ReadUnlock?
    ensures var pc := LockApply(s, u, step).threads[u];
      OnceAt(pc).Some? ==> StagesLeft(pc.stage) < StagesLeft(s.threads[u].stage)
  {
  }

  lemma OnceStage(s: State, u: Tid, step: OnceStep)
    requires OnceEnabled(s, u, step) && OnceAt(s.threads[u]).Some? && !step.EnterOnce? && !step.SkipOnce?
    ensures var pc := OnceApply(s, u, step).threads[u];
      OnceAt(pc).Some? ==> StagesLeft(pc.stage) < StagesLeft(s.threads[u].stage)
  {
    hide KeyOf, Removed;
  }

  lemma OwnStage(s: State, a: Action, u: Tid)
    requires Enabled(s, a) && Taker(a) == Some(u) && u in s.threads && OnceAt(s.threads[u]).Some?
    ensures u in Apply(s, a).threads
    ensures var pc := Apply(s, a).threads[u];
      OnceAt(pc).Some? ==> StagesLeft(pc.stage) < StagesLeft(s.threads[u].stage)
  {
    hide LockApply, OnceApply, OnceAt, StagesLeft;
    OwnSteps(s, a, u);
    if a.Lock? {
      LockMoves(s, u, a.lock);
      LockStage(s, u, a.lock);
    } else {
      OnceMoves(s, u, a.once);
      OnceStage(s, u, a.once);
    }
  }

  /** Before each of these steps, and after them, `u` runs the `once` of `p`. */
  ghost predicate StaysInside(s: State, actions: seq<Action>, u: Tid, p: ConnId) {
    && Run(s, actions).Some? && RunsOnce(Run(s, actions).value, u, p)
    && (actions != [] ==> StaysInside(s, actions[..|actions| - 1], u, p))
  }

  function StepsOf(actions: seq<Action>, u: Tid): nat {
    if actions == [] then 0
    else
      var n := |actions| - 1;
      StepsOf(actions[..n], u) + if Taker(actions[n]) == Some(u) then 1 else 0
  }

  lemma {:induction false} RunStages(s: State, actions: seq<Action>, u: Tid, p: ConnId)
    requires RunsOnce(s, u, p) && StaysInside(s, actions, u, p) && Inv(s)
    ensures OnceLeft(Run(s, actions).value, u, p) + StepsOf(actions, u) <= OnceLeft(s, u, p)
  {
    hide Inv, Apply, Enabled, OnceLeft, RunsOnce;
    if actions != [] {
      var front := actions[..|actions| - 1];
      RunStages(s, front, u, p);
      RunKeeps(s, front);
      StageLeft(Run(s, front).value, actions[|actions| - 1], u, p);
    }
  }

  /**
   A `once` is left. While a thread runs the `once` of a peer it takes at most five steps, whatever happens in
   between; and the only thing that it ever waits for there is the table lock.
   */
  lemma OnceIsLeft(s: State, actions: seq<Action>, u: Tid, p: ConnId)
    requires Reachable(s) && RunsOnce(s, u, p) && StaysInside(s, actions, u, p)
    ensures StepsOf(actions, u) <= 5
    ensures var s' := Run(s, actions).value;
      Waits(s', u) <==> s'.threads[u].stage.Want? || s'.threads[u].stage.Wait?
  {
    hide Inv, Run;
    ReachableInv(s);
    RunStages(s, actions, u, p);
  }
}
