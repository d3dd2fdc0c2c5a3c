/** What one sweep of stale peers does while registrations, heartbeats and evictions go on around it. */
module RelaySweep {
  import opened Bytes
  import opened Protocol
  import opened RelayMachine
  import opened RelayInvariants
  import opened RelaySteps
  import opened RelayTheorems

  // --- the sweeper's place ---

  /** The time and the snapshot of the sweep that is going on. */
  function SweepAt(pc: Pc): Option<(nat, set<ConnId>)> {
    match pc
    case SweepScan(now, _, _, seen) => Some((now, seen))
    case SweepNext(now, _, seen) => Some((now, seen))
    case Evicting(_, _, ThenSweep(now, _, seen)) => Some((now, seen))
    case _ => None
  }

  /** The peers that are still to be looked at. */
  function Todo(pc: Pc): set<ConnId> {
    if pc.SweepScan? then pc.todo else {}
  }

  /** The marked peers whose eviction is not over, in the order of marking. */
  function Marked(pc: Pc): seq<ConnId> {
    match pc
    case SweepScan(_, _, stale, _) => stale
    case SweepNext(_, stale, _) => stale
    case Evicting(p, _, ThenSweep(_, rest, _)) => [p] + rest
    case _ => []
  }

  function SweeperAt(s: State): Pc {
    if Sweeper in s.threads then s.threads[Sweeper] else Ended
  }

  function SweepOf(s: State): Option<(nat, set<ConnId>)> {
    SweepAt(SweeperAt(s))
  }

  /** The sweep goes on: it has looked at nobody, and at most the first marked peer is evicted now. */
  ghost predicate GoesOn(pc: Pc, pc': Pc, evicted: set<ConnId>) {
    && SweepAt(pc') == SweepAt(pc) && Todo(pc') == Todo(pc)
    && (Marked(pc') == Marked(pc)
        || (Marked(pc) != [] && Marked(pc)[0] in evicted && Marked(pc') == Marked(pc)[1..]))
  }

  // --- steps ---

  lemma ThreadStays(s: State, s': State, t: Tid, pc: Pc)
    requires s'.threads == s.threads[t := pc] && t != Sweeper
    ensures SweeperAt(s') == SweeperAt(s)
  {
  }

  lemma WorldStays(s: State, step: WorldStep)
    requires WorldEnabled(s, step)
    ensures SweeperAt(WorldApply(s, step)) == SweeperAt(s)
  {
  }

  lemma LockStays(s: State, t: Tid, step: LockStep)
    requires LockEnabled(s, t, step) && t != Sweeper
    ensures SweeperAt(LockApply(s, t, step)) == SweeperAt(s)
  {
    ThreadStays(s, LockApply(s, t, step), t, AfterLock(s, t, step));
  }

  lemma AcceptStays(s: State, step: AcceptStep)
    requires AcceptEnabled(s, step)
    ensures SweeperAt(AcceptApply(s, step)) == SweeperAt(s)
  {
  }

  lemma JoinStays(s: State, c: ConnId, step: JoinStep)
    requires JoinEnabled(s, c, step)
    ensures SweeperAt(JoinApply(s, c, step)) == SweeperAt(s)
  {
    hide KeyOf, Registered, HandshakeOf;
    ThreadStays(s, JoinApply(s, c, step), Handler(c), JoinApply(s, c, step).threads[Handler(c)]);
  }

  lemma BufferStays(s: State, c: ConnId, step: BufferStep)
    requires BufferEnabled(s, c, step)
    ensures SweeperAt(BufferApply(s, c, step)) == SweeperAt(s)
  {
    hide BufferApply, BufferEnabled;
    BufferShape(s, c, step);
    ThreadStays(s, BufferApply(s, c, step), Handler(c), BufferApply(s, c, step).threads[Handler(c)]);
  }

  lemma RouteStays(s: State, c: ConnId, step: RouteStep)
    requires RouteEnabled(s, c, step)
    ensures SweeperAt(RouteApply(s, c, step)) == SweeperAt(s)
  {
    hide Prefix, Packet, Buffer, Fates, DeliveredTo;
  }

  lemma OnceStays(s: State, t: Tid, step: OnceStep)
    requires OnceEnabled(s, t, step) && t != Sweeper
    ensures SweeperAt(OnceApply(s, t, step)) == SweeperAt(s)
  {
    hide Removed, KeyOf, AfterEvict;
    ThreadStays(s, OnceApply(s, t, step), t, OnceApply(s, t, step).threads[t]);
  }

  lemma StopStays(s: State, step: StopStep)
    requires StopEnabled(s, step)
    ensures SweeperAt(StopApply(s, step)) == SweeperAt(s)
  {
  }

  lemma StaysGoesOn(s: State, s': State)
    requires SweeperAt(s') == SweeperAt(s)
    ensures GoesOn(SweeperAt(s), SweeperAt(s'), s'.evicted)
  {
  }

  /** The sweeper's own steps with the lock: the end of the scan, and those inside an eviction. */
  lemma LockGoesOn(s: State, step: LockStep)
    requires LockEnabled(s, Sweeper, step) && SweepOf(s).Some?
    ensures GoesOn(SweeperAt(s), SweeperAt(LockApply(s, Sweeper, step)), s.evicted)
  {
  }

  /** Its own steps inside an eviction; the marked peer is done with once it is evicted. */
  lemma OnceGoesOn(s: State, step: OnceStep)
    requires OnceEnabled(s, Sweeper, step) && SweepOf(s).Some?
    ensures GoesOn(SweeperAt(s), SweeperAt(OnceApply(s, Sweeper, step)), OnceApply(s, Sweeper, step).evicted)
  {
    hide Removed, KeyOf;
  }

  lemma PickGoesOn(s: State)
    requires SweepEnabled(s, PickStale)
    ensures GoesOn(SweeperAt(s), SweeperAt(SweepApply(s, PickStale)), s.evicted)
  {
    var pc := s.threads[Sweeper];
    assert [pc.stale[0]] + pc.stale[1..] == pc.stale;
  }

  /** One peer is looked at, and marked if it has been silent for too long. */
  ghost predicate Scans(s: State, s': State, p: ConnId) {
    var pc, pc' := SweeperAt(s), SweeperAt(s');
    && SweepAt(pc).Some? && SweepAt(pc') == SweepAt(pc)
    && p in Todo(pc) && Todo(pc') == Todo(pc) - {p}
    && Marked(pc') == if Stale(SweepAt(pc).value.0, LastAlive(s, p)) then Marked(pc) + [p] else Marked(pc)
  }

  lemma ScanScans(s: State, p: ConnId)
    requires SweepEnabled(s, ScanPeer(p))
    ensures Scans(s, SweepApply(s, ScanPeer(p)), p)
  {
  }

  /** Every step but the last of a sweep either looks at one peer or lets the sweep go on. */
  lemma StepSweeps(s: State, a: Action)
    requires Enabled(s, a) && a != Sweeps(EndSweep) && SweepOf(s).Some?
    ensures if a.Sweeps? && a.sweep.ScanPeer? then Scans(s, Apply(s, a), a.sweep.peer)
            else GoesOn(SweeperAt(s), SweeperAt(Apply(s, a)), Apply(s, a).evicted)
  {
    hide GoesOn, Scans, SweeperAt;
    hide WorldApply, LockApply, AcceptApply, JoinApply, BufferApply, RouteApply, OnceApply, SweepApply, StopApply;
    hide WorldEnabled, LockEnabled, AcceptEnabled, JoinEnabled, BufferEnabled, RouteEnabled, OnceEnabled, StopEnabled;
    match a {
      case World(step) =>
        WorldStays(s, step);
        StaysGoesOn(s, Apply(s, a));
      case Lock(t, step) =>
        if t == Sweeper {
          LockGoesOn(s, step);
          LockSame(s, t, step);
        } else {
          LockStays(s, t, step);
          StaysGoesOn(s, Apply(s, a));
        }
      case Accepts(step) =>
        AcceptStays(s, step);
        StaysGoesOn(s, Apply(s, a));
      case Joins(c, step) =>
        JoinStays(s, c, step);
        StaysGoesOn(s, Apply(s, a));
      case Buffers(c, step) =>
        BufferStays(s, c, step);
        StaysGoesOn(s, Apply(s, a));
      case Routes(c, step) =>
        RouteStays(s, c, step);
        StaysGoesOn(s, Apply(s, a));
      case Evicts(t, step) =>
        if t == Sweeper {
          OnceGoesOn(s, step);
        } else {
          OnceStays(s, t, step);
          StaysGoesOn(s, Apply(s, a));
        }
      case Sweeps(step) => OwnSweeps(s, step);
      case Stops(step) =>
        StopStays(s, step);
        StaysGoesOn(s, Apply(s, a));
    }
  }

  lemma LockSame(s: State, t: Tid, step: LockStep)
    requires LockEnabled(s, t, step)
    ensures LockApply(s, t, step).evicted == s.evicted
  {
    hide AfterReadLock, AfterReadUnlock, AfterAnnounce, AfterAcquire, AfterUnlock;
  }

  lemma OwnSweeps(s: State, step: SweepStep)
    requires SweepEnabled(s, step) && !step.EndSweep? && SweepOf(s).Some?
    ensures if step.ScanPeer? then Scans(s, SweepApply(s, step), step.peer)
            else GoesOn(SweeperAt(s), SweeperAt(SweepApply(s, step)), SweepApply(s, step).evicted)
  {
    hide GoesOn, Scans;
    match step {
      case ScanPeer(p) => ScanScans(s, p);
      case PickStale => PickGoesOn(s);
      case _ => assert false;
    }
  }

  // --- a whole sweep ---

  /** In the course of the run the sweep looked at `p` and found it stale, or found it fresh. */
  ghost predicate Found(s: State, actions: seq<Action>, now: nat, p: ConnId, stale: bool) {
    actions != [] &&
    var front, a := actions[..|actions| - 1], actions[|actions| - 1];
    || Found(s, front, now, p, stale)
    || (a == Sweeps(ScanPeer(p)) && Run(s, front).Some? && (now - LastAlive(Run(s, front).value, p) > 45) == stale)
  }

  /** Whom the sweep has looked at so far, and what became of those it marked. */
  ghost predicate Progress(s: State, actions: seq<Action>, now: nat, seen: set<ConnId>, s': State) {
    var pc := SweeperAt(s');
    && SweepAt(pc) == Some((now, seen))
    && (forall p <- seen :: p in Todo(pc) || Found(s, actions, now, p, true) || Found(s, actions, now, p, false))
    && (forall p <- seen :: p in Todo(pc) ==> !Found(s, actions, now, p, true) && !Found(s, actions, now, p, false))
    && (forall p: ConnId :: Found(s, actions, now, p, true) ==> p in Marked(pc) || p in s'.evicted)
    && (forall p <- Marked(pc) :: Found(s, actions, now, p, true))
    && Todo(pc) <= seen
  }

  lemma ScanProgress(s: State, actions: seq<Action>, now: nat, seen: set<ConnId>, s1: State, q: ConnId, s2: State)
    requires Progress(s, actions, now, seen, s1) && Run(s, actions) == Some(s1)
    requires Scans(s1, s2, q) && s1.evicted <= s2.evicted
    ensures Progress(s, actions + [Sweeps(ScanPeer(q))], now, seen, s2)
  {
    hide Run;
    var on := actions + [Sweeps(ScanPeer(q))];
    assert on[..|actions|] == actions;
    forall p: ConnId, b: bool
      ensures Found(s, on, now, p, b) <==>
                Found(s, actions, now, p, b) || (p == q && (now - LastAlive(s1, p) > 45) == b)
    {
    }
    forall p <- Marked(SweeperAt(s2))
      ensures Found(s, on, now, p, true)
    {
      assert p in Marked(SweeperAt(s1)) || p == q;
    }
    forall p: ConnId | Found(s, on, now, p, true)
      ensures p in Marked(SweeperAt(s2)) || p in s2.evicted
    {
      assert p in Marked(SweeperAt(s1)) ==> p in Marked(SweeperAt(s2));
    }
  }

  lemma OtherProgress(s: State, actions: seq<Action>, now: nat, seen: set<ConnId>, s1: State, a: Action, s2: State)
    requires Progress(s, actions, now, seen, s1) && Run(s, actions) == Some(s1)
    requires !(a.Sweeps? && a.sweep.ScanPeer?) && s1.evicted <= s2.evicted
    requires GoesOn(SweeperAt(s1), SweeperAt(s2), s2.evicted)
    ensures Progress(s, actions + [a], now, seen, s2)
  {
    hide Run;
    var on := actions + [a];
    assert on[..|actions|] == actions;
    forall p: ConnId, b: bool
      ensures Found(s, on, now, p, b) == Found(s, actions, now, p, b)
    {
    }
    var marked, marked' := Marked(SweeperAt(s1)), Marked(SweeperAt(s2));
    forall p <- marked'
      ensures p in marked
    {
    }
    forall p <- marked
      ensures p in marked' || p in s2.evicted
    {
      if marked' != marked {
        assert marked == [marked[0]] + marked';
      }
    }
  }

  lemma {:induction false} SweepProgress(s: State, actions: seq<Action>, now: nat)
    requires Run(s, actions).Some? && Sweeps(EndSweep) !in actions
    requires SweeperAt(s).SweepScan? && SweepOf(s) == Some((now, Todo(SweeperAt(s)))) && Marked(SweeperAt(s)) == []
    ensures Progress(s, actions, now, Todo(SweeperAt(s)), Run(s, actions).value)
  {
    hide Enabled, Apply;
    var seen := Todo(SweeperAt(s));
    if actions != [] {
      hide Progress, SweeperAt, GoesOn, Scans, Grows;
      var front, a := actions[..|actions| - 1], actions[|actions| - 1];
      SweepProgress(s, front, now);
      var s1, s2 := Run(s, front).value, Run(s, actions).value;
      ProgressSweeps(s, front, now, seen, s1);
      StepSweeps(s1, a);
      EvictedGrows(s1, a);
      assert front + [a] == actions;
      if a.Sweeps? && a.sweep.ScanPeer? {
        ScanProgress(s, front, now, seen, s1, a.sweep.peer, s2);
      } else {
        OtherProgress(s, front, now, seen, s1, a, s2);
      }
    }
  }

  lemma ProgressSweeps(s: State, actions: seq<Action>, now: nat, seen: set<ConnId>, s': State)
    requires Progress(s, actions, now, seen, s')
    ensures SweepOf(s').Some?
  {
  }

  lemma EvictedGrows(s: State, a: Action)
    requires Enabled(s, a)
    ensures s.evicted <= Apply(s, a).evicted
  {
    hide Enabled, Apply;
    TableSteps(s, a);
  }

  // --- the result ---

  /** Nobody is registered twice, so a peer that has left the table does not come back. */
  lemma NoComeback(s: State, a: Action, k: Key)
    requires Enabled(s, a) && k in Apply(s, a).table && Apply(s, a).table[k] in s.registered && Inv(s)
    ensures k in s.table && s.table[k] == Apply(s, a).table[k]
  {
    hide Inv, Enabled, Apply;
    TableSteps(s, a);
    if Storing(a).Some? {
      StoredIsNew(s, a.conn);
    }
  }

  lemma StoredIsNew(s: State, c: ConnId)
    requires JoinEnabled(s, c, Store) && Inv(s)
    ensures c !in s.registered
  {
    hide Inv;
    HandlerPhase(s, c);
  }

  lemma {:induction false} WasThere(s: State, actions: seq<Action>, known: set<ConnId>)
    requires Run(s, actions).Some? && known <= s.registered && Inv(s)
    ensures var s' := Run(s, actions).value;
      forall k <- s'.table :: s'.table[k] in known ==> k in s.table && s.table[k] == s'.table[k]
  {
    hide Inv, Enabled, Apply, Grows;
    if actions != [] {
      var front, a := actions[..|actions| - 1], actions[|actions| - 1];
      WasThere(s, front, known);
      var s1, s' := Run(s, front).value, Run(s, actions).value;
      RunKeeps(s, front);
      RunRegistered(s, front);
      forall k <- s'.table | s'.table[k] in known
        ensures k in s.table && s.table[k] == s'.table[k]
      {
        NoComeback(s1, a, k);
      }
    }
  }

  lemma RunRegistered(s: State, actions: seq<Action>)
    requires Run(s, actions).Some?
    ensures s.registered <= Run(s, actions).value.registered
  {
    RunGrows(s, actions);
  }

  lemma EntriesNotEvicted(s: State)
    requires Inv(s)
    ensures forall k <- s.table :: s.table[k] !in s.evicted && s.table[k] in s.registered
  {
    hide Places, Locks, Keys, References, Onces, Evictions, Done, NoOrphans, OldClosed, Buffering, Routing, Clocks;
  }

  /** The sweeper has taken its snapshot of the table: everybody in it is to be looked at. */
  lemma SnapshotTaken(s: State, now: nat)
    requires Is(s, Sweeper, SweepWant(now)) && s.writer == None
    ensures LockEnabled(s, Sweeper, ReadLock)
    ensures var s1 := LockApply(s, Sweeper, ReadLock);
      && SweeperAt(s1) == SweepScan(now, s.table.Values, [], s.table.Values)
      && s1.table == s.table && s1.registered == s.registered
  {
  }

  /**
   Sweep exactness. A sweep that started at time `now` takes its snapshot of the table in state `s`; `actions` is
   everything that happens from then until the sweep has dealt with all the peers it marked, with any
   registrations, heartbeats and evictions of others. It has looked at everybody in the snapshot, and
   whomever it found to be silent for more than 45 seconds is evicted, even if the peer has spoken since. So
   each peer in the table at the end was found fresh when it was looked at, and not stale, or was not yet
   registered at the snapshot.
   */
  lemma SweepExact(s: State, now: nat, actions: seq<Action>, s': State)
    requires Reachable(s) && Is(s, Sweeper, SweepWant(now)) && s.writer == None
    requires Run(LockApply(s, Sweeper, ReadLock), actions) == Some(s') && Sweeps(EndSweep) !in actions
    requires SweepEnabled(s', EndSweep)
    ensures var s1 := LockApply(s, Sweeper, ReadLock);
      && (forall p <- s.table.Values :: Found(s1, actions, now, p, true) || Found(s1, actions, now, p, false))
      && (forall p: ConnId :: Found(s1, actions, now, p, true) ==> p in s'.evicted)
      && (forall k <- s'.table :: s'.table[k] in s.registered ==>
            && k in s.table && s.table[k] == s'.table[k]
            && Found(s1, actions, now, s'.table[k], false) && !Found(s1, actions, now, s'.table[k], true))
  {
    hide Inv, Run, Found, SweeperAt;
    var s1 := LockApply(s, Sweeper, ReadLock);
    SnapshotTaken(s, now);
    ReachableInv(s);
    LockKeeps(s, Sweeper, ReadLock);
    SweepProgress(s1, actions, now);
    WasThere(s1, actions, s.registered);
    RunKeeps(s1, actions);
    EntriesNotEvicted(s');
    assert SweeperAt(s').SweepNext? && SweeperAt(s').stale == [] by {
      AtEnd(s');
    }
    forall k <- s'.table | s'.table[k] in s.registered
      ensures Found(s1, actions, now, s'.table[k], false) && !Found(s1, actions, now, s'.table[k], true)
    {
      assert s'.table[k] in s.table.Values;
    }
  }

  lemma AtEnd(s: State)
    requires SweepEnabled(s, EndSweep)
    ensures SweeperAt(s).SweepNext? && SweeperAt(s).stale == []
  {
  }

  /** Conversely the sweep evicts nobody whom it did not find stale. */
  lemma SweepEvictsMarked(s: State, now: nat, actions: seq<Action>, s': State)
    requires Reachable(s) && Is(s, Sweeper, SweepWant(now)) && s.writer == None
    requires Run(LockApply(s, Sweeper, ReadLock), actions) == Some(s') && Sweeps(EndSweep) !in actions
    requires SweepEnabled(s', PickStale)
    ensures SweepApply(s', PickStale).threads[Sweeper].peer == s'.threads[Sweeper].stale[0]
    ensures Found(LockApply(s, Sweeper, ReadLock), actions, now, s'.threads[Sweeper].stale[0], true)
  {
    hide Run, Found;
    SnapshotTaken(s, now);
    SweepProgress(LockApply(s, Sweeper, ReadLock), actions, now);
    assert SweeperAt(s') == s'.threads[Sweeper];
  }

  /**
   The sweep judges by what it can see: it marks a peer as stale only if nothing has arrived on its
   connection within 45 seconds before the sweep, unless a frame has arrived that is about to be noted.
   */
  lemma StaleMeansSilent(s: State, p: ConnId)
    requires Reachable(s) && SweepEnabled(s, ScanPeer(p))
    requires SweepApply(s, ScanPeer(p)).threads[Sweeper].stale != s.threads[Sweeper].stale
    ensures s.threads[Sweeper].now - Heard(s, p) > 45 || Is(s, Handler(p), Received)
  {
    hide Places, Locks, Keys, References, Table, Onces, Evictions, Done, NoOrphans, OldClosed, Buffering, Routing;
    ReachableInv(s);
    assert Noted(s, p);
  }
}
