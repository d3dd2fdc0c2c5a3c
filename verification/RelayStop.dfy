/** What `Stop` does: no connection is accepted any more, and every registered one is closed. */
module RelayStop {
  import opened Bytes
  import opened Protocol
  import opened RelayMachine
  import opened RelayInvariants
  import opened RelaySteps
  import opened RelayTheorems
  import opened RelayProgress
  import opened RelayRelease

  /**
   How far `Stop` is: `done` is closed first and then the listener; and while the stopper goes through the table,
   each entry that it has not come to yet is still to be closed, and all others are closed.
   */
  ghost predicate StopOk(s: State) {
    Stopper in s.threads &&
    match s.threads[Stopper]
    case StopIdle => !s.stopping && s.listening
    case StopListener => s.stopping && s.listening
    case StopClose(todo) => s.stopping && !s.listening && forall k <- s.table :: s.table[k] in todo + s.closed
    case _ => s.stopping && !s.listening
  }

  lemma StopSteps(s: State, step: StopStep)
    requires StopEnabled(s, step) && StopOk(s)
    ensures StopOk(StopApply(s, step))
  {
  }

  lemma StopperLocks(s: State, step: LockStep)
    requires LockEnabled(s, Stopper, step) && StopOk(s) && Placed(Stopper, s.threads[Stopper])
    ensures StopOk(LockApply(s, Stopper, step))
  {
  }

  // --- the listener ---

  ghost predicate SameGate(s: State, s': State) {
    s'.stopping == s.stopping && s'.listening == s.listening && s'.nextConn == s.nextConn
  }

  /** The keys that were presented and the arrivals that were noted. */
  ghost predicate SameRecord(s: State, s': State) {
    s'.publicKey == s.publicKey && s'.heard == s.heard && s'.hash == s.hash
  }

  /** What was written to whom. */
  ghost predicate SameLogs(s: State, s': State) {
    s'.delivered == s.delivered
  }

  /** Which buffers there are, and where. */
  ghost predicate SamePool(s: State, s': State) {
    s'.pool == s.pool && s'.held == s.held && s'.nextBuffer == s.nextBuffer
  }

  lemma WorldGate(s: State, step: WorldStep)
    requires WorldEnabled(s, step)
    ensures SameGate(s, WorldApply(s, step)) && SameRecord(s, WorldApply(s, step))
    ensures SameLogs(s, WorldApply(s, step))
  {
  }

  lemma LockGate(s: State, t: Tid, step: LockStep)
    requires LockEnabled(s, t, step)
    ensures SameGate(s, LockApply(s, t, step)) && SameRecord(s, LockApply(s, t, step))
    ensures SameLogs(s, LockApply(s, t, step)) && SamePool(s, LockApply(s, t, step))
  {
    hide AfterReadLock, AfterReadUnlock, AfterAnnounce, AfterAcquire, AfterUnlock;
  }

  lemma JoinGate(s: State, c: ConnId, step: JoinStep)
    requires JoinEnabled(s, c, step)
    ensures SameGate(s, JoinApply(s, c, step)) && SameLogs(s, JoinApply(s, c, step))
    ensures SamePool(s, JoinApply(s, c, step))
    ensures !step.HandshakeOk? ==> SameRecord(s, JoinApply(s, c, step))
  {
    hide KeyOf, Registered, HandshakeOf;
  }

  lemma BufferGate(s: State, c: ConnId, step: BufferStep)
    requires BufferEnabled(s, c, step)
    ensures SameGate(s, BufferApply(s, c, step)) && SameLogs(s, BufferApply(s, c, step))
    ensures !step.ReadFrame? ==> SameRecord(s, BufferApply(s, c, step))
  {
    hide Buffer, Fates, Sent;
  }

  lemma RouteGate(s: State, c: ConnId, step: RouteStep)
    requires RouteEnabled(s, c, step)
    ensures SameGate(s, RouteApply(s, c, step)) && SameRecord(s, RouteApply(s, c, step))
    ensures SamePool(s, RouteApply(s, c, step))
  {
    hide Prefix, Packet, Buffer, Fates, DeliveredTo;
  }

  lemma OnceGate(s: State, t: Tid, step: OnceStep)
    requires OnceEnabled(s, t, step)
    ensures SameGate(s, OnceApply(s, t, step)) && SameRecord(s, OnceApply(s, t, step))
    ensures SameLogs(s, OnceApply(s, t, step)) && SamePool(s, OnceApply(s, t, step))
  {
    hide KeyOf, Removed, AfterEvict;
  }

  lemma SweepGate(s: State, step: SweepStep)
    requires SweepEnabled(s, step)
    ensures SameGate(s, SweepApply(s, step)) && SameRecord(s, SweepApply(s, step))
    ensures SameLogs(s, SweepApply(s, step)) && SamePool(s, SweepApply(s, step))
  {
  }

  /** Only an accept makes a connection, and it needs the listener; only `Stop` closes `done` and the listener. */
  ghost predicate Gated(s: State, s': State, stops: bool) {
    && (!stops ==> s'.stopping == s.stopping && s'.listening == s.listening)
    && s.nextConn <= s'.nextConn && (s.stopping ==> s'.stopping)
    && (!s.listening ==> s'.nextConn == s.nextConn && !s'.listening)
  }

  lemma AcceptGate(s: State, step: AcceptStep)
    requires AcceptEnabled(s, step)
    ensures Gated(s, AcceptApply(s, step), false) && SameRecord(s, AcceptApply(s, step))
    ensures SameLogs(s, AcceptApply(s, step)) && SamePool(s, AcceptApply(s, step))
  {
  }

  lemma StopGate(s: State, step: StopStep)
    requires StopEnabled(s, step)
    ensures Gated(s, StopApply(s, step), true) && SameRecord(s, StopApply(s, step))
    ensures SameLogs(s, StopApply(s, step)) && SamePool(s, StopApply(s, step))
  {
  }

  lemma OtherGate(s: State, s': State)
    requires SameGate(s, s')
    ensures Gated(s, s', false)
  {
  }

  lemma Gate(s: State, a: Action)
    requires Enabled(s, a)
    ensures Gated(s, Apply(s, a), a.Stops?)
  {
    hide WorldApply, LockApply, AcceptApply, JoinApply, BufferApply, RouteApply, OnceApply, SweepApply, StopApply;
    hide Gated, SameGate, SameRecord, SameLogs, SamePool;
    match a {
      case World(step) => WorldGate(s, step);
      case Lock(t, step) => LockGate(s, t, step);
      case Accepts(step) => AcceptGate(s, step);
      case Joins(c, step) => JoinGate(s, c, step);
      case Buffers(c, step) => BufferGate(s, c, step);
      case Routes(c, step) => RouteGate(s, c, step);
      case Evicts(t, step) => OnceGate(s, t, step);
      case Sweeps(step) => SweepGate(s, step);
      case Stops(step) => StopGate(s, step);
    }
    if !a.Accepts? && !a.Stops? {
      OtherGate(s, Apply(s, a));
    }
  }

  lemma OthersStop(s: State, a: Action)
    requires Enabled(s, a) && Taker(a) != Some(Stopper) && StopOk(s) && Inv(s)
    ensures StopOk(Apply(s, a))
  {
    hide Inv, Enabled, Apply;
    var s' := Apply(s, a);
    PlacesHold(s);
    StepStill(s, a);
    Gate(s, a);
    TableSteps(s, a);
    if s.threads[Stopper].StopClose? {
      ThreadFacts(s, Stopper);
      TableStays(s, a, Stopper);
    }
  }

  lemma StepStops(s: State, a: Action)
    requires Enabled(s, a) && StopOk(s) && Inv(s)
    ensures StopOk(Apply(s, a))
  {
    hide Inv, StopOk, StopApply, LockApply, Placed;
    if Taker(a) != Some(Stopper) {
      OthersStop(s, a);
    } else if a.Stops? {
      StopSteps(s, a.stop);
    } else {
      StopperTakes(s, a);
      ThreadFacts(s, Stopper);
      StopperLocks(s, a.lock);
    }
  }

  /** Besides its own steps the stopper only uses the lock. */
  lemma StopperTakes(s: State, a: Action)
    requires Enabled(s, a) && Taker(a) == Some(Stopper) && !a.Stops? && Inv(s)
    ensures a.Lock? && a.t == Stopper && Stopper in s.threads
  {
    hide Inv;
    if a.Evicts? {
      ThreadFacts(s, Stopper);
      assert false;
    }
  }

  lemma {:induction false} RunStops(hash: Key -> Key, actions: seq<Action>)
    requires Run(Init(hash), actions).Some?
    ensures StopOk(Run(Init(hash), actions).value)
  {
    if actions != [] {
      hide Inv, Enabled, Apply, StopOk, Init;
      var front, a := actions[..|actions| - 1], actions[|actions| - 1];
      RunStops(hash, front);
      InitInv(hash);
      RunKeeps(Init(hash), front);
      StepStops(Run(Init(hash), front).value, a);
    }
  }

  lemma ReachableStops(s: State)
    requires Reachable(s)
    ensures StopOk(s)
  {
    hide StopOk, Init, Run;
    var hash: Key -> Key, actions: seq<Action> :| Run(Init(hash), actions) == Some(s);
    RunStops(hash, actions);
  }

  /** While `Stop` goes through the table, every entry that it is not going to close any more is closed. */
  lemma StopInProgress(s: State, todo: set<ConnId>)
    requires Reachable(s) && Is(s, Stopper, StopClose(todo))
    ensures forall k <- s.table :: s.table[k] in todo || s.table[k] in s.closed
  {
    ReachableStops(s);
  }

  /** The stopper ends with this step, by giving the lock back; whoever is in the table then is closed. */
  ghost predicate StopEnds(s: State, a: Action) {
    a == Lock(Stopper, Unlock) && Enabled(s, a) && forall k <- s.table :: s.table[k] in s.closed
  }

  lemma {:induction false} RunEndsStop(hash: Key -> Key, actions: seq<Action>, s: State) returns (n: nat)
    requires Run(Init(hash), actions) == Some(s) && Is(s, Stopper, Ended)
    ensures n < |actions| && Run(Init(hash), actions[..n]).Some?
    ensures StopEnds(Run(Init(hash), actions[..n]).value, actions[n])
  {
    hide Inv, StopEnds, Enabled, Apply;
    assert actions != [];
    n := |actions| - 1;
    var front := actions[..n];
    var s1 := Run(Init(hash), front).value;
    hide Init;
    InitInv(hash);
    RunKeeps(Init(hash), front);
    RunStops(hash, front);
    if Is(s1, Stopper, Ended) {
      n := RunEndsStop(hash, front, s1);
      assert front[..n] == actions[..n];
    } else {
      LastStopStep(s1, actions[n]);
    }
  }

  lemma StopNotEnded(s: State, step: StopStep)
    requires StopEnabled(s, step)
    ensures !Is(StopApply(s, step), Stopper, Ended)
  {
  }

  lemma StopperUnlocks(s: State, step: LockStep)
    requires LockEnabled(s, Stopper, step) && StopOk(s) && Placed(Stopper, s.threads[Stopper])
    requires Is(LockApply(s, Stopper, step), Stopper, Ended)
    ensures step == Unlock && forall k <- s.table :: s.table[k] in s.closed
  {
  }

  lemma LastStopStep(s: State, a: Action)
    requires Enabled(s, a) && !Is(s, Stopper, Ended) && Is(Apply(s, a), Stopper, Ended) && StopOk(s) && Inv(s)
    ensures StopEnds(s, a)
  {
    hide Inv, StopApply, LockApply, Placed, LockEnabled, StopEnabled;
    if Taker(a) != Some(Stopper) {
      assert Stopper in s.threads;
      hide StopOk, Enabled, Apply;
      PlacesHold(s);
      StepStill(s, a);
    } else if a.Stops? {
      StopNotEnded(s, a.stop);
    } else {
      StopperTakes(s, a);
      ThreadFacts(s, Stopper);
      StopperUnlocks(s, a.lock);
    }
  }

  /**
   When `Stop` has gone through the table, it has closed everybody in it: on every run there is a step at which the
   stopper released the lock, and all connections registered at that moment are closed, then and ever after.
   */
  lemma StopCloses(hash: Key -> Key, actions: seq<Action>, s: State) returns (n: nat, before: State)
    requires Run(Init(hash), actions) == Some(s) && Is(s, Stopper, Ended)
    ensures n < |actions| && Run(Init(hash), actions[..n]) == Some(before) && actions[n] == Lock(Stopper, Unlock)
    ensures forall k <- before.table :: before.table[k] in before.closed && before.table[k] in s.closed
  {
    hide Run, Init, Enabled;
    n := RunEndsStop(hash, actions, s);
    before := Run(Init(hash), actions[..n]).value;
    ClosedStays(Init(hash), actions, n);
  }

  /** What is closed stays closed. */
  lemma {:induction false} ClosedStays(s: State, actions: seq<Action>, n: nat)
    requires n <= |actions| && Run(s, actions).Some?
    ensures Run(s, actions[..n]).Some?
    ensures Run(s, actions[..n]).value.closed <= Run(s, actions).value.closed
    ensures Run(s, actions[..n]).value.nextConn <= Run(s, actions).value.nextConn
    decreases |actions|
  {
    hide Enabled, Apply;
    if n == |actions| {
      assert actions[..n] == actions;
    } else {
      var front := actions[..|actions| - 1];
      ClosedStays(s, front, n);
      assert front[..n] == actions[..n];
      TableSteps(Run(s, front).value, actions[|actions| - 1]);
      Gate(Run(s, front).value, actions[|actions| - 1]);
    }
  }

  /** Once the listener is closed no connection is accepted, whatever happens. */
  lemma {:induction false} NoMoreConnections(s: State, actions: seq<Action>)
    requires !s.listening && Run(s, actions).Some?
    ensures var s' := Run(s, actions).value; !s'.listening && s'.nextConn == s.nextConn
  {
    hide Enabled, Apply;
    if actions != [] {
      NoMoreConnections(s, actions[..|actions| - 1]);
      Gate(Run(s, actions[..|actions| - 1]).value, actions[|actions| - 1]);
    }
  }

  /** From the moment at which the stopper takes the lock, the listener is closed. */
  lemma StoppedListening(s: State)
    requires Reachable(s) && Stopper in s.threads && !s.threads[Stopper].StopIdle? && !s.threads[Stopper].StopListener?
    ensures s.stopping && !s.listening
  {
    ReachableStops(s);
  }

  // --- the loops that `Stop` ends ---

  /** The accept loop and the sweep loop end only after `Stop` has been called. */
  ghost predicate EndsOk(s: State) {
    && Acceptor in s.threads && Sweeper in s.threads
    && (s.threads[Acceptor].Ended? || s.threads[Sweeper].Ended? ==> s.stopping)
  }

  lemma AcceptEnds(s: State, step: AcceptStep)
    requires AcceptEnabled(s, step) && EndsOk(s)
    ensures EndsOk(AcceptApply(s, step))
  {
  }

  lemma SweepEnds(s: State, step: SweepStep)
    requires SweepEnabled(s, step) && EndsOk(s)
    ensures EndsOk(SweepApply(s, step))
  {
  }

  lemma OnceEnds(s: State, t: Tid, step: OnceStep)
    requires OnceEnabled(s, t, step) && EndsOk(s) && Placed(t, s.threads[t])
    ensures EndsOk(OnceApply(s, t, step))
  {
    hide KeyOf, Removed;
  }

  lemma LockEnds(s: State, t: Tid, step: LockStep)
    requires LockEnabled(s, t, step) && EndsOk(s) && Placed(t, s.threads[t])
    ensures EndsOk(LockApply(s, t, step))
  {
  }

  lemma OthersEnd(s: State, a: Action)
    requires Enabled(s, a) && Taker(a) !in {Some(Acceptor), Some(Sweeper)} && EndsOk(s) && Inv(s)
    ensures EndsOk(Apply(s, a))
  {
    hide Inv, Enabled, Apply, StopApply;
    PlacesHold(s);
    StepStill(s, a);
    Gate(s, a);
  }

  lemma StepEnds(s: State, a: Action)
    requires Enabled(s, a) && EndsOk(s) && Inv(s)
    ensures EndsOk(Apply(s, a))
  {
    hide Inv, EndsOk, AcceptApply, SweepApply, OnceApply, LockApply, Placed;
    if Taker(a) !in {Some(Acceptor), Some(Sweeper)} {
      OthersEnd(s, a);
    } else {
      match a {
        case Accepts(step) => AcceptEnds(s, step);
        case Sweeps(step) => SweepEnds(s, step);
        case Evicts(t, step) =>
          ThreadFacts(s, t);
          OnceEnds(s, t, step);
        case Lock(t, step) =>
          ThreadFacts(s, t);
          LockEnds(s, t, step);
      }
    }
  }

  lemma {:induction false} RunEnds(hash: Key -> Key, actions: seq<Action>)
    requires Run(Init(hash), actions).Some?
    ensures EndsOk(Run(Init(hash), actions).value)
  {
    if actions != [] {
      hide Inv, Enabled, Apply, EndsOk, Init;
      var front, a := actions[..|actions| - 1], actions[|actions| - 1];
      RunEnds(hash, front);
      InitInv(hash);
      RunKeeps(Init(hash), front);
      StepEnds(Run(Init(hash), front).value, a);
    }
  }

  /** Neither the accept loop nor the sweep loop ends before `Stop` is called. */
  lemma OnlyStopEnds(s: State)
    requires Reachable(s) && (Is(s, Acceptor, Ended) || Is(s, Sweeper, Ended))
    ensures s.stopping
  {
    hide Run, Init;
    var hash: Key -> Key, actions: seq<Action> :| Run(Init(hash), actions) == Some(s);
    RunEnds(hash, actions);
  }
}
