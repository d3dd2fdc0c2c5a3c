/** What the relay guarantees in every reachable state and over every run. */
module RelayTheorems {
  import opened Bytes
  import opened Protocol
  import opened RelayMachine
  import opened RelayInvariants
  import opened RelaySteps

  /** Some run of the relay from its start, with any digest function, leads here. */
  ghost predicate Reachable(s: State) {
    exists hash: Key -> Key, actions: seq<Action> :: Run(Init(hash), actions) == Some(s)
  }

  lemma ReachableInv(s: State)
    requires Reachable(s)
    ensures Inv(s)
  {
    hide Inv, Init;
    var hash: Key -> Key, actions: seq<Action> :| Run(Init(hash), actions) == Some(s);
    InitInv(hash);
    RunKeeps(Init(hash), actions);
  }

  // --- connections ---

  /** A connection that has neither been registered nor turned away. */
  predicate BeforeRegistration(s: State, c: ConnId) {
    || Incoming(s.threads) == Some(c)
    || (Handler(c) in s.threads && PhaseAt(s.threads[Handler(c)]) in {Unknown, Phase.Joining})
  }

  /**
   In every interleaving every accepted connection is still before its registration, or is the table entry
   under its own key hash, or has been closed.
   */
  lemma NoOrphanConnection(s: State, c: ConnId)
    requires Reachable(s) && c < s.nextConn
    ensures BeforeRegistration(s, c) || InTable(s.table, s.hash, s.publicKey, c) || c in s.closed
  {
    hide Places, Locks, References, Table, Onces, Evictions, Done, OldClosed, Buffering, Routing, Clocks;
    ReachableInv(s);
    assert Accounted(s, c);
    assert c in s.joining <==> Waiting(s.threads, c);
  }

  /** The connection of a handler that has ended is closed and has no table entry. */
  lemma FinishedHandler(s: State, c: ConnId)
    requires Reachable(s) && Handler(c) in s.threads && s.threads[Handler(c)].Ended?
    ensures c in s.closed && forall k <- s.table :: s.table[k] != c
  {
    hide Locks, References, Onces, Evictions, OldClosed, Buffering, Routing, Clocks;
    ReachableInv(s);
    HandlerPhase(s, c);
    assert Accounted(s, c);
    assert c in s.publicKey ==> PhaseOf(s.threads, c) == Gone;
  }

  /** Every table entry is a peer with a live handler, registered under the hash of the key it presented. */
  lemma EntriesAreLive(s: State, k: Key)
    requires Reachable(s) && k in s.table
    ensures var p := s.table[k];
      && InTable(s.table, s.hash, s.publicKey, p) && KeyOf(s, p) == k
      && Handler(p) in s.threads && PhaseAt(s.threads[Handler(p)]).Live?
  {
    hide Places, Locks, References, Onces, Evictions, NoOrphans, OldClosed, Buffering, Routing, Clocks;
    ReachableInv(s);
    var p := s.table[k];
    assert Under(s.table, s.hash, s.publicKey, k);
    assert KeyState(PhaseOf(s.threads, p), p in s.publicKey, p in s.registered);
  }

  /** So a peer has one entry at most, and once all handlers have ended the table is empty. */
  lemma EmptyWhenAllEnded(s: State)
    requires Reachable(s)
    requires forall c: ConnId :: Handler(c) in s.threads ==> s.threads[Handler(c)].Ended?
    ensures s.table == map[]
  {
    forall k <- s.table
      ensures false
    {
      EntriesAreLive(s, k);
    }
  }

  lemma OneEntryEach(s: State, k: Key, k': Key)
    requires Reachable(s) && k in s.table && k' in s.table && s.table[k] == s.table[k']
    ensures k == k'
  {
    EntriesAreLive(s, k);
    EntriesAreLive(s, k');
  }

  // --- what a step can do to the table ---

  /** What only ever grows. */
  ghost predicate Grows(s: State, s': State) {
    && s'.hash == s.hash && s.clock <= s'.clock
    && s.closed <= s'.closed && s.evicted <= s'.evicted && s.registered <= s'.registered
    && forall r: ConnId :: DeliveredTo(s, r) <= DeliveredTo(s', r)
  }

  lemma WorldGrows(s: State, step: WorldStep)
    requires WorldEnabled(s, step)
    ensures Grows(s, WorldApply(s, step)) && WorldApply(s, step).table == s.table
  {
  }

  lemma LockGrows(s: State, t: Tid, step: LockStep)
    requires LockEnabled(s, t, step)
    ensures Grows(s, LockApply(s, t, step)) && LockApply(s, t, step).table == s.table
  {
    hide AfterReadLock, AfterReadUnlock, AfterAnnounce, AfterAcquire, AfterUnlock;
  }

  lemma AcceptGrows(s: State, step: AcceptStep)
    requires AcceptEnabled(s, step)
    ensures Grows(s, AcceptApply(s, step)) && AcceptApply(s, step).table == s.table
  {
  }

  lemma JoinGrows(s: State, c: ConnId, step: JoinStep)
    requires JoinEnabled(s, c, step)
    ensures Grows(s, JoinApply(s, c, step))
    ensures JoinApply(s, c, step).table == if step.Store? then s.table[KeyOf(s, c) := c] else s.table
  {
  }

  lemma BufferGrows(s: State, c: ConnId, step: BufferStep)
    requires BufferEnabled(s, c, step)
    ensures Grows(s, BufferApply(s, c, step)) && BufferApply(s, c, step).table == s.table
  {
  }

  lemma SettleGrows(s: State, c: ConnId, fate: Fate)
    ensures var s' := Settle(s, c, fate); Grows(s, s') && s'.table == s.table
  {
    hide Fates;
  }

  lemma RouteGrows(s: State, c: ConnId, step: RouteStep)
    requires RouteEnabled(s, c, step)
    ensures Grows(s, RouteApply(s, c, step)) && RouteApply(s, c, step).table == s.table
  {
    hide Settle, Prefix, Packet, Buffer, Fates;
    match step {
      case LookupMiss => SettleGrows(s, c, NoRecipient);
      case WriteOk => SettleGrows(s, c, Delivered(s.threads[Handler(c)].recipient));
      case DeadlineFails => SettleGrows(s, c, DeadlineFailed(s.threads[Handler(c)].recipient));
      case WriteFails => SettleGrows(s, c, WriteFailed(s.threads[Handler(c)].recipient));
      case _ =>
    }
  }

  lemma OnceGrows(s: State, t: Tid, step: OnceStep)
    requires OnceEnabled(s, t, step)
    ensures Grows(s, OnceApply(s, t, step))
    ensures OnceApply(s, t, step).table ==
              if step.DeleteEntry? then Removed(s.table, KeyOf(s, s.threads[t].peer), s.threads[t].peer) else s.table
  {
    hide Removed, KeyOf, AfterEvict;
  }

  lemma SweepGrows(s: State, step: SweepStep)
    requires SweepEnabled(s, step)
    ensures Grows(s, SweepApply(s, step)) && SweepApply(s, step).table == s.table
  {
  }

  lemma StopGrows(s: State, step: StopStep)
    requires StopEnabled(s, step)
    ensures Grows(s, StopApply(s, step)) && StopApply(s, step).table == s.table
  {
  }

  /** The peer whose table entry a step may delete. */
  function Deleting(s: State, a: Action): Option<ConnId> {
    if a.Evicts? && a.once.DeleteEntry? && OnceEnabled(s, a.t, DeleteEntry) then Some(s.threads[a.t].peer) else None
  }

  /** The peer that a step stores in the table. */
  function Storing(a: Action): Option<ConnId> {
    if a.Joins? && a.join.Store? then Some(a.conn) else None
  }

  /** Of all steps only the delete of an eviction and the store of a registration change the table. */
  lemma TableSteps(s: State, a: Action)
    requires Enabled(s, a)
    ensures Grows(s, Apply(s, a))
    ensures Deleting(s, a).None? && Storing(a).None? ==> Apply(s, a).table == s.table
    ensures var p := Deleting(s, a);
      p.Some? ==> p.value in s.publicKey && Apply(s, a).table == Removed(s.table, KeyOf(s, p.value), p.value)
    ensures var c := Storing(a);
      c.Some? ==> JoinEnabled(s, c.value, Store) && Apply(s, a).table == s.table[KeyOf(s, c.value) := c.value]
  {
    hide WorldApply, LockApply, AcceptApply, JoinApply, BufferApply, RouteApply, OnceApply, SweepApply, StopApply;
    hide Grows, Removed;
    match a {
      case World(step) => WorldGrows(s, step);
      case Lock(t, step) => LockGrows(s, t, step);
      case Accepts(step) => AcceptGrows(s, step);
      case Joins(c, step) => JoinGrows(s, c, step);
      case Buffers(c, step) => BufferGrows(s, c, step);
      case Routes(c, step) => RouteGrows(s, c, step);
      case Evicts(t, step) => OnceGrows(s, t, step);
      case Sweeps(step) => SweepGrows(s, step);
      case Stops(step) => StopGrows(s, step);
    }
  }

  /** This step takes the entry of `k` out of the table, or puts a newer connection with the same key there. */
  ghost predicate Leaves(s: State, a: Action, k: Key) {
    && k in s.table && s.table[k] in s.closed
    && (Deleting(s, a) == Some(s.table[k])
        || (Storing(a).Some? && JoinEnabled(s, a.conn, Store) && KeyOf(s, a.conn) == k && a.conn != s.table[k]))
  }

  lemma StepLeaves(s: State, a: Action, k: Key)
    requires Enabled(s, a) && k in s.table && Inv(s)
    requires k !in Apply(s, a).table || Apply(s, a).table[k] != s.table[k]
    ensures Leaves(s, a, k)
  {
    hide Inv, Apply, Enabled;
    OldClosedHolds(s);
    TableSteps(s, a);
    if Deleting(s, a).Some? {
      EvictingFacts(s, a.t);
    } else {
      StoredOverClosed(s, a.conn);
    }
  }

  predicate Keeps(s: State, s': State, k: Key) {
    k in s.table && k in s'.table && s'.table[k] == s.table[k]
  }

  lemma {:induction false} RunLeaves(s: State, actions: seq<Action>, s': State, k: Key) returns (n: nat)
    requires Run(s, actions) == Some(s') && k in s.table && !Keeps(s, s', k) && Inv(s)
    ensures n < |actions| && Run(s, actions[..n]).Some? && Keeps(s, Run(s, actions[..n]).value, k)
    ensures Leaves(Run(s, actions[..n]).value, actions[n], k)
  {
    hide Inv, Apply, Enabled, Leaves;
    n := |actions| - 1;
    var front := actions[..n];
    var s1 := Run(s, front).value;
    if Keeps(s, s1, k) {
      RunKeeps(s, front);
      StepLeaves(s1, actions[n], k);
    } else {
      n := RunLeaves(s, front, s1, k);
      assert front[..n] == actions[..n];
    }
  }

  /**
   An entry leaves the table in two ways only: its own eviction deletes it, or a newer connection with the
   same key takes its place. At that step the connection of the entry is closed already. So evicting a
   superseded peer never removes its replacement, however the goroutines race.
   */
  lemma EntryLeaves(s: State, actions: seq<Action>, s': State, k: Key) returns (n: nat)
    requires Reachable(s) && Run(s, actions) == Some(s') && k in s.table
    requires k !in s'.table || s'.table[k] != s.table[k]
    ensures n < |actions| && Run(s, actions[..n]).Some? && Keeps(s, Run(s, actions[..n]).value, k)
    ensures Leaves(Run(s, actions[..n]).value, actions[n], k)
  {
    hide Inv, Run, Leaves;
    ReachableInv(s);
    n := RunLeaves(s, actions, s', k);
  }

  lemma OldClosedHolds(s: State)
    requires Inv(s)
    ensures OldClosed(s)
  {
  }

  lemma StoredOverClosed(s: State, c: ConnId)
    requires JoinEnabled(s, c, Store) && OldClosed(s)
    ensures KeyOf(s, c) in s.table ==> s.table[KeyOf(s, c)] in s.closed
  {
    assert Superseding(s.threads, c);
  }

  lemma {:induction false} RunGrows(s: State, actions: seq<Action>)
    requires Run(s, actions).Some?
    ensures Grows(s, Run(s, actions).value)
  {
    hide Enabled, Apply, DeliveredTo;
    if actions != [] {
      RunGrows(s, actions[..|actions| - 1]);
      TableSteps(Run(s, actions[..|actions| - 1]).value, actions[|actions| - 1]);
    }
  }

  /** A peer whose eviction has completed is closed and never in the table again, whatever happens next. */
  lemma EvictedNeverReturns(s: State, p: ConnId, actions: seq<Action>, s': State)
    requires Reachable(s) && p in s.evicted && Run(s, actions) == Some(s')
    ensures p in s'.evicted && p in s'.closed && forall k <- s'.table :: s'.table[k] != p
  {
    hide Run, Places, Locks, Keys, References, Onces, Evictions, NoOrphans, OldClosed, Buffering, Routing, Clocks;
    ReachableInv(s);
    RunGrows(s, actions);
    RunKeeps(s, actions);
  }
}
