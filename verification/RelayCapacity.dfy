/** How many peers there can be, given that the check for room comes long before the registration. */
module RelayCapacity {
  import opened Bytes
  import opened Protocol
  import opened RelayMachine
  import opened RelayInvariants
  import opened RelaySteps
  import opened RelayTheorems

  /** The connection of a thread that has passed the `isFull` check and has neither registered nor failed. */
  function PassedAt(t: Tid, pc: Pc): Option<ConnId> {
    match t
    case Acceptor => if (pc.FullTested? || pc.Verdict?) && !pc.full then Some(pc.incoming) else None
    case Handler(c) => if pc.Handshaking? || PhaseAt(pc) == Phase.Joining then Some(c) else None
    case _ => None
  }

  function PassedBy(threads: map<Tid, Pc>, t: Tid): Option<ConnId> {
    if t in threads then PassedAt(t, threads[t]) else None
  }

  /** `admitted` are exactly the connections that are past the check and not yet registered or failed. */
  ghost predicate AllAdmitted(threads: map<Tid, Pc>, admitted: set<ConnId>) {
    forall c: ConnId ::
      c in admitted <==> PassedBy(threads, Acceptor) == Some(c) || PassedBy(threads, Handler(c)) == Some(c)
  }

  lemma MoveAdmitted(threads: map<Tid, Pc>, admitted: set<ConnId>, t: Tid, pc: Pc)
    requires AllAdmitted(threads, admitted) && PassedAt(t, pc) == PassedBy(threads, t)
    ensures AllAdmitted(threads[t := pc], admitted)
  {
    var threads' := threads[t := pc];
    forall c: ConnId
      ensures c in admitted <==> PassedBy(threads', Acceptor) == Some(c) || PassedBy(threads', Handler(c)) == Some(c)
    {
      assert PassedBy(threads', Acceptor) == PassedBy(threads, Acceptor);
      assert PassedBy(threads', Handler(c)) == PassedBy(threads, Handler(c));
    }
  }

  lemma LockAdmitted(s: State, t: Tid, step: LockStep)
    requires LockEnabled(s, t, step) && AllAdmitted(s.threads, s.admitted) && Placed(t, s.threads[t])
    ensures AllAdmitted(LockApply(s, t, step).threads, s.admitted) && LockApply(s, t, step).admitted == s.admitted
  {
    hide AllAdmitted;
    MoveAdmitted(s.threads, s.admitted, t, AfterLock(s, t, step));
  }

  /** The check lets the connection in that the accept loop has in hand. */
  lemma TestAdmitted(threads: map<Tid, Pc>, admitted: set<ConnId>, c: ConnId)
    requires AllAdmitted(threads, admitted) && PassedBy(threads, Acceptor) == None
    ensures AllAdmitted(threads[Acceptor := FullTested(c, false)], admitted + {c})
  {
    var threads' := threads[Acceptor := FullTested(c, false)];
    forall d: ConnId
      ensures d in admitted + {c} <==>
                PassedBy(threads', Acceptor) == Some(d) || PassedBy(threads', Handler(d)) == Some(d)
    {
      assert PassedBy(threads', Handler(d)) == PassedBy(threads, Handler(d));
    }
  }

  /** The connection passes from the accept loop to its handler. */
  lemma SpawnAdmitted(threads: map<Tid, Pc>, admitted: set<ConnId>, c: ConnId)
    requires AllAdmitted(threads, admitted) && PassedBy(threads, Acceptor) == Some(c)
    ensures AllAdmitted(threads[Acceptor := Accepting][Handler(c) := Handshaking], admitted)
  {
    var threads' := threads[Acceptor := Accepting][Handler(c) := Handshaking];
    forall d: ConnId
      ensures d in admitted <==> PassedBy(threads', Acceptor) == Some(d) || PassedBy(threads', Handler(d)) == Some(d)
    {
      assert d != c ==> PassedBy(threads', Handler(d)) == PassedBy(threads, Handler(d));
    }
  }

  lemma AcceptAdmitted(s: State, step: AcceptStep)
    requires AcceptEnabled(s, step) && AllAdmitted(s.threads, s.admitted)
    ensures AllAdmitted(AcceptApply(s, step).threads, AcceptApply(s, step).admitted)
  {
    hide AllAdmitted;
    var pc, s' := s.threads[Acceptor], AcceptApply(s, step);
    if step.Spawn? {
      SpawnAdmitted(s.threads, s.admitted, pc.incoming);
    } else if step.TestFull? && |s.table| < MAX_PEERS {
      TestAdmitted(s.threads, s.admitted, pc.incoming);
    } else {
      MoveAdmitted(s.threads, s.admitted, Acceptor, s'.threads[Acceptor]);
    }
  }

  /** A connection with a handler leaves `admitted`: the accept loop does not have it in hand. */
  lemma LeaveAdmitted(threads: map<Tid, Pc>, admitted: set<ConnId>, c: ConnId, pc: Pc)
    requires AllAdmitted(threads, admitted) && PassedBy(threads, Handler(c)) == Some(c)
    requires PassedAt(Handler(c), pc) == None && Incoming(threads) != Some(c)
    ensures AllAdmitted(threads[Handler(c) := pc], admitted - {c}) && c in admitted
  {
    var threads' := threads[Handler(c) := pc];
    forall d: ConnId
      ensures d in admitted - {c} <==>
                PassedBy(threads', Acceptor) == Some(d) || PassedBy(threads', Handler(d)) == Some(d)
    {
      assert PassedBy(threads', Acceptor) == PassedBy(threads, Acceptor);
      assert d != c ==> PassedBy(threads', Handler(d)) == PassedBy(threads, Handler(d));
    }
  }

  lemma JoinAdmitted(s: State, c: ConnId, step: JoinStep)
    requires JoinEnabled(s, c, step) && AllAdmitted(s.threads, s.admitted)
    requires Places(s.threads, s.nextConn, s.nextEvictor)
    ensures AllAdmitted(JoinApply(s, c, step).threads, JoinApply(s, c, step).admitted)
    ensures step.Store? ==> c in s.admitted
  {
    hide AllAdmitted, Places, Registered, KeyOf, HandshakeOf;
    var s' := JoinApply(s, c, step);
    if step.Store? || step.HandshakeFails? {
      assert Incoming(s.threads) != Some(c) by {
        if Incoming(s.threads) == Some(c) {
          IncomingAbsent(s.threads, s.nextConn, s.nextEvictor, c);
        }
      }
      LeaveAdmitted(s.threads, s.admitted, c, s'.threads[Handler(c)]);
    } else {
      MoveAdmitted(s.threads, s.admitted, Handler(c), s'.threads[Handler(c)]);
    }
  }

  lemma BufferAdmitted(s: State, c: ConnId, step: BufferStep)
    requires BufferEnabled(s, c, step) && AllAdmitted(s.threads, s.admitted)
    ensures AllAdmitted(BufferApply(s, c, step).threads, s.admitted) && BufferApply(s, c, step).admitted == s.admitted
  {
    hide AllAdmitted, BufferApply, BufferEnabled;
    BufferShape(s, c, step);
    MoveAdmitted(s.threads, s.admitted, Handler(c), BufferApply(s, c, step).threads[Handler(c)]);
  }

  lemma SettleAdmitted(s: State, c: ConnId, fate: Fate, p: ConnId)
    requires AllAdmitted(s.threads, s.admitted) && PassedBy(s.threads, Handler(c)) == None
    ensures AllAdmitted(Settle(s, c, fate).threads, s.admitted) && Settle(s, c, fate).admitted == s.admitted
    ensures PassedBy(Settle(s, c, fate).threads, Handler(c)) == None
    ensures var s' := SpawnEvictor(Settle(s, c, fate), p);
      AllAdmitted(s'.threads, s.admitted) && s'.admitted == s.admitted
  {
    hide AllAdmitted, Fates;
    var s1 := Settle(s, c, fate);
    MoveAdmitted(s.threads, s.admitted, Handler(c), Burning);
    MoveAdmitted(s1.threads, s.admitted, Evictor(s1.nextEvictor), Evicting(p, Enter, ThenEnd));
  }

  lemma RouteAdmitted(s: State, c: ConnId, step: RouteStep)
    requires RouteEnabled(s, c, step) && AllAdmitted(s.threads, s.admitted)
    ensures AllAdmitted(RouteApply(s, c, step).threads, s.admitted) && RouteApply(s, c, step).admitted == s.admitted
  {
    hide AllAdmitted, Prefix, Packet, Buffer, DeliveredTo, Settle, SpawnEvictor;
    var pc, s' := s.threads[Handler(c)], RouteApply(s, c, step);
    match step {
      case LookupMiss =>
        SettleAdmitted(s, c, NoRecipient, 0);
        MoveAdmitted(Settle(s, c, NoRecipient).threads, s.admitted, Handler(c), LookupDone(None));
      case WriteOk => SettleAdmitted(s, c, Delivered(pc.recipient), 0);
      case DeadlineFails => SettleAdmitted(s, c, DeadlineFailed(pc.recipient), pc.recipient);
      case WriteFails => SettleAdmitted(s, c, WriteFailed(pc.recipient), pc.recipient);
      case _ => MoveAdmitted(s.threads, s.admitted, Handler(c), s'.threads[Handler(c)]);
    }
  }

  lemma OnceAdmitted(s: State, t: Tid, step: OnceStep)
    requires OnceEnabled(s, t, step) && AllAdmitted(s.threads, s.admitted) && Placed(t, s.threads[t])
    ensures AllAdmitted(OnceApply(s, t, step).threads, s.admitted) && OnceApply(s, t, step).admitted == s.admitted
  {
    hide AllAdmitted, Removed, KeyOf;
    MoveAdmitted(s.threads, s.admitted, t, OnceApply(s, t, step).threads[t]);
  }

  lemma WorldAdmitted(s: State, step: WorldStep)
    requires WorldEnabled(s, step) && AllAdmitted(s.threads, s.admitted)
    ensures AllAdmitted(WorldApply(s, step).threads, s.admitted) && WorldApply(s, step).admitted == s.admitted
  {
  }

  lemma SweepAdmitted(s: State, step: SweepStep)
    requires SweepEnabled(s, step) && AllAdmitted(s.threads, s.admitted)
    ensures AllAdmitted(SweepApply(s, step).threads, s.admitted) && SweepApply(s, step).admitted == s.admitted
  {
    hide AllAdmitted;
    MoveAdmitted(s.threads, s.admitted, Sweeper, SweepApply(s, step).threads[Sweeper]);
  }

  lemma StopAdmitted(s: State, step: StopStep)
    requires StopEnabled(s, step) && AllAdmitted(s.threads, s.admitted)
    ensures AllAdmitted(StopApply(s, step).threads, s.admitted) && StopApply(s, step).admitted == s.admitted
  {
    hide AllAdmitted;
    MoveAdmitted(s.threads, s.admitted, Stopper, StopApply(s, step).threads[Stopper]);
  }

  // --- the bound ---

  /** Registered peers, and connections that may still become registered. */
  function Load(s: State): nat {
    |s.table| + |s.admitted|
  }

  lemma TableSizes(table: map<Key, ConnId>, k: Key, p: ConnId)
    ensures |table[k := p]| <= |table| + 1
    ensures |Removed(table, k, p)| <= |table|
  {
    if k in table {
      assert (table - {k}).Keys == table.Keys - {k};
      assert |table - {k}| == |(table - {k}).Keys|;
      assert |table| == |table.Keys|;
    }
  }

  lemma JoinLoad(s: State, c: ConnId, step: JoinStep)
    requires JoinEnabled(s, c, step) && (step.Store? ==> c in s.admitted)
    ensures Load(JoinApply(s, c, step)) <= Load(s)
  {
    hide KeyOf, HandshakeOf;
    if step.Store? {
      TableSizes(s.table, KeyOf(s, c), c);
      assert |s.admitted - {c}| == |s.admitted| - 1;
    } else if step.HandshakeFails? {
      assert s.admitted == (s.admitted - {c}) + (s.admitted * {c});
    }
  }

  lemma OnceLoad(s: State, t: Tid, step: OnceStep)
    requires OnceEnabled(s, t, step)
    ensures Load(OnceApply(s, t, step)) <= Load(s)
  {
    hide KeyOf, Removed;
    if step.DeleteEntry? {
      TableSizes(s.table, KeyOf(s, s.threads[t].peer), s.threads[t].peer);
    }
  }

  /** Only the check itself lets somebody in, and it looks at the table first. */
  lemma AcceptLoad(s: State, step: AcceptStep, bound: nat)
    requires AcceptEnabled(s, step) && |AcceptApply(s, step).admitted| <= bound
    ensures Load(AcceptApply(s, step)) <= Load(s) || Load(AcceptApply(s, step)) <= MAX_PEERS - 1 + bound
  {
  }

  lemma Unloaded(s: State, s': State)
    requires s'.table == s.table && s'.admitted == s.admitted
    ensures Load(s') == Load(s)
  {
  }

  ghost predicate Bounded(s: State, bound: nat) {
    AllAdmitted(s.threads, s.admitted) && Load(s) <= MAX_PEERS - 1 + bound
  }

  lemma StepLoad(s: State, a: Action, bound: nat)
    requires Enabled(s, a) && |Apply(s, a).admitted| <= bound && Bounded(s, bound)
    requires Inv(s)
    ensures Bounded(Apply(s, a), bound)
  {
    hide Inv, AllAdmitted, Load, Placed, Grows;
    hide WorldApply, LockApply, AcceptApply, JoinApply, BufferApply, RouteApply, OnceApply, SweepApply, StopApply;
    hide WorldEnabled, LockEnabled, AcceptEnabled, JoinEnabled, BufferEnabled, RouteEnabled, OnceEnabled, SweepEnabled,
      StopEnabled;
    var s' := Apply(s, a);
    match a {
      case World(step) =>
        WorldAdmitted(s, step);
        WorldGrows(s, step);
        Unloaded(s, s');
      case Lock(t, step) =>
        LockPlaced(s, t, step);
        LockAdmitted(s, t, step);
        LockGrows(s, t, step);
        Unloaded(s, s');
      case Accepts(step) =>
        AcceptAdmitted(s, step);
        AcceptLoad(s, step, bound);
      case Joins(c, step) =>
        PlacesHold(s);
        JoinAdmitted(s, c, step);
        JoinLoad(s, c, step);
      case Buffers(c, step) =>
        BufferAdmitted(s, c, step);
        BufferGrows(s, c, step);
        Unloaded(s, s');
      case Routes(c, step) =>
        RouteAdmitted(s, c, step);
        RouteGrows(s, c, step);
        Unloaded(s, s');
      case Evicts(t, step) =>
        OncePlaced(s, t, step);
        OnceAdmitted(s, t, step);
        OnceLoad(s, t, step);
      case Sweeps(step) =>
        SweepAdmitted(s, step);
        SweepGrows(s, step);
        Unloaded(s, s');
      case Stops(step) =>
        StopAdmitted(s, step);
        StopGrows(s, step);
        Unloaded(s, s');
    }
  }

  lemma LockPlaced(s: State, t: Tid, step: LockStep)
    requires LockEnabled(s, t, step) && Inv(s)
    ensures t in s.threads && Placed(t, s.threads[t])
  {
  }

  lemma OncePlaced(s: State, t: Tid, step: OnceStep)
    requires OnceEnabled(s, t, step) && Inv(s)
    ensures t in s.threads && Placed(t, s.threads[t])
  {
  }

  lemma PlacesHold(s: State)
    requires Inv(s)
    ensures Places(s.threads, s.nextConn, s.nextEvictor)
  {
  }

  /** In no state of the run are more than `bound` connections past `isFull` but not yet registered or failed. */
  ghost predicate AdmitsAtMost(s: State, actions: seq<Action>, bound: nat) {
    && Run(s, actions).Some? && |Run(s, actions).value.admitted| <= bound
    && (actions != [] ==> AdmitsAtMost(s, actions[..|actions| - 1], bound))
  }

  lemma {:induction false} RunLoad(hash: Key -> Key, actions: seq<Action>, bound: nat)
    requires AdmitsAtMost(Init(hash), actions, bound)
    ensures Bounded(Run(Init(hash), actions).value, bound)
  {
    if actions == [] {
      InitAdmitted(hash);
    } else {
      hide Inv, Enabled, Apply, Bounded, Init;
      var front, a := actions[..|actions| - 1], actions[|actions| - 1];
      RunLoad(hash, front, bound);
      InitInv(hash);
      RunKeeps(Init(hash), front);
      StepLoad(Run(Init(hash), front).value, a, bound);
    }
  }

  /**
   The capacity bound. If at most `bound` connections are ever past the `isFull` check at the same time, then
   registered peers and those still to register are never more than the capacity minus one plus that number.
   */
  lemma CapacityBound(hash: Key -> Key, actions: seq<Action>, s: State, bound: nat)
    requires Run(Init(hash), actions) == Some(s) && AdmitsAtMost(Init(hash), actions, bound)
    ensures |s.table| + |s.admitted| <= 2047 + bound
    ensures forall c: ConnId :: c in s.admitted <==>
              PassedBy(s.threads, Acceptor) == Some(c) || PassedBy(s.threads, Handler(c)) == Some(c)
  {
    hide Run, AdmitsAtMost, Init, PassedBy;
    RunLoad(hash, actions, bound);
  }

  lemma InitAdmitted(hash: Key -> Key)
    ensures AllAdmitted(Init(hash).threads, {}) && Load(Init(hash)) == 0
  {
  }
}
