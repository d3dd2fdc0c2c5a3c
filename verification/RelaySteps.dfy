/** Every step of the relay keeps its invariant. */
module RelaySteps {
  import opened Bytes
  import opened Protocol
  import opened RelayMachine
  import opened RelayInvariants

  // --- steps that only move one thread ---

  function TargetAt(pc: Pc): Option<ConnId> {
    match pc
    case LookupDone(found) => found
    case Deadline(r) => Some(r)
    case Writing(r) => Some(r)
    case _ => None
  }

  /** The parts of the invariant other than `Locks` see no difference between the two places. */
  ghost predicate SameView(s: State, t: Tid, pc: Pc) {
    && t in s.threads && Placed(t, pc)
    && (t.Handler? ==>
          && PhaseAt(pc) == PhaseAt(s.threads[t]) && HoldAt(pc) == HoldAt(s.threads[t])
          && TargetAt(pc) in {None, TargetAt(s.threads[t])}
          && !pc.RegStore? && !s.threads[t].Received?)
    && (t == Acceptor ==> IncomingAt(pc) == IncomingAt(s.threads[t]))
    && Refers(pc, s.registered)
    && OnceAt(pc) == OnceAt(s.threads[t])
    && EvictOk(pc, s.closed, s.table)
  }

  lemma MoveHolds(s: State, s': State, t: Tid, pc: Pc)
    requires s'.threads == s.threads[t := pc] && Buffering(s)
    requires s'.held == s.held && s'.buffers == s.buffers && s'.pool == s.pool && s'.nextBuffer == s.nextBuffer
    requires s'.sent == s.sent && s'.fates == s.fates
    requires t.Handler? ==> HoldAt(pc) == HoldOf(s.threads, t.conn)
    ensures Buffering(s')
  {
    forall c: ConnId
      ensures Holds(s', c, HoldOf(s'.threads, c))
    {
      assert Holds(s, c, HoldOf(s.threads, c));
    }
  }

  /** Registered peers stay registered under the keys they have. */
  ghost predicate KeysKept(s: State, s': State) {
    && s'.hash == s.hash
    && s.registered <= s'.registered
    && forall r <- s.registered :: r in s.publicKey ==> r in s'.publicKey && s'.publicKey[r] == s.publicKey[r]
  }

  lemma KeepFates(s: State, s': State, c: ConnId)
    requires FatesOk(s, c) && KeysKept(s, s')
    requires Fates(s', c) == Fates(s, c) && |Fates(s, c)| <= |Sent(s, c)| && Sent(s, c) <= Sent(s', c)
    ensures FatesOk(s', c)
  {
    forall i | 0 <= i < |Fates(s', c)|
      ensures FateOk(s', Sent(s', c)[i], Fates(s', c)[i])
    {
      assert FateOk(s, Sent(s, c)[i], Fates(s, c)[i]);
    }
  }

  lemma MoveRouting(s: State, s': State, t: Tid, pc: Pc)
    requires s'.threads == s.threads[t := pc] && Routing(s)
    requires s'.sent == s.sent && s'.fates == s.fates && s'.delivered == s.delivered
    requires s'.registered == s.registered && s'.publicKey == s.publicKey && s'.hash == s.hash
    requires t.Handler? ==> TargetAt(pc) in {None, if t in s.threads then TargetAt(s.threads[t]) else None}
    ensures Routing(s')
  {
    hide Prefix, From, Routed;
    forall c: ConnId, r: ConnId
      ensures Matches(s', c, r)
    {
      assert Matches(s, c, r);
    }
    forall c: ConnId
      ensures TargetOk(s', c) && FatesOk(s', c)
    {
      assert TargetOk(s, c) && FatesOk(s, c) && Matches(s, c, c);
      KeepFates(s, s', c);
    }
  }

  lemma MoveClocks(s: State, s': State, t: Tid, pc: Pc)
    requires s'.threads == s.threads[t := pc] && Clocks(s)
    requires s'.lastAlive == s.lastAlive && s'.heard == s.heard && s'.clock == s.clock
    requires t.Handler? && t in s.threads ==> !s.threads[t].Received?
    ensures Clocks(s')
  {
    forall c: ConnId
      ensures Noted(s', c)
    {
      assert Noted(s, c);
    }
  }

  lemma Moved(s: State, s': State, t: Tid, pc: Pc)
    requires Inv(s) && SameView(s, t, pc)
    requires s' == s.(threads := s.threads[t := pc], writer := s'.writer, readers := s'.readers,
                      admitted := s'.admitted, stopping := s'.stopping, listening := s'.listening)
    requires Locks(s'.threads, s'.writer, s'.readers)
    ensures Inv(s')
  {
    hide Places, Locks, Keys, References, Table, Onces, Evictions, Done;
    hide NoOrphans, OldClosed, Buffering, Routing, Clocks;
    MovePlaces(s.threads, s.nextConn, s.nextEvictor, t, pc);
    MoveKeys(s.threads, s.publicKey, s.registered, s.joining, t, pc);
    MoveReferences(s.threads, s.registered, t, pc);
    MoveEvictions(s.threads, s.closed, s.table, t, pc);
    MoveOnces(s.threads, s.running, s.evicted, t, pc);
    MoveHolds(s, s', t, pc);
    MoveRouting(s, s', t, pc);
    MoveClocks(s, s', t, pc);
    MoveDone(s.threads, s.publicKey, s.registered, s.closed, s.evicted, t, pc);
    MoveOrphans(s, s', t, pc);
  }

  lemma MoveDone(threads: map<Tid, Pc>, publicKey: map<ConnId, Key>, registered: set<ConnId>,
                 closed: set<ConnId>, evicted: set<ConnId>, t: Tid, pc: Pc)
    requires Done(threads, publicKey, registered, closed, evicted)
    requires t.Handler? ==> t in threads && PhaseAt(pc) == PhaseAt(threads[t])
    ensures Done(threads[t := pc], publicKey, registered, closed, evicted)
  {
    forall c <- publicKey | PhaseOf(threads[t := pc], c) == Gone
      ensures c in evicted
    {
      assert PhaseOf(threads, c) == Gone;
    }
  }

  lemma MoveOrphans(s: State, s': State, t: Tid, pc: Pc)
    requires s'.threads == s.threads[t := pc] && NoOrphans(s) && OldClosed(s)
    requires s'.nextConn == s.nextConn && s'.closed == s.closed && s'.joining == s.joining
    requires s'.table == s.table && s'.hash == s.hash && s'.publicKey == s.publicKey
    requires t.Handler? ==> !pc.RegStore?
    ensures NoOrphans(s') && OldClosed(s')
  {
    forall c: ConnId | c < s'.nextConn
      ensures Accounted(s', c)
    {
      assert Accounted(s, c);
    }
    forall c <- s'.publicKey | Superseding(s'.threads, c) && KeyOf(s', c) in s'.table
      ensures s'.table[KeyOf(s', c)] in s'.closed
    {
      assert Superseding(s.threads, c);
    }
  }

  /** Closing connections never hurts. */
  lemma CloseMore(s: State, more: set<ConnId>)
    requires Inv(s)
    ensures Inv(s.(closed := s.closed + more))
  {
    var s' := s.(closed := s.closed + more);
    MoreClosed(s.threads, s.closed, more, s.table);
    forall c: ConnId | c < s'.nextConn
      ensures Accounted(s', c)
    {
      assert Accounted(s, c);
    }
    assert OldClosed(s') by {
      assert OldClosed(s);
    }
    SameHolds(s, s');
    SameRouting(s, s');
    SameClocks(s, s');
  }

  lemma SameHolds(s: State, s': State)
    requires Buffering(s) && s'.threads == s.threads
    requires s'.held == s.held && s'.buffers == s.buffers && s'.pool == s.pool && s'.nextBuffer == s.nextBuffer
    requires s'.sent == s.sent && s'.fates == s.fates
    ensures Buffering(s')
  {
    forall c: ConnId
      ensures Holds(s', c, HoldOf(s'.threads, c))
    {
      assert Holds(s, c, HoldOf(s.threads, c));
    }
  }

  lemma SameRouting(s: State, s': State)
    requires Routing(s) && s'.threads == s.threads
    requires s'.sent == s.sent && s'.fates == s.fates && s'.delivered == s.delivered
    requires KeysKept(s, s')
    ensures Routing(s')
  {
    forall c: ConnId, r: ConnId
      ensures Matches(s', c, r)
    {
      assert Matches(s, c, r);
    }
    forall c: ConnId
      ensures TargetOk(s', c) && FatesOk(s', c)
    {
      assert TargetOk(s, c) && FatesOk(s, c) && Matches(s, c, c);
      KeepFates(s, s', c);
    }
  }

  lemma SameClocks(s: State, s': State)
    requires Clocks(s) && s'.threads == s.threads
    requires s'.lastAlive == s.lastAlive && s'.heard == s.heard && s'.clock >= s.clock
    ensures Clocks(s')
  {
    forall c: ConnId
      ensures Noted(s', c)
    {
      assert Noted(s, c);
    }
  }

  // --- the world outside ---

  lemma {:induction false} RoutedExtends(sent: seq<Frame>, sent': seq<Frame>, fates: seq<Fate>, c: ConnId, r: ConnId)
    requires |fates| <= |sent| && sent <= sent'
    ensures Routed(sent', fates, c, r) == Routed(sent, fates, c, r)
  {
    if fates != [] {
      RoutedExtends(sent, sent', fates[..|fates| - 1], c, r);
    }
  }

  /** A client has sent more; nothing else is different. */
  ghost predicate SentMore(s: State, s': State) {
    && s' == s.(sent := s'.sent)
    && forall d: ConnId :: Sent(s, d) <= Sent(s', d)
  }

  lemma SentMoreHolds(s: State, s': State)
    requires Buffering(s) && SentMore(s, s')
    ensures Buffering(s')
  {
    forall d: ConnId
      ensures Holds(s', d, HoldOf(s'.threads, d))
    {
      assert Holds(s, d, HoldOf(s.threads, d)) && Sent(s, d) <= Sent(s', d);
    }
  }

  lemma SentMoreMatches(s: State, s': State, d: ConnId, r: ConnId)
    requires SentMore(s, s') && Matches(s, d, r)
    ensures Matches(s', d, r)
  {
    assert Sent(s, d) <= Sent(s', d);
    RoutedExtends(Sent(s, d), Sent(s', d), Fates(s, d), d, r);
  }

  lemma SentMoreRouting(s: State, s': State)
    requires Buffering(s) && Routing(s) && SentMore(s, s')
    ensures Routing(s')
  {
    hide Buffering;
    forall d: ConnId, r: ConnId
      ensures Matches(s', d, r)
    {
      assert Matches(s, d, r);
      SentMoreMatches(s, s', d, r);
    }
    forall d: ConnId
      ensures TargetOk(s', d) && FatesOk(s', d)
    {
      assert FatesOk(s, d) && TargetOk(s, d) && Matches(s, d, d) && Sent(s, d) <= Sent(s', d);
      TargetExtends(s, s', d);
      KeepFates(s, s', d);
    }
  }

  lemma ClientSendsKeeps(s: State, c: ConnId, frame: Frame)
    requires c < s.nextConn && Inv(s)
    ensures Inv(WorldApply(s, ClientSends(c, frame)))
  {
    hide Places, Locks, Keys, References, Table, Onces, Evictions, Done;
    hide NoOrphans, OldClosed, Buffering, Routing, Clocks;
    var s' := WorldApply(s, ClientSends(c, frame));
    assert SentMore(s, s');
    SentMoreHolds(s, s');
    SentMoreRouting(s, s');
    SameClocks(s, s');
    SameOrphans(s, s');
  }

  lemma TargetExtends(s: State, s': State, c: ConnId)
    requires Buffering(s) && TargetOk(s, c) && s'.threads == s.threads && KeysKept(s, s')
    requires Fates(s', c) == Fates(s, c) && Sent(s, c) <= Sent(s', c)
    ensures TargetOk(s', c)
  {
    hide Buffering, Prefix;
    if Handler(c) in s.threads && TargetAt(s.threads[Handler(c)]).Some? {
      TargetFollows(s, c);
    }
  }

  /** A handler with a target is in the middle of routing a frame. */
  lemma TargetFollows(s: State, c: ConnId)
    requires Buffering(s) && Handler(c) in s.threads && TargetAt(s.threads[Handler(c)]).Some?
    ensures |Fates(s, c)| < |Sent(s, c)|
  {
    assert Holds(s, c, HoldOf(s.threads, c));
  }

  lemma SameOrphans(s: State, s': State)
    requires NoOrphans(s) && OldClosed(s) && s'.threads == s.threads
    requires s'.nextConn == s.nextConn && s'.closed == s.closed && s'.joining == s.joining
    requires s'.table == s.table && s'.hash == s.hash && s'.publicKey == s.publicKey
    ensures NoOrphans(s') && OldClosed(s')
  {
    forall c: ConnId | c < s'.nextConn
      ensures Accounted(s', c)
    {
      assert Accounted(s, c);
    }
  }

  lemma WorldKeeps(s: State, step: WorldStep)
    requires Inv(s) && WorldEnabled(s, step)
    ensures Inv(WorldApply(s, step))
  {
    var s' := WorldApply(s, step);
    match step {
      case Tick =>
        SameHolds(s, s');
        SameRouting(s, s');
        SameClocks(s, s');
        SameOrphans(s, s');
      case ClientSends(c, frame) =>
        ClientSendsKeeps(s, c, frame);
      case DropPooled(b) =>
        forall c: ConnId
          ensures Holds(s', c, HoldOf(s'.threads, c))
        {
          assert Holds(s, c, HoldOf(s.threads, c));
        }
        SameRouting(s, s');
        SameClocks(s, s');
        SameOrphans(s, s');
    }
  }

  // --- the lock ---

  function AfterLock(s: State, t: Tid, step: LockStep): Pc
    requires LockEnabled(s, t, step)
  {
    var pc := s.threads[t];
    match step
    case ReadLock => AfterReadLock(s, pc)
    case ReadUnlock => AfterReadUnlock(pc)
    case Announce => AfterAnnounce(pc)
    case Acquire => AfterAcquire(s, pc)
    case Unlock => AfterUnlock(pc)
  }

  function RoleBefore(step: LockStep): Role {
    match step
    case ReadLock => Free
    case ReadUnlock => Reading
    case Announce => Free
    case Acquire => Announced
    case Unlock => Writes
  }

  function RoleAfter(step: LockStep): Role {
    match step
    case ReadLock => Reading
    case ReadUnlock => Free
    case Announce => Announced
    case Acquire => Writes
    case Unlock => Free
  }

  lemma LockRoleBefore(s: State, t: Tid, step: LockStep)
    requires LockEnabled(s, t, step)
    ensures RoleAt(s.threads[t]) == RoleBefore(step)
  {
  }

  lemma LockRoleAfter(s: State, t: Tid, step: LockStep)
    requires LockEnabled(s, t, step)
    ensures RoleAt(AfterLock(s, t, step)) == RoleAfter(step)
  {
  }

  lemma ReadLockKeeps(threads: map<Tid, Pc>, readers: set<Tid>, t: Tid, pc: Pc)
    requires Locks(threads, None, readers) && t in threads
    requires RoleAt(threads[t]) == Free && RoleAt(pc) == Reading
    ensures Locks(threads[t := pc], None, readers + {t})
  {
  }

  lemma ReadUnlockKeeps(threads: map<Tid, Pc>, writer: Option<Tid>, readers: set<Tid>, t: Tid, pc: Pc)
    requires Locks(threads, writer, readers) && t in threads
    requires RoleAt(threads[t]) == Reading && RoleAt(pc) == Free
    ensures Locks(threads[t := pc], writer, readers - {t})
  {
  }

  lemma AnnounceKeeps(threads: map<Tid, Pc>, readers: set<Tid>, t: Tid, pc: Pc)
    requires Locks(threads, None, readers) && t in threads
    requires RoleAt(threads[t]) == Free && RoleAt(pc) == Announced
    ensures Locks(threads[t := pc], Some(t), readers)
  {
  }

  lemma AcquireKeeps(threads: map<Tid, Pc>, writer: Option<Tid>, t: Tid, pc: Pc)
    requires Locks(threads, writer, {}) && t in threads
    requires RoleAt(threads[t]) == Announced && RoleAt(pc) == Writes
    ensures Locks(threads[t := pc], writer, {})
  {
  }

  lemma UnlockKeeps(threads: map<Tid, Pc>, writer: Option<Tid>, readers: set<Tid>, t: Tid, pc: Pc)
    requires Locks(threads, writer, readers) && t in threads
    requires RoleAt(threads[t]) == Writes && RoleAt(pc) == Free
    ensures Locks(threads[t := pc], None, readers)
  {
  }

  lemma LockKeepsLocks(s: State, t: Tid, step: LockStep)
    requires Locks(s.threads, s.writer, s.readers) && LockEnabled(s, t, step)
    ensures var s' := LockApply(s, t, step); Locks(s'.threads, s'.writer, s'.readers)
  {
    LockRoleBefore(s, t, step);
    LockRoleAfter(s, t, step);
    var pc := AfterLock(s, t, step);
    match step {
      case ReadLock => ReadLockKeeps(s.threads, s.readers, t, pc);
      case ReadUnlock => ReadUnlockKeeps(s.threads, s.writer, s.readers, t, pc);
      case Announce => AnnounceKeeps(s.threads, s.readers, t, pc);
      case Acquire => AcquireKeeps(s.threads, s.writer, t, pc);
      case Unlock => UnlockKeeps(s.threads, s.writer, s.readers, t, pc);
    }
  }

  lemma TableValuesRegistered(s: State)
    requires Table(s.table, s.hash, s.publicKey, s.registered, s.evicted)
    ensures s.table.Values <= s.registered
  {
  }

  lemma ReadLockSameView(s: State, t: Tid)
    requires LockEnabled(s, t, ReadLock) && Placed(t, s.threads[t]) && s.table.Values <= s.registered
    ensures SameView(s, t, AfterLock(s, t, ReadLock))
  {
    match s.threads[t]
    case FullWant(_) =>
    case LookupWant =>
    case SweepWant(now) =>
  }

  lemma ReadUnlockSameView(s: State, t: Tid)
    requires LockEnabled(s, t, ReadUnlock) && Placed(t, s.threads[t]) && Refers(s.threads[t], s.registered)
    ensures SameView(s, t, AfterLock(s, t, ReadUnlock))
  {
  }

  /** Inside its `once`, an eviction that moves on to the next stage. */
  lemma StageSameView(s: State, t: Tid, p: ConnId, stage: EvictStage, stage': EvictStage, k: Cont)
    requires t in s.threads && s.threads[t] == Evicting(p, stage, k) && stage != Enter && stage' != Enter
    requires Placed(t, s.threads[t]) && Refers(s.threads[t], s.registered)
    requires EvictOk(Evicting(p, stage', k), s.closed, s.table)
    ensures SameView(s, t, Evicting(p, stage', k))
  {
    var pc := Evicting(p, stage', k);
    assert Placed(t, pc);
    assert Refers(pc, s.registered);
  }

  lemma RegisterSameView(s: State, t: Tid, pc: Pc, pc': Pc)
    requires t in s.threads && t.Handler? && s.threads[t] == pc
    requires (pc, pc') in {(RegWant, RegWait), (RegWait, RegClose), (RegUnlock, GetBuffer)}
    ensures SameView(s, t, pc')
  {
  }

  lemma StopSameView(s: State, pc': Pc)
    requires Stopper in s.threads && Placed(Stopper, s.threads[Stopper])
    requires pc'.StopWait? || (pc'.StopClose? && pc'.todo <= s.registered) || pc'.Ended?
    ensures SameView(s, Stopper, pc')
  {
  }

  /** Who can be at a point of a write-locked section. */
  lemma WriterPlaces(t: Tid, pc: Pc)
    requires Placed(t, pc)
    ensures pc.RegWant? || pc.RegWait? || pc.RegUnlock? ==> t.Handler?
    ensures pc.StopWant? || pc.StopWait? || pc.StopClose? ==> t == Stopper
  {
  }

  lemma WriteSameView(s: State, t: Tid, step: LockStep)
    requires LockEnabled(s, t, step) && step in {Announce, Acquire, Unlock}
    requires Placed(t, s.threads[t]) && Refers(s.threads[t], s.registered)
    requires EvictOk(s.threads[t], s.closed, s.table) && s.table.Values <= s.registered
    ensures SameView(s, t, AfterLock(s, t, step))
  {
    var pc, pc' := s.threads[t], AfterLock(s, t, step);
    WriterPlaces(t, pc);
    if pc.Evicting? {
      StageSameView(s, t, pc.peer, pc.stage, pc'.stage, pc.cont);
    } else if t == Stopper {
      StopSameView(s, pc');
    } else {
      RegisterSameView(s, t, pc, pc');
    }
  }

  lemma LockSameView(s: State, t: Tid, step: LockStep)
    requires Inv(s) && LockEnabled(s, t, step)
    ensures SameView(s, t, AfterLock(s, t, step))
  {
    assert Placed(t, s.threads[t]) && Refers(s.threads[t], s.registered) && EvictOk(s.threads[t], s.closed, s.table);
    TableValuesRegistered(s);
    match step {
      case ReadLock => ReadLockSameView(s, t);
      case ReadUnlock => ReadUnlockSameView(s, t);
      case Announce => WriteSameView(s, t, step);
      case Acquire => WriteSameView(s, t, step);
      case Unlock => WriteSameView(s, t, step);
    }
  }

  lemma LockKeeps(s: State, t: Tid, step: LockStep)
    requires Inv(s) && LockEnabled(s, t, step)
    ensures Inv(LockApply(s, t, step))
  {
    hide Places, Locks, Keys, References, Table, Onces, Evictions, Done;
    hide NoOrphans, OldClosed, Buffering, Routing, Clocks;
    LockKeepsLocks(s, t, step);
    LockSameView(s, t, step);
    Moved(s, LockApply(s, t, step), t, AfterLock(s, t, step));
  }

  // --- Run ---

  /** The parts that a step of the accept loop leaves alone. */
  lemma AcceptorMoves(s: State, s': State, pc: Pc)
    requires Inv(s) && s'.threads == s.threads[Acceptor := pc]
    requires pc.Accepting? || (IncomingAt(pc).Some? && RoleAt(pc) == Free)
    requires RoleAt(s.threads[Acceptor]) == Free
    requires s' == s.(threads := s'.threads, nextConn := s'.nextConn, joining := s'.joining)
    ensures Locks(s'.threads, s'.writer, s'.readers)
    ensures References(s'.threads, s'.registered)
    ensures Onces(s'.threads, s'.running, s'.evicted)
    ensures Evictions(s'.threads, s'.closed, s'.table)
    ensures Done(s'.threads, s'.publicKey, s'.registered, s'.closed, s'.evicted)
    ensures Buffering(s') && Routing(s') && Clocks(s')
  {
    hide Locks, Keys, References, Table, Onces, Evictions, Done, NoOrphans, OldClosed, Buffering, Routing, Clocks;
    assert Placed(Acceptor, s.threads[Acceptor]);
    MoveLocks(s.threads, s.writer, s.readers, Acceptor, pc);
    MoveReferences(s.threads, s.registered, Acceptor, pc);
    MoveOnces(s.threads, s.running, s.evicted, Acceptor, pc);
    MoveEvictions(s.threads, s.closed, s.table, Acceptor, pc);
    MoveDone(s.threads, s.publicKey, s.registered, s.closed, s.evicted, Acceptor, pc);
    MoveHolds(s, s', Acceptor, pc);
    MoveRouting(s, s', Acceptor, pc);
    MoveClocks(s, s', Acceptor, pc);
  }

  lemma AcceptorKeys(threads: map<Tid, Pc>, publicKey: map<ConnId, Key>, registered: set<ConnId>,
                     joining: set<ConnId>, pc: Pc, joining': set<ConnId>)
    requires Acceptor in threads && Keys(threads, publicKey, registered, joining)
    requires forall c: ConnId :: PhaseOf(threads, c) != Absent ==> (c in joining' <==> c in joining)
    requires forall c: ConnId :: PhaseOf(threads, c) == Absent ==> (c in joining' <==> IncomingAt(pc) == Some(c))
    ensures Keys(threads[Acceptor := pc], publicKey, registered, joining')
  {
    var threads' := threads[Acceptor := pc];
    forall c: ConnId
      ensures PhaseOf(threads', c) == PhaseOf(threads, c)
      ensures c in joining' <==> Waiting(threads', c)
    {
      assert c in joining <==> Waiting(threads, c);
    }
  }

  lemma AbsentWaiting(s: State, c: ConnId)
    requires Inv(s) && PhaseOf(s.threads, c) == Absent
    ensures c in s.joining <==> Incoming(s.threads) == Some(c)
    ensures c >= s.nextConn ==> c !in s.joining
  {
    assert c in s.joining <==> Waiting(s.threads, c);
  }

  lemma SameAccounts(s: State, s': State)
    requires NoOrphans(s) && s'.nextConn == s.nextConn
    requires s'.closed + s'.joining >= s.closed + s.joining
    requires s'.table == s.table && s'.hash == s.hash && s'.publicKey == s.publicKey
    ensures NoOrphans(s')
  {
    forall c: ConnId | c < s'.nextConn
      ensures Accounted(s', c)
    {
      assert Accounted(s, c);
      assert c in s.closed + s.joining ==> c in s'.closed + s'.joining;
    }
  }

  lemma AcceptedPlaces(threads: map<Tid, Pc>, nextConn: nat, nextEvictor: nat)
    requires Places(threads, nextConn, nextEvictor)
    ensures Places(threads[Acceptor := FullWant(nextConn)], nextConn + 1, nextEvictor)
    ensures PhaseOf(threads, nextConn).Absent?
  {
    assert Handler(nextConn) in threads ==> Numbered(Handler(nextConn), nextConn, nextEvictor);
  }

  lemma AcceptedOrphans(s: State, s': State)
    requires NoOrphans(s) && OldClosed(s)
    requires s' == s.(threads := s.threads[Acceptor := FullWant(s.nextConn)], nextConn := s.nextConn + 1,
                      joining := s.joining + {s.nextConn})
    ensures NoOrphans(s') && OldClosed(s')
  {
    forall c: ConnId | c < s'.nextConn
      ensures Accounted(s', c)
    {
      assert c < s.nextConn ==> Accounted(s, c);
    }
    forall c <- s'.publicKey | Superseding(s'.threads, c)
      ensures KeyOf(s', c) in s'.table ==> s'.table[KeyOf(s', c)] in s'.closed
    {
      assert Superseding(s.threads, c);
    }
  }

  lemma AcceptNewKeeps(s: State)
    requires AcceptEnabled(s, Accept) && Inv(s)
    ensures Inv(AcceptApply(s, Accept))
  {
    hide Places, Locks, Keys, References, Table, Onces, Evictions, Done;
    hide NoOrphans, OldClosed, Buffering, Routing, Clocks;
    var n, s' := s.nextConn, AcceptApply(s, Accept);
    AcceptorMoves(s, s', FullWant(n));
    AcceptedPlaces(s.threads, n, s.nextEvictor);
    forall c: ConnId | PhaseOf(s.threads, c) == Absent
      ensures c in s'.joining <==> c == n
    {
      AbsentWaiting(s, c);
    }
    AcceptorKeys(s.threads, s.publicKey, s.registered, s.joining, FullWant(n), s'.joining);
    AcceptedOrphans(s, s');
  }

  lemma IncomingAbsent(threads: map<Tid, Pc>, nextConn: nat, nextEvictor: nat, c: ConnId)
    requires Places(threads, nextConn, nextEvictor) && Incoming(threads) == Some(c)
    ensures PhaseOf(threads, c).Absent?
  {
  }

  lemma SurplusOrphans(s: State, s': State, c: ConnId)
    requires NoOrphans(s) && OldClosed(s) && c in s.closed
    requires s' == s.(threads := s.threads[Acceptor := Accepting], joining := s.joining - {c})
    ensures NoOrphans(s') && OldClosed(s')
  {
    SameAccounts(s, s');
    forall d <- s'.publicKey | Superseding(s'.threads, d)
      ensures KeyOf(s', d) in s'.table ==> s'.table[KeyOf(s', d)] in s'.closed
    {
      assert Superseding(s.threads, d);
    }
  }

  lemma CloseSurplusKeeps(s: State)
    requires AcceptEnabled(s, CloseSurplus) && Inv(s)
    ensures Inv(AcceptApply(s, CloseSurplus))
  {
    hide Places, Locks, Keys, References, Table, Onces, Evictions, Done;
    hide NoOrphans, OldClosed, Buffering, Routing, Clocks;
    var c := s.threads[Acceptor].incoming;
    var s1, s' := s.(closed := s.closed + {c}), AcceptApply(s, CloseSurplus);
    CloseMore(s, {c});
    IncomingAbsent(s.threads, s.nextConn, s.nextEvictor, c);
    AcceptorMoves(s1, s', Accepting);
    MovePlaces(s1.threads, s1.nextConn, s1.nextEvictor, Acceptor, Accepting);
    forall d: ConnId | PhaseOf(s.threads, d) == Absent
      ensures d !in s'.joining
    {
      AbsentWaiting(s, d);
    }
    AcceptorKeys(s1.threads, s1.publicKey, s1.registered, s1.joining, Accepting, s'.joining);
    SurplusOrphans(s1, s', c);
  }

  /** The connection passes from the accept loop to its handler. */
  lemma SpawnedKeys(threads: map<Tid, Pc>, publicKey: map<ConnId, Key>, registered: set<ConnId>, joining: set<ConnId>,
                    c: ConnId)
    requires Keys(threads, publicKey, registered, joining)
    requires Acceptor in threads && Handler(c) !in threads && Incoming(threads) == Some(c)
    ensures Keys(threads[Acceptor := Accepting][Handler(c) := Handshaking], publicKey, registered, joining)
    ensures c !in publicKey
  {
    var threads' := threads[Acceptor := Accepting][Handler(c) := Handshaking];
    assert KeyState(PhaseOf(threads, c), c in publicKey, c in registered);
    forall d: ConnId
      ensures KeyState(PhaseOf(threads', d), d in publicKey, d in registered)
      ensures d in joining <==> Waiting(threads', d)
    {
      assert KeyState(PhaseOf(threads, d), d in publicKey, d in registered);
      assert d in joining <==> Waiting(threads, d);
    }
  }

  lemma SpawnedPlaces(threads: map<Tid, Pc>, nextConn: nat, nextEvictor: nat, c: ConnId)
    requires Places(threads, nextConn, nextEvictor) && Incoming(threads) == Some(c)
    ensures Handler(c) !in threads
    ensures Places(threads[Acceptor := Accepting][Handler(c) := Handshaking], nextConn, nextEvictor)
  {
  }

  lemma SpawnedDone(threads: map<Tid, Pc>, publicKey: map<ConnId, Key>, registered: set<ConnId>,
                    closed: set<ConnId>, evicted: set<ConnId>, c: ConnId)
    requires Done(threads, publicKey, registered, closed, evicted) && c !in publicKey
    ensures Done(threads[Acceptor := Accepting][Handler(c) := Handshaking], publicKey, registered, closed, evicted)
  {
    var threads' := threads[Acceptor := Accepting][Handler(c) := Handshaking];
    forall d <- publicKey | PhaseOf(threads', d) == Gone
      ensures d in evicted
    {
      assert PhaseOf(threads, d) == Gone;
    }
  }

  lemma SpawnKeeps(s: State)
    requires Inv(s) && AcceptEnabled(s, Spawn)
    ensures Inv(AcceptApply(s, Spawn))
  {
    hide Places, Locks, Keys, References, Table, Onces, Evictions, Done;
    hide NoOrphans, OldClosed, Buffering, Routing, Clocks;
    var c := s.threads[Acceptor].incoming;
    var s1, s' := s.(threads := s.threads[Acceptor := Accepting]), AcceptApply(s, Spawn);
    SpawnedPlaces(s.threads, s.nextConn, s.nextEvictor, c);
    SpawnedKeys(s.threads, s.publicKey, s.registered, s.joining, c);
    SpawnedDone(s.threads, s.publicKey, s.registered, s.closed, s.evicted, c);
    AcceptorMoves(s, s1, Accepting);
    MoveOrphans(s, s1, Acceptor, Accepting);
    SpawnedParts(s1, s', Handler(c), Handshaking);
  }

  /** A new goroutine is outside of all locks, has no buffer, and refers to nothing new. */
  lemma SpawnedParts(s: State, s': State, t: Tid, pc: Pc)
    requires t !in s.threads && (t.Handler? || t.Evictor?)
    requires pc.Handshaking? || (pc.Evicting? && pc.stage.Enter? && pc.cont.ThenEnd? && pc.peer in s.registered)
    requires s' == s.(threads := s.threads[t := pc], nextEvictor := s'.nextEvictor)
    requires Locks(s.threads, s.writer, s.readers)
    requires References(s.threads, s.registered)
    requires Onces(s.threads, s.running, s.evicted)
    requires Evictions(s.threads, s.closed, s.table)
    requires Buffering(s) && Routing(s) && Clocks(s) && NoOrphans(s) && OldClosed(s)
    ensures Locks(s'.threads, s'.writer, s'.readers)
    ensures References(s'.threads, s'.registered)
    ensures Onces(s'.threads, s'.running, s'.evicted)
    ensures Evictions(s'.threads, s'.closed, s'.table)
    ensures Buffering(s') && Routing(s') && Clocks(s')
    ensures NoOrphans(s') && OldClosed(s')
  {
    hide Places, Locks, Keys, References, Table, Onces, Evictions, Done;
    hide NoOrphans, OldClosed, Buffering, Routing, Clocks;
    MoveLocks(s.threads, s.writer, s.readers, t, pc);
    MoveReferences(s.threads, s.registered, t, pc);
    MoveOnces(s.threads, s.running, s.evicted, t, pc);
    MoveEvictions(s.threads, s.closed, s.table, t, pc);
    MoveHolds(s, s', t, pc);
    MoveRouting(s, s', t, pc);
    MoveClocks(s, s', t, pc);
    MoveOrphans(s, s', t, pc);
  }

  lemma AcceptorGoesOn(s: State, step: AcceptStep)
    requires AcceptEnabled(s, step) && (step.TestFull? || step.Return?) && Inv(s)
    ensures Inv(AcceptApply(s, step))
  {
    hide Places, Locks, Keys, References, Table, Onces, Evictions, Done;
    hide NoOrphans, OldClosed, Buffering, Routing, Clocks;
    var s' := AcceptApply(s, step);
    MoveLocks(s.threads, s.writer, s.readers, Acceptor, s'.threads[Acceptor]);
    Moved(s, s', Acceptor, s'.threads[Acceptor]);
  }

  lemma AcceptKeeps(s: State, step: AcceptStep)
    requires Inv(s) && AcceptEnabled(s, step)
    ensures Inv(AcceptApply(s, step))
  {
    match step {
      case Accept => AcceptNewKeeps(s);
      case CloseSurplus => CloseSurplusKeeps(s);
      case Spawn => SpawnKeeps(s);
      case TestFull => AcceptorGoesOn(s, step);
      case Return => AcceptorGoesOn(s, step);
    }
  }

  // --- handshake and registration ---

  /** The parts that do not see how far a handler without a buffer has come. */
  lemma HandlerMoves(s: State, s': State, c: ConnId, pc: Pc)
    requires Inv(s) && Handler(c) in s.threads && s'.threads == s.threads[Handler(c) := pc]
    requires PhaseAt(pc) in {Unknown, Phase.Joining, Gone} || pc.RegUnlock?
    requires PhaseAt(s.threads[Handler(c)]) in {Unknown, Phase.Joining}
    requires RoleAt(pc) == RoleAt(s.threads[Handler(c)])
    requires s' == s.(threads := s'.threads, publicKey := s'.publicKey, registered := s'.registered, table := s'.table,
                      joining := s'.joining, admitted := s'.admitted, lastAlive := s'.lastAlive, heard := s'.heard)
    ensures Places(s'.threads, s'.nextConn, s'.nextEvictor)
    ensures Locks(s'.threads, s'.writer, s'.readers)
    ensures Onces(s'.threads, s'.running, s'.evicted)
    ensures Buffering(s')
    ensures s.registered <= s'.registered ==> References(s'.threads, s'.registered)
    ensures KeysKept(s, s') ==> Routing(s')
  {
    hide Places, Locks, Keys, References, Table, Onces, Evictions, Done;
    hide NoOrphans, OldClosed, Buffering, Routing, Clocks;
    var t := Handler(c);
    MovePlaces(s.threads, s.nextConn, s.nextEvictor, t, pc);
    MoveLocks(s.threads, s.writer, s.readers, t, pc);
    MoveOnces(s.threads, s.running, s.evicted, t, pc);
    MoveHolds(s, s', t, pc);
    MoveReferences(s.threads, s.registered, t, pc);
    if s.registered <= s'.registered {
      MoreRegistered(s'.threads, s.registered, s'.registered);
      assert s.registered + s'.registered == s'.registered;
    }
    if KeysKept(s, s') {
      HandlerRouting(s, s', t, pc);
    }
  }

  lemma HandlerRouting(s: State, s': State, t: Tid, pc: Pc)
    requires Routing(s) && KeysKept(s, s') && s'.threads == s.threads[t := pc] && TargetAt(pc) == None
    requires s'.sent == s.sent && s'.fates == s.fates && s'.delivered == s.delivered
    ensures Routing(s')
  {
    hide Routing;
    var s1 := s'.(threads := s.threads);
    SameRouting(s, s1);
    MoveRouting(s1, s', t, pc);
  }

  /** One handler reaches another phase, and the bookkeeping with it. */
  lemma PhaseChange(s: State, s': State, c: ConnId, pc: Pc)
    requires Keys(s.threads, s.publicKey, s.registered, s.joining) && Handler(c) in s.threads
    requires s'.threads == s.threads[Handler(c) := pc]
    requires forall d: ConnId :: d != c ==>
               && (d in s'.publicKey <==> d in s.publicKey)
               && (d in s'.registered <==> d in s.registered)
               && (d in s'.joining <==> d in s.joining)
    requires KeyState(PhaseAt(pc), c in s'.publicKey, c in s'.registered)
    requires c in s'.joining <==> PhaseAt(pc) in {Unknown, Phase.Joining}
    requires PhaseAt(pc) != Absent
    ensures Keys(s'.threads, s'.publicKey, s'.registered, s'.joining)
  {
    assert Incoming(s'.threads) == Incoming(s.threads);
    forall d: ConnId
      ensures KeyState(PhaseOf(s'.threads, d), d in s'.publicKey, d in s'.registered)
      ensures d in s'.joining <==> Waiting(s'.threads, d)
    {
      assert KeyState(PhaseOf(s.threads, d), d in s.publicKey, d in s.registered);
      assert d in s.joining <==> Waiting(s.threads, d);
    }
  }

  lemma HandlerPhase(s: State, c: ConnId)
    requires Inv(s) && Handler(c) in s.threads
    ensures KeyState(PhaseAt(s.threads[Handler(c)]), c in s.publicKey, c in s.registered)
    ensures c in s.joining <==> PhaseAt(s.threads[Handler(c)]) in {Unknown, Phase.Joining}
    ensures c < s.nextConn
  {
    assert KeyState(PhaseOf(s.threads, c), c in s.publicKey, c in s.registered);
    assert c in s.joining <==> Waiting(s.threads, c);
    assert Numbered(Handler(c), s.nextConn, s.nextEvictor);
  }

  /** A peer whose handler has just read its key is in nobody's way. */
  lemma KeyAdded(s: State, s': State, c: ConnId)
    requires Table(s.table, s.hash, s.publicKey, s.registered, s.evicted)
    requires Done(s.threads, s.publicKey, s.registered, s.closed, s.evicted)
    requires NoOrphans(s) && OldClosed(s)
    requires c !in s.publicKey && c in s'.publicKey && s'.publicKey == s.publicKey[c := s'.publicKey[c]]
    requires s' == s.(threads := s.threads[Handler(c) := RegWant], publicKey := s'.publicKey,
                      lastAlive := s'.lastAlive, heard := s'.heard)
    ensures Table(s'.table, s'.hash, s'.publicKey, s'.registered, s'.evicted)
    ensures Done(s'.threads, s'.publicKey, s'.registered, s'.closed, s'.evicted)
    ensures NoOrphans(s') && OldClosed(s')
  {
    forall k <- s'.table
      ensures Under(s'.table, s'.hash, s'.publicKey, k) && s'.table[k] in s'.registered && s'.table[k] !in s'.evicted
    {
      assert Under(s.table, s.hash, s.publicKey, k);
    }
    forall d <- s'.publicKey | PhaseOf(s'.threads, d) == Gone
      ensures d in s'.evicted
    {
      assert d != c && PhaseOf(s.threads, d) == Gone;
    }
    forall d: ConnId | d < s'.nextConn
      ensures Accounted(s', d)
    {
      assert Accounted(s, d);
    }
    forall d <- s'.publicKey | Superseding(s'.threads, d)
      ensures KeyOf(s', d) in s'.table ==> s'.table[KeyOf(s', d)] in s'.closed
    {
      assert d != c && Superseding(s.threads, d);
    }
  }

  lemma HandshakeOkKeeps(s: State, c: ConnId, hello: seq<byte>)
    requires Inv(s) && JoinEnabled(s, c, HandshakeOk(hello))
    ensures Inv(JoinApply(s, c, HandshakeOk(hello)))
  {
    hide Places, Locks, Keys, References, Table, Onces, Evictions, Done;
    hide NoOrphans, OldClosed, Buffering, Routing, Clocks;
    var s' := JoinApply(s, c, HandshakeOk(hello));
    HandlerPhase(s, c);
    assert KeysKept(s, s');
    HandlerMoves(s, s', c, RegWant);
    PhaseChange(s, s', c, RegWant);
    MoveEvictions(s.threads, s.closed, s.table, Handler(c), RegWant);
    KeyAdded(s, s', c);
    Heartbeat(s, s', c, RegWant);
  }

  /** A handler notes that its peer is alive. */
  lemma Heartbeat(s: State, s': State, c: ConnId, pc: Pc)
    requires Clocks(s) && s'.threads == s.threads[Handler(c) := pc] && !pc.Received?
    requires s'.lastAlive == s.lastAlive[c := s.clock] && s'.clock == s.clock
    requires s'.heard == s.heard || s'.heard == s.heard[c := s.clock]
    ensures Clocks(s')
  {
    forall d: ConnId
      ensures Noted(s', d)
    {
      assert Noted(s, d);
    }
  }

  /** A step of one handler which does not store it: the others are as far as before. */
  lemma OthersStay(s: State, s': State, c: ConnId, pc: Pc)
    requires Done(s.threads, s.publicKey, s.registered, s.closed, s.evicted) && NoOrphans(s) && OldClosed(s)
    requires s'.threads == s.threads[Handler(c) := pc]
    requires s.closed + s'.joining >= s.closed + s.joining
    requires s' == s.(threads := s'.threads, joining := s'.joining)
    requires c in s.publicKey ==> PhaseAt(pc) != Gone
    requires c in s.publicKey && pc.RegStore? && KeyOf(s, c) in s.table ==> s.table[KeyOf(s, c)] in s.closed
    ensures Done(s'.threads, s'.publicKey, s'.registered, s'.closed, s'.evicted)
    ensures NoOrphans(s') && OldClosed(s')
  {
    SameAccounts(s, s');
    forall d <- s'.publicKey | PhaseOf(s'.threads, d) == Gone
      ensures d in s'.evicted
    {
      assert d != c && PhaseOf(s.threads, d) == Gone;
    }
    forall d <- s'.publicKey | Superseding(s'.threads, d)
      ensures KeyOf(s', d) in s'.table ==> s'.table[KeyOf(s', d)] in s'.closed
    {
      assert d != c ==> Superseding(s.threads, d);
    }
  }

  /** A handler ends for want of a handshake, or is about to store its peer. */
  lemma HandlerGoesOn(s: State, s': State, c: ConnId, pc: Pc)
    requires Inv(s) && Handler(c) in s.threads
    requires (s.threads[Handler(c)].Rejecting? && pc.Ended?) || (s.threads[Handler(c)].RegClose? && pc.RegStore?)
    requires s' == s.(threads := s.threads[Handler(c) := pc],
                      joining := if pc.Ended? then s.joining - {c} else s.joining)
    requires pc.Ended? ==> c in s.closed
    requires pc.RegStore? ==> OldSettled(s, c)
    ensures Inv(s')
  {
    hide Places, Locks, Keys, References, Table, Onces, Evictions, Done;
    hide NoOrphans, OldClosed, Buffering, Routing, Clocks;
    HandlerPhase(s, c);
    HandlerMoves(s, s', c, pc);
    PhaseChange(s, s', c, pc);
    MoveEvictions(s.threads, s.closed, s.table, Handler(c), pc);
    MoveClocks(s, s', Handler(c), pc);
    OthersStay(s, s', c, pc);
  }

  lemma CloseRejectedKeeps(s: State, c: ConnId)
    requires Inv(s) && JoinEnabled(s, c, CloseRejected)
    ensures Inv(JoinApply(s, c, CloseRejected))
  {
    hide Inv;
    CloseMore(s, {c});
    HandlerGoesOn(s.(closed := s.closed + {c}), JoinApply(s, c, CloseRejected), c, Ended);
  }

  predicate OldSettled(s: State, c: ConnId) {
    c in s.publicKey && KeyOf(s, c) in s.table ==> s.table[KeyOf(s, c)] in s.closed
  }

  /** The connection that a peer is about to replace. */
  function Superseded(s: State, c: ConnId): set<ConnId> {
    if c in s.publicKey && KeyOf(s, c) in s.table then {s.table[KeyOf(s, c)]} else {}
  }

  lemma CloseOldShape(s: State, c: ConnId, s1: State)
    requires JoinEnabled(s, c, CloseOld) && s1 == s.(closed := s.closed + Superseded(s, c))
    ensures OldSettled(s1, c)
    ensures Handler(c) in s1.threads && s1.threads[Handler(c)].RegClose?
    ensures JoinApply(s, c, CloseOld) == s1.(threads := s1.threads[Handler(c) := RegStore])
  {
    assert s.closed + {} == s.closed;
  }

  /** `register` closes the old connection, if there is one, and goes on to store the new one. */
  lemma CloseOldKeeps(s: State, c: ConnId)
    requires JoinEnabled(s, c, CloseOld) && Inv(s)
    ensures Inv(JoinApply(s, c, CloseOld))
  {
    hide Inv, JoinEnabled, JoinApply, OldSettled, Superseded;
    var s1 := s.(closed := s.closed + Superseded(s, c));
    CloseOldShape(s, c, s1);
    CloseMore(s, Superseded(s, c));
    HandlerGoesOn(s1, JoinApply(s, c, CloseOld), c, RegStore);
  }

  /** No two threads are inside a write-locked section. */
  lemma OneWriter(s: State, t: Tid, u: Tid)
    requires Locks(s.threads, s.writer, s.readers) && t in s.threads && u in s.threads
    requires RoleAt(s.threads[t]) == Writes && RoleAt(s.threads[u]) in {Announced, Writes}
    ensures t == u
  {
  }

  /** A peer enters the table: it is registered only now, so no eviction refers to it. */
  lemma StoreEntries(s: State, s': State, c: ConnId)
    requires c in s.publicKey && c !in s.registered
    requires s' == s.(threads := s.threads[Handler(c) := RegUnlock], table := Registered(s.table, KeyOf(s, c), c),
                      registered := s.registered + {c}, joining := s'.joining, admitted := s'.admitted)
    requires References(s.threads, s.registered) && Evictions(s.threads, s.closed, s.table)
    requires Table(s.table, s.hash, s.publicKey, s.registered, s.evicted)
    requires Done(s.threads, s.publicKey, s.registered, s.closed, s.evicted)
    ensures Evictions(s'.threads, s'.closed, s'.table)
    ensures Table(s'.table, s'.hash, s'.publicKey, s'.registered, s'.evicted)
    ensures Done(s'.threads, s'.publicKey, s'.registered, s'.closed, s'.evicted)
  {
    forall t <- s'.threads
      ensures EvictOk(s'.threads[t], s'.closed, s'.table)
    {
      if t != Handler(c) {
        assert EvictOk(s.threads[t], s.closed, s.table) && Refers(s.threads[t], s.registered);
      }
    }
    forall d <- s'.publicKey | PhaseOf(s'.threads, d) == Gone
      ensures d in s'.evicted
    {
      assert d != c && PhaseOf(s.threads, d) == Gone;
    }
  }

  lemma StoreOrphans(s: State, s': State, c: ConnId)
    requires Locks(s.threads, s.writer, s.readers) && NoOrphans(s) && OldClosed(s)
    requires c in s.publicKey && Superseding(s.threads, c)
    requires s' == s.(threads := s.threads[Handler(c) := RegUnlock], table := Registered(s.table, KeyOf(s, c), c),
                      registered := s.registered + {c}, joining := s.joining - {c}, admitted := s'.admitted)
    ensures NoOrphans(s') && OldClosed(s')
  {
    var k := KeyOf(s, c);
    forall d: ConnId | d < s'.nextConn
      ensures Accounted(s', d)
    {
      assert Accounted(s, d);
      if d != c && InTable(s.table, s.hash, s.publicKey, d) && KeyOf(s, d) == k {
        assert d == s.table[k];
      }
    }
    forall d <- s'.publicKey
      ensures !Superseding(s'.threads, d)
    {
      if d != c && Superseding(s.threads, d) {
        OneWriter(s, Handler(c), Handler(d));
      }
    }
  }

  lemma StoreKeeps(s: State, c: ConnId)
    requires Inv(s) && JoinEnabled(s, c, Store)
    ensures Inv(JoinApply(s, c, Store))
  {
    hide Places, Locks, Keys, References, Table, Onces, Evictions, Done;
    hide NoOrphans, OldClosed, Buffering, Routing, Clocks;
    var s' := JoinApply(s, c, Store);
    HandlerPhase(s, c);
    HandlerMoves(s, s', c, RegUnlock);
    PhaseChange(s, s', c, RegUnlock);
    MoveClocks(s, s', Handler(c), RegUnlock);
    StoreEntries(s, s', c);
    StoreOrphans(s, s', c);
  }

  lemma HandshakeFailsKeeps(s: State, c: ConnId)
    requires JoinEnabled(s, c, HandshakeFails) && Inv(s)
    ensures Inv(JoinApply(s, c, HandshakeFails))
  {
    hide Places, Locks, Keys, References, Table, Onces, Evictions, Done;
    hide NoOrphans, OldClosed, Buffering, Routing, Clocks;
    MoveLocks(s.threads, s.writer, s.readers, Handler(c), Rejecting);
    Moved(s, JoinApply(s, c, HandshakeFails), Handler(c), Rejecting);
  }

  lemma JoinKeeps(s: State, c: ConnId, step: JoinStep)
    requires JoinEnabled(s, c, step) && Inv(s)
    ensures Inv(JoinApply(s, c, step))
  {
    hide Inv;
    match step {
      case HandshakeOk(hello) => HandshakeOkKeeps(s, c, hello);
      case HandshakeFails => HandshakeFailsKeeps(s, c);
      case CloseRejected => CloseRejectedKeeps(s, c);
      case CloseOld => CloseOldKeeps(s, c);
      case Store => StoreKeeps(s, c);
    }
  }

  // --- buffers ---

  /** The parts that do not see what becomes of the buffer of a handler outside of all locks. */
  lemma BufferMoves(s: State, s': State, c: ConnId, pc: Pc)
    requires OnlyBuffer(s, s', c, pc) && Inv(s)
    requires Buffering(s') && Clocks(s')
    ensures Inv(s')
  {
    hide Places, Locks, Keys, References, Table, Onces, Evictions, Done;
    hide NoOrphans, OldClosed, Buffering, Routing, Clocks;
    var t := Handler(c);
    HandlerPhase(s, c);
    MovePlaces(s.threads, s.nextConn, s.nextEvictor, t, pc);
    MoveLocks(s.threads, s.writer, s.readers, t, pc);
    MoveKeys(s.threads, s.publicKey, s.registered, s.joining, t, pc);
    MoveReferences(s.threads, s.registered, t, pc);
    MoveEvictions(s.threads, s.closed, s.table, t, pc);
    MoveOnces(s.threads, s.running, s.evicted, t, pc);
    MoveRouting(s, s', t, pc);
    MoveDone(s.threads, s.publicKey, s.registered, s.closed, s.evicted, t, pc);
    MoveOrphans(s, s', t, pc);
  }

  /** A handler fills the buffer that it holds. */
  lemma FillHolds(s: State, s': State, c: ConnId, pc: Pc, bytes: Frame)
    requires Buffering(s) && HasBuffer(s, c) && HoldAt(pc) != NoBuffer
    requires s'.threads == s.threads[Handler(c) := pc] && s'.buffers == s.buffers[s.held[c] := bytes]
    requires s'.held == s.held && s'.pool == s.pool && s'.nextBuffer == s.nextBuffer
    requires s'.sent == s.sent && s'.fates == s.fates
    requires HoldAt(pc).Clean? ==> bytes == Zeros(FRAME_SIZE)
    requires HoldAt(pc).Frame? ==> |Fates(s, c)| < |Sent(s, c)| && bytes == Sent(s, c)[|Fates(s, c)|]
    ensures Buffering(s')
  {
    forall d: ConnId
      ensures Holds(s', d, HoldOf(s'.threads, d))
    {
      assert Holds(s, d, HoldOf(s.threads, d));
    }
  }

  /** A handler takes a clean buffer that nobody holds. */
  lemma TakeHolds(s: State, s': State, c: ConnId, b: nat)
    requires Buffering(s) && Handler(c) in s.threads && HoldAt(s.threads[Handler(c)]) == NoBuffer
    requires s'.threads == s.threads[Handler(c) := LoopHead] && s'.held == s.held[c := b]
    requires s'.sent == s.sent && s'.fates == s.fates
    requires b in s'.buffers && s'.buffers[b] == Zeros(FRAME_SIZE)
    requires (b in s.pool && s'.pool == s.pool - {b} && s'.buffers == s.buffers && s'.nextBuffer == s.nextBuffer)
          || (b == s.nextBuffer && s'.pool == s.pool && s'.buffers == s.buffers[b := Zeros(FRAME_SIZE)]
              && s'.nextBuffer == b + 1)
    ensures Buffering(s')
  {
    forall d: ConnId
      ensures Holds(s', d, HoldOf(s'.threads, d))
      ensures d != c && d in s'.held ==> s'.held[d] != b
    {
      assert Holds(s, d, HoldOf(s.threads, d));
      assert d in s.held ==> HasBuffer(s, d);
    }
  }

  /** A handler gives its clean buffer back. */
  lemma PutBackHolds(s: State, s': State, c: ConnId, pc: Pc)
    requires Buffering(s) && Handler(c) in s.threads && HoldAt(s.threads[Handler(c)]).Clean? && c in s.held
    requires s'.threads == s.threads[Handler(c) := pc] && HoldAt(pc).NoBuffer?
    requires s'.held == s.held - {c} && s'.pool == s.pool + {s.held[c]}
    requires s'.buffers == s.buffers && s'.nextBuffer == s.nextBuffer && s'.sent == s.sent && s'.fates == s.fates
    ensures Buffering(s')
  {
    assert Holds(s, c, HoldOf(s.threads, c));
    forall d: ConnId
      ensures Holds(s', d, HoldOf(s'.threads, d))
    {
      assert Holds(s, d, HoldOf(s.threads, d));
    }
  }

  lemma BytesArrive(s: State, s': State, c: ConnId)
    requires Clocks(s) && s'.threads == s.threads[Handler(c) := Received]
    requires s'.heard == s.heard[c := s.clock] && s'.lastAlive == s.lastAlive
    requires s'.clock == s.clock
    ensures Clocks(s')
  {
    forall d: ConnId
      ensures Noted(s', d)
    {
      assert Noted(s, d);
    }
  }

  lemma PooledClean(s: State, b: nat)
    requires Buffering(s) && b in s.pool
    ensures b in s.buffers && s.buffers[b] == Zeros(FRAME_SIZE)
  {
  }

  lemma ReadDiscipline(s: State, c: ConnId, step: BufferStep)
    requires Buffering(s) && BufferEnabled(s, c, step) && (step.ReadFrame? || step.ReadFails?)
    ensures Buffering(BufferApply(s, c, step))
  {
    hide Buffering;
    var s' := BufferApply(s, c, step);
    if step.ReadFrame? {
      FillHolds(s, s', c, Received, Sent(s, c)[|Fates(s, c)|]);
    } else {
      FillHolds(s, s', c, Leaving, step.part + Buffer(s, c)[|step.part|..]);
    }
  }

  lemma ClearDiscipline(s: State, c: ConnId, step: BufferStep)
    requires Buffering(s) && BufferEnabled(s, c, step) && (step.Burn? || step.ClearBuffer?)
    ensures Buffering(BufferApply(s, c, step))
  {
    hide Buffering;
    var s' := BufferApply(s, c, step);
    FillHolds(s, s', c, s'.threads[Handler(c)], Zeros(FRAME_SIZE));
  }

  /** Buffers are taken clean, filled by a read, cleared on every way out, and only then given back. */
  lemma BufferDiscipline(s: State, c: ConnId, step: BufferStep)
    requires Buffering(s) && BufferEnabled(s, c, step)
    ensures Buffering(BufferApply(s, c, step))
  {
    hide Buffering;
    var s' := BufferApply(s, c, step);
    match step {
      case ReuseBuffer(b) =>
        PooledClean(s, b);
        TakeHolds(s, s', c, b);
      case NewBuffer => TakeHolds(s, s', c, s.nextBuffer);
      case PutBack => PutBackHolds(s, s', c, Evicting(c, Enter, ThenEnd));
      case ReadFrame => ReadDiscipline(s, c, step);
      case ReadFails(_) => ReadDiscipline(s, c, step);
      case Burn => ClearDiscipline(s, c, step);
      case ClearBuffer => ClearDiscipline(s, c, step);
    }
  }

  lemma BufferClocks(s: State, c: ConnId, step: BufferStep)
    requires Clocks(s) && BufferEnabled(s, c, step)
    ensures Clocks(BufferApply(s, c, step))
  {
    hide Clocks;
    var s' := BufferApply(s, c, step);
    if step.ReadFrame? {
      BytesArrive(s, s', c);
    } else {
      MoveClocks(s, s', Handler(c), s'.threads[Handler(c)]);
    }
  }

  /** What a buffer step leaves alone. */
  ghost predicate OnlyBuffer(s: State, s': State, c: ConnId, pc: Pc) {
    && Handler(c) in s.threads && PhaseAt(s.threads[Handler(c)]).Live?
    && RoleAt(s.threads[Handler(c)]).Free? && OnceAt(s.threads[Handler(c)]).None?
    && (pc.LoopHead? || pc.Received? || pc.Leaving? || pc.PuttingBack? || pc == Evicting(c, Enter, ThenEnd))
    && s' == s.(threads := s.threads[Handler(c) := pc], buffers := s'.buffers, nextBuffer := s'.nextBuffer,
                pool := s'.pool, held := s'.held, heard := s'.heard)
  }

  lemma BufferShape(s: State, c: ConnId, step: BufferStep)
    requires BufferEnabled(s, c, step)
    ensures var s' := BufferApply(s, c, step); OnlyBuffer(s, s', c, s'.threads[Handler(c)])
  {
  }

  lemma BufferKeeps(s: State, c: ConnId, step: BufferStep)
    requires BufferEnabled(s, c, step) && Inv(s)
    ensures Inv(BufferApply(s, c, step))
  {
    hide Buffering, Clocks, OnlyBuffer, BufferApply, BufferEnabled;
    BufferShape(s, c, step);
    BufferDiscipline(s, c, step);
    BufferClocks(s, c, step);
    var s' := BufferApply(s, c, step);
    BufferMoves(s, s', c, s'.threads[Handler(c)]);
  }

  // --- routing ---

  /** The parts that do not see a frame being routed. */
  lemma RouteMoves(s: State, s': State, c: ConnId, pc: Pc)
    requires Inv(s) && Handler(c) in s.threads && PhaseAt(s.threads[Handler(c)]).Live?
    requires OnceAt(s.threads[Handler(c)]).None? && RoleAt(pc) == RoleAt(s.threads[Handler(c)])
    requires pc.LookupWant? || pc.LookupDone? || pc.Burning?
    requires Refers(pc, s.registered)
    requires s' == s.(threads := s.threads[Handler(c) := pc], fates := s'.fates, delivered := s'.delivered,
                      lastAlive := s'.lastAlive)
    requires Buffering(s') && Routing(s') && Clocks(s')
    ensures Inv(s')
  {
    hide Places, Locks, Keys, References, Table, Onces, Evictions, Done;
    hide NoOrphans, OldClosed, Buffering, Routing, Clocks;
    var t := Handler(c);
    MovePlaces(s.threads, s.nextConn, s.nextEvictor, t, pc);
    MoveLocks(s.threads, s.writer, s.readers, t, pc);
    MoveKeys(s.threads, s.publicKey, s.registered, s.joining, t, pc);
    MoveReferences(s.threads, s.registered, t, pc);
    MoveEvictions(s.threads, s.closed, s.table, t, pc);
    MoveOnces(s.threads, s.running, s.evicted, t, pc);
    MoveDone(s.threads, s.publicKey, s.registered, s.closed, s.evicted, t, pc);
    MoveOrphans(s, s', t, pc);
  }

  lemma MarkAliveKeeps(s: State, c: ConnId)
    requires Inv(s) && RouteEnabled(s, c, MarkAlive)
    ensures Inv(RouteApply(s, c, MarkAlive))
  {
    hide Places, Locks, Keys, References, Table, Onces, Evictions, Done;
    hide NoOrphans, OldClosed, Buffering, Routing, Clocks;
    var s' := RouteApply(s, c, MarkAlive);
    MoveHolds(s, s', Handler(c), LookupWant);
    MoveRouting(s, s', Handler(c), LookupWant);
    Heartbeat(s, s', c, LookupWant);
    RouteMoves(s, s', c, LookupWant);
  }

  /** The frame that a handler is routing is the one in its buffer. */
  lemma FrameInHand(s: State, c: ConnId)
    requires Buffering(s) && HoldOf(s.threads, c).Frame?
    ensures HasBuffer(s, c) && |Fates(s, c)| < |Sent(s, c)| && Buffer(s, c) == Sent(s, c)[|Fates(s, c)|]
  {
    assert Holds(s, c, HoldOf(s.threads, c));
  }

  lemma EntryHasKey(s: State, k: Key)
    requires Table(s.table, s.hash, s.publicKey, s.registered, s.evicted) && k in s.table
    ensures HasKey(s, s.table[k], k)
  {
    assert Under(s.table, s.hash, s.publicKey, k);
  }

  lemma FoundKeeps(s: State, c: ConnId, k: Key)
    requires Inv(s) && RouteEnabled(s, c, LookupHit) && k == Prefix(Buffer(s, c))
    ensures Inv(RouteApply(s, c, LookupHit))
  {
    hide Places, Locks, Keys, References, Table, Onces, Evictions, Done;
    hide NoOrphans, OldClosed, Buffering, Routing, Clocks;
    var r, s' := s.table[k], RouteApply(s, c, LookupHit);
    var pc := LookupDone(Some(r));
    FrameInHand(s, c);
    EntryHasKey(s, k);
    FoundRouting(s, s', c, r);
    MoveHolds(s, s', Handler(c), pc);
    MoveClocks(s, s', Handler(c), pc);
    RouteMoves(s, s', c, pc);
  }

  lemma FoundRouting(s: State, s': State, c: ConnId, r: ConnId)
    requires Routing(s) && s' == s.(threads := s.threads[Handler(c) := LookupDone(Some(r))])
    requires |Fates(s, c)| < |Sent(s, c)| && HasKey(s, r, Prefix(Sent(s, c)[|Fates(s, c)|]))
    ensures Routing(s')
  {
    forall d: ConnId, q: ConnId
      ensures Matches(s', d, q)
    {
      assert Matches(s, d, q);
    }
    forall d: ConnId
      ensures TargetOk(s', d) && FatesOk(s', d)
    {
      assert TargetOk(s, d) && FatesOk(s, d) && Matches(s, d, d);
      KeepFates(s, s', d);
    }
  }

  lemma FromAppend(log: seq<Delivery>, x: Delivery, c: ConnId)
    ensures From(log + [x], c) == From(log, c) + if x.from == c then [x] else []
  {
    assert (log + [x])[..|log|] == log;
  }

  lemma RoutedAppend(sent: seq<Frame>, fates: seq<Fate>, fate: Fate, c: ConnId, r: ConnId)
    requires |fates| < |sent|
    ensures Routed(sent, fates + [fate], c, r)
         == Routed(sent, fates, c, r)
          + if fate == Delivered(r) then [Delivery(c, |fates|, Packet(sent[|fates|]))] else []
  {
    assert (fates + [fate])[..|fates|] == fates;
  }

  /** A frame gets its fate, and the delivery is logged if it was delivered. */
  ghost predicate Settles(s: State, s': State, c: ConnId, pc: Pc, fate: Fate) {
    && HasBuffer(s, c) && HoldOf(s.threads, c).Frame? && (pc == Burning || pc == LookupDone(None))
    && s' == s.(threads := s.threads[Handler(c) := pc], fates := s.fates[c := Fates(s, c) + [fate]],
                delivered := if fate.Delivered? then LogOf(s, c, fate.recipient) else s.delivered)
  }

  function LogOf(s: State, c: ConnId, r: ConnId): map<ConnId, seq<Delivery>>
    requires HasBuffer(s, c)
  {
    s.delivered[r := DeliveredTo(s, r) + [Delivery(c, |Fates(s, c)|, Packet(Buffer(s, c)))]]
  }

  lemma SettleMatches(s: State, s': State, c: ConnId, pc: Pc, fate: Fate, d: ConnId, r: ConnId)
    requires Buffering(s) && Settles(s, s', c, pc, fate) && Matches(s, d, r)
    ensures Matches(s', d, r)
  {
    hide From, Routed, Packet, Holds;
    FrameInHand(s, c);
    if d == c {
      RoutedAppend(Sent(s, c), Fates(s, c), fate, c, r);
    }
    if fate == Delivered(r) {
      FromAppend(DeliveredTo(s, r), Delivery(c, |Fates(s, c)|, Packet(Buffer(s, c))), d);
    }
  }

  lemma SettleFates(s: State, s': State, c: ConnId, pc: Pc, fate: Fate, d: ConnId)
    requires Buffering(s) && Settles(s, s', c, pc, fate) && FatesOk(s, d) && |Fates(s, d)| <= |Sent(s, d)|
    requires FateOk(s, Buffer(s, c), fate)
    ensures FatesOk(s', d)
  {
    FrameInHand(s, c);
    forall i | 0 <= i < |Fates(s', d)| && i < |Sent(s', d)|
      ensures FateOk(s', Sent(s', d)[i], Fates(s', d)[i])
    {
      if i < |Fates(s, d)| {
        assert FateOk(s, Sent(s, d)[i], Fates(s, d)[i]);
      }
    }
  }

  lemma SettleRouting(s: State, s': State, c: ConnId, pc: Pc, fate: Fate)
    requires Buffering(s) && Routing(s) && Settles(s, s', c, pc, fate) && FateOk(s, Buffer(s, c), fate)
    ensures Routing(s')
  {
    forall d: ConnId, r: ConnId
      ensures Matches(s', d, r)
    {
      assert Matches(s, d, r);
      SettleMatches(s, s', c, pc, fate, d, r);
    }
    forall d: ConnId
      ensures TargetOk(s', d) && FatesOk(s', d)
    {
      assert TargetOk(s, d) && FatesOk(s, d) && Matches(s, d, d);
      SettleFates(s, s', c, pc, fate, d);
    }
  }

  lemma SettleHolds(s: State, s': State, c: ConnId, pc: Pc, fate: Fate)
    requires Buffering(s) && Settles(s, s', c, pc, fate)
    ensures Buffering(s')
  {
    forall d: ConnId
      ensures Holds(s', d, HoldOf(s'.threads, d))
    {
      assert Holds(s, d, HoldOf(s.threads, d));
    }
  }

  lemma SettleKeeps(s: State, s': State, c: ConnId, pc: Pc, fate: Fate)
    requires Inv(s) && Settles(s, s', c, pc, fate) && FateOk(s, Buffer(s, c), fate)
    requires RoleAt(pc) == RoleAt(s.threads[Handler(c)]) && !s.threads[Handler(c)].Received?
    ensures Inv(s')
  {
    hide Places, Locks, Keys, References, Table, Onces, Evictions, Done;
    hide NoOrphans, OldClosed, Buffering, Routing, Clocks;
    SettleHolds(s, s', c, pc, fate);
    SettleRouting(s, s', c, pc, fate);
    MoveClocks(s, s', Handler(c), pc);
    RouteMoves(s, s', c, pc);
  }

  lemma SpawnEvictorKeeps(s: State, p: ConnId)
    requires Inv(s) && p in s.registered
    ensures Inv(SpawnEvictor(s, p))
  {
    hide Places, Locks, Keys, References, Table, Onces, Evictions, Done;
    hide NoOrphans, OldClosed, Buffering, Routing, Clocks;
    var t, s' := Evictor(s.nextEvictor), SpawnEvictor(s, p);
    NewEvictor(s.threads, s.nextConn, s.nextEvictor, p);
    MoveKeys(s.threads, s.publicKey, s.registered, s.joining, t, Evicting(p, Enter, ThenEnd));
    MoveDone(s.threads, s.publicKey, s.registered, s.closed, s.evicted, t, Evicting(p, Enter, ThenEnd));
    SpawnedParts(s, s', t, Evicting(p, Enter, ThenEnd));
  }

  lemma NewEvictor(threads: map<Tid, Pc>, nextConn: nat, nextEvictor: nat, p: ConnId)
    requires Places(threads, nextConn, nextEvictor)
    ensures Evictor(nextEvictor) !in threads
    ensures Places(threads[Evictor(nextEvictor) := Evicting(p, Enter, ThenEnd)], nextConn, nextEvictor + 1)
  {
    assert Evictor(nextEvictor) in threads ==> Numbered(Evictor(nextEvictor), nextConn, nextEvictor);
  }

  /** The recipient that a handler has found has the key in front of the frame. */
  lemma TargetHasKey(s: State, c: ConnId)
    requires Inv(s) && Handler(c) in s.threads
    requires s.threads[Handler(c)].Deadline? || s.threads[Handler(c)].Writing?
    ensures HasBuffer(s, c) && HasKey(s, s.threads[Handler(c)].recipient, Prefix(Buffer(s, c)))
  {
    hide Places, Locks, Keys, References, Table, Onces, Evictions, Done, NoOrphans, OldClosed, Clocks;
    FrameInHand(s, c);
    assert TargetOk(s, c);
  }

  /** The last steps of routing a frame, apart from the eviction that may follow. */
  lemma LastSettles(s: State, s': State, c: ConnId, fate: Fate)
    requires HasBuffer(s, c) && HoldOf(s.threads, c).Frame?
    requires s' == if fate.Delivered? then Settle(s, c, fate).(delivered := LogOf(s, c, fate.recipient))
                   else Settle(s, c, fate)
    ensures Settles(s, s', c, Burning, fate)
  {
  }

  lemma FailureKeeps(s: State, c: ConnId, r: ConnId, fate: Fate)
    requires Handler(c) in s.threads && s.threads[Handler(c)] in {Deadline(r), Writing(r)}
    requires fate in {DeadlineFailed(r), WriteFailed(r)}
    requires Inv(s)
    ensures Inv(SpawnEvictor(Settle(s, c, fate), r))
  {
    hide Inv, Settles, Settle, SpawnEvictor;
    TargetHasKey(s, c);
    var s1 := Settle(s, c, fate);
    LastSettles(s, s1, c, fate);
    SettleKeeps(s, s1, c, Burning, fate);
    assert r in s1.registered by {
      assert Settles(s, s1, c, Burning, fate);
    }
    SpawnEvictorKeeps(s1, r);
  }

  lemma WriteOkKeeps(s: State, c: ConnId)
    requires RouteEnabled(s, c, WriteOk) && Inv(s)
    ensures Inv(RouteApply(s, c, WriteOk))
  {
    hide Inv, Settles;
    TargetHasKey(s, c);
    var s', fate := RouteApply(s, c, WriteOk), Delivered(s.threads[Handler(c)].recipient);
    LastSettles(s, s', c, fate);
    SettleKeeps(s, s', c, Burning, fate);
  }

  lemma MissSettles(s: State, c: ConnId)
    requires RouteEnabled(s, c, LookupMiss)
    ensures Settles(s, RouteApply(s, c, LookupMiss), c, LookupDone(None), NoRecipient)
  {
    assert RouteApply(s, c, LookupMiss).threads == s.threads[Handler(c) := LookupDone(None)];
  }

  lemma MissKeeps(s: State, c: ConnId)
    requires RouteEnabled(s, c, LookupMiss) && Inv(s)
    ensures Inv(RouteApply(s, c, LookupMiss))
  {
    hide Inv, Settles;
    MissSettles(s, c);
    SettleKeeps(s, RouteApply(s, c, LookupMiss), c, LookupDone(None), NoRecipient);
  }

  lemma DeadlineOkKeeps(s: State, c: ConnId)
    requires Inv(s) && RouteEnabled(s, c, DeadlineOk)
    ensures Inv(RouteApply(s, c, DeadlineOk))
  {
    hide Places, Locks, Keys, References, Table, Onces, Evictions, Done;
    hide NoOrphans, OldClosed, Buffering, Routing, Clocks;
    var pc := Writing(s.threads[Handler(c)].recipient);
    TargetHasKey(s, c);
    MoveLocks(s.threads, s.writer, s.readers, Handler(c), pc);
    Moved(s, RouteApply(s, c, DeadlineOk), Handler(c), pc);
  }

  lemma RouteKeeps(s: State, c: ConnId, step: RouteStep)
    requires Inv(s) && RouteEnabled(s, c, step)
    ensures Inv(RouteApply(s, c, step))
  {
    hide Inv;
    match step {
      case MarkAlive => MarkAliveKeeps(s, c);
      case LookupHit => FoundKeeps(s, c, Prefix(Buffer(s, c)));
      case LookupMiss => MissKeeps(s, c);
      case DeadlineOk => DeadlineOkKeeps(s, c);
      case DeadlineFails => 
        var r := s.threads[Handler(c)].recipient;
        FailureKeeps(s, c, r, DeadlineFailed(r));
      case WriteOk => WriteOkKeeps(s, c);
      case WriteFails => 
        var r := s.threads[Handler(c)].recipient;
        FailureKeeps(s, c, r, WriteFailed(r));
    }
  }

  // --- eviction ---

  /** A thread that evicts a peer: what is known about both. */
  lemma EvictingFacts(s: State, t: Tid)
    requires t in s.threads && s.threads[t].Evicting? && Inv(s)
    ensures Placed(t, s.threads[t]) && Refers(s.threads[t], s.registered) && EvictOk(s.threads[t], s.closed, s.table)
  {
  }

  lemma EvictedTable(s: State, p: ConnId)
    requires Table(s.table, s.hash, s.publicKey, s.registered, s.evicted)
    requires forall k <- s.table :: s.table[k] != p
    ensures Table(s.table, s.hash, s.publicKey, s.registered, s.evicted + {p})
  {
    forall k <- s.table
      ensures Under(s.table, s.hash, s.publicKey, k) && s.table[k] in s.registered && s.table[k] !in s.evicted + {p}
    {
      assert Under(s.table, s.hash, s.publicKey, k);
    }
  }

  lemma EvictedDone(s: State, t: Tid, p: ConnId, pc: Pc)
    requires Done(s.threads, s.publicKey, s.registered, s.closed, s.evicted)
    requires p in s.closed && p in s.registered && (t.Handler? ==> t.conn == p)
    ensures Done(s.threads[t := pc], s.publicKey, s.registered, s.closed, s.evicted + {p})
  {
    forall c <- s.publicKey | PhaseOf(s.threads[t := pc], c) == Gone
      ensures c in s.evicted + {p}
    {
      assert Handler(c) != t ==> PhaseOf(s.threads, c) == Gone;
    }
  }

  lemma EvictedKeys(s: State, t: Tid, p: ConnId, stage: EvictStage, k: Cont)
    requires Keys(s.threads, s.publicKey, s.registered, s.joining)
    requires t in s.threads && s.threads[t] == Evicting(p, stage, k) && Placed(t, s.threads[t])
    ensures Keys(s.threads[t := AfterEvict(k)], s.publicKey, s.registered, s.joining)
  {
    if t.Handler? {
      assert KeyState(PhaseOf(s.threads, p), p in s.publicKey, p in s.registered);
      assert p in s.joining <==> Waiting(s.threads, p);
      PhaseChange(s, s.(threads := s.threads[t := Ended]), p, Ended);
    } else {
      MoveKeys(s.threads, s.publicKey, s.registered, s.joining, t, AfterEvict(k));
    }
  }

  lemma EvictedPlaces(threads: map<Tid, Pc>, nextConn: nat, nextEvictor: nat, t: Tid, p: ConnId, stage: EvictStage,
                      k: Cont)
    requires Places(threads, nextConn, nextEvictor)
    requires t in threads && threads[t] == Evicting(p, stage, k) && Placed(t, threads[t])
    ensures Places(threads[t := AfterEvict(k)], nextConn, nextEvictor)
  {
    MovePlaces(threads, nextConn, nextEvictor, t, AfterEvict(k));
  }

  /** A thread leaves `evict(p)`, whose `once` has been run by it or by another. */
  lemma EvictEnds(s: State, s': State, t: Tid, p: ConnId, stage: EvictStage, k: Cont)
    requires t in s.threads && s.threads[t] == Evicting(p, stage, k) && stage in {Enter, Finish}
    requires s' == s.(threads := s.threads[t := AfterEvict(k)], running := s'.running, evicted := s.evicted + {p})
    requires stage.Enter? ==> p in s.evicted
    requires Onces(s'.threads, s'.running, s'.evicted)
    requires Inv(s)
    ensures Inv(s')
  {
    hide Places, Locks, Keys, References, Table, Onces, Evictions, Done;
    hide NoOrphans, OldClosed, Buffering, Routing, Clocks;
    EvictingFacts(s, t);
    EvictedFacts(s, p, stage, k);
    EvictedPlaces(s.threads, s.nextConn, s.nextEvictor, t, p, stage, k);
    MoveLocks(s.threads, s.writer, s.readers, t, AfterEvict(k));
    EvictedKeys(s, t, p, stage, k);
    MoveReferences(s.threads, s.registered, t, AfterEvict(k));
    EvictedTable(s, p);
    MoveEvictions(s.threads, s.closed, s.table, t, AfterEvict(k));
    EvictedDone(s, t, p, AfterEvict(k));
    MoveOrphans(s, s', t, AfterEvict(k));
    MoveHolds(s, s', t, AfterEvict(k));
    MoveRouting(s, s', t, AfterEvict(k));
    MoveClocks(s, s', t, AfterEvict(k));
  }

  lemma EvictedFacts(s: State, p: ConnId, stage: EvictStage, k: Cont)
    requires EvictOk(Evicting(p, stage, k), s.closed, s.table)
    requires stage in {Enter, Finish} && (stage.Enter? ==> p in s.evicted)
    requires Table(s.table, s.hash, s.publicKey, s.registered, s.evicted)
    requires Done(s.threads, s.publicKey, s.registered, s.closed, s.evicted)
    ensures p in s.closed && forall k <- s.table :: s.table[k] != p
  {
  }

  lemma SkipOnceKeeps(s: State, t: Tid)
    requires OnceEnabled(s, t, SkipOnce)
    requires Inv(s)
    ensures Inv(OnceApply(s, t, SkipOnce))
  {
    hide Places, Locks, Keys, References, Table, Onces, Evictions, Done;
    hide NoOrphans, OldClosed, Buffering, Routing, Clocks;
    var Evicting(p, stage, k) := s.threads[t];
    var s' := OnceApply(s, t, SkipOnce);
    MoveOnces(s.threads, s.running, s.evicted, t, AfterEvict(k));
    assert s.evicted + {p} == s.evicted;
    EvictEnds(s, s', t, p, stage, k);
  }

  lemma OnceLeft(threads: map<Tid, Pc>, running: map<ConnId, Tid>, evicted: set<ConnId>, t: Tid, p: ConnId, pc: Pc)
    requires Onces(threads, running, evicted)
    requires t in threads && OnceAt(threads[t]) == Some(p) && OnceAt(pc) == None
    ensures Onces(threads[t := pc], running - {p}, evicted + {p})
  {
  }

  lemma LeaveOnceKeeps(s: State, t: Tid)
    requires OnceEnabled(s, t, LeaveOnce)
    requires Inv(s)
    ensures Inv(OnceApply(s, t, LeaveOnce))
  {
    hide Places, Locks, Keys, References, Table, Onces, Evictions, Done;
    hide NoOrphans, OldClosed, Buffering, Routing, Clocks;
    var Evicting(p, stage, k) := s.threads[t];
    OnceLeft(s.threads, s.running, s.evicted, t, p, AfterEvict(k));
    EvictEnds(s, OnceApply(s, t, LeaveOnce), t, p, stage, k);
  }

  lemma OnceEntered(threads: map<Tid, Pc>, running: map<ConnId, Tid>, evicted: set<ConnId>, t: Tid, p: ConnId, pc: Pc)
    requires Onces(threads, running, evicted) && p !in running && p !in evicted
    requires t in threads && OnceAt(threads[t]) == None && OnceAt(pc) == Some(p)
    ensures Onces(threads[t := pc], running[p := t], evicted)
  {
  }

  /** What does not see an eviction enter its `once` or delete its entry. */
  lemma StageMoves(s: State, s': State, t: Tid, p: ConnId, stage: EvictStage, stage': EvictStage, k: Cont)
    requires t in s.threads && s.threads[t] == Evicting(p, stage, k)
    requires (stage, stage') in {(Enter, EvictStage.Close), (EvictStage.Delete, EvictStage.Release)}
    requires s' == s.(threads := s.threads[t := Evicting(p, stage', k)], running := s'.running, table := s'.table)
    requires Inv(s)
    ensures Places(s'.threads, s'.nextConn, s'.nextEvictor)
    ensures Locks(s'.threads, s'.writer, s'.readers)
    ensures Keys(s'.threads, s'.publicKey, s'.registered, s'.joining)
    ensures References(s'.threads, s'.registered)
    ensures Done(s'.threads, s'.publicKey, s'.registered, s'.closed, s'.evicted)
    ensures Buffering(s') && Routing(s') && Clocks(s')
  {
    hide Places, Locks, Keys, References, Table, Onces, Evictions, Done;
    hide NoOrphans, OldClosed, Buffering, Routing, Clocks;
    var pc := Evicting(p, stage', k);
    EvictingFacts(s, t);
    MovePlaces(s.threads, s.nextConn, s.nextEvictor, t, pc);
    MoveLocks(s.threads, s.writer, s.readers, t, pc);
    MoveKeys(s.threads, s.publicKey, s.registered, s.joining, t, pc);
    MoveReferences(s.threads, s.registered, t, pc);
    MoveDone(s.threads, s.publicKey, s.registered, s.closed, s.evicted, t, pc);
    MoveHolds(s, s', t, pc);
    MoveRouting(s, s', t, pc);
    MoveClocks(s, s', t, pc);
  }

  lemma EnterOnceKeeps(s: State, t: Tid)
    requires OnceEnabled(s, t, EnterOnce)
    requires Inv(s)
    ensures Inv(OnceApply(s, t, EnterOnce))
  {
    hide Places, Locks, Keys, References, Table, Onces, Evictions, Done;
    hide NoOrphans, OldClosed, Buffering, Routing, Clocks;
    var Evicting(p, _, k) := s.threads[t];
    var pc, s' := Evicting(p, EvictStage.Close, k), OnceApply(s, t, EnterOnce);
    StageMoves(s, s', t, p, Enter, EvictStage.Close, k);
    OnceEntered(s.threads, s.running, s.evicted, t, p, pc);
    MoveEvictions(s.threads, s.closed, s.table, t, pc);
    MoveOrphans(s, s', t, pc);
  }

  lemma CloseEvictedKeeps(s: State, t: Tid)
    requires OnceEnabled(s, t, CloseEvicted)
    requires Inv(s)
    ensures Inv(OnceApply(s, t, CloseEvicted))
  {
    hide Places, Locks, Keys, References, Table, Onces, Evictions, Done;
    hide NoOrphans, OldClosed, Buffering, Routing, Clocks;
    var Evicting(p, _, k) := s.threads[t];
    var s1 := s.(closed := s.closed + {p});
    CloseMore(s, {p});
    EvictingFacts(s1, t);
    StageSameView(s1, t, p, Close, Want, k);
    MoveLocks(s1.threads, s1.writer, s1.readers, t, Evicting(p, Want, k));
    Moved(s1, OnceApply(s, t, CloseEvicted), t, Evicting(p, Want, k));
  }

  /** Only the peer's own entry goes, and no other entry is the peer. */
  lemma RemovedEntries(s: State, p: ConnId, t: Tid, k: Cont)
    requires p in s.publicKey && p in s.closed
    requires Table(s.table, s.hash, s.publicKey, s.registered, s.evicted)
    requires Evictions(s.threads, s.closed, s.table)
    ensures var table := Removed(s.table, KeyOf(s, p), p);
      && (forall k <- table :: k in s.table && table[k] == s.table[k])
      && Table(table, s.hash, s.publicKey, s.registered, s.evicted)
      && Evictions(s.threads[t := Evicting(p, Release, k)], s.closed, table)
  {
    var table := Removed(s.table, KeyOf(s, p), p);
    forall k <- table
      ensures table[k] != p
      ensures Under(table, s.hash, s.publicKey, k) && table[k] in s.registered && table[k] !in s.evicted
    {
      assert Under(s.table, s.hash, s.publicKey, k);
    }
    var threads := s.threads[t := Evicting(p, Release, k)];
    forall u <- threads
      ensures EvictOk(threads[u], s.closed, table)
    {
      assert u != t ==> EvictOk(s.threads[u], s.closed, s.table);
    }
  }

  lemma RemovedOrphans(s: State, s': State, t: Tid, p: ConnId, k: Cont)
    requires NoOrphans(s) && OldClosed(s) && p in s.publicKey && p in s.closed
    requires s' == s.(threads := s.threads[t := Evicting(p, Release, k)], table := Removed(s.table, KeyOf(s, p), p))
    ensures NoOrphans(s') && OldClosed(s')
  {
    forall c: ConnId | c < s'.nextConn
      ensures Accounted(s', c)
    {
      assert Accounted(s, c);
    }
    forall c <- s'.publicKey | Superseding(s'.threads, c)
      ensures KeyOf(s', c) in s'.table ==> s'.table[KeyOf(s', c)] in s'.closed
    {
      assert Superseding(s.threads, c);
    }
  }

  lemma DeleteEntryKeeps(s: State, t: Tid)
    requires OnceEnabled(s, t, DeleteEntry)
    requires Inv(s)
    ensures Inv(OnceApply(s, t, DeleteEntry))
  {
    hide Places, Locks, Keys, References, Table, Onces, Evictions, Done;
    hide NoOrphans, OldClosed, Buffering, Routing, Clocks;
    var Evicting(p, _, k) := s.threads[t];
    var s' := OnceApply(s, t, DeleteEntry);
    EvictingFacts(s, t);
    StageMoves(s, s', t, p, EvictStage.Delete, EvictStage.Release, k);
    RemovedEntries(s, p, t, k);
    RemovedOrphans(s, s', t, p, k);
    MoveOnces(s.threads, s.running, s.evicted, t, Evicting(p, EvictStage.Release, k));
  }

  lemma OnceKeeps(s: State, t: Tid, step: OnceStep)
    requires OnceEnabled(s, t, step) && Inv(s)
    ensures Inv(OnceApply(s, t, step))
  {
    hide Inv;
    match step {
      case EnterOnce => EnterOnceKeeps(s, t);
      case SkipOnce => SkipOnceKeeps(s, t);
      case CloseEvicted => CloseEvictedKeeps(s, t);
      case DeleteEntry => DeleteEntryKeeps(s, t);
      case LeaveOnce => LeaveOnceKeeps(s, t);
    }
  }

  // --- sweepStale and Stop ---

  lemma SweeperFacts(s: State)
    requires Sweeper in s.threads && Inv(s)
    ensures Placed(Sweeper, s.threads[Sweeper]) && Refers(s.threads[Sweeper], s.registered)
  {
  }

  lemma SweepRefers(s: State, step: SweepStep)
    requires SweepEnabled(s, step) && Refers(s.threads[Sweeper], s.registered)
    ensures Refers(SweepApply(s, step).threads[Sweeper], s.registered)
  {
  }

  lemma SweepKinds(s: State, step: SweepStep)
    requires SweepEnabled(s, step)
    ensures var pc, pc' := s.threads[Sweeper], SweepApply(s, step).threads[Sweeper];
      && (pc.SweepIdle? || pc.SweepScan? || pc.SweepNext?) && (pc.SweepScan? <==> pc'.SweepScan?)
      && (pc'.SweepIdle? || pc'.SweepWant? || pc'.SweepScan? || pc'.Ended?
          || (pc'.Evicting? && pc'.stage.Enter? && pc'.cont.ThenSweep?))
  {
    hide LastAlive;
  }

  lemma SweepPlaces(s: State, step: SweepStep)
    requires SweepEnabled(s, step)
    ensures var pc, pc' := s.threads[Sweeper], SweepApply(s, step).threads[Sweeper];
      && Placed(Sweeper, pc') && OnceAt(pc) == OnceAt(pc') == None && RoleAt(pc') == RoleAt(pc)
      && (pc'.Evicting? ==> pc'.stage.Enter?)
  {
    SweepKinds(s, step);
    hide SweepApply;
  }

  lemma SweepSameView(s: State, step: SweepStep)
    requires SweepEnabled(s, step) && Refers(s.threads[Sweeper], s.registered)
    ensures SameView(s, Sweeper, SweepApply(s, step).threads[Sweeper])
    ensures RoleAt(SweepApply(s, step).threads[Sweeper]) == RoleAt(s.threads[Sweeper])
  {
    SweepRefers(s, step);
    SweepPlaces(s, step);
    hide SweepApply, Placed, Refers, OnceAt, RoleAt;
  }

  lemma SweepKeeps(s: State, step: SweepStep)
    requires SweepEnabled(s, step) && Inv(s)
    ensures Inv(SweepApply(s, step))
  {
    hide Places, Locks, Keys, References, Table, Onces, Evictions, Done;
    hide NoOrphans, OldClosed, Buffering, Routing, Clocks;
    hide SameView;
    var s' := SweepApply(s, step);
    SweeperFacts(s);
    SweepSameView(s, step);
    MoveLocks(s.threads, s.writer, s.readers, Sweeper, s'.threads[Sweeper]);
    Moved(s, s', Sweeper, s'.threads[Sweeper]);
  }

  lemma StartStopKeeps(s: State)
    requires StopEnabled(s, StartStop) && Inv(s)
    ensures Inv(StopApply(s, StartStop))
  {
    hide Places, Locks, Keys, References, Table, Onces, Evictions, Done;
    hide NoOrphans, OldClosed, Buffering, Routing, Clocks;
    StopperFacts(s);
    MoveLocks(s.threads, s.writer, s.readers, Stopper, StopListener);
    Moved(s, StopApply(s, StartStop), Stopper, StopListener);
  }

  lemma CloseListenerKeeps(s: State)
    requires StopEnabled(s, CloseListener) && Inv(s)
    ensures Inv(StopApply(s, CloseListener))
  {
    hide Places, Locks, Keys, References, Table, Onces, Evictions, Done;
    hide NoOrphans, OldClosed, Buffering, Routing, Clocks;
    StopperFacts(s);
    MoveLocks(s.threads, s.writer, s.readers, Stopper, StopWant);
    Moved(s, StopApply(s, CloseListener), Stopper, StopWant);
  }

  lemma CloseOneKeeps(s: State, p: ConnId)
    requires StopEnabled(s, CloseOne(p)) && Inv(s)
    ensures Inv(StopApply(s, CloseOne(p)))
  {
    hide Places, Locks, Keys, References, Table, Onces, Evictions, Done;
    hide NoOrphans, OldClosed, Buffering, Routing, Clocks;
    var s1, s' := s.(closed := s.closed + {p}), StopApply(s, CloseOne(p));
    StopperFacts(s);
    CloseMore(s, {p});
    MoveLocks(s.threads, s.writer, s.readers, Stopper, s'.threads[Stopper]);
    Moved(s1, s', Stopper, s'.threads[Stopper]);
  }

  lemma StopKeeps(s: State, step: StopStep)
    requires StopEnabled(s, step) && Inv(s)
    ensures Inv(StopApply(s, step))
  {
    hide Inv;
    match step {
      case StartStop => StartStopKeeps(s);
      case CloseListener => CloseListenerKeeps(s);
      case CloseOne(p) => CloseOneKeeps(s, p);
    }
  }

  lemma StopperFacts(s: State)
    requires Stopper in s.threads && Inv(s)
    ensures Placed(Stopper, s.threads[Stopper]) && Refers(s.threads[Stopper], s.registered)
  {
  }

  // --- every step, every run ---

  lemma StepKeeps(s: State, a: Action)
    requires Enabled(s, a) && Inv(s)
    ensures Inv(Apply(s, a))
  {
    hide Inv;
    match a {
      case World(step) => WorldKeeps(s, step);
      case Lock(t, step) => LockKeeps(s, t, step);
      case Accepts(step) => AcceptKeeps(s, step);
      case Joins(c, step) => JoinKeeps(s, c, step);
      case Buffers(c, step) => BufferKeeps(s, c, step);
      case Routes(c, step) => RouteKeeps(s, c, step);
      case Evicts(t, step) => OnceKeeps(s, t, step);
      case Sweeps(step) => SweepKeeps(s, step);
      case Stops(step) => StopKeeps(s, step);
    }
  }

  lemma InitThreads(threads: map<Tid, Pc>)
    requires threads == map[Acceptor := Accepting, Sweeper := SweepIdle, Stopper := StopIdle]
    ensures Places(threads, 0, 0)
    ensures Locks(threads, None, {})
    ensures Keys(threads, map[], {}, {})
    ensures References(threads, {})
    ensures Onces(threads, map[], {})
    ensures Evictions(threads, {}, map[])
  {
    forall t <- threads
      ensures t in {Acceptor, Sweeper, Stopper} && RoleAt(threads[t]).Free? && OnceAt(threads[t]).None?
    {
    }
    forall c: ConnId
      ensures PhaseOf(threads, c).Absent? && !Waiting(threads, c)
    {
      assert Handler(c) !in threads;
    }
  }

  lemma InitRecords(s: State)
    requires s == Init(s.hash)
    ensures Table(s.table, s.hash, s.publicKey, s.registered, s.evicted)
    ensures Done(s.threads, s.publicKey, s.registered, s.closed, s.evicted)
    ensures NoOrphans(s) && OldClosed(s) && Buffering(s) && Routing(s) && Clocks(s)
  {
    forall c: ConnId
      ensures Holds(s, c, HoldOf(s.threads, c)) && Noted(s, c) && FatesOk(s, c) && TargetOk(s, c)
    {
    }
    forall c: ConnId, r: ConnId
      ensures Matches(s, c, r)
    {
    }
  }

  lemma InitInv(hash: Key -> Key)
    ensures Inv(Init(hash))
  {
    hide Places, Locks, Keys, References, Table, Onces, Evictions, Done;
    hide NoOrphans, OldClosed, Buffering, Routing, Clocks;
    InitThreads(Init(hash).threads);
    InitRecords(Init(hash));
  }

  lemma {:induction false} RunKeeps(s: State, actions: seq<Action>)
    requires Inv(s) && Run(s, actions).Some?
    ensures Inv(Run(s, actions).value)
  {
    hide Inv, Enabled, Apply;
    if actions != [] {
      RunKeeps(s, actions[..|actions| - 1]);
      StepKeeps(Run(s, actions[..|actions| - 1]).value, actions[|actions| - 1]);
    }
  }
}
