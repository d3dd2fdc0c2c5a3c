/**
 What holds in every state of the relay. Each part speaks only of the fields it needs, so that a step
 which leaves those alone keeps it; the `Move` lemmas cover a thread that moves on without changing
 what a part sees of it.
 */
module RelayInvariants {
  import opened Bytes
  import opened Protocol
  import opened RelayMachine

  // --- which thread can be where ---

  /** The connection that the accept loop has in hand and no handler has yet. */
  function IncomingAt(pc: Pc): Option<ConnId> {
    match pc
    case FullWant(c) => Some(c)
    case FullTest(c) => Some(c)
    case FullTested(c, _) => Some(c)
    case Verdict(c, _) => Some(c)
    case _ => None
  }

  /** How far the handler of a connection is: before and after the handshake, in the table, finished. */
  datatype Phase = Absent | Unknown | Joining | Live | Gone

  function PhaseAt(pc: Pc): Phase {
    match pc
    case Handshaking => Unknown
    case Rejecting => Unknown
    case RegWant => Joining
    case RegWait => Joining
    case RegClose => Joining
    case RegStore => Joining
    case Ended => Gone
    case _ => Live
  }

  /** What a handler's buffer holds: nothing to see, a frame to route, or leftovers. */
  datatype Hold = NoBuffer | Clean | Frame | Dirty

  function HoldAt(pc: Pc): Hold {
    match pc
    case LoopHead => Clean
    case PuttingBack => Clean
    case Received => Frame
    case LookupWant => Frame
    case LookupTest => Frame
    case LookupDone(found) => if found.Some? then Frame else Dirty
    case Deadline(_) => Frame
    case Writing(_) => Frame
    case Burning => Dirty
    case Leaving => Dirty
    case _ => NoBuffer
  }

  /** The peer whose `once` a thread is inside of. */
  function OnceAt(pc: Pc): Option<ConnId> {
    if pc.Evicting? && !pc.stage.Enter? then Some(pc.peer) else None
  }

  predicate Placed(t: Tid, pc: Pc) {
    match t
    case Acceptor => pc.Accepting? || IncomingAt(pc).Some? || pc.Ended?
    case Handler(c) =>
      || PhaseAt(pc) in {Unknown, Phase.Joining, Gone} || pc.RegUnlock? || pc.GetBuffer? || !HoldAt(pc).NoBuffer?
      || (pc.Evicting? && pc.peer == c && pc.cont.ThenEnd?)
    case Sweeper =>
      || pc.SweepIdle? || pc.SweepWant? || pc.SweepScan? || pc.SweepNext? || pc.Ended?
      || (pc.Evicting? && pc.cont.ThenSweep?)
    case Evictor(_) => pc.Ended? || (pc.Evicting? && pc.cont.ThenEnd?)
    case Stopper => pc.StopIdle? || pc.StopListener? || pc.StopWant? || pc.StopWait? || pc.StopClose? || pc.Ended?
  }

  predicate Numbered(t: Tid, nextConn: nat, nextEvictor: nat) {
    (t.Handler? ==> t.conn < nextConn) && (t.Evictor? ==> t.n < nextEvictor)
  }

  function Incoming(threads: map<Tid, Pc>): Option<ConnId> {
    if Acceptor in threads then IncomingAt(threads[Acceptor]) else None
  }

  ghost predicate Places(threads: map<Tid, Pc>, nextConn: nat, nextEvictor: nat) {
    && Acceptor in threads && Sweeper in threads && Stopper in threads
    && (forall t <- threads :: Placed(t, threads[t]) && Numbered(t, nextConn, nextEvictor))
    && (Incoming(threads).Some? ==>
          Incoming(threads).value + 1 == nextConn && Handler(Incoming(threads).value) !in threads)
  }

  lemma MovePlaces(threads: map<Tid, Pc>, nextConn: nat, nextEvictor: nat, t: Tid, pc: Pc)
    requires Places(threads, nextConn, nextEvictor) && t in threads && Placed(t, pc)
    requires t == Acceptor ==> IncomingAt(pc) in {None, IncomingAt(threads[t])}
    ensures Places(threads[t := pc], nextConn, nextEvictor)
  {
  }

  // --- the lock ---

  /** The lock agrees with the program counters, and a writer inside excludes readers. */
  ghost predicate Locks(threads: map<Tid, Pc>, writer: Option<Tid>, readers: set<Tid>) {
    && (forall t <- threads :: RoleAt(threads[t]) in {Announced, Writes} <==> writer == Some(t))
    && (forall t <- threads :: RoleAt(threads[t]) == Reading <==> t in readers)
    && (writer.Some? ==> writer.value in threads)
    && (forall t <- readers :: t in threads)
    && (forall t <- threads :: RoleAt(threads[t]) == Writes ==> readers == {})
  }

  lemma MoveLocks(threads: map<Tid, Pc>, writer: Option<Tid>, readers: set<Tid>, t: Tid, pc: Pc)
    requires Locks(threads, writer, readers)
    requires RoleAt(pc) == if t in threads then RoleAt(threads[t]) else Free
    ensures Locks(threads[t := pc], writer, readers)
  {
  }

  // --- keys and registration ---

  function PhaseOf(threads: map<Tid, Pc>, c: ConnId): Phase {
    if Handler(c) in threads then PhaseAt(threads[Handler(c)]) else Absent
  }

  predicate KeyState(phase: Phase, hasKey: bool, isRegistered: bool) {
    match phase
    case Absent => !hasKey && !isRegistered
    case Unknown => !hasKey && !isRegistered
    case Joining => hasKey && !isRegistered
    case Live => hasKey && isRegistered
    case Gone => hasKey == isRegistered
  }

  predicate Waiting(threads: map<Tid, Pc>, c: ConnId) {
    PhaseOf(threads, c) in {Unknown, Phase.Joining} || (PhaseOf(threads, c) == Absent && Incoming(threads) == Some(c))
  }

  /** The bookkeeping sets mean what they say. */
  ghost predicate Keys(threads: map<Tid, Pc>, publicKey: map<ConnId, Key>, registered: set<ConnId>,
                       joining: set<ConnId>)
  {
    && (forall c: ConnId :: KeyState(PhaseOf(threads, c), c in publicKey, c in registered))
    && (forall c: ConnId :: c in joining <==> Waiting(threads, c))
  }

  lemma MoveKeys(threads: map<Tid, Pc>, publicKey: map<ConnId, Key>, registered: set<ConnId>, joining: set<ConnId>,
                 t: Tid, pc: Pc)
    requires Keys(threads, publicKey, registered, joining)
    requires t.Handler? ==> t in threads && PhaseAt(pc) == PhaseAt(threads[t])
    requires t == Acceptor ==> t in threads && IncomingAt(pc) == IncomingAt(threads[t])
    ensures Keys(threads[t := pc], publicKey, registered, joining)
  {
    var threads' := threads[t := pc];
    assert Incoming(threads') == Incoming(threads);
    forall c: ConnId
      ensures PhaseOf(threads', c) == PhaseOf(threads, c)
    {
    }
  }

  // --- references ---

  /** A thread refers only to peers that have been in the table. */
  ghost predicate Refers(pc: Pc, registered: set<ConnId>) {
    match pc
    case LookupDone(found) => found.Some? ==> found.value in registered
    case Deadline(r) => r in registered
    case Writing(r) => r in registered
    case Evicting(p, _, k) => p in registered && (k.ThenSweep? ==> forall q <- k.rest :: q in registered)
    case SweepScan(_, todo, stale, seen) => todo <= registered && forall q <- stale :: q in registered
    case SweepNext(_, stale, seen) => forall q <- stale :: q in registered
    case StopClose(todo) => todo <= registered
    case _ => true
  }

  ghost predicate References(threads: map<Tid, Pc>, registered: set<ConnId>) {
    forall t <- threads :: Refers(threads[t], registered)
  }

  lemma MoveReferences(threads: map<Tid, Pc>, registered: set<ConnId>, t: Tid, pc: Pc)
    requires References(threads, registered) && Refers(pc, registered)
    ensures References(threads[t := pc], registered)
  {
  }

  lemma MoreRegistered(threads: map<Tid, Pc>, registered: set<ConnId>, more: set<ConnId>)
    requires References(threads, registered)
    ensures References(threads, registered + more)
  {
    forall t <- threads
      ensures Refers(threads[t], registered + more)
    {
      assert Refers(threads[t], registered);
    }
  }

  predicate Under(table: map<Key, ConnId>, hash: Key -> Key, publicKey: map<ConnId, Key>, k: Key)
    requires k in table
  {
    table[k] in publicKey && hash(publicKey[table[k]]) == k
  }

  /** Every table entry is a registered peer under its own key, whose eviction is not complete. */
  ghost predicate Table(table: map<Key, ConnId>, hash: Key -> Key, publicKey: map<ConnId, Key>,
                        registered: set<ConnId>, evicted: set<ConnId>) {
    forall k <- table :: Under(table, hash, publicKey, k) && table[k] in registered && table[k] !in evicted
  }

  // --- eviction ---

  /** Each `once` is run by the one thread that is inside of it. */
  ghost predicate Onces(threads: map<Tid, Pc>, running: map<ConnId, Tid>, evicted: set<ConnId>) {
    && (forall p <- running :: p !in evicted && running[p] in threads && OnceAt(threads[running[p]]) == Some(p))
    && (forall t <- threads :: OnceAt(threads[t]).Some? ==>
          OnceAt(threads[t]).value in running && running[OnceAt(threads[t]).value] == t)
  }

  lemma MoveOnces(threads: map<Tid, Pc>, running: map<ConnId, Tid>, evicted: set<ConnId>, t: Tid, pc: Pc)
    requires Onces(threads, running, evicted)
    requires OnceAt(pc) == if t in threads then OnceAt(threads[t]) else None
    ensures Onces(threads[t := pc], running, evicted)
  {
  }

  /** Inside its `once` a peer is closed after the first stage and out of the table after the delete. */
  ghost predicate EvictOk(pc: Pc, closed: set<ConnId>, table: map<Key, ConnId>) {
    pc.Evicting? ==>
      && (pc.stage in {Want, Wait, Delete, Release, Finish} ==> pc.peer in closed)
      && (pc.stage in {Release, Finish} ==> forall k <- table :: table[k] != pc.peer)
  }

  ghost predicate Evictions(threads: map<Tid, Pc>, closed: set<ConnId>, table: map<Key, ConnId>) {
    forall t <- threads :: EvictOk(threads[t], closed, table)
  }

  lemma MoveEvictions(threads: map<Tid, Pc>, closed: set<ConnId>, table: map<Key, ConnId>, t: Tid, pc: Pc)
    requires Evictions(threads, closed, table) && EvictOk(pc, closed, table)
    ensures Evictions(threads[t := pc], closed, table)
  {
  }

  lemma MoreClosed(threads: map<Tid, Pc>, closed: set<ConnId>, more: set<ConnId>, table: map<Key, ConnId>)
    requires Evictions(threads, closed, table)
    ensures Evictions(threads, closed + more, table)
  {
    forall t <- threads
      ensures EvictOk(threads[t], closed + more, table)
    {
      assert EvictOk(threads[t], closed, table);
    }
  }

  /** A completed eviction, and with it every finished handler of a peer. */
  ghost predicate Done(threads: map<Tid, Pc>, publicKey: map<ConnId, Key>, registered: set<ConnId>,
                       closed: set<ConnId>, evicted: set<ConnId>) {
    && evicted <= closed && evicted <= registered
    && forall c <- publicKey :: PhaseOf(threads, c) == Gone ==> c in evicted
  }

  // --- no orphans ---

  predicate InTable(table: map<Key, ConnId>, hash: Key -> Key, publicKey: map<ConnId, Key>, c: ConnId) {
    c in publicKey && hash(publicKey[c]) in table && table[hash(publicKey[c])] == c
  }

  predicate Accounted(s: State, c: ConnId) {
    c in s.closed || c in s.joining || InTable(s.table, s.hash, s.publicKey, c)
  }

  /** Every accepted connection is on its way into the table, in it under its own key, or closed. */
  ghost predicate NoOrphans(s: State) {
    forall c: ConnId :: c < s.nextConn ==> Accounted(s, c)
  }

  predicate Superseding(threads: map<Tid, Pc>, c: ConnId) {
    Handler(c) in threads && threads[Handler(c)].RegStore?
  }

  /** A peer about to be replaced is closed already. */
  ghost predicate OldClosed(s: State) {
    forall c <- s.publicKey :: Superseding(s.threads, c) ==>
      (KeyOf(s, c) in s.table ==> s.table[KeyOf(s, c)] in s.closed)
  }

  // --- buffers ---

  function HoldOf(threads: map<Tid, Pc>, c: ConnId): Hold {
    if Handler(c) in threads then HoldAt(threads[Handler(c)]) else NoBuffer
  }

  predicate Holds(s: State, c: ConnId, hold: Hold) {
    && (hold.NoBuffer? <==> c !in s.held)
    && (!hold.NoBuffer? ==> HasBuffer(s, c))
    && (hold.Clean? ==> Buffer(s, c) == Zeros(FRAME_SIZE))
    && (hold.Frame? ==> |Fates(s, c)| < |Sent(s, c)| && Buffer(s, c) == Sent(s, c)[|Fates(s, c)|])
  }

  ghost predicate Buffering(s: State) {
    && (forall b <- s.buffers :: b < s.nextBuffer)
    && (forall b <- s.pool :: b in s.buffers && s.buffers[b] == Zeros(FRAME_SIZE))
    && (forall c <- s.held :: s.held[c] !in s.pool)
    && (forall c, c' :: c in s.held && c' in s.held && s.held[c] == s.held[c'] ==> c == c')
    && (forall c: ConnId :: Holds(s, c, HoldOf(s.threads, c)))
  }

  // --- routing ---

  /** The deliveries to `r` that the fates of `c`'s frames account for, in the order of the frames. */
  function Routed(sent: seq<Frame>, fates: seq<Fate>, c: ConnId, r: ConnId): seq<Delivery>
    requires |fates| <= |sent|
  {
    if fates == [] then []
    else
      var n := |fates| - 1;
      Routed(sent, fates[..n], c, r) + if fates[n] == Delivered(r) then [Delivery(c, n, Packet(sent[n]))] else []
  }

  /** The deliveries in a log that come from `c`. */
  function From(log: seq<Delivery>, c: ConnId): seq<Delivery> {
    if log == [] then []
    else
      var n := |log| - 1;
      From(log[..n], c) + if log[n].from == c then [log[n]] else []
  }

  predicate Matches(s: State, c: ConnId, r: ConnId) {
    |Fates(s, c)| <= |Sent(s, c)| && From(DeliveredTo(s, r), c) == Routed(Sent(s, c), Fates(s, c), c, r)
  }

  predicate HasKey(s: State, r: ConnId, k: Key) {
    r in s.registered && r in s.publicKey && KeyOf(s, r) == k
  }

  /** Whoever a frame was for, if it was for anyone, has the key in front of it. */
  predicate FateOk(s: State, frame: Frame, fate: Fate) {
    fate.NoRecipient? || HasKey(s, fate.recipient, Prefix(frame))
  }

  ghost predicate FatesOk(s: State, c: ConnId) {
    forall i :: 0 <= i < |Fates(s, c)| && i < |Sent(s, c)| ==> FateOk(s, Sent(s, c)[i], Fates(s, c)[i])
  }

  /** The same for a frame that is still being routed. */
  predicate TargetOk(s: State, c: ConnId) {
    Handler(c) in s.threads && |Fates(s, c)| < |Sent(s, c)| ==>
      var pc, k := s.threads[Handler(c)], Prefix(Sent(s, c)[|Fates(s, c)|]);
      && (pc.LookupDone? && pc.found.Some? ==> HasKey(s, pc.found.value, k))
      && (pc.Deadline? || pc.Writing? ==> HasKey(s, pc.recipient, k))
  }

  ghost predicate Routing(s: State) {
    && (forall c: ConnId, r: ConnId :: Matches(s, c, r))
    && (forall c: ConnId :: FatesOk(s, c))
    && (forall c: ConnId :: TargetOk(s, c))
  }

  // --- heartbeats ---

  /** The relay notes an arrival before the handler goes on, and never ahead of the clock. */
  predicate Noted(s: State, c: ConnId) {
    && LastAlive(s, c) <= s.clock && Heard(s, c) <= s.clock
    && (Heard(s, c) <= LastAlive(s, c) || (Handler(c) in s.threads && s.threads[Handler(c)].Received?))
  }

  ghost predicate Clocks(s: State) {
    forall c: ConnId :: Noted(s, c)
  }

  ghost predicate Inv(s: State) {
    && Places(s.threads, s.nextConn, s.nextEvictor)
    && Locks(s.threads, s.writer, s.readers)
    && Keys(s.threads, s.publicKey, s.registered, s.joining)
    && References(s.threads, s.registered)
    && Table(s.table, s.hash, s.publicKey, s.registered, s.evicted)
    && Onces(s.threads, s.running, s.evicted)
    && Evictions(s.threads, s.closed, s.table)
    && Done(s.threads, s.publicKey, s.registered, s.closed, s.evicted)
    && NoOrphans(s)
    && OldClosed(s)
    && Buffering(s)
    && Routing(s)
    && Clocks(s)
  }
}
