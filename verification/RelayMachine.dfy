/**
 The Blind Relay as a machine of interleaved steps: one accept loop, one handler per connection, the
 sweeper, the goroutines started by `go s.evict(...)`, and `Stop`. They share the routing table under a
 read/write lock and one `sync.Once` per peer. A peer is named by the number of its connection.

 Acquiring and releasing a lock, closing a connection, each access to the table, each write and each
 clearing of a buffer are steps of their own. A writer first announces itself, which holds back new
 readers, and then waits for the readers inside; that is how `sync.RWMutex` behaves.
 */
module RelayMachine {
  import opened Bytes
  import opened Protocol

  const MAX_PEERS := 2048
  const HEARTBEAT_TIMEOUT := 45
  const HASH_SIZE := 32
  const FRAME_SIZE := 4128

  type ConnId = nat

  type Frame = f: seq<byte> | |f| == FRAME_SIZE witness Zeros(FRAME_SIZE)

  datatype Tid = Acceptor | Handler(conn: ConnId) | Sweeper | Evictor(n: nat) | Stopper

  /** Where `evict(p)` stands: before `once.Do`, and then inside it. */
  datatype EvictStage = Enter | Close | Want | Wait | Delete | Release | Finish

  /** What follows an eviction: the goroutine ends, or the sweep goes on with the remaining stale peers. */
  datatype Cont = ThenEnd | ThenSweep(now: nat, rest: seq<ConnId>, seen: set<ConnId>)

  /** Program counters, with the local variables that are live there. */
  datatype Pc =
    // Run: accept, isFull, spawn
    | Accepting
    | FullWant(incoming: ConnId)
    | FullTest(incoming: ConnId)
    | FullTested(incoming: ConnId, full: bool)
    | Verdict(incoming: ConnId, full: bool)
    // handleConn and register
    | Handshaking
    | Rejecting
    | RegWant
    | RegWait
    | RegClose
    | RegStore
    | RegUnlock
    // relayLoop
    | GetBuffer
    | LoopHead
    | Received
    | LookupWant
    | LookupTest
    | LookupDone(found: Option<ConnId>)
    | Deadline(recipient: ConnId)
    | Writing(recipient: ConnId)
    | Burning
    | Leaving
    | PuttingBack
    // evict
    | Evicting(peer: ConnId, stage: EvictStage, cont: Cont)
    // sweepLoop and sweepStale
    | SweepIdle
    | SweepWant(now: nat)
    | SweepScan(now: nat, todo: set<ConnId>, stale: seq<ConnId>, seen: set<ConnId>)
    | SweepNext(now: nat, stale: seq<ConnId>, seen: set<ConnId>)
    // Stop
    | StopIdle
    | StopListener
    | StopWant
    | StopWait
    | StopClose(todo: set<ConnId>)
    | Ended

  /** What became of a frame that a handler read. */
  datatype Fate =
    | NoRecipient
    | DeadlineFailed(recipient: ConnId)
    | WriteFailed(recipient: ConnId)
    | Delivered(recipient: ConnId)

  /** A packet written to a connection, with the frame it came from. */
  datatype Delivery = Delivery(from: ConnId, index: nat, packet: seq<byte>)

  /**
   The relay. Three sets are bookkeeping: `registered` are the peers that have been stored in the table,
   `joining` the connections that were accepted and then neither stored nor turned away, and `admitted`
   those of them that passed the `isFull` check and have not failed their handshake.
   */
  datatype State = State(
    hash: Key -> Key,
    clock: nat,
    stopping: bool,
    listening: bool,
    nextConn: nat,
    nextEvictor: nat,
    nextBuffer: nat,
    threads: map<Tid, Pc>,
    writer: Option<Tid>,
    readers: set<Tid>,
    table: map<Key, ConnId>,
    publicKey: map<ConnId, Key>,
    registered: set<ConnId>,
    joining: set<ConnId>,
    admitted: set<ConnId>,
    closed: set<ConnId>,
    running: map<ConnId, Tid>,
    evicted: set<ConnId>,
    lastAlive: map<ConnId, nat>,
    heard: map<ConnId, nat>,
    sent: map<ConnId, seq<Frame>>,
    fates: map<ConnId, seq<Fate>>,
    delivered: map<ConnId, seq<Delivery>>,
    buffers: map<nat, seq<byte>>,
    pool: set<nat>,
    held: map<ConnId, nat>
  )

  function Init(hash: Key -> Key): State {
    State(hash, 0, false, true, 0, 0, 0,
          map[Acceptor := Accepting, Sweeper := SweepIdle, Stopper := StopIdle],
          None, {}, map[], map[], {}, {}, {}, {}, map[], {}, map[], map[], map[], map[], map[], map[], {}, map[])
  }

  /** The table key of a peer: the digest of the public key it presented. */
  function KeyOf(s: State, c: ConnId): Key
    requires c in s.publicKey
  {
    s.hash(s.publicKey[c])
  }

  function At<V>(m: map<ConnId, V>, c: ConnId, default: V): V {
    if c in m then m[c] else default
  }

  function Sent(s: State, c: ConnId): seq<Frame> { At(s.sent, c, []) }

  function Fates(s: State, c: ConnId): seq<Fate> { At(s.fates, c, []) }

  function DeliveredTo(s: State, c: ConnId): seq<Delivery> { At(s.delivered, c, []) }

  function LastAlive(s: State, c: ConnId): nat { At(s.lastAlive, c, 0) }

  function Heard(s: State, c: ConnId): nat { At(s.heard, c, 0) }

  // --- the lock ---

  /** What a thread has to do with the lock; an announced writer still waits for the readers inside. */
  datatype Role = Free | Reading | Announced | Writes

  function RoleAt(pc: Pc): Role {
    match pc
    case FullTest(_) => Reading
    case FullTested(_, _) => Reading
    case LookupTest => Reading
    case LookupDone(_) => Reading
    case SweepScan(_, _, _, _) => Reading
    case RegWait => Announced
    case StopWait => Announced
    case RegClose => Writes
    case RegStore => Writes
    case RegUnlock => Writes
    case StopClose(_) => Writes
    case Evicting(_, stage, _) =>
      if stage.Wait? then Announced else if stage.Delete? || stage.Release? then Writes else Free
    case _ => Free
  }

  predicate WantsRead(pc: Pc) {
    pc.FullWant? || pc.LookupWant? || pc.SweepWant?
  }

  predicate WantsWrite(pc: Pc) {
    pc.RegWant? || (pc.Evicting? && pc.stage.Want?) || pc.StopWant?
  }

  function AfterReadLock(s: State, pc: Pc): Pc
    requires WantsRead(pc)
  {
    match pc
    case FullWant(c) => FullTest(c)
    case LookupWant => LookupTest
    case SweepWant(now) => SweepScan(now, s.table.Values, [], s.table.Values)
  }

  /** The last point of a read-locked section. */
  predicate ReadsDone(pc: Pc) {
    pc.FullTested? || pc.LookupDone? || (pc.SweepScan? && pc.todo == {})
  }

  function AfterReadUnlock(pc: Pc): Pc
    requires ReadsDone(pc)
  {
    match pc
    case FullTested(c, full) => Verdict(c, full)
    case LookupDone(found) => if found.Some? then Deadline(found.value) else Burning
    case SweepScan(now, _, stale, seen) => SweepNext(now, stale, seen)
  }

  function AfterAnnounce(pc: Pc): Pc
    requires WantsWrite(pc)
  {
    match pc
    case RegWant => RegWait
    case Evicting(p, _, k) => Evicting(p, Wait, k)
    case StopWant => StopWait
  }

  function AfterAcquire(s: State, pc: Pc): Pc
    requires RoleAt(pc).Announced?
  {
    match pc
    case RegWait => RegClose
    case Evicting(p, _, k) => Evicting(p, Delete, k)
    case StopWait => StopClose(s.table.Values)
  }

  /** The last point of a write-locked section. */
  predicate WritesDone(pc: Pc) {
    pc.RegUnlock? || (pc.Evicting? && pc.stage.Release?) || (pc.StopClose? && pc.todo == {})
  }

  function AfterUnlock(pc: Pc): Pc
    requires WritesDone(pc)
  {
    match pc
    case RegUnlock => GetBuffer
    case Evicting(p, _, k) => Evicting(p, Finish, k)
    case StopClose(_) => Ended
  }

  function AfterEvict(k: Cont): Pc {
    match k
    case ThenEnd => Ended
    case ThenSweep(now, rest, seen) => SweepNext(now, rest, seen)
  }

  // --- steps ---

  /** The world outside: time, clients that send frames, the collector that empties the pool. */
  datatype WorldStep = Tick | ClientSends(conn: ConnId, frame: Frame) | DropPooled(buffer: nat)

  datatype LockStep = ReadLock | ReadUnlock | Announce | Acquire | Unlock

  datatype AcceptStep = Accept | TestFull | CloseSurplus | Spawn | Return

  /** Handshake and registration. */
  datatype JoinStep = HandshakeOk(hello: seq<byte>) | HandshakeFails | CloseRejected | CloseOld | Store

  datatype BufferStep =
    | ReuseBuffer(buffer: nat)
    | NewBuffer
    | ReadFrame
    | ReadFails(part: seq<byte>)
    | Burn
    | ClearBuffer
    | PutBack

  datatype RouteStep = MarkAlive | LookupHit | LookupMiss | DeadlineOk | DeadlineFails | WriteOk | WriteFails

  /** `once.Do`: the first caller runs the body, later ones return once it is complete. */
  datatype OnceStep = EnterOnce | SkipOnce | CloseEvicted | DeleteEntry | LeaveOnce

  datatype SweepStep = StartSweep | ScanPeer(peer: ConnId) | PickStale | EndSweep | StopSweeping

  /** `done` is closed before the listener, so a connection can be accepted in between. */
  datatype StopStep = StartStop | CloseListener | CloseOne(peer: ConnId)

  /** A step, and the thread or the handler that takes it. */
  datatype Action =
    | World(world: WorldStep)
    | Lock(t: Tid, lock: LockStep)
    | Accepts(accept: AcceptStep)
    | Joins(conn: ConnId, join: JoinStep)
    | Buffers(conn: ConnId, buffering: BufferStep)
    | Routes(conn: ConnId, route: RouteStep)
    | Evicts(t: Tid, once: OnceStep)
    | Sweeps(sweep: SweepStep)
    | Stops(stop: StopStep)

  predicate Is(s: State, t: Tid, pc: Pc) {
    t in s.threads && s.threads[t] == pc
  }

  predicate HasBuffer(s: State, c: ConnId) {
    c in s.held && s.held[c] in s.buffers && |s.buffers[s.held[c]]| == FRAME_SIZE
  }

  function Buffer(s: State, c: ConnId): Frame
    requires HasBuffer(s, c)
  {
    s.buffers[s.held[c]]
  }

  /** The recipient hash in front of a frame. */
  function Prefix(frame: Frame): Key { frame[..HASH_SIZE] }

  /** The encrypted packet behind it. */
  function Packet(frame: Frame): seq<byte> { frame[HASH_SIZE..] }

  /** A handshake the relay accepts: long enough, and of the right version. */
  predicate GoodHello(hello: seq<byte>) {
    HandshakeOf(hello).Ok? && HandshakeOf(hello).value.version == VERSION
  }

  predicate WorldEnabled(s: State, step: WorldStep) {
    match step
    case Tick => true
    case ClientSends(c, _) => c < s.nextConn
    case DropPooled(b) => b in s.pool
  }

  predicate LockEnabled(s: State, t: Tid, step: LockStep) {
    t in s.threads &&
    match step
    case ReadLock => WantsRead(s.threads[t]) && s.writer == None
    case ReadUnlock => ReadsDone(s.threads[t])
    case Announce => WantsWrite(s.threads[t]) && s.writer == None
    case Acquire => RoleAt(s.threads[t]).Announced? && s.readers == {}
    case Unlock => WritesDone(s.threads[t])
  }

  predicate AcceptEnabled(s: State, step: AcceptStep) {
    Acceptor in s.threads &&
    match step
    case Accept => s.threads[Acceptor].Accepting? && s.listening
    case TestFull => s.threads[Acceptor].FullTest?
    case CloseSurplus => s.threads[Acceptor].Verdict? && s.threads[Acceptor].full
    case Spawn => s.threads[Acceptor].Verdict? && !s.threads[Acceptor].full
    case Return => s.threads[Acceptor].Accepting? && s.stopping
  }

  predicate JoinEnabled(s: State, c: ConnId, step: JoinStep) {
    Handler(c) in s.threads &&
    match step
    case HandshakeOk(hello) => s.threads[Handler(c)].Handshaking? && GoodHello(hello)
    case HandshakeFails => s.threads[Handler(c)].Handshaking?
    case CloseRejected => s.threads[Handler(c)].Rejecting?
    case CloseOld => s.threads[Handler(c)].RegClose? && c in s.publicKey
    case Store => s.threads[Handler(c)].RegStore? && c in s.publicKey
  }

  predicate BufferEnabled(s: State, c: ConnId, step: BufferStep) {
    Handler(c) in s.threads &&
    match step
    case ReuseBuffer(b) => s.threads[Handler(c)].GetBuffer? && b in s.pool
    case NewBuffer => s.threads[Handler(c)].GetBuffer?
    case ReadFrame =>
      s.threads[Handler(c)].LoopHead? && HasBuffer(s, c) && c !in s.closed && |Fates(s, c)| < |Sent(s, c)|
    case ReadFails(part) => s.threads[Handler(c)].LoopHead? && HasBuffer(s, c) && |part| < FRAME_SIZE
    case Burn => s.threads[Handler(c)].Burning? && HasBuffer(s, c)
    case ClearBuffer => s.threads[Handler(c)].Leaving? && HasBuffer(s, c)
    case PutBack => s.threads[Handler(c)].PuttingBack? && c in s.held
  }

  predicate RouteEnabled(s: State, c: ConnId, step: RouteStep) {
    Handler(c) in s.threads && HasBuffer(s, c) &&
    match step
    case MarkAlive => s.threads[Handler(c)].Received?
    case LookupHit => s.threads[Handler(c)].LookupTest? && Prefix(Buffer(s, c)) in s.table
    case LookupMiss => s.threads[Handler(c)].LookupTest? && Prefix(Buffer(s, c)) !in s.table
    case DeadlineOk => s.threads[Handler(c)].Deadline?
    case DeadlineFails => s.threads[Handler(c)].Deadline?
    case WriteOk => s.threads[Handler(c)].Writing? && s.threads[Handler(c)].recipient !in s.closed
    case WriteFails => s.threads[Handler(c)].Writing?
  }

  predicate OnceEnabled(s: State, t: Tid, step: OnceStep) {
    t in s.threads && s.threads[t].Evicting? &&
    match step
    case EnterOnce => s.threads[t].stage.Enter? && s.threads[t].peer !in s.evicted && s.threads[t].peer !in s.running
    case SkipOnce => s.threads[t].stage.Enter? && s.threads[t].peer in s.evicted
    case CloseEvicted => s.threads[t].stage.Close?
    case DeleteEntry => s.threads[t].stage.Delete? && s.threads[t].peer in s.publicKey
    case LeaveOnce => s.threads[t].stage.Finish?
  }

  predicate SweepEnabled(s: State, step: SweepStep) {
    Sweeper in s.threads &&
    match step
    case StartSweep => s.threads[Sweeper].SweepIdle?
    case ScanPeer(p) => s.threads[Sweeper].SweepScan? && p in s.threads[Sweeper].todo
    case PickStale => s.threads[Sweeper].SweepNext? && s.threads[Sweeper].stale != []
    case EndSweep => s.threads[Sweeper].SweepNext? && s.threads[Sweeper].stale == []
    case StopSweeping => s.threads[Sweeper].SweepIdle? && s.stopping
  }

  predicate StopEnabled(s: State, step: StopStep) {
    Stopper in s.threads &&
    match step
    case StartStop => s.threads[Stopper].StopIdle?
    case CloseListener => s.threads[Stopper].StopListener?
    case CloseOne(p) => s.threads[Stopper].StopClose? && p in s.threads[Stopper].todo
  }

  predicate Enabled(s: State, a: Action) {
    match a
    case World(step) => WorldEnabled(s, step)
    case Lock(t, step) => LockEnabled(s, t, step)
    case Accepts(step) => AcceptEnabled(s, step)
    case Joins(c, step) => JoinEnabled(s, c, step)
    case Buffers(c, step) => BufferEnabled(s, c, step)
    case Routes(c, step) => RouteEnabled(s, c, step)
    case Evicts(t, step) => OnceEnabled(s, t, step)
    case Sweeps(step) => SweepEnabled(s, step)
    case Stops(step) => StopEnabled(s, step)
  }

  function Goto(s: State, t: Tid, pc: Pc): State {
    s.(threads := s.threads[t := pc])
  }

  /** The routing table after `register`, and after the delete in `evict`, which spares a replacement. */
  function Registered<V>(table: map<Key, V>, k: Key, p: V): map<Key, V> {
    table[k := p]
  }

  function Removed<V(==)>(table: map<Key, V>, k: Key, p: V): map<Key, V> {
    if k in table && table[k] == p then table - {k} else table
  }

  predicate Stale(now: nat, lastAlive: nat) {
    now - lastAlive > HEARTBEAT_TIMEOUT
  }

  /** A frame is dealt with: its fate is noted and the buffer remains to be burnt. */
  function Settle(s: State, c: ConnId, fate: Fate): State {
    Goto(s.(fates := s.fates[c := Fates(s, c) + [fate]]), Handler(c), Burning)
  }

  /** `go s.evict(p)`. */
  function SpawnEvictor(s: State, p: ConnId): State {
    Goto(s, Evictor(s.nextEvictor), Evicting(p, Enter, ThenEnd)).(nextEvictor := s.nextEvictor + 1)
  }

  function Fill(s: State, c: ConnId, bytes: Frame): State
    requires c in s.held
  {
    s.(buffers := s.buffers[s.held[c] := bytes])
  }

  function WorldApply(s: State, step: WorldStep): State
    requires WorldEnabled(s, step)
  {
    match step
    case Tick => s.(clock := s.clock + 1)
    case ClientSends(c, frame) => s.(sent := s.sent[c := Sent(s, c) + [frame]])
    case DropPooled(b) => s.(pool := s.pool - {b})
  }

  function LockApply(s: State, t: Tid, step: LockStep): State
    requires LockEnabled(s, t, step)
  {
    var pc := s.threads[t];
    match step
    case ReadLock => Goto(s, t, AfterReadLock(s, pc)).(readers := s.readers + {t})
    case ReadUnlock => Goto(s, t, AfterReadUnlock(pc)).(readers := s.readers - {t})
    case Announce => Goto(s, t, AfterAnnounce(pc)).(writer := Some(t))
    case Acquire => Goto(s, t, AfterAcquire(s, pc))
    case Unlock => Goto(s, t, AfterUnlock(pc)).(writer := None)
  }

  function AcceptApply(s: State, step: AcceptStep): State
    requires AcceptEnabled(s, step)
  {
    var pc := s.threads[Acceptor];
    match step
    case Accept =>
      Goto(s, Acceptor, FullWant(s.nextConn)).(nextConn := s.nextConn + 1, joining := s.joining + {s.nextConn})
    case TestFull =>
      var full := |s.table| >= MAX_PEERS;
      Goto(s, Acceptor, FullTested(pc.incoming, full)).(
        admitted := if full then s.admitted else s.admitted + {pc.incoming})
    case CloseSurplus =>
      Goto(s, Acceptor, Accepting).(closed := s.closed + {pc.incoming}, joining := s.joining - {pc.incoming})
    case Spawn => Goto(Goto(s, Acceptor, Accepting), Handler(pc.incoming), Handshaking)
    case Return => Goto(s, Acceptor, Ended)
  }

  function JoinApply(s: State, c: ConnId, step: JoinStep): State
    requires JoinEnabled(s, c, step)
  {
    match step
    case HandshakeOk(hello) =>
      Goto(s, Handler(c), RegWant).(
        publicKey := s.publicKey[c := HandshakeOf(hello).value.senderKey],
        lastAlive := s.lastAlive[c := s.clock],
        heard := s.heard[c := s.clock])
    case HandshakeFails => Goto(s, Handler(c), Rejecting).(admitted := s.admitted - {c})
    case CloseRejected => Goto(s, Handler(c), Ended).(closed := s.closed + {c}, joining := s.joining - {c})
    case CloseOld =>
      var k := KeyOf(s, c);
      Goto(s, Handler(c), RegStore).(closed := if k in s.table then s.closed + {s.table[k]} else s.closed)
    case Store =>
      Goto(s, Handler(c), RegUnlock).(
        table := Registered(s.table, KeyOf(s, c), c),
        registered := s.registered + {c}, joining := s.joining - {c}, admitted := s.admitted - {c})
  }

  function BufferApply(s: State, c: ConnId, step: BufferStep): State
    requires BufferEnabled(s, c, step)
  {
    match step
    case ReuseBuffer(b) => Goto(s, Handler(c), LoopHead).(pool := s.pool - {b}, held := s.held[c := b])
    case NewBuffer =>
      Goto(s, Handler(c), LoopHead).(
        buffers := s.buffers[s.nextBuffer := Zeros(FRAME_SIZE)],
        held := s.held[c := s.nextBuffer],
        nextBuffer := s.nextBuffer + 1)
    case ReadFrame =>
      Goto(Fill(s, c, Sent(s, c)[|Fates(s, c)|]), Handler(c), Received).(heard := s.heard[c := s.clock])
    case ReadFails(part) => Goto(Fill(s, c, part + Buffer(s, c)[|part|..]), Handler(c), Leaving)
    case Burn => Goto(Fill(s, c, Zeros(FRAME_SIZE)), Handler(c), LoopHead)
    case ClearBuffer => Goto(Fill(s, c, Zeros(FRAME_SIZE)), Handler(c), PuttingBack)
    case PutBack =>
      Goto(s, Handler(c), Evicting(c, Enter, ThenEnd)).(pool := s.pool + {s.held[c]}, held := s.held - {c})
  }

  function RouteApply(s: State, c: ConnId, step: RouteStep): State
    requires RouteEnabled(s, c, step)
  {
    var pc := s.threads[Handler(c)];
    match step
    case MarkAlive => Goto(s, Handler(c), LookupWant).(lastAlive := s.lastAlive[c := s.clock])
    case LookupHit => Goto(s, Handler(c), LookupDone(Some(s.table[Prefix(Buffer(s, c))])))
    case LookupMiss => Goto(Settle(s, c, NoRecipient), Handler(c), LookupDone(None))
    case DeadlineOk => Goto(s, Handler(c), Writing(pc.recipient))
    case DeadlineFails => SpawnEvictor(Settle(s, c, DeadlineFailed(pc.recipient)), pc.recipient)
    case WriteOk =>
      var d := Delivery(c, |Fates(s, c)|, Packet(Buffer(s, c)));
      Settle(s, c, Delivered(pc.recipient)).(
        delivered := s.delivered[pc.recipient := DeliveredTo(s, pc.recipient) + [d]])
    case WriteFails => SpawnEvictor(Settle(s, c, WriteFailed(pc.recipient)), pc.recipient)
  }

  function OnceApply(s: State, t: Tid, step: OnceStep): State
    requires OnceEnabled(s, t, step)
  {
    var pc := s.threads[t];
    match step
    case EnterOnce => Goto(s, t, pc.(stage := Close)).(running := s.running[pc.peer := t])
    case SkipOnce => Goto(s, t, AfterEvict(pc.cont))
    case CloseEvicted => Goto(s, t, pc.(stage := Want)).(closed := s.closed + {pc.peer})
    case DeleteEntry =>
      Goto(s, t, pc.(stage := Release)).(table := Removed(s.table, KeyOf(s, pc.peer), pc.peer))
    case LeaveOnce =>
      Goto(s, t, AfterEvict(pc.cont)).(running := s.running - {pc.peer}, evicted := s.evicted + {pc.peer})
  }

  function SweepApply(s: State, step: SweepStep): State
    requires SweepEnabled(s, step)
  {
    var pc := s.threads[Sweeper];
    match step
    case StartSweep => Goto(s, Sweeper, SweepWant(s.clock))
    case ScanPeer(p) =>
      var stale := if Stale(pc.now, LastAlive(s, p)) then pc.stale + [p] else pc.stale;
      Goto(s, Sweeper, SweepScan(pc.now, pc.todo - {p}, stale, pc.seen))
    case PickStale => Goto(s, Sweeper, Evicting(pc.stale[0], Enter, ThenSweep(pc.now, pc.stale[1..], pc.seen)))
    case EndSweep => Goto(s, Sweeper, SweepIdle)
    case StopSweeping => Goto(s, Sweeper, Ended)
  }

  function StopApply(s: State, step: StopStep): State
    requires StopEnabled(s, step)
  {
    match step
    case StartStop => Goto(s, Stopper, StopListener).(stopping := true)
    case CloseListener => Goto(s, Stopper, StopWant).(listening := false)
    case CloseOne(p) => Goto(s, Stopper, StopClose(s.threads[Stopper].todo - {p})).(closed := s.closed + {p})
  }

  function Apply(s: State, a: Action): State
    requires Enabled(s, a)
  {
    match a
    case World(step) => WorldApply(s, step)
    case Lock(t, step) => LockApply(s, t, step)
    case Accepts(step) => AcceptApply(s, step)
    case Joins(c, step) => JoinApply(s, c, step)
    case Buffers(c, step) => BufferApply(s, c, step)
    case Routes(c, step) => RouteApply(s, c, step)
    case Evicts(t, step) => OnceApply(s, t, step)
    case Sweeps(step) => SweepApply(s, step)
    case Stops(step) => StopApply(s, step)
  }

  // --- runs ---

  /** The state after a sequence of steps, if each of them is possible when its turn comes. */
  function Run(s: State, actions: seq<Action>): Option<State> {
    if actions == [] then Some(s)
    else
      var n := |actions| - 1;
      match Run(s, actions[..n])
      case None => None
      case Some(s') => if Enabled(s', actions[n]) then Some(Apply(s', actions[n])) else None
  }
}
