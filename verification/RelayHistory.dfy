/** What the state of the relay says about the past: who presented which key, and who has been silent since when. */
module RelayHistory {
  import opened Bytes
  import opened Protocol
  import opened RelayMachine
  import opened RelayInvariants
  import opened RelaySteps
  import opened RelayTheorems
  import opened RelayProgress
  import opened RelayRelease
  import opened RelayStop
  import opened RelaySweep
  import opened RelayRouting

  // --- keys ---

  /** All steps but the end of a handshake and the arrival of a frame leave the record alone. */
  lemma RecordStays(s: State, a: Action)
    requires Enabled(s, a) && !(a.Joins? && a.join.HandshakeOk?) && !(a.Buffers? && a.buffering.ReadFrame?)
    ensures SameRecord(s, Apply(s, a))
  {
    hide WorldApply, LockApply, AcceptApply, JoinApply, BufferApply, RouteApply, OnceApply, SweepApply, StopApply;
    hide Gated, SameGate, SameRecord, SameLogs, SamePool;
    match a {
      case World(step) => WorldGate(s, step);
      case Lock(t, step) => LockGate(s, t, step);
      case Accepts(step) => AcceptGate(s, step);
      case Joins(c, step) => JoinGate(s, c, step);
      case Buffers(c, step) => BufferGate(s, c, step);
      case Routes(c, step) => RouteGate(s, c, step);
      case Evicts(t, step) => OnceGate(s, t, step);
      case Sweeps(step) => SweepGate(s, step);
      case Stops(step) => StopGate(s, step);
    }
  }

  /** Connection `c` completed its handshake in this step: it sent at least 65 bytes, version 1, and then this key. */
  ghost predicate Presents(a: Action, c: ConnId, key: Key) {
    a.Joins? && a.conn == c && a.join.HandshakeOk? &&
    var hello := a.join.hello;
    |hello| >= 65 && hello[0] == 1 && hello[1..33] == key
  }

  lemma HandshakePresents(s: State, c: ConnId, hello: seq<byte>)
    requires JoinEnabled(s, c, HandshakeOk(hello))
    ensures |hello| >= 65 && hello[0] == 1
    ensures JoinApply(s, c, HandshakeOk(hello)).publicKey == s.publicKey[c := hello[1..33]]
    ensures JoinApply(s, c, HandshakeOk(hello)).heard == s.heard[c := s.clock]
  {
  }

  lemma ReadHeard(s: State, c: ConnId)
    requires BufferEnabled(s, c, ReadFrame)
    ensures BufferApply(s, c, ReadFrame).publicKey == s.publicKey
    ensures BufferApply(s, c, ReadFrame).heard == s.heard[c := s.clock]
  {
    hide Buffer;
  }

  /**
   Nobody gets past the handshake without it: each key that the relay has for a connection was presented by it, in a
   handshake that was long enough and of version 1.
   */
  lemma {:induction false} KeysWerePresented(s: State, actions: seq<Action>, s': State, c: ConnId) returns (n: nat)
    requires Run(s, actions) == Some(s') && c !in s.publicKey && c in s'.publicKey
    ensures n < |actions| && Presents(actions[n], c, s'.publicKey[c])
  {
    hide Enabled, Apply;
    n := |actions| - 1;
    var front, a := actions[..n], actions[n];
    var s1 := Run(s, front).value;
    if !Presents(a, c, s'.publicKey[c]) {
      KeyStays(s1, a, c);
      n := KeysWerePresented(s, front, s1, c);
      assert front[n] == actions[n];
    }
  }

  lemma KeyStays(s: State, a: Action, c: ConnId)
    requires Enabled(s, a) && c in Apply(s, a).publicKey && !Presents(a, c, Apply(s, a).publicKey[c])
    ensures c in s.publicKey && s.publicKey[c] == Apply(s, a).publicKey[c]
  {
    hide JoinApply, JoinEnabled, BufferApply, BufferEnabled;
    if a.Joins? && a.join.HandshakeOk? {
      HandshakePresents(s, a.conn, a.join.hello);
    } else if a.Buffers? && a.buffering.ReadFrame? {
      ReadHeard(s, a.conn);
    } else {
      hide Enabled, Apply;
      RecordStays(s, a);
    }
  }

  /** So every entry of the table stands under the digest of a key that its connection presented. */
  lemma EntriesPresented(hash: Key -> Key, actions: seq<Action>, s: State, k: Key) returns (n: nat, key: Key)
    requires Run(Init(hash), actions) == Some(s) && k in s.table
    ensures n < |actions| && Presents(actions[n], s.table[k], key) && hash(key) == k
  {
    hide Run, Inv, Presents;
    assert Reachable(s);
    EntriesAreLive(s, k);
    SameHash(Init(hash), actions);
    var c := s.table[k];
    key := s.publicKey[c];
    NoKeysAtFirst(hash);
    hide Init;
    n := KeysWerePresented(Init(hash), actions, s, c);
  }

  lemma NoKeysAtFirst(hash: Key -> Key)
    ensures Init(hash).publicKey == map[] && Init(hash).hash == hash && Init(hash).heard == map[]
  {
  }

  lemma SameHash(s: State, actions: seq<Action>)
    requires Run(s, actions).Some?
    ensures Run(s, actions).value.hash == s.hash
  {
    RunGrows(s, actions);
  }

  // --- times ---

  /** A sweep that is about to begin, or going on, has started before now. */
  ghost predicate NowOk(s: State) {
    Sweeper in s.threads &&
    var pc := s.threads[Sweeper];
    (pc.SweepWant? ==> pc.now <= s.clock) && (SweepAt(pc).Some? ==> SweepAt(pc).value.0 <= s.clock)
  }

  lemma SweepNow(s: State, step: SweepStep)
    requires SweepEnabled(s, step) && NowOk(s)
    ensures NowOk(SweepApply(s, step))
  {
    hide Stale;
  }

  lemma OnceNow(s: State, step: OnceStep)
    requires OnceEnabled(s, Sweeper, step) && NowOk(s)
    ensures NowOk(OnceApply(s, Sweeper, step))
  {
    hide KeyOf, Removed;
  }

  lemma LockNow(s: State, step: LockStep)
    requires LockEnabled(s, Sweeper, step) && NowOk(s) && Placed(Sweeper, s.threads[Sweeper])
    ensures NowOk(LockApply(s, Sweeper, step))
  {
  }

  lemma StepNow(s: State, a: Action)
    requires Enabled(s, a) && NowOk(s) && Inv(s)
    ensures NowOk(Apply(s, a))
  {
    hide Inv, NowOk, SweepApply, OnceApply, LockApply, Placed;
    match a {
      case Sweeps(step) => SweepNow(s, step);
      case Evicts(t, step) =>
        if t == Sweeper {
          OnceNow(s, step);
        } else {
          OthersNow(s, a);
        }
      case Lock(t, step) =>
        if t == Sweeper {
          ThreadFacts(s, Sweeper);
          LockNow(s, step);
        } else {
          OthersNow(s, a);
        }
      case _ => OthersNow(s, a);
    }
  }

  lemma OthersNow(s: State, a: Action)
    requires Enabled(s, a) && Taker(a) != Some(Sweeper) && NowOk(s) && Inv(s)
    ensures NowOk(Apply(s, a))
  {
    hide Inv, Enabled, Apply;
    PlacesHold(s);
    StepStill(s, a);
    TableSteps(s, a);
  }

  lemma {:induction false} RunNow(hash: Key -> Key, actions: seq<Action>)
    requires Run(Init(hash), actions).Some?
    ensures NowOk(Run(Init(hash), actions).value)
  {
    if actions != [] {
      hide Inv, Enabled, Apply, NowOk, Init;
      var front := actions[..|actions| - 1];
      RunNow(hash, front);
      InitInv(hash);
      RunKeeps(Init(hash), front);
      StepNow(Run(Init(hash), front).value, actions[|actions| - 1]);
    }
  }

  /** An arrival is noted with the time, and no later step takes that back. */
  lemma HeardStep(s: State, a: Action, c: ConnId)
    requires Enabled(s, a) && Inv(s)
    ensures Heard(s, c) <= Heard(Apply(s, a), c)
    ensures a == Buffers(c, ReadFrame) ==> Heard(Apply(s, a), c) == s.clock
  {
    hide JoinApply, JoinEnabled, BufferApply, BufferEnabled, Inv;
    HeardBefore(s, c);
    if a.Joins? && a.join.HandshakeOk? {
      HandshakePresents(s, a.conn, a.join.hello);
    } else if a.Buffers? && a.buffering.ReadFrame? {
      ReadHeard(s, a.conn);
    } else {
      hide Enabled, Apply;
      RecordStays(s, a);
    }
  }

  lemma HeardBefore(s: State, c: ConnId)
    requires Inv(s)
    ensures Heard(s, c) <= s.clock
  {
    hide Places, Locks, Keys, References, Table, Onces, Evictions, Done, NoOrphans, OldClosed, Buffering, Routing;
    assert Noted(s, c);
  }

  lemma {:induction false} RunHeard(s: State, actions: seq<Action>, c: ConnId, n: nat)
    requires Run(s, actions).Some? && n < |actions| && actions[n] == Buffers(c, ReadFrame) && Inv(s)
    ensures Run(s, actions[..n]).Some? && Run(s, actions[..n]).value.clock <= Heard(Run(s, actions).value, c)
    decreases |actions|
  {
    hide Inv, Enabled, Apply, Heard;
    var front, a := actions[..|actions| - 1], actions[|actions| - 1];
    RunKeeps(s, front);
    HeardStep(Run(s, front).value, a, c);
    if n < |front| {
      RunHeard(s, front, c, n);
      assert front[..n] == actions[..n];
    }
  }

  /**
   Whom the sweep marks has been silent: on every run, each frame of that peer was read more than 45 seconds ago,
   unless one has arrived whose heartbeat is about to be noted.
   */
  lemma MarkedWasSilent(hash: Key -> Key, actions: seq<Action>, s: State, p: ConnId, n: nat)
    requires Run(Init(hash), actions) == Some(s) && SweepEnabled(s, ScanPeer(p))
    requires SweepApply(s, ScanPeer(p)).threads[Sweeper].stale != s.threads[Sweeper].stale
    requires n < |actions| && actions[n] == Buffers(p, ReadFrame)
    ensures Run(Init(hash), actions[..n]).Some?
    ensures s.clock - Run(Init(hash), actions[..n]).value.clock > 45 || Is(s, Handler(p), Received)
  {
    hide Run, Init, Inv, Stale, Heard;
    InitInv(hash);
    RunNow(hash, actions);
    RunHeard(Init(hash), actions, p, n);
    assert Reachable(s);
    StaleMeansSilent(s, p);
    SweepSince(s, p);
  }

  lemma SweepSince(s: State, p: ConnId)
    requires SweepEnabled(s, ScanPeer(p)) && NowOk(s)
    ensures s.threads[Sweeper].now <= s.clock
  {
  }

  // --- the end of a connection ---

  /** A packet is written to a connection only by a successful write, and only while it is open. */
  lemma WriteDelivers(s: State, a: Action, r: ConnId)
    requires Enabled(s, a) && r in s.closed
    ensures DeliveredTo(Apply(s, a), r) == DeliveredTo(s, r)
  {
    hide JoinApply, BufferApply, OnceApply, SweepApply, StopApply, LockApply, AcceptApply;
    hide Prefix, Packet, Buffer, Fates, DeliveredTo;
    match a {
      case Routes(c, step) => RouteDelivers(s, c, step, r);
      case _ => LogStays(s, a, r);
    }
  }

  lemma RouteDelivers(s: State, c: ConnId, step: RouteStep, r: ConnId)
    requires RouteEnabled(s, c, step) && r in s.closed
    ensures DeliveredTo(RouteApply(s, c, step), r) == DeliveredTo(s, r)
  {
    hide Prefix, Packet, Buffer, Fates;
  }

  lemma LogStays(s: State, a: Action, r: ConnId)
    requires Enabled(s, a) && !a.Routes?
    ensures DeliveredTo(Apply(s, a), r) == DeliveredTo(s, r)
  {
    LogsStay(s, a);
    hide Enabled, Apply;
  }

  lemma LogsStay(s: State, a: Action)
    requires Enabled(s, a) && !a.Routes?
    ensures SameLogs(s, Apply(s, a))
  {
    hide WorldApply, LockApply, AcceptApply, JoinApply, BufferApply, RouteApply, OnceApply, SweepApply, StopApply;
    hide Gated, SameGate, SameRecord, SameLogs, SamePool;
    match a {
      case World(step) => WorldGate(s, step);
      case Lock(t, step) => LockGate(s, t, step);
      case Accepts(step) => AcceptGate(s, step);
      case Joins(c, step) => JoinGate(s, c, step);
      case Buffers(c, step) => BufferGate(s, c, step);
      case Evicts(t, step) => OnceGate(s, t, step);
      case Sweeps(step) => SweepGate(s, step);
      case Stops(step) => StopGate(s, step);
    }
  }

  /**
   A closed connection is dead: whatever happens next, nothing is written to it any more and no frame is read from
   it, so that what it still sends goes nowhere.
   */
  lemma {:induction false} ClosedIsDead(s: State, actions: seq<Action>, r: ConnId)
    requires r in s.closed && Run(s, actions).Some?
    ensures DeliveredTo(Run(s, actions).value, r) == DeliveredTo(s, r) && r in Run(s, actions).value.closed
    ensures forall n :: 0 <= n < |actions| ==> actions[n] != Buffers(r, ReadFrame)
  {
    hide Enabled, Apply, DeliveredTo;
    if actions != [] {
      var front, a := actions[..|actions| - 1], actions[|actions| - 1];
      ClosedIsDead(s, front, r);
      var s1 := Run(s, front).value;
      WriteDelivers(s1, a, r);
      TableSteps(s1, a);
      ClosedNotRead(s1, r);
      assert forall n :: 0 <= n < |front| ==> actions[n] == front[n];
    }
  }

  lemma ClosedNotRead(s: State, c: ConnId)
    requires c in s.closed
    ensures !Enabled(s, Buffers(c, ReadFrame))
  {
  }

  /** The handler has left its relay loop. */
  predicate Left(s: State, c: ConnId) {
    Handler(c) in s.threads &&
    var pc := s.threads[Handler(c)];
    pc.Leaving? || pc.PuttingBack? || pc.Evicting? || pc.Ended?
  }

  lemma BufferLeaves(s: State, c: ConnId, step: BufferStep)
    requires BufferEnabled(s, c, step)
    ensures step.ReadFails? ==> Left(BufferApply(s, c, step), c)
    ensures Left(s, c) ==> Left(BufferApply(s, c, step), c) && !step.ReadFrame?
  {
    hide Buffer, Fates, Sent;
  }

  /** What a handler can do that has left its loop, besides clearing its buffer. */
  lemma OwnSteps(s: State, c: ConnId, a: Action)
    requires Enabled(s, a) && Taker(a) == Some(Handler(c)) && !a.Buffers? && Left(s, c)
    ensures (a.Lock? || a.Evicts?) && a.t == Handler(c)
  {
    hide Buffer, Fates, Sent, Prefix, GoodHello;
  }

  lemma LockLeaves(s: State, c: ConnId, step: LockStep)
    requires LockEnabled(s, Handler(c), step) && Left(s, c)
    ensures Left(LockApply(s, Handler(c), step), c)
  {
  }

  lemma OnceLeaves(s: State, c: ConnId, step: OnceStep)
    requires OnceEnabled(s, Handler(c), step) && Placed(Handler(c), s.threads[Handler(c)])
    ensures Left(OnceApply(s, Handler(c), step), c)
  {
    hide KeyOf, Removed;
  }

  lemma OwnLeaves(s: State, c: ConnId, a: Action)
    requires Enabled(s, a) && Taker(a) == Some(Handler(c)) && !a.Buffers? && Left(s, c)
    requires Placed(Handler(c), s.threads[Handler(c)])
    ensures Left(Apply(s, a), c) && !a.Routes?
  {
    hide LockApply, OnceApply, Left, Placed;
    OwnSteps(s, c, a);
    if a.Lock? {
      LockLeaves(s, c, a.lock);
    } else {
      OnceLeaves(s, c, a.once);
    }
  }

  lemma StepLeft(s: State, a: Action, c: ConnId)
    requires Enabled(s, a) && Left(s, c) && Inv(s)
    ensures Left(Apply(s, a), c) && !(a.Routes? && a.conn == c) && a != Buffers(c, ReadFrame)
  {
    hide Inv, BufferApply, BufferEnabled, Placed, Left;
    if Taker(a) != Some(Handler(c)) {
      hide Enabled, Apply;
      PlacesHold(s);
      StepStill(s, a);
      StillLeft(s, Apply(s, a), Taker(a), c);
    } else if a.Buffers? {
      BufferLeaves(s, c, a.buffering);
    } else {
      IsThread(s, c);
      ThreadFacts(s, Handler(c));
      OwnLeaves(s, c, a);
    }
  }

  lemma IsThread(s: State, c: ConnId)
    requires Left(s, c)
    ensures Handler(c) in s.threads
  {
  }

  lemma StillLeft(s: State, s': State, taker: Option<Tid>, c: ConnId)
    requires Left(s, c) && OthersStill(s, s', taker) && taker != Some(Handler(c))
    ensures Left(s', c)
  {
  }

  lemma {:induction false} RunLeft(s: State, actions: seq<Action>, c: ConnId)
    requires Left(s, c) && Run(s, actions).Some? && Inv(s)
    ensures Left(Run(s, actions).value, c) && Fates(Run(s, actions).value, c) == Fates(s, c)
    ensures forall n :: 0 <= n < |actions| ==> actions[n] != Buffers(c, ReadFrame)
  {
    hide Inv, Enabled, Apply, Fates, Left;
    if actions != [] {
      var front, a := actions[..|actions| - 1], actions[|actions| - 1];
      RunLeft(s, front, c);
      RunKeeps(s, front);
      var s1 := Run(s, front).value;
      StepLeft(s1, a, c);
      StepUnsettled(s1, a, c);
      assert forall n :: 0 <= n < |front| ==> actions[n] == front[n];
    }
  }

  /**
   A read that fails ends the relay loop for good: the handler reads and routes no frame any more, and is on its way
   to the eviction of its own connection.
   */
  lemma ReadFailsForGood(s: State, c: ConnId, part: seq<byte>, actions: seq<Action>, s': State)
    requires Reachable(s) && Enabled(s, Buffers(c, ReadFails(part)))
    requires Run(Apply(s, Buffers(c, ReadFails(part))), actions) == Some(s')
    ensures Left(s', c) && Fates(s', c) == Fates(s, c)
    ensures forall n :: 0 <= n < |actions| ==> actions[n] != Buffers(c, ReadFrame)
  {
    hide Inv, Left, Run, Fates, Enabled, Apply;
    var a := Buffers(c, ReadFails(part));
    ReachableInv(s);
    StepKeeps(s, a);
    FailedReadLeaves(s, c, part);
    StepUnsettled(s, a, c);
    RunLeft(Apply(s, a), actions, c);
  }

  lemma FailedReadLeaves(s: State, c: ConnId, part: seq<byte>)
    requires Enabled(s, Buffers(c, ReadFails(part)))
    ensures Left(Apply(s, Buffers(c, ReadFails(part))), c)
  {
    hide BufferApply, BufferEnabled, Left;
    BufferLeaves(s, c, ReadFails(part));
  }

  // --- buffers ---

  /** A buffer is in the pool, or in the hands of a handler, or the collector took it out of the pool. */
  ghost predicate Kept(s: State, actions: seq<Action>, b: nat) {
    b in s.pool || b in s.held.Values || World(DropPooled(b)) in actions
  }

  ghost predicate AllPlaced(s: State, actions: seq<Action>) {
    forall b: nat :: b < s.nextBuffer ==> Kept(s, actions, b)
  }

  lemma PoolStays(s: State, a: Action)
    requires Enabled(s, a) && !a.World? && !a.Buffers?
    ensures SamePool(s, Apply(s, a))
  {
    hide LockApply, AcceptApply, JoinApply, RouteApply, OnceApply, SweepApply, StopApply;
    hide Gated, SameGate, SameRecord, SameLogs, SamePool;
    match a {
      case Lock(t, step) => LockGate(s, t, step);
      case Accepts(step) => AcceptGate(s, step);
      case Joins(c, step) => JoinGate(s, c, step);
      case Routes(c, step) => RouteGate(s, c, step);
      case Evicts(t, step) => OnceGate(s, t, step);
      case Sweeps(step) => SweepGate(s, step);
      case Stops(step) => StopGate(s, step);
    }
  }

  lemma WorldPlaced(s: State, actions: seq<Action>, step: WorldStep)
    requires WorldEnabled(s, step) && AllPlaced(s, actions)
    ensures AllPlaced(WorldApply(s, step), actions + [World(step)])
  {
    forall b: nat | b < s.nextBuffer
      ensures Kept(WorldApply(s, step), actions + [World(step)], b)
    {
      assert Kept(s, actions, b);
    }
  }

  lemma BufferPlaced(s: State, actions: seq<Action>, c: ConnId, step: BufferStep, b: nat)
    requires BufferEnabled(s, c, step) && AllPlaced(s, actions)
    requires step.NewBuffer? || step.ReuseBuffer? ==> c !in s.held
    requires b < BufferApply(s, c, step).nextBuffer
    ensures Kept(BufferApply(s, c, step), actions + [Buffers(c, step)], b)
  {
    hide Buffer, Fates, Sent;
    var s' := BufferApply(s, c, step);
    if b < s.nextBuffer {
      assert Kept(s, actions, b);
      if b in s.held.Values {
        var d :| d in s.held && s.held[d] == b;
        assert (step.PutBack? && d == c) || (d in s'.held && s'.held[d] == b);
      } else if step.ReuseBuffer? && b == step.buffer {
        assert s'.held[c] == b;
      }
    } else {
      assert s'.held[c] == b;
    }
  }

  lemma FetchesWithout(s: State, c: ConnId, step: BufferStep)
    requires BufferEnabled(s, c, step) && (step.NewBuffer? || step.ReuseBuffer?) && Inv(s)
    ensures c !in s.held
  {
    hide Places, Locks, Keys, References, Table, Onces, Evictions, Done, NoOrphans, OldClosed, Routing, Clocks;
    assert Holds(s, c, HoldOf(s.threads, c));
  }

  /**
   No buffer is lost: on every run, each buffer that was ever made is in the pool, or held by a handler, or has
   been dropped from the pool by the collector.
   */
  lemma {:induction false} NoBufferLost(hash: Key -> Key, actions: seq<Action>, s: State)
    requires Run(Init(hash), actions) == Some(s)
    ensures AllPlaced(s, actions)
  {
    hide Inv, Enabled, Apply, Init, AllPlaced;
    if actions == [] {
      NoBuffersAtFirst(hash);
    } else {
      var front, a := actions[..|actions| - 1], actions[|actions| - 1];
      var s1 := Run(Init(hash), front).value;
      NoBufferLost(hash, front, s1);
      InitInv(hash);
      RunKeeps(Init(hash), front);
      assert actions == front + [a];
      StepPlaced(s1, front, a);
    }
  }

  lemma NoBuffersAtFirst(hash: Key -> Key)
    ensures AllPlaced(Init(hash), [])
  {
    hide Kept;
  }

  lemma StepPlaced(s: State, actions: seq<Action>, a: Action)
    requires Enabled(s, a) && AllPlaced(s, actions) && Inv(s)
    ensures AllPlaced(Apply(s, a), actions + [a])
  {
    hide Inv, WorldApply, BufferApply, WorldEnabled, BufferEnabled, Kept;
    if a.World? {
      WorldPlaced(s, actions, a.world);
    } else if a.Buffers? {
      if a.buffering.NewBuffer? || a.buffering.ReuseBuffer? {
        FetchesWithout(s, a.conn, a.buffering);
      }
      forall b: nat | b < BufferApply(s, a.conn, a.buffering).nextBuffer
        ensures Kept(BufferApply(s, a.conn, a.buffering), actions + [a], b)
      {
        BufferPlaced(s, actions, a.conn, a.buffering, b);
      }
    } else {
      PoolStays(s, a);
      SamePlaces(s, Apply(s, a), actions, a);
    }
  }

  lemma SamePlaces(s: State, s': State, actions: seq<Action>, a: Action)
    requires SamePool(s, s') && AllPlaced(s, actions)
    ensures AllPlaced(s', actions + [a])
  {
    forall b: nat | b < s'.nextBuffer
      ensures Kept(s', actions + [a], b)
    {
      assert Kept(s, actions, b);
    }
  }
}
