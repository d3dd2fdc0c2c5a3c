/** Which packets reach which connection: safety, order, no duplicates, and completeness. */
module RelayRouting {
  import opened Bytes
  import opened Protocol
  import opened RelayMachine
  import opened RelayInvariants
  import opened RelaySteps
  import opened RelayTheorems

  // --- the deliveries that fates account for ---

  lemma {:induction false} RoutedElement(sent: seq<Frame>, fates: seq<Fate>, c: ConnId, r: ConnId, i: nat)
    requires |fates| <= |sent| && i < |Routed(sent, fates, c, r)|
    ensures var d := Routed(sent, fates, c, r)[i];
      d.from == c && d.index < |fates| && fates[d.index] == Delivered(r) && d.packet == Packet(sent[d.index])
  {
    var n := |fates| - 1;
    if i < |Routed(sent, fates[..n], c, r)| {
      RoutedElement(sent, fates[..n], c, r, i);
    }
  }

  lemma {:induction false} RoutedIncreasing(sent: seq<Frame>, fates: seq<Fate>, c: ConnId, r: ConnId, i: nat, j: nat)
    requires |fates| <= |sent| && i < j < |Routed(sent, fates, c, r)|
    ensures Routed(sent, fates, c, r)[i].index < Routed(sent, fates, c, r)[j].index
  {
    var n := |fates| - 1;
    var front := Routed(sent, fates[..n], c, r);
    if j < |front| {
      RoutedIncreasing(sent, fates[..n], c, r, i, j);
    } else {
      RoutedElement(sent, fates[..n], c, r, i);
    }
  }

  /** The place of a log entry among the entries from the same sender. */
  lemma {:induction false} FromPlace(log: seq<Delivery>, i: nat, c: ConnId)
    requires i < |log|
    ensures |From(log[..i], c)| <= |From(log, c)|
    ensures log[i].from == c ==>
              |From(log[..i], c)| < |From(log, c)| && From(log, c)[|From(log[..i], c)|] == log[i]
  {
    var n := |log| - 1;
    if i < n {
      FromPlace(log[..n], i, c);
      assert log[..n][..i] == log[..i];
    } else {
      assert log[..i] == log[..n];
    }
  }

  lemma FromPlaces(log: seq<Delivery>, i: nat, j: nat, c: ConnId)
    requires i < j < |log| && log[i].from == c
    ensures |From(log[..i], c)| < |From(log[..j], c)|
  {
    FromPlace(log[..j], i, c);
    assert log[..j][..i] == log[..i];
  }

  lemma RoutingFacts(s: State, c: ConnId, r: ConnId)
    requires Inv(s)
    ensures Matches(s, c, r) && FatesOk(s, c) && Buffering(s)
  {
    hide Places, Locks, Keys, References, Table, Onces, Evictions, Done, NoOrphans, OldClosed, Buffering, Clocks;
  }

  /** A logged delivery and its place among the deliveries that the sender's fates account for. */
  lemma LogPlace(s: State, r: ConnId, i: nat)
    requires i < |DeliveredTo(s, r)| && Matches(s, DeliveredTo(s, r)[i].from, r)
    ensures var log := DeliveredTo(s, r);
      var c := log[i].from;
      var routed := Routed(Sent(s, c), Fates(s, c), c, r);
      |From(log[..i], c)| < |routed| && routed[|From(log[..i], c)|] == log[i]
  {
    FromPlace(DeliveredTo(s, r), i, DeliveredTo(s, r)[i].from);
  }

  lemma DeliveryFate(s: State, r: ConnId, i: nat)
    requires i < |DeliveredTo(s, r)| && Inv(s)
    ensures var d := DeliveredTo(s, r)[i];
      && d.index < |Fates(s, d.from)| <= |Sent(s, d.from)|
      && Fates(s, d.from)[d.index] == Delivered(r)
      && d.packet == Packet(Sent(s, d.from)[d.index])
  {
    hide Inv, Buffering, From, Routed;
    var d := DeliveredTo(s, r)[i];
    RoutingFacts(s, d.from, r);
    LogPlace(s, r, i);
    RoutedElement(Sent(s, d.from), Fates(s, d.from), d.from, r, |From(DeliveredTo(s, r)[..i], d.from)|);
  }

  /**
   Every packet written to a connection is the tail of a frame that the named sender sent with the key hash
   of that connection's peer in front.
   */
  lemma OnlyAddressedPackets(s: State, r: ConnId, i: nat)
    requires Reachable(s) && i < |DeliveredTo(s, r)|
    ensures var d := DeliveredTo(s, r)[i];
      && d.index < |Sent(s, d.from)|
      && d.packet == Packet(Sent(s, d.from)[d.index])
      && HasKey(s, r, Prefix(Sent(s, d.from)[d.index]))
  {
    hide Inv, Buffering;
    ReachableInv(s);
    DeliveryFate(s, r, i);
    var d := DeliveredTo(s, r)[i];
    RoutingFacts(s, d.from, r);
    assert FateOk(s, Sent(s, d.from)[d.index], Fates(s, d.from)[d.index]);
  }

  /** Deliveries from one sender to one connection keep the order in which they were sent. */
  lemma DeliveredInOrder(s: State, r: ConnId, i: nat, j: nat)
    requires Reachable(s) && i < j < |DeliveredTo(s, r)|
    requires DeliveredTo(s, r)[i].from == DeliveredTo(s, r)[j].from
    ensures DeliveredTo(s, r)[i].index < DeliveredTo(s, r)[j].index
  {
    hide Inv, Buffering, From, Routed;
    ReachableInv(s);
    var log := DeliveredTo(s, r);
    var c := log[i].from;
    RoutingFacts(s, c, r);
    LogPlace(s, r, i);
    LogPlace(s, r, j);
    FromPlaces(log, i, j, c);
    RoutedIncreasing(Sent(s, c), Fates(s, c), c, r, |From(log[..i], c)|, |From(log[..j], c)|);
  }

  /** No frame is delivered twice, neither to one connection nor to two. */
  lemma DeliveredOnce(s: State, r: ConnId, i: nat, r': ConnId, i': nat)
    requires Reachable(s) && i < |DeliveredTo(s, r)| && i' < |DeliveredTo(s, r')|
    requires DeliveredTo(s, r)[i].from == DeliveredTo(s, r')[i'].from
    requires DeliveredTo(s, r)[i].index == DeliveredTo(s, r')[i'].index
    ensures r == r' && i == i'
  {
    hide Inv;
    ReachableInv(s);
    DeliveryFate(s, r, i);
    DeliveryFate(s, r', i');
    if i < i' {
      DeliveredInOrder(s, r, i, i');
    } else if i' < i {
      DeliveredInOrder(s, r, i', i);
    }
  }

  // --- completeness ---

  /** The recipient that handler `c` has found for the frame in hand. */
  function TargetOf(s: State, c: ConnId): Option<ConnId> {
    if Handler(c) in s.threads then TargetAt(s.threads[Handler(c)]) else None
  }

  /** Handler `c` has not settled a frame and has not found a recipient. */
  ghost predicate Unsettled(s: State, s': State, c: ConnId) {
    && Fates(s', c) == Fates(s, c) && Sent(s, c) <= Sent(s', c)
    && TargetOf(s', c) in {None, TargetOf(s, c)}
  }

  lemma GotoUnsettled(s: State, s': State, t: Tid, pc: Pc, c: ConnId)
    requires s'.threads == s.threads[t := pc] && s'.fates == s.fates && s'.sent == s.sent
    requires t == Handler(c) ==> TargetAt(pc) in {None, TargetOf(s, c)}
    ensures Unsettled(s, s', c)
  {
  }

  lemma WorldUnsettled(s: State, step: WorldStep, c: ConnId)
    requires WorldEnabled(s, step)
    ensures Unsettled(s, WorldApply(s, step), c)
  {
  }

  lemma LockUnsettled(s: State, t: Tid, step: LockStep, c: ConnId)
    requires LockEnabled(s, t, step)
    ensures Unsettled(s, LockApply(s, t, step), c)
  {
    hide Unsettled;
    GotoUnsettled(s, LockApply(s, t, step), t, AfterLock(s, t, step), c);
  }

  lemma AcceptUnsettled(s: State, step: AcceptStep, c: ConnId)
    requires AcceptEnabled(s, step)
    ensures Unsettled(s, AcceptApply(s, step), c)
  {
  }

  lemma JoinUnsettled(s: State, d: ConnId, step: JoinStep, c: ConnId)
    requires JoinEnabled(s, d, step)
    ensures Unsettled(s, JoinApply(s, d, step), c)
  {
    hide KeyOf, Registered, HandshakeOf, Unsettled;
    var s' := JoinApply(s, d, step);
    GotoUnsettled(s, s', Handler(d), s'.threads[Handler(d)], c);
  }

  lemma BufferUnsettled(s: State, d: ConnId, step: BufferStep, c: ConnId)
    requires BufferEnabled(s, d, step)
    ensures Unsettled(s, BufferApply(s, d, step), c)
  {
    hide Unsettled, Buffer;
    var s' := BufferApply(s, d, step);
    GotoUnsettled(s, s', Handler(d), s'.threads[Handler(d)], c);
  }

  lemma OnceUnsettled(s: State, t: Tid, step: OnceStep, c: ConnId)
    requires OnceEnabled(s, t, step)
    ensures Unsettled(s, OnceApply(s, t, step), c)
  {
    hide Unsettled, Removed, KeyOf;
    var s' := OnceApply(s, t, step);
    GotoUnsettled(s, s', t, s'.threads[t], c);
  }

  lemma SweepUnsettled(s: State, step: SweepStep, c: ConnId)
    requires SweepEnabled(s, step)
    ensures Unsettled(s, SweepApply(s, step), c)
  {
    hide Unsettled;
    var s' := SweepApply(s, step);
    GotoUnsettled(s, s', Sweeper, s'.threads[Sweeper], c);
  }

  lemma StopUnsettled(s: State, step: StopStep, c: ConnId)
    requires StopEnabled(s, step)
    ensures Unsettled(s, StopApply(s, step), c)
  {
    hide Unsettled;
    var s' := StopApply(s, step);
    GotoUnsettled(s, s', Stopper, s'.threads[Stopper], c);
  }

  lemma OtherUnsettled(s: State, d: ConnId, step: RouteStep, c: ConnId)
    requires RouteEnabled(s, d, step) && d != c
    ensures Unsettled(s, RouteApply(s, d, step), c)
  {
    hide Prefix, Packet, Buffer, DeliveredTo;
  }

  function FatesOf(r: ConnId): set<Fate> {
    {Delivered(r), WriteFailed(r), DeadlineFailed(r)}
  }

  /**
   From frame number `n` on, the frames of `c` with prefix `k` that were dealt with were written to `r`, or a
   write to `r` failed; a frame with that prefix that is being routed has found `r`.
   */
  ghost predicate Reaches(sent: seq<Frame>, fates: seq<Fate>, target: Option<ConnId>, n: nat, k: Key, r: ConnId) {
    && n <= |fates| <= |sent|
    && (forall i :: n <= i < |fates| && Prefix(sent[i]) == k ==> fates[i] in FatesOf(r))
    && (target.Some? ==> |fates| < |sent| && (Prefix(sent[|fates|]) == k ==> target.value == r))
  }

  lemma ReachesOn(sent: seq<Frame>, fates: seq<Fate>, target: Option<ConnId>, n: nat, k: Key, r: ConnId, fate: Fate)
    requires Reaches(sent, fates, target, n, k, r) && |fates| < |sent|
    requires Prefix(sent[|fates|]) == k ==> fate in FatesOf(r)
    ensures Reaches(sent, fates + [fate], None, n, k, r)
  {
  }

  ghost predicate ReachesIn(s: State, c: ConnId, n: nat, k: Key, r: ConnId) {
    Reaches(Sent(s, c), Fates(s, c), TargetOf(s, c), n, k, r)
  }

  lemma UnsettledReaches(s: State, s': State, c: ConnId, n: nat, k: Key, r: ConnId)
    requires Unsettled(s, s', c) && ReachesIn(s, c, n, k, r)
    ensures ReachesIn(s', c, n, k, r)
  {
  }

  lemma HitReaches(s: State, c: ConnId, n: nat, k: Key, r: ConnId)
    requires RouteEnabled(s, c, LookupHit) && Buffering(s) && k in s.table && s.table[k] == r
    requires ReachesIn(s, c, n, k, r)
    ensures ReachesIn(RouteApply(s, c, LookupHit), c, n, k, r)
  {
    hide Prefix;
    FrameInHand(s, c);
  }

  lemma MissReaches(s: State, c: ConnId, n: nat, k: Key, r: ConnId)
    requires RouteEnabled(s, c, LookupMiss) && Buffering(s) && k in s.table && s.table[k] == r
    requires ReachesIn(s, c, n, k, r)
    ensures ReachesIn(RouteApply(s, c, LookupMiss), c, n, k, r)
  {
    hide Prefix, Reaches;
    FrameInHand(s, c);
    ReachesOn(Sent(s, c), Fates(s, c), TargetOf(s, c), n, k, r, NoRecipient);
  }

  lemma SettledReaches(s: State, s': State, c: ConnId, fate: Fate, n: nat, k: Key, r: ConnId)
    requires TargetOf(s, c).Some? && fate in FatesOf(TargetOf(s, c).value)
    requires Fates(s', c) == Fates(s, c) + [fate] && Sent(s', c) == Sent(s, c) && TargetOf(s', c) == None
    requires ReachesIn(s, c, n, k, r)
    ensures ReachesIn(s', c, n, k, r)
  {
    ReachesOn(Sent(s, c), Fates(s, c), TargetOf(s, c), n, k, r, fate);
  }

  lemma WriteReaches(s: State, c: ConnId, step: RouteStep, n: nat, k: Key, r: ConnId)
    requires RouteEnabled(s, c, step) && (step.WriteOk? || step.WriteFails? || step.DeadlineFails?)
    requires ReachesIn(s, c, n, k, r)
    ensures ReachesIn(RouteApply(s, c, step), c, n, k, r)
  {
    hide Prefix, Packet, Buffer, DeliveredTo, ReachesIn;
    var s', q := RouteApply(s, c, step), s.threads[Handler(c)].recipient;
    var fate := if step.WriteOk? then Delivered(q) else if step.WriteFails? then WriteFailed(q) else DeadlineFailed(q);
    SettledReaches(s, s', c, fate, n, k, r);
  }

  lemma PassReaches(s: State, c: ConnId, step: RouteStep, n: nat, k: Key, r: ConnId)
    requires RouteEnabled(s, c, step) && (step.MarkAlive? || step.DeadlineOk?)
    requires ReachesIn(s, c, n, k, r)
    ensures ReachesIn(RouteApply(s, c, step), c, n, k, r)
  {
    hide ReachesIn, Unsettled;
    var s' := RouteApply(s, c, step);
    GotoUnsettled(s, s', Handler(c), s'.threads[Handler(c)], c);
    UnsettledReaches(s, s', c, n, k, r);
  }

  lemma RouteReaches(s: State, c: ConnId, step: RouteStep, n: nat, k: Key, r: ConnId)
    requires RouteEnabled(s, c, step) && Buffering(s) && k in s.table && s.table[k] == r
    requires ReachesIn(s, c, n, k, r)
    ensures ReachesIn(RouteApply(s, c, step), c, n, k, r)
  {
    hide RouteApply, RouteEnabled, ReachesIn, Buffering;
    match step {
      case LookupHit => HitReaches(s, c, n, k, r);
      case LookupMiss => MissReaches(s, c, n, k, r);
      case WriteOk => WriteReaches(s, c, step, n, k, r);
      case DeadlineFails => WriteReaches(s, c, step, n, k, r);
      case WriteFails => WriteReaches(s, c, step, n, k, r);
      case MarkAlive => PassReaches(s, c, step, n, k, r);
      case DeadlineOk => PassReaches(s, c, step, n, k, r);
    }
  }

  lemma StepUnsettled(s: State, a: Action, c: ConnId)
    requires Enabled(s, a) && !(a.Routes? && a.conn == c)
    ensures Unsettled(s, Apply(s, a), c)
  {
    hide WorldApply, LockApply, AcceptApply, JoinApply, BufferApply, RouteApply, OnceApply, SweepApply, StopApply;
    hide Unsettled;
    match a {
      case World(step) => WorldUnsettled(s, step, c);
      case Lock(t, step) => LockUnsettled(s, t, step, c);
      case Accepts(step) => AcceptUnsettled(s, step, c);
      case Joins(d, step) => JoinUnsettled(s, d, step, c);
      case Buffers(d, step) => BufferUnsettled(s, d, step, c);
      case Routes(d, step) => OtherUnsettled(s, d, step, c);
      case Evicts(t, step) => OnceUnsettled(s, t, step, c);
      case Sweeps(step) => SweepUnsettled(s, step, c);
      case Stops(step) => StopUnsettled(s, step, c);
    }
  }

  lemma StepReaches(s: State, a: Action, c: ConnId, n: nat, k: Key, r: ConnId)
    requires Enabled(s, a) && Buffering(s) && k in s.table && s.table[k] == r && ReachesIn(s, c, n, k, r)
    ensures ReachesIn(Apply(s, a), c, n, k, r)
  {
    hide ReachesIn, Buffering, Unsettled, RouteApply;
    if a.Routes? && a.conn == c {
      RouteReaches(s, c, a.route, n, k, r);
    } else {
      hide Enabled, Apply;
      StepUnsettled(s, a, c);
      UnsettledReaches(s, Apply(s, a), c, n, k, r);
    }
  }

  /** The table maps `k` to `r` before every one of these steps. */
  ghost predicate Stays(s: State, actions: seq<Action>, k: Key, r: ConnId) {
    actions == [] ||
    var front := actions[..|actions| - 1];
    && Stays(s, front, k, r)
    && Run(s, front).Some? && k in Run(s, front).value.table && Run(s, front).value.table[k] == r
  }

  lemma {:induction false} RunReaches(s: State, actions: seq<Action>, c: ConnId, n: nat, k: Key, r: ConnId)
    requires Run(s, actions).Some? && Stays(s, actions, k, r)
    requires ReachesIn(s, c, n, k, r) && Inv(s)
    ensures ReachesIn(Run(s, actions).value, c, n, k, r)
  {
    hide Inv, Enabled, Apply, ReachesIn, Buffering;
    if actions != [] {
      var front, a := actions[..|actions| - 1], actions[|actions| - 1];
      RunReaches(s, front, c, n, k, r);
      RunKeeps(s, front);
      RoutingFacts(Run(s, front).value, c, r);
      StepReaches(Run(s, front).value, a, c, n, k, r);
    }
  }

  /** Frames that were dealt with stay dealt with. */
  ghost predicate Continues(s: State, s': State, c: ConnId) {
    Fates(s, c) <= Fates(s', c) && Sent(s, c) <= Sent(s', c)
  }

  lemma RouteContinues(s: State, c: ConnId, step: RouteStep)
    requires RouteEnabled(s, c, step)
    ensures Continues(s, RouteApply(s, c, step), c)
  {
    hide Prefix, Packet, Buffer, DeliveredTo;
  }

  lemma StepContinues(s: State, a: Action, c: ConnId)
    requires Enabled(s, a)
    ensures Continues(s, Apply(s, a), c)
  {
    hide RouteApply;
    if a.Routes? && a.conn == c {
      RouteContinues(s, c, a.route);
    } else {
      hide Enabled, Apply;
      StepUnsettled(s, a, c);
    }
  }

  lemma {:induction false} RunContinues(s: State, actions: seq<Action>, c: ConnId)
    requires Run(s, actions).Some?
    ensures Continues(s, Run(s, actions).value, c)
  {
    hide Enabled, Apply;
    if actions != [] {
      RunContinues(s, actions[..|actions| - 1], c);
      StepContinues(Run(s, actions[..|actions| - 1]).value, actions[|actions| - 1], c);
    }
  }

  /** The packets of those of the frames `lo..hi` that have the prefix `k`, in order. */
  function Addressed(sent: seq<Frame>, lo: nat, hi: nat, k: Key, c: ConnId): seq<Delivery>
    requires lo <= hi <= |sent|
  {
    if lo == hi then []
    else
      Addressed(sent, lo, hi - 1, k, c)
      + if Prefix(sent[hi - 1]) == k then [Delivery(c, hi - 1, Packet(sent[hi - 1]))] else []
  }

  lemma {:induction false} RoutedAddressed(sent: seq<Frame>, fates: seq<Fate>, lo: nat, k: Key, c: ConnId, r: ConnId)
    requires lo <= |fates| <= |sent|
    requires forall i :: lo <= i < |fates| ==> (Prefix(sent[i]) == k <==> fates[i] == Delivered(r))
    ensures Routed(sent, fates, c, r) == Routed(sent, fates[..lo], c, r) + Addressed(sent, lo, |fates|, k, c)
    decreases fates
  {
    hide Prefix, Packet;
    if lo == |fates| {
      assert fates[..lo] == fates;
    } else {
      var front := fates[..|fates| - 1];
      RoutedAddressed(sent, front, lo, k, c, r);
      assert front[..lo] == fates[..lo];
    }
  }

  lemma AddressedIff(s: State, c: ConnId, n: nat, k: Key, r: ConnId)
    requires ReachesIn(s, c, n, k, r) && FatesOk(s, c) && HasKey(s, r, k)
    requires forall i :: n <= i < |Fates(s, c)| ==> Fates(s, c)[i] !in {WriteFailed(r), DeadlineFailed(r)}
    ensures forall i :: n <= i < |Fates(s, c)| ==> (Prefix(Sent(s, c)[i]) == k <==> Fates(s, c)[i] == Delivered(r))
  {
    forall i | n <= i < |Fates(s, c)|
      ensures Prefix(Sent(s, c)[i]) == k <==> Fates(s, c)[i] == Delivered(r)
    {
      assert FateOk(s, Sent(s, c)[i], Fates(s, c)[i]);
    }
  }

  /**
   Completeness. While the connection `r` stays registered under `k` and no write to it fails, everything
   that a sender addresses to `k` is delivered to `r`: what the log gains from that sender is exactly the
   packets of its frames with prefix `k` that were dealt with, all of them, in order, and once each.
   */
  lemma CompleteWhileRegistered(s: State, actions: seq<Action>, s': State, c: ConnId, k: Key, r: ConnId)
    requires Reachable(s) && Run(s, actions) == Some(s') && Stays(s, actions, k, r)
    requires k in s'.table && s'.table[k] == r && TargetOf(s, c) == None
    requires forall i :: |Fates(s, c)| <= i < |Fates(s', c)| ==> Fates(s', c)[i] !in {WriteFailed(r), DeadlineFailed(r)}
    ensures |Fates(s, c)| <= |Fates(s', c)| <= |Sent(s', c)|
    ensures From(DeliveredTo(s', r), c) ==
            From(DeliveredTo(s, r), c) + Addressed(Sent(s', c), |Fates(s, c)|, |Fates(s', c)|, k, c)
  {
    hide Inv, Buffering, Run, Stays, Prefix;
    var n := |Fates(s, c)|;
    ReachableInv(s);
    RunKeeps(s, actions);
    RoutingFacts(s, c, r);
    RoutingFacts(s', c, r);
    RunReaches(s, actions, c, n, k, r);
    RunContinues(s, actions, c);
    TableHolds(s');
    EntryHasKey(s', k);
    AddressedIff(s', c, n, k, r);
    RoutedAddressed(Sent(s', c), Fates(s', c), n, k, c, r);
    assert Fates(s', c)[..n] == Fates(s, c);
    RoutedExtends(Sent(s, c), Sent(s', c), Fates(s, c), c, r);
  }

  lemma TableHolds(s: State)
    requires Inv(s)
    ensures Table(s.table, s.hash, s.publicKey, s.registered, s.evicted)
  {
  }
}
