/**
 Deliveries that happen: from the start of the relay two clients register, and whatever packets the second
 addresses to the first are written to it, all of them and nothing else.
 */
module RelayDelivery {
  import opened Bytes
  import opened Protocol
  import opened RelayMachine
  import opened RelayRuns
  import opened RelayTheorems
  import opened RelayRouting
  import opened RelayCapacity
  import opened RelayWitness
  import opened RelayTurn

  const RECEIVER: ConnId := 0
  const SENDER: ConnId := 1

  /** A run that spares the table keeps every entry. */
  lemma {:induction false} RunSpares(s: State, actions: seq<Action>, k: Key, r: ConnId)
    requires Run(s, actions).Some? && AllSpare(actions) && k in s.table && s.table[k] == r
    ensures Run(s, actions).value.table == s.table && Stays(s, actions, k, r)
  {
    hide Enabled, Apply;
    if actions != [] {
      var front, a := actions[..|actions| - 1], actions[|actions| - 1];
      RunSpares(s, front, k, r);
      assert Spares(a);
      TableSteps(Run(s, front).value, a);
    }
  }

  // --- two clients register ---

  /** Both have been admitted and are at their handshakes. */
  predicate BothAdmitted(s: State) {
    && Quiet(s) && s.table == map[] && s.closed == {} && s.nextConn == 2
    && Is(s, Handler(RECEIVER), Handshaking) && Is(s, Handler(SENDER), Handshaking)
    && s.admitted == {RECEIVER, SENDER} && s.sent == map[] && s.fates == map[]
  }

  lemma StartLeads(hash: Key -> Key)
    ensures Leads(Init(hash), [], Init(hash), 2)
  {
  }

  predicate OneAdmitted(s: State) {
    && Quiet(s) && s.table == map[] && s.closed == {} && s.nextConn == 1
    && Is(s, Handler(RECEIVER), Handshaking)
    && s.admitted == {RECEIVER} && s.sent == map[] && s.fates == map[]
  }

  lemma FirstAdmitted(hash: Key -> Key)
    ensures Quiet(Init(hash)) && |Init(hash).table| == 0 && |Init(hash).admitted| == 0
    ensures OneAdmitted(Admitted(Init(hash))) && Admitted(Init(hash)).hash == hash
  {
  }

  lemma SecondAdmitted(s: State)
    requires OneAdmitted(s)
    ensures Quiet(s) && |s.table| == 0 && |s.admitted| == 1
    ensures BothAdmitted(Admitted(s)) && Admitted(s).hash == s.hash
  {
    assert {RECEIVER} + {SENDER} == {RECEIVER, SENDER};
  }

  lemma AdmitBoth(hash: Key -> Key) returns (actions: seq<Action>, s: State)
    ensures Leads(Init(hash), actions, s, 2) && BothAdmitted(s) && s.hash == hash
  {
    var s1 := Admitted(Init(hash));
    s := Admitted(s1);
    StartLeads(hash);
    FirstAdmitted(hash);
    SecondAdmitted(s1);
    hide Run, AdmitsAtMost, Leads, Init, Admitted, Quiet, OneAdmitted, BothAdmitted;
    actions := Admit(Init(hash), [], Init(hash), 2);
    actions := Admit(Init(hash), actions, s1, 2);
  }

  /** The receiver is registered under `k`, the sender runs its relay loop, and all its frames are dealt with. */
  predicate Serving(s: State, k: Key) {
    && Is(s, Handler(SENDER), LoopHead) && HasBuffer(s, SENDER) && SENDER !in s.closed && SENDER < s.nextConn
    && s.writer == None && s.readers == {}
    && k in s.table && s.table[k] == RECEIVER && RECEIVER !in s.closed
    && |Fates(s, SENDER)| == |Sent(s, SENDER)|
  }

  lemma BufferFetched(s: State, k: Key) returns (s': State)
    requires Is(s, Handler(SENDER), GetBuffer) && SENDER !in s.closed && SENDER < s.nextConn
    requires s.writer == None && s.readers == {}
    requires k in s.table && s.table[k] == RECEIVER && RECEIVER !in s.closed
    requires s.sent == map[] && s.fates == map[]
    ensures Enabled(s, Buffers(SENDER, NewBuffer)) && s' == Apply(s, Buffers(SENDER, NewBuffer)) && Serving(s', k)
  {
    s' := Apply(s, Buffers(SENDER, NewBuffer));
  }

  lemma FirstStored(s: State, receiverKey: Key, senderKey: Key)
    requires BothAdmitted(s) && s.hash(receiverKey) != s.hash(senderKey)
    ensures Newcomer(s, RECEIVER) && |s.admitted| <= 2
    ensures var s1 := Stored(s, RECEIVER, receiverKey, GetBuffer, None);
      Newcomer(s1, SENDER) && |s1.admitted| <= 2
  {
    hide Hello;
    assert s.admitted - {RECEIVER} == {SENDER};
  }

  lemma SecondStored(s: State, receiverKey: Key, senderKey: Key) returns (k: Key, s': State)
    requires BothAdmitted(s) && s.hash(receiverKey) != s.hash(senderKey)
    ensures k == s.hash(receiverKey)
    ensures var s2 := Stored(Stored(s, RECEIVER, receiverKey, GetBuffer, None), SENDER, senderKey, GetBuffer, None);
      Enabled(s2, Buffers(SENDER, NewBuffer)) && s' == Apply(s2, Buffers(SENDER, NewBuffer)) && Serving(s', k)
  {
    k := s.hash(receiverKey);
    s' := BufferFetched(
      Stored(Stored(s, RECEIVER, receiverKey, GetBuffer, None), SENDER, senderKey, GetBuffer, None), k);
  }

  /** From the start, two clients whose keys have different hashes get registered. */
  lemma Connects(hash: Key -> Key, receiverKey: Key, senderKey: Key) returns (s: State)
    requires hash(receiverKey) != hash(senderKey)
    ensures Reachable(s) && Serving(s, hash(receiverKey))
  {
    hide Init, BothAdmitted, Newcomer, Serving, Enabled, Apply, Stored, Run, AdmitsAtMost;
    var actions, s0 := AdmitBoth(hash);
    assert BothAdmitted(s0) ==> s0.hash == hash;
    FirstStored(s0, receiverKey, senderKey);
    var s1 := Stored(s0, RECEIVER, receiverKey, GetBuffer, None);
    actions := Register(Init(hash), actions, s0, RECEIVER, receiverKey, 2);
    actions := Register(Init(hash), actions, s1, SENDER, senderKey, 2);
    var k, s' := SecondStored(s0, receiverKey, senderKey);
    OneMore(Init(hash), actions, Buffers(SENDER, NewBuffer));
    s := s';
  }

  // --- packets get through ---

  function FramesTo(k: Key, packets: seq<seq<byte>>): (frames: seq<seq<byte>>)
    ensures |frames| == |packets|
  {
    seq(|packets|, i requires 0 <= i < |packets| => k + packets[i])
  }

  function Entries(n: nat, packets: seq<seq<byte>>): (log: seq<Delivery>)
    ensures |log| == |packets|
  {
    seq(|packets|, i requires 0 <= i < |packets| => Delivery(SENDER, n + i, packets[i]))
  }

  function AllDelivered(n: nat): seq<Fate> {
    seq(n, i => Delivered(RECEIVER))
  }

  /** The packets have been sent to `k` and were written to the receiver, and nothing else was. */
  ghost predicate Carried(s: State, s': State, k: Key, packets: seq<seq<byte>>) {
    && Sent(s', SENDER) == Sent(s, SENDER) + FramesTo(k, packets)
    && Fates(s', SENDER) == Fates(s, SENDER) + AllDelivered(|packets|)
    && DeliveredTo(s', RECEIVER) == DeliveredTo(s, RECEIVER) + Entries(|Fates(s, SENDER)|, packets)
  }

  lemma SendStep(s: State, k: Key, packet: seq<byte>) returns (a: Action, s': State)
    requires Serving(s, k) && |k + packet| == FRAME_SIZE
    ensures Enabled(s, a) && s' == Apply(s, a) && Spares(a)
    ensures SENDER in s'.held && Ready(s', SENDER, k + packet, RECEIVER)
    ensures Sent(s', SENDER) == Sent(s, SENDER) + [k + packet] && Fates(s', SENDER) == Fates(s, SENDER)
    ensures DeliveredTo(s', RECEIVER) == DeliveredTo(s, RECEIVER) && s'.nextConn == s.nextConn
  {
    assert Prefix(k + packet) == k;
    hide Prefix;
    a := World(ClientSends(SENDER, k + packet));
    s' := Apply(s, a);
  }

  lemma TurnServes(s: State, k: Key, frame: Frame)
    requires Ready(s, SENDER, frame, RECEIVER) && Prefix(frame) == k && SENDER < s.nextConn
    requires |Sent(s, SENDER)| == |Fates(s, SENDER)| + 1
    ensures var s' := Finished(s, SENDER, LoopHead, Zeros(FRAME_SIZE), frame, RECEIVER);
      && Serving(s', k)
      && Sent(s', SENDER) == Sent(s, SENDER)
      && Fates(s', SENDER) == Fates(s, SENDER) + [Delivered(RECEIVER)]
      && DeliveredTo(s', RECEIVER) ==
         DeliveredTo(s, RECEIVER) + [Delivery(SENDER, |Fates(s, SENDER)|, Packet(frame))]
  {
    hide Prefix, Packet;
  }

  lemma OneCarried(s: State, s': State, k: Key, packet: seq<byte>)
    requires Sent(s', SENDER) == Sent(s, SENDER) + [k + packet]
    requires Fates(s', SENDER) == Fates(s, SENDER) + [Delivered(RECEIVER)]
    requires DeliveredTo(s', RECEIVER) ==
             DeliveredTo(s, RECEIVER) + [Delivery(SENDER, |Fates(s, SENDER)|, packet)]
    ensures Carried(s, s', k, [packet])
  {
    hide Sent, Fates, DeliveredTo;
    assert FramesTo(k, [packet]) == [k + packet];
    assert AllDelivered(|[packet]|) == [Delivered(RECEIVER)];
    assert Entries(|Fates(s, SENDER)|, [packet]) == [Delivery(SENDER, |Fates(s, SENDER)|, packet)];
  }

  lemma OneStep(s: State, a: Action)
    requires Enabled(s, a) && Spares(a)
    ensures Run(s, [a]) == Some(Apply(s, a)) && AllSpare([a])
  {
    hide Enabled, Apply, Spares;
    OneMore(s, [], a);
    assert [] + [a] == [a];
  }

  lemma PacketOf(k: Key, packet: seq<byte>)
    requires |k + packet| == FRAME_SIZE
    ensures Prefix(k + packet) == k && Packet(k + packet) == packet
  {
  }

  lemma OneFrame(s: State, k: Key, packet: seq<byte>) returns (actions: seq<Action>, s': State)
    requires Serving(s, k) && |k + packet| == FRAME_SIZE
    ensures Run(s, actions) == Some(s') && AllSpare(actions) && Serving(s', k) && Carried(s, s', k, [packet])
  {
    hide Serving, Ready, Enabled, Apply, Finished, Prefix, Packet, Run, AllSpare, Spares, Carried;
    hide Sent, Fates, DeliveredTo;
    var frame: Frame := k + packet;
    PacketOf(k, packet);
    ServingSizes(s, k);
    var a, s1 := SendStep(s, k, packet);
    OneStep(s, a);
    TurnServes(s1, k, frame);
    var turn, s2 := FrameGetsThrough(s1, SENDER, frame, RECEIVER);
    RunsAppend(s, [a], turn);
    SparesMore([a], turn);
    OneCarried(s, s2, k, packet);
    actions, s' := [a] + turn, s2;
  }

  lemma ServingSizes(s: State, k: Key)
    requires Serving(s, k)
    ensures |Fates(s, SENDER)| == |Sent(s, SENDER)| && SENDER < s.nextConn
    ensures TargetOf(s, SENDER) == None && k in s.table && s.table[k] == RECEIVER
  {
  }

  lemma CarriedMore(s: State, s1: State, s2: State, k: Key, a: seq<seq<byte>>, b: seq<seq<byte>>)
    requires Carried(s, s1, k, a) && Carried(s1, s2, k, b)
    ensures Carried(s, s2, k, a + b)
  {
    hide Fates, Sent, DeliveredTo;
    assert FramesTo(k, a + b) == FramesTo(k, a) + FramesTo(k, b);
    assert AllDelivered(|a + b|) == AllDelivered(|a|) + AllDelivered(|b|);
    var n := |Fates(s, SENDER)|;
    assert Entries(n, a + b) == Entries(n, a) + Entries(n + |a|, b);
  }

  lemma {:induction false} ManyFrames(s: State, k: Key, packets: seq<seq<byte>>)
    returns (actions: seq<Action>, s': State)
    requires Serving(s, k) && forall packet <- packets :: |k + packet| == FRAME_SIZE
    ensures Run(s, actions) == Some(s') && AllSpare(actions) && Serving(s', k) && Carried(s, s', k, packets)
  {
    hide Serving, Carried, Enabled, Apply;
    if packets == [] {
      actions, s' := [], s;
      NothingCarried(s, k);
    } else {
      var n := |packets| - 1;
      var front, s1 := ManyFrames(s, k, packets[..n]);
      var more, s2 := OneFrame(s1, k, packets[n]);
      RunsAppend(s, front, more);
      SparesMore(front, more);
      CarriedMore(s, s1, s2, k, packets[..n], [packets[n]]);
      assert packets[..n] + [packets[n]] == packets;
      actions, s' := front + more, s2;
    }
  }

  lemma NothingCarried(s: State, k: Key)
    requires Serving(s, k)
    ensures Carried(s, s, k, [])
  {
  }

  /**
   Deliveries exist. For any digest, any two keys with different digests and any packets there is a run from
   the start of the relay that registers both clients and then writes to the first exactly the packets that
   the second addresses to it, while the first stays registered.
   */
  lemma PacketsGetThrough(hash: Key -> Key, receiverKey: Key, senderKey: Key, packets: seq<seq<byte>>)
    returns (s: State, actions: seq<Action>, s': State)
    requires hash(receiverKey) != hash(senderKey)
    requires forall packet <- packets :: HASH_SIZE + |packet| == FRAME_SIZE
    ensures Reachable(s) && Run(s, actions) == Some(s') && Stays(s, actions, hash(receiverKey), RECEIVER)
    ensures TargetOf(s, SENDER) == None
    ensures hash(receiverKey) in s'.table && s'.table[hash(receiverKey)] == RECEIVER
    ensures |Fates(s, SENDER)| == |Sent(s, SENDER)| && Carried(s, s', hash(receiverKey), packets)
  {
    hide Reachable, Run, Stays, Serving, Carried;
    var k := hash(receiverKey);
    s := Connects(hash, receiverKey, senderKey);
    actions, s' := ManyFrames(s, k, packets);
    ServingSizes(s, k);
    ServingSizes(s', k);
    RunSpares(s, actions, k, RECEIVER);
  }
}
