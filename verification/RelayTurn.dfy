/** One turn of a relay loop that nobody interrupts: the steps of the machine do what the loop body says. */
module RelayTurn {
  import opened Bytes
  import opened RelayMachine
  import opened RelayRuns

  /** Handler `c` has a frame to read, and the lock is free. */
  predicate Readable(s: State, c: ConnId, frame: Frame) {
    && Is(s, Handler(c), LoopHead) && HasBuffer(s, c) && c !in s.closed
    && |Fates(s, c)| < |Sent(s, c)| && frame == Sent(s, c)[|Fates(s, c)|]
    && s.writer == None && s.readers == {}
  }

  /** Besides, its recipient `r` is registered and open. */
  predicate Ready(s: State, c: ConnId, frame: Frame, r: ConnId) {
    && Readable(s, c, frame)
    && Prefix(frame) in s.table && s.table[Prefix(frame)] == r && r !in s.closed
  }

  /** In the middle of the turn: the frame is in the buffer. */
  function Midway(s: State, c: ConnId, pc: Pc, bytes: Frame, alive: bool, readers: set<Tid>): State
    requires c in s.held
  {
    s.(threads := s.threads[Handler(c) := pc], buffers := s.buffers[s.held[c] := bytes], readers := readers,
       heard := s.heard[c := s.clock], lastAlive := if alive then s.lastAlive[c := s.clock] else s.lastAlive)
  }

  /** At its end: the frame is delivered and the buffer burnt. */
  function Finished(s: State, c: ConnId, pc: Pc, bytes: Frame, frame: Frame, r: ConnId): State
    requires c in s.held
  {
    Midway(s, c, pc, bytes, true, {}).(
      fates := s.fates[c := Fates(s, c) + [Delivered(r)]],
      delivered := s.delivered[r := DeliveredTo(s, r) + [Delivery(c, |Fates(s, c)|, Packet(frame))]])
  }

  lemma ReadStep(s: State, c: ConnId, frame: Frame)
    requires Readable(s, c, frame)
    ensures var a := Buffers(c, ReadFrame); Enabled(s, a) && Apply(s, a) == Midway(s, c, Received, frame, false, {})
  {
    hide Prefix;
  }

  lemma MarkStep(s: State, c: ConnId, frame: Frame)
    requires Readable(s, c, frame)
    ensures var s1, a := Midway(s, c, Received, frame, false, {}), Routes(c, MarkAlive);
      Enabled(s1, a) && Apply(s1, a) == Midway(s, c, LookupWant, frame, true, {})
  {
    hide Prefix;
    var s1, a := Midway(s, c, Received, frame, false, {}), Routes(c, MarkAlive);
    assert Apply(s1, a).threads == s.threads[Handler(c) := LookupWant];
  }

  lemma ReadLockStep(s: State, c: ConnId, frame: Frame)
    requires Readable(s, c, frame)
    ensures var s1, a := Midway(s, c, LookupWant, frame, true, {}), Lock(Handler(c), ReadLock);
      Enabled(s1, a) && Apply(s1, a) == Midway(s, c, LookupTest, frame, true, {Handler(c)})
  {
    hide Prefix;
    var s1, a := Midway(s, c, LookupWant, frame, true, {}), Lock(Handler(c), ReadLock);
    assert Apply(s1, a).threads == s.threads[Handler(c) := LookupTest];
  }

  lemma LookupStep(s: State, c: ConnId, frame: Frame, r: ConnId)
    requires Ready(s, c, frame, r)
    ensures var s1, a := Midway(s, c, LookupTest, frame, true, {Handler(c)}), Routes(c, LookupHit);
      Enabled(s1, a) && Apply(s1, a) == Midway(s, c, LookupDone(Some(r)), frame, true, {Handler(c)})
  {
    hide Prefix;
    var s1, a := Midway(s, c, LookupTest, frame, true, {Handler(c)}), Routes(c, LookupHit);
    assert Apply(s1, a).threads == s.threads[Handler(c) := LookupDone(Some(r))];
  }

  lemma ReadUnlockStep(s: State, c: ConnId, frame: Frame, r: ConnId)
    requires Ready(s, c, frame, r)
    ensures var s1, a := Midway(s, c, LookupDone(Some(r)), frame, true, {Handler(c)}), Lock(Handler(c), ReadUnlock);
      Enabled(s1, a) && Apply(s1, a) == Midway(s, c, Deadline(r), frame, true, {})
  {
    hide Prefix;
    var s1, a := Midway(s, c, LookupDone(Some(r)), frame, true, {Handler(c)}), Lock(Handler(c), ReadUnlock);
    assert Apply(s1, a).threads == s.threads[Handler(c) := Deadline(r)];
    assert {Handler(c)} - {Handler(c)} == {};
  }

  lemma DeadlineStep(s: State, c: ConnId, frame: Frame, r: ConnId)
    requires Ready(s, c, frame, r)
    ensures var s1, a := Midway(s, c, Deadline(r), frame, true, {}), Routes(c, DeadlineOk);
      Enabled(s1, a) && Apply(s1, a) == Midway(s, c, Writing(r), frame, true, {})
  {
    hide Prefix;
    var s1, a := Midway(s, c, Deadline(r), frame, true, {}), Routes(c, DeadlineOk);
    assert Apply(s1, a).threads == s.threads[Handler(c) := Writing(r)];
  }

  lemma WriteStep(s: State, c: ConnId, frame: Frame, r: ConnId)
    requires Ready(s, c, frame, r)
    ensures var s1, a := Midway(s, c, Writing(r), frame, true, {}), Routes(c, WriteOk);
      Enabled(s1, a) && Apply(s1, a) == Finished(s, c, Burning, frame, frame, r)
  {
    hide Prefix, Packet;
    var s1, a := Midway(s, c, Writing(r), frame, true, {}), Routes(c, WriteOk);
    assert Apply(s1, a).threads == s.threads[Handler(c) := Burning];
  }

  lemma BurnStep(s: State, c: ConnId, frame: Frame, r: ConnId)
    requires Ready(s, c, frame, r)
    ensures var s1, a := Finished(s, c, Burning, frame, frame, r), Buffers(c, Burn);
      Enabled(s1, a) && Apply(s1, a) == Finished(s, c, LoopHead, Zeros(FRAME_SIZE), frame, r)
  {
    hide Prefix, Packet;
    var s1, a := Finished(s, c, Burning, frame, frame, r), Buffers(c, Burn);
    assert Apply(s1, a).threads == s.threads[Handler(c) := LoopHead];
    assert Apply(s1, a).buffers == s.buffers[s.held[c] := Zeros(FRAME_SIZE)];
  }

  /** The steps so far lead to `s1`, and here is the next one. */
  lemma StepOn(s: State, actions: seq<Action>, s1: State, a: Action, s2: State)
    requires Run(s, actions) == Some(s1) && AllSpare(actions) && Spares(a)
    requires Enabled(s1, a) && Apply(s1, a) == s2
    ensures Run(s, actions + [a]) == Some(s2) && AllSpare(actions + [a])
  {
    hide Run, Enabled, Apply;
    OneMore(s, actions, a);
  }

  lemma RunsNowhere(s: State)
    ensures Run(s, []) == Some(s) && AllSpare([])
  {
  }

  /** Read, note the heartbeat, and take the read lock. */
  lemma FrameIsRead(s: State, c: ConnId, frame: Frame) returns (actions: seq<Action>)
    requires c in s.held && Readable(s, c, frame)
    ensures Run(s, actions) == Some(Midway(s, c, LookupTest, frame, true, {Handler(c)})) && AllSpare(actions)
  {
    hide Enabled, Apply, Readable, Midway, Run, AllSpare;
    var s1, s2 := Midway(s, c, Received, frame, false, {}), Midway(s, c, LookupWant, frame, true, {});
    RunsNowhere(s);
    ReadStep(s, c, frame);
    StepOn(s, [], s, Buffers(c, ReadFrame), s1);
    actions := [] + [Buffers(c, ReadFrame)];
    MarkStep(s, c, frame);
    StepOn(s, actions, s1, Routes(c, MarkAlive), s2);
    actions := actions + [Routes(c, MarkAlive)];
    ReadLockStep(s, c, frame);
    StepOn(s, actions, s2, Lock(Handler(c), ReadLock), Midway(s, c, LookupTest, frame, true, {Handler(c)}));
    actions := actions + [Lock(Handler(c), ReadLock)];
  }

  /** Look the recipient up, and leave the lock. */
  lemma FrameIsRouted(s: State, c: ConnId, frame: Frame, r: ConnId) returns (actions: seq<Action>)
    requires c in s.held && Ready(s, c, frame, r)
    ensures Run(s, actions) == Some(Midway(s, c, Deadline(r), frame, true, {})) && AllSpare(actions)
  {
    actions := FrameIsRead(s, c, frame);
    hide Enabled, Apply, Ready, Midway, Run, AllSpare;
    var s3, s4 := Midway(s, c, LookupTest, frame, true, {Handler(c)}),
                  Midway(s, c, LookupDone(Some(r)), frame, true, {Handler(c)});
    LookupStep(s, c, frame, r);
    StepOn(s, actions, s3, Routes(c, LookupHit), s4);
    actions := actions + [Routes(c, LookupHit)];
    ReadUnlockStep(s, c, frame, r);
    StepOn(s, actions, s4, Lock(Handler(c), ReadUnlock), Midway(s, c, Deadline(r), frame, true, {}));
    actions := actions + [Lock(Handler(c), ReadUnlock)];
  }

  /** Set the deadline, write, and burn. */
  lemma FrameIsWritten(s: State, c: ConnId, frame: Frame, r: ConnId, routed: seq<Action>) returns (actions: seq<Action>)
    requires c in s.held && Ready(s, c, frame, r)
    requires Run(s, routed) == Some(Midway(s, c, Deadline(r), frame, true, {})) && AllSpare(routed)
    ensures Run(s, actions) == Some(Finished(s, c, LoopHead, Zeros(FRAME_SIZE), frame, r)) && AllSpare(actions)
  {
    hide Enabled, Apply, Ready, Midway, Finished, Run, AllSpare;
    var s5, s6 := Midway(s, c, Deadline(r), frame, true, {}), Midway(s, c, Writing(r), frame, true, {});
    var s7 := Finished(s, c, Burning, frame, frame, r);
    actions := routed;
    DeadlineStep(s, c, frame, r);
    StepOn(s, actions, s5, Routes(c, DeadlineOk), s6);
    actions := actions + [Routes(c, DeadlineOk)];
    WriteStep(s, c, frame, r);
    StepOn(s, actions, s6, Routes(c, WriteOk), s7);
    actions := actions + [Routes(c, WriteOk)];
    BurnStep(s, c, frame, r);
    StepOn(s, actions, s7, Buffers(c, Burn), Finished(s, c, LoopHead, Zeros(FRAME_SIZE), frame, r));
    actions := actions + [Buffers(c, Burn)];
  }

  /**
   The loop body as eight steps: read, note the heartbeat, look up under the read lock, set the deadline,
   write, burn. The frame is delivered to the connection registered under its prefix, the table and the lock
   are as before, and the handler is back at the head of its loop with a buffer of zeros.
   */
  lemma FrameGetsThrough(s: State, c: ConnId, frame: Frame, r: ConnId) returns (actions: seq<Action>, s': State)
    requires c in s.held && Ready(s, c, frame, r)
    ensures Run(s, actions) == Some(s') && s' == Finished(s, c, LoopHead, Zeros(FRAME_SIZE), frame, r)
    ensures AllSpare(actions)
    ensures DeliveredTo(s', r) == DeliveredTo(s, r) + [Delivery(c, |Fates(s, c)|, Packet(frame))]
  {
    hide Ready, Run, AllSpare, Packet;
    var routed := FrameIsRouted(s, c, frame, r);
    actions := FrameIsWritten(s, c, frame, r, routed);
    s' := Finished(s, c, LoopHead, Zeros(FRAME_SIZE), frame, r);
  }
}
