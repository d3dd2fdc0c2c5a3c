/**
 The relay's operations when nobody interrupts them: each is a run of the machine, and what it does to the table,
 the connections and the logs is what one call of it is for.
 */
module RelayAtomic {
  import opened Bytes
  import opened Protocol
  import opened RelayMachine
  import opened RelayRuns
  import opened RelayTurn

  lemma Then(s: State, actions: seq<Action>, s1: State, a: Action, s2: State)
    requires Run(s, actions) == Some(s1) && Enabled(s1, a) && Apply(s1, a) == s2
    ensures Run(s, actions + [a]) == Some(s2)
  {
    hide Run, Enabled, Apply;
    OneMore(s, actions, a);
  }

  // --- evict ---

  /** Thread `t` is about to evict `p`, the lock is free, and nobody else is at it. */
  predicate MayEvict(s: State, t: Tid, p: ConnId, cont: Cont) {
    && Is(s, t, Evicting(p, Enter, cont)) && s.writer == None && s.readers == {}
    && p in s.publicKey && p !in s.running
  }

  /** In the middle of it. */
  function Within(s: State, t: Tid, p: ConnId, stage: EvictStage, cont: Cont, writer: Option<Tid>,
                  closed: set<ConnId>, table: map<Key, ConnId>): State
  {
    s.(threads := s.threads[t := Evicting(p, stage, cont)], writer := writer, running := s.running[p := t],
       closed := closed, table := table)
  }

  /** What `evict` does, once only. */
  function AfterEviction(s: State, t: Tid, p: ConnId, cont: Cont): State
    requires p in s.publicKey
  {
    var s' := s.(threads := s.threads[t := AfterEvict(cont)]);
    if p in s.evicted then s'
    else
      s'.(closed := s.closed + {p}, table := Removed(s.table, KeyOf(s, p), p), evicted := s.evicted + {p})
  }

  lemma SkipRuns(s: State, t: Tid, p: ConnId, cont: Cont)
    requires MayEvict(s, t, p, cont) && p in s.evicted
    ensures Enabled(s, Evicts(t, SkipOnce)) && Apply(s, Evicts(t, SkipOnce)) == AfterEviction(s, t, p, cont)
  {
  }

  lemma EnterRuns(s: State, t: Tid, p: ConnId, cont: Cont)
    requires MayEvict(s, t, p, cont) && p !in s.evicted
    ensures var a := Evicts(t, EnterOnce);
      Enabled(s, a) && Apply(s, a) == Within(s, t, p, Close, cont, None, s.closed, s.table)
  {
  }

  lemma CloseRuns(s: State, t: Tid, p: ConnId, cont: Cont)
    requires MayEvict(s, t, p, cont)
    ensures var s1, a := Within(s, t, p, Close, cont, None, s.closed, s.table), Evicts(t, CloseEvicted);
      Enabled(s1, a) && Apply(s1, a) == Within(s, t, p, Want, cont, None, s.closed + {p}, s.table)
  {
    var s1, a := Within(s, t, p, Close, cont, None, s.closed, s.table), Evicts(t, CloseEvicted);
    assert Apply(s1, a).threads == s.threads[t := Evicting(p, Want, cont)];
  }

  lemma AnnounceRuns(s: State, t: Tid, p: ConnId, cont: Cont)
    requires MayEvict(s, t, p, cont)
    ensures var s1, a := Within(s, t, p, Want, cont, None, s.closed + {p}, s.table), Lock(t, Announce);
      Enabled(s1, a) && Apply(s1, a) == Within(s, t, p, Wait, cont, Some(t), s.closed + {p}, s.table)
  {
    var s1, a := Within(s, t, p, Want, cont, None, s.closed + {p}, s.table), Lock(t, Announce);
    assert Apply(s1, a).threads == s.threads[t := Evicting(p, Wait, cont)];
  }

  lemma AcquireRuns(s: State, t: Tid, p: ConnId, cont: Cont)
    requires MayEvict(s, t, p, cont)
    ensures var s1, a := Within(s, t, p, Wait, cont, Some(t), s.closed + {p}, s.table), Lock(t, Acquire);
      Enabled(s1, a) && Apply(s1, a) == Within(s, t, p, Delete, cont, Some(t), s.closed + {p}, s.table)
  {
    var s1, a := Within(s, t, p, Wait, cont, Some(t), s.closed + {p}, s.table), Lock(t, Acquire);
    assert Apply(s1, a).threads == s.threads[t := Evicting(p, Delete, cont)];
  }

  lemma DeleteRuns(s: State, t: Tid, p: ConnId, cont: Cont)
    requires MayEvict(s, t, p, cont)
    ensures var s1, a := Within(s, t, p, Delete, cont, Some(t), s.closed + {p}, s.table), Evicts(t, DeleteEntry);
      var table := Removed(s.table, KeyOf(s, p), p);
      Enabled(s1, a) && Apply(s1, a) == Within(s, t, p, Release, cont, Some(t), s.closed + {p}, table)
  {
    hide Removed;
    var s1, a := Within(s, t, p, Delete, cont, Some(t), s.closed + {p}, s.table), Evicts(t, DeleteEntry);
    assert Apply(s1, a).threads == s.threads[t := Evicting(p, Release, cont)];
  }

  lemma UnlockRuns(s: State, t: Tid, p: ConnId, cont: Cont, table: map<Key, ConnId>)
    requires MayEvict(s, t, p, cont)
    ensures var s1, a := Within(s, t, p, Release, cont, Some(t), s.closed + {p}, table), Lock(t, Unlock);
      Enabled(s1, a) && Apply(s1, a) == Within(s, t, p, Finish, cont, None, s.closed + {p}, table)
  {
    var s1, a := Within(s, t, p, Release, cont, Some(t), s.closed + {p}, table), Lock(t, Unlock);
    assert Apply(s1, a).threads == s.threads[t := Evicting(p, Finish, cont)];
  }

  lemma LeaveRuns(s: State, t: Tid, p: ConnId, cont: Cont, table: map<Key, ConnId>)
    requires MayEvict(s, t, p, cont)
    ensures var s1, a := Within(s, t, p, Finish, cont, None, s.closed + {p}, table), Evicts(t, LeaveOnce);
      && Enabled(s1, a)
      && Apply(s1, a) == s.(threads := s.threads[t := AfterEvict(cont)], closed := s.closed + {p}, table := table,
                            evicted := s.evicted + {p})
  {
    BackAgain(s.running, p, t);
    BothMoves(s.threads, t, Evicting(p, Finish, cont), AfterEvict(cont));
    hide AfterEvict;
  }

  lemma BackAgain<K, V>(m: map<K, V>, k: K, v: V)
    requires k !in m
    ensures m[k := v] - {k} == m
  {
  }

  lemma BothMoves<K, V>(m: map<K, V>, k: K, v: V, w: V)
    ensures m[k := v][k := w] == m[k := w]
  {
  }

  lemma EvictionRuns(s: State, t: Tid, p: ConnId, cont: Cont) returns (actions: seq<Action>)
    requires MayEvict(s, t, p, cont)
    ensures Run(s, actions) == Some(AfterEviction(s, t, p, cont))
  {
    var k := KeyOf(s, p);
    var closed, table := s.closed + {p}, Removed(s.table, k, p);
    assert Run(s, []) == Some(s);
    hide Enabled, Apply, Run, Within, Removed;
    if p in s.evicted {
      SkipRuns(s, t, p, cont);
      hide AfterEviction, MayEvict;
      Then(s, [], s, Evicts(t, SkipOnce), AfterEviction(s, t, p, cont));
      actions := [] + [Evicts(t, SkipOnce)];
    } else {
      EnterRuns(s, t, p, cont);
      CloseRuns(s, t, p, cont);
      AnnounceRuns(s, t, p, cont);
      AcquireRuns(s, t, p, cont);
      DeleteRuns(s, t, p, cont);
      UnlockRuns(s, t, p, cont, table);
      LeaveRuns(s, t, p, cont, table);
      hide AfterEviction, MayEvict;
      Then(s, [], s, Evicts(t, EnterOnce), Within(s, t, p, Close, cont, None, s.closed, s.table));
      actions := [] + [Evicts(t, EnterOnce)];
      Then(s, actions, Within(s, t, p, Close, cont, None, s.closed, s.table), Evicts(t, CloseEvicted),
           Within(s, t, p, Want, cont, None, closed, s.table));
      actions := actions + [Evicts(t, CloseEvicted)];
      Then(s, actions, Within(s, t, p, Want, cont, None, closed, s.table), Lock(t, Announce),
           Within(s, t, p, Wait, cont, Some(t), closed, s.table));
      actions := actions + [Lock(t, Announce)];
      Then(s, actions, Within(s, t, p, Wait, cont, Some(t), closed, s.table), Lock(t, Acquire),
           Within(s, t, p, Delete, cont, Some(t), closed, s.table));
      actions := actions + [Lock(t, Acquire)];
      Then(s, actions, Within(s, t, p, Delete, cont, Some(t), closed, s.table), Evicts(t, DeleteEntry),
           Within(s, t, p, Release, cont, Some(t), closed, table));
      actions := actions + [Evicts(t, DeleteEntry)];
      Then(s, actions, Within(s, t, p, Release, cont, Some(t), closed, table), Lock(t, Unlock),
           Within(s, t, p, Finish, cont, None, closed, table));
      actions := actions + [Lock(t, Unlock)];
      Then(s, actions, Within(s, t, p, Finish, cont, None, closed, table), Evicts(t, LeaveOnce),
           AfterEviction(s, t, p, cont));
      actions := actions + [Evicts(t, LeaveOnce)];
    }
  }

  // --- one turn of a relay loop, and the eviction that it may start ---

  /** The eviction goroutines have been numbered one after the other. */
  ghost predicate EvictorsNumbered(s: State) {
    forall t <- s.threads :: t.Evictor? ==> t.n < s.nextEvictor
  }

  /** What a whole turn of handler `c` leaves: the fate of the frame, and the recipient that was evicted for it. */
  ghost predicate Turned(s: State, s': State, c: ConnId, frame: Frame, fate: Fate) {
    && s'.writer == None && s'.readers == {} && s'.hash == s.hash && s'.publicKey == s.publicKey
    && s'.running == s.running && s'.clock == s.clock && s'.sent == s.sent
    && Is(s', Handler(c), LoopHead) && (EvictorsNumbered(s) ==> EvictorsNumbered(s'))
    && s'.lastAlive == s.lastAlive[c := s.clock]
    && s'.fates == s.fates[c := Fates(s, c) + [fate]]
    && s'.delivered == (if fate.Delivered? then WithDelivery(s, c, frame, fate.recipient) else s.delivered)
    && if fate.WriteFailed? || fate.DeadlineFailed? then
         && fate.recipient in s.publicKey
         && s'.table == Removed(s.table, KeyOf(s, fate.recipient), fate.recipient)
         && s'.closed == s.closed + {fate.recipient}
         && s'.evicted == s.evicted + {fate.recipient}
       else s'.table == s.table && s'.closed == s.closed && s'.evicted == s.evicted
  }

  function WithDelivery(s: State, c: ConnId, frame: Frame, r: ConnId): map<ConnId, seq<Delivery>> {
    s.delivered[r := DeliveredTo(s, r) + [Delivery(c, |Fates(s, c)|, Packet(frame))]]
  }

  lemma MissStep(s: State, c: ConnId, frame: Frame) returns (s1: State)
    requires c in s.held && Readable(s, c, frame) && Prefix(frame) !in s.table
    ensures var s0, a := Midway(s, c, LookupTest, frame, true, {Handler(c)}), Routes(c, LookupMiss);
      && Enabled(s0, a) && Apply(s0, a) == s1
      && s1 == Midway(s, c, LookupDone(None), frame, true, {Handler(c)}).(
                 fates := s.fates[c := Fates(s, c) + [NoRecipient]])
  {
    hide Prefix;
    var s0, a := Midway(s, c, LookupTest, frame, true, {Handler(c)}), Routes(c, LookupMiss);
    s1 := Apply(s0, a);
    assert s1.threads == s.threads[Handler(c) := LookupDone(None)];
  }

  lemma MissUnlock(s: State, c: ConnId, frame: Frame, fates: map<ConnId, seq<Fate>>) returns (s2: State)
    requires c in s.held && Readable(s, c, frame)
    ensures var s1, a := Midway(s, c, LookupDone(None), frame, true, {Handler(c)}).(fates := fates),
                         Lock(Handler(c), ReadUnlock);
      && Enabled(s1, a) && Apply(s1, a) == s2
      && s2 == Midway(s, c, Burning, frame, true, {}).(fates := fates)
  {
    hide Prefix;
    var s1 := Midway(s, c, LookupDone(None), frame, true, {Handler(c)}).(fates := fates);
    var a := Lock(Handler(c), ReadUnlock);
    s2 := Apply(s1, a);
    assert s2.threads == s.threads[Handler(c) := Burning];
    assert {Handler(c)} - {Handler(c)} == {};
  }

  /** Handler `c` is about to clear its buffer, which ends the turn. */
  lemma BurnEnds(s: State, c: ConnId) returns (s': State)
    requires Is(s, Handler(c), Burning) && HasBuffer(s, c)
    ensures var a := Buffers(c, Burn); Enabled(s, a) && Apply(s, a) == s'
    ensures s' == s.(threads := s.threads[Handler(c) := LoopHead],
                     buffers := s.buffers[s.held[c] := Zeros(FRAME_SIZE)])
  {
    s' := Apply(s, Buffers(c, Burn));
  }

  lemma MissedTurned(s: State, c: ConnId, frame: Frame, s': State)
    requires c in s.held && Readable(s, c, frame)
    requires s' == Midway(s, c, Burning, frame, true, {}).(
                     fates := s.fates[c := Fates(s, c) + [NoRecipient]],
                     threads := s.threads[Handler(c) := LoopHead],
                     buffers := s.buffers[s.held[c] := Zeros(FRAME_SIZE)])
    ensures Turned(s, s', c, frame, NoRecipient)
  {
    hide Fates;
  }

  /** Clearing the buffer after a turn that stopped halfway. */
  lemma MidwayBurns(s: State, c: ConnId, frame: Frame, fates: map<ConnId, seq<Fate>>) returns (s': State)
    requires c in s.held && Readable(s, c, frame)
    ensures var s1, a := Midway(s, c, Burning, frame, true, {}).(fates := fates), Buffers(c, Burn);
      Enabled(s1, a) && Apply(s1, a) == s'
    ensures s' == Midway(s, c, Burning, frame, true, {}).(
                    fates := fates,
                    threads := s.threads[Handler(c) := LoopHead],
                    buffers := s.buffers[s.held[c] := Zeros(FRAME_SIZE)])
  {
    var s1 := Midway(s, c, Burning, frame, true, {}).(fates := fates);
    s' := BurnEnds(s1, c);
    assert s'.threads == s.threads[Handler(c) := LoopHead];
    assert s'.buffers == s.buffers[s.held[c] := Zeros(FRAME_SIZE)];
  }

  lemma MissTurn(s: State, c: ConnId, frame: Frame) returns (actions: seq<Action>, s': State)
    requires c in s.held && Readable(s, c, frame) && Prefix(frame) !in s.table
    ensures Run(s, actions) == Some(s') && Turned(s, s', c, frame, NoRecipient)
  {
    actions := FrameIsRead(s, c, frame);
    hide Enabled, Apply, Run, Readable, Turned;
    var s1 := MissStep(s, c, frame);
    var s2 := MissUnlock(s, c, frame, s1.fates);
    var s3 := MidwayBurns(s, c, frame, s1.fates);
    MissedTurned(s, c, frame, s3);
    hide Midway;
    Then(s, actions, Midway(s, c, LookupTest, frame, true, {Handler(c)}), Routes(c, LookupMiss), s1);
    actions := actions + [Routes(c, LookupMiss)];
    Then(s, actions, s1, Lock(Handler(c), ReadUnlock), s2);
    actions := actions + [Lock(Handler(c), ReadUnlock)];
    Then(s, actions, s2, Buffers(c, Burn), s3);
    actions, s' := actions + [Buffers(c, Burn)], s3;
  }

  /** The recipient of a frame whose write fails can be evicted. */
  predicate Evictable(s: State, r: ConnId) {
    r in s.publicKey && r !in s.running && r !in s.evicted && Evictor(s.nextEvictor) !in s.threads
  }

  /** The write has failed and a new goroutine is about to evict the recipient. */
  function Failed(s: State, c: ConnId, frame: Frame, fate: Fate, r: ConnId): State
    requires c in s.held
  {
    var s1 := Midway(s, c, Burning, frame, true, {});
    s1.(threads := s1.threads[Evictor(s.nextEvictor) := Evicting(r, Enter, ThenEnd)],
        fates := s.fates[c := Fates(s, c) + [fate]], nextEvictor := s.nextEvictor + 1)
  }

  lemma SameFates(s: State, s': State, c: ConnId)
    requires s'.fates == s.fates
    ensures Fates(s', c) == Fates(s, c)
  {
  }

  lemma DeadlineFailStep(s: State, c: ConnId, frame: Frame, r: ConnId)
    requires c in s.held && Ready(s, c, frame, r)
    ensures var s1, a := Midway(s, c, Deadline(r), frame, true, {}), Routes(c, DeadlineFails);
      Enabled(s1, a) && Apply(s1, a) == Failed(s, c, frame, DeadlineFailed(r), r)
  {
    hide Prefix, Fates;
    var s1, a := Midway(s, c, Deadline(r), frame, true, {}), Routes(c, DeadlineFails);
    assert Fates(s1, c) == Fates(s, c) by { SameFates(s, s1, c); }
    assert Apply(s1, a).threads ==
           s.threads[Handler(c) := Burning][Evictor(s.nextEvictor) := Evicting(r, Enter, ThenEnd)];
  }

  lemma WriteFailStep(s: State, c: ConnId, frame: Frame, r: ConnId)
    requires c in s.held && Ready(s, c, frame, r)
    ensures var s1, a := Midway(s, c, Writing(r), frame, true, {}), Routes(c, WriteFails);
      Enabled(s1, a) && Apply(s1, a) == Failed(s, c, frame, WriteFailed(r), r)
  {
    hide Prefix, Fates;
    var s1, a := Midway(s, c, Writing(r), frame, true, {}), Routes(c, WriteFails);
    assert Fates(s1, c) == Fates(s, c) by { SameFates(s, s1, c); }
    assert Apply(s1, a).threads ==
           s.threads[Handler(c) := Burning][Evictor(s.nextEvictor) := Evicting(r, Enter, ThenEnd)];
  }

  /** The goroutine evicts the recipient, and the handler clears its buffer. */
  lemma FailureEnds(s: State, c: ConnId, frame: Frame, fate: Fate, r: ConnId, before: seq<Action>)
    returns (actions: seq<Action>, s': State)
    requires c in s.held && Ready(s, c, frame, r) && Evictable(s, r)
    requires fate in {DeadlineFailed(r), WriteFailed(r)} && Run(s, before) == Some(Failed(s, c, frame, fate, r))
    ensures Run(s, actions) == Some(s') && Turned(s, s', c, frame, fate)
  {
    hide Enabled, Apply, Run, Turned;
    var s1, t := Failed(s, c, frame, fate, r), Evictor(s.nextEvictor);
    FailedEvicts(s, c, frame, fate, r);
    FailedBurns(s, c, frame, fate, r);
    var evicting := EvictionRuns(s1, t, r, ThenEnd);
    var s2 := AfterEviction(s1, t, r, ThenEnd);
    RunsAppend(s, before, evicting);
    var s3 := BurnEnds(s2, c);
    FailedTurned(s, c, frame, fate, r, s3);
    Then(s, before + evicting, s2, Buffers(c, Burn), s3);
    actions, s' := before + evicting + [Buffers(c, Burn)], s3;
  }

  lemma FailedEvicts(s: State, c: ConnId, frame: Frame, fate: Fate, r: ConnId)
    requires c in s.held && Ready(s, c, frame, r) && Evictable(s, r)
    ensures MayEvict(Failed(s, c, frame, fate, r), Evictor(s.nextEvictor), r, ThenEnd)
  {
    hide Prefix, Fates;
  }

  lemma FailedBurns(s: State, c: ConnId, frame: Frame, fate: Fate, r: ConnId)
    requires c in s.held && Ready(s, c, frame, r) && Evictable(s, r)
    ensures var s2 := AfterEviction(Failed(s, c, frame, fate, r), Evictor(s.nextEvictor), r, ThenEnd);
      Is(s2, Handler(c), Burning) && HasBuffer(s2, c)
  {
    hide Prefix, Fates, Removed, KeyOf;
  }

  lemma FailedTurned(s: State, c: ConnId, frame: Frame, fate: Fate, r: ConnId, s': State)
    requires c in s.held && Ready(s, c, frame, r) && Evictable(s, r)
    requires fate in {DeadlineFailed(r), WriteFailed(r)}
    requires var s2 := AfterEviction(Failed(s, c, frame, fate, r), Evictor(s.nextEvictor), r, ThenEnd);
      c in s2.held && s' == s2.(threads := s2.threads[Handler(c) := LoopHead],
                                buffers := s2.buffers[s2.held[c] := Zeros(FRAME_SIZE)])
    ensures Turned(s, s', c, frame, fate)
  {
    hide Prefix, Packet, Fates, Removed;
  }

  lemma FailTurn(s: State, c: ConnId, frame: Frame, r: ConnId, deadlineOk: bool)
    returns (actions: seq<Action>, s': State)
    requires c in s.held && Ready(s, c, frame, r) && Evictable(s, r)
    ensures Run(s, actions) == Some(s')
    ensures Turned(s, s', c, frame, if deadlineOk then WriteFailed(r) else DeadlineFailed(r))
  {
    var before := FrameIsRouted(s, c, frame, r);
    DeadlineStep(s, c, frame, r);
    DeadlineFailStep(s, c, frame, r);
    WriteFailStep(s, c, frame, r);
    hide Enabled, Apply, Run, Ready, Midway, Failed, Turned;
    var s1 := Midway(s, c, Deadline(r), frame, true, {});
    if deadlineOk {
      var s2 := Midway(s, c, Writing(r), frame, true, {});
      Then(s, before, s1, Routes(c, DeadlineOk), s2);
      before := before + [Routes(c, DeadlineOk)];
      Then(s, before, s2, Routes(c, WriteFails), Failed(s, c, frame, WriteFailed(r), r));
      before := before + [Routes(c, WriteFails)];
      actions, s' := FailureEnds(s, c, frame, WriteFailed(r), r, before);
    } else {
      Then(s, before, s1, Routes(c, DeadlineFails), Failed(s, c, frame, DeadlineFailed(r), r));
      before := before + [Routes(c, DeadlineFails)];
      actions, s' := FailureEnds(s, c, frame, DeadlineFailed(r), r, before);
    }
  }

  /** The fate of a frame, depending on the table and on what the connection of the recipient does. */
  function FateOf(s: State, frame: Frame, deadlineOk: bool, writeOk: bool): Fate {
    var k := Prefix(frame);
    if k !in s.table then NoRecipient
    else if !deadlineOk then DeadlineFailed(s.table[k])
    else if !writeOk then WriteFailed(s.table[k])
    else Delivered(s.table[k])
  }

  /** A whole turn of handler `c`, whatever becomes of the frame. */
  lemma TurnRuns(s: State, c: ConnId, frame: Frame, deadlineOk: bool, writeOk: bool)
    returns (actions: seq<Action>, s': State)
    requires c in s.held && Readable(s, c, frame)
    requires forall k <- s.table :: s.table[k] !in s.closed && Evictable(s, s.table[k])
    ensures Run(s, actions) == Some(s') && Turned(s, s', c, frame, FateOf(s, frame, deadlineOk, writeOk))
  {
    hide Run, Turned, Evictable, Prefix, Packet;
    var k := Prefix(frame);
    if k !in s.table {
      actions, s' := MissTurn(s, c, frame);
    } else if deadlineOk && writeOk {
      actions, s' := FrameGetsThrough(s, c, frame, s.table[k]);
      FinishedTurned(s, c, frame, s.table[k]);
    } else {
      actions, s' := FailTurn(s, c, frame, s.table[k], deadlineOk);
    }
  }

  lemma FinishedTurned(s: State, c: ConnId, frame: Frame, r: ConnId)
    requires c in s.held && Ready(s, c, frame, r)
    ensures Turned(s, Finished(s, c, LoopHead, Zeros(FRAME_SIZE), frame, r), c, frame, Delivered(r))
  {
    hide Prefix, Packet;
  }
}
