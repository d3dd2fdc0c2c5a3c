/** What the relay does with its buffers over whole runs. */
module RelayBuffers {
  import opened Bytes
  import opened RelayMachine
  import opened RelayInvariants
  import opened RelayTheorems

  /**
   Burn-on-read, on every path: a pooled buffer is all zeros, and so is the buffer of every handler that is
   at the head of its relay loop. No buffer is held by two handlers, or both held and pooled.
   */
  lemma BuffersAreBurnt(s: State)
    requires Reachable(s)
    ensures forall b <- s.pool :: b in s.buffers && s.buffers[b] == Zeros(FRAME_SIZE)
    ensures forall c: ConnId :: Handler(c) in s.threads && s.threads[Handler(c)].LoopHead? ==>
              HasBuffer(s, c) && Buffer(s, c) == Zeros(FRAME_SIZE)
    ensures forall c <- s.held :: s.held[c] !in s.pool
    ensures forall c, c' :: c in s.held && c' in s.held && s.held[c] == s.held[c'] ==> c == c'
    ensures forall c <- s.held :: Handler(c) in s.threads && !HoldAt(s.threads[Handler(c)]).NoBuffer?
  {
    hide Places, Locks, Keys, References, Table, Onces, Evictions, Done, NoOrphans, OldClosed, Routing, Clocks;
    ReachableInv(s);
    forall c: ConnId
      ensures Handler(c) in s.threads && s.threads[Handler(c)].LoopHead? ==>
                HasBuffer(s, c) && Buffer(s, c) == Zeros(FRAME_SIZE)
      ensures c in s.held ==> Handler(c) in s.threads && !HoldAt(s.threads[Handler(c)]).NoBuffer?
    {
      assert Holds(s, c, HoldOf(s.threads, c));
    }
  }
}
