/** A run of the relay in which a registered client falls silent: how long decides whether the next sweep evicts it. */
module RelaySilence {
  import opened Bytes
  import opened Protocol
  import opened RelayMachine
  import opened RelayRuns
  import opened RelayCapacity
  import opened RelayWitness
  import opened RelayAtomic

  const CLIENT: ConnId := 0

  /** Some seconds later. */
  function Later(s: State, seconds: nat): State {
    s.(clock := s.clock + seconds)
  }

  lemma {:induction false} TimePasses(s: State, seconds: nat) returns (actions: seq<Action>)
    ensures Run(s, actions) == Some(Later(s, seconds))
  {
    if seconds == 0 {
      actions := [];
    } else {
      actions := TimePasses(s, seconds - 1);
      hide Run;
      Then(s, actions, Later(s, seconds - 1), World(Tick), Later(s, seconds));
      actions := actions + [World(Tick)];
    }
  }

  /** One client is registered, nothing is going on, and the sweeper waits for its ticker. */
  predicate Alone(s: State, k: Key) {
    && Is(s, Sweeper, SweepIdle) && s.writer == None && s.readers == {} && s.running == map[] && s.evicted == {}
    && s.table == map[k := CLIENT] && CLIENT in s.publicKey && KeyOf(s, CLIENT) == k && CLIENT !in s.closed
  }

  function InSweep(s: State, pc: Pc, readers: set<Tid>): State {
    s.(threads := s.threads[Sweeper := pc], readers := readers)
  }

  function Marks(s: State): seq<ConnId> {
    if s.clock - LastAlive(s, CLIENT) > 45 then [CLIENT] else []
  }

  lemma SweepStarts(s: State, k: Key)
    requires Alone(s, k)
    ensures Enabled(s, Sweeps(StartSweep)) && Apply(s, Sweeps(StartSweep)) == InSweep(s, SweepWant(s.clock), {})
  {
  }

  lemma SweepLocks(s: State, k: Key)
    requires Alone(s, k)
    ensures var s1, a := InSweep(s, SweepWant(s.clock), {}), Lock(Sweeper, ReadLock);
      Enabled(s1, a) && Apply(s1, a) == InSweep(s, SweepScan(s.clock, {CLIENT}, [], {CLIENT}), {Sweeper})
  {
    var s1, a := InSweep(s, SweepWant(s.clock), {}), Lock(Sweeper, ReadLock);
    assert s.table[k] == CLIENT;
    assert s.table.Values == {CLIENT};
    assert Apply(s1, a).threads == s.threads[Sweeper := SweepScan(s.clock, {CLIENT}, [], {CLIENT})];
  }

  lemma SweepScans(s: State, k: Key)
    requires Alone(s, k)
    ensures var s1, a := InSweep(s, SweepScan(s.clock, {CLIENT}, [], {CLIENT}), {Sweeper}), Sweeps(ScanPeer(CLIENT));
      Enabled(s1, a) && Apply(s1, a) == InSweep(s, SweepScan(s.clock, {}, Marks(s), {CLIENT}), {Sweeper})
  {
    var s1, a := InSweep(s, SweepScan(s.clock, {CLIENT}, [], {CLIENT}), {Sweeper}), Sweeps(ScanPeer(CLIENT));
    assert {CLIENT} - {CLIENT} == {};
    assert [] + [CLIENT] == [CLIENT];
    assert Apply(s1, a).threads == s.threads[Sweeper := SweepScan(s.clock, {}, Marks(s), {CLIENT})];
  }

  lemma SweepUnlocks(s: State, k: Key)
    requires Alone(s, k)
    ensures var s1, a := InSweep(s, SweepScan(s.clock, {}, Marks(s), {CLIENT}), {Sweeper}), Lock(Sweeper, ReadUnlock);
      Enabled(s1, a) && Apply(s1, a) == InSweep(s, SweepNext(s.clock, Marks(s), {CLIENT}), {})
  {
    hide Marks;
    var s1, a := InSweep(s, SweepScan(s.clock, {}, Marks(s), {CLIENT}), {Sweeper}), Lock(Sweeper, ReadUnlock);
    assert {Sweeper} - {Sweeper} == {};
    assert Apply(s1, a).threads == s.threads[Sweeper := SweepNext(s.clock, Marks(s), {CLIENT})];
  }

  lemma SweepPicks(s: State, k: Key)
    requires Alone(s, k) && Marks(s) == [CLIENT]
    ensures var s1, a := InSweep(s, SweepNext(s.clock, Marks(s), {CLIENT}), {}), Sweeps(PickStale);
      var cont := ThenSweep(s.clock, [], {CLIENT});
      && Enabled(s1, a) && Apply(s1, a) == InSweep(s, Evicting(CLIENT, Enter, cont), {})
      && MayEvict(Apply(s1, a), Sweeper, CLIENT, cont)
  {
    var s1, a := InSweep(s, SweepNext(s.clock, Marks(s), {CLIENT}), {}), Sweeps(PickStale);
    assert [CLIENT][1..] == [];
    assert Apply(s1, a).threads == s.threads[Sweeper := Evicting(CLIENT, Enter, ThenSweep(s.clock, [], {CLIENT}))];
  }

  /** The sweep up to the point where it has released the read lock. */
  lemma SweepLooks(s: State, k: Key) returns (actions: seq<Action>)
    requires Alone(s, k)
    ensures Run(s, actions) == Some(InSweep(s, SweepNext(s.clock, Marks(s), {CLIENT}), {}))
  {
    SweepStarts(s, k);
    SweepLocks(s, k);
    SweepScans(s, k);
    SweepUnlocks(s, k);
    assert Run(s, []) == Some(s);
    hide Enabled, Apply, Run, InSweep, Marks;
    var s1, s2 := InSweep(s, SweepWant(s.clock), {}), InSweep(s, SweepScan(s.clock, {CLIENT}, [], {CLIENT}), {Sweeper});
    var s3 := InSweep(s, SweepScan(s.clock, {}, Marks(s), {CLIENT}), {Sweeper});
    Then(s, [], s, Sweeps(StartSweep), s1);
    actions := [] + [Sweeps(StartSweep)];
    Then(s, actions, s1, Lock(Sweeper, ReadLock), s2);
    actions := actions + [Lock(Sweeper, ReadLock)];
    Then(s, actions, s2, Sweeps(ScanPeer(CLIENT)), s3);
    actions := actions + [Sweeps(ScanPeer(CLIENT))];
    Then(s, actions, s3, Lock(Sweeper, ReadUnlock), InSweep(s, SweepNext(s.clock, Marks(s), {CLIENT}), {}));
    actions := actions + [Lock(Sweeper, ReadUnlock)];
  }

  /** A whole sweep with one client in the table. */
  lemma SweepsAlone(s: State, k: Key) returns (actions: seq<Action>, s': State)
    requires Alone(s, k)
    ensures Run(s, actions) == Some(s')
    ensures if s.clock - LastAlive(s, CLIENT) > 45 then s'.table == map[] && CLIENT in s'.closed
            else s'.table == s.table && CLIENT !in s'.closed
  {
    hide Run, Enabled, Apply, Alone, Marks, InSweep, AfterEviction, MayEvict;
    actions := SweepLooks(s, k);
    s' := InSweep(s, SweepNext(s.clock, Marks(s), {CLIENT}), {});
    Spared(s, k);
    if Marks(s) == [CLIENT] {
      SweepPicks(s, k);
      var s1, cont := s', ThenSweep(s.clock, [], {CLIENT});
      var s2 := InSweep(s, Evicting(CLIENT, Enter, cont), {});
      Then(s, actions, s1, Sweeps(PickStale), s2);
      var evicting := EvictionRuns(s2, Sweeper, CLIENT, cont);
      RunsAppend(s, actions + [Sweeps(PickStale)], evicting);
      actions := actions + [Sweeps(PickStale)] + evicting;
      s' := Evicted(s, k, cont);
    }
  }

  lemma Spared(s: State, k: Key)
    requires Alone(s, k)
    ensures Marks(s) == [CLIENT] <==> s.clock - LastAlive(s, CLIENT) > 45
    ensures var s' := InSweep(s, SweepNext(s.clock, Marks(s), {CLIENT}), {});
      s'.table == s.table && CLIENT !in s'.closed
  {
  }

  lemma Evicted(s: State, k: Key, cont: Cont) returns (s': State)
    requires Alone(s, k)
    ensures CLIENT in s.publicKey
    ensures s' == AfterEviction(InSweep(s, Evicting(CLIENT, Enter, cont), {}), Sweeper, CLIENT, cont)
    ensures s'.table == map[] && CLIENT in s'.closed
  {
    var s2 := InSweep(s, Evicting(CLIENT, Enter, cont), {});
    s' := AfterEviction(s2, Sweeper, CLIENT, cont);
    assert KeyOf(s2, CLIENT) == k && s.table[k] == CLIENT && s.table - {k} == map[];
  }

  /** A client registers. */
  lemma ClientRegisters(hash: Key -> Key, key: Key) returns (actions: seq<Action>, s: State)
    ensures Run(Init(hash), actions) == Some(s) && Alone(s, hash(key))
    ensures s.clock == LastAlive(s, CLIENT)
  {
    var s1 := Admitted(Init(hash));
    s := Stored(s1, CLIENT, key, GetBuffer, None);
    assert Leads(Init(hash), [], Init(hash), 1);
    FirstClient(hash);
    FreshClient(hash, key);
    hide Run, AdmitsAtMost, Admitted, Stored, Init, Alone;
    actions := Admit(Init(hash), [], Init(hash), 1);
    actions := Register(Init(hash), actions, s1, CLIENT, key, 1);
  }

  lemma FirstClient(hash: Key -> Key)
    ensures Quiet(Init(hash)) && |Init(hash).table| == 0 && |Init(hash).admitted| == 0
    ensures var s1 := Admitted(Init(hash)); Newcomer(s1, CLIENT) && |s1.admitted| == 1
  {
  }

  lemma FreshClient(hash: Key -> Key, key: Key)
    ensures var s := Stored(Admitted(Init(hash)), CLIENT, key, GetBuffer, None);
      Alone(s, hash(key)) && s.clock == LastAlive(s, CLIENT)
  {
    hide Hello;
  }

  /**
   The heartbeat timeout at work: a client that has registered and then been silent for some seconds is still there
   after the next sweep if these are at most 45, and otherwise closed and gone.
   */
  lemma SilenceDecides(hash: Key -> Key, key: Key, seconds: nat) returns (actions: seq<Action>, s: State)
    ensures Run(Init(hash), actions) == Some(s)
    ensures if seconds > 45 then s.table == map[] && CLIENT in s.closed
            else s.table == map[hash(key) := CLIENT] && CLIENT !in s.closed
  {
    hide Run, Init, Alone;
    var joining, s1 := ClientRegisters(hash, key);
    var waiting := TimePasses(s1, seconds);
    LaterAlone(s1, hash(key), seconds);
    var s2 := Later(s1, seconds);
    var sweeping, s3 := SweepsAlone(s2, hash(key));
    RunsAppend(Init(hash), joining, waiting);
    RunsAppend(Init(hash), joining + waiting, sweeping);
    actions, s := joining + waiting + sweeping, s3;
  }

  lemma LaterAlone(s: State, k: Key, seconds: nat)
    requires Alone(s, k) && s.clock == LastAlive(s, CLIENT)
    ensures Alone(Later(s, seconds), k) && Later(s, seconds).clock - LastAlive(Later(s, seconds), CLIENT) == seconds
    ensures s.table == Later(s, seconds).table == map[k := CLIENT]
  {
  }
}
