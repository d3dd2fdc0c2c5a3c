/** Runs that exist: the capacity bound is reached, for every number of connections admitted at a time. */
module RelayWitness {
  import opened Bytes
  import opened Positional
  import opened Words
  import opened Protocol
  import opened RelayMachine
  import opened RelayCapacity
  import opened RelayRuns

  /** A run of the relay in which at most `bound` connections are admitted at a time. */
  ghost predicate Leads(s: State, actions: seq<Action>, s': State, bound: nat) {
    Run(s, actions) == Some(s') && AdmitsAtMost(s, actions, bound)
  }

  lemma LeadsOn(s: State, actions: seq<Action>, s1: State, a: Action, s2: State, bound: nat)
    requires Leads(s, actions, s1, bound) && Enabled(s1, a) && s2 == Apply(s1, a) && |s2.admitted| <= bound
    ensures Leads(s, actions + [a], s2, bound)
  {
    hide Enabled, Apply, Run;
    OneMore(s, actions, a);
    assert (actions + [a])[..|actions|] == actions;
  }

  /** Nobody uses the lock and the accept loop waits for a connection. */
  predicate Quiet(s: State) {
    Is(s, Acceptor, Accepting) && s.listening && s.writer == None && s.readers == {}
  }

  // --- a connection is accepted and passes the check ---

  function Checking(s: State, pc: Pc, readers: set<Tid>, admitted: set<ConnId>): State {
    s.(threads := s.threads[Acceptor := pc], nextConn := s.nextConn + 1, joining := s.joining + {s.nextConn},
       readers := readers, admitted := admitted)
  }

  function Admitted(s: State): State {
    s.(threads := s.threads[Acceptor := Accepting][Handler(s.nextConn) := Handshaking], nextConn := s.nextConn + 1,
       joining := s.joining + {s.nextConn}, admitted := s.admitted + {s.nextConn})
  }

  lemma CheckStarts(s: State)
    requires Quiet(s)
    ensures Enabled(s, Accepts(Accept))
    ensures Apply(s, Accepts(Accept)) == Checking(s, FullWant(s.nextConn), {}, s.admitted)
  {
  }

  lemma CheckLocks(s: State)
    requires Quiet(s)
    ensures var s1 := Checking(s, FullWant(s.nextConn), {}, s.admitted);
      && Enabled(s1, Lock(Acceptor, ReadLock))
      && Apply(s1, Lock(Acceptor, ReadLock)) == Checking(s, FullTest(s.nextConn), {Acceptor}, s.admitted)
  {
    var s1, a := Checking(s, FullWant(s.nextConn), {}, s.admitted), Lock(Acceptor, ReadLock);
    assert Apply(s1, a).threads == s.threads[Acceptor := FullTest(s.nextConn)];
  }

  lemma CheckPasses(s: State)
    requires Quiet(s) && |s.table| < MAX_PEERS
    ensures var n, s1 := s.nextConn, Checking(s, FullTest(s.nextConn), {Acceptor}, s.admitted);
      && Enabled(s1, Accepts(TestFull))
      && Apply(s1, Accepts(TestFull)) == Checking(s, FullTested(n, false), {Acceptor}, s.admitted + {n})
  {
    var n, s1 := s.nextConn, Checking(s, FullTest(s.nextConn), {Acceptor}, s.admitted);
    assert Apply(s1, Accepts(TestFull)).threads == s.threads[Acceptor := FullTested(n, false)];
  }

  lemma CheckUnlocks(s: State)
    requires Quiet(s)
    ensures var n, a := s.nextConn, Lock(Acceptor, ReadUnlock);
      var s1 := Checking(s, FullTested(n, false), {Acceptor}, s.admitted + {n});
      Enabled(s1, a) && Apply(s1, a) == Checking(s, Verdict(n, false), {}, s.admitted + {n})
  {
    var n, a := s.nextConn, Lock(Acceptor, ReadUnlock);
    var s1 := Checking(s, FullTested(n, false), {Acceptor}, s.admitted + {n});
    assert Apply(s1, a).threads == s.threads[Acceptor := Verdict(n, false)];
    assert {Acceptor} - {Acceptor} == {};
  }

  lemma CheckEnds(s: State)
    requires Quiet(s)
    ensures var s1 := Checking(s, Verdict(s.nextConn, false), {}, s.admitted + {s.nextConn});
      Enabled(s1, Accepts(Spawn)) && Apply(s1, Accepts(Spawn)) == Admitted(s)
  {
    var s1 := Checking(s, Verdict(s.nextConn, false), {}, s.admitted + {s.nextConn});
    assert Apply(s1, Accepts(Spawn)).threads == Admitted(s).threads;
  }

  /** Room in the table, and one connection more is admitted. */
  lemma Admit(s0: State, actions: seq<Action>, s: State, bound: nat) returns (more: seq<Action>)
    requires Leads(s0, actions, s, bound) && Quiet(s) && |s.table| < MAX_PEERS && |s.admitted| < bound
    ensures Leads(s0, more, Admitted(s), bound)
  {
    hide Leads, Enabled, Apply, Quiet;
    var n := s.nextConn;
    CheckStarts(s);
    CheckLocks(s);
    CheckPasses(s);
    CheckUnlocks(s);
    CheckEnds(s);
    more := actions;
    LeadsOn(s0, more, s, Accepts(Accept), Checking(s, FullWant(n), {}, s.admitted), bound);
    more := more + [Accepts(Accept)];
    LeadsOn(s0, more, Checking(s, FullWant(n), {}, s.admitted), Lock(Acceptor, ReadLock),
            Checking(s, FullTest(n), {Acceptor}, s.admitted), bound);
    more := more + [Lock(Acceptor, ReadLock)];
    LeadsOn(s0, more, Checking(s, FullTest(n), {Acceptor}, s.admitted), Accepts(TestFull),
            Checking(s, FullTested(n, false), {Acceptor}, s.admitted + {n}), bound);
    more := more + [Accepts(TestFull)];
    LeadsOn(s0, more, Checking(s, FullTested(n, false), {Acceptor}, s.admitted + {n}), Lock(Acceptor, ReadUnlock),
            Checking(s, Verdict(n, false), {}, s.admitted + {n}), bound);
    more := more + [Lock(Acceptor, ReadUnlock)];
    LeadsOn(s0, more, Checking(s, Verdict(n, false), {}, s.admitted + {n}), Accepts(Spawn), Admitted(s), bound);
    more := more + [Accepts(Spawn)];
  }

  // --- a connection registers ---

  function Hello(key: Key): seq<byte> {
    HandshakeBytes(Handshake(VERSION, key, key))
  }

  lemma HelloIsGood(key: Key)
    ensures GoodHello(Hello(key)) && HandshakeOf(Hello(key)).value.senderKey == key
  {
    DecodeHandshakeBytes(Handshake(VERSION, key, key), []);
    assert Hello(key) + [] == Hello(key);
  }

  function Registering(s: State, c: ConnId, key: Key, pc: Pc, writer: Option<Tid>): State {
    s.(threads := s.threads[Handler(c) := pc], publicKey := s.publicKey[c := key],
       lastAlive := s.lastAlive[c := s.clock], heard := s.heard[c := s.clock], writer := writer)
  }

  /** The closed connections after the one registered under `k`, if any, has been closed. */
  function ClosedFor(s: State, k: Key): set<ConnId> {
    if k in s.table then s.closed + {s.table[k]} else s.closed
  }

  function Superseding(s: State, c: ConnId, key: Key, writer: Option<Tid>): State {
    Registering(s, c, key, RegStore, writer).(closed := ClosedFor(s, s.hash(key)))
  }

  function Stored(s: State, c: ConnId, key: Key, pc: Pc, writer: Option<Tid>): State {
    Registering(s, c, key, pc, writer).(
      closed := ClosedFor(s, s.hash(key)), table := s.table[s.hash(key) := c], registered := s.registered + {c},
      joining := s.joining - {c}, admitted := s.admitted - {c})
  }

  /** The lock is free and the connection is at its handshake. */
  predicate Newcomer(s: State, c: ConnId) {
    s.writer == None && s.readers == {} && Is(s, Handler(c), Handshaking)
  }

  lemma HandshakeStep(s: State, c: ConnId, key: Key)
    requires Newcomer(s, c)
    ensures var a := Joins(c, HandshakeOk(Hello(key)));
      Enabled(s, a) && Apply(s, a) == Registering(s, c, key, RegWant, None)
  {
    hide Hello, GoodHello, HandshakeOf;
    HelloIsGood(key);
  }

  lemma AnnounceStep(s: State, c: ConnId, key: Key)
    requires Newcomer(s, c)
    ensures var s1, a := Registering(s, c, key, RegWant, None), Lock(Handler(c), Announce);
      Enabled(s1, a) && Apply(s1, a) == Registering(s, c, key, RegWait, Some(Handler(c)))
  {
    var s1, a := Registering(s, c, key, RegWant, None), Lock(Handler(c), Announce);
    assert Apply(s1, a).threads == s.threads[Handler(c) := RegWait];
  }

  lemma AcquireStep(s: State, c: ConnId, key: Key)
    requires Newcomer(s, c)
    ensures var s1, a := Registering(s, c, key, RegWait, Some(Handler(c))), Lock(Handler(c), Acquire);
      Enabled(s1, a) && Apply(s1, a) == Registering(s, c, key, RegClose, Some(Handler(c)))
  {
    var s1, a := Registering(s, c, key, RegWait, Some(Handler(c))), Lock(Handler(c), Acquire);
    assert Apply(s1, a).threads == s.threads[Handler(c) := RegClose];
  }

  lemma CloseOldStep(s: State, c: ConnId, key: Key)
    requires Newcomer(s, c)
    ensures var s1, a := Registering(s, c, key, RegClose, Some(Handler(c))), Joins(c, CloseOld);
      Enabled(s1, a) && Apply(s1, a) == Superseding(s, c, key, Some(Handler(c)))
  {
    var s1, a := Registering(s, c, key, RegClose, Some(Handler(c))), Joins(c, CloseOld);
    assert KeyOf(s1, c) == s.hash(key);
    assert Apply(s1, a).threads == s.threads[Handler(c) := RegStore];
  }

  lemma StoreStep(s: State, c: ConnId, key: Key)
    requires Newcomer(s, c)
    ensures var s1, a := Superseding(s, c, key, Some(Handler(c))), Joins(c, Store);
      Enabled(s1, a) && Apply(s1, a) == Stored(s, c, key, RegUnlock, Some(Handler(c)))
  {
    hide HandshakeOf;
    var s1, a := Superseding(s, c, key, Some(Handler(c))), Joins(c, Store);
    assert KeyOf(s1, c) == s.hash(key);
    assert Apply(s1, a).threads == s.threads[Handler(c) := RegUnlock];
  }

  lemma UnlockStep(s: State, c: ConnId, key: Key)
    requires Newcomer(s, c)
    ensures var s1, a := Stored(s, c, key, RegUnlock, Some(Handler(c))), Lock(Handler(c), Unlock);
      Enabled(s1, a) && Apply(s1, a) == Stored(s, c, key, GetBuffer, None)
  {
    var s1, a := Stored(s, c, key, RegUnlock, Some(Handler(c))), Lock(Handler(c), Unlock);
    assert Apply(s1, a).threads == s.threads[Handler(c) := GetBuffer];
  }

  lemma StoredAdmits(s: State, c: ConnId, key: Key, pc: Pc, writer: Option<Tid>)
    ensures |Registering(s, c, key, pc, writer).admitted| == |Superseding(s, c, key, writer).admitted| == |s.admitted|
    ensures |Stored(s, c, key, pc, writer).admitted| <= |s.admitted|
  {
    assert s.admitted == (s.admitted - {c}) + (s.admitted * {c});
  }

  /** One connection registers; the one that it supersedes is closed. */
  lemma Register(s0: State, actions: seq<Action>, s: State, c: ConnId, key: Key, bound: nat) returns (more: seq<Action>)
    requires Leads(s0, actions, s, bound) && Newcomer(s, c) && |s.admitted| <= bound
    ensures Leads(s0, more, Stored(s, c, key, GetBuffer, None), bound)
  {
    hide Leads, Enabled, Apply, Newcomer, Registering, Superseding, Stored, Hello;
    var t, w := Handler(c), Some(Handler(c));
    HandshakeStep(s, c, key);
    AnnounceStep(s, c, key);
    AcquireStep(s, c, key);
    CloseOldStep(s, c, key);
    StoreStep(s, c, key);
    UnlockStep(s, c, key);
    StoredAdmits(s, c, key, RegWant, None);
    StoredAdmits(s, c, key, RegWait, w);
    StoredAdmits(s, c, key, RegClose, w);
    StoredAdmits(s, c, key, RegStore, w);
    StoredAdmits(s, c, key, RegUnlock, w);
    StoredAdmits(s, c, key, GetBuffer, None);
    more := actions;
    LeadsOn(s0, more, s, Joins(c, HandshakeOk(Hello(key))), Registering(s, c, key, RegWant, None), bound);
    more := more + [Joins(c, HandshakeOk(Hello(key)))];
    LeadsOn(s0, more, Registering(s, c, key, RegWant, None), Lock(t, Announce),
            Registering(s, c, key, RegWait, w), bound);
    more := more + [Lock(t, Announce)];
    LeadsOn(s0, more, Registering(s, c, key, RegWait, w), Lock(t, Acquire), Registering(s, c, key, RegClose, w), bound);
    more := more + [Lock(t, Acquire)];
    LeadsOn(s0, more, Registering(s, c, key, RegClose, w), Joins(c, CloseOld),
            Superseding(s, c, key, w), bound);
    more := more + [Joins(c, CloseOld)];
    LeadsOn(s0, more, Superseding(s, c, key, w), Joins(c, Store), Stored(s, c, key, RegUnlock, w), bound);
    more := more + [Joins(c, Store)];
    LeadsOn(s0, more, Stored(s, c, key, RegUnlock, w), Lock(t, Unlock), Stored(s, c, key, GetBuffer, None), bound);
    more := more + [Lock(t, Unlock)];
  }

  // --- the bound is reached ---

  const SAME: Key -> Key := key => key

  /** A key for every connection, different ones for different connections. */
  function KeyFor(c: ConnId): Key { Put(c, 32) }

  /** The connections from `lo` and below `hi` are admitted and at their handshakes. */
  ghost predicate AtHandshake(threads: map<Tid, Pc>, admitted: set<ConnId>, lo: nat, hi: nat) {
    && |admitted| == hi - lo
    && (forall c: ConnId :: c in admitted <==> lo <= c < hi)
    && forall c: ConnId :: c in admitted ==> Handler(c) in threads && threads[Handler(c)].Handshaking?
  }

  ghost predicate KeysBelow(table: map<Key, ConnId>, lo: nat) {
    |table| == lo && forall k <- table :: Get(k) < lo
  }

  /** The connections below `lo` are registered. */
  ghost predicate Built(s: State, lo: nat, hi: nat) {
    && Quiet(s) && s.hash == SAME && s.nextConn == hi && KeysBelow(s.table, lo)
    && AtHandshake(s.threads, s.admitted, lo, hi)
  }

  lemma OneAtHandshake(threads: map<Tid, Pc>, admitted: set<ConnId>, lo: nat, hi: nat)
    requires AtHandshake(threads, admitted, lo, hi) && lo <= hi
    ensures AtHandshake(threads[Acceptor := Accepting][Handler(hi) := Handshaking], admitted + {hi}, lo, hi + 1)
  {
    assert |admitted + {hi}| == |admitted| + 1;
  }

  lemma AdmittedBuilt(s: State, lo: nat, hi: nat)
    requires Built(s, lo, hi) && lo <= hi
    ensures Built(Admitted(s), lo, hi + 1)
  {
    hide Get, AtHandshake;
    OneAtHandshake(s.threads, s.admitted, lo, hi);
  }

  lemma LowestIsNew(s: State, lo: nat, hi: nat)
    requires Built(s, lo, hi) && lo < hi && Get(KeyFor(lo)) == lo
    ensures Newcomer(s, lo) && KeyFor(lo) !in s.table && lo in s.admitted
  {
    hide KeyFor, Get;
    assert s.hash(KeyFor(lo)) == KeyFor(lo);
  }

  lemma StoredBuilt(s: State, lo: nat, hi: nat)
    requires Built(s, lo, hi) && lo < hi && Get(KeyFor(lo)) == lo
    requires Newcomer(s, lo) && KeyFor(lo) !in s.table && lo in s.admitted
    ensures Built(Stored(s, lo, KeyFor(lo), GetBuffer, None), lo + 1, hi)
  {
    hide KeyFor, Get, AtHandshake, KeysBelow;
    OneRegistered(s.threads, s.admitted, lo, hi);
    OneKeyMore(s.table, KeyFor(lo), lo);
  }

  lemma OneKeyMore(table: map<Key, ConnId>, k: Key, lo: nat)
    requires KeysBelow(table, lo) && Get(k) == lo && k !in table
    ensures KeysBelow(table[k := lo], lo + 1)
  {
    assert |table[k := lo]| == |table| + 1;
  }

  lemma OneRegistered(threads: map<Tid, Pc>, admitted: set<ConnId>, lo: nat, hi: nat)
    requires AtHandshake(threads, admitted, lo, hi) && lo in admitted
    ensures AtHandshake(threads[Handler(lo) := GetBuffer], admitted - {lo}, lo + 1, hi)
  {
    assert |admitted - {lo}| == |admitted| - 1;
  }

  lemma InitBuilt()
    ensures Built(Init(SAME), 0, 0)
  {
  }

  lemma KeyNumber(c: ConnId)
    requires c < Pow(256, 32)
    ensures Get(KeyFor(c)) == c
  {
    ValueOfFixed(c, 32, 256);
  }

  lemma BuildByStore(actions: seq<Action>, s: State, lo: nat, hi: nat, bound: nat)
    returns (more: seq<Action>, s': State)
    requires lo < hi <= lo + bound && hi <= Pow(256, 32)
    requires Leads(Init(SAME), actions, s, bound) && Built(s, lo, hi)
    ensures Leads(Init(SAME), more, s', bound) && Built(s', lo + 1, hi)
  {
    hide Built, Leads, Newcomer, Stored, Init, KeyFor;
    KeyNumber(lo);
    LowestIsNew(s, lo, hi);
    StoredBuilt(s, lo, hi);
    BuiltSizes(s, lo, hi);
    more := Register(Init(SAME), actions, s, lo, KeyFor(lo), bound);
    s' := Stored(s, lo, KeyFor(lo), GetBuffer, None);
  }

  lemma BuildByAdmit(actions: seq<Action>, s: State, lo: nat, hi: nat, bound: nat)
    returns (more: seq<Action>, s': State)
    requires lo <= hi < lo + bound && lo < MAX_PEERS
    requires Leads(Init(SAME), actions, s, bound) && Built(s, lo, hi)
    ensures Leads(Init(SAME), more, s', bound) && Built(s', lo, hi + 1)
  {
    hide Built, Leads, Admitted, Init;
    AdmittedBuilt(s, lo, hi);
    BuiltSizes(s, lo, hi);
    more := Admit(Init(SAME), actions, s, bound);
    s' := Admitted(s);
  }

  /** Admit while the table has room, and register the others once it is full. */
  lemma {:induction false} Build(lo: nat, hi: nat, bound: nat) returns (actions: seq<Action>, s: State)
    requires bound >= 1 && lo <= hi <= lo + bound && hi <= MAX_PEERS - 1 + bound && hi <= Pow(256, 32)
    ensures Leads(Init(SAME), actions, s, bound) && Built(s, lo, hi)
    decreases lo + hi
  {
    hide Built, Leads, Init, Pow, Run, AdmitsAtMost;
    if hi == 0 {
      InitBuilt();
      NothingAdmitted(bound);
      actions, s := [], Init(SAME);
    } else if lo == hi || lo > MAX_PEERS - 1 {
      actions, s := Build(lo - 1, hi, bound);
      actions, s := BuildByStore(actions, s, lo - 1, hi, bound);
    } else {
      actions, s := Build(lo, hi - 1, bound);
      actions, s := BuildByAdmit(actions, s, lo, hi - 1, bound);
    }
  }

  lemma NothingAdmitted(bound: nat)
    ensures Leads(Init(SAME), [], Init(SAME), bound)
  {
  }

  lemma BuiltSizes(s: State, lo: nat, hi: nat)
    requires Built(s, lo, hi) && lo <= hi
    ensures Quiet(s) && |s.table| == lo && |s.admitted| == hi - lo
  {
  }

  /**
   The capacity bound is exact. For every number of connections admitted at a time, some run reaches it, so
   with two at a time the table holds more than the nominal maximum of peers.
   */
  lemma CapacityReached(bound: nat) returns (actions: seq<Action>, s: State)
    requires 1 <= bound && MAX_PEERS - 1 + bound <= Pow(256, 32)
    ensures Run(Init(SAME), actions) == Some(s) && AdmitsAtMost(Init(SAME), actions, bound)
    ensures |s.table| == 2047 + bound
  {
    actions, s := Build(MAX_PEERS - 1 + bound, MAX_PEERS - 1 + bound, bound);
    BuiltSizes(s, MAX_PEERS - 1 + bound, MAX_PEERS - 1 + bound);
  }
}
