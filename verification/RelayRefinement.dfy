/**
 The relay's objects against the relay machine: each method of the server, working in place, has the effect of a
 run of machine steps, with the table, the connections and what was written to them in step throughout.
 */
module RelayRefinement {
  import opened Bytes
  import opened Protocol
  import opened RelayMachine
  import opened RelayAtomic
  import RelayWitness
  import S = RelayServer

  /** The fields of a peer. */
  datatype PeerView = PeerView(closed: bool, evicted: bool, lastAlive: nat, written: seq<seq<byte>>)

  function ViewOf(p: S.Peer): PeerView
    reads p
  {
    PeerView(p.closed, p.evicted, p.lastAlive, p.written)
  }

  function Packets(log: seq<Delivery>): (packets: seq<seq<byte>>)
    ensures |packets| == |log|
  {
    seq(|log|, i requires 0 <= i < |log| => log[i].packet)
  }

  lemma PacketsSnoc(log: seq<Delivery>, d: Delivery)
    ensures Packets(log + [d]) == Packets(log) + [d.packet]
  {
  }

  /** The machine knows connection `c` as what the fields of its peer say. */
  ghost predicate ShowsPeer(s: State, c: ConnId, keyHash: Key, v: PeerView) {
    && c in s.publicKey && KeyOf(s, c) == keyHash
    && (v.closed <==> c in s.closed) && (v.evicted <==> c in s.evicted)
    && v.lastAlive == LastAlive(s, c)
    && v.written == Packets(DeliveredTo(s, c))
  }

  /** The peers are numbered by their connections, and the tables agree. */
  ghost predicate ShowsTable(table: map<Key, ConnId>, peers: map<Key, S.Peer>, num: map<S.Peer, ConnId>) {
    && table.Keys == peers.Keys
    && (forall k <- peers :: peers[k] in num && table[k] == num[peers[k]])
    && forall p, q :: p in num && q in num && num[p] == num[q] ==> p == q
  }

  /** Nobody is in the middle of an operation. */
  ghost predicate Idle(s: State) {
    s.writer == None && s.readers == {} && s.running == map[] && EvictorsNumbered(s)
  }

  /** The machine and the objects are in the same state. */
  ghost predicate Shows(s: State, peers: map<Key, S.Peer>, num: map<S.Peer, ConnId>)
    reads num.Keys
  {
    && Idle(s) && ShowsTable(s.table, peers, num)
    && ShowsPeers(s, num, Views(num))
    && forall k <- peers :: peers[k] in num && !peers[k].closed
  }

  ghost function Views(num: map<S.Peer, ConnId>): (views: map<S.Peer, PeerView>)
    reads num.Keys
    ensures views.Keys == num.Keys
  {
    map p | p in num :: ViewOf(p)
  }

  ghost predicate ShowsPeers(s: State, num: map<S.Peer, ConnId>, views: map<S.Peer, PeerView>)
    requires views.Keys == num.Keys
  {
    forall p <- num :: ShowsPeer(s, num[p], p.keyHash, views[p])
  }

  lemma TableRegistered(table: map<Key, ConnId>, peers: map<Key, S.Peer>, num: map<S.Peer, ConnId>, k: Key,
                        p: S.Peer, c: ConnId)
    requires ShowsTable(table, peers, num) && p !in num && c !in num.Values
    ensures ShowsTable(Registered(table, k, c), Registered(peers, k, p), num[p := c])
  {
  }

  lemma TableRemoved(table: map<Key, ConnId>, peers: map<Key, S.Peer>, num: map<S.Peer, ConnId>, k: Key, p: S.Peer)
    requires ShowsTable(table, peers, num) && p in num
    ensures ShowsTable(Removed(table, k, num[p]), Removed(peers, k, p), num)
  {
  }

  // --- register ---

  /** What the machine knows of a peer after the registration of connection `c`. */
  lemma RegisteredPeer(s: State, c: ConnId, key: Key, d: ConnId, keyHash: Key, v: PeerView, v': PeerView)
    requires ShowsPeer(s, d, keyHash, v) && d != c
    requires v' == v.(closed := v.closed || (s.hash(key) in s.table && s.table[s.hash(key)] == d))
    ensures ShowsPeer(RelayWitness.Stored(s, c, key, GetBuffer, None), d, keyHash, v')
  {
  }

  lemma NewPeer(s: State, c: ConnId, key: Key, v: PeerView)
    requires c !in s.closed && c !in s.evicted && DeliveredTo(s, c) == []
    requires s.hash(key) in s.table ==> s.table[s.hash(key)] != c
    requires v == PeerView(false, false, s.clock, [])
    ensures ShowsPeer(RelayWitness.Stored(s, c, key, GetBuffer, None), c, s.hash(key), v)
  {
  }

  lemma MachineRegisters(s: State, c: ConnId, key: Key) returns (actions: seq<Action>)
    requires RelayWitness.Newcomer(s, c)
    ensures Run(s, actions) == Some(RelayWitness.Stored(s, c, key, GetBuffer, None))
  {
    assert RelayWitness.Leads(s, [], s, |s.admitted|);
    hide RelayWitness.Newcomer, RelayWitness.Stored, Run;
    actions := RelayWitness.Register(s, [], s, c, key, |s.admitted|);
  }

  /** The views after a registration under `k`. */
  ghost predicate Closes(peers: map<Key, S.Peer>, k: Key, views: map<S.Peer, PeerView>, views': map<S.Peer, PeerView>) {
    forall q <- views :: q in views' &&
      views'[q] == views[q].(closed := views[q].closed || (k in peers && peers[k] == q))
  }

  method RegisterViews(server: S.Server, p: S.Peer, ghost num: map<S.Peer, ConnId>, ghost c: ConnId)
    requires server.Valid() && server.peers.Values <= num.Keys && p !in num && !p.evicted
    modifies server`peers, server.peers.Values
    ensures server.Valid() && server.peers == Registered(old(server.peers), p.keyHash, p)
    ensures Closes(old(server.peers), p.keyHash, old(Views(num)), Views(num[p := c]))
    ensures ViewOf(p) == old(ViewOf(p))
  {
    hide S.Server.Burnt;
    server.Register(p);
  }

  lemma RegisteredPeers(s: State, c: ConnId, key: Key, peers: map<Key, S.Peer>, num: map<S.Peer, ConnId>, p: S.Peer,
                        views: map<S.Peer, PeerView>, views': map<S.Peer, PeerView>)
    requires ShowsTable(s.table, peers, num) && views.Keys == num.Keys && ShowsPeers(s, num, views)
    requires p !in num && c !in num.Values && views'.Keys == num.Keys + {p} && p.keyHash == s.hash(key)
    requires Closes(peers, s.hash(key), views, views') && views'[p] == PeerView(false, false, s.clock, [])
    requires c !in s.closed && c !in s.evicted && DeliveredTo(s, c) == []
    ensures ShowsPeers(RelayWitness.Stored(s, c, key, GetBuffer, None), num[p := c], views')
  {
    hide ShowsPeer, RelayWitness.Stored, DeliveredTo;
    forall q <- num[p := c]
      ensures ShowsPeer(RelayWitness.Stored(s, c, key, GetBuffer, None), num[p := c][q], q.keyHash, views'[q])
    {
      if q == p {
        NewPeer(s, c, key, views'[p]);
      } else {
        RegisteredPeer(s, c, key, num[q], q.keyHash, views[q], views'[q]);
      }
    }
  }

  /** The entries are open still: the one that was closed is gone. */
  lemma OpenRegistered(s: State, c: ConnId, key: Key, peers: map<Key, S.Peer>, num: map<S.Peer, ConnId>, p: S.Peer,
                       views: map<S.Peer, PeerView>, views': map<S.Peer, PeerView>)
    requires ShowsTable(s.table, peers, num) && views.Keys == num.Keys && ShowsPeers(s, num, views)
    requires p !in num && views'.Keys == num.Keys + {p} && !views'[p].closed && p.keyHash == s.hash(key)
    requires Closes(peers, s.hash(key), views, views') && S.OwnKeys(peers)
    requires forall k <- peers :: peers[k] in num && !views[peers[k]].closed
    ensures var peers' := Registered(peers, s.hash(key), p);
      forall k <- peers' :: peers'[k] in views' && !views'[peers'[k]].closed
  {
  }

  /**
   A connection that has sent its handshake is registered, which closes the one that it supersedes: the handshake
   and the five steps of the machine under the write lock.
   */
  method RegisterRefines(server: S.Server, p: S.Peer, ghost s: State, ghost c: ConnId, ghost key: Key,
                         ghost num: map<S.Peer, ConnId>)
    returns (ghost actions: seq<Action>, ghost s': State)
    requires server.Valid() && Shows(s, server.peers, num) && RelayWitness.Newcomer(s, c)
    requires p !in num && c !in num.Values && p.keyHash == s.hash(key)
    requires ViewOf(p) == PeerView(false, false, s.clock, [])
    requires c !in s.closed && c !in s.evicted && DeliveredTo(s, c) == []
    modifies server`peers, server.peers.Values
    ensures server.Valid() && Run(s, actions) == Some(s')
    ensures Shows(s', server.peers, num[p := c]) && Is(s', Handler(c), GetBuffer)
  {
    hide Run, S.Server.Burnt, KeyOf, ShowsPeers, ShowsTable, Closes, DeliveredTo;
    ghost var peers, views := server.peers, Views(num);
    actions := MachineRegisters(s, c, key);
    s' := RelayWitness.Stored(s, c, key, GetBuffer, None);
    TableRegistered(s.table, peers, num, s.hash(key), p, c);
    EntriesNumbered(s, peers, num);
    RegisterViews(server, p, num, c);
    RegisteredPeers(s, c, key, peers, num, p, views, Views(num[p := c]));
    OpenRegistered(s, c, key, peers, num, p, views, Views(num[p := c]));
    IdleStored(s, c, key);
  }

  lemma EntriesNumbered(s: State, peers: map<Key, S.Peer>, num: map<S.Peer, ConnId>)
    requires ShowsTable(s.table, peers, num)
    ensures peers.Values <= num.Keys
  {
  }

  lemma IdleStored(s: State, c: ConnId, key: Key)
    requires Idle(s)
    ensures Idle(RelayWitness.Stored(s, c, key, GetBuffer, None))
    ensures Is(RelayWitness.Stored(s, c, key, GetBuffer, None), Handler(c), GetBuffer)
    ensures RelayWitness.Stored(s, c, key, GetBuffer, None).table == Registered(s.table, s.hash(key), c)
  {
  }

  // --- evict ---

  /** What an eviction changes, and what it does not. */
  ghost predicate EvictionEffect(s: State, s': State, t: Tid, p: ConnId, cont: Cont)
    requires p in s.publicKey
  {
    && s'.threads == s.threads[t := AfterEvict(cont)] && s'.nextEvictor == s.nextEvictor
    && s'.writer == s.writer && s'.readers == s.readers && s'.running == s.running
    && s'.hash == s.hash && s'.publicKey == s.publicKey
    && s'.lastAlive == s.lastAlive && s'.delivered == s.delivered
    && s'.closed == (if p in s.evicted then s.closed else s.closed + {p})
    && s'.evicted == s.evicted + {p}
    && s'.table == if p in s.evicted then s.table else Removed(s.table, KeyOf(s, p), p)
  }

  lemma EvictionHas(s: State, t: Tid, p: ConnId, cont: Cont)
    requires p in s.publicKey
    ensures EvictionEffect(s, AfterEviction(s, t, p, cont), t, p, cont)
  {
    hide Removed, KeyOf, AfterEvict;
    if p in s.evicted {
      assert s.evicted + {p} == s.evicted;
    }
  }

  lemma EvictedPeer(s: State, t: Tid, c: ConnId, cont: Cont, d: ConnId, keyHash: Key, v: PeerView, v': PeerView)
    requires c in s.publicKey && ShowsPeer(s, d, keyHash, v)
    requires v' == if d == c then v.(closed := v.closed || !v.evicted, evicted := true) else v
    ensures ShowsPeer(AfterEviction(s, t, c, cont), d, keyHash, v')
  {
    hide Removed, AfterEviction, AfterEvict;
    EvictionHas(s, t, c, cont);
  }

  /** The views after an eviction of `p`. */
  ghost predicate Evicts(p: S.Peer, views: map<S.Peer, PeerView>, views': map<S.Peer, PeerView>) {
    forall q <- views :: q in views' &&
      views'[q] == if q == p then views[q].(closed := views[q].closed || !views[q].evicted, evicted := true)
                   else views[q]
  }

  method EvictViews(server: S.Server, p: S.Peer, ghost num: map<S.Peer, ConnId>)
    requires server.Valid()
    modifies server`peers, p`closed, p`evicted
    ensures server.Valid()
    ensures server.peers == if old(p.evicted) then old(server.peers) else Removed(old(server.peers), p.keyHash, p)
    ensures Evicts(p, old(Views(num)), Views(num)) && forall k <- server.peers :: server.peers[k] != p
  {
    hide S.Server.Burnt;
    server.Evict(p);
  }

  lemma EvictedPeers(s: State, t: Tid, cont: Cont, num: map<S.Peer, ConnId>, p: S.Peer,
                     views: map<S.Peer, PeerView>, views': map<S.Peer, PeerView>)
    requires p in num && views.Keys == num.Keys == views'.Keys && ShowsPeers(s, num, views)
    requires forall q <- num :: num[q] == num[p] ==> q == p
    requires Evicts(p, views, views') && num[p] in s.publicKey
    ensures ShowsPeers(AfterEviction(s, t, num[p], cont), num, views')
  {
    hide ShowsPeer, AfterEviction;
    forall q <- num
      ensures ShowsPeer(AfterEviction(s, t, num[p], cont), num[q], q.keyHash, views'[q])
    {
      EvictedPeer(s, t, num[p], cont, num[q], q.keyHash, views[q], views'[q]);
    }
  }

  /** What the machine knows of a numbered peer. */
  lemma Known(s: State, peers: map<Key, S.Peer>, num: map<S.Peer, ConnId>, views: map<S.Peer, PeerView>, p: S.Peer)
    requires ShowsTable(s.table, peers, num) && views.Keys == num.Keys && ShowsPeers(s, num, views) && p in num
    ensures num[p] in s.publicKey && KeyOf(s, num[p]) == p.keyHash
    ensures views[p].evicted <==> num[p] in s.evicted
    ensures views[p].closed <==> num[p] in s.closed
    ensures forall q <- num :: num[q] == num[p] ==> q == p
  {
  }

  lemma OpenEvicted(peers: map<Key, S.Peer>, peers': map<Key, S.Peer>, num: map<S.Peer, ConnId>, p: S.Peer,
                    views: map<S.Peer, PeerView>, views': map<S.Peer, PeerView>)
    requires views.Keys == num.Keys == views'.Keys && Evicts(p, views, views')
    requires forall k <- peers' :: k in peers && peers'[k] == peers[k] && peers'[k] != p
    requires forall k <- peers :: peers[k] in num && !views[peers[k]].closed
    ensures forall k <- peers' :: peers'[k] in views' && !views'[peers'[k]].closed
  {
  }

  lemma IdleEvicted(s: State, t: Tid, p: ConnId, cont: Cont)
    requires Idle(s) && p in s.publicKey && Is(s, t, Evicting(p, Enter, cont))
    ensures Idle(AfterEviction(s, t, p, cont)) && Is(AfterEviction(s, t, p, cont), t, AfterEvict(cont))
    ensures AfterEviction(s, t, p, cont).table ==
            if p in s.evicted then s.table else Removed(s.table, KeyOf(s, p), p)
  {
    hide Removed, KeyOf, AfterEviction;
    EvictionHas(s, t, p, cont);
  }

  lemma IdleEvicts(s: State, t: Tid, p: ConnId, cont: Cont)
    requires Idle(s) && p in s.publicKey && Is(s, t, Evicting(p, Enter, cont))
    ensures MayEvict(s, t, p, cont)
  {
  }

  /** Thread `t` evicts a peer, of whom it may be that it has been evicted before: up to seven steps. */
  method EvictRefines(server: S.Server, p: S.Peer, ghost s: State, ghost t: Tid, ghost cont: Cont,
                      ghost num: map<S.Peer, ConnId>)
    returns (ghost actions: seq<Action>, ghost s': State)
    requires server.Valid() && Shows(s, server.peers, num) && p in num && Is(s, t, Evicting(num[p], Enter, cont))
    modifies server`peers, p`closed, p`evicted
    ensures server.Valid() && Run(s, actions) == Some(s')
    ensures Shows(s', server.peers, num) && Is(s', t, AfterEvict(cont))
  {
    hide Run, S.Server.Burnt, KeyOf, ShowsPeers, ShowsTable, Evicts, AfterEviction, Idle, Removed;
    ghost var c, peers, views := num[p], server.peers, Views(num);
    Known(s, peers, num, views, p);
    IdleEvicts(s, t, c, cont);
    IdleEvicted(s, t, c, cont);
    actions := EvictionRuns(s, t, c, cont);
    s' := AfterEviction(s, t, c, cont);
    TableRemoved(s.table, peers, num, p.keyHash, p);
    EvictViews(server, p, num);
    EvictedPeers(s, t, cont, num, p, views, Views(num));
    assert forall k <- server.peers :: k in peers && server.peers[k] == peers[k] by {
      RemovedEntries(peers, p.keyHash, p);
    }
    OpenEvicted(peers, server.peers, num, p, views, Views(num));
  }

  lemma RemovedEntries(peers: map<Key, S.Peer>, k: Key, p: S.Peer)
    ensures forall k' <- Removed(peers, k, p) :: k' in peers && Removed(peers, k, p)[k'] == peers[k']
  {
  }

  // --- one turn of a relay loop ---

  /** The views after a turn of `p` at time `now`, in which `gone` was evicted or `got` was written to. */
  ghost predicate Turns(p: S.Peer, now: nat, gone: set<S.Peer>, got: set<S.Peer>, packet: seq<byte>,
                        views: map<S.Peer, PeerView>, views': map<S.Peer, PeerView>) {
    forall q <- views :: q in views' &&
      views'[q] == PeerView(views[q].closed || q in gone, views[q].evicted || q in gone,
                            if q == p then now else views[q].lastAlive,
                            views[q].written + if q in got then [packet] else [])
  }

  /** The recipient of a frame, if it is registered. */
  function Recipient(peers: map<Key, S.Peer>, frame: Frame): set<S.Peer> {
    if Prefix(frame) in peers then {peers[Prefix(frame)]} else {}
  }

  /** The table after the frame: the recipient is evicted if the write failed. */
  function TableAfter(peers: map<Key, S.Peer>, frame: Frame, ok: bool): map<Key, S.Peer> {
    if ok || Prefix(frame) !in peers then peers else Removed(peers, Prefix(frame), peers[Prefix(frame)])
  }

  method TurnViews(server: S.Server, p: S.Peer, buf: array<byte>, turn: S.Turn, ghost num: map<S.Peer, ConnId>)
    requires server.Valid() && p.Consistent() && buf.Length == FRAME_SIZE && buf !in server.pool
    modifies server`peers, p, server.peers.Values, buf
    ensures server.Valid() && p.Consistent() && buf[..] == Zeros(FRAME_SIZE)
    ensures var peers, frame, ok := old(server.peers), old(buf[..]), turn.deadlineOk && turn.writeOk;
      var r := Recipient(peers, frame);
      && server.peers == TableAfter(peers, frame, ok)
      && Turns(p, turn.now, if ok then {} else r, if ok then r else {}, Packet(frame), old(Views(num)), Views(num))
  {
    hide S.Server.Burnt, S.PacketsTo, S.RouteOne, S.Entered, Packet, Recipient, TableAfter;
    ghost var peers, frame := server.peers, buf[..];
    forall q <- num {
      OneRecipient(peers, frame, turn, q);
    }
    RouteTable(peers, frame, turn);
    server.RelayTurn(p, buf, turn, num.Keys);
  }

  lemma RouteTable(peers: map<Key, S.Peer>, frame: Frame, turn: S.Turn)
    ensures S.RouteOne(S.Routing(peers, []), frame, turn).table ==
            TableAfter(peers, frame, turn.deadlineOk && turn.writeOk)
  {
    hide Prefix, Packet;
  }

  /** The recipient alone is written to, and the recipient alone loses its entry. */
  lemma OneRecipient(peers: map<Key, S.Peer>, frame: Frame, turn: S.Turn, q: S.Peer)
    requires S.OwnKeys(peers)
    ensures var ok, r := turn.deadlineOk && turn.writeOk, Recipient(peers, frame);
      && S.PacketsTo(S.RouteOne(S.Routing(peers, []), frame, turn).log, q) ==
         (if ok && q in r then [Packet(frame)] else [])
      && (S.Entered(peers, q) && !S.Entered(TableAfter(peers, frame, ok), q) <==> !ok && q in r)
  {
    hide Prefix, Packet, S.RouteOne, S.PacketsTo;
    S.OneWrite(peers, frame, turn, q);
    if Prefix(frame) in peers {
      S.EntryLost(peers, peers[Prefix(frame)]);
    }
  }

  lemma TurnedPeer(s: State, s': State, c: ConnId, frame: Frame, fate: Fate, d: ConnId, keyHash: Key,
                   v: PeerView, v': PeerView)
    requires Turned(s, s', c, frame, fate) && ShowsPeer(s, d, keyHash, v)
    requires var gone := (fate.WriteFailed? || fate.DeadlineFailed?) && fate.recipient == d;
      v' == PeerView(v.closed || gone, v.evicted || gone, if d == c then s.clock else v.lastAlive,
                     v.written + if fate == Delivered(d) then [Packet(frame)] else [])
    ensures ShowsPeer(s', d, keyHash, v')
  {
    hide Packet, Removed;
    PacketsSnoc(DeliveredTo(s, d), Delivery(c, |Fates(s, c)|, Packet(frame)));
  }

  lemma TurnedPeers(s: State, s': State, num: map<S.Peer, ConnId>, peers: map<Key, S.Peer>, p: S.Peer, frame: Frame,
                    deadlineOk: bool, writeOk: bool, views: map<S.Peer, PeerView>, views': map<S.Peer, PeerView>)
    requires p in num && views.Keys == num.Keys == views'.Keys
    requires ShowsPeers(s, num, views) && ShowsTable(s.table, peers, num)
    requires Turned(s, s', num[p], frame, FateOf(s, frame, deadlineOk, writeOk))
    requires var ok, r := deadlineOk && writeOk, Recipient(peers, frame);
      Turns(p, s.clock, if ok then {} else r, if ok then r else {}, Packet(frame), views, views')
    ensures ShowsPeers(s', num, views')
  {
    hide ShowsPeer, Turned, Packet, Prefix;
    forall q <- num
      ensures ShowsPeer(s', num[q], q.keyHash, views'[q])
    {
      TurnedPeer(s, s', num[p], frame, FateOf(s, frame, deadlineOk, writeOk), num[q], q.keyHash, views[q], views'[q]);
    }
  }

  /** All that a turn needs to know about the recipients. */
  lemma AllEvictable(s: State, peers: map<Key, S.Peer>, num: map<S.Peer, ConnId>, views: map<S.Peer, PeerView>)
    requires Idle(s) && ShowsTable(s.table, peers, num) && views.Keys == num.Keys && ShowsPeers(s, num, views)
    requires forall k <- peers :: peers[k] in num && !views[peers[k]].closed && !views[peers[k]].evicted
    ensures forall k <- s.table :: s.table[k] !in s.closed && Evictable(s, s.table[k])
  {
    hide ShowsPeers, KeyOf;
    forall k <- s.table
      ensures s.table[k] !in s.closed && Evictable(s, s.table[k])
    {
      Known(s, peers, num, views, peers[k]);
    }
  }

  lemma TurnedTable(s: State, s': State, peers: map<Key, S.Peer>, num: map<S.Peer, ConnId>,
                    views: map<S.Peer, PeerView>, c: ConnId, frame: Frame, deadlineOk: bool, writeOk: bool)
    requires ShowsTable(s.table, peers, num) && views.Keys == num.Keys && ShowsPeers(s, num, views)
    requires Turned(s, s', c, frame, FateOf(s, frame, deadlineOk, writeOk)) && S.OwnKeys(peers)
    ensures var k := Prefix(frame);
      s'.table == if k in peers && !(deadlineOk && writeOk) then Removed(s.table, k, num[peers[k]]) else s.table
  {
    hide Prefix, Packet, KeyOf, ShowsPeers, Removed;
    var k := Prefix(frame);
    if k in peers {
      Known(s, peers, num, views, peers[k]);
    }
  }

  lemma OpenTurned(peers: map<Key, S.Peer>, peers': map<Key, S.Peer>, num: map<S.Peer, ConnId>, p: S.Peer, now: nat,
                   gone: set<S.Peer>, got: set<S.Peer>, packet: seq<byte>, views: map<S.Peer, PeerView>,
                   views': map<S.Peer, PeerView>)
    requires views.Keys == num.Keys == views'.Keys && Turns(p, now, gone, got, packet, views, views')
    requires forall k <- peers' :: k in peers && peers'[k] == peers[k] && peers'[k] !in gone
    requires forall k <- peers :: peers[k] in num && !views[peers[k]].closed
    ensures forall k <- peers' :: peers'[k] in views' && !views'[peers'[k]].closed
  {
  }

  lemma RecipientGone(peers: map<Key, S.Peer>, frame: Frame, ok: bool)
    requires S.OwnKeys(peers)
    ensures var r := Recipient(peers, frame);
      var peers' := TableAfter(peers, frame, ok);
      forall k <- peers' :: k in peers && peers'[k] == peers[k] && peers'[k] !in (if ok then {} else r)
  {
    hide Prefix;
  }

  lemma IdleTurned(s: State, s': State, c: ConnId, frame: Frame, fate: Fate)
    requires Idle(s) && Turned(s, s', c, frame, fate)
    ensures Idle(s') && Is(s', Handler(c), LoopHead)
  {
  }

  lemma TurnShown(s: State, s': State, num: map<S.Peer, ConnId>, peers: map<Key, S.Peer>, p: S.Peer, frame: Frame,
                  deadlineOk: bool, writeOk: bool, views: map<S.Peer, PeerView>, views': map<S.Peer, PeerView>)
    requires p in num && views.Keys == num.Keys == views'.Keys && S.OwnKeys(peers)
    requires Idle(s) && ShowsPeers(s, num, views) && ShowsTable(s.table, peers, num)
    requires forall k <- peers :: peers[k] in num && !views[peers[k]].closed
    requires Turned(s, s', num[p], frame, FateOf(s, frame, deadlineOk, writeOk))
    requires var ok, r := deadlineOk && writeOk, Recipient(peers, frame);
      Turns(p, s.clock, if ok then {} else r, if ok then r else {}, Packet(frame), views, views')
    ensures var peers' := TableAfter(peers, frame, deadlineOk && writeOk);
      && Idle(s') && Is(s', Handler(num[p]), LoopHead)
      && ShowsTable(s'.table, peers', num) && ShowsPeers(s', num, views')
      && forall k <- peers' :: peers'[k] in num && !views'[peers'[k]].closed
  {
    hide KeyOf, ShowsPeers, ShowsTable, Idle, Turned, Turns, Removed, Prefix, Packet, FateOf;
    var ok, r := deadlineOk && writeOk, Recipient(peers, frame);
    RecipientGone(peers, frame, ok);
    if r != {} {
      EntriesNumbered(s, peers, num);
      TableRemoved(s.table, peers, num, Prefix(frame), peers[Prefix(frame)]);
    }
    TurnedTable(s, s', peers, num, views, num[p], frame, deadlineOk, writeOk);
    TurnedPeers(s, s', num, peers, p, frame, deadlineOk, writeOk, views, views');
    OpenTurned(peers, TableAfter(peers, frame, ok), num, p, s.clock, if ok then {} else r, if ok then r else {},
               Packet(frame), views, views');
    IdleTurned(s, s', num[p], frame, FateOf(s, frame, deadlineOk, writeOk));
  }

  /**
   One turn of the relay loop of `p`: the frame that the machine reads is the one in the buffer. Whatever becomes of
   it, the machine has a run of whole turns and evictions that ends with the same table, the same connections
   closed, the same heartbeats and the same packets written.
   */
  method TurnRefines(server: S.Server, p: S.Peer, buf: array<byte>, turn: S.Turn, ghost s: State,
                     ghost num: map<S.Peer, ConnId>)
    returns (ghost actions: seq<Action>, ghost s': State)
    requires server.Valid() && p.Consistent() && buf.Length == FRAME_SIZE && buf !in server.pool
    requires Shows(s, server.peers, num) && p in num && turn.now == s.clock
    requires num[p] in s.held && RelayTurn.Readable(s, num[p], buf[..])
    modifies server`peers, p, server.peers.Values, buf
    ensures server.Valid() && p.Consistent() && buf[..] == Zeros(FRAME_SIZE) && Run(s, actions) == Some(s')
    ensures Shows(s', server.peers, num) && Is(s', Handler(num[p]), LoopHead)
  {
    hide Run, S.Server.Burnt, ShowsPeers, ShowsTable, Idle, Turned, Turns, Removed, Prefix, Packet, FateOf, TableAfter;
    ghost var peers, views, frame := server.peers, Views(num), buf[..];
    AllEvictable(s, peers, num, views);
    actions, s' := TurnRuns(s, num[p], frame, turn.deadlineOk, turn.writeOk);
    TurnViews(server, p, buf, turn, num);
    TurnShown(s, s', num, peers, p, frame, turn.deadlineOk, turn.writeOk, views, Views(num));
  }
}
