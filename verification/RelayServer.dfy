/**
 The relay's data structures as the objects whose fields the program updates in place: the routing table,
 the peers, and the pooled buffers. One goroutine runs here at a time; all interleavings are the subject of
 the relay machine, which uses the same table operations.
 */
module RelayServer {
  import opened Bytes
  import opened Words
  import opened Protocol
  import opened RelayMachine
  import Framing

  /** What the environment does in one turn of a relay loop. */
  datatype Turn = Turn(readable: bool, now: nat, deadlineOk: bool, writeOk: bool)

  /** A connection that has identified itself. */
  class Peer {
    const keyHash: Key
    var lastAlive: nat
    var evicted: bool
    var closed: bool
    var written: seq<seq<byte>>

    constructor (keyHash: Key, now: nat)
      ensures this.keyHash == keyHash && lastAlive == now && !evicted && !closed && written == []
    {
      this.keyHash := keyHash;
      lastAlive, evicted, closed, written := now, false, false, [];
    }

    /** Once its eviction has run, the connection is closed. */
    ghost predicate Consistent()
      reads this
    {
      evicted ==> closed
    }

    method Close()
      modifies `closed
      ensures closed
    {
      closed := true;
    }

    method Write(packet: seq<byte>, writeOk: bool) returns (ok: bool)
      modifies `written
      ensures ok == writeOk && written == old(written) + if ok then [packet] else []
    {
      if writeOk {
        written := written + [packet];
      }
      ok := writeOk;
    }
  }

  /** The table after some frames of one sender have been routed, and what was written to whom. */
  datatype Routing = Routing(table: map<Key, Peer>, log: seq<(Peer, seq<byte>)>)

  function RouteOne(r: Routing, frame: Frame, turn: Turn): Routing {
    var k := Prefix(frame);
    if k !in r.table then r
    else if turn.deadlineOk && turn.writeOk then r.(log := r.log + [(r.table[k], Packet(frame))])
    else r.(table := Removed(r.table, k, r.table[k]))
  }

  function Route(table: map<Key, Peer>, frames: seq<Frame>, turn: nat -> Turn): Routing {
    if frames == [] then Routing(table, [])
    else
      var n := |frames| - 1;
      RouteOne(Route(table, frames[..n], turn), frames[n], turn(n))
  }

  predicate Entered(table: map<Key, Peer>, p: Peer) {
    p.keyHash in table && table[p.keyHash] == p
  }

  /**
   Whether the connection of `p`, which was or was not open at first, is open after `n` frames: it is closed
   when a write to itself fails, and then its entry goes.
   */
  predicate StaysOpen(table: map<Key, Peer>, frames: seq<Frame>, turn: nat -> Turn, p: Peer, open: bool, n: nat)
    requires n <= |frames|
  {
    open && (Entered(table, p) ==> Entered(Route(table, frames[..n], turn).table, p))
  }

  /** It has not ended before that. */
  ghost predicate GoesOn(table: map<Key, Peer>, frames: seq<Frame>, turn: nat -> Turn, p: Peer, open: bool, n: nat)
    requires n <= |frames|
  {
    forall i :: 0 <= i < n ==> turn(i).readable && StaysOpen(table, frames, turn, p, open, i)
  }

  /** The relay loop of `p` ends after `n` frames, and not before. */
  ghost predicate EndsAfter(table: map<Key, Peer>, frames: seq<Frame>, turn: nat -> Turn, p: Peer, open: bool, n: nat) {
    && n <= |frames|
    && GoesOn(table, frames, turn, p, open, n)
    && (n == |frames| || !turn(n).readable || !StaysOpen(table, frames, turn, p, open, n))
  }

  /** The packets of a log that went to one peer. */
  function PacketsTo(log: seq<(Peer, seq<byte>)>, p: Peer): seq<seq<byte>> {
    if log == [] then []
    else
      var n := |log| - 1;
      PacketsTo(log[..n], p) + if log[n].0 == p then [log[n].1] else []
  }

  /** The packets of the frames that carry a key hash. */
  function PacketsFor(frames: seq<Frame>, k: Key): seq<seq<byte>> {
    if frames == [] then []
    else
      var n := |frames| - 1;
      PacketsFor(frames[..n], k) + if Prefix(frames[n]) == k then [Packet(frames[n])] else []
  }

  /** A peer stands under its own key hash only. */
  ghost predicate OwnKeys(table: map<Key, Peer>) {
    forall k <- table :: table[k].keyHash == k
  }

  lemma PacketsToSnoc(log: seq<(Peer, seq<byte>)>, last: (Peer, seq<byte>), p: Peer)
    ensures PacketsTo(log + [last], p) == PacketsTo(log, p) + if last.0 == p then [last.1] else []
  {
    assert (log + [last])[..|log|] == log;
  }

  /**
   What routing means. A frame goes to the peer that is registered under its prefix, or to nobody. As long
   as no write fails, a registered peer gets all packets addressed to its key hash, in order, and only those;
   and the table stays as it is.
   */
  lemma {:induction false} RouteDelivers(table: map<Key, Peer>, frames: seq<Frame>, turn: nat -> Turn, k: Key)
    requires OwnKeys(table) && k in table
    requires forall i :: 0 <= i < |frames| ==> turn(i).deadlineOk && turn(i).writeOk
    ensures Route(table, frames, turn).table == table
    ensures PacketsTo(Route(table, frames, turn).log, table[k]) == PacketsFor(frames, k)
  {
    if frames != [] {
      var n := |frames| - 1;
      RouteDelivers(table, frames[..n], turn, k);
      var r, key := Route(table, frames[..n], turn), Prefix(frames[n]);
      if key in table {
        PacketsToSnoc(r.log, (table[key], Packet(frames[n])), table[k]);
      }
    }
  }

  /** In any case the table only loses entries, and nothing is written that was not addressed to its receiver. */
  lemma {:induction false} RouteIsSafe(table: map<Key, Peer>, frames: seq<Frame>, turn: nat -> Turn)
    requires OwnKeys(table)
    ensures var r := Route(table, frames, turn);
      && OwnKeys(r.table) && r.table.Values <= table.Values
      && (forall k <- r.table :: k in table && r.table[k] == table[k])
      && forall i :: 0 <= i < |r.log| ==>
           r.log[i].0 in table.Values && Addressed(frames, r.log[i].0.keyHash, r.log[i].1)
  {
    if frames != [] {
      var n := |frames| - 1;
      RouteIsSafe(table, frames[..n], turn);
      var r, r' := Route(table, frames[..n], turn), Route(table, frames, turn);
      forall i | 0 <= i < |r'.log|
        ensures r'.log[i].0 in table.Values && Addressed(frames, r'.log[i].0.keyHash, r'.log[i].1)
      {
        if i < |r.log| {
          assert r'.log[i] == r.log[i];
          var j :| 0 <= j < n && Prefix(frames[..n][j]) == r.log[i].0.keyHash && Packet(frames[..n][j]) == r.log[i].1;
          assert frames[j] == frames[..n][j];
        } else {
          assert r.table[Prefix(frames[n])].keyHash == Prefix(frames[n]);
          assert Prefix(frames[n]) == r'.log[i].0.keyHash && Packet(frames[n]) == r'.log[i].1;
        }
      }
    }
  }

  lemma RouteNothing(table: map<Key, Peer>, turn: nat -> Turn)
    ensures Route(table, [], turn) == Routing(table, [])
    ensures forall p: Peer :: PacketsTo([], p) == []
  {
  }

  /** What one frame adds does not depend on what was written before. */
  lemma RouteAdds(r: Routing, frame: Frame, turn: Turn, p: Peer)
    ensures var one := RouteOne(Routing(r.table, []), frame, turn);
      && RouteOne(r, frame, turn).table == one.table
      && PacketsTo(RouteOne(r, frame, turn).log, p) == PacketsTo(r.log, p) + PacketsTo(one.log, p)
  {
    hide PacketsTo, Prefix, Packet, Removed;
    PacketsToNothing(p);
    var k := Prefix(frame);
    if k in r.table && turn.deadlineOk && turn.writeOk {
      var last := (r.table[k], Packet(frame));
      PacketsToSnoc(r.log, last, p);
      PacketsToSnoc([], last, p);
      assert [] + [last] == [last];
    }
  }

  /** One frame is written to its recipient, if it has one and the write succeeds, and to nobody else. */
  lemma OneWrite(table: map<Key, Peer>, frame: Frame, turn: Turn, p: Peer)
    ensures var k := Prefix(frame);
      PacketsTo(RouteOne(Routing(table, []), frame, turn).log, p) ==
        if k in table && table[k] == p && turn.deadlineOk && turn.writeOk then [Packet(frame)] else []
  {
    hide Packet, Prefix, Removed;
  }

  lemma PacketsToNothing(p: Peer)
    ensures PacketsTo([], p) == []
  {
  }

  lemma RouteNext(table: map<Key, Peer>, frames: seq<Frame>, turn: nat -> Turn, n: nat, p: Peer)
    requires n < |frames|
    ensures var before, after := Route(table, frames[..n], turn), Route(table, frames[..n + 1], turn);
      var one := RouteOne(Routing(before.table, []), frames[n], turn(n));
      && after.table == one.table
      && PacketsTo(after.log, p) == PacketsTo(before.log, p) + PacketsTo(one.log, p)
  {
    assert frames[..n + 1][..n] == frames[..n];
    hide RouteOne, PacketsTo;
    RouteAdds(Route(table, frames[..n], turn), frames[n], turn(n), p);
  }

  /** Nothing is written to a peer that is not in the table. */
  lemma SupersededGetsNothing(table: map<Key, Peer>, frames: seq<Frame>, turn: nat -> Turn)
    requires OwnKeys(table)
    ensures forall q: Peer :: q !in table.Values ==> PacketsTo(Route(table, frames, turn).log, q) == []
  {
    hide OwnKeys, Route, PacketsTo;
    RouteIsSafe(table, frames, turn);
    forall q: Peer | q !in table.Values
      ensures PacketsTo(Route(table, frames, turn).log, q) == []
    {
      NothingTo(Route(table, frames, turn).log, q);
    }
  }

  /** The peer whose entry is taken over has no other entry. */
  lemma SupersededLeaves(table: map<Key, Peer>, k: Key, p: Peer)
    requires OwnKeys(table) && p !in table.Values
    ensures p in Registered(table, k, p).Values
    ensures k in table ==> table[k] !in Registered(table, k, p).Values
    ensures forall q <- table.Values :: q in Registered(table, k, p).Values || (k in table && q == table[k])
  {
    assert Registered(table, k, p)[k] == p;
    forall q <- table.Values
      ensures q in Registered(table, k, p).Values || (k in table && q == table[k])
    {
      var key :| key in table && table[key] == q;
      assert key != k ==> Registered(table, k, p)[key] == q;
    }
  }

  lemma {:induction false} NothingTo(log: seq<(Peer, seq<byte>)>, q: Peer)
    requires forall i :: 0 <= i < |log| ==> log[i].0 != q
    ensures PacketsTo(log, q) == []
  {
    if log != [] {
      NothingTo(log[..|log| - 1], q);
    }
  }

  /** With the entry of a peer no other peer loses its own. */
  lemma EntryLost(table: map<Key, Peer>, r: Peer)
    requires Entered(table, r)
    ensures forall q: Peer :: Entered(table, q) && !Entered(Removed(table, r.keyHash, r), q) <==> q == r
  {
  }

  lemma OpenAtFirst(table: map<Key, Peer>, frames: seq<Frame>, turn: nat -> Turn, p: Peer, open: bool)
    ensures StaysOpen(table, frames, turn, p, open, 0) == open
  {
    RouteNothing(table, turn);
  }

  /** A connection stays open as long as its entry does, and the entry never comes back. */
  lemma OpenNext(table: map<Key, Peer>, frames: seq<Frame>, turn: nat -> Turn, p: Peer, open: bool, n: nat)
    requires n < |frames|
    ensures var before, after := Route(table, frames[..n], turn).table, Route(table, frames[..n + 1], turn).table;
      StaysOpen(table, frames, turn, p, open, n + 1) <==>
      StaysOpen(table, frames, turn, p, open, n) && (Entered(before, p) ==> Entered(after, p))
  {
    hide Prefix, Packet;
    assert frames[..n + 1][..n] == frames[..n];
    EntryWasThere(table, frames[..n], turn, p);
  }

  lemma {:induction false} EntryWasThere(table: map<Key, Peer>, frames: seq<Frame>, turn: nat -> Turn, p: Peer)
    ensures Entered(Route(table, frames, turn).table, p) ==> Entered(table, p)
  {
    hide Prefix, Packet;
    if frames != [] {
      EntryWasThere(table, frames[..|frames| - 1], turn, p);
    }
  }

  ghost predicate Addressed(frames: seq<Frame>, k: Key, packet: seq<byte>) {
    exists j :: 0 <= j < |frames| && Prefix(frames[j]) == k && Packet(frames[j]) == packet
  }

  class Server {
    var peers: map<Key, Peer>
    var pool: set<array<byte>>

    ghost predicate Valid()
      reads this, peers.Values, pool
    {
      Entries() && Burnt()
    }

    /** Every entry stands under its own key hash and has not been evicted. */
    ghost predicate Entries()
      reads `peers, peers.Values
    {
      OwnKeys(peers) && forall k <- peers :: !peers[k].evicted
    }

    /** Every pooled buffer is all zeros. */
    ghost predicate Burnt()
      reads `pool, pool
    {
      forall b <- pool :: b.Length == FRAME_SIZE && b[..] == Zeros(FRAME_SIZE)
    }

    constructor ()
      ensures Valid() && peers == map[] && pool == {}
    {
      peers, pool := map[], {};
    }

    method IsFull() returns (full: bool)
      ensures full <==> |peers| >= MAX_PEERS
    {
      full := |peers| >= MAX_PEERS;
    }

    /** The accept loop hands a connection to a handler, or closes it if the table is full. */
    method Admit(conn: Framing.Stream) returns (admitted: bool)
      modifies conn`closed
      ensures admitted <==> |peers| < 2048
      ensures conn.closed == (old(conn.closed) || !admitted)
    {
      var full := IsFull();
      if full {
        conn.Close();
      }
      admitted := !full;
    }

    /** Enters a peer into the table; a connection that it supersedes is closed first. */
    method Register(p: Peer)
      requires Valid() && !p.evicted
      modifies `peers, peers.Values
      ensures Valid() && peers == Registered(old(peers), p.keyHash, p)
      ensures forall q <- old(peers.Values) ::
                && q.closed == (old(q.closed) || (p.keyHash in old(peers) && old(peers)[p.keyHash] == q))
                && q.written == old(q.written) && q.lastAlive == old(q.lastAlive) && q.evicted == old(q.evicted)
    {
      if p.keyHash in peers {
        peers[p.keyHash].Close();
      }
      peers := peers[p.keyHash := p];
    }

    /**
     Closes a peer and takes it out of the table, once, and only if the entry is this peer and not a newer
     connection with the same key.
     */
    method Evict(p: Peer)
      requires Valid()
      modifies `peers, p`closed, p`evicted
      ensures Valid() && p.evicted && forall k <- peers :: peers[k] != p
      ensures peers == if old(p.evicted) then old(peers) else Removed(old(peers), p.keyHash, p)
      ensures p.closed == (old(p.closed) || !old(p.evicted))
    {
      if p.evicted {
        return;
      }
      p.Close();
      if p.keyHash in peers && peers[p.keyHash] == p {
        peers := peers - {p.keyHash};
      }
      p.evicted := true;
    }

    /** What the sweep finds under the read lock. */
    method FindStale(now: nat) returns (stale: seq<Peer>)
      requires OwnKeys(peers)
      ensures forall p <- stale :: p in peers.Values
      ensures forall k <- peers :: Stale(now, peers[k].lastAlive) <==> peers[k] in stale
    {
      stale := [];
      var todo := peers.Keys;
      while todo != {}
        invariant todo <= peers.Keys
        invariant forall p <- stale :: p.keyHash in peers && peers[p.keyHash] == p
        invariant forall k <- peers.Keys - todo :: Stale(now, peers[k].lastAlive) <==> peers[k] in stale
        invariant forall p <- stale :: Stale(now, p.lastAlive)
        decreases todo
      {
        var k :| k in todo;
        if Stale(now, peers[k].lastAlive) {
          stale := stale + [peers[k]];
        }
        todo := todo - {k};
      }
    }

    /** Evicts exactly the peers that have been silent for more than the heartbeat timeout. */
    method SweepStale(now: nat)
      requires Valid()
      modifies `peers, peers.Values
      ensures Valid()
      ensures forall k <- old(peers) ::
                var p := old(peers)[k];
                var stale := now - old(p.lastAlive) > 45;
                && (k in peers <==> !stale)
                && (!stale ==> peers[k] == p && p.closed == old(p.closed) && !p.evicted)
                && (stale ==> p.closed && p.evicted)
                && p.lastAlive == old(p.lastAlive) && p.written == old(p.written)
      ensures peers.Keys <= old(peers.Keys)
    {
      var stale := FindStale(now);
      EvictAll(stale);
    }

    /** Evicts some of the peers in the table, one after the other. */
    method EvictAll(gone: seq<Peer>)
      requires Valid() && forall p <- gone :: p in peers.Values
      modifies `peers, peers.Values
      ensures Valid()
      ensures forall k <- old(peers) :: k in peers <==> old(peers)[k] !in gone
      ensures forall k <- peers :: k in old(peers) && peers[k] == old(peers)[k]
      ensures forall p <- gone :: p.closed && p.evicted
      ensures forall p <- old(peers.Values) ::
                && (p !in gone ==> p.closed == old(p.closed) && !p.evicted)
                && p.lastAlive == old(p.lastAlive) && p.written == old(p.written)
    {
      for i := 0 to |gone|
        invariant Valid()
        invariant forall k <- old(peers) :: k in peers <==> old(peers)[k] !in gone[..i]
        invariant forall k <- peers :: k in old(peers) && peers[k] == old(peers)[k]
        invariant forall p <- gone[..i] :: p.closed && p.evicted
        invariant forall p <- old(peers.Values) ::
                    && (p !in gone[..i] ==> p.closed == old(p.closed) && !p.evicted)
                    && p.lastAlive == old(p.lastAlive) && p.written == old(p.written)
      {
        assert gone[..i + 1] == gone[..i] + [gone[i]];
        assert forall p <- gone[..i] :: p.closed && p.evicted;
        assert gone[i] in old(peers.Values);
        Evict(gone[i]);
        assert gone[i].closed;
      }
      assert gone[..|gone|] == gone;
    }

    /** Takes a buffer from the pool, or makes a new one. */
    method GetBuffer() returns (buf: array<byte>)
      requires Valid()
      modifies `pool
      ensures Valid() && buf.Length == FRAME_SIZE && buf[..] == Zeros(FRAME_SIZE)
      ensures pool == old(pool) - {buf} && (buf in old(pool) || fresh(buf))
    {
      if pool != {} {
        buf :| buf in pool;
        pool := pool - {buf};
      } else {
        buf := new byte[FRAME_SIZE](_ => 0);
      }
    }

    /** Clears a buffer and gives it to the pool. */
    method PutBuffer(buf: array<byte>)
      requires Valid() && buf.Length == FRAME_SIZE
      modifies `pool, buf
      ensures Valid() && pool == old(pool) + {buf} && buf[..] == Zeros(FRAME_SIZE)
    {
      Clear(buf);
      pool := pool + {buf};
    }

    /**
     Routes the frame in the buffer and clears the buffer, whatever happens. Of all the peers that are known,
     the recipient alone is written to, the sender's heartbeat alone is noted, and the recipient alone is
     evicted, namely if the write fails.
     */
    method RelayTurn(p: Peer, buf: array<byte>, turn: Turn, ghost known: set<Peer>)
      requires p.Consistent() && Valid() && buf.Length == FRAME_SIZE && buf !in pool
      modifies `peers, p, peers.Values, buf
      ensures p.Consistent() && Valid() && buf[..] == Zeros(FRAME_SIZE) && p.lastAlive == turn.now
      ensures p.closed == (old(p.closed) || (old(Entered(peers, p)) && !Entered(peers, p)))
      ensures var r := RouteOne(Routing(old(peers), []), old(buf[..]), turn);
        && peers == r.table && peers.Values <= old(peers.Values)
        && forall q <- known ::
             && q.written == old(q.written) + PacketsTo(r.log, q)
             && q.closed == (old(q.closed) || (old(Entered(peers, q)) && !Entered(peers, q)))
             && q.evicted == (old(q.evicted) || (old(Entered(peers, q)) && !Entered(peers, q)))
             && q.lastAlive == if q == p then turn.now else old(q.lastAlive)
    {
      forall q <- known {
        OneWrite(peers, buf[..], turn, q);
      }
      hide PacketsTo;
      p.lastAlive := turn.now;
      var recipientHash: Key := buf[..HASH_SIZE];
      var packet := buf[HASH_SIZE..];
      if recipientHash !in peers {
        Clear(buf);
        return;
      }
      EntryLost(peers, peers[recipientHash]);
      WriteTo(peers[recipientHash], packet, turn);
      Clear(buf);
    }

    /** Writes a packet to a registered peer, which is evicted if that fails. */
    method WriteTo(recipient: Peer, packet: seq<byte>, turn: Turn)
      requires Valid() && recipient.keyHash in peers && peers[recipient.keyHash] == recipient
      modifies `peers, recipient`closed, recipient`evicted, recipient`written
      ensures Valid() && recipient.lastAlive == old(recipient.lastAlive)
      ensures old(recipient.Consistent()) ==> recipient.Consistent()
      ensures var ok := turn.deadlineOk && turn.writeOk;
        && peers == (if ok then old(peers) else Removed(old(peers), recipient.keyHash, recipient))
        && recipient.written == old(recipient.written) + (if ok then [packet] else [])
        && recipient.closed == (old(recipient.closed) || !ok) && recipient.evicted == !ok
    {
      if !turn.deadlineOk {
        Evict(recipient);
        return;
      }
      var ok := recipient.Write(packet, turn.writeOk);
      if !ok {
        Evict(recipient);
      }
    }

    /** Routes frame number `n` of a sender, after the ones before it. */
    method RelayNext(p: Peer, buf: array<byte>, turn: nat -> Turn, n: nat, ghost table: map<Key, Peer>,
                     ghost frames: seq<Frame>, ghost before: map<Peer, seq<seq<byte>>>)
      requires p.Consistent() && Valid() && buf.Length == FRAME_SIZE && buf !in pool
      requires n < |frames| && buf[..] == frames[n] && peers == Route(table, frames[..n], turn).table
      requires Grown(before, Route(table, frames[..n], turn).log)
      modifies `peers, p, peers.Values, buf
      ensures p.Consistent() && Valid() && buf[..] == Zeros(FRAME_SIZE)
      ensures p.closed == (old(p.closed) || (old(Entered(peers, p)) && !Entered(peers, p)))
      ensures peers == Route(table, frames[..n + 1], turn).table && peers.Values <= old(peers.Values)
      ensures Grown(before, Route(table, frames[..n + 1], turn).log)
    {
      hide Valid, Route, RouteOne, PacketsTo, Prefix, Packet, Entered;
      RelayTurn(p, buf, turn(n), before.Keys);
      RouteNext(table, frames, turn, n, p);
      forall q <- before {
        RouteNext(table, frames, turn, n, q);
      }
    }

    /** One round of the relay loop: reads the next frame and routes it, unless the loop is over. */
    method RelayRound(p: Peer, stream: Framing.Stream, buf: array<byte>, turn: nat -> Turn, n: nat,
                      ghost table: map<Key, Peer>, ghost frames: seq<Frame>, ghost before: map<Peer, seq<seq<byte>>>)
      returns (more: bool)
      requires p.Consistent() && Valid() && buf.Length == FRAME_SIZE && buf !in pool
      requires n <= |frames| && Framing.Frames(stream.Pending(), FRAME_SIZE) == frames[n..]
      requires peers == Route(table, frames[..n], turn).table && Grown(before, Route(table, frames[..n], turn).log)
      modifies `peers, p, peers.Values, stream`segments, buf
      ensures p.Consistent() && Valid() && peers.Values <= old(peers.Values)
      ensures more <==> n < |frames| && turn(n).readable && !old(p.closed)
      ensures more ==>
                && Framing.Frames(stream.Pending(), FRAME_SIZE) == frames[n + 1..]
                && |stream.Pending()| < |old(stream.Pending())| && buf[..] == Zeros(FRAME_SIZE)
      ensures p.closed == (old(p.closed) || (old(Entered(peers, p)) && !Entered(peers, p)))
      ensures var m := if more then n + 1 else n;
        peers == Route(table, frames[..m], turn).table && Grown(before, Route(table, frames[..m], turn).log)
    {
      hide Valid, Route, Grown, Framing.Frames, Entered;
      more := turn(n).readable && !p.closed;
      if more {
        Framing.NextFrame(stream.Pending(), FRAME_SIZE);
        more := stream.ReadFull(buf);
      }
      if more {
        RelayNext(p, buf, turn, n, table, frames, before);
      }
    }

    /** The same, with an account of when the loop is over. */
    method RelayTry(p: Peer, stream: Framing.Stream, buf: array<byte>, turn: nat -> Turn, n: nat,
                    ghost table: map<Key, Peer>, ghost frames: seq<Frame>, ghost before: map<Peer, seq<seq<byte>>>,
                    ghost open: bool)
      returns (more: bool)
      requires p.Consistent() && Valid() && buf.Length == FRAME_SIZE && buf !in pool
      requires n <= |frames| && Framing.Frames(stream.Pending(), FRAME_SIZE) == frames[n..]
      requires peers == Route(table, frames[..n], turn).table && Grown(before, Route(table, frames[..n], turn).log)
      requires p.closed <==> !StaysOpen(table, frames, turn, p, open, n)
      requires GoesOn(table, frames, turn, p, open, n)
      modifies `peers, p, peers.Values, stream`segments, buf
      ensures p.Consistent() && Valid() && peers.Values <= old(peers.Values)
      ensures more ==>
                && n < |frames| && Framing.Frames(stream.Pending(), FRAME_SIZE) == frames[n + 1..]
                && |stream.Pending()| < |old(stream.Pending())| && buf[..] == Zeros(FRAME_SIZE)
                && GoesOn(table, frames, turn, p, open, n + 1)
      ensures !more ==> EndsAfter(table, frames, turn, p, open, n)
      ensures var m := if more then n + 1 else n;
        && peers == Route(table, frames[..m], turn).table && Grown(before, Route(table, frames[..m], turn).log)
        && (p.closed <==> !StaysOpen(table, frames, turn, p, open, m))
    {
      hide Valid, Route, Grown, Framing.Frames, Entered, StaysOpen;
      if n < |frames| {
        OpenNext(table, frames, turn, p, open, n);
      }
      more := RelayRound(p, stream, buf, turn, n, table, frames, before);
    }

    /** The loop itself, over one buffer. */
    method RelayFrames(p: Peer, stream: Framing.Stream, buf: array<byte>, turn: nat -> Turn,
                       ghost table: map<Key, Peer>, ghost frames: seq<Frame>, ghost before: map<Peer, seq<seq<byte>>>)
      returns (ghost n: nat)
      requires p.Consistent() && Valid() && buf.Length == FRAME_SIZE && buf !in pool
      requires peers == table && peers.Values <= before.Keys && Grown(before, [])
      requires Framing.Frames(stream.Pending(), FRAME_SIZE) == frames && buf[..] == Zeros(FRAME_SIZE)
      modifies `peers, p, before.Keys, stream`segments, buf
      ensures p.Consistent() && Valid() && EndsAfter(table, frames, turn, p, !old(p.closed), n)
      ensures p.closed <==> !StaysOpen(table, frames, turn, p, !old(p.closed), n)
      ensures peers == Route(table, frames[..n], turn).table && Grown(before, Route(table, frames[..n], turn).log)
    {
      RouteNothing(table, turn);
      ghost var open := !p.closed;
      OpenAtFirst(table, frames, turn, p, open);
      hide Valid, Grown, Route, PacketsTo, Framing.Frames, StaysOpen, EndsAfter;
      var k, more := 0, true;
      assert GoesOn(table, frames, turn, p, open, 0);
      hide GoesOn;
      while more
        invariant p.Consistent() && Valid() && k <= |frames| && peers.Values <= before.Keys
        invariant more ==> buf[..] == Zeros(FRAME_SIZE) && Framing.Frames(stream.Pending(), FRAME_SIZE) == frames[k..]
        invariant if more then GoesOn(table, frames, turn, p, open, k) else EndsAfter(table, frames, turn, p, open, k)
        invariant p.closed <==> !StaysOpen(table, frames, turn, p, open, k)
        invariant peers == Route(table, frames[..k], turn).table && Grown(before, Route(table, frames[..k], turn).log)
        decreases more, |stream.Pending()|
      {
        more := RelayTry(p, stream, buf, turn, k, table, frames, before, open);
        if more {
          k := k + 1;
        }
      }
      n := k;
    }

    /**
     The relay loop of one peer: frame after frame is read into one buffer and routed, until a read fails or
     the connection cannot be read any more. The buffer goes back to the pool all zeros.
     */
    method RelayLoop(p: Peer, stream: Framing.Stream, turn: nat -> Turn) returns (ghost n: nat)
      requires p.Consistent() && Valid()
      modifies this, p, peers.Values, stream`segments, pool
      ensures p.Consistent() && Valid()
      ensures var frames := Framing.Frames(old(stream.Pending()), FRAME_SIZE);
        && EndsAfter(old(peers), frames, turn, p, !old(p.closed), n)
        && (p.closed <==> !StaysOpen(old(peers), frames, turn, p, !old(p.closed), n))
        && peers == Route(old(peers), frames[..n], turn).table
        && forall q <- old(peers.Values) ::
             q.written == old(q.written) + PacketsTo(Route(old(peers), frames[..n], turn).log, q)
      ensures old(pool) < pool || (old(pool) == pool && pool != {})
    {
      hide Valid, Grown, Route, PacketsTo, Framing.Frames, Snapshot, StaysOpen;
      ghost var table, known := peers, peers.Values;
      ghost var before := Snapshot(known);
      ghost var frames: seq<Frame> := Framing.Frames(stream.Pending(), FRAME_SIZE);
      SnapshotGrown(known);
      var buf := GetBuffer();
      n := RelayFrames(p, stream, buf, turn, table, frames, before);
      GrownBy(before, Route(table, frames[..n], turn).log);
      PutBuffer(buf);
    }

    /**
     Reads and checks the handshake. The key hash of the peer is the digest of the public key it presents; a
     connection that is too short or of another version is refused.
     */
    method DoHandshake(stream: Framing.Stream, hash: Key -> Key, deadlineOk: bool, now: nat) returns (p: Peer?)
      modifies stream
      ensures var hello := old(stream.Pending());
        && (p != null <==> deadlineOk && |hello| >= 65 && hello[0] == 1)
        && (p != null ==>
              && fresh(p) && p.keyHash == hash(hello[1..33])
              && p.lastAlive == now && !p.evicted && !p.closed && p.written == []
              && stream.Pending() == hello[65..])
    {
      if !deadlineOk {
        return null;
      }
      ghost var hello := stream.Pending();
      var buf := new byte[HANDSHAKE_SIZE](_ => 0);
      var ok := stream.ReadFull(buf);
      if !ok {
        return null;
      }
      var hs := DecodeHandshake(buf[..]);
      if hs.Err? || hs.value.version != VERSION {
        return null;
      }
      assert buf[..][1..33] == hello[1..33];
      p := new Peer(hash(hs.value.senderKey), now);
    }

    /** Registers a peer and routes its frames, until its relay loop ends. */
    method Serve(p: Peer, stream: Framing.Stream, turn: nat -> Turn) returns (ghost n: nat)
      requires Valid() && p !in peers.Values && !p.evicted && !p.closed && p.written == []
      modifies this, p, peers.Values, stream, pool
      ensures Valid() && p.Consistent()
      ensures p.keyHash in old(peers) ==> old(peers)[p.keyHash].closed
      ensures var frames := Framing.Frames(old(stream.Pending()), FRAME_SIZE);
        var joined := Registered(old(peers), p.keyHash, p);
        && EndsAfter(joined, frames, turn, p, true, n)
        && peers == Route(joined, frames[..n], turn).table
        && p.written == PacketsTo(Route(joined, frames[..n], turn).log, p)
        && forall q <- old(peers.Values) ::
             q.written == old(q.written) + PacketsTo(Route(joined, frames[..n], turn).log, q)
    {
      hide Route, Framing.Frames, PacketsTo, OwnKeys, Burnt;
      SupersededLeaves(peers, p.keyHash, p);
      ghost var pending := stream.Pending();
      Register(p);
      ghost var joined := peers;
      n := RelayLoop(p, stream, turn);
      SupersededGetsNothing(joined, Framing.Frames(pending, FRAME_SIZE)[..n], turn);
    }

    /**
     The life of a connection. A refused one leaves the table and all other connections alone. Any other is
     registered, which closes the connection that it supersedes; its frames are routed, and every peer,
     itself included, is written exactly the packets routed to it; and in the end it is closed and no longer
     in the table, while its entry survives if a newer connection has taken it over.
     */
    method HandleConn(stream: Framing.Stream, hash: Key -> Key, deadlineOk: bool, now: nat, turn: nat -> Turn)
      returns (p: Peer?, ghost n: nat)
      requires Valid()
      modifies this, peers.Values, stream, pool
      ensures Valid()
      ensures p == null ==> stream.closed && peers == old(peers) && forall q <- peers.Values :: unchanged(q)
      ensures var hello := old(stream.Pending());
        && (p != null <==> deadlineOk && |hello| >= 65 && hello[0] == 1)
        && (p != null ==> p.keyHash == hash(hello[1..33]))
      ensures p != null ==> fresh(p) && p.closed && forall k <- peers :: peers[k] != p
      ensures p != null && p.keyHash in old(peers) ==> old(peers)[p.keyHash].closed
      ensures p != null ==>
                var frames := Framing.Frames(old(stream.Pending())[65..], FRAME_SIZE);
                var joined := Registered(old(peers), p.keyHash, p);
                && EndsAfter(joined, frames, turn, p, true, n)
                && peers == Removed(Route(joined, frames[..n], turn).table, p.keyHash, p)
                && p.written == PacketsTo(Route(joined, frames[..n], turn).log, p)
                && forall q <- old(peers.Values) ::
                     q.written == old(q.written) + PacketsTo(Route(joined, frames[..n], turn).log, q)
    {
      hide Route, Framing.Frames, PacketsTo, GoodHello, OwnKeys, Burnt;
      n := 0;
      p := DoHandshake(stream, hash, deadlineOk, now);
      if p == null {
        stream.Close();
        return;
      }
      n := Serve(p, stream, turn);
      Evict(p);
    }
  }

  /** Since `before`, each of the peers has been sent the packets that the log has for it. */
  ghost predicate Grown(before: map<Peer, seq<seq<byte>>>, log: seq<(Peer, seq<byte>)>)
    reads before.Keys
  {
    forall q <- before :: q.written == before[q] + PacketsTo(log, q)
  }

  ghost function Snapshot(known: set<Peer>): map<Peer, seq<seq<byte>>>
    reads known
  {
    map q | q in known :: q.written
  }

  lemma SnapshotGrown(known: set<Peer>)
    ensures Snapshot(known).Keys == known && Grown(Snapshot(known), [])
    ensures forall q <- known :: Snapshot(known)[q] == q.written
  {
  }

  lemma GrownBy(before: map<Peer, seq<seq<byte>>>, log: seq<(Peer, seq<byte>)>)
    requires Grown(before, log)
    ensures forall q <- before :: q.written == before[q] + PacketsTo(log, q)
  {
  }
}
