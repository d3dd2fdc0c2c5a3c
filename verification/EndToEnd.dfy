/**
 From disk to disk. The files that a session sends, sealed, framed and interleaved with each other and with
 other traffic, pass through the relay among the packets of any number of other connections and arrive at
 the receiving session as the files that were sent.
 */
module EndToEnd {
  import opened Bytes
  import opened Words
  import opened Protocol
  import opened Fragments
  import opened Transfers
  import opened Interleaving
  import opened Cipher
  import Client
  import D = Delivery
  import Framing
  import R = RelayMachine
  import RI = RelayInvariants
  import RT = RelayTheorems
  import RR = RelayRouting
  import RelayRuns
  import RelayDelivery

  // --- the sending session ---

  /** What is behind the recipient hash in each of these frames. */
  function Tails(frames: seq<seq<byte>>): (tails: seq<seq<byte>>)
    ensures |tails| == |frames|
  {
    seq(|frames|, i requires 0 <= i < |frames| => if |frames[i]| < 32 then [] else frames[i][32..])
  }

  /** Packets behind the recipient hash. */
  function Framed(hash: Key, packets: seq<seq<byte>>): (frames: seq<seq<byte>>)
    ensures |frames| == |packets|
  {
    seq(|packets|, i requires 0 <= i < |packets| => Client.Outer(hash, packets[i]))
  }

  lemma TailsFramed(hash: Key, packets: seq<seq<byte>>)
    ensures Tails(Framed(hash, packets)) == packets
  {
  }

  ghost predicate AllSend(file: SentFile, io: nat -> Client.Io)
    requires file.Readable()
  {
    forall j :: 0 <= j < |file.Items()| ==> Client.Sendable(file.Items()[j].Bytes(), io(j))
  }

  /**
   The frames that a session writes for a file, all of which could be sent, are addressed to its peer, have
   the relay's frame size, and carry packets that open to the transfer of that file.
   */
  lemma SentFileIsCarried(aead: Aead, hash: Key, file: SentFile, io: nat -> Client.Io)
    requires Lawful(aead) && file.Valid() && AllSend(file, io)
    ensures var frames := Client.FramesFor(aead, hash, file.Items(), io, 0);
      && (forall f <- frames :: |f| == 4128 && f[..32] == hash)
      && frames == Framed(hash, Tails(frames))
      && D.CarriesFile(aead, Tails(frames), file)
      && forall packet <- Tails(frames) :: |packet| == PACKET_SIZE
  {
    hide Item.Bytes, SentFile.Items, Sealed, Opened, Client.Sendable;
    var frames := Client.FramesFor(aead, hash, file.Items(), io, 0);
    forall j | 0 <= j < |frames|
      ensures |frames[j]| == R.FRAME_SIZE && frames[j][..32] == hash && frames[j] == hash + frames[j][32..]
      ensures Opened(aead, frames[j][32..]) == Ok(file.Items()[j].Bytes())
    {
      FrameCarries(aead, hash, file.Items()[j].Bytes(), io(j));
    }
  }

  lemma FrameCarries(aead: Aead, hash: Key, payload: seq<byte>, io: Client.Io)
    requires Lawful(aead) && Client.Sendable(payload, io)
    ensures var frame := Client.FrameFor(aead, hash, payload, io);
      && |frame| == R.FRAME_SIZE && frame[..32] == hash && frame == hash + frame[32..]
      && Opened(aead, frame[32..]) == Ok(payload)
  {
    hide Sealed, Opened;
    OpenSealed(aead, payload, io.entropy);
    var packet := Sealed(aead, payload, io.entropy).value;
    assert (hash + packet)[32..] == packet;
  }

  /** The packets of a file that a session sent whole. */
  ghost predicate SentAs(aead: Aead, hash: Key, file: SentFile, io: nat -> Client.Io, packets: seq<seq<byte>>) {
    && file.Valid() && AllSend(file, io)
    && packets == Tails(Client.FramesFor(aead, hash, file.Items(), io, 0))
  }

  /**
   What one session sends at the same time: the packets of files with distinct FileIDs, and further streams of
   packets that concern no transfer.
   */
  ghost predicate SentStreams(aead: Aead, hash: Key, files: seq<SentFile>, ios: seq<nat -> Client.Io>,
                              streams: seq<seq<seq<byte>>>) {
    && |files| == |ios| <= |streams|
    && (forall i :: 0 <= i < |files| ==> SentAs(aead, hash, files[i], ios[i], streams[i]))
    && (forall i :: |files| <= i < |streams| ==> forall packet <- streams[i] :: D.Inert(aead, packet))
    && (forall i, j :: 0 <= i < j < |files| ==> files[i].fileID != files[j].fileID)
  }

  lemma SentIsTraffic(aead: Aead, hash: Key, files: seq<SentFile>, ios: seq<nat -> Client.Io>,
                      streams: seq<seq<seq<byte>>>)
    requires Lawful(aead) && SentStreams(aead, hash, files, ios, streams)
    ensures D.Traffic(aead, files, streams)
  {
    hide AllSend, Client.FramesFor, Tails, D.CarriesFile, D.Inert, Framed;
    forall i | 0 <= i < |files|
      ensures files[i].Valid() && D.CarriesFile(aead, streams[i], files[i])
    {
      SentFileIsCarried(aead, hash, files[i], ios[i]);
    }
  }

  lemma AllOrStopped(sender: Client.Session, file: SentFile, io: nat -> Client.Io, emitted: seq<Item>)
    requires file.Readable() && sender.AllSendable(emitted, io, 0)
    requires sender.Outcome(file.Items(), io, 0, emitted == file.Items(), emitted)
    ensures emitted == file.Items() ==> AllSend(file, io)
    ensures !sender.done && sender.cipherSess != null && sender.conn != null && AllSend(file, io) ==>
              emitted == file.Items()
  {
    hide Item.Bytes, SentFile.Items, Client.Sendable;
    forall j | 0 <= j < |emitted|
      ensures Client.Sendable(emitted[j].Bytes(), io(j))
    {
      assert sender.CanSend(emitted[j], io(0 + j));
    }
  }

  /**
   A session sends one file. If the success message is shown for a file that is not empty, its connection has
   been given the frames of all the packets of the transfer; and that is so whenever the session is up and
   each of its packets can be sent.
   */
  method SendOne(sender: Client.Session, file: SentFile, io: nat -> Client.Io)
    returns (announced: bool, ghost packets: seq<seq<byte>>)
    requires sender.Valid() && file.Valid()
    modifies sender.conn
    ensures announced && file.Data() != [] ==> SentAs(sender.aead, sender.peerKeyHash, file, io, packets)
    ensures !sender.done && sender.cipherSess != null && sender.conn != null && AllSend(file, io) ==>
              announced && SentAs(sender.aead, sender.peerKeyHash, file, io, packets)
    ensures SentAs(sender.aead, sender.peerKeyHash, file, io, packets) ==>
              sender.Sent() == old(sender.Sent()) + Framed(sender.peerKeyHash, packets)
  {
    hide Tails, Framed, Client.FramesFor, AllSend, Item.Bytes, SentFile.Items;
    ghost var emitted;
    announced, emitted := sender.SendFile(file, io, Client.Sound);
    packets := Tails(Client.FramesFor(sender.aead, sender.peerKeyHash, emitted, io, 0));
    AllOrStopped(sender, file, io, emitted);
    if emitted == file.Items() {
      SentFileIsCarried(sender.aead, sender.peerKeyHash, file, io);
    }
  }

  // --- the relay ---

  /** The packets of a delivery log, in the order in which they were written. */
  function PacketsOf(log: seq<R.Delivery>): (packets: seq<seq<byte>>)
    ensures |packets| == |log|
  {
    seq(|log|, i requires 0 <= i < |log| => log[i].packet)
  }

  /** What the receiver's disk does for the packets that come from one sender. */
  function DisksOf(log: seq<R.Delivery>, disks: seq<Disk>, c: R.ConnId): (own: seq<Disk>)
    requires |log| == |disks|
    ensures |own| == |RI.From(log, c)|
  {
    if log == [] then []
    else
      var n := |log| - 1;
      DisksOf(log[..n], disks[..n], c) + if log[n].from == c then [disks[n]] else []
  }

  /** Packets of other senders change nothing, as long as they concern no transfer of this session. */
  lemma {:induction false} ForeignPackets(aead: Aead, r: Receiver, log: seq<R.Delivery>, disks: seq<Disk>, c: R.ConnId)
    requires |log| == |disks|
    requires forall i :: 0 <= i < |log| && log[i].from != c ==> D.Inert(aead, log[i].packet)
    ensures D.Consume(aead, r, PacketsOf(log), disks) ==
            D.Consume(aead, r, PacketsOf(RI.From(log, c)), DisksOf(log, disks, c))
  {
    hide D.ReceivePacket, D.Inert;
    if log != [] {
      var n := |log| - 1;
      ForeignPackets(aead, r, log[..n], disks[..n], c);
      assert PacketsOf(log)[..n] == PacketsOf(log[..n]);
      var own, ownDisks := RI.From(log[..n], c), DisksOf(log[..n], disks[..n], c);
      if log[n].from == c {
        assert PacketsOf(own + [log[n]])[..|own|] == PacketsOf(own);
        assert (ownDisks + [disks[n]])[..|own|] == ownDisks;
      } else {
        D.InertChangesNothing(aead, D.Consume(aead, r, PacketsOf(log[..n]), disks[..n]), log[n].packet, disks[n]);
        assert own + [] == own && ownDisks + [] == ownDisks;
      }
    }
  }

  lemma {:induction false} FromSplits(a: seq<R.Delivery>, b: seq<R.Delivery>, c: R.ConnId)
    ensures RI.From(a + b, c) == RI.From(a, c) + RI.From(b, c)
  {
    if b == [] {
      assert a + b == a;
    } else {
      var n := |b| - 1;
      FromSplits(a, b[..n], c);
      assert (a + b)[..|a| + n] == a + b[..n];
    }
  }

  /** The frames `lo..` of a sender are these packets, all addressed to one key. */
  ghost predicate AreFramesOf(sent: seq<R.Frame>, lo: nat, k: Key, packets: seq<seq<byte>>) {
    lo + |packets| <= |sent| && forall i :: 0 <= i < |packets| ==> sent[lo + i] == Client.Outer(k, packets[i])
  }

  lemma {:induction false} AddressedPackets(sent: seq<R.Frame>, lo: nat, k: Key, packets: seq<seq<byte>>, c: R.ConnId)
    requires AreFramesOf(sent, lo, k, packets)
    ensures PacketsOf(RR.Addressed(sent, lo, lo + |packets|, k, c)) == packets
  {
    if packets != [] {
      var n := |packets| - 1;
      assert AreFramesOf(sent, lo, k, packets[..n]);
      AddressedPackets(sent, lo, k, packets[..n], c);
      assert sent[lo + n] == k + packets[n];
      assert R.Prefix(sent[lo + n]) == k && R.Packet(sent[lo + n]) == packets[n];
      var front := RR.Addressed(sent, lo, lo + n, k, c);
      assert PacketsOf(front + [R.Delivery(c, lo + n, packets[n])]) == PacketsOf(front) + [packets[n]];
    }
  }

  /** What the relay wrote to a connection during a run. */
  function NewLog(s: R.State, s': R.State, r: R.ConnId): seq<R.Delivery>
    requires R.DeliveredTo(s, r) <= R.DeliveredTo(s', r)
  {
    R.DeliveredTo(s', r)[|R.DeliveredTo(s, r)|..]
  }

  /**
   A run of the relay, from a state that can be reached, in which connection `c` has these packets for the key
   `k` dealt with while `r` stays registered under `k` and no write to it fails.
   */
  ghost predicate Relays(s: R.State, actions: seq<R.Action>, s': R.State, c: R.ConnId, k: Key, r: R.ConnId,
                         packets: seq<seq<byte>>) {
    && RT.Reachable(s) && R.Run(s, actions) == Some(s') && RR.Stays(s, actions, k, r)
    && k in s'.table && s'.table[k] == r && RR.TargetOf(s, c) == None
    && |R.Fates(s', c)| == |R.Fates(s, c)| + |packets|
    && (forall i :: |R.Fates(s, c)| <= i < |R.Fates(s', c)| ==>
          R.Fates(s', c)[i] !in {R.WriteFailed(r), R.DeadlineFailed(r)})
    && AreFramesOf(R.Sent(s', c), |R.Fates(s, c)|, k, packets)
  }

  /**
   While the receiver stays registered and no write to it fails, what it gets from the sender is exactly what
   the sender addressed to it: the same packets, in the same order.
   */
  lemma RelayedInOrder(s: R.State, actions: seq<R.Action>, s': R.State, c: R.ConnId, k: Key, r: R.ConnId,
                       packets: seq<seq<byte>>)
    requires Relays(s, actions, s', c, k, r, packets)
    ensures R.DeliveredTo(s, r) <= R.DeliveredTo(s', r)
    ensures PacketsOf(RI.From(NewLog(s, s', r), c)) == packets
  {
    hide R.Run, RR.Stays, RT.Reachable, R.Sent, R.Fates, R.DeliveredTo, AreFramesOf;
    RT.RunGrows(s, actions);
    RR.CompleteWhileRegistered(s, actions, s', c, k, r);
    var before, gained := R.DeliveredTo(s, r), NewLog(s, s', r);
    assert R.DeliveredTo(s', r) == before + gained;
    FromSplits(before, gained, c);
    AddressedPackets(R.Sent(s', c), |R.Fates(s, c)|, k, packets, c);
    CancelFront(RI.From(before, c), RI.From(gained, c),
                RR.Addressed(R.Sent(s', c), |R.Fates(s, c)|, |R.Fates(s', c)|, k, c));
  }

  lemma CancelFront<T>(front: seq<T>, a: seq<T>, b: seq<T>)
    requires front + a == front + b
    ensures a == b
  {
    assert a == (front + a)[|front|..];
  }

  // --- the receiving session ---

  /** A session that has seen all packets of a log before it ended. */
  lemma ReceivedAll(aead: Aead, r0: Receiver, pending: seq<byte>, log: seq<R.Delivery>, disk: nat -> Disk,
                    torn: Client.Teardown)
    requires Framing.Frames(pending, PACKET_SIZE) == PacketsOf(log) && torn.Reach(|log|) == |log|
    ensures Client.Ended(aead, r0, Framing.Frames(pending, PACKET_SIZE), disk, torn) ==
            Zeroized(D.Consume(aead, r0, PacketsOf(log), Client.Disks(disk, |log|)))
  {
    hide D.Consume, Framing.Frames, Client.Ended;
    Client.EndedAfterAll(aead, r0, PacketsOf(log), disk, torn);
  }

  /** Every packet that the relay writes has the size the receiver reads. */
  lemma PacketSizes(s: R.State, s': R.State, r: R.ConnId)
    requires RT.Reachable(s') && R.DeliveredTo(s, r) <= R.DeliveredTo(s', r)
    ensures forall packet <- PacketsOf(NewLog(s, s', r)) :: |packet| == PACKET_SIZE
  {
    hide RT.Reachable, RI.HasKey;
    forall i | 0 <= i < |NewLog(s, s', r)|
      ensures |NewLog(s, s', r)[i].packet| == PACKET_SIZE
    {
      RR.OnlyAddressedPackets(s', r, |R.DeliveredTo(s, r)| + i);
    }
  }

  /** A run continued from a reachable state leads to a reachable state. */
  lemma {:induction false} StillReachable(s: R.State, actions: seq<R.Action>)
    requires RT.Reachable(s) && R.Run(s, actions).Some?
    ensures RT.Reachable(R.Run(s, actions).value)
  {
    hide R.Enabled, R.Apply, R.Init;
    var hash: Key -> Key, before: seq<R.Action> :| R.Run(R.Init(hash), before) == Some(s);
    RelayRuns.RunsAppend(R.Init(hash), before, actions);
  }

  /** The packets that the relay wrote to `r` and that other connections sent concern no transfer. */
  ghost predicate OthersInert(aead: Aead, log: seq<R.Delivery>, c: R.ConnId) {
    forall i :: 0 <= i < |log| && log[i].from != c ==> D.Inert(aead, log[i].packet)
  }

  /**
   The whole way. A session sends any number of files with distinct FileIDs, interleaved in any way with each
   other and with messages and pings. Over some run of the relay, with any other clients, these frames are
   dealt with while the receiver stays registered and no write to it fails. The receiver reads what the
   relay wrote, in any segmentation, and none of the packets from other senders concerns a transfer of this
   session. Then each file is, at the receiver, in the state that its own packets determine: complete and
   equal to the file sent if all of them were among the frames and the disk served them, and a prefix of it
   before that.
   */
  lemma FilesArrive(aead: Aead, files: seq<SentFile>, ios: seq<nat -> Client.Io>, streams: seq<seq<seq<byte>>>,
                    sched: seq<nat>,
                    s: R.State, actions: seq<R.Action>, s': R.State, c: R.ConnId, k: Key, r: R.ConnId,
                    segments: seq<seq<byte>>, r0: Receiver, disks: seq<Disk>)
    requires Lawful(aead) && SentStreams(aead, k, files, ios, streams) && Schedule(streams, sched)
    requires Relays(s, actions, s', c, k, r, Merge(streams, sched))
    requires R.DeliveredTo(s, r) <= R.DeliveredTo(s', r) && OthersInert(aead, NewLog(s, s', r), c)
    requires Flatten(segments) == Flatten(PacketsOf(NewLog(s, s', r))) && |disks| == |NewLog(s, s', r)|
    requires Valid(r0) && !r0.done && forall i :: 0 <= i < |files| ==> files[i].fileID !in r0.transfers
    ensures var packets := Framing.Frames(Flatten(segments), PACKET_SIZE);
      && packets == PacketsOf(NewLog(s, s', r)) && |DisksOf(NewLog(s, s', r), disks, c)| == |sched|
      && var own, result := DisksOf(NewLog(s, s', r), disks, c), D.Consume(aead, r0, packets, disks);
         && Valid(result) && !result.done
         && D.AllStatus(files, sched, own, r0, result)
         && D.SavedAsSent(files, sched, own, r0.saved, result.saved)
  {
    hide Transfers.Valid, D.Traffic, D.AllStatus, D.Consume, D.SavedAsSent, D.Inert, R.DeliveredTo, Relays, NewLog;
    hide SentStreams, OthersInert;
    var log, sent := NewLog(s, s', r), Merge(streams, sched);
    SentIsTraffic(aead, k, files, ios, streams);
    ReceivedAsSent(aead, s, actions, s', c, k, r, sent, segments, r0, disks);
    var own := DisksOf(log, disks, c);
    D.TransfersAreIndependent(aead, files, streams, sched, r0, own);
    AllSaved(aead, k, files, ios, streams, sched, own, r0, D.Consume(aead, r0, sent, own));
  }

  /** What the receiver makes of all it reads is what it makes of the packets that `c` sent. */
  lemma ReceivedAsSent(aead: Aead, s: R.State, actions: seq<R.Action>, s': R.State, c: R.ConnId, k: Key, r: R.ConnId,
                       packets: seq<seq<byte>>, segments: seq<seq<byte>>, r0: Receiver, disks: seq<Disk>)
    requires Relays(s, actions, s', c, k, r, packets)
    requires R.DeliveredTo(s, r) <= R.DeliveredTo(s', r) && OthersInert(aead, NewLog(s, s', r), c)
    requires Flatten(segments) == Flatten(PacketsOf(NewLog(s, s', r))) && |disks| == |NewLog(s, s', r)|
    ensures Framing.Frames(Flatten(segments), PACKET_SIZE) == PacketsOf(NewLog(s, s', r))
    ensures var own := DisksOf(NewLog(s, s', r), disks, c);
      && |own| == |packets|
      && D.Consume(aead, r0, PacketsOf(NewLog(s, s', r)), disks) == D.Consume(aead, r0, packets, own)
  {
    hide R.Run, RR.Stays, RT.Reachable, R.Sent, R.Fates, R.DeliveredTo, AreFramesOf, D.Inert, D.Consume;
    var log := NewLog(s, s', r);
    RelayedInOrder(s, actions, s', c, k, r, packets);
    StillReachable(s, actions);
    PacketSizes(s, s', r);
    Framing.FramesRecovered(PacketsOf(log), [], PACKET_SIZE);
    assert Flatten(PacketsOf(log)) + [] == Flatten(PacketsOf(log));
    ForeignPackets(aead, r0, log, disks, c);
  }

  lemma AllSaved(aead: Aead, k: Key, files: seq<SentFile>, ios: seq<nat -> Client.Io>, streams: seq<seq<seq<byte>>>,
                 sched: seq<nat>, disks: seq<Disk>, r0: Receiver, r: Receiver)
    requires SentStreams(aead, k, files, ios, streams)
    requires |sched| == |disks| && D.AllStatus(files, sched, disks, r0, r)
    ensures D.SavedAsSent(files, sched, disks, r0.saved, r.saved)
  {
    hide D.AllStatus, D.SavedUnder, D.Completed, AllSend, Tails, Client.FramesFor, D.Inert;
    forall i | 0 <= i < |files|
      ensures files[i].Readable()
      ensures D.SavedUnder(r.saved, files[i].fileID) ==
              D.SavedUnder(r0.saved, files[i].fileID) + D.Completed(files[i], i, sched, disks)
    {
      assert SentAs(aead, k, files[i], ios[i], streams[i]);
      D.SavedExactly(files, sched, disks, r0, r, i);
    }
  }

  /**
   The receiving session reads what the relay wrote, in any segmentation, and then ends, in any way that comes
   after these packets. To what it had saved it has added exactly the files that are complete, each under its
   own header and with the bytes that were sent.
   */
  method ReceiveFiles(receiver: Client.Session, stream: Framing.Stream, disk: nat -> Disk, io: nat -> Client.Io,
                      torn: Client.Teardown, ghost files: seq<SentFile>, ghost ios: seq<nat -> Client.Io>,
                      ghost streams: seq<seq<seq<byte>>>, ghost sched: seq<nat>, ghost s: R.State,
                      ghost actions: seq<R.Action>, ghost s': R.State, ghost c: R.ConnId, ghost k: Key,
                      ghost r: R.ConnId)
    requires receiver.Valid() && receiver.NoneDone() && !receiver.done
    requires receiver.conn != null && receiver.cipherSess != null
    requires SentStreams(receiver.aead, k, files, ios, streams) && Schedule(streams, sched)
    requires Relays(s, actions, s', c, k, r, Merge(streams, sched))
    requires R.DeliveredTo(s, r) <= R.DeliveredTo(s', r) && OthersInert(receiver.aead, NewLog(s, s', r), c)
    requires stream.Pending() == Flatten(PacketsOf(NewLog(s, s', r)))
    requires torn.Reach(|NewLog(s, s', r)|) == |NewLog(s, s', r)|
    requires Transfers.Valid(receiver.View())
    requires forall i :: 0 <= i < |files| ==> files[i].fileID !in receiver.transfers
    modifies receiver.Parts(), stream
    ensures receiver.Valid() && receiver.done && receiver.transfers == map[]
    ensures var log := NewLog(s, s', r);
      var own := DisksOf(log, Client.Disks(disk, |log|), c);
      |own| == |sched| && D.SavedAsSent(files, sched, own, old(receiver.saved), receiver.saved)
  {
    hide SentStreams, Relays, NewLog, R.DeliveredTo, OthersInert, Transfers.Valid, D.SavedAsSent, D.AllStatus;
    hide D.Consume, Framing.Frames, Client.Ended, DisksOf, PacketsOf, Client.OpensLate, Client.NoneReplaces;
    hide OpenFiles, Client.Session.StillOpen, Client.Session.Registry, Client.Session.Announced, Client.Session.Handles;
    ghost var r0, log, pending := receiver.View(), NewLog(s, s', r), stream.Pending();
    assert Flatten([pending]) == pending + Flatten([]) == pending;
    hide Flatten;
    FilesArrive(receiver.aead, files, ios, streams, sched, s, actions, s', c, k, r, [pending], r0,
                Client.Disks(disk, |log|));
    receiver.RecvLoop(stream, disk, io, torn);
    ReceivedAll(receiver.aead, r0, pending, log, disk, torn);
    assert receiver.View().saved == receiver.saved && receiver.View().transfers == map[];
  }

  /**
   Nothing above is vacuous: for everything that a session can send, the relay has a run, from its start with
   any digest and any two clients whose keys differ under it, that carries it to the receiver and writes
   nothing else there.
   */
  lemma CanBeRelayed(aead: Aead, hash: Key -> Key, receiverKey: Key, senderKey: Key, packets: seq<seq<byte>>)
    returns (s: R.State, actions: seq<R.Action>, s': R.State)
    requires hash(receiverKey) != hash(senderKey) && forall packet <- packets :: |packet| == PACKET_SIZE
    ensures var c, r := RelayDelivery.SENDER, RelayDelivery.RECEIVER;
      && Relays(s, actions, s', c, hash(receiverKey), r, packets)
      && R.DeliveredTo(s, r) <= R.DeliveredTo(s', r)
      && PacketsOf(NewLog(s, s', r)) == packets && OthersInert(aead, NewLog(s, s', r), c)
      && forall i :: 0 <= i < |NewLog(s, s', r)| ==> NewLog(s, s', r)[i].from == c
  {
    hide RT.Reachable, R.Run, RR.Stays;
    s, actions, s' := RelayDelivery.PacketsGetThrough(hash, receiverKey, senderKey, packets);
    CarriedIsRelayed(s, s', hash(receiverKey), packets);
  }

  lemma CarriedIsRelayed(s: R.State, s': R.State, k: Key, packets: seq<seq<byte>>)
    requires RelayDelivery.Carried(s, s', k, packets)
    requires |R.Fates(s, RelayDelivery.SENDER)| == |R.Sent(s, RelayDelivery.SENDER)|
    ensures var c, r := RelayDelivery.SENDER, RelayDelivery.RECEIVER;
      && |R.Fates(s', c)| == |R.Fates(s, c)| + |packets|
      && (forall i :: |R.Fates(s, c)| <= i < |R.Fates(s', c)| ==> R.Fates(s', c)[i] == R.Delivered(r))
      && AreFramesOf(R.Sent(s', c), |R.Fates(s, c)|, k, packets)
      && R.DeliveredTo(s, r) <= R.DeliveredTo(s', r)
      && NewLog(s, s', r) == RelayDelivery.Entries(|R.Fates(s, c)|, packets)
  {
    hide R.Fates, R.Sent, R.DeliveredTo;
    var c, lo := RelayDelivery.SENDER, |R.Fates(s, RelayDelivery.SENDER)|;
    forall i | 0 <= i < |packets|
      ensures R.Sent(s', c)[lo + i] == Client.Outer(k, packets[i])
    {
      assert R.Sent(s', c)[lo + i] == RelayDelivery.FramesTo(k, packets)[i];
    }
  }

  // --- any number of files, both sessions ---

  /** Files with distinct FileIDs, all of whose packets can be sent. */
  ghost predicate CanAllBeSent(files: seq<SentFile>, ios: seq<nat -> Client.Io>) {
    && |files| == |ios|
    && (forall i :: 0 <= i < |files| ==> files[i].Valid() && AllSend(files[i], ios[i]))
    && (forall i, j :: 0 <= i < j < |files| ==> files[i].fileID != files[j].fileID)
  }

  /** The packets of each file, as a session would send them. */
  ghost function StreamsOf(aead: Aead, hash: Key, files: seq<SentFile>, ios: seq<nat -> Client.Io>)
    : (streams: seq<seq<seq<byte>>>)
    requires CanAllBeSent(files, ios)
    ensures |streams| == |files|
  {
    seq(|files|, i requires 0 <= i < |files| => Tails(Client.FramesFor(aead, hash, files[i].Items(), ios[i], 0)))
  }

  lemma StreamsAreSent(aead: Aead, hash: Key, files: seq<SentFile>, ios: seq<nat -> Client.Io>)
    requires CanAllBeSent(files, ios)
    ensures SentStreams(aead, hash, files, ios, StreamsOf(aead, hash, files, ios))
  {
    hide AllSend, Tails, Client.FramesFor;
  }

  lemma StreamSizes(aead: Aead, hash: Key, files: seq<SentFile>, ios: seq<nat -> Client.Io>)
    requires Lawful(aead) && CanAllBeSent(files, ios)
    ensures var streams := StreamsOf(aead, hash, files, ios);
      forall i :: 0 <= i < |streams| ==> forall packet <- streams[i] :: |packet| == PACKET_SIZE
  {
    hide AllSend, Tails, Client.FramesFor;
    forall i | 0 <= i < |files|
      ensures forall packet <- StreamsOf(aead, hash, files, ios)[i] :: |packet| == PACKET_SIZE
    {
      SentFileIsCarried(aead, hash, files[i], ios[i]);
    }
  }

  lemma {:induction false} MergeSizes(streams: seq<seq<seq<byte>>>, sched: seq<nat>)
    requires Schedule(streams, sched)
    requires forall i :: 0 <= i < |streams| ==> forall packet <- streams[i] :: |packet| == PACKET_SIZE
    ensures forall packet <- Merge(streams, sched) :: |packet| == PACKET_SIZE
  {
    if sched != [] {
      MergeSizes(streams, sched[..|sched| - 1]);
    }
  }

  /** The disks of a log that comes from one sender are all its own. */
  lemma {:induction false} AllOwn(log: seq<R.Delivery>, disks: seq<Disk>, c: R.ConnId)
    requires |log| == |disks| && forall i :: 0 <= i < |log| ==> log[i].from == c
    ensures DisksOf(log, disks, c) == disks
  {
    if log != [] {
      AllOwn(log[..|log| - 1], disks[..|log| - 1], c);
    }
  }

  /** Packet `c` of a file, as its `sendFile` writes it. */
  lemma NextFrame(aead: Aead, hash: Key, files: seq<SentFile>, ios: seq<nat -> Client.Io>, i: nat, c: nat)
    requires Lawful(aead) && CanAllBeSent(files, ios) && i < |files| && c < |files[i].Items()|
    ensures var payload, streams := files[i].Items()[c].Bytes(), StreamsOf(aead, hash, files, ios);
      && Client.Sendable(payload, ios[i](c)) && c < |streams[i]|
      && Client.FrameFor(aead, hash, payload, ios[i](c)) == Client.Outer(hash, streams[i][c])
  {
    hide Item.Bytes, SentFile.Items, Client.Sendable, Client.FrameFor;
    FrameCarries(aead, hash, files[i].Items()[c].Bytes(), ios[i](c));
  }

  lemma ScheduleFront<T>(streams: seq<seq<T>>, sched: seq<nat>, n: nat)
    requires Schedule(streams, sched) && n <= |sched|
    ensures Schedule(streams, sched[..n])
    decreases sched
  {
    if n < |sched| {
      ScheduleFront(streams, sched[..|sched| - 1], n);
      assert sched[..|sched| - 1][..n] == sched[..n];
    } else {
      assert sched[..n] == sched;
    }
  }

  /** The next turn of a schedule. */
  lemma MergeNext(streams: seq<seq<seq<byte>>>, sched: seq<nat>, n: nat)
    requires Schedule(streams, sched) && n < |sched|
    ensures Schedule(streams, sched[..n]) && Schedule(streams, sched[..n + 1])
    ensures var i, c := sched[n], Count(sched[..n], sched[n]);
      && i < |streams| && c < |streams[i]|
      && Merge(streams, sched[..n + 1]) == Merge(streams, sched[..n]) + [streams[i][c]]
  {
    ScheduleFront(streams, sched, n);
    ScheduleFront(streams, sched, n + 1);
    assert sched[..n + 1][..n] == sched[..n];
  }

  lemma FramedSnoc(hash: Key, packets: seq<seq<byte>>, last: seq<byte>)
    ensures Framed(hash, packets + [last]) == Framed(hash, packets) + [Client.Outer(hash, last)]
  {
  }

  /** One packet of one file. */
  method SendTurn(sender: Client.Session, files: seq<SentFile>, ios: seq<nat -> Client.Io>, sched: seq<nat>, n: nat,
                  ghost before: seq<seq<byte>>)
    requires sender.Valid() && !sender.done && sender.cipherSess != null && sender.conn != null
    requires CanAllBeSent(files, ios) && n < |sched|
    requires var streams := StreamsOf(sender.aead, sender.peerKeyHash, files, ios);
      && Schedule(streams, sched) && Schedule(streams, sched[..n])
      && sender.conn.sent == before + Framed(sender.peerKeyHash, Merge(streams, sched[..n]))
    modifies sender.conn
    ensures sender.Valid()
    ensures var streams := StreamsOf(sender.aead, sender.peerKeyHash, files, ios);
      && Schedule(streams, sched[..n + 1])
      && sender.conn.sent == before + Framed(sender.peerKeyHash, Merge(streams, sched[..n + 1]))
  {
    hide CanAllBeSent, StreamsOf, Framed, SentFile.Items, Item.Bytes, Client.Sendable, Client.FrameFor;
    hide Schedule, Merge, Count, Client.Session.Handles, Client.Session.Registry, Client.Session.Announced;
    ghost var hash, streams := sender.peerKeyHash, StreamsOf(sender.aead, sender.peerKeyHash, files, ios);
    MergeNext(streams, sched, n);
    var i, c := sched[n], Count(sched[..n], sched[n]);
    StreamLength(sender.aead, hash, files, ios, i);
    NextFrame(sender.aead, hash, files, ios, i, c);
    var result := sender.SendPacket(files[i].Items()[c].Bytes(), ios[i](c));
    FramedSnoc(hash, Merge(streams, sched[..n]), streams[i][c]);
  }

  lemma StreamLength(aead: Aead, hash: Key, files: seq<SentFile>, ios: seq<nat -> Client.Io>, i: nat)
    requires CanAllBeSent(files, ios) && i < |files|
    ensures files[i].Readable() && |ios| == |files| && |StreamsOf(aead, hash, files, ios)| == |files|
    ensures |StreamsOf(aead, hash, files, ios)[i]| == |files[i].Items()|
  {
  }

  /** The `sendFile` goroutines of several files take turns, in any order, packet by packet. */
  method SendFiles(sender: Client.Session, files: seq<SentFile>, ios: seq<nat -> Client.Io>, sched: seq<nat>)
    returns (packets: seq<seq<byte>>)
    requires sender.Valid() && !sender.done && sender.cipherSess != null && sender.conn != null
    requires CanAllBeSent(files, ios)
    requires Schedule(StreamsOf(sender.aead, sender.peerKeyHash, files, ios), sched)
    modifies sender.conn
    ensures packets == Merge(StreamsOf(sender.aead, sender.peerKeyHash, files, ios), sched)
    ensures sender.conn.sent == old(sender.conn.sent) + Framed(sender.peerKeyHash, packets)
  {
    hide Tails, StreamsOf, CanAllBeSent, Client.Session.Valid;
    var already := sender.conn.sent;
    ghost var streams := StreamsOf(sender.aead, sender.peerKeyHash, files, ios);
    var n := 0;
    while n < |sched|
      invariant n <= |sched| && sender.Valid() && Schedule(streams, sched[..n])
      invariant sender.conn.sent == already + Framed(sender.peerKeyHash, Merge(streams, sched[..n]))
    {
      SendTurn(sender, files, ios, sched, n, already);
      n := n + 1;
    }
    assert sched[..n] == sched;
    TailsFramed(sender.peerKeyHash, Merge(streams, sched));
    packets := Tails(sender.conn.sent[|already|..]);
  }

  lemma IsFresh(receiver: Client.Session)
    requires receiver.Valid() && receiver.View() == FRESH
    ensures Lawful(receiver.aead) && !receiver.done && Transfers.Valid(receiver.View())
    ensures receiver.transfers == map[] && receiver.saved == []
  {
    assert receiver.View().transfers.Keys == receiver.transfers.Keys;
  }

  method Delivering(packets: seq<seq<byte>>) returns (stream: Framing.Stream)
    ensures fresh(stream) && stream.Pending() == Flatten(packets)
  {
    stream := new Framing.Stream(packets);
  }

  /** What a session has sent can be relayed, and the hypotheses about the way are met. */
  lemma SentIsRelayed(aead: Aead, files: seq<SentFile>, ios: seq<nat -> Client.Io>, sched: seq<nat>,
                      hash: Key -> Key, receiverKey: Key, senderKey: Key)
    returns (s: R.State, actions: seq<R.Action>, s': R.State)
    requires Lawful(aead) && CanAllBeSent(files, ios) && hash(senderKey) != hash(receiverKey)
    requires Schedule(StreamsOf(aead, hash(receiverKey), files, ios), sched)
    ensures var c, r := RelayDelivery.SENDER, RelayDelivery.RECEIVER;
      var streams := StreamsOf(aead, hash(receiverKey), files, ios);
      && SentStreams(aead, hash(receiverKey), files, ios, streams)
      && Relays(s, actions, s', c, hash(receiverKey), r, Merge(streams, sched))
      && R.DeliveredTo(s, r) <= R.DeliveredTo(s', r)
      && PacketsOf(NewLog(s, s', r)) == Merge(streams, sched) && OthersInert(aead, NewLog(s, s', r), c)
      && forall disks :: |disks| == |NewLog(s, s', r)| ==> DisksOf(NewLog(s, s', r), disks, c) == disks
  {
    hide CanAllBeSent, StreamsOf, SentStreams, Relays, NewLog, OthersInert, R.DeliveredTo;
    var k, c, r := hash(receiverKey), RelayDelivery.SENDER, RelayDelivery.RECEIVER;
    StreamsAreSent(aead, k, files, ios);
    StreamSizes(aead, k, files, ios);
    MergeSizes(StreamsOf(aead, k, files, ios), sched);
    s, actions, s' := CanBeRelayed(aead, hash, receiverKey, senderKey, Merge(StreamsOf(aead, k, files, ios), sched));
    forall disks | |disks| == |NewLog(s, s', r)|
      ensures DisksOf(NewLog(s, s', r), disks, c) == disks
    {
      AllOwn(NewLog(s, s', r), disks, c);
    }
  }

  /** Of the saved files exactly one is under this FileID: it has this name and these contents. */
  ghost predicate SavedAs(saved: seq<Saved>, id: uint32, name: seq<byte>, data: seq<byte>) {
    exists n :: 0 <= n < |saved| && IsFile(saved[n], id, name, data) &&
      forall m :: 0 <= m < |saved| && saved[m].header.fileID == id ==> m == n
  }

  predicate IsFile(s: Saved, id: uint32, name: seq<byte>, data: seq<byte>) {
    s.header.fileID == id && s.header.name == name && s.header.totalSize == |data| && s.content == data
  }

  ghost predicate NoneSaved(saved: seq<Saved>, id: uint32) {
    forall m :: 0 <= m < |saved| ==> saved[m].header.fileID != id
  }

  lemma {:induction false} NoneUnder(saved: seq<Saved>, id: uint32)
    requires D.SavedUnder(saved, id) == []
    ensures NoneSaved(saved, id)
  {
    if saved != [] {
      NoneUnder(saved[..|saved| - 1], id);
    }
  }

  lemma {:induction false} OneUnder(saved: seq<Saved>, file: SentFile)
    requires file.Readable() && D.SavedUnder(saved, file.fileID) == [(file.Header(), file.Data())]
    ensures SavedAs(saved, file.fileID, file.name, file.Data())
  {
    hide SentFile.Header, SentFile.Data;
    var n, last := |saved| - 1, saved[|saved| - 1];
    var front := D.SavedUnder(saved[..n], file.fileID);
    if last.header.fileID == file.fileID {
      assert D.SavedUnder(saved, file.fileID) == front + [(last.header, last.content)];
      SnocIsOne(front, (last.header, last.content), (file.Header(), file.Data()));
      NoneUnder(saved[..n], file.fileID);
      HeaderTells(file);
      assert IsFile(saved[n], file.fileID, file.name, file.Data());
    } else {
      assert D.SavedUnder(saved, file.fileID) == front + [] == front;
      OneUnder(saved[..n], file);
      assert forall m :: 0 <= m < n ==> saved[..n][m] == saved[m];
    }
  }

  lemma SnocIsOne<T>(front: seq<T>, last: T, one: T)
    requires front + [last] == [one]
    ensures front == [] && last == one
  {
    assert |front + [last]| == 1;
    assert (front + [last])[0] == one;
  }

  /** All packets of the file were sent, and the disk served each of them. */
  ghost predicate Whole(file: SentFile, i: nat, sched: seq<nat>, disks: seq<Disk>)
    requires |sched| == |disks|
  {
    Count(sched, i) == 1 + |file.ChunkBodies()| && D.AllServed(file, i, sched, disks)
  }

  lemma SavedMeans(files: seq<SentFile>, sched: seq<nat>, disks: seq<Disk>, saved: seq<Saved>)
    requires |sched| == |disks| && D.SavedAsSent(files, sched, disks, [], saved)
    ensures forall i :: 0 <= i < |files| ==>
              if Whole(files[i], i, sched, disks) then SavedAs(saved, files[i].fileID, files[i].name, files[i].Data())
              else NoneSaved(saved, files[i].fileID)
  {
    hide D.SavedUnder, D.AllServed, SentFile.Items, SentFile.ChunkBodies, SentFile.Header;
    forall i | 0 <= i < |files|
      ensures if Whole(files[i], i, sched, disks) then SavedAs(saved, files[i].fileID, files[i].name, files[i].Data())
              else NoneSaved(saved, files[i].fileID)
    {
      var file := files[i];
      assert D.SavedUnder(saved, file.fileID) == D.Completed(file, i, sched, disks) by {
        NothingUnder(file.fileID);
      }
      ItemsCarry(file);
      if Whole(file, i, sched, disks) {
        OneUnder(saved, file);
      } else {
        NoneUnder(saved, file.fileID);
      }
    }
  }

  lemma NothingUnder(id: uint32)
    ensures D.SavedUnder([], id) == []
  {
  }

  /**
   From disk to disk with nothing assumed in between: a session that is up sends any files with distinct
   FileIDs, interleaved in any way; the relay carries the packets from its start on some run; and a fresh
   session with the same key reads them. It has then saved exactly the files whose packets were all sent and
   that its disk served, each of them once, under its name and with exactly its bytes.
   */
  method FilesGetThrough(sender: Client.Session, receiver: Client.Session, files: seq<SentFile>,
                         ios: seq<nat -> Client.Io>, sched: seq<nat>, disk: nat -> Disk, recvIo: nat -> Client.Io,
                         hash: Key -> Key, receiverKey: Key, senderKey: Key)
    requires sender.Valid() && !sender.done && sender.cipherSess != null && sender.conn != null
    requires receiver.Valid() && receiver.NoneDone() && receiver.View() == FRESH
    requires receiver.cipherSess != null && receiver.conn != null && receiver.aead == sender.aead
    requires hash(receiverKey) == sender.peerKeyHash && hash(senderKey) != hash(receiverKey)
    requires CanAllBeSent(files, ios)
    requires Schedule(StreamsOf(sender.aead, sender.peerKeyHash, files, ios), sched)
    modifies sender.conn, receiver.Parts()
    ensures forall i :: 0 <= i < |files| ==>
              if Whole(files[i], i, sched, Client.Disks(disk, |sched|))
              then SavedAs(receiver.saved, files[i].fileID, files[i].name, files[i].Data())
              else NoneSaved(receiver.saved, files[i].fileID)
  {
    hide CanAllBeSent, StreamsOf, SentStreams, Schedule, Merge, Relays, NewLog, R.DeliveredTo, OthersInert;
    hide D.SavedAsSent, DisksOf, Transfers.Valid, Client.Session.Valid, Client.Session.NoneDone, FRESH;
    IsFresh(receiver);
    var packets := SendFiles(sender, files, ios, sched);
    ghost var streams := StreamsOf(sender.aead, sender.peerKeyHash, files, ios);
    ghost var s, actions, s' := SentIsRelayed(sender.aead, files, ios, sched, hash, receiverKey, senderKey);
    ghost var c, r := RelayDelivery.SENDER, RelayDelivery.RECEIVER;
    var stream := Delivering(packets);
    ReceiveFiles(receiver, stream, disk, recvIo, Client.Never, files, ios, streams, sched,
                 s, actions, s', c, hash(receiverKey), r);
    hide Whole, SavedAs, NoneSaved;
    SavedMeans(files, sched, Client.Disks(disk, |sched|), receiver.saved);
  }

  // --- a single file, with the loops of `SendFile` ---

  /** The schedule of a single stream. */
  function Solo(n: nat): (sched: seq<nat>)
    ensures |sched| == n
  {
    seq(n, i => 0)
  }

  lemma {:induction false} SoloMerges(packets: seq<seq<byte>>, n: nat)
    requires n <= |packets|
    ensures Schedule([packets], Solo(n)) && Merge([packets], Solo(n)) == packets[..n] && Count(Solo(n), 0) == n
  {
    if n > 0 {
      SoloMerges(packets, n - 1);
      assert Solo(n)[..n - 1] == Solo(n - 1);
      assert packets[..n - 1] + [packets[n - 1]] == packets[..n];
    }
  }

  /** What the connection of a session was given for a file, without the recipient hash. */
  method Forward(sender: Client.Session, file: SentFile, io: nat -> Client.Io) returns (packets: seq<seq<byte>>)
    requires sender.Valid() && !sender.done && sender.cipherSess != null && sender.conn != null
    requires file.Valid() && AllSend(file, io)
    modifies sender.conn
    ensures SentAs(sender.aead, sender.peerKeyHash, file, io, packets)
    ensures sender.conn.sent == old(sender.conn.sent) + Framed(sender.peerKeyHash, packets)
  {
    hide Tails, Framed, SentAs, AllSend, Client.Session.Valid;
    var already := sender.conn.sent;
    var _, sent := SendOne(sender, file, io);
    TailsFramed(sender.peerKeyHash, sent);
    packets := Tails(sender.conn.sent[|already|..]);
    assert packets == sent;
  }

  lemma SoloStreams(aead: Aead, hash: Key, file: SentFile, io: nat -> Client.Io, packets: seq<seq<byte>>)
    requires SentAs(aead, hash, file, io, packets)
    ensures CanAllBeSent([file], [io]) && StreamsOf(aead, hash, [file], [io]) == [packets]
    ensures |packets| == |file.Items()|
    ensures Schedule([packets], Solo(|packets|)) && Merge([packets], Solo(|packets|)) == packets
  {
    hide AllSend, Tails, Client.FramesFor;
    SoloMerges(packets, |packets|);
    assert packets[..|packets|] == packets;
  }

  /** A single file that was sent whole, and served throughout, is what is saved. */
  lemma SoloSaved(file: SentFile, n: nat, disk: nat -> Disk, after: seq<Saved>)
    requires file.Readable() && n == |file.Items()|
    requires forall k: nat :: disk(k).openOk && disk(k).fault == None
    requires D.SavedAsSent([file], Solo(n), Client.Disks(disk, n), [], after)
    ensures SavedAs(after, file.fileID, file.name, file.Data())
  {
    hide SentFile.Items;
    SoloMerges(seq(n, i => []), n);
    D.HealthyDiskServes(file, 0, Solo(n), Client.Disks(disk, n));
    ItemsCarry(file);
    assert [file][0] == file;
    SavedMeans([file], Solo(n), Client.Disks(disk, n), after);
  }

  /** The same for one file that is sent by `SendFile`: on a healthy disk it is saved. */
  method OneFileArrives(sender: Client.Session, receiver: Client.Session, file: SentFile, sendIo: nat -> Client.Io,
                        disk: nat -> Disk, recvIo: nat -> Client.Io, hash: Key -> Key, receiverKey: Key,
                        senderKey: Key)
    requires sender.Valid() && !sender.done && sender.cipherSess != null && sender.conn != null
    requires receiver.Valid() && receiver.NoneDone() && receiver.View() == FRESH
    requires receiver.cipherSess != null && receiver.conn != null && receiver.aead == sender.aead
    requires hash(receiverKey) == sender.peerKeyHash && hash(senderKey) != hash(receiverKey)
    requires file.Valid() && AllSend(file, sendIo) && forall k: nat :: disk(k).openOk && disk(k).fault == None
    modifies sender.conn, receiver.Parts()
    ensures SavedAs(receiver.saved, file.fileID, file.name, file.Data())
  {
    hide AllSend, SentFile.Items, SentAs, SentStreams, Schedule, Merge, Solo, Relays, NewLog, R.DeliveredTo;
    hide OthersInert, D.SavedAsSent, D.SavedUnder, DisksOf, Transfers.Valid, Client.Session.Valid;
    hide Client.Session.NoneDone, FRESH, StreamsOf, CanAllBeSent;
    IsFresh(receiver);
    var packets := Forward(sender, file, sendIo);
    ghost var n := |packets|;
    SoloStreams(sender.aead, sender.peerKeyHash, file, sendIo, packets);
    ghost var s, actions, s' := SentIsRelayed(sender.aead, [file], [sendIo], Solo(n), hash, receiverKey, senderKey);
    ghost var c, r := RelayDelivery.SENDER, RelayDelivery.RECEIVER;
    var stream := Delivering(packets);
    ReceiveFiles(receiver, stream, disk, recvIo, Client.Never, [file], [sendIo], [packets], Solo(n),
                 s, actions, s', c, hash(receiverKey), r);
    SoloSaved(file, n, disk, receiver.saved);
  }
}
