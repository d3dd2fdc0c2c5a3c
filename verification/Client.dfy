/** The client session: the objects whose fields the program updates in place, against the value model. */
module Client {
  import opened Bytes
  import opened Words
  import opened Protocol
  import opened Fragments
  import opened Transfers
  import opened Cipher
  import Delivery
  import Framing

  /** The answer to a ping. */
  const PONG := Payload(WireHeader(TYPE_PONG, 0, 0), [])

  const OUTER_FRAME_SIZE := 32 + PACKET_SIZE

  /** The frame that a decrypted payload is answered with: a pong for a ping, if it can be sent. */
  function PongTo(aead: Aead, hash: Key, plain: Result<seq<byte>, OpenError>, io: Io): seq<seq<byte>> {
    if plain.Ok? && |plain.value| >= 9 && plain.value[0] == 0x05 && Sendable(PONG, io)
    then [FrameFor(aead, hash, PONG, io)]
    else []
  }

  /** The pong is an empty payload of type 6. */
  lemma PongLaidOut()
    ensures LaidOut(PONG, 0x06, 0, 0, [])
  {
    PayloadLaidOut(WireHeader(TYPE_PONG, 0, 0), []);
  }

  /** What the random source and the connection do for one outgoing packet. */
  datatype Io = Io(entropy: Entropy, deadlineOk: bool, writeOk: bool)

  datatype SendError = SessionClosed | NotReady | SealFailed(error: SealError) | DeadlineFailed | WriteFailed

  /** The frame the relay sees: the recipient's key hash in front of the sealed packet. */
  function Outer(hash: Key, packet: seq<byte>): seq<byte> {
    hash + packet
  }

  /** Sealing and writing a payload succeeds on a session that is open and ready. */
  predicate Sendable(payload: seq<byte>, io: Io) {
    && |payload| <= MAX_PLAINTEXT
    && io.entropy.padding.Some? && io.entropy.nonce.Some?
    && io.deadlineOk && io.writeOk
  }

  /**
   When another goroutine tears the session down, if ever: while packet `n` is awaited, or after it was opened
   and before it is dispatched.
   */
  datatype Teardown = Never | Reading(n: nat) | AfterOpening(n: nat) {
    /** How many of `count` packets are handled before that. */
    function Reach(count: nat): (m: nat)
      ensures m <= count
    {
      if Never? || n > count then count else n
    }
  }

  /** A packet that was opened before the teardown and is dispatched after it, on an empty registry. */
  function Late(aead: Aead, r: Receiver, packet: seq<byte>, disk: Disk): Receiver {
    Delivery.ReceivePacket(aead, Zeroized(r).(done := false), packet, disk).(done := true)
  }

  function Handled(r: Receiver, plain: Result<seq<byte>, OpenError>, disk: Disk): Receiver {
    match plain
    case Err(_) => r
    case Ok(payload) =>
      match DecodeHeader(payload)
      case Err(_) => r
      case Ok((h, body)) => Transfers.Dispatch(r, h, body, disk)
  }

  lemma HandledIs(aead: Aead, r: Receiver, packet: seq<byte>, disk: Disk)
    ensures !r.done ==> Delivery.ReceivePacket(aead, r, packet, disk) == Handled(r, Opened(aead, packet), disk)
    ensures Late(aead, r, packet, disk) == Handled(Zeroized(r), Opened(aead, packet), disk)
  {
    hide DecodeHeader, Opened;
  }

  /** The session after its receive loop. */
  function Ended(aead: Aead, r: Receiver, packets: seq<seq<byte>>, disk: nat -> Disk, torn: Teardown): Receiver {
    var m := torn.Reach(|packets|);
    var r' := Delivery.Consume(aead, r, packets[..m], Disks(disk, m));
    if torn == AfterOpening(m) && m < |packets| && !r'.done then Late(aead, r', packets[m], disk(m))
    else Zeroized(r')
  }

  /** What the file system does while a file is sent: a read may fail, after so many blocks have come. */
  datatype FileFault = Sound | Unopenable | BreaksAfter(n: nat)

  /** The blocks that are read. */
  function ReadBlocks(file: SentFile, fault: FileFault): seq<seq<byte>> {
    if fault.BreaksAfter? && fault.n < |file.blocks| then file.blocks[..fault.n] else file.blocks
  }

  /** The packets for what is read of a file; without a fault they are all its packets. */
  function SendItems(file: SentFile, fault: FileFault): (items: seq<Item>)
    requires file.Readable()
    ensures fault.Sound? ==> items == file.Items()
  {
    [Start(file.Header())] +
      if file.Data() == [] then [Chunk(file.fileID, 0, [])]
      else BlockItems(file.fileID, 0, ReadBlocks(file, fault))
  }

  /** The header, and then one chunk for each of these bodies. */
  ghost predicate Sends(items: seq<Item>, header: FileHeader, bodies: seq<seq<byte>>) {
    && |items| == 1 + |bodies| && items[0] == Start(header)
    && forall i :: 0 <= i < |bodies| ==> Carries(items[1 + i], header.fileID, bodies[i])
  }

  /**
   When a read fails after `n` blocks, what is sent is the front of the whole transfer: the header, and then the
   chunks of exactly the first `n` blocks.
   */
  lemma BrokenReadSends(file: SentFile, n: nat)
    requires file.Readable() && file.Data() != [] && n < |file.blocks|
    ensures SendItems(file, BreaksAfter(n)) <= file.Items()
    ensures Sends(SendItems(file, BreaksAfter(n)), file.Header(), BlockBodies(file.blocks[..n]))
    ensures Flatten(BlockBodies(file.blocks[..n])) == Flatten(file.blocks[..n])
  {
    hide BlockItems, BlockBodies, SentFile.Header, SentFile.Data, SentFile.Items, SendItems, ReadBlocks, Flatten, Sends;
    var front := file.blocks[..n];
    BlockBodiesComplete(front);
    HeaderTells(file);
    FrontSends(file.Header(), front);
    ItemsAre(file, n);
    assert file.blocks == front + file.blocks[n..];
    BlockItemsFront(file.fileID, 0, front, file.blocks[n..]);
    FrontFirst([Start(file.Header())], BlockItems(file.fileID, 0, front), BlockItems(file.fileID, 0, file.blocks));
  }

  lemma ItemsAre(file: SentFile, n: nat)
    requires file.Readable() && file.Data() != [] && n < |file.blocks|
    ensures file.Items() == [Start(file.Header())] + BlockItems(file.fileID, 0, file.blocks)
    ensures SendItems(file, BreaksAfter(n)) == [Start(file.Header())] + BlockItems(file.fileID, 0, file.blocks[..n])
  {
    hide BlockItems, SentFile.Header;
  }

  lemma FrontFirst<T>(first: seq<T>, a: seq<T>, b: seq<T>)
    requires a <= b
    ensures first + a <= first + b
  {
  }

  lemma FrontSends(header: FileHeader, blocks: seq<seq<byte>>)
    ensures Sends([Start(header)] + BlockItems(header.fileID, 0, blocks), header, BlockBodies(blocks))
  {
    BlockItemsCarry(header.fileID, 0, blocks);
    hide BlockItems, BlockBodies;
  }

  lemma {:induction false} BlockItemsFront(fileID: uint32, first: uint32, a: seq<seq<byte>>, b: seq<seq<byte>>)
    ensures BlockItems(fileID, first, a) <= BlockItems(fileID, first, a + b)
    decreases a
  {
    if a != [] {
      BlockItemsFront(fileID, NextIndex(first), a[1..], b);
      assert (a + b)[1..] == a[1..] + b && (a + b)[0] == a[0];
      hide BodyItems, Bodies, NextIndex;
    }
  }

  function FrameFor(aead: Aead, hash: Key, payload: seq<byte>, io: Io): seq<byte> {
    match Sealed(aead, payload, io.entropy)
    case Ok(packet) => Outer(hash, packet)
    case Err(_) => []
  }

  /** The frames of items that are sent one after the other, the first of them under `io(k)`. */
  function FramesFor(aead: Aead, hash: Key, items: seq<Item>, io: nat -> Io, k: nat): (frames: seq<seq<byte>>)
    ensures |frames| == |items|
  {
    seq(|items|, i requires 0 <= i < |items| => FrameFor(aead, hash, items[i].Bytes(), io(k + i)))
  }

  lemma FramesAppend(aead: Aead, hash: Key, a: seq<Item>, b: seq<Item>, io: nat -> Io, k: nat)
    ensures FramesFor(aead, hash, a + b, io, k) ==
            FramesFor(aead, hash, a, io, k) + FramesFor(aead, hash, b, io, k + |a|)
  {
    hide Item.Bytes, FrameFor;
  }

  lemma FramesSnoc(aead: Aead, hash: Key, a: seq<Item>, last: Item, io: nat -> Io, k: nat)
    ensures FramesFor(aead, hash, a + [last], io, k) ==
            FramesFor(aead, hash, a, io, k) + [FrameFor(aead, hash, last.Bytes(), io(k + |a|))]
  {
    hide Item.Bytes, FrameFor;
  }

  lemma ItemBytes(item: Item)
    ensures item.Start? ==> item.Bytes() == Payload(WireHeader(TYPE_FILE_HEADER, 0, 0), FileHeaderBytes(item.header))
    ensures item.Chunk? ==> item.Bytes() == Payload(WireHeader(TYPE_FILE_CHUNK, item.index, item.fileID), item.body)
  {
  }

  /** One incoming transfer. `file` is what has been written to the output file. */
  class FileTransfer {
    const header: FileHeader
    ghost const serial: nat
    var file: seq<byte>
    var isOpen: bool
    var receivedBytes: uint64
    var done: bool

    constructor (header: FileHeader, ghost serial: nat)
      ensures this.header == header && this.serial == serial
      ensures file == [] && isOpen && receivedBytes == 0 && !done
    {
      this.header := header;
      this.serial := serial;
      file, isOpen, receivedBytes, done := [], true, 0, false;
    }

    ghost function Value(): Transfer
      reads this
    {
      Transfer(serial, header, receivedBytes, file)
    }

    /** `file.Write(body)`: the number of bytes written, and whether that was all of them. */
    method Write(body: seq<byte>, fault: Option<nat>) returns (n: nat, ok: bool)
      requires isOpen
      modifies `file
      ensures ok <==> fault.None?
      ensures file == old(file) + Written(body, fault)
      ensures n == |Written(body, fault)|
    {
      var written := Written(body, fault);
      file := file + written;
      n, ok := |written|, fault.None?;
    }

    /** Writes a body and counts it, unless the write fails. */
    method Append(body: seq<byte>, fault: Option<nat>) returns (ok: bool)
      requires isOpen
      modifies `file, `receivedBytes
      ensures ok == fault.None?
      ensures Value() == if ok then Extended(old(Value()), body)
                         else old(Value()).(content := old(Value()).content + Written(body, fault))
    {
      hide Written, Extended;
      WrittenWhole(body);
      ExtendedFields(Value(), body);
      var n;
      n, ok := Write(body, fault);
      if ok {
        receivedBytes := (receivedBytes + n) % WORD64;
      }
    }

    method Close()
      modifies `isOpen
      ensures !isOpen
    {
      isOpen := false;
    }
  }

  /** The TCP connection: a write either sends the whole frame or fails. */
  class Conn {
    var sent: seq<seq<byte>>
    var isOpen: bool

    constructor ()
      ensures sent == [] && isOpen
    {
      sent, isOpen := [], true;
    }

    method Write(frame: seq<byte>, writeOk: bool) returns (ok: bool)
      modifies `sent
      ensures ok == writeOk
      ensures sent == old(sent) + if ok then [frame] else []
    {
      if writeOk {
        sent := sent + [frame];
      }
      ok := writeOk;
    }

    method Close()
      modifies `isOpen
      ensures !isOpen
    {
      isOpen := false;
    }
  }

  class Session {
    ghost const aead: Aead
    const peerKeyHash: Key
    const peerPubKey: array<byte>
    var cipherSess: Cipher.Session?
    var conn: Conn?
    var transfers: map<uint32, FileTransfer>
    var done: bool

    /** The completed transfers, in the order of their announcements. */
    ghost var saved: seq<Saved>
    ghost var savedFiles: seq<FileTransfer>

    /** Every transfer whose file was ever opened, and those that were replaced while they were open. */
    ghost var files: seq<FileTransfer>
    ghost var lost: set<nat>

    ghost predicate Valid()
      reads this, cipherSess, transfers.Values, savedFiles, files
    {
      && Lawful(aead)
      && (cipherSess != null ==> cipherSess.aead == Some(aead))
      && Registry()
      && Announced()
      && Handles()
    }

    /** A transfer is registered under its own FileID, once, and open unless it is done. */
    ghost predicate Registry()
      reads `transfers, transfers.Values
    {
      forall id <- transfers :: transfers[id].header.fileID == id && (transfers[id].done || transfers[id].isOpen)
    }

    ghost predicate Handles()
      reads `transfers, `files, `lost, files
    {
      HandlesKept(transfers, files, StillOpen(), lost)
    }

    /** The transfers whose files are open. */
    ghost function StillOpen(): set<nat>
      reads `files, files
    {
      set i | 0 <= i < |files| && files[i].isOpen
    }

    lemma SerialNames(ft: FileTransfer)
      requires Handles() && ft in transfers.Values
      ensures forall i :: 0 <= i < |files| ==> (files[i] == ft <==> i == ft.serial)
    {
    }

    /** The files of announced transfers are closed and hold what they held then. */
    ghost predicate Announced()
      reads `saved, `savedFiles, savedFiles
    {
      && |savedFiles| == |saved|
      && (forall i :: 0 <= i < |saved| ==>
            && savedFiles[i].done && !savedFiles[i].isOpen
            && savedFiles[i].file == saved[i].content
            && savedFiles[i].header == saved[i].header)
    }

    /** Between two packets no registered transfer is done. */
    ghost predicate NoneDone()
      reads `transfers, transfers.Values
    {
      forall id <- transfers :: !transfers[id].done
    }

    ghost function Open(): map<uint32, Transfer>
      reads `transfers, transfers.Values
    {
      map id | id in transfers :: transfers[id].Value()
    }

    ghost function View(): Receiver
      reads this, transfers.Values
    {
      Receiver(Open(), saved, |files|, lost, done)
    }

    constructor (aead: Aead, sessionKey: seq<byte>, peerKeyHash: Key, peerPubKey: array<byte>)
      requires Lawful(aead) && |sessionKey| == KEY_SIZE
      ensures Valid() && NoneDone() && View() == FRESH && conn != null && fresh(conn) && conn.sent == []
      ensures this.aead == aead && this.peerKeyHash == peerKeyHash && this.peerPubKey == peerPubKey
      ensures cipherSess != null && fresh(cipherSess)
    {
      this.aead := aead;
      this.peerKeyHash := peerKeyHash;
      this.peerPubKey := peerPubKey;
      var cs := new Cipher.Session(aead, sessionKey);
      cipherSess := cs;
      conn := new Conn();
      transfers, done := map[], false;
      saved, savedFiles, files, lost := [], [], [], {};
    }

    /** The outer frame of one payload, in a new buffer. */
    method BuildFrame(payload: seq<byte>, entropy: Entropy) returns (result: Result<seq<byte>, SendError>)
      requires cipherSess != null && cipherSess.aead == Some(aead) && Lawful(aead)
      ensures result.Ok? <==> Sealed(aead, payload, entropy).Ok?
      ensures result.Ok? ==> result.value == Outer(peerKeyHash, Sealed(aead, payload, entropy).value)
      ensures result.Err? ==> result.error == SealFailed(Sealed(aead, payload, entropy).error)
    {
      OpenSealed(aead, payload, entropy);
      var enc, _ := cipherSess.Seal(payload, entropy);
      if enc.Err? {
        return Err(SealFailed(enc.error));
      }
      var frame := new byte[OUTER_FRAME_SIZE](_ => 0);
      FillCopy(frame, [], 0, peerKeyHash);
      FillCopy(frame, peerKeyHash, 32, enc.value);
      assert frame[..] == frame[..OUTER_FRAME_SIZE];
      result := Ok(frame[..]);
    }

    /** Seals a payload and writes its frame; a failed call writes nothing. */
    method SendPacket(payload: seq<byte>, io: Io) returns (result: Result<(), SendError>)
      requires Valid()
      modifies conn
      ensures result.Ok? <==> !done && cipherSess != null && conn != null && Sendable(payload, io)
      ensures Sent() == old(Sent()) + if result.Ok? then [FrameFor(aead, peerKeyHash, payload, io)] else []
      ensures result ==
                if done then Err(SessionClosed)
                else if cipherSess == null || conn == null then Err(NotReady)
                else if |payload| > 4066 then Err(SealFailed(TooLarge))
                else if io.entropy.padding == None then Err(SealFailed(NoPadding))
                else if io.entropy.nonce == None then Err(SealFailed(NoNonce))
                else if !io.deadlineOk then Err(DeadlineFailed)
                else if !io.writeOk then Err(WriteFailed)
                else Ok(())
    {
      if done {
        return Err(SessionClosed);
      }
      if cipherSess == null || conn == null {
        return Err(NotReady);
      }
      OpenSealed(aead, payload, io.entropy);
      SealedLayout(aead, payload, io.entropy);
      hide Sealed, Opened;
      var frame := BuildFrame(payload, io.entropy);
      if frame.Err? {
        return Err(frame.error);
      }
      if !io.deadlineOk {
        return Err(DeadlineFailed);
      }
      var ok := conn.Write(frame.value, io.writeOk);
      result := if ok then Ok(()) else Err(WriteFailed);
    }

    /** What the connection has sent, if there is one. */
    ghost function Sent(): seq<seq<byte>>
      reads this, conn
    {
      if conn == null then [] else conn.sent
    }

    ghost predicate CanSend(item: Item, io: Io)
      reads this
    {
      !done && cipherSess != null && conn != null && Sendable(item.Bytes(), io)
    }

    /** `emitted` could be sent, and the connection has sent their frames, drawing from `io` from `k` on. */
    ghost predicate Emitted(before: seq<seq<byte>>, emitted: seq<Item>, io: nat -> Io, k: nat)
      reads this, conn
    {
      Sent() == before + FramesFor(aead, peerKeyHash, emitted, io, k) && AllSendable(emitted, io, k)
    }

    ghost predicate AllSendable(items: seq<Item>, io: nat -> Io, k: nat)
      reads this
    {
      forall j :: 0 <= j < |items| ==> CanSend(items[j], io(k + j))
    }

    /** How sending `all` ended: with everything sent, or before the first item that could not be sent. */
    ghost predicate Outcome(all: seq<Item>, io: nat -> Io, k: nat, ok: bool, emitted: seq<Item>)
      reads this
    {
      && emitted <= all
      && (ok <==> emitted == all)
      && (!ok ==> !CanSend(all[|emitted|], io(k + |emitted|)))
    }

    lemma Stopped(all: seq<Item>, io: nat -> Io, k: nat, emitted: seq<Item>, left: seq<Item>)
      requires Split(all, emitted, left) && left != [] && !CanSend(left[0], io(k + |emitted|))
      ensures Outcome(all, io, k, false, emitted)
    {
      hide CanSend;
      SplitNext(all, emitted, left);
    }

    lemma Completed(all: seq<Item>, io: nat -> Io, k: nat, emitted: seq<Item>)
      requires Split(all, emitted, [])
      ensures Outcome(all, io, k, true, emitted)
    {
      SplitEnd(all, emitted);
    }

    /** A part of the sequence was sent, or as much of it as could be sent. */
    lemma Continued(all: seq<Item>, io: nat -> Io, k: nat, emitted: seq<Item>, next: seq<Item>, rest: seq<Item>,
                    ok: bool, more: seq<Item>)
      requires Split(all, emitted, next + rest) && Outcome(next, io, k + |emitted|, ok, more)
      ensures if ok then more == next && Split(all, emitted + more, rest)
              else Outcome(all, io, k, false, emitted + more)
    {
      hide CanSend, Split;
      SplitMore(all, emitted, next, rest, more);
    }

    lemma EmittedMore(before: seq<seq<byte>>, between: seq<seq<byte>>, emitted: seq<Item>, more: seq<Item>,
                      io: nat -> Io, k: nat)
      requires between == before + FramesFor(aead, peerKeyHash, emitted, io, k)
      requires AllSendable(emitted, io, k)
      requires Emitted(between, more, io, k + |emitted|)
      ensures Emitted(before, emitted + more, io, k)
    {
      hide FramesFor, CanSend;
      FramesAppend(aead, peerKeyHash, emitted, more, io, k);
      Assoc(before, FramesFor(aead, peerKeyHash, emitted, io, k),
            FramesFor(aead, peerKeyHash, more, io, k + |emitted|));
      forall j | 0 <= j < |emitted + more|
        ensures CanSend((emitted + more)[j], io(k + j))
      {
        if j >= |emitted| {
          assert CanSend(more[j - |emitted|], io(k + |emitted| + (j - |emitted|)));
        }
      }
    }

    lemma EmittedIs(before: seq<seq<byte>>, emitted: seq<Item>, io: nat -> Io, k: nat)
      requires Emitted(before, emitted, io, k)
      ensures Sent() == before + FramesFor(aead, peerKeyHash, emitted, io, k)
      ensures AllSendable(emitted, io, k)
    {
    }

    /** Nothing has been sent yet. */
    lemma EmittedNone(io: nat -> Io, k: nat)
      ensures Emitted(Sent(), [], io, k)
    {
      hide FrameFor;
      FramesNone(aead, peerKeyHash, io, k);
      assert Sent() + [] == Sent();
    }

    lemma OutcomeOk(all: seq<Item>, io: nat -> Io, k: nat, ok: bool, emitted: seq<Item>)
      requires Outcome(all, io, k, ok, emitted)
      ensures ok <==> emitted == all
    {
    }

    /** One more packet of a sequence. */
    method SendNext(ghost item: Item, payload: seq<byte>, io: nat -> Io, k: nat, n: nat,
                    ghost before: seq<seq<byte>>, ghost emitted: seq<Item>)
      returns (ok: bool)
      requires Valid() && payload == item.Bytes()
      requires Emitted(before, emitted, io, k) && n == k + |emitted|
      modifies conn
      ensures ok <==> CanSend(item, io(n))
      ensures Emitted(before, if ok then emitted + [item] else emitted, io, k)
    {
      hide Item.Bytes, FramesFor, FrameFor, Valid, Sendable;
      FramesSnoc(aead, peerKeyHash, emitted, item, io, k);
      Assoc(before, FramesFor(aead, peerKeyHash, emitted, io, k), [FrameFor(aead, peerKeyHash, payload, io(n))]);
      var result := SendPacket(payload, io(n));
      ok := result.Ok?;
    }

    /** One more chunk packet of a sequence. */
    method SendBody(fileID: uint32, chunkIdx: uint32, body: seq<byte>, io: nat -> Io, k: nat, n: nat,
                    ghost before: seq<seq<byte>>, ghost emitted: seq<Item>)
      returns (ok: bool)
      requires Valid() && Emitted(before, emitted, io, k) && n == k + |emitted|
      modifies conn
      ensures var item := Chunk(fileID, chunkIdx, body);
        (ok <==> CanSend(item, io(n))) && Emitted(before, if ok then emitted + [item] else emitted, io, k)
    {
      hide Valid, Emitted, CanSend, Item.Bytes;
      var payload := BuildFileChunk(fileID, chunkIdx, body);
      ItemBytes(Chunk(fileID, chunkIdx, body));
      ok := SendNext(Chunk(fileID, chunkIdx, body), payload[..], io, k, n, before, emitted);
    }

    /**
     Sends one read block as chunk `chunkIdx`, cut into bodies. `emitted` are the items that were written:
     all of them, or those before the first one that could not be sent.
     */
    method SendChunkFragmented(fileID: uint32, chunkIdx: uint32, block: seq<byte>, io: nat -> Io, k: nat)
      returns (ok: bool, ghost emitted: seq<Item>)
      requires Valid()
      modifies conn
      ensures Emitted(old(Sent()), emitted, io, k)
      ensures Outcome(BodyItems(fileID, chunkIdx, Bodies(block)), io, k, ok, emitted)
    {
      hide Valid, Item.Bytes, Payload, FramesFor, FrameFor, Bodies, BodyItems;
      hide Emitted, AllSendable, CanSend, Outcome, Split, Sent;
      ghost var all := BodyItems(fileID, chunkIdx, Bodies(block));
      ghost var left, before := all, Sent();
      emitted := [];
      NoBody(fileID, chunkIdx);
      SplitStart(all);
      EmittedNone(io, k);
      var data := block;
      var n := k;
      while |data| > 0
        invariant n == k + |emitted|
        invariant left == BodyItems(fileID, chunkIdx, Bodies(data))
        invariant Split(all, emitted, left)
        invariant Emitted(before, emitted, io, k)
      {
        var end := MAX_BODY;
        if end > |data| {
          end := |data|;
        }
        NextBody(fileID, chunkIdx, data, end);
        ok := SendBody(fileID, chunkIdx, data[..end], io, k, n, before, emitted);
        if !ok {
          Stopped(all, io, k, emitted, left);
          return false, emitted;
        }
        SplitNext(all, emitted, left);
        emitted, left := emitted + [left[0]], left[1..];
        n := n + 1;
        data := data[end..];
      }
      Completed(all, io, k, emitted);
      ok := true;
    }

    /**
     Sends a file: header, then the chunks of every read block. A file that cannot be opened or has a name over
     255 bytes sends nothing; otherwise the packets for what was read are written in order up to the first one
     that cannot be sent. The success message is shown exactly if all of them were and no read failed, except
     that for an empty file, which is not read, the outcome of its only chunk is ignored.
     */
    method SendFile(file: SentFile, io: nat -> Io, fault: FileFault) returns (announced: bool, ghost emitted: seq<Item>)
      requires Valid() && file.Readable()
      modifies conn
      ensures Emitted(old(Sent()), emitted, io, 0)
      ensures |file.name| > MAX_NAME || fault.Unopenable? ==> !announced && emitted == []
      ensures file.Valid() && !fault.Unopenable? ==>
                && Outcome(SendItems(file, fault), io, 0, emitted == SendItems(file, fault), emitted)
                && (announced <==> if file.Data() == [] then emitted != []
                                   else emitted == SendItems(file, fault) && fault.Sound?)
    {
      hide Valid, Item.Bytes, Payload, FramesFor, FrameFor, FileHeaderBytes, Emitted, CanSend, Outcome, Split, Sent;
      hide SendItems, BlockItems;
      announced, emitted := false, [];
      ghost var before := Sent();
      EmittedNone(io, 0);
      if fault.Unopenable? {
        return;
      }
      var totalSize := |file.Data()|;
      var headerBytes := EncodeFileHeader(FileHeader(file.name, totalSize, TotalChunks(totalSize), file.fileID));
      HeaderFirst(file, fault);
      SplitStart(SendItems(file, fault));
      if headerBytes.Err? {
        return;
      }
      var payload := BuildMessage(TYPE_FILE_HEADER, headerBytes.value);
      ghost var first := Start(file.Header());
      ItemBytes(first);
      var ok := SendNext(first, payload[..], io, 0, 0, before, emitted);
      if !ok {
        Stopped(SendItems(file, fault), io, 0, [], SendItems(file, fault));
        return;
      }
      emitted := [first];
      assert [] + [first] == [first];
      if totalSize == 0 {
        announced := true;
        emitted := SendEmpty(file, io, fault, before);
        return;
      }
      ok, emitted := SendRest(file, io, fault, before);
      OutcomeOk(SendItems(file, fault), io, 0, ok, emitted);
      announced := ok && fault.Sound?;
    }

    /** The only chunk of an empty file, after its header. */
    method SendEmpty(file: SentFile, io: nat -> Io, ghost fault: FileFault, ghost before: seq<seq<byte>>)
      returns (ghost emitted: seq<Item>)
      requires Valid() && file.Readable() && file.Data() == []
      requires Emitted(before, [Start(file.Header())], io, 0)
      modifies conn
      ensures Emitted(before, emitted, io, 0) && emitted != []
      ensures Outcome(SendItems(file, fault), io, 0, emitted == SendItems(file, fault), emitted)
    {
      hide Valid, Emitted, CanSend, Outcome, Split, SendItems, Sent;
      ghost var first, chunk := [Start(file.Header())], Chunk(file.fileID, 0, []);
      HeaderFirst(file, fault);
      var ok := SendBody(file.fileID, 0, [], io, 0, 1, before, first);
      SplitNext(SendItems(file, fault), first, [chunk]);
      if ok {
        emitted := first + [chunk];
        Completed(SendItems(file, fault), io, 0, emitted);
        OutcomeOk(SendItems(file, fault), io, 0, true, emitted);
      } else {
        emitted := first;
        Stopped(SendItems(file, fault), io, 0, first, [chunk]);
      }
    }

    /** The chunks of a non-empty file, after its header. */
    method SendRest(file: SentFile, io: nat -> Io, fault: FileFault, ghost before: seq<seq<byte>>)
      returns (ok: bool, ghost emitted: seq<Item>)
      requires Valid() && file.Readable() && file.Data() != []
      requires Emitted(before, [Start(file.Header())], io, 0)
      modifies conn
      ensures Emitted(before, emitted, io, 0) && Outcome(SendItems(file, fault), io, 0, ok, emitted)
    {
      hide Valid, Emitted, AllSendable, CanSend, Outcome, Split, FramesFor, SendItems, BlockItems, Sent;
      ghost var first := [Start(file.Header())];
      HeaderFirst(file, fault);
      EmittedIs(before, first, io, 0);
      ghost var between, next, more := Sent(), BlockItems(file.fileID, 0, ReadBlocks(file, fault)), [];
      ok, more := SendBlocks(file.fileID, ReadBlocks(file, fault), io, 1);
      EmittedMore(before, between, first, more, io, 0);
      assert next + [] == next;
      Continued(SendItems(file, fault), io, 0, first, next, [], ok, more);
      emitted := first + more;
      if ok {
        Completed(SendItems(file, fault), io, 0, emitted);
      }
    }

    /** The read loop over the blocks of a file. */
    method SendBlocks(fileID: uint32, data: seq<seq<byte>>, io: nat -> Io, k: nat)
      returns (ok: bool, ghost emitted: seq<Item>)
      requires Valid()
      modifies conn
      ensures Emitted(old(Sent()), emitted, io, k)
      ensures Outcome(BlockItems(fileID, 0, data), io, k, ok, emitted)
    {
      hide Valid, Item.Bytes, FramesFor, FrameFor, Bodies, BodyItems;
      hide Emitted, AllSendable, CanSend, Outcome, Split, BlockItems, NextIndex, Sent;
      ghost var all, before := BlockItems(fileID, 0, data), Sent();
      ghost var left := all;
      emitted := [];
      SplitStart(all);
      EmittedNone(io, k);
      var blocks := data;
      var chunkIdx: uint32 := 0;
      var n := k;
      while blocks != []
        invariant n == k + |emitted|
        invariant left == BlockItems(fileID, chunkIdx, blocks)
        invariant Split(all, emitted, left)
        invariant Emitted(before, emitted, io, k)
      {
        ghost var next := BodyItems(fileID, chunkIdx, Bodies(blocks[0]));
        ghost var rest := BlockItems(fileID, NextIndex(chunkIdx), blocks[1..]);
        NextBlock(fileID, chunkIdx, blocks);
        EmittedIs(before, emitted, io, k);
        ghost var between := Sent();
        ghost var more;
        ok, more := SendChunkFragmented(fileID, chunkIdx, blocks[0], io, n);
        EmittedMore(before, between, emitted, more, io, k);
        Continued(all, io, k, emitted, next, rest, ok, more);
        emitted := emitted + more;
        if !ok {
          return;
        }
        left := rest;
        n := n + |Bodies(blocks[0])|;
        chunkIdx := NextIndex(chunkIdx);
        blocks := blocks[1..];
      }
      NoBlock(fileID, chunkIdx);
      Completed(all, io, k, emitted);
      ok := true;
    }

    // --- receiving ---

    /** Registers an incoming transfer, in place of one that has the same FileID. */
    method RecvFile(fh: FileHeader, openOk: bool)
      requires Valid() && NoneDone()
      modifies this
      ensures Valid() && NoneDone() && View() == Transfers.RecvFile(old(View()), fh, openOk)
      ensures done == old(done) && cipherSess == old(cipherSess) && conn == old(conn)
      ensures fresh(transfers.Values - old(transfers.Values))
      ensures old(files) <= files
    {
      if !openOk {
        return;
      }
      hide Valid, NoneDone, View;
      var ft := new FileTransfer(fh, |files|);
      Enter(ft);
    }

    /** A transfer that has just been opened enters the registry. */
    method Enter(ft: FileTransfer)
      requires Valid() && NoneDone() && ft !in transfers.Values && ft !in savedFiles && ft !in files
      requires ft.serial == |files| && ft.isOpen && !ft.done && ft.file == [] && ft.receivedBytes == 0
      modifies `transfers, `files, `lost
      ensures Valid() && NoneDone() && View() == Transfers.RecvFile(old(View()), ft.header, true)
      ensures transfers == old(transfers)[ft.header.fileID := ft] && files == old(files) + [ft]
    {
      hide Announced, HandlesKept, StillOpen;
      ghost var open := Open();
      RegisteredOpen();
      HandlesEnter(transfers, files, StillOpen(), lost, ft);
      if ft.header.fileID in transfers {
        lost := lost + {transfers[ft.header.fileID].serial};
      }
      transfers := transfers[ft.header.fileID := ft];
      NoteFile(ft);
      assert Open() == open[ft.header.fileID := ft.Value()];
    }

    lemma RegisteredOpen()
      requires Handles() && Registry() && NoneDone()
      ensures forall id <- transfers :: transfers[id].header.fileID == id && transfers[id].serial in StillOpen()
    {
    }

    ghost method NoteFile(ft: FileTransfer)
      requires ft.isOpen
      modifies `files
      ensures files == old(files) + [ft] && StillOpen() == old(StillOpen()) + {|old(files)|}
    {
      files := files + [ft];
    }

    /** Closes a transfer, marks it done and takes it out of the registry. */
    method Finish(fileID: uint32)
      requires Valid() && fileID in transfers && !transfers[fileID].done
      modifies `transfers, transfers[fileID]
      ensures Valid() && (old(NoneDone()) ==> NoneDone())
      ensures var ft := old(transfers[fileID]);
        ft.done && !ft.isOpen && ft.file == old(ft.file) && ft.receivedBytes == old(ft.receivedBytes)
      ensures transfers == old(transfers) - {fileID}
      ensures View() == old(View()).(transfers := old(View()).transfers - {fileID})
    {
      hide Valid, Open;
      CloseFile(fileID);
      Leave(fileID);
    }

    /** Closes the file of a transfer and marks it done, which leaves the session as it was otherwise. */
    method CloseFile(fileID: uint32)
      requires Valid() && fileID in transfers && !transfers[fileID].done
      modifies transfers[fileID]
      ensures Valid() && transfers[fileID].done && !transfers[fileID].isOpen && View() == old(View())
      ensures var ft := transfers[fileID]; ft.file == old(ft.file) && ft.receivedBytes == old(ft.receivedBytes)
      ensures old(NoneDone()) ==> forall id <- transfers :: id != fileID ==> !transfers[id].done
    {
      var ft := transfers[fileID];
      assert ft !in savedFiles;
      SerialNames(ft);
      ghost var open, still := Open(), StillOpen();
      HandlesClose(transfers, files, still, lost, fileID);
      hide Announced, HandlesKept;
      ft.Close();
      ft.done := true;
      assert StillOpen() == still - {ft.serial};
      assert Open() == open;
    }

    /** A closed transfer leaves the registry. */
    method Leave(fileID: uint32)
      requires Valid() && fileID in transfers && !transfers[fileID].isOpen
      modifies `transfers
      ensures Valid() && transfers == old(transfers) - {fileID}
      ensures View() == old(View()).(transfers := old(View()).transfers - {fileID})
    {
      hide Announced, HandlesKept;
      ClosedHere(fileID);
      HandlesLeave(transfers, files, StillOpen(), lost, fileID);
      ghost var open := Open();
      transfers := transfers - {fileID};
      assert Open() == open - {fileID};
    }

    lemma ClosedHere(fileID: uint32)
      requires Handles() && fileID in transfers && !transfers[fileID].isOpen
      ensures transfers[fileID].serial !in StillOpen()
    {
    }

    /** Writes a body to its file and counts what was written. */
    method Store(fileID: uint32, body: seq<byte>, fault: Option<nat>) returns (ok: bool)
      requires Valid() && fileID in transfers && !transfers[fileID].done && body != []
      modifies transfers[fileID]
      ensures Valid() && ok == fault.None?
      ensures !transfers[fileID].done
      ensures var ft := old(View()).transfers[fileID];
        View() == old(View()).(transfers := old(View()).transfers[fileID :=
          if ok then Extended(ft, body) else ft.(content := ft.content + Written(body, fault))])
    {
      hide Written, Extended;
      var ft := transfers[fileID];
      ghost var open := Open();
      assert ft !in savedFiles;
      hide Announced, FileTransfer.Value;
      ok := ft.Append(body, fault);
      assert forall id <- transfers :: id != fileID ==> transfers[id] != ft;
      assert Open() == open[fileID := ft.Value()];
    }

    /** Tells the user that a transfer is complete. */
    method Announce(ft: FileTransfer)
      requires Valid() && ft.done && !ft.isOpen
      modifies `saved, `savedFiles
      ensures Valid() && savedFiles == old(savedFiles) + [ft]
      ensures View() == old(View()).(saved := old(View()).saved + [Saved(ft.serial, ft.header, ft.file)])
    {
      hide Registry, Open;
      saved, savedFiles := saved + [Saved(ft.serial, ft.header, ft.file)], savedFiles + [ft];
    }

    /** Closes and announces a transfer that has all the bytes it was to have. */
    method CompleteIfFull(fileID: uint32)
      requires Valid() && fileID in transfers && !transfers[fileID].done
      modifies `transfers, `saved, `savedFiles, transfers[fileID]
      ensures Valid() && (old(NoneDone()) ==> NoneDone())
      ensures View() == Settled(old(View()), fileID) && old(savedFiles) <= savedFiles
      ensures transfers.Values <= old(transfers.Values)
    {
      var ft := transfers[fileID];
      assert View().transfers[fileID] == ft.Value();
      if ft.receivedBytes >= ft.header.totalSize {
        hide Valid, Open;
        Finish(fileID);
        Announce(ft);
      }
    }

    /**
     Writes a chunk to its file and completes the transfer when the announced number of bytes is reached. A
     transfer that is done is left alone.
     */
    method AppendChunk(fileID: uint32, body: seq<byte>, fault: Option<nat>)
      requires Valid()
      modifies this, transfers.Values
      ensures Valid() && (old(NoneDone()) ==> NoneDone())
      ensures View() == if fileID in old(transfers) && old(transfers[fileID].done) then old(View())
                        else Transfers.AppendChunk(old(View()), fileID, body, fault)
      ensures done == old(done) && cipherSess == old(cipherSess) && conn == old(conn) && old(savedFiles) <= savedFiles
      ensures transfers.Values <= old(transfers.Values)
      ensures files == old(files)
    {
      hide Extended, Written, Settled;
      if fileID !in transfers {
        return;
      }
      var ft := transfers[fileID];
      if ft.done {
        return;
      }
      if |body| > CHUNK_SIZE {
        Finish(fileID);
        return;
      }
      AppendIsSettled(View(), fileID, body, fault);
      if |body| > 0 {
        var ok := Store(fileID, body, fault);
        if !ok {
          return;
        }
      }
      CompleteIfFull(fileID);
    }

    /** Nothing is left of a session that had this connection and this cipher. */
    ghost predicate TornDown(c: Conn?, cs: Cipher.Session?)
      reads this, peerPubKey, c, cs
    {
      && done && conn == null && cipherSess == null && peerPubKey[..] == Zeros(peerPubKey.Length)
      && (c != null ==> !c.isOpen)
      && (cs != null ==> cs.aead == None && cs.key == null)
    }

    /** What teardown and a receive step may change. */
    ghost function Parts(): set<object?>
      reads this, cipherSess
    {
      {this, cipherSess, conn, peerPubKey, if cipherSess == null then null else cipherSess.key} + transfers.Values
    }

    /**
     Tears the session down: wipes the cipher and the peer's key, closes the connection and all open files and
     forgets them. Calling it again changes nothing.
     */
    method Zeroize()
      requires Valid()
      modifies Parts()
      ensures Valid() && done && (old(NoneDone()) ==> NoneDone())
      ensures old(done) ==> unchanged(this) && unchanged(peerPubKey) && View() == old(View())
      ensures old(done) && cipherSess != null ==> unchanged(cipherSess)
      ensures old(conn) != null ==> old(conn).sent == old(conn.sent)
      ensures !old(done) ==>
                && TornDown(old(conn), old(cipherSess))
                && View() == Zeroized(old(View())) && transfers == map[]
                && forall ft <- old(transfers.Values) :: !ft.isOpen && ft.file == old(ft.file)
      ensures transfers.Values <= old(transfers.Values)
      ensures files == old(files)
    {
      if done {
        return;
      }
      hide Registry, Announced, Handles, Open, NoneDone;
      DropSecrets();
      DropTransfers();
    }

    method DropSecrets()
      requires Valid()
      modifies this, cipherSess, conn, peerPubKey, if cipherSess == null then null else cipherSess.key
      ensures Valid() && transfers == old(transfers) && files == old(files) && View() == old(View()).(done := true)
      ensures cipherSess == null && conn == null && peerPubKey[..] == Zeros(peerPubKey.Length)
      ensures old(cipherSess) != null ==> old(cipherSess).aead == None && old(cipherSess).key == null
      ensures old(conn) != null ==> !old(conn).isOpen && old(conn).sent == old(conn.sent)
    {
      hide Registry, Announced, Handles, Open;
      done := true;
      DropConnection();
      Clear(peerPubKey);
    }

    method DropConnection()
      modifies `cipherSess, `conn, cipherSess, conn, if cipherSess == null then null else cipherSess.key
      ensures cipherSess == null && conn == null
      ensures old(cipherSess) != null ==> old(cipherSess).aead == None && old(cipherSess).key == null
      ensures old(conn) != null ==> !old(conn).isOpen && old(conn).sent == old(conn.sent)
    {
      if cipherSess != null {
        cipherSess.Zeroize();
        cipherSess := null;
      }
      if conn != null {
        conn.Close();
        conn := null;
      }
    }

    method DropTransfers()
      requires Valid()
      modifies `transfers, transfers.Values
      ensures Valid() && transfers == map[]
      ensures View() == old(View()).(transfers := map[])
      ensures forall ft <- old(transfers.Values) :: !ft.isOpen && ft.file == old(ft.file)
    {
      CloseFiles();
      transfers := map[];
      assert View().transfers == map[];
    }

    method CloseFiles()
      modifies transfers.Values
      ensures forall ft <- transfers.Values ::
                && !ft.isOpen && ft.file == old(ft.file)
                && ft.done == old(ft.done) && ft.receivedBytes == old(ft.receivedBytes)
    {
      var left := transfers.Values;
      while left != {}
        invariant left <= transfers.Values
        invariant forall ft <- transfers.Values ::
                    ft.file == old(ft.file) && ft.done == old(ft.done) && ft.receivedBytes == old(ft.receivedBytes)
        invariant forall ft <- transfers.Values - left :: !ft.isOpen
        decreases left
      {
        var ft :| ft in left;
        ft.Close();
        left := left - {ft};
      }
    }

    /** Routes a decoded packet to its handler. Only a ping makes the session write, and it writes a pong. */
    method Dispatch(h: WireHeader, body: seq<byte>, disk: Disk, io: Io)
      requires Valid() && NoneDone() && (done ==> transfers == map[])
      modifies Parts()
      ensures Valid() && NoneDone() && View() == Transfers.Dispatch(old(View()), h, body, disk)
      ensures fresh(transfers.Values - old(transfers.Values))
      ensures done == old(done) ==> cipherSess == old(cipherSess) && conn == old(conn)
      ensures old(done) ==> done
      ensures cipherSess != null && old(cipherSess) != null ==> cipherSess.key == old(cipherSess.key)
      ensures !old(done) ==> (done <==> h.ptype == 0x07)
      ensures done && !old(done) ==> TornDown(old(conn), old(cipherSess)) && transfers == map[]
      ensures old(done) ==> peerPubKey[..] == old(peerPubKey[..])
      ensures old(conn) != null ==>
                old(conn).sent == old(conn.sent) +
                  if h.ptype == 0x05 && !old(done) && old(cipherSess) != null && Sendable(PONG, io)
                  then [FrameFor(aead, peerKeyHash, PONG, io)] else []
      ensures old(files) <= files
    {
      hide Transfers.AppendChunk, Transfers.RecvFile, Sendable, FrameFor, Valid, Payload;
      if h.ptype == TYPE_FILE_HEADER {
        var fh := DecodeFileHeader(body);
        if fh.Ok? {
          RecvFile(fh.value, disk.openOk);
        }
      } else if h.ptype == TYPE_FILE_CHUNK {
        AppendChunk(h.fileID, body, disk.fault);
      } else if h.ptype == TYPE_PING {
        var pong := BuildMessage(TYPE_PONG, []);
        var _ := SendPacket(pong[..], io);
      } else if h.ptype == TYPE_DISCONNECT {
        Zeroize();
      }
    }

    /** What was decrypted is decoded and dispatched. */
    method Handle(plain: Result<seq<byte>, OpenError>, disk: Disk, io: Io)
      requires Valid() && NoneDone() && (done ==> transfers == map[])
      modifies Parts()
      ensures Valid() && NoneDone() && View() == Handled(old(View()), plain, disk)
      ensures fresh(transfers.Values - old(transfers.Values))
      ensures done == old(done) ==> cipherSess == old(cipherSess) && conn == old(conn)
      ensures old(done) ==> done
      ensures cipherSess != null && old(cipherSess) != null ==> cipherSess.key == old(cipherSess.key)
      ensures done && !old(done) ==> TornDown(old(conn), old(cipherSess)) && transfers == map[]
      ensures old(done) ==> peerPubKey[..] == old(peerPubKey[..])
      ensures old(conn) != null && old(cipherSess) != null && !old(done) ==>
                old(conn).sent == old(conn.sent) + PongTo(aead, peerKeyHash, plain, io)
      ensures old(files) <= files
    {
      hide Transfers.Dispatch;
      if plain.Err? {
        return;
      }
      var decoded := DecodeHeader(plain.value);
      if decoded.Err? {
        return;
      }
      Dispatch(decoded.value.0, decoded.value.1, disk, io);
    }

    /**
     One packet of the receive loop: a packet that does not open or decode is dropped. When `torn` is set,
     another goroutine tears the session down after the packet was opened and before it is dispatched.
     */
    method RecvPacket(packet: seq<byte>, disk: Disk, io: Io, torn: bool)
      requires Valid() && NoneDone() && !done && conn != null && cipherSess != null
      modifies Parts()
      ensures Valid() && NoneDone()
      ensures View() == if torn then Late(aead, old(View()), packet, disk)
                        else Delivery.ReceivePacket(aead, old(View()), packet, disk)
      ensures fresh(transfers.Values - old(transfers.Values))
      ensures !done ==> cipherSess == old(cipherSess) && conn == old(conn) && cipherSess.key == old(cipherSess.key)
      ensures done ==> TornDown(old(conn), old(cipherSess)) && (!torn ==> transfers == map[])
      ensures torn ==> done
      ensures old(conn).sent == old(conn.sent) +
                if torn then [] else PongTo(aead, peerKeyHash, Opened(aead, packet), io)
      ensures old(files) <= files
    {
      hide Valid, NoneDone, Handled, Late, Delivery.ReceivePacket;
      HandledIs(aead, View(), packet, disk);
      var plain := OpenPacket(packet);
      if torn {
        Zeroize();
      }
      Handle(plain, disk, io);
    }

    /** Opens a packet with the cipher of the session. */
    method OpenPacket(packet: seq<byte>) returns (plain: Result<seq<byte>, OpenError>)
      requires Valid() && cipherSess != null
      ensures plain == Opened(aead, packet)
    {
      var result, _ := cipherSess.Open(packet);
      plain := result;
    }

    /**
     Turn `k` of the receive loop: the next whole packet, or the teardown if the stream has ended. A teardown
     by another goroutine makes the read fail, or comes between opening and dispatching the packet.
     */
    method RecvTurn(stream: Framing.Stream, packet: array<byte>, disk: Disk, io: Io, torn: Teardown, k: nat)
      returns (ok: bool)
      requires Valid() && NoneDone() && !done && conn != null && cipherSess != null
      requires packet.Length == PACKET_SIZE
      modifies Parts(), stream, packet
      ensures Valid() && NoneDone()
      ensures ok <==> |old(stream.Pending())| >= PACKET_SIZE && torn != Reading(k) && torn != AfterOpening(k)
      ensures ok ==>
                && stream.Pending() == old(stream.Pending())[PACKET_SIZE..]
                && View() == Delivery.ReceivePacket(aead, old(View()), old(stream.Pending())[..PACKET_SIZE], disk)
      ensures !ok ==>
                && done
                && View() == if torn == AfterOpening(k) && |old(stream.Pending())| >= PACKET_SIZE
                             then Late(aead, old(View()), old(stream.Pending())[..PACKET_SIZE], disk)
                             else Zeroized(old(View()))
      ensures fresh(transfers.Values - old(transfers.Values))
      ensures !done ==> cipherSess == old(cipherSess) && conn == old(conn) && cipherSess.key == old(cipherSess.key)
      ensures done ==> TornDown(old(conn), old(cipherSess)) && (ok ==> transfers == map[])
      ensures old(conn).sent == old(conn.sent) +
                if ok then PongTo(aead, peerKeyHash, Opened(aead, old(stream.Pending())[..PACKET_SIZE]), io) else []
      ensures old(files) <= files
    {
      hide Late, Delivery.ReceivePacket, Valid, NoneDone, View, Zeroized;
      ok := false;
      if torn == Reading(k) {
        Zeroize();
        return;
      }
      var whole := stream.ReadFull(packet);
      if !whole {
        Zeroize();
        return;
      }
      RecvPacket(packet[..], disk, io, torn == AfterOpening(k));
      ok := torn != AfterOpening(k);
    }

    /**
     The receive loop over a connection that delivers `stream` in any segmentation and then ends: the whole
     packets are handled in order until the stream or a disconnect or another goroutine ends the session, and
     whatever ends it, it is torn down. Packet number `k` meets the disk `disk(k)`. The files that are open then
     are those of the value model, and there are none exactly if no file header is dispatched too late and none
     replaces an open transfer. Meanwhile the session has written one pong for each ping, and nothing else.
     */
    method RecvLoop(stream: Framing.Stream, disk: nat -> Disk, io: nat -> Io, torn: Teardown)
      requires Valid() && NoneDone() && !done && conn != null && cipherSess != null
      modifies Parts(), stream
      ensures Valid() && done && conn == null && cipherSess == null
      ensures View() == Ended(aead, old(View()), Framing.Frames(old(stream.Pending()), PACKET_SIZE), disk, torn)
      ensures TornDown(old(conn), old(cipherSess))
      ensures var packets := Framing.Frames(old(stream.Pending()), PACKET_SIZE);
        old(conn).sent == old(conn.sent) +
          Pongs(aead, peerKeyHash, old(View()), packets, disk, io, torn.Reach(|packets|))
      ensures NoneDone() && StillOpen() == OpenFiles(View())
      ensures old(lost) == {} ==>
                var packets := Framing.Frames(old(stream.Pending()), PACKET_SIZE);
                ((forall ft <- files :: !ft.isOpen) <==>
                 && !OpensLate(aead, old(View()), packets, disk, torn)
                 && NoneReplaces(aead, old(View()), packets, disk, torn.Reach(|packets|)))
      ensures old(files) <= files
    {
      ghost var packets := Framing.Frames(stream.Pending(), PACKET_SIZE);
      FilesClosed(packets, disk, torn);
      RecvPackets(stream, disk, io, torn);
      OpenFilesAre();
      NoneOpen();
    }

    /** The loop itself. */
    method RecvPackets(stream: Framing.Stream, disk: nat -> Disk, io: nat -> Io, torn: Teardown)
      requires Valid() && NoneDone() && !done && conn != null && cipherSess != null
      modifies Parts(), stream
      ensures Valid() && NoneDone() && TornDown(old(conn), old(cipherSess))
      ensures View() == Ended(aead, old(View()), Framing.Frames(old(stream.Pending()), PACKET_SIZE), disk, torn)
      ensures var packets := Framing.Frames(old(stream.Pending()), PACKET_SIZE);
        old(conn).sent == old(conn.sent) +
          Pongs(aead, peerKeyHash, old(View()), packets, disk, io, torn.Reach(|packets|))
      ensures old(files) <= files
    {
      hide Valid, NoneDone, View, Framing.Frames, Delivery.ReceivePacket, Late, Ended, Pongs, PongTo, TornDown, Opened;
      hide Follows;
      ghost var all, start := Framing.Frames(stream.Pending(), PACKET_SIZE), View();
      ghost var c, cs, hash, before := conn, cipherSess, peerKeyHash, conn.sent;
      FollowsStart(aead, hash, start, all, disk, io, before);
      var packet := new byte[PACKET_SIZE](_ => 0);
      var k := 0;
      while !done
        invariant Valid() && NoneDone() && k <= torn.Reach(|all|) && old(files) <= files
        invariant !done ==> Framing.Frames(stream.Pending(), PACKET_SIZE) == all[k..]
        invariant Follows(aead, hash, start, all, disk, io, k, before, View(), c.sent)
        invariant fresh(transfers.Values - old(transfers.Values))
        invariant !done ==> conn == c && cipherSess == cs && cipherSess.key == old(cipherSess.key)
        invariant done ==> TornDown(c, cs) && transfers == map[]
        invariant !done ==> conn != null && cipherSess != null
        decreases |stream.Pending()|, !done
      {
        var ok := RecvNext(stream, packet, disk, io, torn, k, start, all, before);
        if !ok {
          return;
        }
        k := k + 1;
      }
      ViewDone();
      FollowsDone(aead, hash, start, all, disk, io, torn, k, before, View(), c.sent);
    }

    /** Turn `k` of the loop, after the turns before it. */
    method RecvNext(stream: Framing.Stream, packet: array<byte>, disk: nat -> Disk, io: nat -> Io, torn: Teardown,
                    k: nat, ghost start: Receiver, ghost all: seq<seq<byte>>, ghost before: seq<seq<byte>>)
      returns (ok: bool)
      requires Valid() && NoneDone() && !done && conn != null && cipherSess != null
      requires packet.Length == PACKET_SIZE && k <= torn.Reach(|all|)
      requires Framing.Frames(stream.Pending(), PACKET_SIZE) == all[k..]
      requires Follows(aead, peerKeyHash, start, all, disk, io, k, before, View(), conn.sent)
      modifies Parts(), stream, packet
      ensures Valid() && NoneDone() && old(files) <= files && fresh(transfers.Values - old(transfers.Values))
      ensures !done ==> conn == old(conn) && cipherSess == old(cipherSess) && cipherSess.key == old(cipherSess.key)
      ensures done ==> TornDown(old(conn), old(cipherSess)) && (ok ==> transfers == map[])
      ensures ok ==>
                && k + 1 <= torn.Reach(|all|) && |stream.Pending()| < |old(stream.Pending())|
                && Framing.Frames(stream.Pending(), PACKET_SIZE) == all[k + 1..]
                && Follows(aead, peerKeyHash, start, all, disk, io, k + 1, before, View(), old(conn).sent)
      ensures !ok ==>
                && done && View() == Ended(aead, start, all, disk, torn)
                && old(conn).sent == before + Pongs(aead, peerKeyHash, start, all, disk, io, torn.Reach(|all|))
    {
      hide Valid, NoneDone, View, Framing.Frames, Delivery.ReceivePacket, Late, Ended, Pongs, PongTo, TornDown, Opened;
      hide Follows;
      Framing.NextFrame(stream.Pending(), PACKET_SIZE);
      ViewDone();
      ghost var view, c := View(), conn;
      ghost var sent := c.sent;
      ok := RecvTurn(stream, packet, disk(k), io(k), torn, k);
      if ok {
        FollowsNext(aead, peerKeyHash, start, all, disk, io, k, before, view, sent, View(), c.sent);
      } else {
        FollowsHere(aead, peerKeyHash, start, all, disk, io, torn, k, before, view, sent);
      }
    }

    lemma FilesClosed(packets: seq<seq<byte>>, disk: nat -> Disk, torn: Teardown)
      ensures lost == {} ==>
                (OpenFiles(Ended(aead, View(), packets, disk, torn)) == {} <==>
                 && !OpensLate(aead, View(), packets, disk, torn)
                 && NoneReplaces(aead, View(), packets, disk, torn.Reach(|packets|)))
    {
      if lost == {} {
        AllFilesClosedIff(aead, View(), packets, disk, torn);
      }
    }

    /** The files that are open are those of the value model. */
    lemma OpenFilesAre()
      requires Valid() && NoneDone()
      ensures StillOpen() == OpenFiles(View())
    {
      RegisteredOpen();
      forall n <- StillOpen()
        ensures n in OpenFiles(View())
      {
        if n !in lost {
          assert View().transfers[files[n].header.fileID].serial == n;
        }
      }
    }

    lemma NoneOpen()
      ensures StillOpen() == {} <==> forall ft <- files :: !ft.isOpen
    {
      forall i | 0 <= i < |files| && files[i].isOpen
        ensures i in StillOpen()
      {
      }
      assert forall n <- StillOpen() :: files[n] in files;
    }

    lemma ViewDone()
      ensures View().done == done
      ensures done && transfers == map[] ==> View() == Zeroized(View())
    {
    }
  }

  /** The transfer is in the registry. */
  ghost predicate Listed(transfers: map<uint32, FileTransfer>, ft: FileTransfer) {
    ft.header.fileID in transfers && transfers[ft.header.fileID] == ft
  }

  /** A file that is open belongs to a transfer in the registry, or to one that was replaced there. */
  ghost predicate HandlesKept(transfers: map<uint32, FileTransfer>, files: seq<FileTransfer>, open: set<nat>,
                              lost: set<nat>)
  {
    && (forall i :: 0 <= i < |files| ==> files[i].serial == i)
    && (forall n <- open :: n < |files| && (n in lost || Listed(transfers, files[n])))
    && (forall id <- transfers :: transfers[id].serial < |files| && files[transfers[id].serial] == transfers[id])
    && (forall n <- lost :: n in open && n < |files| && !Listed(transfers, files[n]))
  }

  /** A new transfer takes the place of an open one with the same FileID. */
  lemma HandlesEnter(transfers: map<uint32, FileTransfer>, files: seq<FileTransfer>, open: set<nat>, lost: set<nat>,
                     ft: FileTransfer)
    requires HandlesKept(transfers, files, open, lost) && ft !in files && ft.serial == |files|
    requires forall id <- transfers :: transfers[id].header.fileID == id && transfers[id].serial in open
    ensures var id := ft.header.fileID;
      HandlesKept(transfers[id := ft], files + [ft], open + {|files|},
                  if id in transfers then lost + {transfers[id].serial} else lost)
  {
  }

  /** The file of a transfer is closed. */
  lemma HandlesClose(transfers: map<uint32, FileTransfer>, files: seq<FileTransfer>, open: set<nat>, lost: set<nat>,
                     id: uint32)
    requires HandlesKept(transfers, files, open, lost) && id in transfers
    requires forall id <- transfers :: transfers[id].header.fileID == id
    ensures HandlesKept(transfers, files, open - {transfers[id].serial}, lost)
  {
  }

  /** A transfer whose file is closed leaves the registry. */
  lemma HandlesLeave(transfers: map<uint32, FileTransfer>, files: seq<FileTransfer>, open: set<nat>, lost: set<nat>,
                     id: uint32)
    requires HandlesKept(transfers, files, open, lost) && id in transfers && transfers[id].serial !in open
    ensures HandlesKept(transfers - {id}, files, open, lost)
  {
  }

  lemma ExtendedFields(ft: Transfer, body: seq<byte>)
    ensures Extended(ft, body) ==
            Transfer(ft.serial, ft.header, (ft.received + |body|) % WORD64, ft.content + body)
  {
  }

  lemma WrittenWhole(body: seq<byte>)
    ensures Written(body, None) == body
  {
  }

  /** The file system during the first `n` packets. */
  function Disks(disk: nat -> Disk, n: nat): (disks: seq<Disk>)
    ensures |disks| == n
  {
    seq(n, i requires 0 <= i < n => disk(i))
  }

  lemma ConsumeNothing(aead: Aead, r: Receiver, packets: seq<seq<byte>>, disk: nat -> Disk)
    ensures Delivery.Consume(aead, r, packets[..0], Disks(disk, 0)) == r
  {
  }

  lemma ConsumeNext(aead: Aead, r: Receiver, packets: seq<seq<byte>>, disk: nat -> Disk, k: nat)
    requires k < |packets|
    ensures Delivery.Consume(aead, r, packets[..k + 1], Disks(disk, k + 1)) ==
            Delivery.ReceivePacket(aead, Delivery.Consume(aead, r, packets[..k], Disks(disk, k)), packets[k], disk(k))
  {
    assert packets[..k + 1][..k] == packets[..k];
    assert Disks(disk, k + 1)[..k] == Disks(disk, k);
  }

  /** After the teardown the remaining packets change nothing. */
  lemma {:induction false} ConsumeDone(aead: Aead, r: Receiver, packets: seq<seq<byte>>, disk: nat -> Disk,
                                       k: nat, m: nat)
    requires k <= m <= |packets| && Delivery.Consume(aead, r, packets[..k], Disks(disk, k)).done
    ensures Delivery.Consume(aead, r, packets[..m], Disks(disk, m)) ==
            Delivery.Consume(aead, r, packets[..k], Disks(disk, k))
    decreases m - k
  {
    if k < m {
      ConsumeNext(aead, r, packets, disk, k);
      ConsumeDone(aead, r, packets, disk, k + 1, m);
    }
  }

  /** The loop is ended by the stream or by another goroutine. */
  lemma EndedHere(aead: Aead, r: Receiver, packets: seq<seq<byte>>, disk: nat -> Disk, torn: Teardown, k: nat)
    requires k == torn.Reach(|packets|) && !Delivery.Consume(aead, r, packets[..k], Disks(disk, k)).done
    ensures Ended(aead, r, packets, disk, torn) ==
            var r' := Delivery.Consume(aead, r, packets[..k], Disks(disk, k));
            if torn == AfterOpening(k) && k < |packets| then Late(aead, r', packets[k], disk(k)) else Zeroized(r')
  {
    hide Late, Delivery.Consume, Disks;
  }

  /** The loop is ended by a disconnect. */
  lemma EndedBefore(aead: Aead, r: Receiver, packets: seq<seq<byte>>, disk: nat -> Disk, torn: Teardown, k: nat)
    requires k <= torn.Reach(|packets|) && Delivery.Consume(aead, r, packets[..k], Disks(disk, k)).done
    ensures Ended(aead, r, packets, disk, torn) == Zeroized(Delivery.Consume(aead, r, packets[..k], Disks(disk, k)))
  {
    ConsumeDone(aead, r, packets, disk, k, torn.Reach(|packets|));
    hide Late, Delivery.Consume, Disks;
  }

  /** All packets are handled before the session ends. */
  lemma EndedAfterAll(aead: Aead, r: Receiver, packets: seq<seq<byte>>, disk: nat -> Disk, torn: Teardown)
    requires torn.Reach(|packets|) == |packets|
    ensures Ended(aead, r, packets, disk, torn) ==
            Zeroized(Delivery.Consume(aead, r, packets, Disks(disk, |packets|)))
  {
    hide Delivery.Consume, Disks;
    assert packets[..|packets|] == packets;
  }

  /** What has been announced when the loop ends was announced by the packets handled before the teardown. */
  lemma EndedSaved(aead: Aead, r: Receiver, packets: seq<seq<byte>>, disk: nat -> Disk, torn: Teardown)
    ensures var m := torn.Reach(|packets|);
      Ended(aead, r, packets, disk, torn).saved ==
      Delivery.Consume(aead, r, packets[..m], Disks(disk, m)).saved
  {
    hide Delivery.Consume, Disks;
  }

  /** The session after the first `k` packets. */
  function After(aead: Aead, r: Receiver, packets: seq<seq<byte>>, disk: nat -> Disk, k: nat): Receiver
    requires k <= |packets|
  {
    Delivery.Consume(aead, r, packets[..k], Disks(disk, k))
  }

  /** The pongs that the session writes while it handles the first `k` packets. */
  function Pongs(aead: Aead, hash: Key, r: Receiver, packets: seq<seq<byte>>, disk: nat -> Disk, io: nat -> Io, k: nat)
    : seq<seq<byte>>
    requires k <= |packets|
  {
    if k == 0 then []
    else
      Pongs(aead, hash, r, packets, disk, io, k - 1) +
        if After(aead, r, packets, disk, k - 1).done then []
        else PongTo(aead, hash, Opened(aead, packets[k - 1]), io(k - 1))
  }

  lemma PongsNothing(aead: Aead, hash: Key, r: Receiver, packets: seq<seq<byte>>, disk: nat -> Disk, io: nat -> Io)
    ensures Pongs(aead, hash, r, packets, disk, io, 0) == []
  {
  }

  lemma PongsNext(aead: Aead, hash: Key, r: Receiver, packets: seq<seq<byte>>, disk: nat -> Disk, io: nat -> Io, k: nat)
    requires k <= |packets| && !Delivery.Consume(aead, r, packets[..k], Disks(disk, k)).done
    ensures k < |packets| ==>
              Pongs(aead, hash, r, packets, disk, io, k + 1) ==
              Pongs(aead, hash, r, packets, disk, io, k) + PongTo(aead, hash, Opened(aead, packets[k]), io(k))
  {
    hide PongTo, Opened, Delivery.Consume;
  }

  lemma {:induction false} PongsDone(aead: Aead, hash: Key, r: Receiver, packets: seq<seq<byte>>, disk: nat -> Disk,
                                     io: nat -> Io, k: nat, m: nat)
    requires k <= m <= |packets| && Delivery.Consume(aead, r, packets[..k], Disks(disk, k)).done
    ensures Pongs(aead, hash, r, packets, disk, io, m) == Pongs(aead, hash, r, packets, disk, io, k)
    decreases m - k
  {
    hide PongTo, Opened, Delivery.Consume;
    if k < m {
      PongsDone(aead, hash, r, packets, disk, io, k, m - 1);
      ConsumeDone(aead, r, packets, disk, k, m - 1);
    }
  }

  /** After `k` packets the session looks like this and has written this. */
  ghost predicate Follows(aead: Aead, hash: Key, r: Receiver, packets: seq<seq<byte>>, disk: nat -> Disk,
                          io: nat -> Io, k: nat, before: seq<seq<byte>>, view: Receiver, sent: seq<seq<byte>>)
  {
    && k <= |packets| && view == After(aead, r, packets, disk, k)
    && sent == before + Pongs(aead, hash, r, packets, disk, io, k)
  }

  lemma FollowsStart(aead: Aead, hash: Key, r: Receiver, packets: seq<seq<byte>>, disk: nat -> Disk,
                     io: nat -> Io, before: seq<seq<byte>>)
    ensures Follows(aead, hash, r, packets, disk, io, 0, before, r, before)
  {
    ConsumeNothing(aead, r, packets, disk);
    PongsNothing(aead, hash, r, packets, disk, io);
  }

  lemma FollowsNext(aead: Aead, hash: Key, r: Receiver, packets: seq<seq<byte>>, disk: nat -> Disk, io: nat -> Io,
                    k: nat, before: seq<seq<byte>>, view: Receiver, sent: seq<seq<byte>>, view': Receiver,
                    sent': seq<seq<byte>>)
    requires Follows(aead, hash, r, packets, disk, io, k, before, view, sent) && !view.done && k < |packets|
    requires view' == Delivery.ReceivePacket(aead, view, packets[k], disk(k))
    requires sent' == sent + PongTo(aead, hash, Opened(aead, packets[k]), io(k))
    ensures Follows(aead, hash, r, packets, disk, io, k + 1, before, view', sent')
  {
    hide Delivery.Consume, Delivery.ReceivePacket, Pongs, PongTo, Opened, Disks;
    ConsumeNext(aead, r, packets, disk, k);
    PongsNext(aead, hash, r, packets, disk, io, k);
  }

  /** The stream or another goroutine ends the loop. */
  lemma FollowsHere(aead: Aead, hash: Key, r: Receiver, packets: seq<seq<byte>>, disk: nat -> Disk, io: nat -> Io,
                    torn: Teardown, k: nat, before: seq<seq<byte>>, view: Receiver, sent: seq<seq<byte>>)
    requires Follows(aead, hash, r, packets, disk, io, k, before, view, sent) && !view.done
    requires k == torn.Reach(|packets|)
    ensures sent == before + Pongs(aead, hash, r, packets, disk, io, torn.Reach(|packets|))
    ensures Ended(aead, r, packets, disk, torn) ==
            if torn == AfterOpening(k) && k < |packets| then Late(aead, view, packets[k], disk(k)) else Zeroized(view)
  {
    hide Delivery.Consume, Pongs, PongTo, Opened, Disks, Late, Ended;
    EndedHere(aead, r, packets, disk, torn, k);
  }

  /** A disconnect ends it. */
  lemma FollowsDone(aead: Aead, hash: Key, r: Receiver, packets: seq<seq<byte>>, disk: nat -> Disk, io: nat -> Io,
                    torn: Teardown, k: nat, before: seq<seq<byte>>, view: Receiver, sent: seq<seq<byte>>)
    requires Follows(aead, hash, r, packets, disk, io, k, before, view, sent) && view.done
    requires k <= torn.Reach(|packets|)
    ensures sent == before + Pongs(aead, hash, r, packets, disk, io, torn.Reach(|packets|))
    ensures Ended(aead, r, packets, disk, torn) == Zeroized(view)
  {
    hide Delivery.Consume, Pongs, PongTo, Opened, Disks, Ended;
    EndedBefore(aead, r, packets, disk, torn, k);
    PongsDone(aead, hash, r, packets, disk, io, k, torn.Reach(|packets|));
  }

  /**
   A disconnect is final: with the first one the session is over. It keeps what it has saved, and whatever packets
   follow, and whenever another goroutine tears the session down after it, that changes nothing.
   */
  lemma NothingAfterDisconnect(aead: Aead, r: Receiver, packets: seq<seq<byte>>, disk: nat -> Disk, torn: Teardown,
                               n: nat)
    requires n < torn.Reach(|packets|) && Opened(aead, packets[n]).Ok?
    requires |Opened(aead, packets[n]).value| >= 9 && Opened(aead, packets[n]).value[0] == 0x07
    requires !After(aead, r, packets, disk, n).done
    ensures var end := Ended(aead, r, packets, disk, torn);
      && end.done && end.transfers == map[] && end.saved == After(aead, r, packets, disk, n).saved
      && end == Ended(aead, r, packets[..n + 1], disk, Never)
  {
    hide Opened, Delivery.Consume, Receive;
    var before, payload := After(aead, r, packets, disk, n), Opened(aead, packets[n]).value;
    ConsumeNext(aead, r, packets, disk, n);
    DisconnectEnds(before, payload, disk(n));
    EndedBefore(aead, r, packets, disk, torn, n + 1);
    var front := packets[..n + 1];
    assert front[..n + 1] == front;
    EndedBefore(aead, r, front, disk, Never, n + 1);
  }

  /** A file header that takes the place of an open transfer with the same FileID. */
  predicate Replaces(aead: Aead, r: Receiver, packet: seq<byte>, disk: Disk) {
    !r.done && OpensFile(aead, packet) && disk.openOk && HeaderIn(aead, packet).fileID in r.transfers
  }

  /** None of the first `k` packets replaces an open transfer. */
  ghost predicate NoneReplaces(aead: Aead, r: Receiver, packets: seq<seq<byte>>, disk: nat -> Disk, k: nat)
    requires k <= |packets|
  {
    forall j :: 0 <= j < k ==> !Replaces(aead, After(aead, r, packets, disk, j), packets[j], disk(j))
  }

  /** A file header is dispatched after the teardown, and its file can be created. */
  predicate OpensLate(aead: Aead, r: Receiver, packets: seq<seq<byte>>, disk: nat -> Disk, torn: Teardown) {
    var m := torn.Reach(|packets|);
    && torn == AfterOpening(m) && m < |packets| && !After(aead, r, packets, disk, m).done
    && OpensFile(aead, packets[m]) && disk(m).openOk
  }

  lemma ReceivedLost(aead: Aead, r: Receiver, packet: seq<byte>, disk: Disk)
    ensures Delivery.ReceivePacket(aead, r, packet, disk).lost == {} <==>
            r.lost == {} && !Replaces(aead, r, packet, disk)
  {
    hide Opened, DecodeHeader, DecodeFileHeader, Extended, Written;
  }

  lemma {:induction false} LostIff(aead: Aead, r: Receiver, packets: seq<seq<byte>>, disk: nat -> Disk, k: nat)
    requires k <= |packets|
    ensures After(aead, r, packets, disk, k).lost == {} <==> r.lost == {} && NoneReplaces(aead, r, packets, disk, k)
  {
    hide Delivery.ReceivePacket, Replaces;
    if k == 0 {
      ConsumeNothing(aead, r, packets, disk);
    } else {
      LostIff(aead, r, packets, disk, k - 1);
      ConsumeNext(aead, r, packets, disk, k - 1);
      ReceivedLost(aead, After(aead, r, packets, disk, k - 1), packets[k - 1], disk(k - 1));
    }
  }

  /** What a packet dispatched after the teardown leaves open. */
  lemma LateOpen(aead: Aead, r: Receiver, packet: seq<byte>, disk: Disk)
    ensures OpenFiles(Late(aead, r, packet, disk)) ==
            r.lost + if OpensFile(aead, packet) && disk.openOk then {r.nextSerial} else {}
  {
    hide Opened, DecodeHeader, DecodeFileHeader, Extended, Written;
    var r' := Late(aead, r, packet, disk);
    if OpensFile(aead, packet) && disk.openOk {
      var fh := HeaderIn(aead, packet);
      assert r'.transfers == map[fh.fileID := Transfer(r.nextSerial, fh, 0, [])];
    } else {
      assert r'.transfers == map[];
    }
  }

  /**
   The teardown is to leave no file open. That is so if and only if no header whose file can be created is
   dispatched after it, and none that was handled before names the FileID of a transfer that is open then. In
   the first case the transfer is registered on the dead session, in the second nothing refers to the file of
   the replaced transfer any more; nobody closes either of them.
   */
  lemma AllFilesClosedIff(aead: Aead, r: Receiver, packets: seq<seq<byte>>, disk: nat -> Disk, torn: Teardown)
    requires r.lost == {}
    ensures OpenFiles(Ended(aead, r, packets, disk, torn)) == {} <==>
            && !OpensLate(aead, r, packets, disk, torn)
            && NoneReplaces(aead, r, packets, disk, torn.Reach(|packets|))
  {
    hide Delivery.Consume, Disks, OpensFile, Late, NoneReplaces;
    var m := torn.Reach(|packets|);
    LostIff(aead, r, packets, disk, m);
    if torn == AfterOpening(m) && m < |packets| && !After(aead, r, packets, disk, m).done {
      LateOpen(aead, After(aead, r, packets, disk, m), packets[m], disk(m));
    }
  }

  // --- the two ways to leave a file open ---

  /** A packet that carries this file header. */
  ghost predicate Announces(aead: Aead, packet: seq<byte>, fh: FileHeader) {
    |fh.name| <= MAX_NAME && Opened(aead, packet) == Ok(Start(fh).Bytes())
  }

  lemma AnnouncingOpens(aead: Aead, packet: seq<byte>, fh: FileHeader)
    requires Announces(aead, packet, fh)
    ensures OpensFile(aead, packet) && HeaderIn(aead, packet) == fh
    ensures forall r: Receiver, disk: Disk :: !r.done ==>
              Delivery.ReceivePacket(aead, r, packet, disk) == Transfers.RecvFile(r, fh, disk.openOk)
  {
    hide Opened, DecodeHeader, DecodeFileHeader, Item.Bytes, Transfers.RecvFile;
    ItemDecodes(Start(fh));
  }

  /** Such packets exist: any session can seal them. */
  lemma AnnouncementExists(aead: Aead, fh: FileHeader, entropy: Entropy) returns (packet: seq<byte>)
    requires Lawful(aead) && |fh.name| <= MAX_NAME && entropy.padding.Some? && entropy.nonce.Some?
    ensures Announces(aead, packet, fh)
  {
    hide Opened, Sealed;
    OpenSealed(aead, Start(fh).Bytes(), entropy);
    packet := Sealed(aead, Start(fh).Bytes(), entropy).value;
  }

  /** A header that is dispatched after the teardown. */
  lemma LateHeaderStaysOpen(aead: Aead, packet: seq<byte>, fh: FileHeader, disk: nat -> Disk)
    requires Announces(aead, packet, fh) && disk(0).openOk
    ensures OpenFiles(Ended(aead, FRESH, [packet], disk, AfterOpening(0))) == {0}
  {
    hide Opened, Announces, OpensFile, Late;
    AnnouncingOpens(aead, packet, fh);
    ConsumeNothing(aead, FRESH, [packet], disk);
    LateOpen(aead, FRESH, packet, disk(0));
  }

  /** Two headers with the same FileID, and then the stream ends. */
  lemma ReplacedStaysOpen(aead: Aead, first: seq<byte>, second: seq<byte>, fh: FileHeader, fh': FileHeader,
                          disk: nat -> Disk)
    requires Announces(aead, first, fh) && Announces(aead, second, fh') && fh.fileID == fh'.fileID
    requires disk(0).openOk && disk(1).openOk
    ensures OpenFiles(Ended(aead, FRESH, [first, second], disk, Never)) == {0}
  {
    hide Opened, Announces, OpensFile, Delivery.Consume, Delivery.ReceivePacket, Disks;
    var packets := [first, second];
    AnnouncingOpens(aead, first, fh);
    AnnouncingOpens(aead, second, fh');
    ConsumeNothing(aead, FRESH, packets, disk);
    ConsumeNext(aead, FRESH, packets, disk, 0);
    ConsumeNext(aead, FRESH, packets, disk, 1);
  }

  /** A packet that announces a file. */
  predicate OpensFile(aead: Aead, packet: seq<byte>) {
    && Opened(aead, packet).Ok?
    && var decoded := DecodeHeader(Opened(aead, packet).value);
    && decoded.Ok? && decoded.value.0.ptype == TYPE_FILE_HEADER && DecodeFileHeader(decoded.value.1).Ok?
  }

  /** The file header that such a packet carries. */
  function HeaderIn(aead: Aead, packet: seq<byte>): FileHeader
    requires OpensFile(aead, packet)
  {
    DecodeFileHeader(DecodeHeader(Opened(aead, packet).value).value.1).value
  }

  /** The transfer leaves the registry and is announced once its byte count is reached. */
  function Settled(r: Receiver, fileID: uint32): Receiver
    requires fileID in r.transfers
  {
    var ft := r.transfers[fileID];
    if ft.received >= ft.header.totalSize then
      r.(transfers := r.transfers - {fileID}, saved := r.saved + [Saved(ft.serial, ft.header, ft.content)])
    else r
  }

  /** A chunk that is written whole: its bytes are added and the count is checked. */
  lemma AppendIsSettled(r: Receiver, fileID: uint32, body: seq<byte>, fault: Option<nat>)
    requires fileID in r.transfers && |body| <= CHUNK_SIZE
    ensures var ft := r.transfers[fileID];
      Transfers.AppendChunk(r, fileID, body, fault) ==
        if body == [] then Settled(r, fileID)
        else if fault.Some? then
          r.(transfers := r.transfers[fileID := ft.(content := ft.content + Written(body, fault))])
        else Settled(r.(transfers := r.transfers[fileID := Extended(ft, body)]), fileID)
  {
    var ft := r.transfers[fileID];
    var r' := r.(transfers := r.transfers[fileID := Extended(ft, body)]);
    assert r'.transfers - {fileID} == r.transfers - {fileID};
    if body == [] {
      assert Extended(ft, body) == ft;
      assert r.transfers[fileID := ft] == r.transfers;
    }
  }

  /** What is done and what is left make up the whole. */
  ghost predicate Split<T(!new)>(all: seq<T>, done: seq<T>, left: seq<T>) {
    all == done + left
  }

  lemma Assoc<T>(a: seq<T>, b: seq<T>, c: seq<T>)
    ensures (a + b) + c == a + (b + c)
  {
  }

  lemma SplitStart<T(!new)>(all: seq<T>)
    ensures Split(all, [], all)
  {
    assert [] + all == all;
  }

  lemma SplitNext<T(!new)>(all: seq<T>, done: seq<T>, left: seq<T>)
    requires Split(all, done, left) && left != []
    ensures Split(all, done + [left[0]], left[1..])
    ensures done <= all && done != all && |done| < |all| && all[|done|] == left[0]
  {
  }

  lemma SplitEnd<T(!new)>(all: seq<T>, done: seq<T>)
    requires Split(all, done, [])
    ensures done == all
  {
  }

  /** Some of the next part is done: all of it, or up to an element that is still to come. */
  lemma SplitMore<T(!new)>(all: seq<T>, done: seq<T>, next: seq<T>, rest: seq<T>, more: seq<T>)
    requires Split(all, done, next + rest) && more <= next
    ensures done + more <= all
    ensures more == next ==> Split(all, done + more, rest)
    ensures more != next ==>
              && |more| < |next| && |done + more| < |all|
              && done + more != all
              && all[|done + more|] == next[|more|]
  {
  }

  lemma NoBlock(fileID: uint32, index: uint32)
    ensures BlockItems(fileID, index, []) == []
  {
  }

  lemma NextBlock(fileID: uint32, index: uint32, blocks: seq<seq<byte>>)
    requires blocks != []
    ensures BlockItems(fileID, index, blocks) ==
            BodyItems(fileID, index, Bodies(blocks[0])) + BlockItems(fileID, NextIndex(index), blocks[1..])
  {
    hide Bodies, BodyItems, NextIndex;
  }

  lemma NoBody(fileID: uint32, index: uint32)
    ensures BodyItems(fileID, index, Bodies([])) == []
  {
  }

  lemma HeaderFirst(file: SentFile, fault: FileFault)
    requires file.Readable()
    ensures SendItems(file, fault) != [] && SendItems(file, fault)[0] == Start(file.Header())
    ensures Split(SendItems(file, fault), [Start(file.Header())],
                  if file.Data() == [] then [Chunk(file.fileID, 0, [])]
                  else BlockItems(file.fileID, 0, ReadBlocks(file, fault)))
  {
  }

  lemma FramesNone(aead: Aead, hash: Key, io: nat -> Io, k: nat)
    ensures FramesFor(aead, hash, [], io, k) == []
  {
  }

  lemma NextBody(fileID: uint32, index: uint32, data: seq<byte>, end: nat)
    requires data != [] && end == if MAX_BODY > |data| then |data| else MAX_BODY
    ensures var items := BodyItems(fileID, index, Bodies(data));
      && items != []
      && items[0] == Chunk(fileID, index, data[..end])
      && items[1..] == BodyItems(fileID, index, Bodies(data[end..]))
  {
    var first, rest := data[..end], Bodies(data[end..]);
    assert Bodies(data) == [first] + rest by {
      FirstBody(data, end);
    }
    hide Bodies;
    FirstItem(fileID, index, first, rest);
  }

  lemma FirstBody(data: seq<byte>, end: nat)
    requires data != [] && end == if MAX_BODY > |data| then |data| else MAX_BODY
    ensures Bodies(data) == [data[..end]] + Bodies(data[end..])
  {
  }

  lemma FirstItem(fileID: uint32, index: uint32, first: seq<byte>, rest: seq<seq<byte>>)
    ensures var items := BodyItems(fileID, index, [first] + rest);
      items != [] && items[0] == Chunk(fileID, index, first) && items[1..] == BodyItems(fileID, index, rest)
  {
  }
}
