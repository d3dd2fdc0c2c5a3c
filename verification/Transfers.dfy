/**
 The receiving side of file transfer as a function on values: what one decrypted payload does to the
 registry of open transfers and to the files already completed.
 */
module Transfers {
  import opened Bytes
  import opened Words
  import opened Protocol
  import opened Fragments
  import Cipher

  const WORD64 := 0x1_0000_0000_0000_0000

  /** An open transfer. The serial number tells apart transfers that reuse a FileID; `content` is on disk. */
  datatype Transfer = Transfer(serial: nat, header: FileHeader, received: uint64, content: seq<byte>)

  /** A transfer that was closed and announced as saved. */
  datatype Saved = Saved(serial: nat, header: FileHeader, content: seq<byte>)

  /**
   The receiving side. `lost` are the serial numbers of transfers that were replaced while they were open:
   nothing refers to their files any more.
   */
  datatype Receiver = Receiver(
    transfers: map<uint32, Transfer>,
    saved: seq<Saved>,
    nextSerial: nat,
    lost: set<nat>,
    done: bool
  )

  /**
   What the file system does while one payload is handled: whether a new file can be opened, and after how
   many bytes a write fails.
   */
  datatype Disk = Disk(openOk: bool, fault: Option<nat>)

  const FRESH := Receiver(map[], [], 0, {}, false)

  /** A new transfer takes the place of one with the same FileID, whose file is not closed. */
  function RecvFile(r: Receiver, fh: FileHeader, openOk: bool): Receiver {
    if !openOk then r
    else
      r.(transfers := r.transfers[fh.fileID := Transfer(r.nextSerial, fh, 0, [])],
         nextSerial := r.nextSerial + 1,
         lost := if fh.fileID in r.transfers then r.lost + {r.transfers[fh.fileID].serial} else r.lost)
  }

  function Written(body: seq<byte>, fault: Option<nat>): seq<byte> {
    if fault.Some? && fault.value < |body| then body[..fault.value] else body
  }

  /** A successful write: the counter is a 64-bit word. */
  function Extended(ft: Transfer, body: seq<byte>): Transfer {
    ft.(received := (ft.received + |body|) % WORD64, content := ft.content + body)
  }

  function AppendChunk(r: Receiver, fileID: uint32, body: seq<byte>, fault: Option<nat>): Receiver {
    if fileID !in r.transfers then r
    else
      var ft := r.transfers[fileID];
      if |body| > CHUNK_SIZE then r.(transfers := r.transfers - {fileID})
      else if body != [] && fault.Some? then
        r.(transfers := r.transfers[fileID := ft.(content := ft.content + Written(body, fault))])
      else
        var ft' := Extended(ft, body);
        if ft'.received >= ft.header.totalSize then
          r.(transfers := r.transfers - {fileID}, saved := r.saved + [Saved(ft.serial, ft.header, ft'.content)])
        else r.(transfers := r.transfers[fileID := ft'])
  }

  /** Teardown closes the session and forgets the open transfers. */
  function Zeroized(r: Receiver): Receiver {
    r.(transfers := map[], done := true)
  }

  /** The transfers whose files are open. */
  function OpenFiles(r: Receiver): set<nat> {
    (set id | id in r.transfers :: r.transfers[id].serial) + r.lost
  }

  function Dispatch(r: Receiver, h: WireHeader, body: seq<byte>, disk: Disk): Receiver {
    if h.ptype == TYPE_FILE_HEADER then
      match DecodeFileHeader(body)
      case Err(_) => r
      case Ok(fh) => RecvFile(r, fh, disk.openOk)
    else if h.ptype == TYPE_FILE_CHUNK then AppendChunk(r, h.fileID, body, disk.fault)
    else if h.ptype == TYPE_DISCONNECT then Zeroized(r)
    else r
  }

  /** One turn of the receive loop after decryption. */
  function Receive(r: Receiver, payload: seq<byte>, disk: Disk): Receiver {
    if r.done then r
    else
      match DecodeHeader(payload)
      case Err(_) => r
      case Ok((h, body)) => Dispatch(r, h, body, disk)
  }

  // --- what one payload does, from its bytes ---

  /** A payload of type 7 ends the session, and no other does: nothing is open any more and what was saved stays. */
  lemma DisconnectEnds(r: Receiver, payload: seq<byte>, disk: Disk)
    requires !r.done
    ensures var r' := Receive(r, payload, disk);
      && (r'.done <==> |payload| >= 9 && payload[0] == 0x07)
      && (r'.done ==> r'.transfers == map[] && r'.saved == r.saved && r'.lost == r.lost)
  {
    hide AppendChunk, DecodeFileHeader;
    PayloadLayout(payload);
    ChunksGoOn(r);
  }

  lemma ChunksGoOn(r: Receiver)
    ensures forall id, body, fault :: AppendChunk(r, id, body, fault).done == r.done
  {
    hide Extended, Written;
  }

  /** Types other than 3, 4 and 7 change nothing, and neither does what is too short to be a payload. */
  lemma OthersIgnored(r: Receiver, payload: seq<byte>, disk: Disk)
    requires |payload| >= 9 ==> payload[0] !in {0x03, 0x04, 0x07}
    ensures Receive(r, payload, disk) == r
  {
    PayloadLayout(payload);
  }

  /**
   A payload of type 3 opens a transfer, if its file header is whole and the file can be created: with the name, the
   size and the FileID in the header, and nothing in it yet. Otherwise nothing changes.
   */
  lemma HeaderArrives(r: Receiver, payload: seq<byte>, disk: Disk)
    requires !r.done && |payload| >= 9 && payload[0] == 0x03
    ensures var r', d := Receive(r, payload, disk), payload[9..];
      if |d| < 18 || |d| < 18 + Two(d[16], d[17]) || !disk.openOk then r' == r
      else
        && var id: uint32 := Four(d[12], d[13], d[14], d[15]);
        && id in r'.transfers && r'.transfers - {id} == r.transfers - {id} && r'.saved == r.saved && !r'.done
        && var ft := r'.transfers[id];
        && ft.header.name == d[18..18 + Two(d[16], d[17])] && ft.header.fileID == id
        && ft.header.totalSize == Four(d[0], d[1], d[2], d[3]) * 0x1_0000_0000 + Four(d[4], d[5], d[6], d[7])
        && ft.received == 0 && ft.content == [] && ft.serial == r.nextSerial && r'.nextSerial == r.nextSerial + 1
  {
    hide AppendChunk, DecodeFileHeader;
    PayloadLayout(payload);
    FileHeaderLayout(payload[9..]);
  }

  /**
   A payload of type 4 is for the transfer under its FileID, if there is one. More than 131072 bytes drop it. If the
   write fails, what was written stays but does not count. Otherwise the bytes are added and counted in 64 bits,
   and the transfer is saved once the count has reached the announced size.
   */
  lemma ChunkArrives(r: Receiver, payload: seq<byte>, disk: Disk)
    requires !r.done && |payload| >= 9 && payload[0] == 0x04
    ensures var r', body := Receive(r, payload, disk), payload[9..];
      var id: nat := Four(payload[5], payload[6], payload[7], payload[8]);
      if id !in r.transfers then r' == r
      else
        && r'.transfers - {id} == r.transfers - {id} && !r'.done && r'.lost == r.lost
        && var ft := r.transfers[id];
        if |body| > 131072 then id !in r'.transfers && r'.saved == r.saved
        else if body != [] && disk.fault.Some? then
          && r'.saved == r.saved && id in r'.transfers && r'.transfers[id].received == ft.received
          && var n := if disk.fault.value < |body| then disk.fault.value else |body|;
          && r'.transfers[id].content == ft.content + body[..n] && r'.transfers[id].header == ft.header
        else
          var count := (ft.received + |body|) % 0x1_0000_0000_0000_0000;
          if count >= ft.header.totalSize then
            id !in r'.transfers && r'.saved == r.saved + [Saved(ft.serial, ft.header, ft.content + body)]
          else
            && r'.saved == r.saved
            && id in r'.transfers && r'.transfers[id] == Transfer(ft.serial, ft.header, count, ft.content + body)
  {
    hide DecodeFileHeader;
    PayloadLayout(payload);
    var body := payload[9..];
    assert body[..|body|] == body;
  }

  datatype Event = Event(payload: seq<byte>, disk: Disk)

  function Replay(r: Receiver, events: seq<Event>): Receiver {
    if events == [] then r
    else
      var last := events[|events| - 1];
      Receive(Replay(r, events[..|events| - 1]), last.payload, last.disk)
  }

  /** Registered under their own FileID, and no two open or saved transfers are the same one. */
  ghost predicate Valid(r: Receiver) {
    && (forall id <- r.transfers :: r.transfers[id].header.fileID == id && r.transfers[id].serial < r.nextSerial)
    && (forall id, id' :: id in r.transfers && id' in r.transfers && r.transfers[id].serial == r.transfers[id'].serial
          ==> id == id')
    && (forall i :: 0 <= i < |r.saved| ==> r.saved[i].serial < r.nextSerial)
    && (forall i, j :: 0 <= i < j < |r.saved| ==> r.saved[i].serial != r.saved[j].serial)
    && (forall i, id :: 0 <= i < |r.saved| && id in r.transfers ==> r.saved[i].serial != r.transfers[id].serial)
  }

  lemma ReceiveKeepsValid(r: Receiver, payload: seq<byte>, disk: Disk)
    requires Valid(r)
    ensures Valid(Receive(r, payload, disk))
    ensures r.saved <= Receive(r, payload, disk).saved
  {
    if !r.done && DecodeHeader(payload).Ok? {
      var (h, body) := DecodeHeader(payload).value;
      if h.ptype == TYPE_FILE_CHUNK {
        AppendKeepsValid(r, h.fileID, body, disk.fault);
      }
    }
  }

  lemma AppendKeepsValid(r: Receiver, fileID: uint32, body: seq<byte>, fault: Option<nat>)
    requires Valid(r)
    ensures Valid(AppendChunk(r, fileID, body, fault))
    ensures r.saved <= AppendChunk(r, fileID, body, fault).saved
  {
    if fileID in r.transfers {
      var ft := r.transfers[fileID];
      UpdateKeepsValid(r, ft.(content := ft.content + Written(body, fault)));
      UpdateKeepsValid(r, Extended(ft, body));
      CloseKeepsValid(r, fileID, Extended(ft, body).content);
    }
  }

  lemma UpdateKeepsValid(r: Receiver, ft: Transfer)
    requires Valid(r) && ft.header.fileID in r.transfers
    requires ft.serial == r.transfers[ft.header.fileID].serial
    ensures Valid(r.(transfers := r.transfers[ft.header.fileID := ft]))
  {
  }

  lemma CloseKeepsValid(r: Receiver, fileID: uint32, content: seq<byte>)
    requires Valid(r) && fileID in r.transfers
    ensures var ft := r.transfers[fileID];
      && Valid(r.(transfers := r.transfers - {fileID}))
      && Valid(r.(transfers := r.transfers - {fileID}, saved := r.saved + [Saved(ft.serial, ft.header, content)]))
  {
  }

  /**
   Against any payloads and any disk faults: a transfer is announced as saved at most once, once saved it
   is no longer open and so nothing is written to it, and its contents never change again.
   */
  lemma {:induction false} SavedOnce(r: Receiver, events: seq<Event>)
    requires Valid(r)
    ensures var r' := Replay(r, events);
      && Valid(r')
      && r.saved <= r'.saved
      && (forall i, j :: 0 <= i < j < |r'.saved| ==> r'.saved[i].serial != r'.saved[j].serial)
      && (forall i, id :: 0 <= i < |r'.saved| && id in r'.transfers ==> r'.saved[i].serial != r'.transfers[id].serial)
  {
    if events != [] {
      var front, last := events[..|events| - 1], events[|events| - 1];
      SavedOnce(r, front);
      ReceiveKeepsValid(Replay(r, front), last.payload, last.disk);
    }
  }

  /** Once the session is torn down nothing is received any more. */
  lemma {:induction false} DoneIsFinal(r: Receiver, events: seq<Event>)
    requires r.done
    ensures Replay(r, events) == r
  {
    if events != [] {
      DoneIsFinal(r, events[..|events| - 1]);
    }
  }

  // --- completion by byte count ---

  /** Announced sizes for which the byte counter cannot wrap before the transfer completes. */
  predicate Countable(totalSize: uint64) {
    totalSize <= WORD64 - MAX_BODY
  }

  ghost predicate OpenCounted(ft: Transfer) {
    Countable(ft.header.totalSize) ==>
      && ft.received == |ft.content|
      && (ft.content == [] || |ft.content| < ft.header.totalSize)
  }

  ghost predicate SavedCounted(s: Saved) {
    Countable(s.header.totalSize) ==>
      if s.header.totalSize > 0 then s.header.totalSize <= |s.content| < s.header.totalSize + MAX_BODY
      else |s.content| <= MAX_BODY
  }

  ghost predicate Counted(r: Receiver) {
    && (forall id <- r.transfers :: OpenCounted(r.transfers[id]))
    && (forall i :: 0 <= i < |r.saved| ==> SavedCounted(r.saved[i]))
  }

  ghost predicate Healthy(event: Event) {
    event.disk.fault == None && |event.payload| <= Cipher.MAX_PLAINTEXT
  }

  lemma ReceiveKeepsCounted(r: Receiver, event: Event)
    requires Counted(r) && Healthy(event)
    ensures Counted(Receive(r, event.payload, event.disk))
  {
    if !r.done && DecodeHeader(event.payload).Ok? {
      var (h, body) := DecodeHeader(event.payload).value;
      if h.ptype == TYPE_FILE_CHUNK && h.fileID in r.transfers {
        var ft := r.transfers[h.fileID];
        assert OpenCounted(ft);
        assert |body| <= MAX_BODY;
        var ft' := Extended(ft, body);
        if ft'.received >= ft.header.totalSize {
          assert SavedCounted(Saved(ft.serial, ft.header, ft'.content));
        } else {
          assert OpenCounted(ft');
        }
      }
    }
  }

  /**
   With successful writes and payloads as large as a packet allows, a completed transfer has at least the
   announced number of bytes and less than one more body, and an open one has fewer than announced.
   */
  lemma {:induction false} ByteCountCompletion(events: seq<Event>)
    requires forall event <- events :: Healthy(event)
    ensures Counted(Replay(FRESH, events))
  {
    if events != [] {
      var front, last := events[..|events| - 1], events[|events| - 1];
      ByteCountCompletion(front);
      ReceiveKeepsCounted(Replay(FRESH, front), last);
    }
  }

  // --- runs that reach the limits ---

  ghost predicate AllHealthy(events: seq<Event>) {
    forall event <- events :: Healthy(event)
  }

  /** A packet that meets a healthy disk. */
  function Good(item: Item): Event {
    Event(item.Bytes(), Disk(true, None))
  }

  /** The header of a file of the given size, and then `n` chunks of one byte. */
  function Trickle(fh: FileHeader, n: uint64): seq<Event> {
    if n == 0 then [Good(Start(fh))] else Trickle(fh, n - 1) + [Good(Chunk(fh.fileID, 0, [0]))]
  }

  lemma ReplaySnoc(r: Receiver, events: seq<Event>, last: Event)
    ensures Replay(r, events + [last]) == Receive(Replay(r, events), last.payload, last.disk)
  {
    assert (events + [last])[..|events|] == events;
  }

  lemma ReceiveBody(r: Receiver, id: uint32, body: seq<byte>)
    requires !r.done && |body| <= MAX_BODY
    ensures Receive(r, Chunk(id, 0, body).Bytes(), Disk(true, None)) == AppendChunk(r, id, body, None)
    ensures Healthy(Good(Chunk(id, 0, body)))
  {
    ItemDecodes(Chunk(id, 0, body));
  }

  lemma ReceiveStart(r: Receiver, fh: FileHeader)
    requires !r.done && |fh.name| <= MAX_NAME
    ensures Receive(r, Start(fh).Bytes(), Disk(true, None)) == RecvFile(r, fh, true)
    ensures Healthy(Good(Start(fh)))
  {
    ItemDecodes(Start(fh));
  }

  /** One transfer is open and has received `n` zero bytes. */
  function OneOpen(fh: FileHeader, n: uint64): Receiver {
    Receiver(map[fh.fileID := Transfer(0, fh, n, Zeros(n))], [], 1, {}, false)
  }

  lemma AppendOne(fh: FileHeader, n: uint64)
    requires n + 1 < fh.totalSize
    ensures AppendChunk(OneOpen(fh, n), fh.fileID, [0], None) == OneOpen(fh, n + 1)
  {
    assert Zeros(n) + [0] == Zeros(n + 1);
    var r := OneOpen(fh, n);
    assert Extended(r.transfers[fh.fileID], [0]) == Transfer(0, fh, n + 1, Zeros(n + 1));
    assert r.transfers[fh.fileID := Transfer(0, fh, n + 1, Zeros(n + 1))] == OneOpen(fh, n + 1).transfers;
  }

  /** Short of the announced size, the transfer is open and has one byte per chunk. */
  lemma {:induction false} TrickleOpen(fh: FileHeader, n: uint64)
    requires n < fh.totalSize && fh.name == []
    ensures AllHealthy(Trickle(fh, n)) && Replay(FRESH, Trickle(fh, n)) == OneOpen(fh, n)
  {
    hide AppendChunk, OneOpen, Receive, Healthy, Replay, AllHealthy, Item.Bytes;
    if n == 0 {
      TrickleStarts(fh);
    } else {
      TrickleOpen(fh, n - 1);
      TrickleOn(fh, n);
    }
  }

  lemma TrickleStarts(fh: FileHeader)
    requires 0 < fh.totalSize && fh.name == []
    ensures AllHealthy(Trickle(fh, 0)) && Replay(FRESH, Trickle(fh, 0)) == OneOpen(fh, 0)
  {
    hide AppendChunk, OneOpen, Receive, Healthy;
    ReplaySnoc(FRESH, [], Good(Start(fh)));
    ReceiveStart(FRESH, fh);
    StartOpens(fh);
    assert [] + [Good(Start(fh))] == [Good(Start(fh))];
  }

  lemma TrickleOn(fh: FileHeader, n: uint64)
    requires 0 < n < fh.totalSize && fh.name == []
    requires AllHealthy(Trickle(fh, n - 1)) && Replay(FRESH, Trickle(fh, n - 1)) == OneOpen(fh, n - 1)
    ensures AllHealthy(Trickle(fh, n)) && Replay(FRESH, Trickle(fh, n)) == OneOpen(fh, n)
  {
    hide AppendChunk, OneOpen, Receive, Healthy, Replay, Item.Bytes;
    ReplaySnoc(FRESH, Trickle(fh, n - 1), Good(Chunk(fh.fileID, 0, [0])));
    NotDone(fh, n - 1);
    ReceiveBody(OneOpen(fh, n - 1), fh.fileID, [0]);
    AppendOne(fh, n - 1);
  }

  lemma StartOpens(fh: FileHeader)
    ensures RecvFile(FRESH, fh, true) == OneOpen(fh, 0)
  {
    assert Zeros(0) == [];
    assert FRESH.transfers[fh.fileID := Transfer(0, fh, 0, [])] == OneOpen(fh, 0).transfers;
  }

  lemma NotDone(fh: FileHeader, n: uint64)
    ensures !OneOpen(fh, n).done
  {
  }

  /** All but one byte have come in pieces, and then a full body comes. */
  function Overrun(fh: FileHeader): seq<Event>
    requires fh.totalSize > 0
  {
    Trickle(fh, fh.totalSize - 1) + [Good(Chunk(fh.fileID, 0, Zeros(MAX_BODY)))]
  }

  lemma OverrunLast(fh: FileHeader)
    requires fh.totalSize > 0 && fh.name == []
    ensures AllHealthy(Overrun(fh))
    ensures Replay(FRESH, Overrun(fh)) ==
            AppendChunk(OneOpen(fh, fh.totalSize - 1), fh.fileID, Zeros(MAX_BODY), None)
  {
    hide Trickle, Receive, AppendChunk, OneOpen;
    TrickleOpen(fh, fh.totalSize - 1);
    NotDone(fh, fh.totalSize - 1);
    ReplaySnoc(FRESH, Trickle(fh, fh.totalSize - 1), Good(Chunk(fh.fileID, 0, Zeros(MAX_BODY))));
    ReceiveBody(OneOpen(fh, fh.totalSize - 1), fh.fileID, Zeros(MAX_BODY));
  }

  /** The last body completes the transfer, or wraps the counter and leaves it open. */
  lemma AppendFull(fh: FileHeader)
    requires fh.totalSize > 0
    ensures var r := AppendChunk(OneOpen(fh, fh.totalSize - 1), fh.fileID, Zeros(MAX_BODY), None);
      var content := Zeros(fh.totalSize - 1) + Zeros(MAX_BODY);
      if Countable(fh.totalSize) then r.transfers == map[] && r.saved == [Saved(0, fh, content)]
      else
        && r.saved == []
        && r.transfers == map[fh.fileID := Transfer(0, fh, fh.totalSize - 1 + MAX_BODY - WORD64, content)]
  {
    hide Zeros;
    var n := fh.totalSize - 1 + MAX_BODY;
    assert n % WORD64 == if n < WORD64 then n else n - WORD64;
  }

  /** The bound on a completed transfer is reached: 4056 bytes more than announced, for every countable size. */
  lemma OverrunReached(totalSize: uint64) returns (events: seq<Event>)
    requires totalSize > 0 && Countable(totalSize)
    ensures AllHealthy(events)
    ensures var r := Replay(FRESH, events);
      && r.transfers == map[] && |r.saved| == 1 && r.saved[0].header.totalSize == totalSize
      && |r.saved[0].content| == totalSize + MAX_BODY - 1
  {
    hide AppendChunk, OneOpen, Overrun, Replay, AllHealthy;
    var fh := FileHeader([], totalSize, 0, 0);
    events := Overrun(fh);
    OverrunLast(fh);
    AppendFull(fh);
  }

  /** A transfer is open although its file has all the bytes that were announced. */
  ghost predicate Missed(r: Receiver, totalSize: uint64) {
    exists id <- r.transfers ::
      r.transfers[id].header.totalSize == totalSize && |r.transfers[id].content| >= totalSize
  }

  /** For an uncountable size some healthy run fills the file, wraps the counter and leaves the transfer open. */
  lemma WrapMisses(totalSize: uint64) returns (events: seq<Event>)
    requires !Countable(totalSize)
    ensures AllHealthy(events)
    ensures Replay(FRESH, events).saved == [] && Missed(Replay(FRESH, events), totalSize)
  {
    hide AppendChunk, OneOpen, Overrun, Replay, AllHealthy;
    var fh := FileHeader([], totalSize, 0, 0);
    events := Overrun(fh);
    OverrunLast(fh);
    AppendFull(fh);
    assert fh.fileID in Replay(FRESH, events).transfers;
  }

  /**
   The byte count detects completion exactly for the countable sizes: over all runs of the receiver with
   successful writes and payloads as large as a packet allows, no transfer of that size is ever open with all
   its bytes.
   */
  lemma DetectsCompletionIff(totalSize: uint64)
    requires totalSize > 0
    ensures Countable(totalSize) <==>
            forall events :: AllHealthy(events) ==> !Missed(Replay(FRESH, events), totalSize)
  {
    if Countable(totalSize) {
      forall events | AllHealthy(events)
        ensures !Missed(Replay(FRESH, events), totalSize)
      {
        ByteCountCompletion(events);
        assert forall id <- Replay(FRESH, events).transfers :: OpenCounted(Replay(FRESH, events).transfers[id]);
      }
    } else {
      var events := WrapMisses(totalSize);
    }
  }
}
