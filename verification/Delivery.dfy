/**
 End-to-end file transfer: any number of files, fragmented, sealed and interleaved with each other and
 with other traffic, arrive as the files that were sent.
 */
module Delivery {
  import opened Bytes
  import opened Words
  import opened Protocol
  import opened Fragments
  import opened Transfers
  import opened Interleaving
  import opened Cipher

  /** One turn of the receive loop: a packet that does not open is dropped. */
  function ReceivePacket(aead: Aead, r: Receiver, packet: seq<byte>, disk: Disk): Receiver {
    if r.done then r
    else
      match Opened(aead, packet)
      case Err(_) => r
      case Ok(payload) => Receive(r, payload, disk)
  }

  function Consume(aead: Aead, r: Receiver, packets: seq<seq<byte>>, disks: seq<Disk>): Receiver
    requires |packets| == |disks|
  {
    if packets == [] then r
    else
      var n := |packets| - 1;
      ReceivePacket(aead, Consume(aead, r, packets[..n], disks[..n]), packets[n], disks[n])
  }

  /** Packets that open to the payloads of a transfer. */
  ghost predicate CarriesFile(aead: Aead, packets: seq<seq<byte>>, file: SentFile)
    requires file.Valid()
  {
    && |packets| == |file.Items()|
    && forall j :: 0 <= j < |packets| ==> Opened(aead, packets[j]) == Ok(file.Items()[j].Bytes())
  }

  /**
   Traffic that concerns no transfer: packets that do not open, and payloads that are neither file headers,
   nor chunks, nor a disconnect (messages, pings, pongs, unknown types).
   */
  ghost predicate Inert(aead: Aead, packet: seq<byte>) {
    Opened(aead, packet).Ok? ==>
      var payload := Opened(aead, packet).value;
      DecodeHeader(payload).Ok? ==>
        DecodeHeader(payload).value.0.ptype !in {TYPE_FILE_HEADER, TYPE_FILE_CHUNK, TYPE_DISCONNECT}
  }

  lemma InertChangesNothing(aead: Aead, r: Receiver, packet: seq<byte>, disk: Disk)
    requires Inert(aead, packet)
    ensures ReceivePacket(aead, r, packet, disk) == r
  {
  }

  /** The streams of a session: first one for each file, then any number of inert ones. */
  ghost predicate Traffic(aead: Aead, files: seq<SentFile>, streams: seq<seq<seq<byte>>>) {
    && |files| <= |streams|
    && (forall i :: 0 <= i < |files| ==> files[i].Valid() && CarriesFile(aead, streams[i], files[i]))
    && (forall i :: |files| <= i < |streams| ==> forall packet <- streams[i] :: Inert(aead, packet))
    && (forall i, j :: 0 <= i < j < |files| ==> files[i].fileID != files[j].fileID)
  }

  /** Whether the disk does what packet number `c` of a transfer asks for. */
  predicate Served(file: SentFile, c: nat, disk: Disk) {
    if c == 0 then disk.openOk
    else disk.fault == None || (c - 1 < |file.ChunkBodies()| && file.ChunkBodies()[c - 1] == [])
  }

  /** Whether it did so for all packets of stream `i` so far. */
  ghost predicate AllServed(file: SentFile, i: nat, sched: seq<nat>, disks: seq<Disk>)
    requires |sched| == |disks|
  {
    sched == [] ||
    var n := |sched| - 1;
    AllServed(file, i, sched[..n], disks[..n]) && (sched[n] == i ==> Served(file, Count(sched[..n], i), disks[n]))
  }

  // --- what the receiver knows about one file ---

  /** The registry entry of a FileID, and the completed files that were announced under it. */
  datatype Slot = Slot(entry: Option<Transfer>, saved: seq<(FileHeader, seq<byte>)>)

  function SavedUnder(saved: seq<Saved>, id: uint32): seq<(FileHeader, seq<byte>)> {
    if saved == [] then []
    else
      var last := saved[|saved| - 1];
      SavedUnder(saved[..|saved| - 1], id) + if last.header.fileID == id then [(last.header, last.content)] else []
  }

  function SlotOf(r: Receiver, id: uint32): Slot {
    Slot(if id in r.transfers then Some(r.transfers[id]) else None, SavedUnder(r.saved, id))
  }

  /**
   The state of a transfer after `c` of its packets; `earlier` is what had been saved under its FileID
   before. While the disk has done its part, the contents are exactly the bodies received so far, so a
   prefix of the file, and the byte count is their length; the last packet moves them to the saved files.
   After a fault the byte count stays behind and nothing is ever saved.
   */
  ghost predicate Status(file: SentFile, c: nat, served: bool, earlier: seq<(FileHeader, seq<byte>)>, slot: Slot)
    requires file.Valid() && c <= 1 + |file.ChunkBodies()|
  {
    if c == 0 then served && slot == Slot(None, earlier)
    else if !served then
      && slot.saved == earlier
      && (slot.entry.Some? ==>
            && slot.entry.value.header == file.Header()
            && slot.entry.value.received < Arrived(file, c - 1))
    else if c <= |file.ChunkBodies()| then
      && slot.saved == earlier
      && slot.entry.Some?
      && slot.entry.value.header == file.Header()
      && slot.entry.value.content == Flatten(file.ChunkBodies()[..c - 1])
      && slot.entry.value.received == Arrived(file, c - 1)
    else slot == Slot(None, earlier + [(file.Header(), file.Data())])
  }

  /** The number of bytes in the first `k` bodies. */
  function Arrived(file: SentFile, k: nat): nat
    requires k <= |file.ChunkBodies()|
  {
    |Flatten(file.ChunkBodies()[..k])|
  }

  /** Bodies only ever add bytes, and only the last one completes the file. */
  lemma ArrivedGrows(file: SentFile, k: nat)
    requires file.Valid() && k < |file.ChunkBodies()|
    ensures var bodies := file.ChunkBodies();
      && Flatten(bodies[..k + 1]) == Flatten(bodies[..k]) + bodies[k]
      && Arrived(file, k + 1) == Arrived(file, k) + |bodies[k]| <= |file.Data()|
      && (k + 1 == |bodies| <==> Arrived(file, k + 1) == |file.Data()|)
      && (k + 1 == |bodies| ==> Flatten(bodies[..k + 1]) == file.Data())
  {
    var bodies := file.ChunkBodies();
    assert bodies[..k + 1] == bodies[..k] + [bodies[k]];
    FlattenSnoc(bodies[..k], bodies[k]);
    assert bodies == bodies[..k + 1] + bodies[k + 1..];
    FlattenAppend(bodies[..k + 1], bodies[k + 1..]);
    ChunkBodiesComplete(file);
    if k + 1 == |bodies| {
      assert bodies[..k + 1] == bodies;
    } else {
      ChunkBodySize(file, k + 1);
      assert bodies[k + 1..] == [bodies[k + 1]] + bodies[k + 2..];
    }
  }

  lemma HeaderStep(file: SentFile, earlier: seq<(FileHeader, seq<byte>)>, r: Receiver, disk: Disk)
    requires file.Valid() && Status(file, 0, true, earlier, SlotOf(r, file.fileID))
    ensures Status(file, 1, disk.openOk, earlier, SlotOf(RecvFile(r, file.Header(), disk.openOk), file.fileID))
  {
    ChunkBodiesComplete(file);
    assert file.ChunkBodies()[..0] == [];
  }

  /** What a chunk does to the slot of its own FileID. */
  function ChunkSlot(slot: Slot, body: seq<byte>, fault: Option<nat>): Slot {
    if slot.entry == None then slot
    else
      var ft := slot.entry.value;
      if |body| > CHUNK_SIZE then slot.(entry := None)
      else if body != [] && fault.Some? then slot.(entry := Some(ft.(content := ft.content + Written(body, fault))))
      else
        var ft' := Extended(ft, body);
        if ft'.received >= ft.header.totalSize then Slot(None, slot.saved + [(ft.header, ft'.content)])
        else slot.(entry := Some(ft'))
  }

  lemma SavedUnderSnoc(saved: seq<Saved>, last: Saved, id: uint32)
    ensures SavedUnder(saved + [last], id) ==
            SavedUnder(saved, id) + if last.header.fileID == id then [(last.header, last.content)] else []
  {
    assert (saved + [last])[..|saved|] == saved;
  }

  lemma OwnSlot(r: Receiver, id: uint32, body: seq<byte>, fault: Option<nat>)
    requires Valid(r)
    ensures SlotOf(AppendChunk(r, id, body, fault), id) == ChunkSlot(SlotOf(r, id), body, fault)
  {
    if id in r.transfers {
      var ft := r.transfers[id];
      SavedUnderSnoc(r.saved, Saved(ft.serial, ft.header, Extended(ft, body).content), id);
    }
  }

  lemma ServedChunk(file: SentFile, c: nat, earlier: seq<(FileHeader, seq<byte>)>, slot: Slot, disk: Disk)
    requires file.Valid() && 0 < c <= |file.ChunkBodies()| && Served(file, c, disk)
    requires Status(file, c, true, earlier, slot)
    ensures Status(file, c + 1, true, earlier, ChunkSlot(slot, file.ChunkBodies()[c - 1], disk.fault))
  {
    hide SentFile.ChunkBodies, Flatten;
    ArrivedGrows(file, c - 1);
    ChunkBodySize(file, c - 1);
  }

  lemma UnservedChunk(file: SentFile, c: nat, served: bool, earlier: seq<(FileHeader, seq<byte>)>, slot: Slot,
                      disk: Disk)
    requires file.Valid() && 0 < c <= |file.ChunkBodies()| && !(served && Served(file, c, disk))
    requires Status(file, c, served, earlier, slot)
    ensures Status(file, c + 1, false, earlier, ChunkSlot(slot, file.ChunkBodies()[c - 1], disk.fault))
  {
    ArrivedGrows(file, c - 1);
    ChunkBodySize(file, c - 1);
    hide SentFile.ChunkBodies, SentFile.Data, Flatten;
  }

  lemma ChunkStep(file: SentFile, c: nat, served: bool, earlier: seq<(FileHeader, seq<byte>)>, r: Receiver, disk: Disk)
    requires Valid(r) && file.Valid() && 0 < c <= |file.ChunkBodies()|
    requires Status(file, c, served, earlier, SlotOf(r, file.fileID))
    ensures Status(file, c + 1, served && Served(file, c, disk), earlier,
                   SlotOf(AppendChunk(r, file.fileID, file.ChunkBodies()[c - 1], disk.fault), file.fileID))
  {
    OwnSlot(r, file.fileID, file.ChunkBodies()[c - 1], disk.fault);
    if served && Served(file, c, disk) {
      ServedChunk(file, c, earlier, SlotOf(r, file.fileID), disk);
    } else {
      UnservedChunk(file, c, served, earlier, SlotOf(r, file.fileID), disk);
    }
  }

  /** A chunk touches the slot of its own FileID only. */
  lemma OtherSlots(r: Receiver, id: uint32, body: seq<byte>, fault: Option<nat>, other: uint32)
    requires Valid(r) && other != id
    ensures SlotOf(AppendChunk(r, id, body, fault), other) == SlotOf(r, other)
  {
  }

  /** Every slot but that of `id` is left alone. */
  ghost predicate OnlySlot(r: Receiver, r': Receiver, id: uint32) {
    forall other: uint32 :: other != id ==> SlotOf(r', other) == SlotOf(r, other)
  }

  lemma ReceiveHeader(file: SentFile, r: Receiver, disk: Disk)
    requires file.Valid() && !r.done
    ensures Receive(r, Start(file.Header()).Bytes(), disk) == RecvFile(r, file.Header(), disk.openOk)
    ensures OnlySlot(r, RecvFile(r, file.Header(), disk.openOk), file.fileID)
  {
    ItemDecodes(Start(file.Header()));
  }

  lemma ReceiveChunk(item: Item, id: uint32, body: seq<byte>, r: Receiver, disk: Disk)
    requires Carries(item, id, body) && Valid(r) && !r.done
    ensures Receive(r, item.Bytes(), disk) == AppendChunk(r, id, body, disk.fault)
    ensures OnlySlot(r, AppendChunk(r, id, body, disk.fault), id)
  {
    ItemDecodes(item);
    forall other: uint32 | other != id
      ensures SlotOf(AppendChunk(r, id, body, disk.fault), other) == SlotOf(r, other)
    {
      OtherSlots(r, id, body, disk.fault, other);
    }
  }

  lemma StillRunning(r: Receiver)
    requires !r.done
    ensures forall fh, openOk :: !RecvFile(r, fh, openOk).done
    ensures forall id, body, fault :: !AppendChunk(r, id, body, fault).done
  {
    hide Extended, Written;
  }

  lemma ServedAtFirst(file: SentFile, served: bool, earlier: seq<(FileHeader, seq<byte>)>, slot: Slot)
    requires file.Valid() && Status(file, 0, served, earlier, slot)
    ensures served
  {
  }

  /** Packet number `c` of a file moves that file one packet further and no other file at all. */
  lemma ItemStep(file: SentFile, c: nat, served: bool, earlier: seq<(FileHeader, seq<byte>)>, r: Receiver, disk: Disk)
    requires file.Valid() && c < |file.Items()|
    requires Valid(r) && !r.done
    requires c <= 1 + |file.ChunkBodies()| && Status(file, c, served, earlier, SlotOf(r, file.fileID))
    ensures var r' := Receive(r, file.Items()[c].Bytes(), disk);
      && Valid(r') && !r'.done && OnlySlot(r, r', file.fileID)
      && c <= |file.ChunkBodies()|
      && Status(file, c + 1, served && Served(file, c, disk), earlier, SlotOf(r', file.fileID))
  {
    hide Status, Receive, RecvFile, AppendChunk, SlotOf, Transfers.Valid, SentFile.Items, SentFile.ChunkBodies;
    ReceiveKeepsValid(r, file.Items()[c].Bytes(), disk);
    ItemsCarry(file);
    StillRunning(r);
    if c == 0 {
      ServedAtFirst(file, served, earlier, SlotOf(r, file.fileID));
      ReceiveHeader(file, r, disk);
      HeaderStep(file, earlier, r, disk);
    } else {
      ReceiveChunk(file.Items()[1 + (c - 1)], file.fileID, file.ChunkBodies()[c - 1], r, disk);
      ChunkStep(file, c, served, earlier, r, disk);
    }
  }

  /** All files of a session are in the state that their own packets so far determine. */
  ghost predicate AllStatus(files: seq<SentFile>, sched: seq<nat>, disks: seq<Disk>, r0: Receiver, r: Receiver)
    requires |sched| == |disks|
  {
    forall i :: 0 <= i < |files| ==> FileStatus(files[i], i, sched, disks, r0, r)
  }

  ghost predicate FileStatus(file: SentFile, i: nat, sched: seq<nat>, disks: seq<Disk>, r0: Receiver, r: Receiver)
    requires |sched| == |disks|
  {
    && file.Valid()
    && Count(sched, i) <= 1 + |file.ChunkBodies()|
    && Status(file, Count(sched, i), AllServed(file, i, sched, disks), SavedUnder(r0.saved, file.fileID),
              SlotOf(r, file.fileID))
  }

  /**
   The main theorem. Start with a running receiver that has no open transfer under any of the FileIDs.
   Whatever the interleaving, and however far it has gone, every file is in the state that its own packets
   alone determine.
   */
  lemma {:induction false} TransfersAreIndependent(
      aead: Aead, files: seq<SentFile>, streams: seq<seq<seq<byte>>>, sched: seq<nat>, r0: Receiver, disks: seq<Disk>)
    requires Traffic(aead, files, streams) && Schedule(streams, sched) && |disks| == |sched|
    requires Valid(r0) && !r0.done && forall i :: 0 <= i < |files| ==> files[i].fileID !in r0.transfers
    ensures var r := Consume(aead, r0, Merge(streams, sched), disks);
      Valid(r) && !r.done && AllStatus(files, sched, disks, r0, r)
  {
    if sched != [] {
      var n := |sched| - 1;
      var front, s := sched[..n], sched[n];
      var packets := Merge(streams, sched);
      assert packets[..n] == Merge(streams, front);
      TransfersAreIndependent(aead, files, streams, front, r0, disks[..n]);
      var r := Consume(aead, r0, Merge(streams, front), disks[..n]);
      assert packets[n] == streams[s][Count(front, s)];
      if s < |files| {
        FilePacket(aead, files, streams, sched, r0, r, disks);
      } else {
        InertChangesNothing(aead, r, packets[n], disks[n]);
        OtherFiles(files, sched, disks, r0, r, r);
      }
    }
  }

  /** The files whose stream did not move keep their status if their slots are left alone. */
  lemma OtherFiles(files: seq<SentFile>, sched: seq<nat>, disks: seq<Disk>, r0: Receiver, r: Receiver, r': Receiver)
    requires sched != [] && |disks| == |sched|
    requires AllStatus(files, sched[..|sched| - 1], disks[..|sched| - 1], r0, r)
    ensures forall i :: 0 <= i < |files| && i != sched[|sched| - 1]
              && SlotOf(r', files[i].fileID) == SlotOf(r, files[i].fileID)
              ==> FileStatus(files[i], i, sched, disks, r0, r')
  {
    hide Status, SavedUnder, Served, SlotOf;
    var n := |sched| - 1;
    forall i | 0 <= i < |files| && i != sched[n] && SlotOf(r', files[i].fileID) == SlotOf(r, files[i].fileID)
      ensures FileStatus(files[i], i, sched, disks, r0, r')
    {
      assert FileStatus(files[i], i, sched[..n], disks[..n], r0, r);
    }
  }

  lemma FilePacket(aead: Aead, files: seq<SentFile>, streams: seq<seq<seq<byte>>>, sched: seq<nat>,
                   r0: Receiver, r: Receiver, disks: seq<Disk>)
    requires Traffic(aead, files, streams) && sched != [] && Schedule(streams, sched) && |disks| == |sched|
    requires Valid(r) && !r.done && AllStatus(files, sched[..|sched| - 1], disks[..|sched| - 1], r0, r)
    requires sched[|sched| - 1] < |files|
    ensures var n, s := |sched| - 1, sched[|sched| - 1];
      var r' := ReceivePacket(aead, r, streams[s][Count(sched[..n], s)], disks[n]);
      Valid(r') && !r'.done && AllStatus(files, sched, disks, r0, r')
  {
    var n, s := |sched| - 1, sched[|sched| - 1];
    var r' := ReceivePacket(aead, r, streams[s][Count(sched[..n], s)], disks[n]);
    FileMoves(aead, files, streams, sched, r0, r, disks);
    OtherFiles(files, sched, disks, r0, r, r');
    forall i | 0 <= i < |files|
      ensures FileStatus(files[i], i, sched, disks, r0, r')
    {
      if i != s {
        DistinctIDs(aead, files, streams, i, s);
      }
    }
  }

  lemma DistinctIDs(aead: Aead, files: seq<SentFile>, streams: seq<seq<seq<byte>>>, i: nat, j: nat)
    requires Traffic(aead, files, streams) && i < |files| && j < |files| && i != j
    ensures files[i].fileID != files[j].fileID
  {
  }

  /** The file whose stream moved. */
  lemma FileMoves(aead: Aead, files: seq<SentFile>, streams: seq<seq<seq<byte>>>, sched: seq<nat>,
                  r0: Receiver, r: Receiver, disks: seq<Disk>)
    requires Traffic(aead, files, streams) && sched != [] && Schedule(streams, sched) && |disks| == |sched|
    requires Valid(r) && !r.done && AllStatus(files, sched[..|sched| - 1], disks[..|sched| - 1], r0, r)
    requires sched[|sched| - 1] < |files|
    ensures var n, s := |sched| - 1, sched[|sched| - 1];
      var r' := ReceivePacket(aead, r, streams[s][Count(sched[..n], s)], disks[n]);
      Valid(r') && !r'.done && FileStatus(files[s], s, sched, disks, r0, r') && OnlySlot(r, r', files[s].fileID)
  {
    var n, s := |sched| - 1, sched[|sched| - 1];
    var c, file := Count(sched[..n], s), files[s];
    assert FileStatus(file, s, sched[..n], disks[..n], r0, r);
    OpenedPacket(aead, files, streams, s, c, r, disks[n]);
    LastMove(file, sched, disks);
    ItemStep(file, c, AllServed(file, s, sched[..n], disks[..n]), SavedUnder(r0.saved, file.fileID), r, disks[n]);
  }

  lemma OpenedPacket(aead: Aead, files: seq<SentFile>, streams: seq<seq<seq<byte>>>, s: nat, c: nat, r: Receiver,
                     disk: Disk)
    requires Traffic(aead, files, streams) && s < |files| && c < |streams[s]| && !r.done
    ensures files[s].Valid() && c < |files[s].Items()|
    ensures ReceivePacket(aead, r, streams[s][c], disk) == Receive(r, files[s].Items()[c].Bytes(), disk)
  {
    assert CarriesFile(aead, streams[s], files[s]);
  }

  lemma LastMove(file: SentFile, sched: seq<nat>, disks: seq<Disk>)
    requires sched != [] && |disks| == |sched|
    ensures var n, s := |sched| - 1, sched[|sched| - 1];
      && Count(sched, s) == Count(sched[..n], s) + 1
      && (AllServed(file, s, sched, disks) <==>
            AllServed(file, s, sched[..n], disks[..n]) && Served(file, Count(sched[..n], s), disks[n]))
  {
  }

  /**
   What the status means to the user. A file is announced as saved exactly when all its packets have come and
   the disk has served each of them, and then under its own header with exactly the bytes that were sent.
   Until then what is on disk is a prefix of the file, as long as the byte count says.
   */
  lemma StatusDecides(file: SentFile, c: nat, served: bool, earlier: seq<(FileHeader, seq<byte>)>, slot: Slot)
    requires file.Valid() && c <= 1 + |file.ChunkBodies()| && Status(file, c, served, earlier, slot)
    ensures slot.saved ==
            if served && c == 1 + |file.ChunkBodies()| then earlier + [(file.Header(), file.Data())] else earlier
    ensures served && slot.entry.Some? ==>
              && slot.entry.value.content <= file.Data()
              && slot.entry.value.received == |slot.entry.value.content|
  {
    if 0 < c <= |file.ChunkBodies()| {
      var bodies := file.ChunkBodies();
      assert bodies == bodies[..c - 1] + bodies[c - 1..];
      FlattenAppend(bodies[..c - 1], bodies[c - 1..]);
    }
    ChunkBodiesComplete(file);
  }

  /** The files announced under a FileID: one more exactly if all its packets came and were served. */
  lemma SavedExactly(files: seq<SentFile>, sched: seq<nat>, disks: seq<Disk>, r0: Receiver, r: Receiver, i: nat)
    requires |sched| == |disks| && AllStatus(files, sched, disks, r0, r)
    requires i < |files| && files[i].Readable()
    ensures SavedUnder(r.saved, files[i].fileID) ==
            SavedUnder(r0.saved, files[i].fileID) + Completed(files[i], i, sched, disks)
  {
    hide SavedUnder, Status, AllServed;
    var file := files[i];
    assert FileStatus(file, i, sched, disks, r0, r);
    ItemsCarry(file);
    StatusDecides(file, Count(sched, i), AllServed(file, i, sched, disks), SavedUnder(r0.saved, file.fileID),
                  SlotOf(r, file.fileID));
  }

  /** What a transfer adds to the saved files. */
  ghost function Completed(file: SentFile, i: nat, sched: seq<nat>, disks: seq<Disk>): seq<(FileHeader, seq<byte>)>
    requires |sched| == |disks| && file.Readable()
  {
    if Count(sched, i) == |file.Items()| && AllServed(file, i, sched, disks) then [(file.Header(), file.Data())] else []
  }

  /** Under each FileID exactly the files that are complete have been added to the saved ones. */
  ghost predicate SavedAsSent(files: seq<SentFile>, sched: seq<nat>, disks: seq<Disk>, before: seq<Saved>,
                              after: seq<Saved>)
    requires |sched| == |disks|
  {
    forall i :: 0 <= i < |files| ==>
      && files[i].Readable()
      && SavedUnder(after, files[i].fileID) ==
         SavedUnder(before, files[i].fileID) + Completed(files[i], i, sched, disks)
  }

  lemma {:induction false} HealthyDiskServes(file: SentFile, i: nat, sched: seq<nat>, disks: seq<Disk>)
    requires |sched| == |disks| && forall disk <- disks :: disk.openOk && disk.fault == None
    ensures AllServed(file, i, sched, disks)
  {
    if sched != [] {
      HealthyDiskServes(file, i, sched[..|sched| - 1], disks[..|disks| - 1]);
    }
  }

  /**
   On a healthy disk every file whose packets have all come is there: closed, out of the registry, and saved
   under its own header with exactly the bytes that were sent.
   */
  lemma CompleteFilesAreSaved(files: seq<SentFile>, sched: seq<nat>, disks: seq<Disk>, r0: Receiver, r: Receiver,
                              i: nat)
    requires |sched| == |disks| && forall disk <- disks :: disk.openOk && disk.fault == None
    requires AllStatus(files, sched, disks, r0, r) && i < |files| && files[i].Readable()
    requires Count(sched, i) == |files[i].Items()|
    ensures files[i].fileID !in r.transfers
    ensures SavedUnder(r.saved, files[i].fileID) ==
            SavedUnder(r0.saved, files[i].fileID) + [(files[i].Header(), files[i].Data())]
  {
    hide SavedUnder;
    assert FileStatus(files[i], i, sched, disks, r0, r);
    HealthyDiskServes(files[i], i, sched, disks);
    ItemsCarry(files[i]);
  }
}
