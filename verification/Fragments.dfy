/** What the sender puts on the wire for one file: read blocks, cut into bodies, wrapped in payloads. */
module Fragments {
  import opened Bytes
  import opened Words
  import opened Protocol
  import Cipher

  /** The largest body that still fits a packet together with its header: 4057 bytes. */
  const MAX_BODY := Cipher.MAX_PLAINTEXT - HEADER_SIZE

  /** What one packet of a transfer says. */
  datatype Item = Start(header: FileHeader) | Chunk(fileID: uint32, index: uint32, body: seq<byte>) {
    function Bytes(): seq<byte> {
      match this
      case Start(header) => Payload(WireHeader(TYPE_FILE_HEADER, 0, 0), FileHeaderBytes(header))
      case Chunk(fileID, index, body) => Payload(WireHeader(TYPE_FILE_CHUNK, index, fileID), body)
    }
  }

  /** A file being sent: its blocks are what the successive reads of the file returned. */
  datatype SentFile = SentFile(fileID: uint32, name: seq<byte>, blocks: seq<seq<byte>>) {
    function Data(): seq<byte> {
      Flatten(blocks)
    }

    /** What the operating system guarantees: a 63-bit size, and reads of up to a buffer each. */
    predicate Readable() {
      && |Data()| < 0x8000_0000_0000_0000
      && forall block <- blocks :: 0 < |block| <= CHUNK_SIZE
    }

    /** A file whose header can be encoded as well. */
    predicate Valid() {
      Readable() && |name| <= MAX_NAME
    }

    function Header(): FileHeader
      requires Readable()
    {
      FileHeader(name, |Data()|, TotalChunks(|Data()|), fileID)
    }

    /** The chunk bodies, in order; an empty file still sends one empty body. */
    function ChunkBodies(): seq<seq<byte>> {
      if Data() == [] then [[]] else BlockBodies(blocks)
    }

    /** All packets of the transfer, in order. */
    function Items(): seq<Item>
      requires Readable()
    {
      [Start(Header())] + if Data() == [] then [Chunk(fileID, 0, [])] else BlockItems(fileID, 0, blocks)
    }
  }

  /** The counter of read blocks is a 32-bit word. */
  function NextIndex(index: uint32): uint32 {
    if index == 0xFFFF_FFFF then 0 else index + 1
  }

  /** The packets of the given blocks, the first of which has the given chunk index. */
  function BlockItems(fileID: uint32, first: uint32, blocks: seq<seq<byte>>): seq<Item>
    decreases blocks
  {
    if blocks == [] then []
    else BodyItems(fileID, first, Bodies(blocks[0])) + BlockItems(fileID, NextIndex(first), blocks[1..])
  }

  function BodyItems(fileID: uint32, index: uint32, bodies: seq<seq<byte>>): (items: seq<Item>)
    ensures |items| == |bodies|
  {
    seq(|bodies|, i requires 0 <= i < |bodies| => Chunk(fileID, index, bodies[i]))
  }

  /** The announced number of blocks, in the arithmetic of `int64` and `uint32`. */
  function TotalChunks(size: nat): uint32 {
    if size == 0 then 1 else Word32(TruncDiv(Int64(Int64(Int64(size) + CHUNK_SIZE) - 1), CHUNK_SIZE))
  }

  /** The bodies one block is cut into. */
  function Bodies(data: seq<byte>): (bodies: seq<seq<byte>>)
    ensures forall body <- bodies :: 0 < |body| <= MAX_BODY
    ensures data == [] <==> bodies == []
  {
    if data == [] then []
    else
      var end := if MAX_BODY > |data| then |data| else MAX_BODY;
      [data[..end]] + Bodies(data[end..])
  }

  function BlockBodies(blocks: seq<seq<byte>>): (bodies: seq<seq<byte>>)
    ensures forall body <- bodies :: 0 < |body| <= MAX_BODY
  {
    if blocks == [] then [] else Bodies(blocks[0]) + BlockBodies(blocks[1..])
  }

  function CeilDiv(n: nat, d: nat): nat
    requires d > 0
  {
    (n + d - 1) / d
  }

  lemma BodyCount(n: nat)
    ensures n == 0 ==> CeilDiv(n, MAX_BODY) == 0
    ensures 0 < n <= MAX_BODY ==> CeilDiv(n, MAX_BODY) == 1
    ensures n > MAX_BODY ==> CeilDiv(n, MAX_BODY) == 1 + CeilDiv(n - MAX_BODY, MAX_BODY)
  {
  }

  /** Cutting loses and duplicates nothing; all pieces are of the full size, except that the last may be shorter. */
  lemma {:induction false} BodiesComplete(data: seq<byte>)
    ensures Flatten(Bodies(data)) == data
    ensures |Bodies(data)| == CeilDiv(|data|, MAX_BODY)
    ensures forall i :: 0 <= i < |Bodies(data)| - 1 ==> |Bodies(data)[i]| == 4057
    ensures forall body <- Bodies(data) :: 0 < |body| <= 4057
  {
    BodyCount(|data|);
    if data != [] {
      var end := if MAX_BODY > |data| then |data| else MAX_BODY;
      var front, back := data[..end], data[end..];
      BodiesComplete(back);
      assert Bodies(data) == [front] + Bodies(back);
      assert data == front + back;
    }
  }

  lemma {:induction false} BlockBodiesComplete(blocks: seq<seq<byte>>)
    ensures Flatten(BlockBodies(blocks)) == Flatten(blocks)
  {
    if blocks != [] {
      BodiesComplete(blocks[0]);
      BlockBodiesComplete(blocks[1..]);
      FlattenAppend(Bodies(blocks[0]), BlockBodies(blocks[1..]));
    }
  }

  /** The bodies of a transfer concatenate to the file; only an empty file has an empty body. */
  lemma ChunkBodiesComplete(file: SentFile)
    ensures Flatten(file.ChunkBodies()) == file.Data()
    ensures file.ChunkBodies() != []
    ensures file.Data() != [] ==> forall body <- file.ChunkBodies() :: 0 < |body| <= MAX_BODY
  {
    if file.Data() == [] {
      var empty: seq<byte> := [];
      assert Flatten([empty]) == empty + Flatten([]);
    } else {
      BlockBodiesComplete(file.blocks);
    }
  }

  /** The item is a chunk of the given transfer with the given body. */
  ghost predicate Carries(item: Item, fileID: uint32, body: seq<byte>) {
    item.Chunk? && item.fileID == fileID && item.body == body
  }

  lemma {:induction false} BlockItemsCarry(fileID: uint32, first: uint32, blocks: seq<seq<byte>>)
    ensures |BlockItems(fileID, first, blocks)| == |BlockBodies(blocks)|
    ensures forall i :: 0 <= i < |BlockBodies(blocks)| ==>
              Carries(BlockItems(fileID, first, blocks)[i], fileID, BlockBodies(blocks)[i])
    decreases blocks
  {
    if blocks != [] {
      BlockItemsCarry(fileID, NextIndex(first), blocks[1..]);
    }
  }

  /** The chunks of each block, under the number of the block as a 32-bit word. */
  function IndexedItems(fileID: uint32, first: nat, blocks: seq<seq<byte>>): seq<seq<Item>> {
    seq(|blocks|, b requires 0 <= b < |blocks| => BodyItems(fileID, Word32(first + b), Bodies(blocks[b])))
  }

  lemma IndexedTail(fileID: uint32, first: nat, blocks: seq<seq<byte>>)
    requires blocks != []
    ensures var parts := IndexedItems(fileID, first, blocks);
      && parts[0] == BodyItems(fileID, Word32(first), Bodies(blocks[0]))
      && parts[1..] == IndexedItems(fileID, first + 1, blocks[1..])
  {
    hide Bodies, BodyItems, Word32;
  }

  /** The running 32-bit counter numbers the blocks. */
  lemma {:induction false} BlockItemsIndexed(fileID: uint32, first: nat, blocks: seq<seq<byte>>)
    ensures BlockItems(fileID, Word32(first), blocks) == Flatten(IndexedItems(fileID, first, blocks))
    decreases blocks
  {
    if blocks != [] {
      BlockItemsIndexed(fileID, first + 1, blocks[1..]);
      IndexedTail(fileID, first, blocks);
      NextWord(first);
      hide IndexedItems, BodyItems, Bodies, Word32, NextIndex;
    }
  }

  lemma NextWord(n: nat)
    ensures NextIndex(Word32(n)) == Word32(n + 1)
  {
  }

  /**
   The packets of a transfer are its header and then one chunk per body, in order; each chunk carries the
   number of the block that its body was cut from.
   */
  lemma ItemsCarry(file: SentFile)
    requires file.Readable()
    ensures |file.Items()| == 1 + |file.ChunkBodies()|
    ensures file.Items()[0] == Start(file.Header())
    ensures forall i :: 0 <= i < |file.ChunkBodies()| ==>
              Carries(file.Items()[1 + i], file.fileID, file.ChunkBodies()[i])
    ensures file.Items()[1..] ==
              if file.Data() == [] then [Chunk(file.fileID, 0, [])]
              else Flatten(IndexedItems(file.fileID, 0, file.blocks))
  {
    if file.Data() != [] {
      BlockItemsCarry(file.fileID, 0, file.blocks);
      BlockItemsIndexed(file.fileID, 0, file.blocks);
    }
  }

  lemma LastOfFlatten<T>(parts: seq<seq<T>>)
    requires parts != [] && parts[|parts| - 1] != []
    ensures var whole, last := Flatten(parts), parts[|parts| - 1];
      whole != [] && whole[|whole| - 1] == last[|last| - 1]
  {
    var n := |parts| - 1;
    assert parts == parts[..n] + [parts[n]];
    FlattenSnoc(parts[..n], parts[n]);
  }

  /** The last of several packets is a chunk with this index. */
  predicate EndsAt(items: seq<Item>, index: uint32) {
    |items| > 1 && items[|items| - 1].Chunk? && items[|items| - 1].index == index
  }

  /** The last packet of a file carries the number of its last block. */
  lemma LastIndex(file: SentFile)
    requires file.Readable() && file.Data() != []
    ensures file.blocks != [] && EndsAt(file.Items(), Word32(|file.blocks| - 1))
  {
    NoBlocksNoData(file);
    hide SentFile.Items, SentFile.Data, SentFile.ChunkBodies, IndexedItems, Word32, Flatten, Carries, EndsAt;
    ItemsCarry(file);
    LastPart(file.fileID, file.blocks);
    TailEnds(file.Items(), IndexedItems(file.fileID, 0, file.blocks), Word32(|file.blocks| - 1));
  }

  lemma TailEnds(items: seq<Item>, parts: seq<seq<Item>>, index: uint32)
    requires items != [] && items[1..] == Flatten(parts) && parts != []
    requires var last := parts[|parts| - 1]; last != [] && last[|last| - 1].Chunk? && last[|last| - 1].index == index
    ensures EndsAt(items, index)
  {
    LastOfFlatten(parts);
    hide Flatten;
    assert items[1..][|items| - 2] == items[|items| - 1];
  }

  lemma NoBlocksNoData(file: SentFile)
    requires file.Data() != []
    ensures file.blocks != []
  {
  }

  lemma LastPart(fileID: uint32, blocks: seq<seq<byte>>)
    requires blocks != [] && forall block <- blocks :: block != []
    ensures var parts := IndexedItems(fileID, 0, blocks);
      && |parts| == |blocks| && var last := parts[|parts| - 1];
      && last != [] && last[|last| - 1].Chunk? && last[|last| - 1].index == Word32(|blocks| - 1)
  {
    hide Word32;
    assert blocks[|blocks| - 1] in blocks;
  }

  /** The receiver reads from a packet what the sender put into it. */
  lemma ItemDecodes(item: Item)
    requires item.Start? ==> |item.header.name| <= MAX_NAME
    ensures item.Start? ==>
              && DecodeHeader(item.Bytes()) == Ok((WireHeader(TYPE_FILE_HEADER, 0, 0), FileHeaderBytes(item.header)))
              && DecodeFileHeader(FileHeaderBytes(item.header)) == Ok(item.header)
    ensures item.Chunk? ==>
              DecodeHeader(item.Bytes()) == Ok((WireHeader(TYPE_FILE_CHUNK, item.index, item.fileID), item.body))
  {
    match item
    case Start(header) =>
      DecodePayload(WireHeader(TYPE_FILE_HEADER, 0, 0), FileHeaderBytes(header));
      DecodeFileHeaderBytes(header, []);
      assert FileHeaderBytes(header) + [] == FileHeaderBytes(header);
    case Chunk(fileID, index, body) =>
      DecodePayload(WireHeader(TYPE_FILE_CHUNK, index, fileID), body);
  }

  lemma ChunkBodySize(file: SentFile, i: nat)
    requires i < |file.ChunkBodies()|
    ensures |file.ChunkBodies()[i]| <= MAX_BODY
    ensures file.Data() != [] ==> file.ChunkBodies()[i] != []
  {
    ChunkBodiesComplete(file);
    assert file.ChunkBodies()[i] in file.ChunkBodies();
  }

  /** Every packet of a transfer fits, so sealing never refuses one of them. */
  lemma ItemsFit(file: SentFile)
    requires file.Valid()
    ensures forall j :: 0 <= j < |file.Items()| ==> |file.Items()[j].Bytes()| <= Cipher.MAX_PLAINTEXT
  {
    ItemsCarry(file);
    forall j | 0 <= j < |file.Items()|
      ensures |file.Items()[j].Bytes()| <= Cipher.MAX_PLAINTEXT
    {
      if j > 0 {
        ChunkBodySize(file, j - 1);
        assert Carries(file.Items()[1 + (j - 1)], file.fileID, file.ChunkBodies()[j - 1]);
      }
    }
  }

  /** Every read but the last fills the buffer. */
  ghost predicate FullReads(blocks: seq<seq<byte>>) {
    && (forall i :: 0 <= i < |blocks| - 1 ==> |blocks[i]| == CHUNK_SIZE)
    && (blocks != [] ==> 0 < |blocks[|blocks| - 1]| <= CHUNK_SIZE)
  }

  lemma WholeBlock(rest: nat)
    ensures CeilDiv(CHUNK_SIZE + rest, CHUNK_SIZE) == 1 + CeilDiv(rest, CHUNK_SIZE)
    ensures (CHUNK_SIZE + rest) / CHUNK_SIZE == 1 + rest / CHUNK_SIZE
    ensures (CHUNK_SIZE + rest) % CHUNK_SIZE == rest % CHUNK_SIZE
    ensures CeilDiv(CHUNK_SIZE, MAX_BODY) == 33
  {
  }

  lemma {:induction false} FullReadCounts(blocks: seq<seq<byte>>)
    requires FullReads(blocks)
    ensures |blocks| == CeilDiv(|Flatten(blocks)|, CHUNK_SIZE)
    ensures |BlockBodies(blocks)| ==
            33 * (|Flatten(blocks)| / CHUNK_SIZE) + CeilDiv(|Flatten(blocks)| % CHUNK_SIZE, MAX_BODY)
  {
    if blocks != [] {
      var first, rest := blocks[0], blocks[1..];
      BodiesComplete(first);
      FullReadCounts(rest);
      WholeBlock(|Flatten(rest)|);
      assert |Flatten(blocks)| == |first| + |Flatten(rest)|;
      assert |BlockBodies(blocks)| == |Bodies(first)| + |BlockBodies(rest)|;
      if |first| < CHUNK_SIZE {
        assert rest == [];
        LastBlock(|first|);
      }
    }
  }

  lemma LastBlock(n: nat)
    requires 0 < n < CHUNK_SIZE
    ensures CeilDiv(n, CHUNK_SIZE) == 1 && n / CHUNK_SIZE == 0 && n % CHUNK_SIZE == n
  {
  }

  /** The largest size for which the sum in the announced number of blocks does not overflow. */
  const MAX_COUNTED := 0x8000_0000_0000_0000 - CHUNK_SIZE

  /** The announced number of blocks is the true one as a 32-bit word, unless the sum has wrapped around. */
  lemma TotalChunksExact(size: nat)
    requires 0 < size < 0x8000_0000_0000_0000
    ensures TotalChunks(size) == Word32(CeilDiv(size, CHUNK_SIZE)) <==> size <= MAX_COUNTED + 1
    ensures size > MAX_COUNTED ==> CeilDiv(size, CHUNK_SIZE) == 0x4000_0000_0000
  {
    var sum := Int64(Int64(Int64(size) + CHUNK_SIZE) - 1);
    if size <= MAX_COUNTED {
      assert sum == size + CHUNK_SIZE - 1;
    } else {
      assert sum == size + CHUNK_SIZE - 1 - 0x1_0000_0000_0000_0000;
      WrappedQuotient(0x1_0000_0000_0000_0000 - (size + CHUNK_SIZE - 1), size);
    }
  }

  lemma WrappedQuotient(n: nat, size: nat)
    requires n == 0x1_0000_0000_0000_0000 - (size + CHUNK_SIZE - 1) && MAX_COUNTED < size < 0x8000_0000_0000_0000
    ensures n / CHUNK_SIZE == if size == MAX_COUNTED + 1 then 0x4000_0000_0000 else 0x3FFF_FFFF_FFFF
    ensures CeilDiv(size, CHUNK_SIZE) == 0x4000_0000_0000
  {
  }

  /**
   What the header of a file announces: the name of the file, its size, its FileID, and one chunk for an empty file.
   For any other it is the number of chunks of 131072 bytes that hold the file, while that fits 32 bits.
   */
  lemma HeaderTells(file: SentFile)
    requires file.Readable()
    ensures var h, size := file.Header(), |file.Data()|;
      && h.name == file.name && h.totalSize == size && h.fileID == file.fileID
      && (size == 0 ==> h.totalChunks == 1)
      && (0 < size <= 0xFFFF_FFFF * 131072 ==> (h.totalChunks - 1) * 131072 < size <= h.totalChunks * 131072)
  {
    var size := |file.Data()|;
    if 0 < size <= 0xFFFF_FFFF * 131072 {
      TotalChunksExact(size);
      FitsWord(CeilDiv(size, CHUNK_SIZE));
    }
  }

  /**
   With full reads a non-empty file takes 33 packets for each whole block and as many as needed for the
   remainder. The counter of blocks, which is one more than the index of the last packet, ends at the announced
   TotalChunks exactly for the sizes up to 2^63 - 131071; and that is the number of blocks itself exactly as
   long as it fits 32 bits.
   */
  lemma ChunkPacketCount(file: SentFile)
    requires file.Valid() && FullReads(file.blocks) && file.Data() != []
    ensures var size, items := |file.Data()|, file.Items();
      && |items| - 1 == 33 * (size / CHUNK_SIZE) + CeilDiv(size % CHUNK_SIZE, MAX_BODY)
      && items[|items| - 1].Chunk?
      && (NextIndex(items[|items| - 1].index) == file.Header().totalChunks <==> size <= MAX_COUNTED + 1)
      && (file.Header().totalChunks == |file.blocks| <==> CeilDiv(size, CHUNK_SIZE) < 0x1_0000_0000)
  {
    FullReadCounts(file.blocks);
    ItemsCarry(file);
    LastIndex(file);
    hide SentFile.Items, TotalChunks, FullReads;
    var n := CeilDiv(|file.Data()|, CHUNK_SIZE);
    NextWord(n - 1);
    FitsWord(n);
    TotalChunksExact(|file.Data()|);
  }

  lemma FitsWord(n: nat)
    ensures Word32(n) == n <==> n < 0x1_0000_0000
  {
  }
}
