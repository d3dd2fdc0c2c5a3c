/** The binary wire protocol: packet header, file header and handshake codecs. */
module Protocol {
  import opened Bytes
  import opened Words

  const VERSION: uint8 := 1

  const TYPE_HANDSHAKE: uint8 := 0x01
  const TYPE_MESSAGE: uint8 := 0x02
  const TYPE_FILE_HEADER: uint8 := 0x03
  const TYPE_FILE_CHUNK: uint8 := 0x04
  const TYPE_PING: uint8 := 0x05
  const TYPE_PONG: uint8 := 0x06
  const TYPE_DISCONNECT: uint8 := 0x07
  const TYPE_FILE_EOF: uint8 := 0x08

  const HANDSHAKE_SIZE := 65
  const CHUNK_SIZE := 131072
  const HEADER_SIZE := 9
  const FILE_HEADER_FIXED := 18
  const MAX_NAME := 255

  datatype WireHeader = WireHeader(ptype: uint8, chunkIndex: uint32, fileID: uint32)

  datatype FileHeader = FileHeader(name: seq<byte>, totalSize: uint64, totalChunks: uint32, fileID: uint32)

  type Key = k: seq<byte> | |k| == 32 witness Zeros(32)

  datatype Handshake = Handshake(version: uint8, senderKey: Key, recipientHash: Key)

  datatype Malformed = TooShort | TruncatedName | NameTooLong

  function HeaderBytes(h: WireHeader): (bytes: seq<byte>)
    ensures |bytes| == HEADER_SIZE
  {
    [h.ptype] + Put(h.chunkIndex, 4) + Put(h.fileID, 4)
  }

  /** A payload is a packet header followed by its body. */
  function Payload(h: WireHeader, body: seq<byte>): (payload: seq<byte>)
    ensures |payload| == HEADER_SIZE + |body|
  {
    HeaderBytes(h) + body
  }

  function DecodeHeader(payload: seq<byte>): Result<(WireHeader, seq<byte>), Malformed> {
    if |payload| < HEADER_SIZE then Err(TooShort)
    else Ok((WireHeader(payload[0], Get32(payload[1..5]), Get32(payload[5..9])), payload[9..]))
  }

  function FileHeaderBytes(fh: FileHeader): (bytes: seq<byte>)
    ensures |bytes| == FILE_HEADER_FIXED + |fh.name|
  {
    Put(fh.totalSize, 8) + Put(fh.totalChunks, 4) + Put(fh.fileID, 4) + Put(|fh.name|, 2) + fh.name
  }

  function DecodeFileHeader(data: seq<byte>): Result<FileHeader, Malformed> {
    if |data| < FILE_HEADER_FIXED then Err(TooShort)
    else
      var nameLen := Get16(data[16..18]);
      if 18 + nameLen > |data| then Err(TruncatedName)
      else Ok(FileHeader(data[18..18 + nameLen], Get64(data[0..8]), Get32(data[8..12]), Get32(data[12..16])))
  }

  function HandshakeBytes(h: Handshake): (bytes: seq<byte>)
    ensures |bytes| == HANDSHAKE_SIZE
  {
    [h.version] + h.senderKey + h.recipientHash
  }

  function HandshakeOf(data: seq<byte>): Result<Handshake, Malformed> {
    if |data| < HANDSHAKE_SIZE then Err(TooShort)
    else Ok(Handshake(data[0], data[1..33], data[33..65]))
  }

  /** Decoding inverts building, for every header and body. */
  lemma DecodePayload(h: WireHeader, body: seq<byte>)
    ensures DecodeHeader(Payload(h, body)) == Ok((h, body))
  {
    var payload := Payload(h, body);
    GetPut(h.chunkIndex);
    GetPut(h.fileID);
    assert payload[1..5] == Put(h.chunkIndex, 4);
    assert payload[5..9] == Put(h.fileID, 4);
    assert payload[9..] == body;
  }

  /** Building inverts decoding: a payload decodes exactly when it has nine bytes, and nothing is lost. */
  lemma RebuildPayload(payload: seq<byte>)
    ensures DecodeHeader(payload).Ok? <==> exists h, body :: payload == Payload(h, body)
    ensures DecodeHeader(payload).Ok? ==>
              Payload(DecodeHeader(payload).value.0, DecodeHeader(payload).value.1) == payload
  {
    if |payload| >= HEADER_SIZE {
      var (h, body) := DecodeHeader(payload).value;
      PutGet(payload[1..5]);
      PutGet(payload[5..9]);
      assert payload == [payload[0]] + payload[1..5] + payload[5..9] + payload[9..];
      assert payload == Payload(h, body);
    }
  }

  /** Decoding inverts encoding of a file header, even with trailing bytes, up to the 16-bit length field. */
  lemma DecodeFileHeaderBytes(fh: FileHeader, trailing: seq<byte>)
    requires |fh.name| < 0x1_0000
    ensures DecodeFileHeader(FileHeaderBytes(fh) + trailing) == Ok(fh)
  {
    var data := FileHeaderBytes(fh) + trailing;
    GetPut(fh.totalSize);
    GetPut(fh.totalChunks);
    GetPut(fh.fileID);
    GetPut(|fh.name|);
    assert data[0..8] == Put(fh.totalSize, 8);
    assert data[8..12] == Put(fh.totalChunks, 4);
    assert data[12..16] == Put(fh.fileID, 4);
    assert data[16..18] == Put(|fh.name|, 2);
    assert data[18..18 + |fh.name|] == fh.name;
  }

  /** Re-encoding a decoded file header gives back exactly the bytes that were consumed. */
  lemma RebuildFileHeader(data: seq<byte>)
    requires DecodeFileHeader(data).Ok?
    ensures var fh := DecodeFileHeader(data).value;
      FileHeaderBytes(fh) == data[..FILE_HEADER_FIXED + |fh.name|]
  {
    var fh := DecodeFileHeader(data).value;
    PutGet(data[0..8]);
    PutGet(data[8..12]);
    PutGet(data[12..16]);
    PutGet(data[16..18]);
    Join(data, 0, 8);
    Join(data, 8, 12);
    Join(data, 12, 16);
    Join(data, 16, 18);
    Join(data, 18, 18 + |fh.name|);
  }

  lemma DecodeHandshakeBytes(h: Handshake, trailing: seq<byte>)
    ensures HandshakeOf(HandshakeBytes(h) + trailing) == Ok(h)
  {
    var data := HandshakeBytes(h) + trailing;
    assert data[1..33] == h.senderKey;
    assert data[33..65] == h.recipientHash;
  }

  lemma RebuildHandshake(data: seq<byte>)
    ensures HandshakeOf(data).Ok? <==> |data| >= HANDSHAKE_SIZE
    ensures HandshakeOf(data).Ok? ==> HandshakeBytes(HandshakeOf(data).value) == data[..HANDSHAKE_SIZE]
  {
    if |data| >= HANDSHAKE_SIZE {
      assert data[..65] == [data[0]] + data[1..33] + data[33..65];
    }
  }

  // --- where the fields are ---

  /** The packet type is the first byte; chunk index and FileID are the two words behind it. */
  lemma PayloadLayout(p: seq<byte>)
    ensures DecodeHeader(p).Ok? <==> |p| >= 9
    ensures |p| >= 9 ==>
              var (h, body) := DecodeHeader(p).value;
              && h.ptype == p[0]
              && h.chunkIndex == Four(p[1], p[2], p[3], p[4])
              && h.fileID == Four(p[5], p[6], p[7], p[8])
              && body == p[9..]
  {
    if |p| >= 9 {
      BigEndian(p[1..5]);
      BigEndian(p[5..9]);
    }
  }

  /**
   A file header is the size in eight bytes, the number of chunks and the FileID in four each, and the name behind
   its length in two. It is rejected only if it is shorter than that, and the error says where it ends.
   */
  lemma FileHeaderLayout(d: seq<byte>)
    ensures |d| < 18 <==> DecodeFileHeader(d) == Err(TooShort)
    ensures |d| >= 18 ==>
              var n := Two(d[16], d[17]);
              if 18 + n > |d| then DecodeFileHeader(d) == Err(TruncatedName)
              else
                && DecodeFileHeader(d).Ok?
                && var fh := DecodeFileHeader(d).value;
                && fh.totalSize == Four(d[0], d[1], d[2], d[3]) * 0x1_0000_0000 + Four(d[4], d[5], d[6], d[7])
                && fh.totalChunks == Four(d[8], d[9], d[10], d[11])
                && fh.fileID == Four(d[12], d[13], d[14], d[15])
                && fh.name == d[18..18 + n]
  {
    if |d| >= 18 {
      BigEndian(d[16..18]);
      BigEndian(d[0..8]);
      BigEndian(d[0..8][..4]);
      BigEndian(d[0..8][4..]);
      BigEndian(d[8..12]);
      BigEndian(d[12..16]);
    }
  }

  /** These bytes are a header with these fields and then this body. */
  predicate LaidOut(p: seq<byte>, ptype: nat, chunkIndex: nat, fileID: nat, body: seq<byte>) {
    && |p| == 9 + |body|
    && p[0] == ptype
    && Four(p[1], p[2], p[3], p[4]) == chunkIndex
    && Four(p[5], p[6], p[7], p[8]) == fileID
    && p[9..] == body
  }

  lemma PayloadLaidOut(h: WireHeader, body: seq<byte>)
    ensures LaidOut(Payload(h, body), h.ptype, h.chunkIndex, h.fileID, body)
  {
    DecodePayload(h, body);
    PayloadLayout(Payload(h, body));
  }

  /** These bytes are a file header with these fields. */
  predicate FileHeaderLaidOut(d: seq<byte>, fh: FileHeader) {
    && |d| == 18 + |fh.name|
    && Four(d[0], d[1], d[2], d[3]) * 0x1_0000_0000 + Four(d[4], d[5], d[6], d[7]) == fh.totalSize
    && Four(d[8], d[9], d[10], d[11]) == fh.totalChunks
    && Four(d[12], d[13], d[14], d[15]) == fh.fileID
    && Two(d[16], d[17]) == |fh.name|
    && d[18..] == fh.name
  }

  lemma EncodedFileHeader(fh: FileHeader)
    requires |fh.name| < 0x1_0000
    ensures FileHeaderLaidOut(FileHeaderBytes(fh), fh)
  {
    var d := FileHeaderBytes(fh);
    assert d + [] == d;
    DecodeFileHeaderBytes(fh, []);
    FileHeaderLayout(d);
    GetPut(|fh.name|);
    assert d[16..18] == Put(|fh.name|, 2);
    BigEndian(d[16..18]);
  }

  method EncodeHeader(h: WireHeader) returns (buf: array<byte>)
    ensures fresh(buf) && buf[..] == HeaderBytes(h)
    ensures LaidOut(buf[..], h.ptype, h.chunkIndex, h.fileID, [])
  {
    PayloadLaidOut(h, []);
    assert HeaderBytes(h) + [] == HeaderBytes(h);
    buf := new byte[HEADER_SIZE](_ => 0);
    buf[0] := h.ptype;
    PutUint(buf, 1, 4, h.chunkIndex);
    PutUint(buf, 5, 4, h.fileID);
    assert buf[..] == [h.ptype] + Put(h.chunkIndex, 4) + Put(h.fileID, 4);
  }

  method BuildPayload(h: WireHeader, data: seq<byte>) returns (out: array<byte>)
    ensures fresh(out) && out[..] == Payload(h, data)
  {
    var hdr := EncodeHeader(h);
    out := new byte[hdr.Length + |data|](_ => 0);
    Copy(out, 0, hdr[..]);
    Copy(out, hdr.Length, data);
  }

  method BuildMessage(ptype: uint8, data: seq<byte>) returns (out: array<byte>)
    ensures fresh(out) && out[..] == Payload(WireHeader(ptype, 0, 0), data)
    ensures LaidOut(out[..], ptype, 0, 0, data)
  {
    PayloadLaidOut(WireHeader(ptype, 0, 0), data);
    out := BuildPayload(WireHeader(ptype, 0, 0), data);
  }

  method BuildFileChunk(fileID: uint32, chunkIndex: uint32, data: seq<byte>) returns (out: array<byte>)
    ensures fresh(out) && out[..] == Payload(WireHeader(TYPE_FILE_CHUNK, chunkIndex, fileID), data)
    ensures LaidOut(out[..], 0x04, chunkIndex, fileID, data)
  {
    PayloadLaidOut(WireHeader(TYPE_FILE_CHUNK, chunkIndex, fileID), data);
    out := BuildPayload(WireHeader(TYPE_FILE_CHUNK, chunkIndex, fileID), data);
  }

  method BuildFileEOF(fileID: uint32) returns (out: array<byte>)
    ensures fresh(out) && out[..] == Payload(WireHeader(TYPE_FILE_EOF, 0, fileID), [])
    ensures LaidOut(out[..], 0x08, 0, fileID, [])
  {
    out := EncodeHeader(WireHeader(TYPE_FILE_EOF, 0, fileID));
  }

  method EncodeFileHeader(fh: FileHeader) returns (result: Result<seq<byte>, Malformed>)
    ensures result == if |fh.name| > MAX_NAME then Err(NameTooLong) else Ok(FileHeaderBytes(fh))
    ensures |fh.name| <= 255 <==> result.Ok?
    ensures result.Ok? ==> FileHeaderLaidOut(result.value, fh)
  {
    hide FileHeaderLaidOut;
    if |fh.name| > 255 {
      return Err(NameTooLong);
    }
    EncodedFileHeader(fh);
    var buf := new byte[8 + 4 + 4 + 2 + |fh.name|](_ => 0);
    ghost var done: seq<byte> := Put(fh.totalSize, 8);
    FillUint(buf, [], 0, 8, fh.totalSize);
    FillUint(buf, done, 8, 4, fh.totalChunks);
    done := done + Put(fh.totalChunks, 4);
    FillUint(buf, done, 12, 4, fh.fileID);
    done := done + Put(fh.fileID, 4);
    FillUint(buf, done, 16, 2, |fh.name|);
    done := done + Put(|fh.name|, 2);
    FillCopy(buf, done, 18, fh.name);
    assert buf[..] == buf[..18 + |fh.name|];
    result := Ok(buf[..]);
  }

  method EncodeHandshake(h: Handshake) returns (buf: array<byte>)
    ensures fresh(buf) && buf[..] == HandshakeBytes(h)
    ensures buf.Length == 65 && buf[0] == h.version && buf[1..33] == h.senderKey && buf[33..65] == h.recipientHash
  {
    buf := new byte[HANDSHAKE_SIZE](_ => 0);
    buf[0] := h.version;
    Copy(buf, 1, h.senderKey);
    Copy(buf, 33, h.recipientHash);
    assert buf[..] == [h.version] + h.senderKey + h.recipientHash;
  }

  /** The decoder fills the two key fields in place. */
  method DecodeHandshake(data: seq<byte>) returns (result: Result<Handshake, Malformed>)
    ensures result == HandshakeOf(data)
    ensures result.Ok? <==> |data| >= 65
    ensures |data| >= 65 ==> result == Ok(Handshake(data[0], data[1..33], data[33..65]))
  {
    if |data| < HANDSHAKE_SIZE {
      return Err(TooShort);
    }
    var senderKey := new byte[32](_ => 0);
    var recipientHash := new byte[32](_ => 0);
    Copy(senderKey, 0, data[1..33]);
    Copy(recipientHash, 0, data[33..65]);
    assert senderKey[..] == data[1..33] && recipientHash[..] == data[33..65];
    result := Ok(Handshake(data[0], senderKey[..], recipientHash[..]));
  }
}
