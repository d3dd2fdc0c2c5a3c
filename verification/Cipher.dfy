/**
 Fixed-size packets around an abstract AEAD. ChaCha20-Poly1305 itself (section 2.8 of RFC 7539) is not
 modelled: an `Aead` is any pair of functions, and the law it is expected to obey is a hypothesis.
 */
module Cipher {
  import opened Bytes
  import opened Words

  const PACKET_SIZE := 4096
  const NONCE_SIZE := 12
  const TAG_SIZE := 16
  const KEY_SIZE := 32
  const INNER_SIZE := 4068
  const MAX_PLAINTEXT := 4066

  datatype Aead = Aead(
    seal: (seq<byte>, seq<byte>) -> seq<byte>,
    open: (seq<byte>, seq<byte>) -> Option<seq<byte>>
  )

  /** Opening inverts sealing, and a seal is sixteen bytes longer than what it seals. */
  ghost predicate Lawful(aead: Aead) {
    forall nonce, plain :: |nonce| == NONCE_SIZE ==>
      && |aead.seal(nonce, plain)| == |plain| + TAG_SIZE
      && aead.open(nonce, aead.seal(nonce, plain)) == Some(plain)
  }

  /** The hypothesis can be met: a tag of zeros around the plaintext itself is such a pair. */
  lemma LawfulExists() returns (aead: Aead)
    ensures Lawful(aead)
  {
    aead := Aead(
      (nonce, plain) => plain + Zeros(16),
      (nonce, sealed) => if |sealed| < 16 then None else Some(sealed[..|sealed| - 16])
    );
    forall nonce: seq<byte>, plain: seq<byte> | |nonce| == 12
      ensures |aead.seal(nonce, plain)| == |plain| + 16
      ensures aead.open(nonce, aead.seal(nonce, plain)) == Some(plain)
    {
      assert (plain + Zeros(16))[..|plain|] == plain;
    }
  }

  type Block = s: seq<byte> | |s| == INNER_SIZE witness Zeros(INNER_SIZE)

  type Nonce = s: seq<byte> | |s| == NONCE_SIZE witness Zeros(NONCE_SIZE)

  /** What one call draws from the system's random source; `None` where a read fails. */
  datatype Entropy = Entropy(padding: Option<Block>, nonce: Option<Nonce>)

  datatype SealError = TooLarge | NoPadding | NoNonce

  datatype OpenError = WrongSize | NotAuthentic | InnerTooShort | BadLength

  /** Length prefix, plaintext, padding: always `INNER_SIZE` bytes. */
  function InnerBlock(plain: seq<byte>, padding: Block): (inner: seq<byte>)
    requires |plain| <= MAX_PLAINTEXT
    ensures |inner| == INNER_SIZE
  {
    Put(|plain|, 2) + plain + padding[2 + |plain|..]
  }

  function Sealed(aead: Aead, plain: seq<byte>, entropy: Entropy): Result<seq<byte>, SealError>
  {
    if |plain| > MAX_PLAINTEXT then Err(TooLarge)
    else if entropy.padding == None then Err(NoPadding)
    else if entropy.nonce == None then Err(NoNonce)
    else
      var nonce := entropy.nonce.value;
      Ok(nonce + aead.seal(nonce, InnerBlock(plain, entropy.padding.value)))
  }

  function Opened(aead: Aead, packet: seq<byte>): Result<seq<byte>, OpenError> {
    if |packet| != PACKET_SIZE then Err(WrongSize)
    else
      match aead.open(packet[..NONCE_SIZE], packet[NONCE_SIZE..])
      case None => Err(NotAuthentic)
      case Some(inner) =>
        if |inner| < 2 then Err(InnerTooShort)
        else
          var origLen := Get16(inner[0..2]);
          if origLen > |inner| - 2 then Err(BadLength) else Ok(inner[2..2 + origLen])
  }

  /**
   Sealing succeeds exactly when the plaintext fits and the random source delivers, the packet is
   always 4096 bytes, and opening it gives the plaintext back, whatever the nonce and the padding.
   */
  lemma OpenSealed(aead: Aead, plain: seq<byte>, entropy: Entropy)
    requires Lawful(aead)
    ensures Sealed(aead, plain, entropy).Ok? <==>
              |plain| <= MAX_PLAINTEXT && entropy.padding.Some? && entropy.nonce.Some?
    ensures Sealed(aead, plain, entropy).Ok? ==>
              var packet := Sealed(aead, plain, entropy).value;
              |packet| == PACKET_SIZE && Opened(aead, packet) == Ok(plain)
  {
    if Sealed(aead, plain, entropy).Ok? {
      var nonce, inner := entropy.nonce.value, InnerBlock(plain, entropy.padding.value);
      var packet := nonce + aead.seal(nonce, inner);
      assert packet[..12] == nonce && packet[12..] == aead.seal(nonce, inner);
      GetPut(|plain|);
      assert inner[0..2] == Put(|plain|, 2);
      assert inner[2..2 + |plain|] == plain;
    }
  }

  /**
   What is on the wire: the nonce, and behind it, sealed under that nonce, the length of the plaintext in two bytes,
   the plaintext, and what the random source gave for the rest of the 4068 bytes. Sealing fails for the first
   reason of three.
   */
  lemma SealedLayout(aead: Aead, plain: seq<byte>, entropy: Entropy)
    requires Lawful(aead)
    ensures match Sealed(aead, plain, entropy)
      case Ok(packet) =>
        && entropy.nonce.Some? && entropy.padding.Some?
        && |packet| == 4096 && packet[..12] == entropy.nonce.value
        && (match aead.open(packet[..12], packet[12..])
            case None => false
            case Some(inner) =>
              && |inner| == 4068 && Two(inner[0], inner[1]) == |plain| && |plain| <= 4066
              && inner[2..2 + |plain|] == plain
              && inner[2 + |plain|..] == entropy.padding.value[2 + |plain|..])
      case Err(error) =>
        error == if |plain| > 4066 then TooLarge else if entropy.padding == None then NoPadding else NoNonce
  {
    if Sealed(aead, plain, entropy).Ok? {
      OpenSealed(aead, plain, entropy);
      var nonce, inner := entropy.nonce.value, InnerBlock(plain, entropy.padding.value);
      var packet := Sealed(aead, plain, entropy).value;
      assert packet[..12] == nonce && packet[12..] == aead.seal(nonce, inner);
      assert inner[0..2] == Put(|plain|, 2);
      GetPut(|plain|);
      BigEndian(inner[0..2]);
    }
  }

  /** What a packet opens to, or why it does not. */
  lemma OpenedLayout(aead: Aead, packet: seq<byte>)
    ensures var result := Opened(aead, packet);
      if |packet| != 4096 then result == Err(WrongSize)
      else
        match aead.open(packet[..12], packet[12..])
        case None => result == Err(NotAuthentic)
        case Some(inner) =>
          if |inner| < 2 then result == Err(InnerTooShort)
          else if Two(inner[0], inner[1]) > |inner| - 2 then result == Err(BadLength)
          else result == Ok(inner[2..2 + Two(inner[0], inner[1])])
  {
    if |packet| == 4096 && aead.open(packet[..12], packet[12..]).Some? {
      var inner := aead.open(packet[..12], packet[12..]).value;
      if |inner| >= 2 {
        BigEndian(inner[0..2]);
      }
    }
  }

  /** A block that starts with a length and has at least that many bytes behind it. */
  ghost predicate Prefixed(inner: seq<byte>, plain: seq<byte>, rest: seq<byte>) {
    |plain| < 0x1_0000 && inner == Put(|plain|, 2) + plain + rest
  }

  /** Opening accepts exactly the packets whose authenticated block is a length-prefixed plaintext. */
  lemma OpenedExactly(aead: Aead, packet: seq<byte>, plain: seq<byte>)
    ensures Opened(aead, packet) == Ok(plain) <==>
            && |packet| == PACKET_SIZE
            && aead.open(packet[..NONCE_SIZE], packet[NONCE_SIZE..]).Some?
            && exists rest :: Prefixed(aead.open(packet[..NONCE_SIZE], packet[NONCE_SIZE..]).value, plain, rest)
  {
    if |packet| == PACKET_SIZE && aead.open(packet[..NONCE_SIZE], packet[NONCE_SIZE..]).Some? {
      var inner := aead.open(packet[..NONCE_SIZE], packet[NONCE_SIZE..]).value;
      if rest :| Prefixed(inner, plain, rest) {
        GetPut(|plain|);
        assert inner[0..2] == Put(|plain|, 2);
        assert inner[2..2 + |plain|] == plain;
      }
      if Opened(aead, packet) == Ok(plain) {
        PutGet(inner[0..2]);
        assert inner == inner[0..2] + inner[2..2 + |plain|] + inner[2 + |plain|..];
        assert Prefixed(inner, plain, inner[2 + |plain|..]);
      }
    }
  }

  /** The AEAD session of one connection; `Zeroize` wipes its key and drops its cipher. */
  class Session {
    var aead: Option<Aead>
    var key: array?<byte>

    constructor (aead: Aead, key: seq<byte>)
      requires |key| == KEY_SIZE
      ensures this.aead == Some(aead)
      ensures fresh(this.key) && this.key != null && this.key[..] == key
    {
      var copy := new byte[|key|](_ => 0);
      Copy(copy, 0, key);
      this.aead := Some(aead);
      this.key := copy;
    }

    /**
     Encrypts one plaintext. The scratch block that held the plaintext is returned for inspection: it is
     wiped on success and when no nonce could be drawn, but not when reading the padding fails.
     */
    method Seal(plain: seq<byte>, entropy: Entropy)
      returns (result: Result<seq<byte>, SealError>, ghost scratch: Option<array<byte>>)
      requires aead.Some? && Lawful(aead.value)
      ensures result == Sealed(aead.value, plain, entropy)
      ensures scratch.None? <==> |plain| > MAX_PLAINTEXT
      ensures scratch.Some? ==> fresh(scratch.value) && scratch.value.Length == INNER_SIZE
      ensures scratch.Some? && entropy.padding.Some? ==> scratch.value[..] == Zeros(INNER_SIZE)
      ensures scratch.Some? && entropy.padding.None? ==>
                scratch.value[..2 + |plain|] == Put(|plain|, 2) + plain
    {
      if |plain| > MAX_PLAINTEXT {
        return Err(TooLarge), None;
      }
      var inner := new byte[INNER_SIZE](_ => 0);
      scratch := Some(inner);
      FillUint(inner, [], 0, 2, |plain|);
      FillCopy(inner, Put(|plain|, 2), 2, plain);
      match entropy.padding {
        case None =>
          result := Err(NoPadding);
        case Some(padding) =>
          FillCopy(inner, Put(|plain|, 2) + plain, 2 + |plain|, padding[2 + |plain|..]);
          assert inner[..] == inner[..INNER_SIZE];
          assert inner[..] == InnerBlock(plain, padding);
          match entropy.nonce {
            case None =>
              Clear(inner);
              result := Err(NoNonce);
            case Some(nonce) =>
              var ciphertext := aead.value.seal(nonce, inner[..]);
              Clear(inner);
              var packet := new byte[PACKET_SIZE](_ => 0);
              FillCopy(packet, [], 0, nonce);
              FillCopy(packet, nonce, NONCE_SIZE, ciphertext);
              assert packet[..] == packet[..PACKET_SIZE];
              result := Ok(packet[..]);
          }
      }
    }

    /** Decrypts one packet; the decrypted block is wiped before the plaintext is handed out. */
    method Open(packet: seq<byte>) returns (result: Result<seq<byte>, OpenError>, ghost scratch: Option<array<byte>>)
      requires aead.Some?
      ensures result == Opened(aead.value, packet)
      ensures result.Ok? || result.error in {InnerTooShort, BadLength} <==> scratch.Some?
      ensures scratch.Some? ==> fresh(scratch.value)
      ensures scratch.Some? ==> scratch.value[..] == Zeros(scratch.value.Length)
    {
      scratch := None;
      if |packet| != PACKET_SIZE {
        return Err(WrongSize), None;
      }
      var decrypted := aead.value.open(packet[..NONCE_SIZE], packet[NONCE_SIZE..]);
      if decrypted == None {
        return Err(NotAuthentic), None;
      }
      var inner := new byte[|decrypted.value|](_ => 0);
      Copy(inner, 0, decrypted.value);
      assert inner[..] == decrypted.value;
      scratch := Some(inner);
      if inner.Length < 2 {
        result := Err(InnerTooShort);
      } else {
        var origLen := Get16(inner[0..2]);
        if origLen > inner.Length - 2 {
          result := Err(BadLength);
        } else {
          var out := new byte[origLen](_ => 0);
          Copy(out, 0, inner[2..2 + origLen]);
          assert out[..] == inner[2..2 + origLen];
          result := Ok(out[..]);
        }
      }
      Clear(inner);
    }

    method Zeroize()
      modifies this, key
      ensures key == null && aead == None
      ensures old(key) != null ==> old(key)[..] == Zeros(old(key).Length)
    {
      if key != null {
        Clear(key);
        key := null;
      }
      aead := None;
    }
  }

  /** A session from a key of the right size; it keeps a copy of the key. */
  method NewSession(aead: Aead, key: seq<byte>) returns (session: Session?)
    ensures session != null <==> |key| == KEY_SIZE
    ensures session != null ==>
              fresh(session) && session.aead == Some(aead) && session.key != null && session.key[..] == key
  {
    session := null;
    if |key| == KEY_SIZE {
      session := new Session(aead, key);
    }
  }
}
