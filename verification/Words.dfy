/** Big-endian machine words and the slice operations of the codecs: `encoding/binary` and `copy`. */
module Words {
  import opened Bytes
  import opened Positional

  type uint8 = n: nat | n < 0x100
  type uint16 = n: nat | n < 0x1_0000
  type uint32 = n: nat | n < 0x1_0000_0000
  type uint64 = n: nat | n < 0x1_0000_0000_0000_0000

  /** A conversion to `int64`, after any sum or difference of 64-bit words. */
  function Int64(n: int): (i: int)
    ensures -0x8000_0000_0000_0000 <= i < 0x8000_0000_0000_0000
  {
    var word := n % 0x1_0000_0000_0000_0000;
    if word < 0x8000_0000_0000_0000 then word else word - 0x1_0000_0000_0000_0000
  }

  /** Integer division truncates toward zero. */
  function TruncDiv(a: int, b: nat): int
    requires b > 0
  {
    if a >= 0 then a / b else -((-a) / b)
  }

  /** A conversion to `uint32`. */
  function Word32(n: int): uint32 {
    n % 0x1_0000_0000
  }

  /** The word of `width` bytes that `PutUint` stores for `n`. */
  function Put(n: nat, width: nat): (word: seq<byte>)
    ensures |word| == width
  {
    Fixed(n, width, 256)
  }

  function Get(word: seq<byte>): nat {
    Value(word, 256)
  }

  function Get16(word: seq<byte>): uint16
    requires |word| == 2
  {
    PutGet(word);
    Get(word)
  }

  function Get32(word: seq<byte>): uint32
    requires |word| == 4
  {
    PutGet(word);
    Get(word)
  }

  function Get64(word: seq<byte>): uint64
    requires |word| == 8
  {
    PutGet(word);
    Get(word)
  }

  lemma WordRanges()
    ensures Pow(256, 2) == 0x1_0000
    ensures Pow(256, 4) == 0x1_0000_0000
    ensures Pow(256, 8) == 0x1_0000_0000_0000_0000
  {
    assert Pow(256, 1) == 256;
    assert Pow(256, 2) == 0x1_0000;
    assert Pow(256, 3) == 0x100_0000;
    assert Pow(256, 4) == 0x1_0000_0000;
    assert Pow(256, 5) == 0x100_0000_0000;
    assert Pow(256, 6) == 0x1_0000_0000_0000;
    assert Pow(256, 7) == 0x100_0000_0000_0000;
  }

  function Two(a: nat, b: nat): nat {
    a * 0x100 + b
  }

  function Four(a: nat, b: nat, c: nat, d: nat): nat {
    a * 0x100_0000 + b * 0x1_0000 + c * 0x100 + d
  }

  /** The first byte weighs most, in the three word sizes of the protocol. */
  lemma BigEndian(word: seq<byte>)
    ensures |word| == 2 ==> Get(word) == Two(word[0], word[1])
    ensures |word| == 4 ==> Get(word) == Four(word[0], word[1], word[2], word[3])
    ensures |word| == 8 ==> Get(word) == Get(word[..4]) * 0x1_0000_0000 + Get(word[4..])
  {
    if |word| == 2 {
      ValueOfTwo(word);
    } else if |word| == 4 {
      ValueOfTwo(word[..2]);
      ValueJoin(word[..2], word[2..], 256);
      ValueOfTwo(word[2..]);
      assert word == word[..2] + word[2..];
    } else if |word| == 8 {
      ValueJoin(word[..4], word[4..], 256);
      assert word == word[..4] + word[4..];
    }
    WordRanges();
  }

  lemma ValueOfTwo(word: seq<byte>)
    requires |word| == 2
    ensures Value(word, 256) == Two(word[0], word[1])
  {
    var first: nat := word[0];
    assert word[..1] == [first] && word[..1][..0] == [];
    assert Value(word[..1], 256) == first;
  }

  /** Reading back a word gives the number stored, for every value of the three word sizes. */
  lemma GetPut(n: nat)
    ensures n < 0x1_0000 ==> Get(Put(n, 2)) == n
    ensures n < 0x1_0000_0000 ==> Get(Put(n, 4)) == n
    ensures n < 0x1_0000_0000_0000_0000 ==> Get(Put(n, 8)) == n
  {
    WordRanges();
    if n < 0x1_0000 { ValueOfFixed(n, 2, 256); }
    if n < 0x1_0000_0000 { ValueOfFixed(n, 4, 256); }
    if n < 0x1_0000_0000_0000_0000 { ValueOfFixed(n, 8, 256); }
  }

  /** Storing the number read from a word gives the word back, so distinct words are distinct numbers. */
  lemma PutGet(word: seq<byte>)
    ensures Put(Get(word), |word|) == word
    ensures |word| == 2 ==> Get(word) < 0x1_0000
    ensures |word| == 4 ==> Get(word) < 0x1_0000_0000
    ensures |word| == 8 ==> Get(word) < 0x1_0000_0000_0000_0000
  {
    WordRanges();
    ValueBelowPow(word, 256);
    FixedOfValue(word, 256);
  }

  /** The contents of a buffer after `copy(buf[at:], source)`. */
  function Overwritten(buf: seq<byte>, at: nat, source: seq<byte>): (after: seq<byte>)
    requires at + |source| <= |buf|
    ensures |after| == |buf|
  {
    buf[..at] + source + buf[at + |source|..]
  }

  lemma Join(data: seq<byte>, a: nat, b: nat)
    requires a <= b <= |data|
    ensures data[..a] + data[a..b] == data[..b]
  {
  }

  /** `binary.BigEndian.PutUintN(buf[at:], v)`. */
  method PutUint(buf: array<byte>, at: nat, width: nat, v: nat)
    requires at + width <= buf.Length
    modifies buf
    ensures buf[..] == Overwritten(old(buf[..]), at, Put(v, width))
  {
    hide Put, Overwritten;
    var n, i := v, width;
    ghost var before, done: seq<byte> := buf[..], [];
    OverwriteNothing(before, at + width);
    while i > 0
      invariant 0 <= i <= width && |done| == width - i
      invariant Put(v, width) == Put(n, i) + done
      invariant buf[..] == Overwritten(before, at + i, done)
    {
      i := i - 1;
      PutStep(n, i, done);
      OverwriteFront(before, at + i, n % 256, done);
      buf[at + i] := n % 256;
      done := [n % 256] + done;
      n := n / 256;
    }
    PutNothing(n, done);
  }

  lemma OverwriteNothing(before: seq<byte>, at: nat)
    requires at <= |before|
    ensures Overwritten(before, at, []) == before
  {
  }

  lemma PutNothing(n: nat, done: seq<byte>)
    ensures Put(n, 0) + done == done
  {
  }

  lemma PutStep(n: nat, width: nat, done: seq<byte>)
    ensures Put(n, width + 1) + done == Put(n / 256, width) + ([n % 256] + done)
  {
    Regroup(Put(n / 256, width), n % 256, done);
  }

  lemma OverwriteFront(before: seq<byte>, at: nat, b: byte, done: seq<byte>)
    requires at + 1 + |done| <= |before|
    ensures Overwritten(before, at + 1, done)[at := b] == Overwritten(before, at, [b] + done)
  {
  }

  /** `copy(buf[at:], source)` where the source fits. */
  method Copy(buf: array<byte>, at: nat, source: seq<byte>)
    requires at + |source| <= buf.Length
    modifies buf
    ensures buf[..] == Overwritten(old(buf[..]), at, source)
  {
    ghost var before := buf[..];
    for i := 0 to |source|
      invariant buf[..] == Overwritten(before, at, source[..i])
    {
      OverwriteBack(before, at, source, i);
      buf[at + i] := source[i];
    }
    assert source[..|source|] == source;
  }

  lemma OverwriteBack(before: seq<byte>, at: nat, source: seq<byte>, i: nat)
    requires at + |source| <= |before| && i < |source|
    ensures Overwritten(before, at, source[..i])[at + i := source[i]] == Overwritten(before, at, source[..i + 1])
  {
  }

  /** `PutUint` just behind the part of the buffer that is already filled. */
  method FillUint(buf: array<byte>, ghost done: seq<byte>, at: nat, width: nat, v: nat)
    requires at + width <= buf.Length && at == |done| && buf[..at] == done
    modifies buf
    ensures buf[..at + width] == done + Put(v, width)
  {
    PutUint(buf, at, width, v);
  }

  /** `Copy` just behind the part of the buffer that is already filled. */
  method FillCopy(buf: array<byte>, ghost done: seq<byte>, at: nat, source: seq<byte>)
    requires at + |source| <= buf.Length && at == |done| && buf[..at] == done
    modifies buf
    ensures buf[..at + |source|] == done + source
  {
    Copy(buf, at, source);
  }

  /** `clear(buf)`. */
  method Clear(buf: array<byte>)
    modifies buf
    ensures buf[..] == Zeros(buf.Length)
  {
    for i := 0 to buf.Length
      invariant forall j :: 0 <= j < i ==> buf[j] == 0
    {
      buf[i] := 0;
    }
  }
}
