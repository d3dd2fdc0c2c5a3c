/**
 The Bitcoin Base58 text form of a public key. `EncodeBase58` and `DecodeBase58` are the program's loops;
 `Encoded` and `Decoded` say what they compute, and the lemmas show that they are mutually inverse.
 A Go string is a sequence of bytes: each `char` here stands for one byte of it.
 */
module Base58 {
  import opened Bytes
  import opened Positional

  /** The 58 symbols in order, written as the runs that are left when 0, O, I and l are taken out. */
  const ALPHABET := "123456789" + "ABCDEFGH" + "JKLMN" + "PQRSTUVWXYZ" + "abcdefghijk" + "mnopqrstuvwxyz"

  /** The digit a symbol stands for, by the ranges that make up the alphabet; -1 outside it. */
  function Rank(c: char): int {
    if '1' <= c <= '9' then c as int - '1' as int
    else if 'A' <= c <= 'H' then 9 + c as int - 'A' as int
    else if 'J' <= c <= 'N' then 17 + c as int - 'J' as int
    else if 'P' <= c <= 'Z' then 22 + c as int - 'P' as int
    else if 'a' <= c <= 'k' then 33 + c as int - 'a' as int
    else if 'm' <= c <= 'z' then 44 + c as int - 'm' as int
    else -1
  }

  predicate Symbol(c: char) {
    0 <= Rank(c)
  }

  /** The symbol of a digit, by the same ranges. */
  function SymbolOf(d: nat): (c: char)
    requires d < 58
    ensures Rank(c) == d
  {
    if d < 9 then ('1' as int + d) as char
    else if d < 17 then ('A' as int + d - 9) as char
    else if d < 22 then ('J' as int + d - 17) as char
    else if d < 33 then ('P' as int + d - 22) as char
    else if d < 44 then ('a' as int + d - 33) as char
    else ('m' as int + d - 44) as char
  }

  /** The alphabet lists its 58 symbols in the order of their ranks. */
  lemma AlphabetAt(d: nat)
    requires d < 58
    ensures |ALPHABET| == 58 && ALPHABET[d] == SymbolOf(d)
  {
    if d < 9 {
      assert ALPHABET[d] == "123456789"[d];
    } else if d < 17 {
      assert ALPHABET[d] == "ABCDEFGH"[d - 9];
    } else if d < 22 {
      assert ALPHABET[d] == "JKLMN"[d - 17];
    } else if d < 33 {
      assert ALPHABET[d] == "PQRSTUVWXYZ"[d - 22];
    } else if d < 44 {
      assert ALPHABET[d] == "abcdefghijk"[d - 33];
    } else {
      assert ALPHABET[d] == "mnopqrstuvwxyz"[d - 44];
    }
  }

  lemma SymbolOfRank(c: char)
    requires Symbol(c)
    ensures Rank(c) < 58 && SymbolOf(Rank(c)) == c
  {
  }

  /** The rank of a symbol as a digit. */
  function DigitOf(c: char): (d: nat)
    requires Symbol(c)
    ensures d < 58 && SymbolOf(d) == c && d == Rank(c)
  {
    Rank(c)
  }

  predicate OverAlphabet(text: string) {
    forall i :: 0 <= i < |text| ==> Symbol(text[i])
  }

  function Ranks(text: string): (digits: seq<nat>)
    requires OverAlphabet(text)
    ensures InBase(digits, 58)
  {
    seq(|text|, i requires 0 <= i < |text| => DigitOf(text[i]))
  }

  function Text(digits: seq<nat>): (text: string)
    requires InBase(digits, 58)
    ensures OverAlphabet(text)
  {
    seq(|digits|, i requires 0 <= i < |digits| => SymbolOf(digits[i]))
  }

  lemma RanksOfText(digits: seq<nat>)
    requires InBase(digits, 58)
    ensures Ranks(Text(digits)) == digits
  {
  }

  lemma TextOfRanks(text: string)
    requires OverAlphabet(text)
    ensures Text(Ranks(text)) == text
  {
  }

  function Encoded(input: seq<byte>): string {
    Text(Convert(input, 256, 58))
  }

  /** The position of the first character outside the alphabet, or the length if there is none. */
  function FirstBad(text: string): (i: nat)
    ensures i <= |text|
    ensures forall j :: 0 <= j < i ==> Symbol(text[j])
    ensures i < |text| ==> !Symbol(text[i])
  {
    if text == [] || !Symbol(text[0]) then 0 else 1 + FirstBad(text[1..])
  }

  function Decoded(text: string): Result<seq<byte>, nat> {
    if FirstBad(text) < |text| then Err(FirstBad(text))
    else Ok(Convert(Ranks(text), 58, 256))
  }

  /**
   The text and the bytes denote the same number, the text in base 58 with the ranks of its symbols as digits and
   the bytes in base 256, and the text has as many leading '1' as there are leading zero bytes.
   */
  ghost predicate Denotes(text: string, bytes: seq<byte>) {
    && OverAlphabet(text)
    && Value(Ranks(text), 58) == Value(bytes, 256)
    && Leading(text, '1') == Leading(bytes, 0)
  }

  lemma EncodedDenotes(input: seq<byte>)
    ensures Denotes(Encoded(input), input)
  {
    var digits := Convert(input, 256, 58);
    ConvertDenotes(input, 256, 58);
    RanksOfText(digits);
    OnesAndZeros(Encoded(input));
  }

  lemma DecodedDenotes(text: string)
    requires OverAlphabet(text)
    ensures Decoded(text).Ok? && Denotes(text, Decoded(text).value)
  {
    ConvertDenotes(Ranks(text), 58, 256);
    OnesAndZeros(text);
  }

  /** Leading '1' are leading zero digits. */
  lemma OnesAndZeros(text: string)
    requires OverAlphabet(text)
    ensures Leading(text, '1') == Leading(Ranks(text), 0)
  {
    LeadingRanks(text, Leading(text, '1'));
  }

  /** A text denotes one byte string only, and a byte string is denoted by one text only. */
  lemma DenotesOne(text: string, bytes: seq<byte>, text': string, bytes': seq<byte>)
    requires Denotes(text, bytes) && Denotes(text', bytes')
    ensures text == text' <==> bytes == bytes'
  {
    OnesAndZeros(text);
    OnesAndZeros(text');
    if text == text' {
      SameDigits(bytes, bytes', 256);
    }
    if bytes == bytes' {
      SameDigits(Ranks(text), Ranks(text'), 58);
      TextOfRanks(text);
      TextOfRanks(text');
    }
  }

  /** Decoding inverts encoding on every byte string, whatever its number of leading zero bytes. */
  lemma DecodeEncode(input: seq<byte>)
    ensures Decoded(Encoded(input)) == Ok(input)
  {
    RanksOfText(Convert(input, 256, 58));
    ConvertBack(input, 256, 58);
  }

  /** Encoding inverts decoding on every text that decodes. */
  lemma EncodeDecode(text: string)
    requires Decoded(text).Ok?
    ensures Encoded(Decoded(text).value) == text
  {
    ConvertBack(Ranks(text), 58, 256);
    TextOfRanks(text);
  }

  lemma InAlphabet(c: char)
    ensures Symbol(c) <==> c in ALPHABET
  {
    if Symbol(c) {
      AlphabetAt(DigitOf(c));
    } else if c in ALPHABET {
      AlphabetAt(0);
      var d :| 0 <= d < |ALPHABET| && ALPHABET[d] == c;
      AlphabetAt(d);
    }
  }

  /** Decoding fails exactly on a text with a foreign character, and reports the first one. */
  lemma DecodeFails(text: string)
    ensures Decoded(text).Err? <==> exists i :: 0 <= i < |text| && text[i] !in ALPHABET
    ensures Decoded(text).Err? ==>
              var i := Decoded(text).error;
              i < |text| && text[i] !in ALPHABET && forall j :: 0 <= j < i ==> text[j] in ALPHABET
  {
    forall i | 0 <= i < |text|
      ensures Symbol(text[i]) <==> text[i] in ALPHABET
    {
      InAlphabet(text[i]);
    }
  }

  /** No two keys share a text, no two texts name the same key, and every text over the alphabet names one. */
  lemma Bijection(a: seq<byte>, b: seq<byte>, s: string, t: string)
    ensures Encoded(a) == Encoded(b) <==> a == b
    ensures Decoded(s).Ok? && Decoded(s) == Decoded(t) ==> s == t
    ensures (exists key :: Encoded(key) == s) <==> forall i :: 0 <= i < |s| ==> s[i] in ALPHABET
  {
    DecodeEncode(a);
    DecodeEncode(b);
    if Decoded(s).Ok? && Decoded(s) == Decoded(t) {
      EncodeDecode(s);
      EncodeDecode(t);
    }
    DecodeFails(s);
    if key :| Encoded(key) == s {
      DecodeEncode(key);
    }
    if Decoded(s).Ok? {
      EncodeDecode(s);
    }
  }

  /** `base58Alphabet[d]`. */
  method TableEntry(d: nat) returns (c: char)
    requires d < 58
    ensures c == SymbolOf(d)
  {
    AlphabetAt(d);
    c := ALPHABET[d];
  }

  /** The linear scan of the table; -1 if the character is not in it. */
  method TableIndex(c: char) returns (val: int)
    ensures val == Rank(c)
  {
    val := -1;
    AlphabetAt(0);
    for idx := 0 to |ALPHABET|
      invariant val == -1
      invariant forall k :: 0 <= k < idx ==> SymbolOf(k) != c
    {
      AlphabetAt(idx);
      if ALPHABET[idx] == c {
        return idx;
      }
    }
    if Symbol(c) {
      SymbolOfRank(c);
    }
  }

  method CountLeading<T(==)>(s: seq<T>, x: T) returns (count: nat)
    ensures count == Leading(s, x)
  {
    count := 0;
    while count < |s| && s[count] == x
      invariant count <= |s|
      invariant Leading(s, x) == count + Leading(s[count..], x)
    {
      count := count + 1;
    }
  }

  /** The division loop: symbols of the base-58 digits, least significant first. */
  method DivideOut(total: nat) returns (digits: string)
    ensures |digits| == |Digits(total, 58)|
    ensures forall i :: 0 <= i < |digits| ==> digits[|digits| - 1 - i] == SymbolOf(Digits(total, 58)[i])
  {
    var n := total;
    ghost var low: seq<nat> := [];
    digits := [];
    while n > 0
      invariant InBase(low, 58) && |digits| == |low|
      invariant forall i :: 0 <= i < |low| ==> digits[|low| - 1 - i] == SymbolOf(low[i])
      invariant Digits(total, 58) == Digits(n, 58) + low
    {
      DigitsStep(n, low, 58);
      var c := TableEntry(n % 58);
      digits := digits + [c];
      low := [n % 58] + low;
      n := n / 58;
    }
  }

  method EncodeBase58(input: seq<byte>) returns (text: string)
    ensures text == Encoded(input) && Denotes(text, input)
  {
    hide Denotes;
    EncodedDenotes(input);
    if |input| == 0 {
      return "";
    }
    var leadingZeros := CountLeading(input, 0);
    var digits := DivideOut(Value(input, 256));
    var one := TableEntry(0);
    text := seq(leadingZeros, _ => one);
    var j := |digits| - 1;
    while j >= 0
      invariant -1 <= j < |digits|
      invariant |text| == leadingZeros + |digits| - 1 - j
      invariant forall i :: 0 <= i < leadingZeros ==> text[i] == one
      invariant forall i :: leadingZeros <= i < |text| ==> text[i] == digits[|digits| - 1 - (i - leadingZeros)]
    {
      text := text + [digits[j]];
      j := j - 1;
    }
  }

  /** The number the first `i` characters stand for. */
  ghost function PrefixValue(s: string, i: nat): nat
    requires i <= |s| && forall j :: 0 <= j < i ==> Symbol(s[j])
  {
    Value(Ranks(s[..i]), 58)
  }

  lemma PrefixStep(s: string, i: nat)
    requires i < |s| && forall j :: 0 <= j <= i ==> Symbol(s[j])
    ensures PrefixValue(s, i + 1) == PrefixValue(s, i) * 58 + Rank(s[i])
  {
    assert Ranks(s[..i + 1])[..i] == Ranks(s[..i]);
  }

  lemma DecodeMeans(s: string)
    ensures if forall i :: 0 <= i < |s| ==> s[i] in ALPHABET then Decoded(s).Ok? && Denotes(s, Decoded(s).value)
            else Decoded(s).Err? && Decoded(s).error < |s| && s[Decoded(s).error] !in ALPHABET
  {
    DecodeFails(s);
    if Decoded(s).Ok? {
      DecodedDenotes(s);
    }
  }

  method DecodeBase58(s: string) returns (result: Result<seq<byte>, nat>)
    ensures result == Decoded(s)
    ensures if forall i :: 0 <= i < |s| ==> s[i] in ALPHABET then result.Ok? && Denotes(s, result.value)
            else result.Err? && result.error < |s| && s[result.error] !in ALPHABET
  {
    hide Denotes, Decoded;
    DecodeMeans(s);
    if |s| == 0 {
      DecodedWhole(s, 0, 0);
      assert Zeros(0) + Digits(0, 256) == [];
      return Ok([]);
    }
    var one := TableEntry(0);
    var leadingZeros := CountLeading(s, one);
    OnesAreZero(s[..leadingZeros]);
    var n := 0;
    for i := leadingZeros to |s|
      invariant forall j :: 0 <= j < i ==> Symbol(s[j])
      invariant n == PrefixValue(s, i)
    {
      var val := TableIndex(s[i]);
      if val < 0 {
        DecodedBad(s, i);
        return Err(i);
      }
      PrefixStep(s, i);
      n := n * 58 + val;
    }
    DecodedWhole(s, leadingZeros, n);
    result := Ok(Zeros(leadingZeros) + Digits(n, 256));
  }

  lemma DecodedBad(s: string, i: nat)
    requires i < |s| && !Symbol(s[i]) && forall j :: 0 <= j < i ==> Symbol(s[j])
    ensures Decoded(s) == Err(i)
  {
    FirstBadAt(s, i);
  }

  lemma DecodedWhole(s: string, z: nat, n: nat)
    requires OverAlphabet(s) && z == Leading(s, SymbolOf(0)) && n == PrefixValue(s, |s|)
    ensures Decoded(s) == Ok(Zeros(z) + Digits(n, 256))
  {
    assert s[..|s|] == s;
    FirstBadAt(s, |s|);
    LeadingRanks(s, z);
  }

  lemma OnesAreZero(ones: string)
    requires forall i :: 0 <= i < |ones| ==> ones[i] == SymbolOf(0)
    ensures OverAlphabet(ones) && Value(Ranks(ones), 58) == 0
  {
    LeadingZeros(Ranks(ones), [], 58);
    assert Ranks(ones) + [] == Ranks(ones);
  }

  lemma LeadingRanks(text: string, z: nat)
    requires OverAlphabet(text) && z == Leading(text, SymbolOf(0))
    ensures Leading(Ranks(text), 0) == z
  {
    var ranks := Ranks(text);
    LeadingRun<nat>(ranks[..z], ranks[z..], 0);
    assert ranks == ranks[..z] + ranks[z..];
  }

  lemma {:induction false} FirstBadAt(text: string, i: nat)
    requires i <= |text| && forall j :: 0 <= j < i ==> Symbol(text[j])
    requires i < |text| ==> !Symbol(text[i])
    ensures FirstBad(text) == i
  {
  }
}
