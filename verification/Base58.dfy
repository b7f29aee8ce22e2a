/** The decoded length of a base58 string, computed by an in-place multiply-by-58 carry loop. */
module Base58 {
  import opened Wrappers

  /** The 62 alphanumeric characters without 0, O, I and l; '1' is the digit zero. */
  const ALPHABET := "123456789" + "ABCDEFGHJKLMNPQRSTUVWXYZ" + "abcdefghijkmnopqrstuvwxyz"

  function IndexOf(s: string, c: char): (i: int)
    ensures -1 <= i < |s|
    ensures i >= 0 ==> s[i] == c
    ensures i < 0 ==> c !in s
  {
    if s == "" then -1
    else if s[0] == c then 0
    else
      var rest := IndexOf(s[1..], c);
      if rest < 0 then -1 else rest + 1
  }

  predicate InAlphabet(c: char) {
    c in ALPHABET
  }

  predicate IsBase58(s: string) {
    forall i :: 0 <= i < |s| ==> InAlphabet(s[i])
  }

  /** `alphabet.indexOf`: the digit of a character, or -1. */
  function DigitIndex(c: char): (d: int)
    ensures -1 <= d < 58
    ensures d >= 0 <==> InAlphabet(c)
  {
    IndexOf(ALPHABET, c)
  }

  function DigitOf(c: char): (d: nat)
    requires InAlphabet(c)
    ensures d < 58
  {
    DigitIndex(c)
  }

  lemma OneIsZero()
    ensures InAlphabet('1') && DigitOf('1') == 0
  {
    assert ALPHABET[0] == '1';
  }

  // ---------------------------------------------------------------- the reference

  function LeadingOnes(s: string): nat {
    if s != "" && s[0] == '1' then 1 + LeadingOnes(s[1..]) else 0
  }

  /** The number a base58 string denotes. */
  function Base58Value(s: string): nat
    requires IsBase58(s)
  {
    if s == "" then 0 else Base58Value(s[..|s| - 1]) * 58 + DigitOf(s[|s| - 1])
  }

  function Pow256(n: nat): (p: nat)
    ensures p > 0
  {
    if n == 0 then 1 else 256 * Pow256(n - 1)
  }

  /** Big-endian bytes of a number, without leading zero bytes. */
  function BigEndian(v: nat): (bytes: seq<nat>) {
    if v == 0 then [] else BigEndian(v / 256) + [v % 256]
  }

  /** Standard base58 decoding: one zero byte for each leading '1', then the number. */
  function Decoded(s: string): seq<nat>
    requires IsBase58(s)
  {
    seq(LeadingOnes(s), _ => 0) + BigEndian(Base58Value(s))
  }

  /** A big-endian form of length n holds exactly the numbers from 256^(n-1) to 256^n - 1. */
  lemma {:induction false} BigEndianLength(v: nat)
    ensures var n := |BigEndian(v)|;
            v < Pow256(n) && (n > 0 ==> Pow256(n - 1) <= v)
  {
    if v > 0 {
      BigEndianLength(v / 256);
      if v / 256 > 0 {
        assert Pow256(|BigEndian(v)| - 1) == 256 * Pow256(|BigEndian(v / 256)| - 1);
      }
    }
  }

  // ---------------------------------------------------------------- little-endian accumulators

  predicate IsBytes(bytes: seq<nat>) {
    forall i :: 0 <= i < |bytes| ==> bytes[i] < 256
  }

  function LittleEndianValue(bytes: seq<nat>): nat {
    if bytes == [] then 0 else LittleEndianValue(bytes[..|bytes| - 1]) + bytes[|bytes| - 1] * Pow256(|bytes| - 1)
  }

  /** No superfluous high byte; zero is the single byte 0. */
  predicate Minimal(bytes: seq<nat>) {
    bytes == [0] || (bytes != [] && bytes[|bytes| - 1] != 0)
  }

  lemma TimesMonotone(a: nat, b: nat, p: nat)
    requires a <= b
    ensures a * p <= b * p
  {
  }

  lemma {:induction false} LittleEndianBelow(bytes: seq<nat>)
    requires IsBytes(bytes)
    ensures LittleEndianValue(bytes) < Pow256(|bytes|)
  {
    if bytes != [] {
      var n := |bytes| - 1;
      LittleEndianBelow(bytes[..n]);
      TimesMonotone(bytes[n], 255, Pow256(n));
    }
  }

  lemma {:induction false} Pow256Monotone(a: nat, b: nat)
    requires a <= b
    ensures Pow256(a) <= Pow256(b)
  {
    if a < b { Pow256Monotone(a, b - 1); }
  }

  function SignificantBytes(bytes: seq<nat>): nat {
    if |bytes| == 1 && bytes[0] == 0 then 0 else |bytes|
  }

  /** A number has one length. */
  lemma LengthUnique(v: nat, k: nat, n: nat)
    requires v < Pow256(k) && (k > 0 ==> Pow256(k - 1) <= v)
    requires v < Pow256(n) && (n > 0 ==> Pow256(n - 1) <= v)
    ensures k == n
  {
    if k < n { Pow256Monotone(k, n - 1); }
    if n < k { Pow256Monotone(n, k - 1); }
  }

  /** The number of significant bytes of a minimal accumulator is the length of the big-endian form. */
  lemma SignificantBytesExact(bytes: seq<nat>)
    requires IsBytes(bytes) && Minimal(bytes)
    ensures SignificantBytes(bytes) == |BigEndian(LittleEndianValue(bytes))|
  {
    var v, n := LittleEndianValue(bytes), |bytes|;
    if bytes == [0] {
      assert bytes[..0] == [];
    } else {
      LittleEndianBelow(bytes);
      BigEndianLength(v);
      TimesMonotone(1, bytes[n - 1], Pow256(n - 1));
      LengthUnique(v, |BigEndian(v)|, n);
    }
  }

  // ---------------------------------------------------------------- one digit

  /**
   One round of the carry loop: the accumulator becomes 58 times itself plus the digit. The carry stays
   below 58, so every intermediate number is below 2^14 and 32-bit shifts and masks are exact.
   */
  method TimesFiftyEightPlus(bytes: seq<nat>, digit: nat) returns (r: seq<nat>)
    requires IsBytes(bytes) && Minimal(bytes) && digit < 58
    ensures IsBytes(r) && Minimal(r)
    ensures LittleEndianValue(r) == LittleEndianValue(bytes) * 58 + digit
  {
    r := bytes;
    assert r[..0] == [] && LittleEndianValue([]) == 0 && Pow256(0) == 1;
    hide Pow256, LittleEndianValue, Minimal;
    var carry: nat := digit;
    for i := 0 to |r|
      invariant |r| == |bytes| && IsBytes(r) && carry < 58
      invariant r[i..] == bytes[i..]
      invariant LittleEndianValue(r[..i]) + carry * Pow256(i) == LittleEndianValue(bytes[..i]) * 58 + digit
      invariant i == |r| && carry == 0 ==> Minimal(r)
    {
      ghost var carryIn := carry;
      CarryFits(carry, r[i]);
      carry := carry + r[i] * 58;
      ghost var total := carry;
      ghost var before := r;
      r := r[i := carry % 256];
      carry := carry / 256;
      assert IsBytes(r) && r[i + 1..] == bytes[i + 1..] by { RestKept(bytes, before, r, i, total % 256); }
      RoundStep(bytes, before, r, i, carryIn, total, digit);
      if i + 1 == |r| { StaysMinimal(bytes, r, carryIn, total); }
    }
    assert r[..|r|] == r && bytes[..|bytes|] == bytes;
    while carry > 0
      invariant IsBytes(r) && |r| >= |bytes| && carry < 58
      invariant LittleEndianValue(r) + carry * Pow256(|r|) == LittleEndianValue(bytes) * 58 + digit
      invariant carry == 0 ==> Minimal(r)
    {
      PushStep(r, carry);
      PushedIsMinimal(r, carry);
      r := r + [carry % 256];
      carry := carry / 256;
    }
  }

  /** One byte's product with 58 and the carry in fit in fourteen bits, and the carry out is again below 58. */
  lemma CarryFits(carry: nat, byte: nat)
    requires carry < 58 && byte < 256
    ensures carry + byte * 58 < 0x4000 && (carry + byte * 58) / 256 < 58
    ensures carry + byte * 58 == 0 ==> byte == 0
  {
  }

  lemma RestKept(bytes: seq<nat>, before: seq<nat>, r: seq<nat>, i: nat, byte: nat)
    requires i < |bytes| == |before| && IsBytes(before) && before[i..] == bytes[i..] && byte < 256 && r == before[i := byte]
    ensures IsBytes(r) && r[i + 1..] == bytes[i + 1..]
  {
    assert bytes[i + 1..] == bytes[i..][1..] && before[i + 1..] == before[i..][1..];
  }

  /** The high byte stays non-zero unless it leaves a carry; zero stays the single byte zero. */
  lemma StaysMinimal(bytes: seq<nat>, r: seq<nat>, carryIn: nat, total: nat)
    requires Minimal(bytes) && |r| == |bytes| && r[|r| - 1] == total % 256
    requires total == carryIn + bytes[|bytes| - 1] * 58
    ensures total / 256 == 0 ==> Minimal(r)
  {
    if total / 256 == 0 && total == 0 { assert bytes[|bytes| - 1] == 0; }
  }

  lemma PushedIsMinimal(r: seq<nat>, carry: nat)
    requires 0 < carry < 58
    ensures carry / 256 == 0 && Minimal(r + [carry % 256])
  {
  }

  lemma CarrySplit(total: nat, p: nat)
    ensures (total % 256) * p + (total / 256) * (256 * p) == total * p
  {
    var q, r := total / 256, total % 256;
    assert total == q * 256 + r;
    assert total * p == (q * 256) * p + r * p;
    assert (q * 256) * p == q * (256 * p);
  }

  lemma PushStep(r: seq<nat>, carry: nat)
    ensures LittleEndianValue(r + [carry % 256]) + (carry / 256) * Pow256(|r| + 1) ==
            LittleEndianValue(r) + carry * Pow256(|r|)
  {
    assert (r + [carry % 256])[..|r|] == r;
    CarrySplit(carry, Pow256(|r|));
  }

  lemma RoundStep(bytes: seq<nat>, before: seq<nat>, r: seq<nat>, i: nat, carryIn: nat, total: nat, digit: nat)
    requires i < |bytes| == |before| && before[i..] == bytes[i..]
    requires total == carryIn + bytes[i] * 58
    requires r == before[i := total % 256]
    requires LittleEndianValue(before[..i]) + carryIn * Pow256(i) == LittleEndianValue(bytes[..i]) * 58 + digit
    ensures LittleEndianValue(r[..i + 1]) + (total / 256) * Pow256(i + 1) == LittleEndianValue(bytes[..i + 1]) * 58 + digit
  {
    var p := Pow256(i);
    assert r[..i + 1][..i] == before[..i] && bytes[..i + 1][..i] == bytes[..i];
    CarrySplit(total, p);
    assert total * p == carryIn * p + (bytes[i] * 58) * p;
    assert (bytes[i] * 58) * p == (bytes[i] * p) * 58;
  }

  // ---------------------------------------------------------------- the whole string

  /** One more leading '1', and one more digit. */
  lemma NextOne(value: string, i: nat)
    requires i < |value| && value[i] == '1' && LeadingOnes(value) == i + LeadingOnes(value[i..])
    ensures LeadingOnes(value) == i + 1 + LeadingOnes(value[i + 1..])
  {
    assert value[i..][1..] == value[i + 1..];
  }

  lemma NextDigit(value: string, i: nat)
    requires i < |value| && IsBase58(value[..i])
    ensures DigitIndex(value[i]) < 0 ==> !IsBase58(value)
    ensures DigitIndex(value[i]) >= 0 ==> IsBase58(value[..i + 1])
    ensures DigitIndex(value[i]) >= 0 ==> Base58Value(value[..i + 1]) == Base58Value(value[..i]) * 58 + DigitIndex(value[i])
  {
    assert value[..i + 1][..i] == value[..i];
  }

  lemma NoMoreOnes(value: string, i: nat)
    requires i <= |value| && LeadingOnes(value) == i + LeadingOnes(value[i..]) && (i < |value| ==> value[i] != '1')
    ensures LeadingOnes(value) == i
  {
  }

  /** `decodedBase58Length`: null exactly on a foreign character, else the length of the decoded bytes. */
  method DecodedBase58Length(value: string) returns (length: Option<nat>)
    ensures length.None? <==> !IsBase58(value)
    ensures length.Some? ==> length.value == |Decoded(value)|
  {
    hide BigEndian, Pow256, Minimal, SignificantBytes, LeadingOnes, Base58Value, IndexOf, DigitIndex, IsBase58, LittleEndianValue;
    var leadingZeros := 0;
    assert value[0..] == value;
    while leadingZeros < |value| && value[leadingZeros] == '1'
      invariant leadingZeros <= |value|
      invariant forall i :: 0 <= i < leadingZeros ==> value[i] == '1'
      invariant LeadingOnes(value) == leadingZeros + LeadingOnes(value[leadingZeros..])
    {
      NextOne(value, leadingZeros);
      leadingZeros := leadingZeros + 1;
    }
    NoMoreOnes(value, leadingZeros);
    OnesAreZero(value[..leadingZeros]);
    var bytes: seq<nat> := [0];
    ZeroIsMinimal();
    for index := leadingZeros to |value|
      invariant IsBytes(bytes) && Minimal(bytes)
      invariant IsBase58(value[..index])
      invariant LittleEndianValue(bytes) == Base58Value(value[..index])
    {
      NextDigit(value, index);
      var digit := DigitIndex(value[index]);
      if digit < 0 { return None; }
      bytes := TimesFiftyEightPlus(bytes, digit);
    }
    assert value[..|value|] == value;
    SignificantBytesExact(bytes);
    return Some(leadingZeros + SignificantBytes(bytes));
  }

  lemma ZeroIsMinimal()
    ensures Minimal([0]) && LittleEndianValue([0]) == 0
  {
    assert [0][..0] == [];
  }

  lemma {:induction false} OnesAreZero(s: string)
    requires forall i :: 0 <= i < |s| ==> s[i] == '1'
    ensures IsBase58(s) && Base58Value(s) == 0
  {
    OneIsZero();
    if s != "" {
      OnesAreZero(s[..|s| - 1]);
    }
  }

  /** The `solana-address` string format. */
  method IsSolanaAddress(value: string) returns (valid: bool)
    ensures valid <==> 32 <= |value| <= 44 && IsBase58(value) && |Decoded(value)| == 32
  {
    var length := DecodedBase58Length(value);
    valid := 32 <= |value| && |value| <= 44 && length == Some(32);
  }
}
