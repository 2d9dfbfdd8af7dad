// The bytes an operator signs for a response (pkg/common/crypto/signer/signer.go).
// Hashing and signing are ideal: the hash is injective and a signature verifies only for what was signed,
// so the packed bytes stand for the digest.
module Packing {
  import opened Basics

  const ZERO_ADDRESS: Bytes := [0, 0, 0, 0, 0, 0, 0, 0, 0, 0, 0, 0, 0, 0, 0, 0, 0, 0, 0, 0]

  type Address = b: Bytes | |b| == 20 witness ZERO_ADDRESS

  function Pow256(k: nat): (p: nat)
    ensures p >= 1
  {
    if k == 0 then 1 else 256 * Pow256(k - 1)
  }

  const TWO_160: nat := Pow256(20)
  const TWO_256: nat := Pow256(32)

  function Abs(v: int): nat { if v < 0 then -v else v }

  // Go's conversion uint64 -> int64.
  function ToInt64(n: Uint64): int { if n < TWO_63 then n else n - TWO_64 }

  // big.Int.Bytes: the magnitude, big endian, no leading zero byte.
  function BigBytes(n: nat): Bytes {
    if n == 0 then [] else BigBytes(n / 256) + [n % 256]
  }

  function Zeros(k: nat): (b: Bytes)
    ensures |b| == k
  {
    if k == 0 then [] else Zeros(k - 1) + [0]
  }

  function LeftPad(b: Bytes, length: nat): Bytes {
    if |b| >= length then b else Zeros(length - |b|) + b
  }

  function Word(v: int): Bytes { LeftPad(BigBytes(Abs(v)), 32) }

  datatype Params = Params(user: Address, chainId: Uint32, block: Uint64, key: int, value: int)

  function Pack(p: Params): Bytes {
    p.user + Word(p.chainId) + Word(ToInt64(p.block)) + Word(p.key) + Word(p.value)
  }

  // ---------- decoding ----------

  function FromBytes(b: Bytes): nat {
    if b == [] then 0 else 256 * FromBytes(b[..|b| - 1]) + b[|b| - 1]
  }

  predicate FitsWord(v: int) { Abs(v) < TWO_256 }

  predicate InRange(p: Params) {
    p.block < TWO_63 && 0 <= p.key < TWO_256 && 0 <= p.value < TWO_256
  }

  function Unpack(m: Bytes): Option<Params> {
    if |m| != 148 then None
    else
      var chain, block := FromBytes(m[20..52]), FromBytes(m[52..84]);
      if chain < TWO_32 && block < TWO_64
      then Some(Params(m[..20], chain, block, FromBytes(m[84..116]), FromBytes(m[116..])))
      else None
  }

  lemma {:induction false} FromBigBytes(n: nat)
    ensures FromBytes(BigBytes(n)) == n
  {
    if n != 0 {
      FromBigBytes(n / 256);
      assert BigBytes(n)[..|BigBytes(n)| - 1] == BigBytes(n / 256);
    }
  }

  lemma {:induction false} FromZeros(k: nat, b: Bytes)
    ensures FromBytes(Zeros(k) + b) == FromBytes(b)
    decreases |b|, k
  {
    if b != [] {
      FromZeros(k, b[..|b| - 1]);
      assert (Zeros(k) + b)[..k + |b| - 1] == Zeros(k) + b[..|b| - 1];
    } else if k > 0 {
      FromZeros(k - 1, b);
      assert Zeros(k) + b == Zeros(k);
      assert Zeros(k - 1) + b == Zeros(k - 1) == Zeros(k)[..k - 1];
    }
  }

  lemma {:induction false} BigBytesLength(n: nat, k: nat)
    ensures |BigBytes(n)| <= k <==> n < Pow256(k)
  {
    if n != 0 && k != 0 {
      BigBytesLength(n / 256, k - 1);
    }
  }

  lemma WordRoundTrip(v: int)
    ensures FromBytes(Word(v)) == Abs(v)
    ensures |Word(v)| == 32 <==> FitsWord(v)
    ensures |Word(v)| >= 32
  {
    var b := BigBytes(Abs(v));
    FromBigBytes(Abs(v));
    BigBytesLength(Abs(v), 32);
    if |b| < 32 {
      FromZeros(32 - |b|, b);
    }
  }

  lemma SmallFitsWord(n: nat)
    requires n < TWO_64
    ensures FitsWord(n)
  {
    assert Pow256(8) == TWO_64;
    PowMonotone(8, 32);
  }

  lemma {:induction false} PowMonotone(i: nat, j: nat)
    requires i <= j
    ensures Pow256(i) <= Pow256(j)
    decreases j - i
  {
    if i < j {
      PowMonotone(i + 1, j);
    }
  }

  lemma WordOfField(v: int)
    requires Abs(v) < TWO_64
    ensures |Word(v)| == 32 && FromBytes(Word(v)) == Abs(v)
  {
    SmallFitsWord(Abs(v));
    WordRoundTrip(v);
  }

  lemma FiveParts(u: Bytes, c: Bytes, b: Bytes, k: Bytes, v: Bytes)
    requires |u| == 20 && |c| == |b| == |k| == |v| == 32
    ensures var m := u + c + b + k + v;
            && |m| == 148 && m[..20] == u && m[20..52] == c && m[52..84] == b && m[84..116] == k && m[116..] == v
  {
  }

  // What packed bytes say: the five fields, each by magnitude only.
  lemma PackLayout(p: Params)
    requires FitsWord(p.key) && FitsWord(p.value)
    ensures var m := Pack(p);
            && |m| == 148 && m[..20] == p.user
            && FromBytes(m[20..52]) == p.chainId
            && FromBytes(m[52..84]) == (if p.block < TWO_63 then p.block else TWO_64 - p.block)
            && FromBytes(m[84..116]) == (if p.key < 0 then -p.key else p.key)
            && FromBytes(m[116..]) == (if p.value < 0 then -p.value else p.value)
  {
    WordOfField(p.chainId);
    WordOfField(ToInt64(p.block));
    WordRoundTrip(p.key);
    WordRoundTrip(p.value);
    FiveParts(p.user, Word(p.chainId), Word(ToInt64(p.block)), Word(p.key), Word(p.value));
  }

  // In range, the signed bytes decode back to the tuple they were made from.
  lemma UnpackPack(p: Params)
    requires InRange(p)
    ensures Unpack(Pack(p)) == Some(p)
  {
    PackLayout(p);
  }

  // A signature vouches for exactly one tuple.
  lemma PackInjective(p: Params, q: Params)
    requires InRange(p) && InRange(q) && Pack(p) == Pack(q)
    ensures p == q
  {
    UnpackPack(p);
    UnpackPack(q);
  }

  lemma WordDependsOnMagnitude(v: int, w: int)
    ensures Word(v) == Word(w) <==> Abs(v) == Abs(w)
  {
    WordRoundTrip(v);
    WordRoundTrip(w);
  }

  lemma PackLength(p: Params)
    ensures |Pack(p)| == 20 + 32 + 32 + |Word(p.key)| + |Word(p.value)|
  {
    WordOfField(p.chainId);
    WordOfField(ToInt64(p.block));
  }

  // Words are never shorter than 32 bytes, so two that fill 64 fit 32 each. Which tuples share the signed bytes of a
  // tuple that fits, whatever integers the other one carries: signs are lost, and a block number is confused with its
  // 64-bit negation.
  lemma PackEqualIff(p: Params, q: Params)
    requires FitsWord(p.key) && FitsWord(p.value)
    ensures Pack(p) == Pack(q) <==>
            && p.user == q.user && p.chainId == q.chainId
            && (p.block == q.block || p.block + q.block == TWO_64)
            && Abs(p.key) == Abs(q.key) && Abs(p.value) == Abs(q.value)
  {
    PackLength(p);
    PackLength(q);
    WordRoundTrip(p.key);
    WordRoundTrip(p.value);
    WordRoundTrip(q.key);
    WordRoundTrip(q.value);
    if FitsWord(q.key) && FitsWord(q.value) {
      PackLayout(p);
      PackLayout(q);
      WordDependsOnMagnitude(ToInt64(p.block), ToInt64(q.block));
      WordDependsOnMagnitude(p.key, q.key);
      WordDependsOnMagnitude(p.value, q.value);
    }
  }

  lemma {:induction false} BigFromBytes(b: Bytes)
    requires b != [] ==> b[0] != 0
    ensures BigBytes(FromBytes(b)) == b
    ensures b != [] ==> FromBytes(b) > 0
  {
    if b != [] {
      var front, last := b[..|b| - 1], b[|b| - 1];
      BigFromBytes(front);
      assert FromBytes(b) / 256 == FromBytes(front) && FromBytes(b) % 256 == last;
      assert b == front + [last];
    }
  }

  // The word bound is needed: one more byte in the key can be moved into the value.
  lemma OversizedKeyCollides(user: Address, chainId: Uint32, block: Uint64, n: nat, v: nat)
    requires |BigBytes(n)| == |BigBytes(v)| == 32
    ensures Pack(Params(user, chainId, block, 256 * n + 1, v))
         == Pack(Params(user, chainId, block, n, FromBytes([1] + BigBytes(v))))
    ensures |Word(256 * n + 1)| == 33
  {
    OversizedWords(n, v);
    var front := user + Word(chainId) + Word(ToInt64(block));
    Regroup(front, Word(256 * n + 1), Word(v));
    Regroup(front, Word(n), Word(FromBytes([1] + BigBytes(v))));
  }

  lemma OversizedWords(n: nat, v: nat)
    requires |BigBytes(n)| == |BigBytes(v)| == 32
    ensures Word(256 * n + 1) + Word(v) == Word(n) + Word(FromBytes([1] + BigBytes(v)))
    ensures |Word(256 * n + 1)| == 33
  {
    var one: Bytes := [1];
    BigFromBytes(one + BigBytes(v));
    assert BigBytes(256 * n + 1) == BigBytes(n) + one;
    Regroup(BigBytes(n), one, BigBytes(v));
  }

  lemma Regroup(a: Bytes, b: Bytes, c: Bytes)
    ensures a + b + c == a + (b + c)
  {
  }

  // ---------- ethcommon.HexToAddress ----------

  function HexValue(c: char): (d: Option<nat>)
    ensures d.Some? ==> d.value < 16
  {
    if '0' <= c <= '9' then Some(c as int - '0' as int)
    else if 'a' <= c <= 'f' then Some(c as int - 'a' as int + 10)
    else if 'A' <= c <= 'F' then Some(c as int - 'A' as int + 10)
    else None
  }

  // Decodes pairs up to the first character that is not hexadecimal.
  function HexBytes(s: string): Bytes {
    if |s| < 2 then []
    else
      match (HexValue(s[0]), HexValue(s[1]))
      case (Some(hi), Some(lo)) => [16 * hi + lo] + HexBytes(s[2..])
      case _ => []
  }

  // Without a leading 0x.
  function Body(s: string): string {
    if |s| >= 2 && s[0] == '0' && (s[1] == 'x' || s[1] == 'X') then s[2..] else s
  }

  function Even(s: string): string { if |s| % 2 == 1 then "0" + s else s }

  // The last 20 bytes, or all of them behind zeros.
  function Fit(b: Bytes): Address { if |b| > 20 then b[|b| - 20..] else LeftPad(b, 20) }

  function HexToAddress(s: string): Address {
    Fit(HexBytes(Even(Body(s))))
  }

  // Sixteen digits in order of value, in either case; no other character is a digit.
  lemma HexTable(c: char, d: nat)
    requires d < 16
    ensures HexValue("0123456789abcdef"[d]) == HexValue("0123456789ABCDEF"[d]) == Some(d)
    ensures HexValue(c) == Some(d) ==> "0123456789abcdef"[d] == c || "0123456789ABCDEF"[d] == c
  {
  }

  predicate IsHex(s: string) { forall i :: 0 <= i < |s| ==> HexValue(s[i]).Some? }

  // A text of digits read left to right in base 16.
  function HexNat(s: string): nat
    requires IsHex(s)
  {
    if s == "" then 0 else 16 * HexNat(s[..|s| - 1]) + HexValue(s[|s| - 1]).value
  }

  // Big-endian positions: leading bytes count as many powers of 256 as bytes follow them.
  lemma {:induction false} FromBytesAppend(a: Bytes, b: Bytes)
    ensures FromBytes(a + b) == FromBytes(a) * Pow256(|b|) + FromBytes(b)
  {
    if b == [] {
      assert a + b == a;
    } else {
      var front := b[..|b| - 1];
      FromBytesAppend(a, front);
      assert (a + b)[..|a| + |b| - 1] == a + front;
      Carry256(FromBytes(a), Pow256(|front|), FromBytes(front), b[|b| - 1]);
    }
  }

  lemma Times256(n: nat, p: nat)
    ensures n * (256 * p) == 256 * (n * p)
  {
  }

  lemma Carry256(a: nat, p: nat, b: nat, d: nat)
    ensures 256 * (a * p + b) + d == a * (256 * p) + (256 * b + d)
  {
    Times256(a, p);
  }

  lemma {:induction false} FromBytesBound(b: Bytes)
    ensures FromBytes(b) < Pow256(|b|)
  {
    if b != [] {
      FromBytesBound(b[..|b| - 1]);
    }
  }

  // The byte that two digits make.
  function PairValue(hi: char, lo: char): Byte
    requires HexValue(hi).Some? && HexValue(lo).Some?
  {
    16 * HexValue(hi).value + HexValue(lo).value
  }

  lemma HexNatStep(s: string, hi: char, lo: char)
    requires IsHex(s) && HexValue(hi).Some? && HexValue(lo).Some?
    ensures IsHex(s + [hi, lo]) && HexNat(s + [hi, lo]) == 256 * HexNat(s) + PairValue(hi, lo)
  {
    var t := s + [hi, lo];
    assert t[..|t| - 1] == s + [hi] && (s + [hi])[..|s|] == s;
  }

  // Digits after the text shift it by whole bytes.
  lemma {:induction false} HexNatAppend(s: string, t: string, k: nat)
    requires IsHex(s) && IsHex(t) && |t| == 2 * k
    ensures IsHex(s + t) && HexNat(s + t) == HexNat(s) * Pow256(k) + HexNat(t)
    decreases k
  {
    if k == 0 {
      assert s + t == s;
    } else {
      var front, hi, lo := t[..|t| - 2], t[|t| - 2], t[|t| - 1];
      HexNatAppend(s, front, k - 1);
      HexNatStep(s + front, hi, lo);
      HexNatStep(front, hi, lo);
      assert s + t == s + front + [hi, lo] && t == front + [hi, lo];
      Carry256(HexNat(s), Pow256(k - 1), HexNat(front), PairValue(hi, lo));
    }
  }

  // Pairs of digits decode to bytes with the same value.
  lemma {:induction false} HexBytesMeans(s: string)
    requires IsHex(s) && |s| % 2 == 0
    ensures |HexBytes(s)| == |s| / 2 && FromBytes(HexBytes(s)) == HexNat(s)
  {
    if s != "" {
      HexBytesMeans(s[2..]);
      assert s == [s[0], s[1]] + s[2..];
      HexPair(s[0], s[1]);
      HexNatAppend([s[0], s[1]], s[2..], |s| / 2 - 1);
      FirstByte(HexNat([s[0], s[1]]), HexBytes(s[2..]));
    }
  }

  lemma FirstByte(x: Byte, b: Bytes)
    ensures FromBytes([x] + b) == x * Pow256(|b|) + FromBytes(b)
  {
    FromOne(x);
    FromBytesAppend([x], b);
  }

  lemma FromOne(x: Byte)
    ensures FromBytes([x]) == x
  {
    var one: Bytes := [x];
    assert one[..0] == [];
  }

  lemma HexPair(hi: char, lo: char)
    requires HexValue(hi).Some? && HexValue(lo).Some?
    ensures IsHex([hi, lo]) && HexNat([hi, lo]) == PairValue(hi, lo)
  {
    HexNatStep("", hi, lo);
    assert "" + [hi, lo] == [hi, lo];
  }

  // Decoding stops at a pair that is not all digits.
  lemma {:induction false} HexBytesStops(s: string, t: string)
    requires IsHex(s) && |s| % 2 == 0
    requires |t| < 2 || HexValue(t[0]).None? || HexValue(t[1]).None?
    ensures HexBytes(s + t) == HexBytes(s)
  {
    if s != "" {
      HexBytesStops(s[2..], t);
      assert (s + t)[2..] == s[2..] + t && (s + t)[0] == s[0] && (s + t)[1] == s[1];
    } else {
      assert s + t == t;
    }
  }

  lemma {:induction false} LeadingZero(s: string)
    requires IsHex(s)
    ensures IsHex("0" + s) && HexNat("0" + s) == HexNat(s)
  {
    if s != "" {
      LeadingZero(s[..|s| - 1]);
      assert ("0" + s)[..|s|] == "0" + s[..|s| - 1];
    } else {
      assert "0" + s == "0" && "0"[..0] == "";
    }
  }

  lemma Wraps(n: nat, q: nat, r: nat, p: nat)
    requires n == q * p + r && r < p
    ensures n % p == r
  {
    SmallRemainder(n, p, q, r);
  }

  lemma LastBytes(front: Bytes, tail: Bytes)
    requires |tail| == 20
    ensures FromBytes(front + tail) % TWO_160 == FromBytes(tail)
  {
    FromBytesAppend(front, tail);
    FromBytesBound(tail);
    Wraps(FromBytes(front + tail), FromBytes(front), FromBytes(tail), TWO_160);
  }

  lemma ShortIsSmall(b: Bytes)
    requires |b| <= 20
    ensures FromBytes(b) % TWO_160 == FromBytes(b)
  {
    FromBytesBound(b);
    PowMonotone(|b|, 20);
    SmallRemainder(FromBytes(b), TWO_160, 0, FromBytes(b));
  }

  lemma FitKeepsValue(b: Bytes, v: nat)
    requires v == FromBytes(b)
    ensures FromBytes(Fit(b)) == v % TWO_160
  {
    if |b| > 20 {
      assert b == b[..|b| - 20] + b[|b| - 20..];
      LastBytes(b[..|b| - 20], b[|b| - 20..]);
    } else {
      ShortIsSmall(b);
      FromZeros(20 - |b|, b);
      FullFits(b);
    }
  }

  lemma Bodies(s: string)
    requires IsHex(s)
    ensures Body("0x" + s) == Body("0X" + s) == Body(s) == s
  {
    assert HexValue('x').None? && HexValue('X').None?;
    assert ("0x" + s)[2..] == s && ("0X" + s)[2..] == s;
  }

  lemma EvenKeepsValue(s: string)
    requires IsHex(s)
    ensures |Even(s)| % 2 == 0 && IsHex(Even(s)) && HexNat(Even(s)) == HexNat(s)
  {
    if |s| % 2 == 1 {
      LeadingZero(s);
      assert Even(s) == "0" + s;
    } else {
      assert Even(s) == s;
    }
  }

  // The address that a text of digits stands for, with or without 0x and in either case: its number, modulo 2^160,
  // big endian.
  lemma HexToAddressMeans(s: string)
    requires IsHex(s)
    ensures FromBytes(HexToAddress(s)) == HexNat(s) % TWO_160
    ensures HexToAddress("0x" + s) == HexToAddress("0X" + s) == HexToAddress(s)
  {
    Bodies(s);
    EvenKeepsValue(s);
    HexBytesMeans(Even(s));
    FitKeepsValue(HexBytes(Even(s)), HexNat(s));
  }

  // How addresses are printed, two digits a byte.
  function HexText(b: Bytes): (s: string)
    ensures |s| == 2 * |b|
  {
    if b == [] then "" else ["0123456789abcdef"[b[0] / 16], "0123456789abcdef"[b[0] % 16]] + HexText(b[1..])
  }

  lemma {:induction false} HexBytesOfText(b: Bytes)
    ensures HexBytes(HexText(b)) == b
  {
    if b != [] {
      HexBytesOfText(b[1..]);
      HexPairDecodes(b[0] / 16, b[0] % 16, HexText(b[1..]));
    }
  }

  lemma HexPairDecodes(hi: nat, lo: nat, rest: string)
    requires hi < 16 && lo < 16
    ensures HexBytes(["0123456789abcdef"[hi], "0123456789abcdef"[lo]] + rest) == [16 * hi + lo] + HexBytes(rest)
  {
    var s := ["0123456789abcdef"[hi], "0123456789abcdef"[lo]] + rest;
    HexTable('0', hi);
    HexTable('0', lo);
    assert s[2..] == rest;
  }

  lemma {:induction false} TextIsHex(b: Bytes)
    ensures IsHex(HexText(b))
  {
    if b != [] {
      TextIsHex(b[1..]);
      HexTable('0', b[0] / 16);
      HexTable('0', b[0] % 16);
    }
  }

  // Every address is read back from its text.
  lemma AddressRoundTrip(a: Address)
    ensures HexToAddress(HexText(a)) == HexToAddress("0x" + HexText(a)) == a
  {
    TextIsHex(a);
    Bodies(HexText(a));
    HexBytesOfText(a);
    FullFits(a);
  }

  lemma FullFits(b: Bytes)
    requires |b| <= 20
    ensures Fit(b) == Zeros(20 - |b|) + b && (|b| == 20 ==> Fit(b) == b)
  {
    assert Zeros(0) + b == b;
  }

  // The limits in figures: a word is 256 bits, an address 160.
  lemma WordLimits()
    ensures TWO_256 == 0x1_0000_0000_0000_0000_0000_0000_0000_0000_0000_0000_0000_0000_0000_0000_0000_0000
    ensures TWO_160 == 0x1_0000_0000_0000_0000_0000_0000_0000_0000_0000_0000
  {
    assert Pow256(8) == TWO_64;
    assert Pow256(16) == TWO_64 * TWO_64;
    assert Pow256(20) == TWO_64 * TWO_64 * TWO_32;
  }
}
