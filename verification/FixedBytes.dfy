/** Fixed-width byte arrays: hashes and addresses as numbers, and their hexadecimal text. */
module FixedBytes {

  type Byte = n: nat | n < 256

  const ADDRESS_LENGTH: nat := 20

  // ----- byte strings as big-endian numbers -----

  function Pow256(n: nat): (p: nat)
    ensures p > 0
  {
    if n == 0 then 1 else 256 * Pow256(n - 1)
  }

  function Value(b: seq<Byte>): nat {
    if b == [] then 0 else 256 * Value(b[..|b| - 1]) + b[|b| - 1]
  }

  function Zeroes(n: nat): (z: seq<Byte>)
    ensures |z| == n
  { seq(n, _ => 0) }

  lemma {:induction false} ValueOfJoin(a: seq<Byte>, b: seq<Byte>)
    ensures Value(a + b) == Value(a) * Pow256(|b|) + Value(b)
    decreases |b|
  {
    if b == [] {
      assert a + b == a;
    } else {
      var init, p := b[..|b| - 1], Pow256(|b| - 1);
      ValueOfJoin(a, init);
      assert (a + b)[..|a + b| - 1] == a + init;
      assert 256 * (Value(a) * p) == Value(a) * (256 * p);
    }
  }

  lemma {:induction false} ValueBound(b: seq<Byte>)
    ensures Value(b) < Pow256(|b|)
    decreases |b|
  {
    if b != [] { ValueBound(b[..|b| - 1]); }
  }

  lemma {:induction false} ValueOfZeroes(n: nat)
    ensures Value(Zeroes(n)) == 0
  {
    if n > 0 {
      ValueOfZeroes(n - 1);
      assert Zeroes(n)[..n - 1] == Zeroes(n - 1);
    }
  }

  /** Byte strings of one length are told apart by their values. */
  lemma {:induction false} ValueInjective(a: seq<Byte>, b: seq<Byte>)
    requires |a| == |b| && Value(a) == Value(b)
    ensures a == b
    decreases |a|
  {
    if a != [] {
      ValueInjective(a[..|a| - 1], b[..|b| - 1]);
      assert a == a[..|a| - 1] + [a[|a| - 1]] && b == b[..|b| - 1] + [b[|b| - 1]];
    }
  }

  lemma LowPart(high: nat, p: nat, low: nat)
    requires low < p
    ensures (high * p + low) % p == low
  {
    if high == 0 {
      SmallModulo(low, p);
    } else {
      assert high * p + low == (high - 1) * p + low + p;
      LowPart(high - 1, p, low);
      AddModulus((high - 1) * p + low, p);
    }
  }

  lemma SmallModulo(x: nat, p: nat)
    requires x < p
    ensures x % p == x
  {}

  lemma AddModulus(x: nat, p: nat)
    requires p > 0
    ensures (x + p) % p == x % p
  {
    var q, r := x / p, x % p;
    assert x + p == (q + 1) * p + r;
    Quotient(x + p, p, q + 1, r);
  }

  lemma MultipleBound(d: int, p: nat)
    ensures d >= 1 ==> d * p >= p
    ensures d <= -1 ==> d * p + p <= 0
    ensures d == 0 ==> d * p == 0
  {}

  lemma Quotient(x: nat, p: nat, q: nat, r: nat)
    requires r < p && x == q * p + r
    ensures x % p == r
  {
    var d := x / p - q;
    assert x == x / p * p + x % p;
    assert d * p == x / p * p - q * p;
    assert d * p == r - x % p;
    MultipleBound(d, p);
  }

  // ----- SetBytes -----

  /** The last n bytes of b, with zeroes in front if b is shorter. */
  function ToFixed(b: seq<Byte>, n: nat): (r: seq<Byte>)
    ensures |r| == n
  {
    if |b| > n then b[|b| - n..] else Zeroes(n - |b|) + b
  }

  /** What SetBytes leaves in an array that held h. */
  function Overwritten(h: seq<Byte>, b: seq<Byte>): (r: seq<Byte>)
    ensures |r| == |h|
  {
    if |b| > |h| then b[|b| - |h|..] else h[..|h| - |b|] + b
  }

  /** Hash.SetBytes and Address.SetBytes. */
  method SetBytes(h: array<Byte>, b: seq<Byte>)
    modifies h
    ensures h[..] == Overwritten(old(h[..]), b)
  {
    var cropped := b;
    if |b| > h.Length { cropped := b[|b| - h.Length..]; }
    var offset := h.Length - |cropped|;
    forall i | 0 <= i < |cropped| { h[offset + i] := cropped[i]; }
  }

  /** BytesToHash and BytesToAddress, for n the length of the array. */
  method BytesToFixed(b: seq<Byte>, n: nat) returns (h: array<Byte>)
    ensures fresh(h) && h[..] == ToFixed(b, n)
  {
    h := new Byte[n](_ => 0);
    assert h[..] == Zeroes(n);
    SetBytes(h, b);
  }

  /** The number in the array is the number in the byte string, modulo what fits. */
  lemma FixedValueIsModulo(b: seq<Byte>, n: nat)
    ensures Value(ToFixed(b, n)) == Value(b) % Pow256(n)
  {
    hide Value, Pow256, Zeroes;
    if |b| > n {
      assert b == b[..|b| - n] + b[|b| - n..];
      ValueOfJoin(b[..|b| - n], b[|b| - n..]);
      ValueBound(b[|b| - n..]);
      LowPart(Value(b[..|b| - n]), Pow256(n), Value(b[|b| - n..]));
    } else {
      ValueOfJoin(Zeroes(n - |b|), b);
      ValueOfZeroes(n - |b|);
      ValueBound(ToFixed(b, n));
      SmallModulo(Value(b), Pow256(n));
    }
  }

  lemma ShortIsItself(b: seq<Byte>, n: nat)
    requires |b| <= n
    ensures Value(b) % Pow256(n) == Value(b)
  {
    hide Value, Pow256;
    ValueBound(b);
    PowMonotone(|b|, n);
    SmallModulo(Value(b), Pow256(n));
  }

  /** SetBytes on an array in use gives it that number exactly when no byte in front of the new ones was set: bytes that
      b does not reach keep what they held. */
  lemma OverwrittenIsFixedIff(h: seq<Byte>, b: seq<Byte>)
    ensures Value(Overwritten(h, b)) == Value(b) % Pow256(|h|) <==> |b| >= |h| || Value(h[..|h| - |b|]) == 0
  {
    hide Value, Pow256, Zeroes;
    if |b| > |h| {
      FixedValueIsModulo(b, |h|);
    } else {
      var front := h[..|h| - |b|];
      ShortIsItself(b, |h|);
      ValueOfJoin(front, b);
      MultipleBound(Value(front), Pow256(|b|));
      assert Overwritten(h, b) == front + b;
      if |b| == |h| { assert front + b == b; }
    }
  }

  /** Such an array: it held [1, 0], and after the write of [5] it holds 261. */
  lemma OldByteStays()
    ensures Overwritten([1, 0], [5]) == [1, 5] && Value(Overwritten([1, 0], [5])) == 261 && Value([5]) == 5
  {
    assert [1, 5][..1] == [1] && [1][..0] == [] && [5][..0] == [];
    assert Overwritten([1, 0], [5]) == [1, 5];
  }

  // ----- padding and trimming -----

  method LeftPadBytes(b: seq<Byte>, l: nat) returns (padded: seq<Byte>)
    ensures padded == if l <= |b| then b else ToFixed(b, l)
    ensures Value(padded) == Value(b)
  {
    hide Value, Pow256;
    if l <= |b| { return b; }
    var buffer := new Byte[l](_ => 0);
    assert buffer[..] == Zeroes(l);
    forall i | 0 <= i < |b| { buffer[l - |b| + i] := b[i]; }
    padded := buffer[..];
    assert padded == ToFixed(b, l);
    ValueOfJoin(Zeroes(l - |b|), b);
    ValueOfZeroes(l - |b|);
  }

  function Trimmed(b: seq<Byte>): seq<Byte> {
    if b != [] && b[0] == 0 then Trimmed(b[1..]) else b
  }

  method TrimLeftZeroes(b: seq<Byte>) returns (r: seq<Byte>)
    ensures r == Trimmed(b)
  {
    var idx := 0;
    while idx < |b|
      invariant 0 <= idx <= |b| && Trimmed(b) == Trimmed(b[idx..])
    {
      if b[idx] != 0 { break; }
      idx := idx + 1;
    }
    return b[idx..];
  }

  lemma {:induction false} TrimKeepsValue(b: seq<Byte>)
    ensures Value(Trimmed(b)) == Value(b)
    ensures Trimmed(b) == [] || Trimmed(b)[0] != 0
    decreases |b|
  {
    if b != [] && b[0] == 0 {
      TrimKeepsValue(b[1..]);
      assert b == [0] + b[1..];
      ValueOfJoin([0], b[1..]);
      ValueOfOne(0);
    }
  }

  lemma ValueOfOne(c: Byte)
    ensures Value([c]) == c
  {
    assert [c][..0] == [] && Value([c]) == 256 * Value([]) + c;
  }

  /** Without leading zeroes, the longer string is the greater number. */
  lemma LongerIsGreater(a: seq<Byte>, b: seq<Byte>)
    requires |a| < |b| && b[0] != 0
    ensures Value(a) < Value(b)
  {
    hide Value, Pow256;
    ValueBound(a);
    assert b == [b[0]] + b[1..];
    ValueOfJoin([b[0]], b[1..]);
    ValueOfOne(b[0]);
    MultipleBound(b[0], Pow256(|b| - 1));
    PowMonotone(|a|, |b| - 1);
  }

  lemma {:induction false} PowMonotone(m: nat, n: nat)
    requires m <= n
    ensures Pow256(m) <= Pow256(n)
    decreases n - m
  {
    if m < n { PowMonotone(m, n - 1); }
  }

  /** Two byte strings are the same number exactly when they trim to the same string. */
  lemma TrimIsCanonical(a: seq<Byte>, b: seq<Byte>)
    ensures Trimmed(a) == Trimmed(b) <==> Value(a) == Value(b)
  {
    TrimKeepsValue(a);
    TrimKeepsValue(b);
    var s, t := Trimmed(a), Trimmed(b);
    if |s| < |t| {
      LongerIsGreater(s, t);
    } else if |t| < |s| {
      LongerIsGreater(t, s);
    } else if Value(a) == Value(b) {
      ValueInjective(s, t);
    }
  }

  // ----- hexadecimal text -----

  predicate IsHexCharacter(c: char) { '0' <= c <= '9' || 'a' <= c <= 'f' || 'A' <= c <= 'F' }

  function HexValue(c: char): (v: nat)
    requires IsHexCharacter(c)
    ensures v < 16
  {
    if '0' <= c <= '9' then (c as int) - ('0' as int)
    else if 'a' <= c <= 'f' then (c as int) - ('a' as int) + 10
    else (c as int) - ('A' as int) + 10
  }

  function HexCharacter(v: nat): (c: char)
    requires v < 16
    ensures IsHexCharacter(c) && HexValue(c) == v && !('A' <= c <= 'F')
  {
    "0123456789abcdef"[v]
  }

  /** hex.EncodeToString. */
  function Encode(b: seq<Byte>): (s: string)
    ensures |s| == 2 * |b|
  {
    if b == [] then "" else [HexCharacter(b[0] / 16), HexCharacter(b[0] % 16)] + Encode(b[1..])
  }

  /** hex.DecodeString with its error ignored: the bytes before the first pair that is not hexadecimal. */
  function Decode(s: string): seq<Byte> {
    if |s| < 2 || !IsHexCharacter(s[0]) || !IsHexCharacter(s[1]) then []
    else [16 * HexValue(s[0]) + HexValue(s[1])] + Decode(s[2..])
  }

  predicate Has0xPrefix(s: string) { |s| >= 2 && s[0] == '0' && (s[1] == 'x' || s[1] == 'X') }

  function Without0x(s: string): string { if Has0xPrefix(s) then s[2..] else s }

  function FromHex(s: string): seq<Byte> {
    var digits := Without0x(s);
    Decode(if |digits| % 2 == 1 then "0" + digits else digits)
  }

  /** HexToHash and HexToAddress. */
  function HexToFixed(s: string, n: nat): seq<Byte> { ToFixed(FromHex(s), n) }

  method Hex2BytesFixed(s: string, n: nat) returns (r: seq<Byte>)
    ensures r == ToFixed(Decode(s), n)
  {
    var h := Decode(s);
    if |h| == n { return h; }
    if |h| > n { return h[|h| - n..]; }
    var buffer := new Byte[n](_ => 0);
    assert buffer[..] == Zeroes(n);
    forall i | 0 <= i < |h| { buffer[n - |h| + i] := h[i]; }
    r := buffer[..];
  }

  predicate AllHex(s: string) { forall i :: 0 <= i < |s| ==> IsHexCharacter(s[i]) }

  method IsHex(s: string) returns (r: bool)
    ensures r <==> |s| % 2 == 0 && AllHex(s)
  {
    if |s| % 2 != 0 { return false; }
    for i := 0 to |s|
      invariant forall k :: 0 <= k < i ==> IsHexCharacter(s[k])
    {
      if !IsHexCharacter(s[i]) { return false; }
    }
    return true;
  }

  predicate IsHexAddress(s: string) {
    var digits := Without0x(s);
    |digits| == 2 * ADDRESS_LENGTH && AllHex(digits)
  }

  // ----- the checksummed address -----

  /** The letter raised, if the checksum says so. */
  function Raised(c: char, nibble: nat): char {
    if '9' < c <= '\U{FF}' && nibble > 7 then ((c as int) - 32) as char else c
  }

  function Nibble(digest: seq<Byte>, i: nat): nat
    requires i / 2 < |digest|
  {
    if i % 2 == 0 then digest[i / 2] / 16 else digest[i / 2] % 16
  }

  function Checksummed(digits: string, digest: seq<Byte>): (s: string)
    requires |digits| <= 2 * |digest|
    ensures |s| == |digits|
  {
    seq(|digits|, i requires 0 <= i < |digits| => Raised(digits[i], Nibble(digest, i)))
  }

  /** The EIP-55 spelling of an address, for any hash function whose digest is long enough. */
  function ChecksumHex(a: seq<Byte>, hash: string -> seq<Byte>): string
    requires |a| <= |hash(Encode(a))|
  {
    "0x" + Checksummed(Encode(a), hash(Encode(a)))
  }

  /** checksumHex: the digits of the address, raised where the digits of the digest say so. */
  method AddressHex(a: seq<Byte>, hash: string -> seq<Byte>) returns (buf: array<char>)
    requires |a| <= |hash(Encode(a))|
    ensures buf[..] == ChecksumHex(a, hash)
    ensures SpelledByChecksum(buf[..], Encode(a), Encode(hash(Encode(a))))
  {
    buf := RaiseDigits(a, hash);
    ChecksumIsSpelled(a, hash);
  }

  /** The loop raises letters in the buffer that hex() filled. */
  method RaiseDigits(a: seq<Byte>, hash: string -> seq<Byte>) returns (buf: array<char>)
    requires |a| <= |hash(Encode(a))|
    ensures buf[..] == ChecksumHex(a, hash)
  {
    var digits := Encode(a);
    LowerCase(a);
    hide Encode, HexValue, IsHexCharacter, Raised, Nibble, Checksummed;
    var text := "0x" + digits;
    buf := new char[|text|](i requires 0 <= i < |text| => text[i]);
    assert buf[2..] == digits;
    var digest := hash(buf[2..]);
    for i := 2 to buf.Length
      invariant buf[0] == '0' && buf[1] == 'x'
      invariant forall k :: i <= k < buf.Length ==> buf[k] == digits[k - 2]
      invariant forall k :: 2 <= k < i ==> buf[k] == Raised(digits[k - 2], Nibble(digest, k - 2))
    {
      var hashByte: nat := digest[(i - 2) / 2];
      if i % 2 == 0 {
        hashByte := hashByte / 16;
      } else {
        hashByte := hashByte % 16;
      }
      NibbleIs(digest, i - 2);
      RaisedIs(digits[i - 2], hashByte);
      if buf[i] > '9' && hashByte > 7 { buf[i] := ((buf[i] as int) - 32) as char; }
    }
    ChecksummedIs(digits, digest, buf[2..]);
    assert buf[..] == "0x" + buf[2..];
  }

  lemma NibbleIs(digest: seq<Byte>, i: nat)
    requires i / 2 < |digest|
    ensures Nibble(digest, i) == if (i + 2) % 2 == 0 then digest[i / 2] / 16 else digest[i / 2] % 16
  {}

  lemma RaisedIs(c: char, nibble: nat)
    requires c <= 'f'
    ensures Raised(c, nibble) == if c > '9' && nibble > 7 then ((c as int) - 32) as char else c
  {}

  lemma ChecksummedIs(digits: string, digest: seq<Byte>, s: string)
    requires |s| == |digits| <= 2 * |digest|
    requires forall k :: 0 <= k < |s| ==> s[k] == Raised(digits[k], Nibble(digest, k))
    ensures s == Checksummed(digits, digest)
  {}

  /** What the checksum raises: a digit of the address that is a letter, where the digit of the digest at the same place is 8 or more. All
      other characters are those of the plain text. */
  ghost predicate SpelledByChecksum(s: string, digits: string, checks: string) {
    && |s| == |digits| + 2 <= |checks| + 2 && s[..2] == "0x"
    && forall i :: 0 <= i < |digits| ==>
         s[2 + i] == if digits[i] in "abcdef" && checks[i] in "89abcdef" then Capital(digits[i]) else digits[i]
  }

  function Capital(c: char): char {
    match c
    case 'a' => 'A'
    case 'b' => 'B'
    case 'c' => 'C'
    case 'd' => 'D'
    case 'e' => 'E'
    case 'f' => 'F'
    case _ => c
  }

  /** The digits of a byte string, one by one. */
  lemma {:induction false} EncodedDigits(b: seq<Byte>, i: nat)
    requires i < |b|
    ensures Encode(b)[2 * i] == "0123456789abcdef"[b[i] / 16]
    ensures Encode(b)[2 * i + 1] == "0123456789abcdef"[b[i] % 16]
    decreases |b|
  {
    var head, rest := [HexCharacter(b[0] / 16), HexCharacter(b[0] % 16)], Encode(b[1..]);
    assert Encode(b) == head + rest;
    if i > 0 {
      EncodedDigits(b[1..], i - 1);
      hide Encode;
      assert (head + rest)[2 * i] == rest[2 * (i - 1)] && (head + rest)[2 * i + 1] == rest[2 * (i - 1) + 1];
    }
  }

  lemma NibbleIsDigit(digest: seq<Byte>, i: nat)
    requires i < 2 * |digest|
    ensures Encode(digest)[i] == "0123456789abcdef"[Nibble(digest, i)]
  {
    EncodedDigits(digest, i / 2);
    assert i == if i % 2 == 0 then 2 * (i / 2) else 2 * (i / 2) + 1;
  }

  lemma RaisedIsCapital(c: char, nibble: nat)
    requires IsHexCharacter(c) && !('A' <= c <= 'F') && nibble < 16
    ensures Raised(c, nibble) == if c in "abcdef" && "0123456789abcdef"[nibble] in "89abcdef" then Capital(c) else c
  {
    assert "0123456789abcdef"[nibble] in "89abcdef" <==> nibble > 7;
    assert c in "abcdef" <==> 'a' <= c <= 'f';
  }

  /** The checksummed text of an address, by the digits of the address and of the digest alone. */
  lemma ChecksumIsSpelled(a: seq<Byte>, hash: string -> seq<Byte>)
    requires |a| <= |hash(Encode(a))|
    ensures SpelledByChecksum(ChecksumHex(a, hash), Encode(a), Encode(hash(Encode(a))))
  {
    var digits, digest := Encode(a), hash(Encode(a));
    LowerCase(a);
    hide Encode, IsHexCharacter, Raised, Nibble, Capital;
    var s := Checksummed(digits, digest);
    assert ("0x" + s)[..2] == "0x";
    forall i | 0 <= i < |digits|
      ensures ("0x" + s)[2 + i] == if digits[i] in "abcdef" && Encode(digest)[i] in "89abcdef" then Capital(digits[i]) else digits[i]
    {
      assert ("0x" + s)[2 + i] == s[i] == Raised(digits[i], Nibble(digest, i));
      NibbleIsDigit(digest, i);
      NibbleBound(digest, i);
      RaisedIsCapital(digits[i], Nibble(digest, i));
    }
  }

  lemma NibbleBound(digest: seq<Byte>, i: nat)
    requires i / 2 < |digest|
    ensures Nibble(digest, i) < 16
  {}

  // ----- round trips -----

  predicate SameDigit(c: char, d: char) { IsHexCharacter(c) && IsHexCharacter(d) && HexValue(c) == HexValue(d) }

  /** The same text but for the case of letters from a to f. */
  ghost predicate SameDigits(s: string, t: string) {
    |s| == |t| && forall i :: 0 <= i < |s| ==> SameDigit(s[i], t[i])
  }

  lemma {:induction false} LowerCase(b: seq<Byte>)
    ensures forall i :: 0 <= i < |Encode(b)| ==> IsHexCharacter(Encode(b)[i]) && !('A' <= Encode(b)[i] <= 'F') && Encode(b)[i] <= 'f'
    decreases |b|
  {
    if b != [] { LowerCase(b[1..]); }
  }

  /** Decoding inverts encoding, whatever the case of the letters. */
  lemma {:induction false} DecodeOfEncoding(b: seq<Byte>, s: string)
    requires SameDigits(s, Encode(b))
    ensures Decode(s) == b
    decreases |b|
  {
    if b != [] {
      var rest, t := s[2..], Encode(b);
      assert t == [HexCharacter(b[0] / 16), HexCharacter(b[0] % 16)] + Encode(b[1..]);
      assert SameDigit(s[0], t[0]) && SameDigit(s[1], t[1]);
      assert t[2..] == Encode(b[1..]);
      TailSameDigits(s, t);
      DecodeOfEncoding(b[1..], rest);
      assert Decode(s) == [16 * HexValue(s[0]) + HexValue(s[1])] + Decode(rest);
    }
  }

  lemma TailSameDigits(s: string, t: string)
    requires SameDigits(s, t) && |s| >= 2
    ensures SameDigits(s[2..], t[2..])
  {
    hide SameDigit;
  }

  lemma PairSameDigits(a: char, b: char, c: char, d: char, s: string, t: string)
    requires SameDigits(s, t) && SameDigit(a, c) && SameDigit(b, d)
    ensures SameDigits([a, b] + s, [c, d] + t)
  {
    hide SameDigit;
  }

  /** Every even text of hexadecimal digits is an encoding but for case. */
  lemma {:induction false} EncodingOfDecode(s: string)
    requires |s| % 2 == 0 && AllHex(s)
    ensures SameDigits(s, Encode(Decode(s)))
    decreases |s|
  {
    if s != "" {
      var rest := s[2..];
      var first: Byte := 16 * HexValue(s[0]) + HexValue(s[1]);
      hide IsHexCharacter, HexValue, SameDigits;
      EncodingOfDecode(rest);
      assert Decode(s) == [first] + Decode(rest) && Decode(s)[1..] == Decode(rest);
      PairSameDigits(s[0], s[1], HexCharacter(first / 16), HexCharacter(first % 16), rest, Encode(Decode(rest)));
      assert s == [s[0], s[1]] + rest;
    } else {
      assert Decode(s) == [] && Encode([]) == "";
    }
  }

  lemma FromHexOfText(b: seq<Byte>, digits: string, s: string)
    requires SameDigits(digits, Encode(b)) && (s == digits || s == "0x" + digits)
    ensures Without0x(s) == digits && FromHex(s) == b
  {
    DecodeOfEncoding(b, digits);
    assert |digits| % 2 == 0 && (|digits| >= 2 ==> SameDigit(digits[1], Encode(b)[1]));
    hide Decode, Encode, SameDigits;
    assert ("0x" + digits)[2..] == digits;
  }

  lemma ToFixedOfFull(b: seq<Byte>)
    ensures ToFixed(b, |b|) == b
  {}

  // ----- the number that a text spells -----

  /** The digits that are read, and their values. */
  lemma HexDigitIff(c: char, v: nat)
    requires v < 16
    ensures IsHexCharacter(c) && HexValue(c) == v <==> c == "0123456789abcdef"[v] || c == "0123456789ABCDEF"[v]
  {}

  /** The number that a text spells in base sixteen. */
  function Spelled(s: string): nat
    requires AllHex(s)
  {
    if s == "" then 0 else 16 * Spelled(s[..|s| - 1]) + HexValue(s[|s| - 1])
  }

  lemma {:induction false} SpelledOfPairs(s: string)
    requires |s| % 2 == 0 && AllHex(s)
    ensures |Decode(s)| == |s| / 2 && Value(Decode(s)) == Spelled(s)
    decreases |s|
  {
    hide IsHexCharacter, HexValue;
    if s != "" {
      var init, c, d := s[..|s| - 2], s[|s| - 2], s[|s| - 1];
      SpelledOfPairs(init);
      DecodeSnoc(init, c, d);
      assert s == init + [c, d];
      assert s[..|s| - 1] == init + [c] && (init + [c])[..|init|] == init;
      assert Spelled(init + [c]) == 16 * Spelled(init) + HexValue(c);
      assert Spelled(s) == 16 * Spelled(init + [c]) + HexValue(d);
      var last: Byte := 16 * HexValue(c) + HexValue(d);
      assert (Decode(init) + [last])[..|Decode(init)|] == Decode(init);
    }
  }

  lemma {:induction false} DecodeSnoc(init: string, c: char, d: char)
    requires |init| % 2 == 0 && AllHex(init) && IsHexCharacter(c) && IsHexCharacter(d)
    ensures Decode(init + [c, d]) == Decode(init) + [16 * HexValue(c) + HexValue(d)]
    decreases |init|
  {
    hide IsHexCharacter, HexValue;
    var whole := init + [c, d];
    if init == "" {
      assert whole == [c, d] && whole[2..] == "";
    } else {
      assert whole[2..] == init[2..] + [c, d];
      DecodeSnoc(init[2..], c, d);
    }
  }

  /** FromHex reads any text of digits, odd or even, prefixed or not, as the number that it spells. */
  lemma FromHexIsSpelled(s: string)
    requires AllHex(Without0x(s))
    ensures Value(FromHex(s)) == Spelled(Without0x(s)) && |FromHex(s)| == (|Without0x(s)| + 1) / 2
  {
    var digits := Without0x(s);
    if |digits| % 2 == 1 {
      var padded := "0" + digits;
      assert AllHex(padded);
      SpelledOfPairs(padded);
      ZeroInFront(digits);
    } else {
      SpelledOfPairs(digits);
    }
  }

  lemma {:induction false} ZeroInFront(s: string)
    requires AllHex(s) && AllHex("0" + s)
    ensures Spelled("0" + s) == Spelled(s)
    decreases |s|
  {
    if s == "" {
      assert "0" + s == "0" && "0"[..0] == "";
    } else {
      var init := s[..|s| - 1];
      assert ("0" + s)[..|s|] == "0" + init;
      ZeroInFront(init);
    }
  }

  /** A prefix is cut off, in either case and once. */
  lemma PrefixIsCut(t: string)
    ensures Without0x("0x" + t) == t && Without0x("0X" + t) == t
    ensures !("0x" <= t) && !("0X" <= t) ==> Without0x(t) == t
  {
    assert ("0x" + t)[2..] == t && ("0X" + t)[2..] == t;
    if |t| >= 2 && t[0] == '0' {
      assert t[1] == 'x' ==> t[..2] == "0x";
      assert t[1] == 'X' ==> t[..2] == "0X";
    }
  }

  /** Decoding stops at the first pair that is not hexadecimal, or at the last whole pair. */
  lemma {:induction false} DecodeReads(s: string, i: nat)
    ensures i < |Decode(s)| <==> 2 * i + 1 < |s| && AllHex(s[..2 * i + 2])
    ensures i < |Decode(s)| ==> Decode(s)[i] == 16 * HexValue(s[2 * i]) + HexValue(s[2 * i + 1])
    decreases |s|
  {
    hide HexValue, IsHexCharacter;
    if |s| >= 2 {
      if i > 0 {
        DecodeReads(s[2..], i - 1);
        if 2 * i + 1 < |s| {
          var head, tail := s[..2 * i + 2], s[2..][..2 * (i - 1) + 2];
          assert head == [s[0], s[1]] + tail;
          assert AllHex(head) <==> IsHexCharacter(s[0]) && IsHexCharacter(s[1]) && AllHex(tail) by {
            if AllHex(head) {
              assert head[0] == s[0] && head[1] == s[1];
              assert forall k :: 0 <= k < |tail| ==> tail[k] == head[k + 2];
            }
          }
        }
      } else {
        assert s[..2][0] == s[0] && s[..2][1] == s[1];
      }
    }
  }

  /** HexToHash(h.Hex()) == h. */
  lemma HashHexRoundTrip(h: seq<Byte>)
    ensures HexToFixed("0x" + Encode(h), |h|) == h
  {
    LowerCase(h);
    assert SameDigits(Encode(h), Encode(h));
    FromHexOfText(h, Encode(h), "0x" + Encode(h));
    ToFixedOfFull(h);
  }

  lemma RaisedKeepsDigit(c: char, nibble: nat)
    requires IsHexCharacter(c) && !('A' <= c <= 'F')
    ensures SameDigit(Raised(c, nibble), c)
  {}

  lemma ChecksumKeepsDigits(a: seq<Byte>, digest: seq<Byte>)
    requires |a| <= |digest|
    ensures SameDigits(Checksummed(Encode(a), digest), Encode(a))
  {
    LowerCase(a);
    var digits := Encode(a);
    hide Encode, SameDigit, Raised;
    forall i | 0 <= i < |digits| ensures SameDigit(Checksummed(digits, digest)[i], digits[i]) {
      RaisedKeepsDigit(digits[i], Nibble(digest, i));
    }
  }

  /** HexToAddress(a.Hex()) == a, and a.Hex() is a valid address text, whatever the hash function in the checksum. */
  lemma AddressHexRoundTrip(a: seq<Byte>, hash: string -> seq<Byte>)
    requires |a| == ADDRESS_LENGTH && |a| <= |hash(Encode(a))|
    ensures HexToFixed(ChecksumHex(a, hash), ADDRESS_LENGTH) == a
    ensures IsHexAddress(ChecksumHex(a, hash))
  {
    var digits := Checksummed(Encode(a), hash(Encode(a)));
    ChecksumKeepsDigits(a, hash(Encode(a)));
    FromHexOfText(a, digits, ChecksumHex(a, hash));
    ToFixedOfFull(a);
    hide FromHex, Encode, Checksummed;
    assert AllHex(digits);
  }

  /** A text is accepted as an address exactly when it spells one, up to case and prefix, and it then reads as that one. */
  lemma IsHexAddressIff(s: string, a: seq<Byte>)
    requires |a| == ADDRESS_LENGTH
    ensures SameDigits(Without0x(s), Encode(a)) <==> IsHexAddress(s) && HexToFixed(s, ADDRESS_LENGTH) == a
  {
    hide *;
    if SameDigits(Without0x(s), Encode(a)) { SpellingIsAccepted(s, a); }
    if IsHexAddress(s) { AcceptedIsSpelling(s); }
  }

  lemma SpellingIsAccepted(s: string, a: seq<Byte>)
    requires |a| == ADDRESS_LENGTH && SameDigits(Without0x(s), Encode(a))
    ensures IsHexAddress(s) && HexToFixed(s, ADDRESS_LENGTH) == a
  {
    hide Decode, Encode, SameDigits, ToFixed;
    var digits := Without0x(s);
    DecodeOfEncoding(a, digits);
    ToFixedOfFull(a);
    DigitsAreHex(digits, Encode(a));
  }

  lemma AcceptedIsSpelling(s: string)
    requires IsHexAddress(s)
    ensures SameDigits(Without0x(s), Encode(HexToFixed(s, ADDRESS_LENGTH)))
  {
    hide Decode, Encode, Without0x, ToFixed, AllHex;
    var digits := Without0x(s);
    EncodingOfDecode(digits);
    assert |digits| == 2 * |Decode(digits)| by { assert |digits| == |Encode(Decode(digits))|; }
    ToFixedOfFull(Decode(digits));
  }

  lemma DigitsAreHex(s: string, t: string)
    requires SameDigits(s, t)
    ensures AllHex(s) && |s| == |t|
  {}

  /** Big(): the number of a hash, back into a hash. */
  lemma BigRoundTrip(h: seq<Byte>, b: seq<Byte>)
    requires Value(b) == Value(h)
    ensures ToFixed(b, |h|) == h
  {
    FixedValueIsModulo(b, |h|);
    ValueBound(h);
    SmallModulo(Value(h), Pow256(|h|));
    ValueInjective(ToFixed(b, |h|), h);
  }
}
