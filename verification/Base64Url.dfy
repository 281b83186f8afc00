/**
 * Base64url by hand: a 32-bit accumulator against the bit string of section 5
 * of RFC 4648. What the shifts push out of the 32 bits was written out before.
 */
module Base64Url {
  import opened Datoms

  function Run(from: char, n: nat): string
    requires from as int + n <= 128
  {
    seq(n, i requires 0 <= i < n => (from as int + i) as char)
  }

  /** `A` to `Z`, `a` to `z`, `0` to `9`, `-`, `_`. */
  function Alphabet(): (s: string)
    ensures |s| == 64
  {
    Run('A', 26) + Run('a', 26) + Run('0', 10) + "-_"
  }

  /** Where a character stands in the alphabet; -1 if it does not. */
  function Sextet(c: char): (i: int)
    ensures -1 <= i < 64
  {
    if 'A' <= c <= 'Z' then c as int - 'A' as int
    else if 'a' <= c <= 'z' then c as int - 'a' as int + 26
    else if '0' <= c <= '9' then c as int - '0' as int + 52
    else if c == '-' then 62
    else if c == '_' then 63
    else -1
  }

  /** Exactly the 64 characters of the alphabet are read, each as its place in it. */
  lemma SextetIff(c: char, i: nat)
    ensures Sextet(c) == i <==> i < 64 && Alphabet()[i] == c
    ensures Sextet(c) == -1 <==> c !in Alphabet()
  {
    var a := Alphabet();
    if Sextet(c) >= 0 {
      assert a[Sextet(c)] == c;
    }
  }

  // ---- bit strings, most significant first ---------------------------------------------------

  function BitsOf(n: nat, width: nat): (bits: seq<bool>)
    ensures |bits| == width
  {
    if width == 0 then [] else BitsOf(n / 2, width - 1) + [n % 2 == 1]
  }

  function Value(bits: seq<bool>): nat {
    if bits == [] then 0 else 2 * Value(bits[..|bits| - 1]) + (if bits[|bits| - 1] then 1 else 0)
  }

  function Pow2(n: nat): (p: nat)
    ensures p >= 1
  {
    if n == 0 then 1 else 2 * Pow2(n - 1)
  }

  lemma {:induction false} ValueBound(bits: seq<bool>)
    ensures Value(bits) < Pow2(|bits|)
  {
    if bits != [] {
      ValueBound(bits[..|bits| - 1]);
    }
  }

  lemma {:induction false} ValueOfBits(n: nat, width: nat)
    requires n < Pow2(width)
    ensures Value(BitsOf(n, width)) == n
  {
    if width > 0 {
      ValueOfBits(n / 2, width - 1);
      var bits := BitsOf(n, width);
      assert bits[..width - 1] == BitsOf(n / 2, width - 1);
    }
  }

  lemma {:induction false} BitsOfValue(bits: seq<bool>)
    ensures BitsOf(Value(bits), |bits|) == bits
  {
    if bits != [] {
      BitsOfValue(bits[..|bits| - 1]);
      assert bits == bits[..|bits| - 1] + [bits[|bits| - 1]];
    }
  }

  lemma ValueSnoc(a: seq<bool>, x: bool)
    ensures Value(a + [x]) == 2 * Value(a) + (if x then 1 else 0)
  {
    assert (a + [x])[..|a|] == a;
  }

  lemma {:induction false} ValueConcat(a: seq<bool>, b: seq<bool>)
    ensures Value(a + b) == Value(a) * Pow2(|b|) + Value(b)
  {
    if b == [] {
      assert a + b == a;
    } else {
      var init, last := b[..|b| - 1], b[|b| - 1];
      ValueConcat(a, init);
      assert a + b == (a + init) + [last] && b == init + [last];
      ValueSnoc(a + init, last);
      ValueSnoc(init, last);
      Doubled(Value(a), Pow2(|init|), Value(init), Value(a + init));
    }
  }

  lemma Doubled(v: nat, p: nat, w: nat, sum: nat)
    requires sum == v * p + w
    ensures 2 * sum == v * (2 * p) + 2 * w
  {
  }

  // ---- decoding, as the standard says ----------------------------------------------------------

  function StripPadding(s: string): string {
    if s != [] && s[|s| - 1] == '=' then StripPadding(s[..|s| - 1]) else s
  }

  predicate Valid(s: string) {
    forall i :: 0 <= i < |s| ==> Sextet(s[i]) >= 0
  }

  /** Six bits a character, end to end. */
  function Bits(s: string): (bits: seq<bool>)
    requires Valid(s)
    ensures |bits| == 6 * |s|
  {
    if s == [] then [] else Bits(s[..|s| - 1]) + BitsOf(Sextet(s[|s| - 1]), 6)
  }

  function Groups(bits: seq<bool>, n: nat): (bytes: seq<nat>)
    requires 8 * n <= |bits|
    ensures |bytes| == n
  {
    seq(n, k requires 0 <= k < n => Value(bits[8 * k..8 * k + 8]))
  }

  /** Whole groups of eight; a remainder is dropped. */
  function Bytes(bits: seq<bool>): (bytes: seq<nat>)
    ensures |bytes| == |bits| / 8
  {
    Groups(bits, |bits| / 8)
  }

  /** `None` is a character outside the alphabet. */
  function Decode(input: string): Option<seq<nat>> {
    var cleaned := StripPadding(input);
    if Valid(cleaned) then Some(Bytes(Bits(cleaned))) else None
  }

  lemma GroupsOfPrefix(a: seq<bool>, b: seq<bool>, n: nat)
    requires |a| == 8 * n
    ensures Groups(a + b, n) == Groups(a, n) == Bytes(a)
  {
    forall k | 0 <= k < n ensures (a + b)[8 * k..8 * k + 8] == a[8 * k..8 * k + 8] {
    }
    assert |a| / 8 == n;
  }

  lemma BytesOfGroups(whole: seq<bool>, rest: seq<bool>, n: nat)
    requires |whole| == 8 * n && |rest| < 8
    ensures Bytes(whole + rest) == Bytes(whole)
  {
    GroupsOfPrefix(whole, rest, n);
    assert |whole + rest| / 8 == n;
  }

  lemma BytesSnoc(whole: seq<bool>, group: seq<bool>, n: nat)
    requires |whole| == 8 * n && |group| == 8
    ensures Bytes(whole + group) == Bytes(whole) + [Value(group)]
  {
    var bits := whole + group;
    GroupsOfPrefix(whole, group, n);
    assert |bits| / 8 == n + 1;
    assert bits[8 * n..8 * n + 8] == group;
  }

  // ---- decoding, as it is written --------------------------------------------------------------

  /** What a 32-bit signed number keeps of `n`. */
  function ToInt32(n: int): int {
    (n + 0x8000_0000) % 0x1_0000_0000 - 0x8000_0000
  }

  /** `(buffer << 6) | six`: the low six bits of the shift are zero. */
  function ShiftIn(buffer: int, six: nat): int
    requires six < 64
  {
    ToInt32(buffer * 64) + six
  }

  /** `(buffer >> bits) & 0xff`: the shift keeps the sign, and both round down. */
  function TakeByte(buffer: int, bits: nat): nat {
    (buffer / Pow2(bits)) % 256
  }

  /** The accumulator ends in the bits still waited for, however far it has wrapped: `q` is what is above them. */
  ghost predicate EndsIn(buffer: int, q: int, tail: seq<bool>) {
    buffer == q * Pow2(|tail|) + Value(tail)
  }

  /** How often the bits above `6 + log p` fit into 32. */
  function Above(p: nat): nat {
    if p == 1 then 0x400_0000 else if p == 4 then 0x100_0000 else if p == 16 then 0x40_0000 else 0x10_0000
  }

  lemma Powers()
    ensures Pow2(0) == 1 && Pow2(2) == 4 && Pow2(4) == 16 && Pow2(6) == 64 && Pow2(8) == 256
    ensures Pow2(10) == 1024 && Pow2(12) == 4096
  {
    assert Pow2(3) == 8 && Pow2(5) == 32 && Pow2(7) == 128 && Pow2(9) == 512 && Pow2(11) == 2048;
  }

  lemma Wrapped(buffer: int, six: nat) returns (k: int)
    requires six < 64
    ensures ShiftIn(buffer, six) == 64 * buffer + six - k * 0x1_0000_0000
    ensures -0x8000_0000 <= ShiftIn(buffer, six) < 0x8000_0000
  {
    var n := buffer * 64;
    k := (n + 0x8000_0000) / 0x1_0000_0000;
    var m := buffer - k * 0x400_0000;
    assert ToInt32(n) == 64 * m;
  }

  lemma ShiftedIn(buffer: int, six: nat, q: int, tail: seq<bool>) returns (r: int)
    requires six < 64 && |tail| in {0, 2, 4, 6} && EndsIn(buffer, q, tail)
    ensures EndsIn(ShiftIn(buffer, six), r, tail + BitsOf(six, 6))
  {
    Powers();
    ValueOfBits(six, 6);
    ValueConcat(tail, BitsOf(six, 6));
    var k := Wrapped(buffer, six);
    r := q - k * Above(Pow2(|tail|));
    Rescaled(q, k, Pow2(|tail|), r, Value(tail), six, ShiftIn(buffer, six));
  }

  lemma Rescaled(q: int, k: int, p: nat, r: int, v: nat, six: nat, shifted: int)
    requires p in {1, 4, 16, 64} && shifted == 64 * (q * p + v) + six - k * 0x1_0000_0000
    requires r == q - k * Above(p)
    ensures shifted == r * (64 * p) + (v * 64 + six)
  {
  }

  /** Of eight, ten or twelve bits the first eight are the byte. */
  lemma TakenByte(buffer: int, q: int, bits: seq<bool>) returns (r: int)
    requires |bits| in {8, 10, 12} && EndsIn(buffer, q, bits)
    ensures TakeByte(buffer, |bits| - 8) == Value(bits[..8])
    ensures EndsIn(buffer, r, bits[8..])
  {
    Powers();
    var byte, rest := bits[..8], bits[8..];
    assert bits == byte + rest;
    ValueConcat(byte, rest);
    ValueBound(byte);
    ValueBound(rest);
    r := q * 256 + Value(byte);
    Divided(buffer, r, Pow2(|rest|), Value(rest), q, Value(byte));
  }

  lemma Divided(buffer: int, r: int, p: nat, rest: nat, q: int, byte: nat)
    requires p in {1, 4, 16} && rest < p && byte < 256 && r == q * 256 + byte
    requires buffer == q * (256 * p) + (byte * p + rest)
    ensures buffer == r * p + rest && (buffer / p) % 256 == byte
  {
    assert buffer / p == r;
  }

  lemma Consumed(before: seq<bool>, six: seq<bool>, at: nat)
    requires 8 * at <= |before|
    ensures (before + six)[8 * at..] == before[8 * at..] + six && (before + six)[..8 * at] == before[..8 * at]
  {
  }

  lemma ByteDone(bits: seq<bool>, at: nat)
    requires 8 * at + 8 <= |bits|
    ensures Bytes(bits[..8 * (at + 1)]) == Bytes(bits[..8 * at]) + [Value(bits[8 * at..][..8])]
    ensures bits[8 * (at + 1)..] == bits[8 * at..][8..]
  {
    BytesSnoc(bits[..8 * at], bits[8 * at..][..8], at);
    assert bits[..8 * (at + 1)] == bits[..8 * at] + bits[8 * at..][..8];
  }

  datatype Acc = Acc(buffer: int, bits: nat, got: seq<nat>)

  /** One turn of the loop. */
  function Feed(a: Acc, six: nat): Acc
    requires six < 64
  {
    var buffer, bits := ShiftIn(a.buffer, six), a.bits + 6;
    if bits >= 8 then Acc(buffer, bits - 8, a.got + [TakeByte(buffer, bits - 8)]) else Acc(buffer, bits, a.got)
  }

  function FeedAll(s: string): Acc
    requires Valid(s)
  {
    if s == [] then Acc(0, 0, []) else Feed(FeedAll(s[..|s| - 1]), Sextet(s[|s| - 1]))
  }

  /** `got` is decoded; `tail` is still waited for, and in the accumulator. */
  ghost predicate Progress(s: string, a: Acc, q: int, tail: seq<bool>) {
    && Valid(s) && |tail| == a.bits && a.bits in {0, 2, 4, 6} && 8 * |a.got| + a.bits == 6 * |s|
    && -0x8000_0000 <= a.buffer < 0x8000_0000 && EndsIn(a.buffer, q, tail)
    && Bits(s)[8 * |a.got|..] == tail && Bytes(Bits(s)[..8 * |a.got|]) == a.got
  }

  lemma {:induction false} Fed(s: string) returns (q: int, tail: seq<bool>)
    requires Valid(s)
    ensures Progress(s, FeedAll(s), q, tail)
  {
    q, tail := 0, [];
    if s != [] {
      var init, six := s[..|s| - 1], Sextet(s[|s| - 1]);
      q, tail := Fed(init);
      q, tail := Advanced(init, FeedAll(init), q, tail, six, s);
    }
  }

  lemma Advanced(init: string, a: Acc, q: int, tail: seq<bool>, six: nat, s: string) returns (r: int, left: seq<bool>)
    requires Progress(init, a, q, tail) && six < 64
    requires Valid(s) && |s| == |init| + 1 && Bits(s) == Bits(init) + BitsOf(six, 6)
    ensures Progress(s, Feed(a, six), r, left)
  {
    Consumed(Bits(init), BitsOf(six, 6), |a.got|);
    r := ShiftedIn(a.buffer, six, q, tail);
    var _ := Wrapped(a.buffer, six);
    left := tail + BitsOf(six, 6);
    if |tail| >= 2 {
      r, left := Emitted(Bits(s), ShiftIn(a.buffer, six), r, left, a.got);
    }
  }

  /** Eight bits or more are there: the next byte goes out. */
  lemma Emitted(bits: seq<bool>, buffer: int, q: int, tail: seq<bool>, got: seq<nat>) returns (r: int, left: seq<bool>)
    requires |tail| in {8, 10, 12} && 8 * |got| + |tail| == |bits| && EndsIn(buffer, q, tail)
    requires bits[8 * |got|..] == tail && Bytes(bits[..8 * |got|]) == got
    ensures var more := got + [TakeByte(buffer, |tail| - 8)];
      && left == tail[8..] && EndsIn(buffer, r, left)
      && 8 * |more| + |left| == |bits| && bits[8 * |more|..] == left && Bytes(bits[..8 * |more|]) == more
  {
    r := TakenByte(buffer, q, tail);
    left := tail[8..];
    ByteDone(bits, |got|);
  }

  lemma RestDropped(bits: seq<bool>, tail: seq<bool>, got: seq<nat>)
    requires 8 * |got| + |tail| == |bits| && |tail| < 8
    requires bits[8 * |got|..] == tail && Bytes(bits[..8 * |got|]) == got
    ensures Bytes(bits) == got
  {
    BytesOfGroups(bits[..8 * |got|], tail, |got|);
    assert bits == bits[..8 * |got|] + tail;
  }

  /** The accumulator never leaves 32 bits, and what it drops was never needed. */
  lemma FedIsDecoded(s: string)
    requires Valid(s)
    ensures FeedAll(s).got == Bytes(Bits(s)) && 8 * |FeedAll(s).got| + FeedAll(s).bits == 6 * |s|
    ensures -0x8000_0000 <= FeedAll(s).buffer < 0x8000_0000
  {
    var q, tail := Fed(s);
    RestDropped(Bits(s), tail, FeedAll(s).got);
  }

  lemma FedNext(s: string, i: nat)
    requires i < |s| && Valid(s[..i]) && Sextet(s[i]) >= 0
    ensures Valid(s[..i + 1]) && FeedAll(s[..i + 1]) == Feed(FeedAll(s[..i]), Sextet(s[i]))
  {
    assert s[..i + 1][..i] == s[..i];
  }

  /** Three bytes to four characters, rounded down. */
  function SizeOf(n: nat): (size: nat)
    ensures 8 * size <= 6 * n < 8 * size + 8
  {
    n * 6 / 8
  }

  method Base64UrlBytes(input: string) returns (bytes: Option<seq<nat>>)
    ensures bytes == Decode(input)
  {
    var cleaned := StripPadding(input);
    var size := SizeOf(|cleaned|);
    var out := new nat[size](_ => 0);
    var buffer: int, bits: nat, at: nat := 0, 0, 0;
    for i := 0 to |cleaned|
      invariant 8 * at + bits == 6 * i && bits < 8 && at <= size
      invariant Valid(cleaned[..i]) && FeedAll(cleaned[..i]) == Acc(buffer, bits, out[..at])
    {
      var six := Sextet(cleaned[i]);
      if six < 0 {
        return None;
      }
      FedNext(cleaned, i);
      buffer := ShiftIn(buffer, six);
      bits := bits + 6;
      if bits >= 8 {
        bits := bits - 8;
        out[at] := TakeByte(buffer, bits);
        at := at + 1;
        assert out[..at] == out[..at - 1] + [TakeByte(buffer, bits)];
      }
    }
    assert cleaned[..|cleaned|] == cleaned;
    FedIsDecoded(cleaned);
    assert out[..at] == out[..];
    return Some(out[..]);
  }

  // ---- and back ----------------------------------------------------------------------------------

  function Symbol(i: nat): char
    requires i < 64
  {
    Alphabet()[i]
  }

  function BytesBits(bytes: seq<nat>): (bits: seq<bool>)
    ensures |bits| == 8 * |bytes|
  {
    if bytes == [] then [] else BytesBits(bytes[..|bytes| - 1]) + BitsOf(bytes[|bytes| - 1], 8)
  }

  function Zeros(n: nat): (bits: seq<bool>)
    ensures |bits| == n
  {
    seq(n, _ => false)
  }

  function Chars(bits: seq<bool>, n: nat): (s: string)
    requires |bits| == 6 * n
    ensures |s| == n
  {
    if n == 0 then []
    else
      Chars(bits[..6 * (n - 1)], n - 1) + [CharOf(bits[6 * (n - 1)..])]
  }

  /** How many zero bits fill up the last character, by the size of the last group of three bytes. */
  function Fill(bytes: nat): (fill: nat)
    ensures fill < 8 && (8 * bytes + fill) % 6 == 0
  {
    if bytes % 3 == 0 then 0 else if bytes % 3 == 1 then 4 else 2
  }

  function Symbols(bytes: nat): (n: nat)
    ensures 8 * bytes + Fill(bytes) == 6 * n
  {
    (8 * bytes + Fill(bytes)) / 6
  }

  /** Without padding characters: those are the caller's choice. */
  function Encode(bytes: seq<nat>): string {
    Chars(BytesBits(bytes) + Zeros(Fill(|bytes|)), Symbols(|bytes|))
  }

  lemma AlphabetIsSextets(i: nat)
    requires i < 64
    ensures Sextet(Symbol(i)) == i && Symbol(i) != '='
  {
  }

  function CharOf(group: seq<bool>): (c: char)
    requires |group| == 6
    ensures Sextet(c) >= 0 && c != '=' && BitsOf(Sextet(c), 6) == group
  {
    ValueBound(group);
    Powers();
    AlphabetIsSextets(Value(group));
    BitsOfValue(group);
    Symbol(Value(group))
  }

  lemma BitsSnoc(s: string, c: char)
    requires Valid(s) && Sextet(c) >= 0
    ensures Valid(s + [c]) && Bits(s + [c]) == Bits(s) + BitsOf(Sextet(c), 6)
  {
    assert (s + [c])[..|s|] == s;
  }

  lemma CharsSnoc(init: seq<bool>, group: seq<bool>, m: nat)
    requires |init| == 6 * m && |group| == 6
    ensures Chars(init + group, m + 1) == Chars(init, m) + [CharOf(group)]
  {
    var bits := init + group;
    assert bits[..6 * m] == init && bits[6 * m..] == group;
  }

  lemma {:induction false} BitsOfChars(bits: seq<bool>, n: nat)
    requires |bits| == 6 * n
    ensures Valid(Chars(bits, n)) && Bits(Chars(bits, n)) == bits
  {
    if n > 0 {
      var m := n - 1;
      var init, group := bits[..6 * m], bits[6 * m..];
      BitsOfChars(init, m);
      BitsSnoc(Chars(init, m), CharOf(group));
      CharsSnoc(init, group, m);
      assert bits == init + group;
    }
  }

  lemma {:induction false} BytesOfBits(bytes: seq<nat>)
    requires forall i :: 0 <= i < |bytes| ==> bytes[i] < 256
    ensures Bytes(BytesBits(bytes)) == bytes
  {
    if bytes != [] {
      var init, last := bytes[..|bytes| - 1], bytes[|bytes| - 1];
      BytesOfBits(init);
      Powers();
      ValueOfBits(last, 8);
      BytesSnoc(BytesBits(init), BitsOf(last, 8), |init|);
    }
  }

  function Padding(n: nat): (s: string)
    ensures |s| == n && forall i :: 0 <= i < n ==> s[i] == '='
  {
    seq(n, _ => '=')
  }

  lemma {:induction false} Stripped(s: string, pads: nat)
    requires Valid(s)
    ensures StripPadding(s + Padding(pads)) == s
  {
    var padded := s + Padding(pads);
    if pads > 0 {
      Stripped(s, pads - 1);
      assert padded[..|padded| - 1] == s + Padding(pads - 1);
    } else {
      assert padded == s;
      assert s != [] ==> Sextet(s[|s| - 1]) >= 0;
    }
  }

  /** Every byte string comes back, with or without its padding. */
  lemma RoundTrip(bytes: seq<nat>, pads: nat)
    requires forall i :: 0 <= i < |bytes| ==> bytes[i] < 256
    ensures Decode(Encode(bytes) + Padding(pads)) == Some(bytes)
  {
    var bits, fill, s := BytesBits(bytes), Zeros(Fill(|bytes|)), Encode(bytes);
    BitsOfChars(bits + fill, Symbols(|bytes|));
    Stripped(s, pads);
    BytesOfGroups(bits, fill, |bytes|);
    BytesOfBits(bytes);
  }
}
