/** The URL-safe base64 alphabet without padding (RFC 4648, sections 5 and 3.2), with the lenient decoder of Go. */
module Base64 {
  import opened Prelude

  type byte = x: int | 0 <= x < 256
  type digit = x: int | 0 <= x < 64

  function Symbol(v: digit): char {
    if v < 26 then (v + 'A' as int) as char
    else if v < 52 then (v - 26 + 'a' as int) as char
    else if v < 62 then (v - 52 + '0' as int) as char
    else if v == 62 then '-'
    else '_'
  }

  function Value(c: char): Option<digit> {
    if 'A' <= c <= 'Z' then Some(c as int - 'A' as int)
    else if 'a' <= c <= 'z' then Some(c as int - 'a' as int + 26)
    else if '0' <= c <= '9' then Some(c as int - '0' as int + 52)
    else if c == '-' then Some(62)
    else if c == '_' then Some(63)
    else None
  }

  predicate LineBreak(c: char) {
    c == '\n' || c == '\r'
  }

  // Where the bits of neighbouring bytes x, y, z and of neighbouring digits p, q, r, t go.

  function Digit2(x: int, y: int): digit
    requires 0 <= x < 256 && 0 <= y < 256
  {
    x % 4 * 16 + y / 16
  }

  function Digit3(y: int, z: int): digit
    requires 0 <= y < 256 && 0 <= z < 256
  {
    y % 16 * 4 + z / 64
  }

  function Byte1(p: int, q: int): byte
    requires 0 <= p < 64 && 0 <= q < 64
  {
    p * 4 + q / 16
  }

  function Byte2(q: int, r: int): byte
    requires 0 <= q < 64 && 0 <= r < 64
  {
    q % 16 * 16 + r / 4
  }

  function Byte3(r: int, t: int): byte
    requires 0 <= r < 64 && 0 <= t < 64
  {
    r % 4 * 64 + t
  }

  /** Three bytes make four digits; one byte left over makes two, two make three. */
  function Digits(b: seq<byte>): seq<digit> {
    if b == [] then []
    else if |b| == 1 then [b[0] / 4, Digit2(b[0], 0)]
    else if |b| == 2 then [b[0] / 4, Digit2(b[0], b[1]), Digit3(b[1], 0)]
    else [b[0] / 4, Digit2(b[0], b[1]), Digit3(b[1], b[2]), b[2] % 64] + Digits(b[3..])
  }

  /** A lone last digit is an error; unused low bits of the last digit are dropped. */
  function Assemble(v: seq<digit>): Option<seq<byte>> {
    if v == [] then Some([])
    else if |v| == 1 then None
    else if |v| == 2 then Some([Byte1(v[0], v[1])])
    else if |v| == 3 then Some([Byte1(v[0], v[1]), Byte2(v[1], v[2])])
    else
      var rest := Assemble(v[4..]);
      if rest.None? then None
      else Some([Byte1(v[0], v[1]), Byte2(v[1], v[2]), Byte3(v[2], v[3])] + rest.value)
  }

  function Spell(v: seq<digit>): (s: string)
    ensures |s| == |v|
  {
    if v == [] then "" else [Symbol(v[0])] + Spell(v[1..])
  }

  /** Line breaks are skipped; any other symbol outside the alphabet is an error. */
  function Read(s: string): Option<seq<digit>> {
    if s == "" then Some([])
    else
      var rest := Read(s[1..]);
      if LineBreak(s[0]) then rest
      else if Value(s[0]).None? || rest.None? then None
      else Some([Value(s[0]).value] + rest.value)
  }

  function Encode(b: seq<byte>): string {
    Spell(Digits(b))
  }

  function Decode(s: string): Option<seq<byte>> {
    var v := Read(s);
    if v.None? then None else Assemble(v.value)
  }

  predicate OneLine(s: string) {
    forall k :: 0 <= k < |s| ==> !LineBreak(s[k])
  }

  /** The unused low bits of the last digit are zero. */
  predicate ZeroTail(v: seq<digit>) {
    if |v| < 2 then true
    else if |v| == 2 then v[1] % 16 == 0
    else if |v| == 3 then v[2] % 4 == 0
    else ZeroTail(v[4..])
  }

  lemma SymbolReads(v: digit)
    ensures Value(Symbol(v)) == Some(v) && Symbol(v) != '.' && !LineBreak(Symbol(v))
  {
  }

  lemma {:induction false} ReadSpelled(v: seq<digit>)
    ensures Read(Spell(v)) == Some(v) && OneLine(Spell(v)) && '.' !in Spell(v)
  {
    if v != [] {
      ReadSpelled(v[1..]);
      SymbolReads(v[0]);
      var s := Spell(v);
      assert s[1..] == Spell(v[1..]);
      assert v == [v[0]] + v[1..];
      forall k | 0 <= k < |v| ensures !LineBreak(s[k]) && s[k] != '.' {
        if k > 0 { assert s[k] == s[1..][k - 1]; }
      }
    }
  }

  lemma {:induction false} SpelledRead(s: string)
    requires Read(s).Some?
    ensures Spell(Read(s).value) == s <==> OneLine(s)
  {
    if OneLine(s) {
      if s != "" {
        forall k | 0 <= k < |s[1..]| ensures !LineBreak(s[1..][k]) { assert s[1..][k] == s[k + 1]; }
        SpelledRead(s[1..]);
      }
    } else {
      ReadSpelled(Read(s).value);
    }
  }

  lemma BytesOfDigits(x: int, y: int, z: int)
    requires 0 <= x < 256 && 0 <= y < 256 && 0 <= z < 256
    ensures Byte1(x / 4, Digit2(x, y)) == x
    ensures Byte2(Digit2(x, y), Digit3(y, z)) == y
    ensures Byte3(Digit3(y, z), z % 64) == z
  {
  }

  lemma DigitsOfBytes(p: int, q: int, r: int, t: int)
    requires 0 <= p < 64 && 0 <= q < 64 && 0 <= r < 64 && 0 <= t < 64
    ensures Byte1(p, q) / 4 == p
    ensures Digit2(Byte1(p, q), Byte2(q, r)) == q
    ensures Digit3(Byte2(q, r), Byte3(r, t)) == r
    ensures Byte3(r, t) % 64 == t
  {
  }

  lemma NoStrayBits(x: int)
    requires 0 <= x < 256
    ensures Digit2(x, 0) % 16 == 0 && Digit3(x, 0) % 4 == 0
  {
    var k, m := x % 4, x % 16;
    assert Digit2(x, 0) == k * 16 && Digit3(x, 0) == m * 4;
  }

  lemma {:induction false} DigitsEndClean(b: seq<byte>)
    ensures ZeroTail(Digits(b))
  {
    if 1 <= |b| <= 2 {
      NoStrayBits(b[|b| - 1]);
    } else if |b| >= 3 {
      DigitsEndClean(b[3..]);
      assert Digits(b)[4..] == Digits(b[3..]);
    }
  }

  lemma LoneByte(x: int)
    requires 0 <= x < 256
    ensures Byte1(x / 4, Digit2(x, 0)) == x
  {
    var k, m := x / 4, x % 4;
    assert x == 4 * k + m && Digit2(x, 0) == 16 * m;
  }

  lemma LoneDigits(p: int, q: int)
    requires 0 <= p < 64 && 0 <= q < 64 && q % 16 == 0
    ensures Byte1(p, q) / 4 == p && Digit2(Byte1(p, q), 0) == q
  {
    var k := q / 16;
    assert q == 16 * k && Byte1(p, q) == 4 * p + k;
  }

  lemma OneByte(b: seq<byte>)
    requires |b| == 1
    ensures Assemble(Digits(b)) == Some(b)
  {
    LoneByte(b[0]);
    assert b == [b[0]];
  }

  lemma TwoBytes(b: seq<byte>)
    requires |b| == 2
    ensures Assemble(Digits(b)) == Some(b)
  {
    BytesOfDigits(b[0], b[1], 0);
    assert b == [b[0], b[1]];
  }

  lemma {:induction false} AssembleDigits(b: seq<byte>)
    ensures Assemble(Digits(b)) == Some(b)
  {
    if |b| == 1 {
      OneByte(b);
    } else if |b| == 2 {
      TwoBytes(b);
    } else if |b| >= 3 {
      BytesOfDigits(b[0], b[1], b[2]);
      AssembleDigits(b[3..]);
      assert Digits(b)[4..] == Digits(b[3..]);
      assert b == [b[0], b[1], b[2]] + b[3..];
    }
  }

  lemma TwoDigits(v: seq<digit>)
    requires |v| == 2 && v[1] % 16 == 0
    ensures Digits([Byte1(v[0], v[1])]) == v
  {
    LoneDigits(v[0], v[1]);
    assert v == [v[0], v[1]];
  }

  lemma ThreeDigits(v: seq<digit>)
    requires |v| == 3 && v[2] % 4 == 0
    ensures Digits([Byte1(v[0], v[1]), Byte2(v[1], v[2])]) == v
  {
    var k: int := v[2] / 4;
    assert v[2] == 4 * k;
    DigitsOfBytes(v[0], v[1], v[2], 0);
    assert v == [v[0], v[1], v[2]];
  }

  lemma {:induction false} DigitsAssembled(v: seq<digit>)
    requires Assemble(v).Some? && ZeroTail(v)
    ensures Digits(Assemble(v).value) == v
  {
    if |v| == 2 {
      TwoDigits(v);
    } else if |v| == 3 {
      ThreeDigits(v);
    } else if |v| >= 4 {
      DigitsOfBytes(v[0], v[1], v[2], v[3]);
      DigitsAssembled(v[4..]);
      var b := Assemble(v).value;
      assert b[3..] == Assemble(v[4..]).value;
      assert v == [v[0], v[1], v[2], v[3]] + v[4..];
    }
  }

  /** Decoding undoes encoding, and an encoded text holds no dot and no line break. */
  lemma DecodeEncode(b: seq<byte>)
    ensures Decode(Encode(b)) == Some(b) && '.' !in Encode(b) && OneLine(Encode(b))
  {
    ReadSpelled(Digits(b));
    AssembleDigits(b);
  }

  // ─── The encoding itself ─────────────────────────────────────────────────────

  /** The number that digits to a base spell, the first one weighing most. */
  function Number(v: seq<int>, base: int): int {
    if v == [] then 0 else Number(v[..|v| - 1], base) * base + v[|v| - 1]
  }

  function Power(base: int, k: nat): int {
    if k == 0 then 1 else Power(base, k - 1) * base
  }

  lemma Shift(x: int, p: int, y: int, base: int)
    ensures (x * p + y) * base == x * (p * base) + y * base
  {
  }

  lemma {:induction false} NumberConcat(a: seq<int>, b: seq<int>, base: int)
    ensures Number(a + b, base) == Number(a, base) * Power(base, |b|) + Number(b, base)
  {
    if b == [] {
      assert a + b == a;
    } else {
      var n := |b| - 1;
      NumberConcat(a, b[..n], base);
      assert (a + b)[..|a| + n] == a + b[..n];
      Shift(Number(a, base), Power(base, n), Number(b[..n], base), base);
    }
  }

  /** How many times the value of the bytes is that of their digits: two or four zero bits are added at the end. */
  function Padding(length: nat): int {
    if length % 3 == 1 then 16 else if length % 3 == 2 then 4 else 1
  }

  lemma Three(x: int, y: int, z: int, base: int)
    ensures Number([x, y, z], base) == (x * base + y) * base + z
  {
    assert [x, y, z][..2] == [x, y] && [x, y][..1] == [x] && [x][..0] == [];
    assert Number([x], base) == x;
    assert Number([x, y], base) == x * base + y;
  }

  lemma Four(p: int, q: int, r: int, t: int, base: int)
    ensures Number([p, q, r, t], base) == ((p * base + q) * base + r) * base + t
  {
    assert [p, q, r, t][..3] == [p, q, r];
    Three(p, q, r, base);
  }

  lemma GroupValue(x: int, y: int, z: int)
    requires 0 <= x < 256 && 0 <= y < 256 && 0 <= z < 256
    ensures Number([x / 4, Digit2(x, y), Digit3(y, z), z % 64], 64) == Number([x, y, z], 256)
  {
    Four(x / 4, Digit2(x, y), Digit3(y, z), z % 64, 64);
    Three(x, y, z, 256);
  }

  /** The digits spell the bytes' number, with the padding behind. */
  predicate Spells(b: seq<int>, v: seq<int>) {
    && Number(v, 64) == Padding(|b|) * Number(b, 256)
    && Power(64, |v|) == Padding(|b|) * Power(256, |b|)
  }

  lemma OneSpells(x: int)
    requires 0 <= x < 256
    ensures Spells([x], [x / 4, Digit2(x, 0)])
  {
    var p, q := x / 4, Digit2(x, 0);
    assert [x][..0] == [] && [p, q][..1] == [p] && [p][..0] == [];
    assert Number([p], 64) == p && Number([x], 256) == x;
    assert Number([p, q], 64) == p * 64 + q;
    assert Power(64, 1) == 64 && Power(64, 2) == 4096 && Power(256, 0) == 1 && Power(256, 1) == 256;
  }

  lemma TwoSpell(x: int, y: int)
    requires 0 <= x < 256 && 0 <= y < 256
    ensures Spells([x, y], [x / 4, Digit2(x, y), Digit3(y, 0)])
  {
    Three(x / 4, Digit2(x, y), Digit3(y, 0), 64);
    assert [x, y][..1] == [x] && [x][..0] == [];
    assert Number([x], 256) == x;
    assert Number([x, y], 256) == x * 256 + y;
    assert Power(64, 1) == 64 && Power(64, 2) == 4096 && Power(64, 3) == 262144;
    assert Power(256, 1) == 256 && Power(256, 2) == 65536;
  }

  lemma GroupPower(m: nat, n: nat, c: int)
    requires Power(64, m) == c * Power(256, n)
    ensures Power(64, m + 4) == c * Power(256, n + 3)
  {
    var p, q := Power(64, m), Power(256, n);
    assert Power(64, m + 1) == p * 64 && Power(64, m + 2) == p * 64 * 64;
    assert Power(64, m + 3) == p * 64 * 64 * 64 && Power(64, m + 4) == p * 64 * 64 * 64 * 64;
    assert Power(256, n + 1) == q * 256 && Power(256, n + 2) == q * 256 * 256 && Power(256, n + 3) == q * 256 * 256 * 256;
  }

  lemma Combine(g: int, p: int, q: int, c: int, x: int, y: int)
    requires p == c * q && x == c * y
    ensures g * p + x == c * (g * q + y)
  {
    assert g * (c * q) == c * (g * q);
  }

  lemma GroupNumber(group: seq<int>, bytes: seq<int>, rest: seq<int>, v: seq<int>, c: int)
    requires Number(group, 64) == Number(bytes, 256)
    requires Number(v, 64) == c * Number(rest, 256) && Power(64, |v|) == c * Power(256, |rest|)
    ensures Number(group + v, 64) == c * Number(bytes + rest, 256)
  {
    NumberConcat(group, v, 64);
    NumberConcat(bytes, rest, 256);
    Combine(Number(group, 64), Power(64, |v|), Power(256, |rest|), c, Number(v, 64), Number(rest, 256));
  }

  lemma SamePadding(n: nat)
    ensures Padding(n + 3) == Padding(n)
  {
  }

  /** A group before bytes whose digits already agree. */
  lemma GroupBefore(group: seq<int>, bytes: seq<int>, rest: seq<int>, v: seq<int>)
    requires |group| == 4 && |bytes| == 3 && Number(group, 64) == Number(bytes, 256) && Spells(rest, v)
    ensures Spells(bytes + rest, group + v)
  {
    SamePadding(|rest|);
    GroupPower(|v|, |rest|, Padding(|rest|));
    GroupNumber(group, bytes, rest, v, Padding(|rest|));
  }

  lemma {:induction false} DigitsSpell(b: seq<byte>, v: seq<digit>)
    requires v == Digits(b)
    ensures Spells(b, v) && |v| == (4 * |b| + 2) / 3
  {
    if |b| == 1 {
      OneSpells(b[0]);
      assert b == [b[0]];
    } else if |b| == 2 {
      TwoSpell(b[0], b[1]);
      assert b == [b[0], b[1]];
    } else if |b| >= 3 {
      DigitsSpell(b[3..], Digits(b[3..]));
      GroupValue(b[0], b[1], b[2]);
      assert b[..3] == [b[0], b[1], b[2]];
      assert v[..4] == [b[0] / 4, Digit2(b[0], b[1]), Digit3(b[1], b[2]), b[2] % 64] && v == v[..4] + Digits(b[3..]);
      GroupBefore(v[..4], b[..3], b[3..], Digits(b[3..]));
      assert b == b[..3] + b[3..];
    }
  }

  /** The character codes of A to Z, a to z, 0 to 9, hyphen and underscore. */
  function SymbolCode(v: int): int {
    if v <= 25 then 65 + v else if v <= 51 then 71 + v else if v <= 61 then v - 4 else if v == 62 then 45 else 95
  }

  lemma {:induction false} SpelledAt(v: seq<digit>, k: nat)
    requires k < |v|
    ensures Spell(v)[k] as int == SymbolCode(v[k])
  {
    if k > 0 { SpelledAt(v[1..], k - 1); }
  }

  /** What an encoded text says: as a number to the base 64, read through the alphabet, it is the bytes as a number to the
      base 256, with four or two zero bits behind when one or two bytes are left over; without padding symbols. */
  lemma EncodeMeans(b: seq<byte>) returns (v: seq<digit>)
    ensures |Encode(b)| == |v| == (4 * |b| + 2) / 3
    ensures Number(v, 64) == (if |b| % 3 == 1 then 16 else if |b| % 3 == 2 then 4 else 1) * Number(b, 256)
    ensures forall k :: 0 <= k < |v| ==> Encode(b)[k] as int == SymbolCode(v[k])
  {
    v := Digits(b);
    DigitsSpell(b, v);
    forall k | 0 <= k < |v| ensures Encode(b)[k] as int == SymbolCode(v[k]) { SpelledAt(v, k); }
  }

  /** No line breaks and no stray low bits. */
  predicate Canonical(s: string) {
    OneLine(s) && Read(s).Some? && ZeroTail(Read(s).value)
  }

  /** Of the texts that decode to the same bytes, the encoder's own is exactly the canonical one. */
  lemma EncodeDecode(s: string)
    requires Decode(s).Some?
    ensures Encode(Decode(s).value) == s <==> Canonical(s)
  {
    var v := Read(s).value;
    SpelledRead(s);
    AssembleDigits(Decode(s).value);
    DigitsEndClean(Decode(s).value);
    ReadSpelled(Digits(Decode(s).value));
    if Canonical(s) { DigitsAssembled(v); }
  }
}
