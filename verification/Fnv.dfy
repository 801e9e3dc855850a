/** The 32-bit FNV-1a hash over UTF-16 code units. */
module Fnv {
  import opened Sequences

  const TWO_TO_16 := 0x1_0000
  const TWO_TO_32 := 0x1_0000_0000

  type CodeUnit = u: nat | u < TWO_TO_16
  type Text = seq<CodeUnit>
  type Hash = h: nat | h < TWO_TO_32

  const OFFSET_BASIS: Hash := 2166136261
  const PRIME := 16777619

  /** Bitwise exclusive or of two unsigned numbers. */
  function Xor(a: nat, b: nat): nat {
    if a == 0 && b == 0 then 0
    else 2 * Xor(a / 2, b / 2) + (if a % 2 == b % 2 then 0 else 1)
  }

  /** `Math.imul(h ^ c, 16777619)`, read as an unsigned 32-bit number. */
  function Step(h: Hash, c: CodeUnit): Hash {
    (Xor(h, c) * PRIME) % TWO_TO_32
  }

  function HashFrom(h: Hash, s: Text): Hash
    decreases s
  {
    if s == [] then h else HashFrom(Step(h, s[0]), s[1..])
  }

  function HashOf(s: Text): Hash {
    HashFrom(OFFSET_BASIS, s)
  }

  method ComputeHash(line: Text) returns (h: Hash)
    ensures h == HashOf(line)
  {
    h := OFFSET_BASIS;
    for j := 0 to |line|
      invariant HashFrom(h, line[j..]) == HashOf(line)
    {
      assert line[j..][0] == line[j] && line[j..][1..] == line[j + 1..];
      h := Step(h, line[j]);
    }
  }

  // ----- Every step is a bijection

  lemma {:induction false} XorUndoes(a: nat, b: nat)
    ensures Xor(Xor(a, b), b) == a
  {
    if a != 0 || b != 0 {
      var x := Xor(a, b);
      assert x / 2 == Xor(a / 2, b / 2);
      XorUndoes(a / 2, b / 2);
      if x == 0 && b == 0 { assert a % 2 == 0; }
    }
  }

  lemma {:induction false} XorCommutes(a: nat, b: nat)
    ensures Xor(a, b) == Xor(b, a)
  {
    if a != 0 || b != 0 { XorCommutes(a / 2, b / 2); }
  }

  lemma {:induction false} XorBound(a: nat, b: nat, k: nat)
    requires a < Power2(k) && b < Power2(k)
    ensures Xor(a, b) < Power2(k)
  {
    if a != 0 || b != 0 { XorBound(a / 2, b / 2, k - 1); }
  }

  function Power2(k: nat): nat {
    if k == 0 then 1 else 2 * Power2(k - 1)
  }

  lemma Power2Of32()
    ensures Power2(32) == TWO_TO_32
  {
    assert Power2(8) == 256;
    assert Power2(16) == 256 * Power2(8);
    assert Power2(24) == 256 * Power2(16);
    assert Power2(32) == 256 * Power2(24);
  }

  lemma XorOfHash(h: Hash, c: CodeUnit)
    ensures Xor(h, c) < TWO_TO_32
  {
    Power2Of32();
    XorBound(h, c, 32);
  }

  /** The odd prime has an inverse modulo 2^32, so multiplying by it loses nothing. */
  lemma MultiplyInjective(a: Hash, b: Hash)
    requires (a * PRIME) % TWO_TO_32 == (b * PRIME) % TWO_TO_32
    ensures a == b
  {
    var k := (a * PRIME) / TWO_TO_32 - (b * PRIME) / TWO_TO_32;
    assert (a - b) * PRIME == TWO_TO_32 * k;
    var inverse, m := 899433627, (PRIME * 899433627 - 1) / TWO_TO_32;
    assert PRIME * inverse == 1 + TWO_TO_32 * m;
    assert a - b == TWO_TO_32 * (k * inverse - m * (a - b));
  }

  lemma StepInjective(g: Hash, h: Hash, c: CodeUnit)
    requires Step(g, c) == Step(h, c)
    ensures g == h
  {
    XorOfHash(g, c);
    XorOfHash(h, c);
    MultiplyInjective(Xor(g, c), Xor(h, c));
    XorUndoes(g, c);
    XorUndoes(h, c);
  }

  lemma StepSeparates(h: Hash, c: CodeUnit, d: CodeUnit)
    requires Step(h, c) == Step(h, d)
    ensures c == d
  {
    XorOfHash(h, c);
    XorOfHash(h, d);
    MultiplyInjective(Xor(h, c), Xor(h, d));
    XorCommutes(h, c);
    XorCommutes(h, d);
    XorUndoes(c, h);
    XorUndoes(d, h);
  }

  /** Appending the same text to different prefixes keeps their hashes apart. */
  lemma {:induction false} HashFromInjective(g: Hash, h: Hash, s: Text)
    requires HashFrom(g, s) == HashFrom(h, s)
    ensures g == h
    decreases s
  {
    if s != [] {
      HashFromInjective(Step(g, s[0]), Step(h, s[0]), s[1..]);
      StepInjective(g, h, s[0]);
    }
  }

  lemma {:induction false} HashAppend(h: Hash, s: Text, t: Text)
    ensures HashFrom(h, s + t) == HashFrom(HashFrom(h, s), t)
    decreases s
  {
    if s == [] {
      assert s + t == t;
    } else {
      assert (s + t)[1..] == s[1..] + t;
      HashAppend(Step(h, s[0]), s[1..], t);
    }
  }

  /** The lines differ in exactly the code unit at `i`. */
  ghost predicate DifferAt(s: Text, t: Text, i: nat) {
    |s| == |t| && i < |s| && s[i] != t[i] && forall j :: 0 <= j < |s| && j != i ==> s[j] == t[j]
  }

  /** A change of one code unit always changes the hash. */
  lemma OneUnitChangesHash(s: Text, t: Text, i: nat)
    requires DifferAt(s, t, i)
    ensures HashOf(s) != HashOf(t)
  {
    var p, q := s[..i], s[i + 1..];
    assert s == p + ([s[i]] + q) && t == p + ([t[i]] + q);
    HashAppend(OFFSET_BASIS, p, [s[i]] + q);
    HashAppend(OFFSET_BASIS, p, [t[i]] + q);
    var h := HashOf(p);
    assert ([s[i]] + q)[1..] == q && ([t[i]] + q)[1..] == q;
    if HashOf(s) == HashOf(t) {
      HashFromInjective(Step(h, s[i]), Step(h, t[i]), q);
      StepSeparates(h, s[i], t[i]);
    }
  }

  // ----- The printed form

  /** `n.toString(16)`. */
  function Hex(n: nat): (digits: seq<char>)
    ensures digits != [] && (n > 0 ==> digits[0] != '0')
    ensures forall i :: 0 <= i < |digits| ==> digits[i] in HEX_DIGITS
  {
    var digit := HEX_DIGITS[n % 16];
    if n < 16 then [digit] else Hex(n / 16) + [digit]
  }

  const HEX_DIGITS := "0123456789abcdef"

  function PadStart(s: string, n: nat): string
    decreases n - |s|
  {
    if |s| >= n then s else PadStart(['0'] + s, n)
  }

  function DigitValue(c: char): nat {
    if '0' <= c <= '9' then c as nat - '0' as nat
    else if 'a' <= c <= 'f' then c as nat - 'a' as nat + 10
    else 0
  }

  /** The number that a string of hexadecimal digits denotes. */
  function HexValue(s: string): nat {
    if s == [] then 0 else HexValue(s[..|s| - 1]) * 16 + DigitValue(s[|s| - 1])
  }

  method ContentHash(content: Text) returns (text: string)
    ensures text == PadStart(Hex(HashOf(content)), 8)
    ensures |text| == 8 && (forall i :: 0 <= i < 8 ==> text[i] in HEX_DIGITS) && HexValue(text) == HashOf(content)
  {
    ContentHashIsHex(content);
    var h := ComputeHash(content);
    text := PadStart(Hex(h), 8);
  }

  lemma {:induction false} HexDenotes(n: nat)
    ensures HexValue(Hex(n)) == n
  {
    assert DigitValue(HEX_DIGITS[n % 16]) == n % 16;
    if n >= 16 {
      HexDenotes(n / 16);
      var prefix := Hex(n / 16);
      assert Hex(n)[..|Hex(n)| - 1] == prefix;
    }
  }

  lemma {:induction false} HexLength(n: nat, k: nat)
    requires k > 0 && n < Power16(k)
    ensures |Hex(n)| <= k
  {
    if n >= 16 {
      HexLength(n / 16, k - 1);
    }
  }

  function Power16(k: nat): nat {
    if k == 0 then 1 else 16 * Power16(k - 1)
  }

  lemma {:induction false} LeadingZero(s: string)
    ensures HexValue(['0'] + s) == HexValue(s)
  {
    if s != [] {
      var whole := ['0'] + s;
      assert whole[..|whole| - 1] == ['0'] + s[..|s| - 1];
      LeadingZero(s[..|s| - 1]);
    }
  }

  lemma {:induction false} PadKeepsValue(s: string, n: nat)
    ensures HexValue(PadStart(s, n)) == HexValue(s)
    ensures |PadStart(s, n)| == if |s| >= n then |s| else n
    ensures (forall i :: 0 <= i < |s| ==> s[i] in HEX_DIGITS) ==>
      forall i :: 0 <= i < |PadStart(s, n)| ==> PadStart(s, n)[i] in HEX_DIGITS
    decreases n - |s|
  {
    if |s| < n {
      PadKeepsValue(['0'] + s, n);
      LeadingZero(s);
      assert HEX_DIGITS[0] == '0';
    }
  }

  /** `contentHash` is the 8-digit hexadecimal form of the number the anchors are compared by. */
  lemma ContentHashIsHex(content: Text)
    ensures var text := PadStart(Hex(HashOf(content)), 8);
      |text| == 8 && (forall i :: 0 <= i < 8 ==> text[i] in HEX_DIGITS) && HexValue(text) == HashOf(content)
  {
    var n := HashOf(content);
    assert Power16(8) == 0x1_0000_0000 by {
      assert Power16(2) == 256 && Power16(4) == 65536;
      assert Power16(6) == 256 * Power16(4);
    }
    HexLength(n, 8);
    HexDenotes(n);
    PadKeepsValue(Hex(n), 8);
  }

  /** Two contents have the same printed hash exactly if they have the same hash. */
  lemma ContentHashInjective(s: Text, t: Text)
    ensures PadStart(Hex(HashOf(s)), 8) == PadStart(Hex(HashOf(t)), 8) <==> HashOf(s) == HashOf(t)
  {
    ContentHashIsHex(s);
    ContentHashIsHex(t);
  }

  lemma {:induction false} XorNothing(a: nat)
    ensures Xor(a, 0) == a
  {
    if a > 0 { XorNothing(a / 2); }
  }

  /** The offset basis with the code unit of "a" mixed in, bit by bit. */
  lemma FirstMixed()
    ensures Xor(OFFSET_BASIS, 0x61) == 0x811c_9da4
  {
    XorNothing(16922939);
    assert Xor(33845879, 1) == 33845878;
    assert Xor(67691758, 3) == 67691757;
    assert Xor(135383516, 6) == 135383514;
    assert Xor(270767032, 12) == 270767028;
    assert Xor(541534065, 24) == 541534057;
    assert Xor(1083068130, 48) == 1083068114;
    assert Xor(2166136261, 97) == 2166136228;
  }

  /** The published values of the 32-bit hash for the empty text and for "a". */
  lemma KnownHashes()
    ensures HashOf([]) == 0x811c_9dc5 && HashOf([0x61]) == 0xe40c_292c
  {
    var h := FirstStep();
    OneUnit(0x61);
  }

  lemma FirstStep() returns (h: Hash)
    ensures h == Step(OFFSET_BASIS, 0x61) == 0xe40c_292c
  {
    FirstMixed();
    h := 0xe40c_292c;
    assert 0x811c_9da4 * 16777619 == 8461672 * 0x1_0000_0000 + 0xe40c_292c;
    StepIs(OFFSET_BASIS, 0x61, 0x811c_9da4, h, 8461672);
  }

  lemma StepIs(h: Hash, c: CodeUnit, x: nat, y: Hash, q: nat)
    requires Xor(h, c) == x && x * PRIME == q * TWO_TO_32 + y
    ensures Step(h, c) == y
  {
    RemainderIs(x * PRIME, q, y);
  }

  lemma RemainderIs(n: nat, q: nat, y: nat)
    requires n == q * TWO_TO_32 + y && y < TWO_TO_32
    ensures n % TWO_TO_32 == y
  {
  }

  lemma OneUnit(c: CodeUnit)
    ensures HashOf([c]) == Step(OFFSET_BASIS, c)
  {
    assert [c][1..] == [];
    assert HashFrom(Step(OFFSET_BASIS, c), []) == Step(OFFSET_BASIS, c);
  }
}
