/** The bit-by-bit CRC-32 that guards every superblock, record and journal of the
    key-value store: ISO 3309 / ITU-T V.42, reflected polynomial 0xEDB88320. */
module Crc32 {

  const POLYNOMIAL: bv32 := 0xEDB88320

  /** One turn of the inner loop. */
  function BitStep(crc: bv32): bv32 {
    if crc & 1 == 1 then (crc >> 1) ^ POLYNOMIAL else crc >> 1
  }

  /** `n` turns of the inner loop. */
  function Steps(crc: bv32, n: nat): bv32 {
    if n == 0 then crc else BitStep(Steps(crc, n - 1))
  }

  function ByteStep(crc: bv32, b: bv8): bv32 {
    Steps(crc ^ (b as bv32), 8)
  }

  /** The CRC register after `data`, started at `crc`. */
  function Update(crc: bv32, data: seq<bv8>): bv32 {
    if data == [] then crc
    else ByteStep(Update(crc, data[..|data| - 1]), data[|data| - 1])
  }

  function Invert(crc: bv32): bv32 {
    !crc
  }

  function Checksum(data: seq<bv8>): bv32 {
    Invert(Update(0xFFFF_FFFF, data))
  }

  /** The loop as the source writes it. */
  method ComputeUpdate(start: bv32, data: seq<bv8>) returns (crc: bv32)
    ensures crc == Update(start, data)
  {
    crc := start;
    for i := 0 to |data|
      invariant crc == Update(start, data[..i])
    {
      ghost var entry := crc;
      crc := crc ^ (data[i] as bv32);
      for bit := 0 to 8
        invariant crc == Steps(entry ^ (data[i] as bv32), bit)
      {
        crc := if crc & 1 == 1 then (crc >> 1) ^ POLYNOMIAL else crc >> 1;
      }
      assert data[..i + 1][..i] == data[..i];
    }
    assert data[..|data|] == data;
  }

  // ---------------------------------------------------------------- injectivity

  /** The inverse of one turn: the polynomial's top bit records which branch ran. */
  function UndoStep(crc: bv32): bv32 {
    if crc & 0x8000_0000 != 0 then ((crc ^ POLYNOMIAL) << 1) | 1 else crc << 1
  }

  lemma UndoBitStep(crc: bv32)
    ensures UndoStep(BitStep(crc)) == crc
  {
  }

  lemma {:induction false} StepsInjective(a: bv32, b: bv32, n: nat)
    requires Steps(a, n) == Steps(b, n)
    ensures a == b
  {
    if n > 0 {
      UndoBitStep(Steps(a, n - 1));
      UndoBitStep(Steps(b, n - 1));
      StepsInjective(a, b, n - 1);
    }
  }

  lemma XorCancels(a: bv32, b: bv32, x: bv32)
    requires a ^ x == b ^ x
    ensures a == b
  {
    assert (a ^ x) ^ x == a;
    assert (b ^ x) ^ x == b;
  }

  lemma XorStepsInjective(a: bv32, b: bv32, x: bv32, n: nat)
    requires Steps(a ^ x, n) == Steps(b ^ x, n)
    ensures a == b
  {
    StepsInjective(a ^ x, b ^ x, n);
    XorCancels(a, b, x);
  }

  lemma ByteStepInjective(a: bv32, b: bv32, x: bv8)
    requires ByteStep(a, x) == ByteStep(b, x)
    ensures a == b
  {
    hide Steps;
    XorStepsInjective(a, b, x as bv32, 8);
  }

  /** For fixed data the register at the end determines the register at the start. */
  lemma {:induction false} UpdateInjective(a: bv32, b: bv32, data: seq<bv8>)
    requires Update(a, data) == Update(b, data)
    ensures a == b
  {
    if data != [] {
      var rest, last := data[..|data| - 1], data[|data| - 1];
      ByteStepInjective(Update(a, rest), Update(b, rest), last);
      UpdateInjective(a, b, rest);
    }
  }

  lemma {:induction false} UpdateAppend(crc: bv32, a: seq<bv8>, b: seq<bv8>)
    ensures Update(crc, a + b) == Update(Update(crc, a), b)
  {
    if b == [] {
      assert a + b == a;
    } else {
      assert (a + b)[..|a + b| - 1] == a + b[..|b| - 1];
      UpdateAppend(crc, a, b[..|b| - 1]);
    }
  }

  // ---------------------------------------------------------------- linearity

  lemma ShiftLinear(a: bv32, b: bv32)
    ensures (a ^ b) >> 1 == (a >> 1) ^ (b >> 1)
    ensures (a ^ b) & 1 == (a & 1) ^ (b & 1)
    ensures a & 1 == 0 || a & 1 == 1
  {
  }

  lemma BitStepLinear(a: bv32, b: bv32)
    ensures BitStep(a ^ b) == BitStep(a) ^ BitStep(b)
  {
    ShiftLinear(a, b);
    ShiftLinear(b, a);
    var x, y := a >> 1, b >> 1;
    assert (x ^ POLYNOMIAL) ^ (y ^ POLYNOMIAL) == x ^ y;
    assert (x ^ POLYNOMIAL) ^ y == (x ^ y) ^ POLYNOMIAL;
    assert x ^ (y ^ POLYNOMIAL) == (x ^ y) ^ POLYNOMIAL;
  }

  function Mix(a: bv32, b: bv32): bv32 {
    a ^ b
  }

  predicate IsXor(s: bv32, a: bv32, b: bv32) {
    s == Mix(a, b)
  }

  lemma StepOfXor(s: bv32, x: bv32, y: bv32)
    requires IsXor(s, x, y)
    ensures IsXor(BitStep(s), BitStep(x), BitStep(y))
  {
    BitStepLinear(x, y);
  }

  /** The register is a linear function of its starting value. */
  lemma {:induction false} StepsLinear(s: bv32, a: bv32, b: bv32, n: nat)
    requires IsXor(s, a, b)
    ensures IsXor(Steps(s, n), Steps(a, n), Steps(b, n))
  {
    hide IsXor, BitStep;
    if n > 0 {
      StepsLinear(s, a, b, n - 1);
      StepOfXor(Steps(s, n - 1), Steps(a, n - 1), Steps(b, n - 1));
    }
  }

  lemma {:induction false} StepsAdd(crc: bv32, m: nat, n: nat)
    ensures Steps(crc, m + n) == Steps(Steps(crc, m), n)
  {
    if n > 0 {
      StepsAdd(crc, m, n - 1);
    }
  }

  function Place(b: bv8, k: nat): bv32
    requires k < 4
  {
    if k == 0 then b as bv32
    else if k == 1 then (b as bv32) << 8
    else if k == 2 then (b as bv32) << 16
    else (b as bv32) << 24
  }

  /** Eight turns only shift while the low eight bits are clear. */
  lemma EightShifts(x: bv32)
    requires x & 0xFF == 0
    ensures Steps(x, 8) == x >> 8
  {
    assert Steps(x, 0) == x;
    assert Steps(x, 1) == x >> 1;
    assert Steps(x, 2) == x >> 2;
    assert Steps(x, 3) == x >> 3;
    assert Steps(x, 4) == x >> 4;
    assert Steps(x, 5) == x >> 5;
    assert Steps(x, 6) == x >> 6;
    assert Steps(x, 7) == x >> 7;
    assert Steps(x, 8) == x >> 8;
  }

  lemma PlaceShifts(b: bv8, k: nat)
    requires 0 < k < 4
    ensures Place(b, k) & 0xFF == 0
    ensures Place(b, k) >> 8 == Place(b, k - 1)
  {
  }

  lemma ByteSinks(b: bv8, k: nat)
    requires 0 < k < 4
    ensures Steps(Place(b, k), 8 * k) == Steps(Place(b, k - 1), 8 * (k - 1))
  {
    PlaceShifts(b, k);
    EightShifts(Place(b, k));
    hide Steps, Place;
    StepsAdd(Place(b, k), 8, 8 * (k - 1));
  }

  lemma PlaceBottom(b: bv8)
    ensures Steps(Place(b, 0), 0) == b as bv32
  {
  }

  /** A byte waiting `k` bytes up reaches the bottom of the register in `8 * k` turns. */
  lemma {:induction false} ByteArrives(b: bv8, k: nat)
    requires k < 4
    ensures Steps(Place(b, k), 8 * k) == b as bv32
  {
    PlaceBottom(b);
    if k > 0 {
      hide Steps, Place;
      ByteSinks(b, k);
      ByteArrives(b, k - 1);
    }
  }

  // ---------------------------------------------------------------- four-byte windows

  function ByteAt(data: seq<bv8>, i: nat): bv8 {
    if i < |data| then data[i] else 0
  }

  function WordOf(b0: bv8, b1: bv8, b2: bv8, b3: bv8): bv32 {
    Mix(Mix(Mix(Place(b0, 0), Place(b1, 1)), Place(b2, 2)), Place(b3, 3))
  }

  /** Up to four bytes as one little-endian word. */
  function Word(data: seq<bv8>): bv32 {
    WordOf(ByteAt(data, 0), ByteAt(data, 1), ByteAt(data, 2), ByteAt(data, 3))
  }

  lemma BytesInWord(b0: bv8, b1: bv8, b2: bv8, b3: bv8)
    ensures WordOf(b0, b1, b2, b3) & 0xFF == b0 as bv32
    ensures (WordOf(b0, b1, b2, b3) >> 8) & 0xFF == b1 as bv32
    ensures (WordOf(b0, b1, b2, b3) >> 16) & 0xFF == b2 as bv32
    ensures WordOf(b0, b1, b2, b3) >> 24 == b3 as bv32
  {
  }

  lemma WordsDiffer(a0: bv8, a1: bv8, a2: bv8, a3: bv8, b0: bv8, b1: bv8, b2: bv8, b3: bv8)
    requires WordOf(a0, a1, a2, a3) == WordOf(b0, b1, b2, b3)
    ensures a0 == b0 && a1 == b1 && a2 == b2 && a3 == b3
  {
    hide WordOf;
    BytesInWord(a0, a1, a2, a3);
    BytesInWord(b0, b1, b2, b3);
  }

  lemma LastByteOfWord(b0: bv8, b1: bv8, b2: bv8, b: bv8)
    ensures WordOf(b, 0, 0, 0) == Mix(WordOf(0, 0, 0, 0), Place(b, 0))
    ensures WordOf(b0, b, 0, 0) == Mix(WordOf(b0, 0, 0, 0), Place(b, 1))
    ensures WordOf(b0, b1, b, 0) == Mix(WordOf(b0, b1, 0, 0), Place(b, 2))
    ensures WordOf(b0, b1, b2, b) == Mix(WordOf(b0, b1, b2, 0), Place(b, 3))
  {
  }

  lemma WordInjective(x: seq<bv8>, y: seq<bv8>)
    requires |x| == |y| <= 4
    requires Word(x) == Word(y)
    ensures x == y
  {
    BytesOfWord(x, y);
    hide Word;
    forall i | 0 <= i < |x|
      ensures x[i] == y[i]
    {
      assert ByteAt(x, i) == ByteAt(y, i);
    }
  }

  lemma BytesOfWord(x: seq<bv8>, y: seq<bv8>)
    requires Word(x) == Word(y)
    ensures ByteAt(x, 0) == ByteAt(y, 0) && ByteAt(x, 1) == ByteAt(y, 1)
    ensures ByteAt(x, 2) == ByteAt(y, 2) && ByteAt(x, 3) == ByteAt(y, 3)
  {
    hide ByteAt, WordOf;
    WordsDiffer(ByteAt(x, 0), ByteAt(x, 1), ByteAt(x, 2), ByteAt(x, 3),
                ByteAt(y, 0), ByteAt(y, 1), ByteAt(y, 2), ByteAt(y, 3));
  }

  lemma WordSnoc(data: seq<bv8>, b: bv8)
    requires |data| < 4
    ensures IsXor(Word(data + [b]), Word(data), Place(b, |data|))
  {
    hide WordOf, Mix, Place;
    LastByteOfWord(ByteAt(data, 0), ByteAt(data, 1), ByteAt(data, 2), b);
  }

  /** The register with a window of data loaded into it. */
  function Load(crc: bv32, data: seq<bv8>): bv32 {
    Mix(crc, Word(data))
  }

  lemma LoadSnoc(crc: bv32, data: seq<bv8>, b: bv8)
    requires |data| < 4
    ensures IsXor(Load(crc, data + [b]), Load(crc, data), Place(b, |data|))
  {
    hide Word, Place, IsXor, Mix;
    WordSnoc(data, b);
    XorAssoc(crc, Word(data + [b]), Word(data), Place(b, |data|));
  }

  lemma MixAssoc(a: bv32, y: bv32, z: bv32)
    ensures Mix(a, Mix(y, z)) == Mix(Mix(a, y), z)
  {
  }

  lemma XorAssoc(a: bv32, x: bv32, y: bv32, z: bv32)
    requires IsXor(x, y, z)
    ensures IsXor(Mix(a, x), Mix(a, y), z)
  {
    hide Mix;
    MixAssoc(a, y, z);
  }

  /** Feeding up to four bytes is the same as loading them at once and turning the loop. */
  lemma {:induction false} UpdateByWord(crc: bv32, data: seq<bv8>)
    requires |data| <= 4
    ensures Update(crc, data) == Steps(Load(crc, data), 8 * |data|)
  {
    hide Steps, Load, Place, IsXor, ByteStep;
    if data == [] {
      LoadNothing(crc);
    } else {
      var rest, last := data[..|data| - 1], data[|data| - 1];
      var k := |rest|;
      assert data == rest + [last];
      UpdateByWord(crc, rest);
      LoadSnoc(crc, rest, last);
      StepsLinear(Load(crc, data), Load(crc, rest), Place(last, k), 8 * k);
      ByteArrives(last, k);
      StepsAdd(Load(crc, data), 8 * k, 8);
      ByteStepOfXor(Steps(Load(crc, data), 8 * k), Update(crc, rest), last);
    }
  }

  lemma LoadNothing(crc: bv32)
    ensures Steps(Load(crc, []), 0) == crc
  {
    assert WordOf(0, 0, 0, 0) == 0;
  }

  lemma ByteStepOfXor(s: bv32, crc: bv32, b: bv8)
    requires IsXor(s, crc, b as bv32)
    ensures ByteStep(crc, b) == Steps(s, 8)
  {
  }

  lemma LoadInjective(crc: bv32, x: seq<bv8>, y: seq<bv8>)
    requires |x| == |y| <= 4
    requires Load(crc, x) == Load(crc, y)
    ensures x == y
  {
    hide Word, Mix;
    MixInjective(crc, Word(x), Word(y));
    WordInjective(x, y);
  }

  lemma MixInjective(x: bv32, a: bv32, b: bv32)
    requires Mix(x, a) == Mix(x, b)
    ensures a == b
  {
    assert x ^ (x ^ a) == a;
    assert x ^ (x ^ b) == b;
  }

  lemma WindowsDiffer(crc: bv32, x: seq<bv8>, y: seq<bv8>)
    requires |x| == |y| <= 4
    requires Update(crc, x) == Update(crc, y)
    ensures x == y
  {
    hide Steps, Load, Update;
    UpdateByWord(crc, x);
    UpdateByWord(crc, y);
    StepsInjective(Load(crc, x), Load(crc, y), 8 * |x|);
    LoadInjective(crc, x, y);
  }

  lemma ChecksumInjective(a: seq<bv8>, b: seq<bv8>)
    requires Checksum(a) == Checksum(b)
    ensures Update(0xFFFF_FFFF, a) == Update(0xFFFF_FFFF, b)
  {
    hide Update, Invert;
    InvertInjective(Update(0xFFFF_FFFF, a), Update(0xFFFF_FFFF, b));
  }

  lemma InvertInjective(a: bv32, b: bv32)
    requires Invert(a) == Invert(b)
    ensures a == b
  {
    assert !!a == a && !!b == b;
  }

  lemma UpdateThrough(crc: bv32, before: seq<bv8>, x: seq<bv8>, after: seq<bv8>)
    ensures Update(crc, before + x + after) == Update(Update(Update(crc, before), x), after)
  {
    hide Update;
    UpdateAppend(crc, before, x);
    UpdateAppend(crc, before + x, after);
  }

  /** Buffers of equal length that differ, and only inside four consecutive bytes, never
      have the same checksum. */
  lemma BurstDetected(before: seq<bv8>, x: seq<bv8>, y: seq<bv8>, after: seq<bv8>)
    requires |x| == |y| <= 4
    ensures Checksum(before + x + after) == Checksum(before + y + after) <==> x == y
  {
    hide Update, Checksum;
    var start: bv32 := 0xFFFF_FFFF;
    if Checksum(before + x + after) == Checksum(before + y + after) {
      ChecksumInjective(before + x + after, before + y + after);
      UpdateThrough(start, before, x, after);
      UpdateThrough(start, before, y, after);
      var crc := Update(start, before);
      UpdateInjective(Update(crc, x), Update(crc, y), after);
      WindowsDiffer(crc, x, y);
    }
  }

  // ---------------------------------------------------------------- which CRC it is

  lemma EightSteps(x: bv32)
    ensures Steps(x, 8) == BitStep(BitStep(BitStep(BitStep(BitStep(BitStep(BitStep(BitStep(x))))))))
  {
    hide BitStep;
    assert Steps(x, 1) == BitStep(Steps(x, 0)) && Steps(x, 2) == BitStep(Steps(x, 1)) && Steps(x, 3) == BitStep(Steps(x, 2));
    assert Steps(x, 4) == BitStep(Steps(x, 3)) && Steps(x, 5) == BitStep(Steps(x, 4)) && Steps(x, 6) == BitStep(Steps(x, 5));
    assert Steps(x, 7) == BitStep(Steps(x, 6)) && Steps(x, 8) == BitStep(Steps(x, 7));
  }

  lemma OneByte(crc: bv32, b: bv8)
    ensures var x := crc ^ (b as bv32);
            ByteStep(crc, b) == BitStep(BitStep(BitStep(BitStep(BitStep(BitStep(BitStep(BitStep(x))))))))
  {
    EightSteps(crc ^ (b as bv32));
  }

  lemma UpdateSnoc(crc: bv32, data: seq<bv8>, b: bv8)
    ensures Update(crc, data + [b]) == ByteStep(Update(crc, data), b)
  {
    assert (data + [b])[..|data|] == data;
  }

  /** The check value of CRC-32: the checksum of the nine digits "123456789". */
  lemma CheckValue()
    ensures Checksum([0x31, 0x32, 0x33, 0x34, 0x35, 0x36, 0x37, 0x38, 0x39]) == 0xCBF4_3926
  {
    hide Update, ByteStep, Steps;
    var digits: seq<bv8> := [0x31, 0x32, 0x33, 0x34, 0x35, 0x36, 0x37, 0x38, 0x39];
    OneByte(0xffffffff, 0x31);
    OneByte(0x7c231048, 0x32);
    OneByte(0xb0acbb32, 0x33);
    OneByte(0x77b79c2d, 0x34);
    OneByte(0x641c1f5c, 0x35);
    OneByte(0x340ac5e3, 0x36);
    OneByte(0xf68d2c9e, 0x37);
    OneByte(0xaffc9660, 0x38);
    OneByte(0x651f2550, 0x39);
    NoBytes(0xFFFF_FFFF);
    UpdateSnoc(0xFFFF_FFFF, digits[..0], 0x31);
    assert digits[..0] + [0x31] == digits[..1];
    UpdateSnoc(0xFFFF_FFFF, digits[..1], 0x32);
    assert digits[..1] + [0x32] == digits[..2];
    UpdateSnoc(0xFFFF_FFFF, digits[..2], 0x33);
    assert digits[..2] + [0x33] == digits[..3];
    UpdateSnoc(0xFFFF_FFFF, digits[..3], 0x34);
    assert digits[..3] + [0x34] == digits[..4];
    UpdateSnoc(0xFFFF_FFFF, digits[..4], 0x35);
    assert digits[..4] + [0x35] == digits[..5];
    UpdateSnoc(0xFFFF_FFFF, digits[..5], 0x36);
    assert digits[..5] + [0x36] == digits[..6];
    UpdateSnoc(0xFFFF_FFFF, digits[..6], 0x37);
    assert digits[..6] + [0x37] == digits[..7];
    UpdateSnoc(0xFFFF_FFFF, digits[..7], 0x38);
    assert digits[..7] + [0x38] == digits[..8];
    UpdateSnoc(0xFFFF_FFFF, digits[..8], 0x39);
    assert digits[..8] + [0x39] == digits[..9];
    assert digits[..9] == digits;
  }

  lemma NoBytes(crc: bv32)
    ensures Update(crc, []) == crc
  {
  }
}
