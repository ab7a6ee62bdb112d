/**
 * Chunk column data as it appears in a chunk-data packet: up to sixteen
 * sixteen-block-high sections selected by a bit mask, optionally followed by
 * the biome array.  The reader cannot tell from the bytes whether sky light
 * was sent, so it first assumes not and retries once with sky light when that
 * guess leaves bytes over or fails.
 */
module ChunkColumn {
  import opened Wire
  import opened Optional
  import opened NetUtil

  const SectionCount := 16
  /** Byte length of a nibble (half-byte per block) light array of one section. */
  const NibbleArrayBytes := 2048
  /** Byte length of the biome array of a full column. */
  const BiomeBytes := 256

  /** The block palette and data of one section; its inner layout is kept opaque. */
  datatype BlockStorage = BlockStorage(raw: seq<Byte>)

  datatype Chunk = Chunk(blocks: BlockStorage, blockLight: seq<Byte>, skyLight: Option<seq<Byte>>)

  datatype Column = Column(x: Int32, z: Int32, chunks: seq<Option<Chunk>>,
                           biomeData: Option<seq<Byte>>, tileEntities: seq<CompoundTag>)

  function WriteBlockStorage(b: BlockStorage): seq<Byte> { WriteLengthPrefixed(b.raw) }

  function ReadBlockStorage(s: seq<Byte>): (d: Decoded<BlockStorage>)
    ensures d.Ok? ==> |d.rest| < |s|
  {
    match ReadLengthPrefixed(s)
    case Fail => Fail
    case Ok(raw, rest) => Ok(BlockStorage(raw), rest)
  }

  function Pow2(n: nat): (p: nat)
    ensures p >= 1
  {
    if n == 0 then 1 else 2 * Pow2(n - 1)
  }

  /** Bit `i` of a non-negative integer. */
  predicate Bit(m: nat, i: nat)
  {
    if i == 0 then m % 2 == 1 else Bit(m / 2, i - 1)
  }

  /** Whether `mask & (1 << i)` is non-zero for a Java int mask. */
  predicate MaskBit(mask: Int32, i: nat)
  {
    Bit(mask % TwoTo32, i)
  }

  lemma {:induction false} ZeroHasNoBits(i: nat)
    ensures !Bit(0, i)
  {
    if i > 0 { ZeroHasNoBits(i - 1); }
  }

  /** Below `Pow2(k)` no bit from `k` upwards is set. */
  lemma {:induction false} NoBitsAbove(m: nat, k: nat, j: nat)
    requires m < Pow2(k) && k <= j
    ensures !Bit(m, j)
  {
    if k == 0 {
      ZeroHasNoBits(j);
    } else {
      NoBitsAbove(m / 2, k - 1, j - 1);
    }
  }

  /** Adding `Pow2(k)` to a number below it sets bit `k` and keeps the others. */
  lemma {:induction false} AddBit(m: nat, k: nat, j: nat)
    requires m < Pow2(k)
    ensures Bit(m + Pow2(k), j) <==> Bit(m, j) || j == k
  {
    if k == 0 {
      assert m == 0;
      if j > 0 { ZeroHasNoBits(j - 1); }
    } else if j == 0 {
      assert (m + 2 * Pow2(k - 1)) % 2 == m % 2;
    } else {
      assert (m + Pow2(k)) / 2 == m / 2 + Pow2(k - 1);
      AddBit(m / 2, k - 1, j - 1);
    }
  }

  // ---- reading ----------------------------------------------------------------

  /** One section: block storage, block light, and sky light when the hint says so. */
  function ReadSection(s: seq<Byte>, hasSkylight: bool): (d: Decoded<Chunk>)
    ensures d.Ok? ==> |d.value.blockLight| == NibbleArrayBytes
    ensures d.Ok? ==> (d.value.skyLight.Some? <==> hasSkylight)
    ensures d.Ok? && hasSkylight ==> |d.value.skyLight.value| == NibbleArrayBytes
  {
    match ReadBlockStorage(s)
    case Fail => Fail
    case Ok(blocks, s1) =>
      match ReadBytes(s1, NibbleArrayBytes)
      case Fail => Fail
      case Ok(blockLight, s2) =>
        if !hasSkylight then Ok(Chunk(blocks, blockLight, None), s2)
        else
          match ReadBytes(s2, NibbleArrayBytes)
          case Fail => Fail
          case Ok(skyLight, s3) => Ok(Chunk(blocks, blockLight, Some(skyLight)), s3)
  }

  datatype SectionsRead = Sections(chunks: seq<Option<Chunk>>, rest: seq<Byte>) | SectionsFailed

  function PrependChunks(cs: seq<Option<Chunk>>, r: SectionsRead): (p: SectionsRead)
    ensures p.Sections? <==> r.Sections?
    ensures p.Sections? ==> p.chunks == cs + r.chunks && p.rest == r.rest
  {
    match r
    case SectionsFailed => SectionsFailed
    case Sections(more, rest) => Sections(cs + more, rest)
  }

  /** The sixteen mask bits, slot by slot. */
  function MaskBits(mask: Int32): seq<bool>
  {
    seq(SectionCount, i requires 0 <= i => MaskBit(mask, i))
  }

  /** Division is determined by a quotient and a remainder below the divisor. */
  lemma DivUnique(m: int, d: int, q: int, r: int)
    requires d > 0 && 0 <= r < d && m == q * d + r
    ensures m / d == q
  {
    var k := m / d - q;
    assert k * d == r - m % d;
    if k > 0 {
      MulAtLeast(k, d);
      assert false;
    } else if k < 0 {
      MulAtLeast(-k, d);
      assert false;
    }
  }

  lemma MulAtLeast(k: int, d: int)
    requires k >= 1 && d > 0
    ensures k * d >= d
  {
  }

  /** Halving, then dividing by `p`, is dividing by `2 * p`. */
  lemma HalfThenDiv(m: nat, p: nat)
    requires p > 0
    ensures (m / 2) / p == m / (2 * p)
  {
    var q, r := m / (2 * p), m % (2 * p);
    var pq := p * q;
    assert m == 2 * pq + r;
    DivUnique(m, 2, pq + r / 2, r % 2);
    assert r / 2 < p;
    DivUnique(m / 2, p, q, r / 2);
  }

  /** Bit `i` is the `i`-th binary digit: `m / 2^i` is odd. */
  lemma {:induction false} BitIsDigit(m: nat, i: nat)
    ensures Bit(m, i) <==> (m / Pow2(i)) % 2 == 1
  {
    if i > 0 {
      BitIsDigit(m / 2, i - 1);
      HalfThenDiv(m, Pow2(i - 1));
    }
  }

  /**
   * Slot `i` of the mask is read exactly when the `i`-th binary digit of the
   * mask's 32-bit two's-complement pattern is 1, the bit `mask & (1 << i)` tests.
   */
  lemma MaskBitsDigits(mask: Int32)
    ensures |MaskBits(mask)| == SectionCount
    ensures forall i :: 0 <= i < SectionCount ==> (MaskBits(mask)[i] <==> ((mask % TwoTo32) / Pow2(i)) % 2 == 1)
  {
    forall i | 0 <= i < SectionCount
      ensures MaskBits(mask)[i] <==> ((mask % TwoTo32) / Pow2(i)) % 2 == 1
    {
      BitIsDigit(mask % TwoTo32, i);
    }
  }

  /** The sections of the slots whose `present` flag is set, in slot order; the others stay absent. */
  function ReadSections(s: seq<Byte>, present: seq<bool>, hasSkylight: bool): (r: SectionsRead)
    ensures r.Sections? ==> |r.chunks| == |present|
  {
    if |present| == 0 then Sections([], s)
    else if !present[0] then PrependChunks([None], ReadSections(s, present[1..], hasSkylight))
    else
      match ReadSection(s, hasSkylight)
      case Fail => SectionsFailed
      case Ok(c, s1) => PrependChunks([Some(c)], ReadSections(s1, present[1..], hasSkylight))
  }

  /** Reading from slot `k` on is slot `k`'s section, then the rest. */
  lemma ReadSectionsStep(s: seq<Byte>, present: seq<bool>, k: nat, hasSkylight: bool)
    requires k < |present|
    ensures ReadSections(s, present[k..], hasSkylight)
      == if !present[k] then PrependChunks([None], ReadSections(s, present[k + 1..], hasSkylight))
         else match ReadSection(s, hasSkylight)
              case Fail => SectionsFailed
              case Ok(c, s1) => PrependChunks([Some(c)], ReadSections(s1, present[k + 1..], hasSkylight))
  {
    assert present[k..][1..] == present[k + 1..];
  }

  lemma PrependChunksTwice(a: seq<Option<Chunk>>, b: seq<Option<Chunk>>, r: SectionsRead)
    ensures PrependChunks(a, PrependChunks(b, r)) == PrependChunks(a + b, r)
  {
    if r.Sections? {
      assert a + (b + r.chunks) == (a + b) + r.chunks;
    }
  }

  /** One pass of the reader under a fixed sky-light hint: it threw, or it built a column and left some bytes unread. */
  datatype Attempt = Parsed(column: Column, leftover: seq<Byte>) | Threw

  function ReadAttempt(data: seq<Byte>, x: Int32, z: Int32, fullChunk: bool, hasSkylight: bool,
                       mask: Int32, tileEntities: seq<CompoundTag>): (a: Attempt)
    ensures a.Parsed? ==> |a.column.chunks| == SectionCount
  {
    match ReadSections(data, MaskBits(mask), hasSkylight)
    case SectionsFailed => Threw
    case Sections(chunks, s1) =>
      if !fullChunk then Parsed(Column(x, z, chunks, None, tileEntities), s1)
      else
        match ReadBytes(s1, BiomeBytes)
        case Fail => Threw
        case Ok(biomes, s2) => Parsed(Column(x, z, chunks, Some(biomes), tileEntities), s2)
  }

  /** A pass needs the sky-light retry when it threw or did not consume every byte. */
  predicate Unclean(a: Attempt) { a.Threw? || |a.leftover| > 0 }

  datatype ColumnRead = ColumnOk(column: Column) | ChunkDataError

  /** What `readColumn` returns, or its "Failed to read chunk data." failure. */
  function ReadColumnSpec(data: seq<Byte>, x: Int32, z: Int32, fullChunk: bool, hasSkylight: bool,
                          mask: Int32, tileEntities: seq<CompoundTag>): (r: ColumnRead)
    decreases if hasSkylight then 0 else 1
  {
    var a := ReadAttempt(data, x, z, fullChunk, hasSkylight, mask, tileEntities);
    if Unclean(a) && !hasSkylight then ReadColumnSpec(data, x, z, fullChunk, true, mask, tileEntities)
    else if a.Threw? then ChunkDataError
    else ColumnOk(a.column)
  }

  /** The slots read so far, `filled`, and the rest read from `cur`, make up the whole read. */
  predicate ReadSoFar(data: seq<Byte>, present: seq<bool>, hasSkylight: bool,
                      filled: seq<Option<Chunk>>, cur: seq<Byte>)
    requires |filled| <= |present|
  {
    ReadSections(data, present, hasSkylight)
      == PrependChunks(filled, ReadSections(cur, present[|filled|..], hasSkylight))
  }

  /** An absent slot stays empty and consumes nothing. */
  lemma ReadAbsentStep(data: seq<Byte>, present: seq<bool>, hasSkylight: bool,
                       filled: seq<Option<Chunk>>, cur: seq<Byte>)
    requires |filled| < |present| && !present[|filled|]
    requires ReadSoFar(data, present, hasSkylight, filled, cur)
    ensures ReadSoFar(data, present, hasSkylight, filled + [None], cur)
  {
    var k := |filled|;
    ReadSectionsStep(cur, present, k, hasSkylight);
    PrependChunksTwice(filled, [None], ReadSections(cur, present[k + 1..], hasSkylight));
  }

  /** A present slot takes the section read at the cursor, which moves past it. */
  lemma ReadPresentStep(data: seq<Byte>, present: seq<bool>, hasSkylight: bool,
                        filled: seq<Option<Chunk>>, cur: seq<Byte>, c: Chunk, rest: seq<Byte>)
    requires |filled| < |present| && present[|filled|]
    requires ReadSection(cur, hasSkylight) == Ok(c, rest)
    requires ReadSoFar(data, present, hasSkylight, filled, cur)
    ensures ReadSoFar(data, present, hasSkylight, filled + [Some(c)], rest)
  {
    var k := |filled|;
    ReadSectionsStep(cur, present, k, hasSkylight);
    PrependChunksTwice(filled, [Some(c)], ReadSections(rest, present[k + 1..], hasSkylight));
  }

  /** A section that does not read makes the whole read fail. */
  lemma ReadFailStep(data: seq<Byte>, present: seq<bool>, hasSkylight: bool,
                     filled: seq<Option<Chunk>>, cur: seq<Byte>)
    requires |filled| < |present| && present[|filled|]
    requires ReadSection(cur, hasSkylight).Fail?
    requires ReadSoFar(data, present, hasSkylight, filled, cur)
    ensures ReadSections(data, present, hasSkylight) == SectionsFailed
  {
    ReadSectionsStep(cur, present, |filled|, hasSkylight);
  }

  /** Once every slot is read, the read is the filled slots and the cursor. */
  lemma ReadDone(data: seq<Byte>, present: seq<bool>, hasSkylight: bool,
                 filled: seq<Option<Chunk>>, cur: seq<Byte>)
    requires |filled| == |present|
    requires ReadSoFar(data, present, hasSkylight, filled, cur)
    ensures ReadSections(data, present, hasSkylight) == Sections(filled, cur)
  {
    assert present[|filled|..] == [];
    assert filled + [] == filled;
  }

  /** One pass of the reader under the given hint, with the slots in an array. */
  method ReadPass(data: seq<Byte>, x: Int32, z: Int32, fullChunk: bool, hasSkylight: bool,
                  mask: Int32, tileEntities: seq<CompoundTag>) returns (attempt: Attempt)
    ensures attempt == ReadAttempt(data, x, z, fullChunk, hasSkylight, mask, tileEntities)
  {
    var chunks := new Option<Chunk>[SectionCount](_ => None);
    ghost var present := MaskBits(mask);
    var cur := data;
    var index := 0;
    while index < SectionCount
      invariant 0 <= index <= SectionCount
      invariant forall j :: index <= j < SectionCount ==> chunks[j] == None
      invariant ReadSoFar(data, present, hasSkylight, chunks[..index], cur)
    {
      ghost var filled := chunks[..index];
      if MaskBit(mask, index) {
        var d := ReadSection(cur, hasSkylight);
        if d.Fail? {
          ReadFailStep(data, present, hasSkylight, filled, cur);
          return Threw;
        }
        chunks[index] := Some(d.value);
        assert chunks[..index + 1] == filled + [Some(d.value)];
        ReadPresentStep(data, present, hasSkylight, filled, cur, d.value, d.rest);
        cur := d.rest;
      } else {
        assert chunks[..index + 1] == filled + [None];
        ReadAbsentStep(data, present, hasSkylight, filled, cur);
      }
      index := index + 1;
    }
    assert chunks[..] == chunks[..index];
    ReadDone(data, present, hasSkylight, chunks[..], cur);
    if !fullChunk {
      attempt := Parsed(Column(x, z, chunks[..], None, tileEntities), cur);
    } else {
      var b := ReadBytes(cur, BiomeBytes);
      if b.Ok? {
        attempt := Parsed(Column(x, z, chunks[..], Some(b.value), tileEntities), b.rest);
      } else {
        attempt := Threw;
      }
    }
  }

  /**
   * `readColumn`: one pass under the caller's hint, then the choice between
   * its result, one retry with sky light, and failure.
   */
  method ReadColumn(data: seq<Byte>, x: Int32, z: Int32, fullChunk: bool, hasSkylight: bool,
                    mask: Int32, tileEntities: seq<CompoundTag>) returns (r: ColumnRead)
    ensures r == ReadColumnSpec(data, x, z, fullChunk, hasSkylight, mask, tileEntities)
    // with sky light assumed, leftover bytes are accepted and only a throw is an error
    ensures hasSkylight ==>
      var a := ReadAttempt(data, x, z, fullChunk, true, mask, tileEntities);
      r == if a.Threw? then ChunkDataError else ColumnOk(a.column)
    // without it, a clean pass is the answer and anything else is the sky-light answer
    ensures !hasSkylight ==>
      var a := ReadAttempt(data, x, z, fullChunk, false, mask, tileEntities);
      r == if Unclean(a) then ReadColumnSpec(data, x, z, fullChunk, true, mask, tileEntities) else ColumnOk(a.column)
    decreases if hasSkylight then 0 else 1
  {
    var attempt := ReadPass(data, x, z, fullChunk, hasSkylight, mask, tileEntities);
    if Unclean(attempt) && !hasSkylight {
      r := ReadColumn(data, x, z, fullChunk, true, mask, tileEntities);
    } else if attempt.Threw? {
      r := ChunkDataError;
    } else {
      r := ColumnOk(attempt.column);
    }
  }

  // ---- writing ----------------------------------------------------------------

  /** A section is sent when present, and for a full column only when it is not empty. */
  predicate Included(c: Option<Chunk>, fullChunk: bool, isEmpty: Chunk -> bool)
  {
    c.Some? && (!fullChunk || !isEmpty(c.value))
  }

  /** Which slots are sent. */
  function Sent(cs: seq<Option<Chunk>>, fullChunk: bool, isEmpty: Chunk -> bool): seq<bool>
  {
    seq(|cs|, i requires 0 <= i < |cs| => Included(cs[i], fullChunk, isEmpty))
  }

  /** Every sent section carries sky light when sky light is written. */
  predicate SkyLightPresent(cs: seq<Option<Chunk>>, fullChunk: bool, hasSkylight: bool, isEmpty: Chunk -> bool)
  {
    hasSkylight ==> forall i :: 0 <= i < |cs| && Included(cs[i], fullChunk, isEmpty) ==> cs[i].value.skyLight.Some?
  }

  /** What the writer needs: sixteen slots, sky light where it is written, biomes when the column is full. */
  predicate Writable(column: Column, fullChunk: bool, hasSkylight: bool, isEmpty: Chunk -> bool)
  {
    |column.chunks| == SectionCount
    && SkyLightPresent(column.chunks, fullChunk, hasSkylight, isEmpty)
    && (fullChunk ==> column.biomeData.Some?)
  }

  function WriteSection(c: Chunk, hasSkylight: bool): seq<Byte>
    requires hasSkylight ==> c.skyLight.Some?
  {
    WriteBlockStorage(c.blocks) + c.blockLight + (if hasSkylight then c.skyLight.value else [])
  }

  /** The bytes written for one slot. */
  function SlotBytes(c: Option<Chunk>, fullChunk: bool, hasSkylight: bool, isEmpty: Chunk -> bool): seq<Byte>
    requires Included(c, fullChunk, isEmpty) && hasSkylight ==> c.value.skyLight.Some?
  {
    if Included(c, fullChunk, isEmpty) then WriteSection(c.value, hasSkylight) else []
  }

  /** The bytes `writeColumn` emits for a run of slots. */
  function WriteSections(cs: seq<Option<Chunk>>, fullChunk: bool, hasSkylight: bool, isEmpty: Chunk -> bool): seq<Byte>
    requires SkyLightPresent(cs, fullChunk, hasSkylight, isEmpty)
  {
    if |cs| == 0 then []
    else
      SkyLightPresentSuffix(cs, 1, fullChunk, hasSkylight, isEmpty);
      SlotBytes(cs[0], fullChunk, hasSkylight, isEmpty) + WriteSections(cs[1..], fullChunk, hasSkylight, isEmpty)
  }

  function EncodeColumn(column: Column, fullChunk: bool, hasSkylight: bool, isEmpty: Chunk -> bool): seq<Byte>
    requires Writable(column, fullChunk, hasSkylight, isEmpty)
  {
    WriteSections(column.chunks, fullChunk, hasSkylight, isEmpty)
    + (if fullChunk then column.biomeData.value else [])
  }

  lemma SkyLightPresentSuffix(cs: seq<Option<Chunk>>, k: nat, fullChunk: bool, hasSkylight: bool, isEmpty: Chunk -> bool)
    requires k <= |cs| && SkyLightPresent(cs, fullChunk, hasSkylight, isEmpty)
    ensures SkyLightPresent(cs[k..], fullChunk, hasSkylight, isEmpty)
  {
    if hasSkylight {
      forall i | 0 <= i < |cs[k..]| && Included(cs[k..][i], fullChunk, isEmpty)
        ensures cs[k..][i].value.skyLight.Some?
      {
        assert cs[k..][i] == cs[k + i];
      }
    }
  }

  /** Appending slot `k`'s bytes to what came before moves the boundary one slot on. */
  lemma WriteSectionsStep(cs: seq<Option<Chunk>>, k: nat, fullChunk: bool, hasSkylight: bool, isEmpty: Chunk -> bool,
                          before: seq<Byte>, after: seq<Byte>)
    requires k < |cs| && SkyLightPresent(cs, fullChunk, hasSkylight, isEmpty)
    requires after == before + SlotBytes(cs[k], fullChunk, hasSkylight, isEmpty)
    ensures SkyLightPresent(cs[k..], fullChunk, hasSkylight, isEmpty)
    ensures SkyLightPresent(cs[k + 1..], fullChunk, hasSkylight, isEmpty)
    ensures after + WriteSections(cs[k + 1..], fullChunk, hasSkylight, isEmpty)
      == before + WriteSections(cs[k..], fullChunk, hasSkylight, isEmpty)
  {
    SkyLightPresentSuffix(cs, k, fullChunk, hasSkylight, isEmpty);
    SkyLightPresentSuffix(cs, k + 1, fullChunk, hasSkylight, isEmpty);
    assert cs[k..][1..] == cs[k + 1..];
    ConcatAssoc(before, SlotBytes(cs[k], fullChunk, hasSkylight, isEmpty),
                WriteSections(cs[k + 1..], fullChunk, hasSkylight, isEmpty));
  }

  /** The bits of `bits` are exactly the first `k` sent flags. */
  predicate MaskMatches(bits: nat, sent: seq<bool>, k: nat)
    requires k <= |sent|
  {
    bits < Pow2(k) && forall j :: 0 <= j < k ==> (Bit(bits, j) <==> sent[j])
  }

  /** One slot of the mask loop: the bits below `k + 1` are the sent flags. */
  lemma MaskStep(bits: nat, k: nat, sent: seq<bool>)
    requires k < |sent| && MaskMatches(bits, sent, k)
    ensures MaskMatches(if sent[k] then bits + Pow2(k) else bits, sent, k + 1)
  {
    assert Pow2(k + 1) == 2 * Pow2(k);
    var next := if sent[k] then bits + Pow2(k) else bits;
    forall j | 0 <= j < k + 1
      ensures Bit(next, j) <==> sent[j]
    {
      if sent[k] {
        AddBit(bits, k, j);
      } else if j == k {
        NoBitsAbove(bits, k, k);
      }
    }
  }

  lemma Pow2Sixteen()
    ensures Pow2(16) == 0x1_0000
  {
    assert Pow2(4) == 16;
    assert Pow2(8) == 256;
    assert Pow2(12) == 0x1000;
  }

  /** Sixteen bits computed by the mask loop form a Java int mask with those bits. */
  lemma MaskOfBits(bits: nat, sent: seq<bool>)
    requires |sent| == SectionCount && MaskMatches(bits, sent, SectionCount)
    ensures bits < 0x1_0000 && MaskBits(bits) == sent
  {
    Pow2Sixteen();
    assert bits % TwoTo32 == bits;
  }

  /** The bits of `bits` are the sent flags of the first `index` slots. */
  predicate MaskSoFar(cs: seq<Option<Chunk>>, fullChunk: bool, isEmpty: Chunk -> bool, index: nat, bits: nat)
  {
    index <= |cs| && MaskMatches(bits, Sent(cs, fullChunk, isEmpty), index)
  }

  /** The output so far, followed by the bytes of the slots from `index` on, is the whole encoding. */
  predicate OutputSoFar(cs: seq<Option<Chunk>>, fullChunk: bool, hasSkylight: bool, isEmpty: Chunk -> bool,
                        index: nat, out: seq<Byte>)
    requires SkyLightPresent(cs, fullChunk, hasSkylight, isEmpty)
  {
    index <= |cs| && SkyLightPresent(cs[index..], fullChunk, hasSkylight, isEmpty)
    && out + WriteSections(cs[index..], fullChunk, hasSkylight, isEmpty) == WriteSections(cs, fullChunk, hasSkylight, isEmpty)
  }

  /** A pass of `writeColumn`'s loop over a sent slot: its bit is added and its section written. */
  lemma SentSlotStep(cs: seq<Option<Chunk>>, fullChunk: bool, hasSkylight: bool, isEmpty: Chunk -> bool,
                     index: nat, bits: nat, out: seq<Byte>)
    requires SkyLightPresent(cs, fullChunk, hasSkylight, isEmpty)
    requires index < |cs| && Included(cs[index], fullChunk, isEmpty)
    requires MaskSoFar(cs, fullChunk, isEmpty, index, bits)
    requires OutputSoFar(cs, fullChunk, hasSkylight, isEmpty, index, out)
    ensures hasSkylight ==> cs[index].value.skyLight.Some?
    ensures MaskSoFar(cs, fullChunk, isEmpty, index + 1, bits + Pow2(index))
    ensures OutputSoFar(cs, fullChunk, hasSkylight, isEmpty, index + 1,
                        out + WriteSection(cs[index].value, hasSkylight))
  {
    var sent := Sent(cs, fullChunk, isEmpty);
    assert sent[index];
    MaskStep(bits, index, sent);
    WriteSectionsStep(cs, index, fullChunk, hasSkylight, isEmpty, out,
                      out + WriteSection(cs[index].value, hasSkylight));
  }

  /** A pass of `writeColumn`'s loop over a slot that is not sent changes neither mask nor output. */
  lemma SkippedSlotStep(cs: seq<Option<Chunk>>, fullChunk: bool, hasSkylight: bool, isEmpty: Chunk -> bool,
                        index: nat, bits: nat, out: seq<Byte>)
    requires SkyLightPresent(cs, fullChunk, hasSkylight, isEmpty)
    requires index < |cs| && !Included(cs[index], fullChunk, isEmpty)
    requires MaskSoFar(cs, fullChunk, isEmpty, index, bits)
    requires OutputSoFar(cs, fullChunk, hasSkylight, isEmpty, index, out)
    ensures MaskSoFar(cs, fullChunk, isEmpty, index + 1, bits)
    ensures OutputSoFar(cs, fullChunk, hasSkylight, isEmpty, index + 1, out)
  {
    var sent := Sent(cs, fullChunk, isEmpty);
    assert !sent[index];
    MaskStep(bits, index, sent);
    assert out + [] == out;
    WriteSectionsStep(cs, index, fullChunk, hasSkylight, isEmpty, out, out);
  }

  /** After the last slot, the mask and the output are those of the whole column. */
  lemma WriteSlotsDone(cs: seq<Option<Chunk>>, fullChunk: bool, hasSkylight: bool, isEmpty: Chunk -> bool,
                       bits: nat, out: seq<Byte>)
    requires |cs| == SectionCount && SkyLightPresent(cs, fullChunk, hasSkylight, isEmpty)
    requires MaskSoFar(cs, fullChunk, isEmpty, |cs|, bits)
    requires OutputSoFar(cs, fullChunk, hasSkylight, isEmpty, |cs|, out)
    ensures bits < 0x1_0000 && MaskBits(bits) == Sent(cs, fullChunk, isEmpty)
    ensures out == WriteSections(cs, fullChunk, hasSkylight, isEmpty)
  {
    MaskOfBits(bits, Sent(cs, fullChunk, isEmpty));
    assert cs[|cs|..] == [];
  }

  /** One pass of `writeColumn`'s loop: a sent slot adds its bit to the mask and its section to the output. */
  method WriteSlot(cs: seq<Option<Chunk>>, fullChunk: bool, hasSkylight: bool, isEmpty: Chunk -> bool,
                   index: nat, bits: nat, out: seq<Byte>) returns (bits': nat, out': seq<Byte>)
    requires SkyLightPresent(cs, fullChunk, hasSkylight, isEmpty) && index < |cs|
    requires MaskSoFar(cs, fullChunk, isEmpty, index, bits)
    requires OutputSoFar(cs, fullChunk, hasSkylight, isEmpty, index, out)
    ensures MaskSoFar(cs, fullChunk, isEmpty, index + 1, bits')
    ensures OutputSoFar(cs, fullChunk, hasSkylight, isEmpty, index + 1, out')
  {
    var chunk := cs[index];
    if Included(chunk, fullChunk, isEmpty) {
      SentSlotStep(cs, fullChunk, hasSkylight, isEmpty, index, bits, out);
      // bit `index` is still clear, so `mask |= 1 << index` adds it
      bits' := bits + Pow2(index);
      out' := out + WriteSection(chunk.value, hasSkylight);
    } else {
      SkippedSlotStep(cs, fullChunk, hasSkylight, isEmpty, index, bits, out);
      bits', out' := bits, out;
    }
  }

  /** The loop of `writeColumn`: the bytes of the sent sections, and the mask of the sent slots. */
  method WriteSlots(cs: seq<Option<Chunk>>, fullChunk: bool, hasSkylight: bool, isEmpty: Chunk -> bool)
    returns (out: seq<Byte>, mask: Int32)
    requires |cs| == SectionCount && SkyLightPresent(cs, fullChunk, hasSkylight, isEmpty)
    ensures out == WriteSections(cs, fullChunk, hasSkylight, isEmpty)
    ensures MaskBits(mask) == Sent(cs, fullChunk, isEmpty)
    ensures 0 <= mask < 0x1_0000
  {
    var bits: nat := 0;
    out := [];
    var index := 0;
    while index < SectionCount
      invariant 0 <= index <= SectionCount
      invariant MaskSoFar(cs, fullChunk, isEmpty, index, bits)
      invariant OutputSoFar(cs, fullChunk, hasSkylight, isEmpty, index, out)
    {
      bits, out := WriteSlot(cs, fullChunk, hasSkylight, isEmpty, index, bits, out);
      index := index + 1;
    }
    WriteSlotsDone(cs, fullChunk, hasSkylight, isEmpty, bits, out);
    mask := bits;
  }

  /**
   * `writeColumn`: writes every sent section, then the biomes of a full
   * column, and returns the mask of the sent slots; `isEmpty` stands for
   * `Chunk.isEmpty`.
   */
  method WriteColumn(column: Column, fullChunk: bool, hasSkylight: bool, isEmpty: Chunk -> bool)
    returns (out: seq<Byte>, mask: Int32)
    requires Writable(column, fullChunk, hasSkylight, isEmpty)
    ensures out == EncodeColumn(column, fullChunk, hasSkylight, isEmpty)
    ensures MaskBits(mask) == Sent(column.chunks, fullChunk, isEmpty)
    ensures 0 <= mask < 0x1_0000
  {
    out, mask := WriteSlots(column.chunks, fullChunk, hasSkylight, isEmpty);
    if fullChunk {
      out := out + column.biomeData.value;
    }
  }

  // ---- round trip ---------------------------------------------------------------

  /** A sent section the wire can carry: 2048-byte light arrays, sky light when written, a storage below 2^31 bytes. */
  predicate SectionWellSized(c: Chunk, hasSkylight: bool)
  {
    |c.blocks.raw| < 0x8000_0000 && |c.blockLight| == NibbleArrayBytes
    && (hasSkylight ==> c.skyLight.Some? && |c.skyLight.value| == NibbleArrayBytes)
  }

  predicate SectionsWellSized(cs: seq<Option<Chunk>>, fullChunk: bool, hasSkylight: bool, isEmpty: Chunk -> bool)
  {
    forall i :: 0 <= i < |cs| && Included(cs[i], fullChunk, isEmpty) ==> SectionWellSized(cs[i].value, hasSkylight)
  }

  predicate WellSized(column: Column, fullChunk: bool, hasSkylight: bool, isEmpty: Chunk -> bool)
  {
    SectionsWellSized(column.chunks, fullChunk, hasSkylight, isEmpty)
    && (fullChunk ==> column.biomeData.Some? && |column.biomeData.value| == BiomeBytes)
  }

  /** What the reader gives back for a slot: the sent section, with sky light only when it was sent. */
  function Expected(c: Option<Chunk>, fullChunk: bool, hasSkylight: bool, isEmpty: Chunk -> bool): Option<Chunk>
  {
    if Included(c, fullChunk, isEmpty)
    then Some(Chunk(c.value.blocks, c.value.blockLight, if hasSkylight then c.value.skyLight else None))
    else None
  }

  lemma SectionRoundTrip(c: Chunk, hasSkylight: bool, rest: seq<Byte>)
    requires SectionWellSized(c, hasSkylight)
    ensures ReadSection(WriteSection(c, hasSkylight) + rest, hasSkylight)
      == Ok(Chunk(c.blocks, c.blockLight, if hasSkylight then c.skyLight else None), rest)
  {
    var sky := if hasSkylight then c.skyLight.value else [];
    assert WriteSection(c, hasSkylight) + rest == WriteBlockStorage(c.blocks) + (c.blockLight + (sky + rest));
    LengthPrefixedRoundTrip(c.blocks.raw, c.blockLight + (sky + rest));
    assert (c.blockLight + (sky + rest))[..NibbleArrayBytes] == c.blockLight;
    assert (c.blockLight + (sky + rest))[NibbleArrayBytes..] == sky + rest;
    if hasSkylight {
      assert (sky + rest)[..NibbleArrayBytes] == sky;
      assert (sky + rest)[NibbleArrayBytes..] == rest;
    }
  }

  /** The first slot, and the flags, well-sizedness and sky light of the slots after it. */
  lemma SlotsTail(cs: seq<Option<Chunk>>, fullChunk: bool, hasSkylight: bool, isEmpty: Chunk -> bool)
    requires |cs| > 0
    requires SkyLightPresent(cs, fullChunk, hasSkylight, isEmpty)
    requires SectionsWellSized(cs, fullChunk, hasSkylight, isEmpty)
    ensures SkyLightPresent(cs[1..], fullChunk, hasSkylight, isEmpty)
    ensures SectionsWellSized(cs[1..], fullChunk, hasSkylight, isEmpty)
    ensures Sent(cs, fullChunk, isEmpty)[1..] == Sent(cs[1..], fullChunk, isEmpty)
    ensures WriteSections(cs, fullChunk, hasSkylight, isEmpty)
      == SlotBytes(cs[0], fullChunk, hasSkylight, isEmpty) + WriteSections(cs[1..], fullChunk, hasSkylight, isEmpty)
  {
    SkyLightPresentSuffix(cs, 1, fullChunk, hasSkylight, isEmpty);
    forall i | 0 <= i < |cs[1..]| && Included(cs[1..][i], fullChunk, isEmpty)
      ensures SectionWellSized(cs[1..][i].value, hasSkylight)
    {
      assert cs[1..][i] == cs[i + 1];
    }
  }

  /** Reading back the first slot's bytes yields its expected section, and the rest starts at the next slot. */
  lemma FirstSlotRoundTrip(cs: seq<Option<Chunk>>, fullChunk: bool, hasSkylight: bool,
                           isEmpty: Chunk -> bool, rest: seq<Byte>)
    requires |cs| > 0
    requires SkyLightPresent(cs, fullChunk, hasSkylight, isEmpty)
    requires SectionsWellSized(cs, fullChunk, hasSkylight, isEmpty)
    ensures SkyLightPresent(cs[1..], fullChunk, hasSkylight, isEmpty)
    ensures SectionsWellSized(cs[1..], fullChunk, hasSkylight, isEmpty)
    ensures ReadSections(WriteSections(cs, fullChunk, hasSkylight, isEmpty) + rest, Sent(cs, fullChunk, isEmpty), hasSkylight)
      == PrependChunks([Expected(cs[0], fullChunk, hasSkylight, isEmpty)],
                       ReadSections(WriteSections(cs[1..], fullChunk, hasSkylight, isEmpty) + rest,
                                    Sent(cs[1..], fullChunk, isEmpty), hasSkylight))
  {
    SlotsTail(cs, fullChunk, hasSkylight, isEmpty);
    var tail := WriteSections(cs[1..], fullChunk, hasSkylight, isEmpty);
    var bytes := WriteSections(cs, fullChunk, hasSkylight, isEmpty) + rest;
    var present := Sent(cs, fullChunk, isEmpty);
    ConcatAssoc(SlotBytes(cs[0], fullChunk, hasSkylight, isEmpty), tail, rest);
    assert present[0] == Included(cs[0], fullChunk, isEmpty);
    if Included(cs[0], fullChunk, isEmpty) {
      assert bytes == WriteSection(cs[0].value, hasSkylight) + (tail + rest);
      SectionRoundTrip(cs[0].value, hasSkylight, tail + rest);
    } else {
      assert bytes == tail + rest;
    }
  }

  lemma {:induction false} SectionsRoundTrip(cs: seq<Option<Chunk>>, fullChunk: bool, hasSkylight: bool,
                                             isEmpty: Chunk -> bool, rest: seq<Byte>)
    requires SkyLightPresent(cs, fullChunk, hasSkylight, isEmpty)
    requires SectionsWellSized(cs, fullChunk, hasSkylight, isEmpty)
    ensures var r := ReadSections(WriteSections(cs, fullChunk, hasSkylight, isEmpty) + rest,
                                  Sent(cs, fullChunk, isEmpty), hasSkylight);
      r.Sections? && r.rest == rest && |r.chunks| == |cs|
      && forall k :: 0 <= k < |cs| ==> r.chunks[k] == Expected(cs[k], fullChunk, hasSkylight, isEmpty)
  {
    if |cs| > 0 {
      FirstSlotRoundTrip(cs, fullChunk, hasSkylight, isEmpty, rest);
      SectionsRoundTrip(cs[1..], fullChunk, hasSkylight, isEmpty, rest);
      var after := ReadSections(WriteSections(cs[1..], fullChunk, hasSkylight, isEmpty) + rest,
                                Sent(cs[1..], fullChunk, isEmpty), hasSkylight);
      var whole := PrependChunks([Expected(cs[0], fullChunk, hasSkylight, isEmpty)], after);
      forall k | 0 <= k < |cs| ensures whole.chunks[k] == Expected(cs[k], fullChunk, hasSkylight, isEmpty) {
        if k > 0 { assert cs[1..][k - 1] == cs[k]; }
      }
    }
  }

  /**
   * Reading back what `writeColumn` wrote, with the mask it returned and the
   * writer's sky-light setting, gives every sent section (other slots become
   * absent), the biomes of a full column, and the column's coordinates and
   * tile entities.
   */
  lemma ColumnRoundTrip(column: Column, fullChunk: bool, hasSkylight: bool, isEmpty: Chunk -> bool, mask: Int32)
    requires Writable(column, fullChunk, hasSkylight, isEmpty) && WellSized(column, fullChunk, hasSkylight, isEmpty)
    requires MaskBits(mask) == Sent(column.chunks, fullChunk, isEmpty)
    ensures var r := ReadColumnSpec(EncodeColumn(column, fullChunk, hasSkylight, isEmpty),
                                    column.x, column.z, fullChunk, hasSkylight, mask, column.tileEntities);
      r.ColumnOk? && r.column.x == column.x && r.column.z == column.z
      && r.column.tileEntities == column.tileEntities
      && r.column.biomeData == (if fullChunk then column.biomeData else None)
      && |r.column.chunks| == SectionCount
      && forall i :: 0 <= i < SectionCount ==>
           r.column.chunks[i] == Expected(column.chunks[i], fullChunk, hasSkylight, isEmpty)
  {
    var biomes := if fullChunk then column.biomeData.value else [];
    SectionsRoundTrip(column.chunks, fullChunk, hasSkylight, isEmpty, biomes);
    if fullChunk {
      assert biomes[..BiomeBytes] == biomes && biomes[BiomeBytes..] == [];
    }
    var a := ReadAttempt(EncodeColumn(column, fullChunk, hasSkylight, isEmpty),
                         column.x, column.z, fullChunk, hasSkylight, mask, column.tileEntities);
    assert a.Parsed? && a.leftover == [];
  }

  /**
   * A partial column whose present sections all carry sky light comes back
   * unchanged when written and read with sky light.
   */
  lemma PartialColumnRoundTrip(column: Column, isEmpty: Chunk -> bool, mask: Int32)
    requires |column.chunks| == SectionCount && column.biomeData.None?
    requires forall i :: 0 <= i < SectionCount && column.chunks[i].Some? ==> SectionWellSized(column.chunks[i].value, true)
    requires MaskBits(mask) == Sent(column.chunks, false, isEmpty)
    ensures Writable(column, false, true, isEmpty)
    ensures ReadColumnSpec(EncodeColumn(column, false, true, isEmpty), column.x, column.z, false, true, mask, column.tileEntities)
      == ColumnOk(column)
  {
    ColumnRoundTrip(column, false, true, isEmpty, mask);
    var r := ReadColumnSpec(EncodeColumn(column, false, true, isEmpty), column.x, column.z, false, true, mask, column.tileEntities);
    assert r.column.chunks == column.chunks;
  }

  // ---- sky-light detection ------------------------------------------------------------

  function SentCount(present: seq<bool>): nat
  {
    if |present| == 0 then 0 else (if present[0] then 1 else 0) + SentCount(present[1..])
  }

  lemma {:induction false} NoSentSlots(cs: seq<Option<Chunk>>, fullChunk: bool, hasSkylight: bool, isEmpty: Chunk -> bool,
                                       hint: bool, rest: seq<Byte>)
    requires SkyLightPresent(cs, fullChunk, hasSkylight, isEmpty)
    requires SectionsWellSized(cs, fullChunk, hasSkylight, isEmpty)
    requires SentCount(Sent(cs, fullChunk, isEmpty)) == 0
    ensures WriteSections(cs, fullChunk, hasSkylight, isEmpty) == []
    ensures ReadSections(rest, Sent(cs, fullChunk, isEmpty), hint).Sections?
    ensures ReadSections(rest, Sent(cs, fullChunk, isEmpty), hint).rest == rest
  {
    if |cs| > 0 {
      SlotsTail(cs, fullChunk, hasSkylight, isEmpty);
      NoSentSlots(cs[1..], fullChunk, hasSkylight, isEmpty, hint, rest);
    }
  }

  /**
   * Read without sky light, a run of slots written with sky light that holds a
   * single sent section ends with that section's 2048 sky-light bytes unread.
   */
  lemma {:induction false} OneSentSlotWithoutHint(cs: seq<Option<Chunk>>, fullChunk: bool, isEmpty: Chunk -> bool,
                                                  rest: seq<Byte>)
    requires SkyLightPresent(cs, fullChunk, true, isEmpty)
    requires SectionsWellSized(cs, fullChunk, true, isEmpty)
    requires SentCount(Sent(cs, fullChunk, isEmpty)) == 1
    ensures var r := ReadSections(WriteSections(cs, fullChunk, true, isEmpty) + rest, Sent(cs, fullChunk, isEmpty), false);
      r.Sections? && |r.rest| == NibbleArrayBytes + |rest|
  {
    SlotsTail(cs, fullChunk, true, isEmpty);
    var present := Sent(cs, fullChunk, isEmpty);
    assert present[0] == Included(cs[0], fullChunk, isEmpty);
    var tail := WriteSections(cs[1..], fullChunk, true, isEmpty);
    if Included(cs[0], fullChunk, isEmpty) {
      var c := cs[0].value;
      NoSentSlots(cs[1..], fullChunk, true, isEmpty, false, c.skyLight.value + rest);
      assert WriteSections(cs, fullChunk, true, isEmpty) + rest
        == WriteSection(c, false) + (c.skyLight.value + rest);
      SectionRoundTrip(c, false, c.skyLight.value + rest);
    } else {
      assert WriteSections(cs, fullChunk, true, isEmpty) + rest == tail + rest;
      OneSentSlotWithoutHint(cs[1..], fullChunk, isEmpty, rest);
    }
  }

  /**
   * The reason for the retry: a column with one sent section, written with
   * sky light but read with the no-sky-light hint, is still read back with
   * its sky light.
   */
  lemma SkyLightDetected(column: Column, fullChunk: bool, isEmpty: Chunk -> bool, mask: Int32)
    requires Writable(column, fullChunk, true, isEmpty) && WellSized(column, fullChunk, true, isEmpty)
    requires MaskBits(mask) == Sent(column.chunks, fullChunk, isEmpty)
    requires SentCount(Sent(column.chunks, fullChunk, isEmpty)) == 1
    ensures var data := EncodeColumn(column, fullChunk, true, isEmpty);
      ReadColumnSpec(data, column.x, column.z, fullChunk, false, mask, column.tileEntities)
      == ReadColumnSpec(data, column.x, column.z, fullChunk, true, mask, column.tileEntities)
    ensures var r := ReadColumnSpec(EncodeColumn(column, fullChunk, true, isEmpty),
                                    column.x, column.z, fullChunk, false, mask, column.tileEntities);
      r.ColumnOk? && |r.column.chunks| == SectionCount
      && forall i :: 0 <= i < SectionCount ==> r.column.chunks[i] == Expected(column.chunks[i], fullChunk, true, isEmpty)
  {
    var biomes := if fullChunk then column.biomeData.value else [];
    OneSentSlotWithoutHint(column.chunks, fullChunk, isEmpty, biomes);
    var data := EncodeColumn(column, fullChunk, true, isEmpty);
    var a := ReadAttempt(data, column.x, column.z, fullChunk, false, mask, column.tileEntities);
    assert Unclean(a);
    ColumnRoundTrip(column, fullChunk, true, isEmpty, mask);
  }
}
