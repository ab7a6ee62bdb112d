/**
 * The field codecs of NetUtil: packed block states, packed positions,
 * optional item stacks, optional tags and the entity-metadata list.
 */
module NetUtil {
  import opened Wire
  import opened Optional

  // ---------------------------------------------------------------------------
  // Block state: `id << 4 | data & 0xF` as a varint.
  // ---------------------------------------------------------------------------

  datatype BlockState = BlockState(id: Int32, data: Int32)

  /** The raw int `(id << 4) | (data & 0xF)` in Java's 32-bit arithmetic.
      The low four bits of `id << 4` are clear, so the `|` is an addition. */
  function PackBlockState(b: BlockState): Int32
  {
    ToInt32(b.id * 16 + b.data % 16)
  }

  function WriteBlockState(b: BlockState): seq<Byte>
  {
    WriteVarInt(PackBlockState(b))
  }

  /** `readBlockState`: `rawId >> 4` (arithmetic) and `rawId & 0xF`. */
  function ReadBlockState(s: seq<Byte>): (d: Decoded<BlockState>)
    ensures d.Ok? ==> 0 <= d.value.data < 16
    ensures d.Ok? ==> -0x800_0000 <= d.value.id < 0x800_0000
    ensures d.Ok? ==> |d.rest| < |s|
  {
    match ReadVarInt(s)
    case Fail => Fail
    case Ok(raw, rest) => Ok(BlockState(raw / 16, raw % 16), rest)
  }

  /** The shifted id's residue modulo 2^32 is 16 times the id's residue modulo 2^28. */
  lemma ShiftedResidue(id: int, d: int)
    requires 0 <= d < 16
    ensures (id * 16 + d) % TwoTo32 == (id % 0x1000_0000) * 16 + d
  {
    var q, u := id / 0x1000_0000, id % 0x1000_0000;
    assert id * 16 + d == q * TwoTo32 + (u * 16 + d);
  }

  /** `(id << 4 | d) >> 4` is the id wrapped to 28 signed bits, and `& 0xF` is `d`. */
  lemma PackedIdWraps(id: int, d: int)
    requires 0 <= d < 16
    ensures ToInt32(id * 16 + d) / 16 == Wrap(id, 0x1000_0000)
    ensures ToInt32(id * 16 + d) % 16 == d
  {
    ShiftedResidue(id, d);
    var u := id % 0x1000_0000;
    if u >= 0x800_0000 {
      assert ToInt32(id * 16 + d) == (u - 0x1000_0000) * 16 + d;
    } else {
      assert ToInt32(id * 16 + d) == u * 16 + d;
    }
  }

  /**
   * Any block state comes back with its id wrapped to the 28 signed bits left
   * by `id << 4` in 32-bit arithmetic, and only the low four bits of its data.
   */
  lemma BlockStateWrapsId(b: BlockState, rest: seq<Byte>)
    ensures ReadBlockState(WriteBlockState(b) + rest)
            == Ok(BlockState(Wrap(b.id, 0x1000_0000), b.data % 16), rest)
  {
    VarIntRoundTrip(PackBlockState(b), rest);
    PackedIdWraps(b.id, b.data % 16);
  }

  /** An id that fits those 28 bits survives the round trip unchanged. */
  lemma BlockStateRoundTrip(b: BlockState, rest: seq<Byte>)
    requires -0x800_0000 <= b.id < 0x800_0000
    ensures ReadBlockState(WriteBlockState(b) + rest) == Ok(BlockState(b.id, b.data % 16), rest)
  {
    BlockStateWrapsId(b, rest);
    if b.id >= 0 {
      assert b.id % 0x1000_0000 == b.id;
    } else {
      assert b.id % 0x1000_0000 == b.id + 0x1000_0000;
    }
  }

  // ---------------------------------------------------------------------------
  // Position: x in bits 38..63, y in bits 26..37, z in bits 0..25 of a long.
  // ---------------------------------------------------------------------------

  datatype Position = Position(x: Int32, y: Int32, z: Int32)

  const TwoTo26: int := 0x400_0000
  const TwoTo38: int := 0x40_0000_0000

  /** `x << 38 | y << 26 | z` over the masked fields, as a Java long. */
  function PackPosition(p: Position): Int64
  {
    var x := p.x % TwoTo26;   // pos.getX() & 0x3FFFFFF
    var y := p.y % 0x1000;    // pos.getY() & 0xFFF
    var z := p.z % TwoTo26;   // pos.getZ() & 0x3FFFFFF
    ToInt64(x * TwoTo38 + y * TwoTo26 + z)
  }

  /** `readPosition`'s shifts: `val >> 38`, `(val >> 26) & 0xFFF` and
      `(val << 38) >> 38`, each narrowed to an int. */
  function UnpackPosition(v: Int64): Position
  {
    var x := ToInt32(v / TwoTo38);
    var y := ToInt32((v / TwoTo26) % 0x1000);
    var z := ToInt32(ToInt64(v * TwoTo38) / TwoTo38);
    Position(x, y, z)
  }

  function WritePosition(p: Position): seq<Byte>
  {
    WriteLong(PackPosition(p))
  }

  function ReadPosition(s: seq<Byte>): (d: Decoded<Position>)
    ensures d.Ok? ==> |d.rest| == |s| - 8
  {
    match ReadLong(s)
    case Fail => Fail
    case Ok(v, rest) => Ok(UnpackPosition(v), rest)
  }

  /** A position is in range when x and z fit 26 signed bits and y 12
      unsigned bits. */
  predicate PositionInRange(p: Position)
  {
    -0x200_0000 <= p.x < 0x200_0000 && 0 <= p.y < 0x1000 && -0x200_0000 <= p.z < 0x200_0000
  }

  /** Sign extension of the low 26 bits, as `(val << 38) >> 38` computes. */
  lemma LowFieldSignExtended(v: Int64)
    ensures ToInt64(v * TwoTo38) / TwoTo38 == Wrap(v % TwoTo26, TwoTo26)
  {
    var l := v % TwoTo26;
    var q := v / TwoTo26;
    assert v * TwoTo38 == l * TwoTo38 + q * TwoTo64;
    assert (v * TwoTo38) % TwoTo64 == l * TwoTo38;
  }

  /** The packed long is the sign-extended x above the unsigned y and z. */
  lemma PackedFields(p: Position)
    ensures PackPosition(p)
            == Wrap(p.x, TwoTo26) * TwoTo38 + (p.y % 0x1000) * TwoTo26 + p.z % TwoTo26
  {
    WrapOfResidue(p.x, TwoTo26);
    var xm := p.x % TwoTo26;
    var low := (p.y % 0x1000) * TwoTo26 + p.z % TwoTo26;
    assert 0 <= low < TwoTo38;
    assert 0 <= xm * TwoTo38 + low < TwoTo64;
  }

  lemma FieldsOfPacked(xs: int, ym: int, zm: int)
    requires -0x200_0000 <= xs < 0x200_0000 && 0 <= ym < 0x1000 && 0 <= zm < TwoTo26
    ensures var v := xs * TwoTo38 + ym * TwoTo26 + zm;
      && v / TwoTo38 == xs
      && (v / TwoTo26) % 0x1000 == ym
      && v % TwoTo26 == zm
  {
    var v := xs * TwoTo38 + ym * TwoTo26 + zm;
    assert v == (xs * 0x1000 + ym) * TwoTo26 + zm;
    assert v / TwoTo26 == xs * 0x1000 + ym;
  }

  /** What `readPosition` gives back for any written position: x and z
      sign-extended from 26 bits, y zero-extended from 12 bits. */
  lemma UnpackPack(p: Position)
    ensures UnpackPosition(PackPosition(p))
            == Position(Wrap(p.x, TwoTo26), p.y % 0x1000, Wrap(p.z, TwoTo26))
  {
    var xs, ym, zm := Wrap(p.x, TwoTo26), p.y % 0x1000, p.z % TwoTo26;
    var v := PackPosition(p);
    PackedFields(p);
    FieldsOfPacked(xs, ym, zm);
    LowFieldSignExtended(v);
    WrapOfResidue(p.z, TwoTo26);
    WrapInRange(xs, TwoTo32);
    WrapInRange(ym, TwoTo32);
    WrapInRange(Wrap(p.z, TwoTo26), TwoTo32);
  }

  /** In range, a position survives the long round trip unchanged. */
  lemma PositionRoundTrip(p: Position, rest: seq<Byte>)
    requires PositionInRange(p)
    ensures ReadPosition(WritePosition(p) + rest) == Ok(p, rest)
  {
    var v := PackPosition(p);
    LongRoundTrip(v, rest);
    assert ReadLong(WritePosition(p) + rest) == Ok(v, rest);
    UnpackPack(p);
    WrapInRange(p.x, TwoTo26);
    WrapInRange(p.z, TwoTo26);
    assert p.y % 0x1000 == p.y;
    assert UnpackPosition(v) == p;
  }

  // ---------------------------------------------------------------------------
  // Tags: only presence is modelled.
  // ---------------------------------------------------------------------------

  /** A compound tag. Its contents are opaque; the stand-in wire form is the
      compound type byte 10, an unsigned short byte count and the bytes. */
  datatype CompoundTag = CompoundTag(payload: seq<Byte>)

  const CompoundTagType: int := 10

  function WriteNbt(tag: Option<CompoundTag>): seq<Byte>
  {
    match tag
    case None => WriteByte(0)
    case Some(t) => WriteByte(CompoundTagType) + WriteShort(|t.payload|) + t.payload
  }

  /** `readNBT`: a leading zero byte is the absent tag. */
  function ReadNbt(s: seq<Byte>): (d: Decoded<Option<CompoundTag>>)
    ensures |s| >= 1 && s[0] == 0 ==> d == Ok(None, s[1..])
    ensures d.Ok? ==> |d.rest| < |s|
  {
    match ReadByte(s)
    case Fail => Fail
    case Ok(b, s1) =>
      if b == 0 then Ok(None, s1)
      else if b != CompoundTagType then Fail
      else
        match ReadUnsignedShort(s1)
        case Fail => Fail
        case Ok(n, s2) => if |s2| < n then Fail else Ok(Some(CompoundTag(s2[..n])), s2[n..])
  }

  predicate TagInRange(tag: Option<CompoundTag>)
  {
    tag.Some? ==> |tag.value.payload| < 0x1_0000
  }

  lemma AbsentTagIsZeroByte()
    ensures WriteNbt(None) == [0]
  {
  }

  lemma NbtRoundTrip(tag: Option<CompoundTag>, rest: seq<Byte>)
    requires TagInRange(tag)
    ensures ReadNbt(WriteNbt(tag) + rest) == Ok(tag, rest)
  {
    match tag
    case None =>
      ByteRoundTrip(0, rest);
    case Some(t) =>
      var body := WriteShort(|t.payload|) + t.payload + rest;
      assert WriteNbt(tag) + rest == WriteByte(CompoundTagType) + body;
      ByteRoundTrip(CompoundTagType, body);
      assert body == WriteShort(|t.payload|) + (t.payload + rest);
      UnsignedShortRoundTrip(|t.payload|, t.payload + rest);
      assert (t.payload + rest)[..|t.payload|] == t.payload;
      assert (t.payload + rest)[|t.payload|..] == rest;
  }

  // ---------------------------------------------------------------------------
  // Item stacks: a negative leading short is the absent item.
  // ---------------------------------------------------------------------------

  datatype ItemStack = ItemStack(id: Int32, amount: Int32, data: Int32, nbt: Option<CompoundTag>)

  function WriteItem(item: Option<ItemStack>): seq<Byte>
  {
    match item
    case None => WriteShort(-1)
    case Some(i) => WriteShort(i.id) + WriteByte(i.amount) + WriteShort(i.data) + WriteNbt(i.nbt)
  }

  function ReadItem(s: seq<Byte>): (d: Decoded<Option<ItemStack>>)
    ensures d.Ok? ==> |d.rest| < |s|
  {
    match ReadShort(s)
    case Fail => Fail
    case Ok(id, s1) =>
      if id < 0 then Ok(None, s1)
      else
        match ReadByte(s1)
        case Fail => Fail
        case Ok(amount, s2) =>
          match ReadShort(s2)
          case Fail => Fail
          case Ok(data, s3) =>
            match ReadNbt(s3)
            case Fail => Fail
            case Ok(tag, s4) => Ok(Some(ItemStack(id, amount, data, tag)), s4)
  }

  /** A present item whose fields fit their wire widths. */
  predicate ItemInRange(item: Option<ItemStack>)
  {
    item.Some? ==>
      0 <= item.value.id < 0x8000 && -0x80 <= item.value.amount < 0x80
      && -0x8000 <= item.value.data < 0x8000 && TagInRange(item.value.nbt)
  }

  lemma AbsentItemIsMinusOne()
    ensures WriteItem(None) == WriteShort(-1) == [0xFF, 0xFF]
  {
  }

  /** Any negative leading short reads as the absent item and consumes only
      those two bytes. */
  lemma NegativeShortIsAbsent(v: Int16, rest: seq<Byte>)
    requires v < 0
    ensures ReadItem(WriteShort(v) + rest) == Ok(None, rest)
  {
    ShortRoundTrip(v, rest);
  }

  lemma ItemRoundTrip(item: Option<ItemStack>, rest: seq<Byte>)
    requires ItemInRange(item)
    ensures ReadItem(WriteItem(item) + rest) == Ok(item, rest)
  {
    match item
    case None =>
      NegativeShortIsAbsent(-1, rest);
    case Some(i) =>
      var t3 := WriteNbt(i.nbt) + rest;
      var t2 := WriteShort(i.data) + t3;
      var t1 := WriteByte(i.amount) + t2;
      assert WriteItem(item) + rest == WriteShort(i.id) + t1;
      ShortRoundTrip(i.id, t1);
      ByteRoundTrip(i.amount, t2);
      ShortRoundTrip(i.data, t3);
      NbtRoundTrip(i.nbt, rest);
  }

  /**
   * Any item, in range or not: `writeShort` and `writeByte` keep only the low
   * bits, so the id, amount and data come back wrapped to a short, a byte and
   * a short. An id whose low sixteen bits read as negative comes back as the
   * absent item, and the amount, data and tag bytes stay unread.
   */
  lemma ItemWrapsAround(i: ItemStack, rest: seq<Byte>)
    requires TagInRange(i.nbt)
    ensures ReadItem(WriteItem(Some(i)) + rest) ==
      if Wrap(i.id, 0x1_0000) < 0 then Ok(None, WriteByte(i.amount) + WriteShort(i.data) + WriteNbt(i.nbt) + rest)
      else Ok(Some(ItemStack(Wrap(i.id, 0x1_0000), Wrap(i.amount, 0x100), Wrap(i.data, 0x1_0000), i.nbt)), rest)
  {
    if Wrap(i.id, 0x1_0000) < 0 {
      WrappedIdIsAbsent(i, rest);
    } else {
      WrappedFieldsRead(i, rest);
    }
  }

  lemma WrappedIdIsAbsent(i: ItemStack, rest: seq<Byte>)
    requires Wrap(i.id, 0x1_0000) < 0
    ensures ReadItem(WriteItem(Some(i)) + rest) == Ok(None, WriteByte(i.amount) + WriteShort(i.data) + WriteNbt(i.nbt) + rest)
  {
    var t1 := WriteByte(i.amount) + WriteShort(i.data) + WriteNbt(i.nbt) + rest;
    assert WriteItem(Some(i)) + rest == WriteShort(i.id) + t1;
    ShortWrapsAround(i.id, t1);
  }

  lemma WrappedFieldsRead(i: ItemStack, rest: seq<Byte>)
    requires Wrap(i.id, 0x1_0000) >= 0 && TagInRange(i.nbt)
    ensures ReadItem(WriteItem(Some(i)) + rest) ==
      Ok(Some(ItemStack(Wrap(i.id, 0x1_0000), Wrap(i.amount, 0x100), Wrap(i.data, 0x1_0000), i.nbt)), rest)
  {
    var t3 := WriteNbt(i.nbt) + rest;
    var t2 := WriteShort(i.data) + t3;
    var t1 := WriteByte(i.amount) + t2;
    assert WriteItem(Some(i)) + rest == WriteShort(i.id) + t1;
    ShortWrapsAround(i.id, t1);
    ByteWrapsAround(i.amount, t2);
    ShortWrapsAround(i.data, t3);
    NbtRoundTrip(i.nbt, rest);
  }

  // ---------------------------------------------------------------------------
  // Entity metadata: (index byte, type varint, value)* then index 255.
  // ---------------------------------------------------------------------------

  datatype BlockFace = Down | Up | North | South | West | East

  datatype Rotation = Rotation(pitch: FloatBits, yaw: FloatBits, roll: FloatBits)

  /** The value of one entry; its variant is the entry's type. */
  datatype MetadataValue =
    | ByteValue(b: Int8)
    | IntValue(i: Int32)
    | FloatValue(f: FloatBits)
    | StringValue(str: StringBytes)
    | ChatValue(chat: StringBytes)
    | ItemValue(item: Option<ItemStack>)
    | BooleanValue(flag: bool)
    | RotationValue(rotation: Rotation)
    | PositionValue(position: Position)
    | OptionalPositionValue(optPosition: Option<Position>)
    | BlockFaceValue(face: BlockFace)
    | OptionalUuidValue(optUuid: Option<Uuid>)
    | BlockStateValue(state: BlockState)
    | NbtValue(tag: Option<CompoundTag>)

  datatype EntityMetadata = EntityMetadata(index: int, value: MetadataValue)

  /** The metadata types, in the order of their wire ids 0..13. */
  datatype MetadataType =
    | ByteType | IntType | FloatType | StringType | ChatType | ItemType | BooleanType
    | RotationType | PositionType | OptionalPositionType | BlockFaceType | OptionalUuidType
    | BlockStateType | NbtType

  function TypeOf(v: MetadataValue): MetadataType
  {
    match v
    case ByteValue(_) => ByteType
    case IntValue(_) => IntType
    case FloatValue(_) => FloatType
    case StringValue(_) => StringType
    case ChatValue(_) => ChatType
    case ItemValue(_) => ItemType
    case BooleanValue(_) => BooleanType
    case RotationValue(_) => RotationType
    case PositionValue(_) => PositionType
    case OptionalPositionValue(_) => OptionalPositionType
    case BlockFaceValue(_) => BlockFaceType
    case OptionalUuidValue(_) => OptionalUuidType
    case BlockStateValue(_) => BlockStateType
    case NbtValue(_) => NbtType
  }

  /** `MagicValues.value(Integer.class, type)`. */
  function TypeId(t: MetadataType): (n: int)
    ensures 0 <= n < 14
  {
    match t
    case ByteType => 0
    case IntType => 1
    case FloatType => 2
    case StringType => 3
    case ChatType => 4
    case ItemType => 5
    case BooleanType => 6
    case RotationType => 7
    case PositionType => 8
    case OptionalPositionType => 9
    case BlockFaceType => 10
    case OptionalUuidType => 11
    case BlockStateType => 12
    case NbtType => 13
  }

  /** `MagicValues.key(MetadataType.class, id)`: none for an unknown id. */
  function TypeOfId(n: int): (t: Option<MetadataType>)
    ensures t.Some? <==> 0 <= n < 14
    ensures t.Some? ==> TypeId(t.value) == n
  {
    if n == 0 then Some(ByteType)
    else if n == 1 then Some(IntType)
    else if n == 2 then Some(FloatType)
    else if n == 3 then Some(StringType)
    else if n == 4 then Some(ChatType)
    else if n == 5 then Some(ItemType)
    else if n == 6 then Some(BooleanType)
    else if n == 7 then Some(RotationType)
    else if n == 8 then Some(PositionType)
    else if n == 9 then Some(OptionalPositionType)
    else if n == 10 then Some(BlockFaceType)
    else if n == 11 then Some(OptionalUuidType)
    else if n == 12 then Some(BlockStateType)
    else if n == 13 then Some(NbtType)
    else None
  }

  lemma TypeIdsDistinct(t: MetadataType, u: MetadataType)
    ensures TypeId(t) == TypeId(u) ==> t == u
  {
  }

  function FaceId(f: BlockFace): (n: int)
    ensures 0 <= n < 6
  {
    match f
    case Down => 0
    case Up => 1
    case North => 2
    case South => 3
    case West => 4
    case East => 5
  }

  function FaceOf(n: int): (f: Option<BlockFace>)
    ensures f.Some? <==> 0 <= n < 6
    ensures f.Some? ==> FaceId(f.value) == n
  {
    if n == 0 then Some(Down)
    else if n == 1 then Some(Up)
    else if n == 2 then Some(North)
    else if n == 3 then Some(South)
    else if n == 4 then Some(West)
    else if n == 5 then Some(East)
    else None
  }

  function WriteRotation(r: Rotation): seq<Byte>
  {
    WriteFloat(r.pitch) + WriteFloat(r.yaw) + WriteFloat(r.roll)
  }

  function ReadRotation(s: seq<Byte>): (d: Decoded<Rotation>)
    ensures d.Ok? ==> |d.rest| < |s|
  {
    match ReadFloat(s)
    case Fail => Fail
    case Ok(p, s1) =>
      match ReadFloat(s1)
      case Fail => Fail
      case Ok(y, s2) =>
        match ReadFloat(s2)
        case Fail => Fail
        case Ok(r, s3) => Ok(Rotation(p, y, r), s3)
  }

  /** A presence boolean, then the payload only when present. */
  function WriteOptionalPosition(op: Option<Position>): seq<Byte>
  {
    WriteBoolean(op.Some?) + (if op.Some? then WritePosition(op.value) else [])
  }

  function ReadOptionalPosition(s: seq<Byte>): (d: Decoded<Option<Position>>)
    ensures d.Ok? ==> |d.rest| < |s|
  {
    match ReadBoolean(s)
    case Fail => Fail
    case Ok(present, s1) =>
      if !present then Ok(None, s1)
      else
        match ReadPosition(s1)
        case Fail => Fail
        case Ok(p, s2) => Ok(Some(p), s2)
  }

  function WriteOptionalUuid(ou: Option<Uuid>): seq<Byte>
  {
    WriteBoolean(ou.Some?) + (if ou.Some? then WriteUuid(ou.value) else [])
  }

  function ReadOptionalUuid(s: seq<Byte>): (d: Decoded<Option<Uuid>>)
    ensures d.Ok? ==> |d.rest| < |s|
  {
    match ReadBoolean(s)
    case Fail => Fail
    case Ok(present, s1) =>
      if !present then Ok(None, s1)
      else
        match ReadUuid(s1)
        case Fail => Fail
        case Ok(u, s2) => Ok(Some(u), s2)
  }

  function WriteMetadataValue(v: MetadataValue): seq<Byte>
  {
    match v
    case ByteValue(b) => WriteByte(b)
    case IntValue(i) => WriteVarInt(i)
    case FloatValue(f) => WriteFloat(f)
    case StringValue(str) => WriteLengthPrefixed(str)
    case ChatValue(chat) => WriteLengthPrefixed(chat)
    case ItemValue(item) => WriteItem(item)
    case BooleanValue(flag) => WriteBoolean(flag)
    case RotationValue(r) => WriteRotation(r)
    case PositionValue(p) => WritePosition(p)
    case OptionalPositionValue(op) => WriteOptionalPosition(op)
    case BlockFaceValue(face) => WriteVarInt(FaceId(face))
    case OptionalUuidValue(ou) => WriteOptionalUuid(ou)
    case BlockStateValue(state) => WriteBlockState(state)
    case NbtValue(tag) => WriteNbt(tag)
  }

  /** The value reader for one type, as the `switch` of `readEntityMetadata`. */
  function ReadMetadataValue(t: MetadataType, s: seq<Byte>): (d: Decoded<MetadataValue>)
    ensures d.Ok? ==> |d.rest| < |s|
  {
    match t
    case ByteType =>
      (match ReadByte(s) case Fail => Fail case Ok(b, r) => Ok(ByteValue(b), r))
    case IntType =>
      (match ReadVarInt(s) case Fail => Fail case Ok(i, r) => Ok(IntValue(i), r))
    case FloatType =>
      (match ReadFloat(s) case Fail => Fail case Ok(f, r) => Ok(FloatValue(f), r))
    case StringType =>
      (match ReadLengthPrefixed(s) case Fail => Fail case Ok(str, r) => Ok(StringValue(str), r))
    case ChatType =>
      (match ReadLengthPrefixed(s) case Fail => Fail case Ok(str, r) => Ok(ChatValue(str), r))
    case ItemType =>
      (match ReadItem(s) case Fail => Fail case Ok(item, r) => Ok(ItemValue(item), r))
    case BooleanType =>
      (match ReadBoolean(s) case Fail => Fail case Ok(flag, r) => Ok(BooleanValue(flag), r))
    case RotationType =>
      (match ReadRotation(s) case Fail => Fail case Ok(rot, r) => Ok(RotationValue(rot), r))
    case PositionType =>
      (match ReadPosition(s) case Fail => Fail case Ok(p, r) => Ok(PositionValue(p), r))
    case OptionalPositionType =>
      (match ReadOptionalPosition(s) case Fail => Fail case Ok(op, r) => Ok(OptionalPositionValue(op), r))
    case BlockFaceType =>
      (match ReadVarInt(s)
       case Fail => Fail
       case Ok(n, r) => if FaceOf(n).None? then Fail else Ok(BlockFaceValue(FaceOf(n).value), r))
    case OptionalUuidType =>
      (match ReadOptionalUuid(s) case Fail => Fail case Ok(ou, r) => Ok(OptionalUuidValue(ou), r))
    case BlockStateType =>
      (match ReadBlockState(s) case Fail => Fail case Ok(st, r) => Ok(BlockStateValue(st), r))
    case NbtType =>
      (match ReadNbt(s) case Fail => Fail case Ok(tag, r) => Ok(NbtValue(tag), r))
  }

  /** A value whose fields fit their wire widths. */
  predicate ValueInRange(v: MetadataValue)
  {
    match v
    case StringValue(str) => |str| < 0x8000_0000
    case ChatValue(chat) => |chat| < 0x8000_0000
    case ItemValue(item) => ItemInRange(item)
    case PositionValue(p) => PositionInRange(p)
    case OptionalPositionValue(op) => op.Some? ==> PositionInRange(op.value)
    case BlockStateValue(st) => -0x800_0000 <= st.id < 0x800_0000 && 0 <= st.data < 16
    case NbtValue(tag) => TagInRange(tag)
    case _ => true
  }

  lemma OptionalPositionRoundTrip(op: Option<Position>, rest: seq<Byte>)
    requires op.Some? ==> PositionInRange(op.value)
    ensures ReadOptionalPosition(WriteOptionalPosition(op) + rest) == Ok(op, rest)
  {
    if op.Some? {
      assert WriteOptionalPosition(op) + rest == WriteBoolean(true) + (WritePosition(op.value) + rest);
      BooleanRoundTrip(true, WritePosition(op.value) + rest);
      PositionRoundTrip(op.value, rest);
    } else {
      assert WriteOptionalPosition(op) + rest == WriteBoolean(false) + rest;
      BooleanRoundTrip(false, rest);
    }
  }

  lemma OptionalUuidRoundTrip(ou: Option<Uuid>, rest: seq<Byte>)
    ensures ReadOptionalUuid(WriteOptionalUuid(ou) + rest) == Ok(ou, rest)
  {
    if ou.Some? {
      assert WriteOptionalUuid(ou) + rest == WriteBoolean(true) + (WriteUuid(ou.value) + rest);
      BooleanRoundTrip(true, WriteUuid(ou.value) + rest);
      UuidRoundTrip(ou.value, rest);
    } else {
      assert WriteOptionalUuid(ou) + rest == WriteBoolean(false) + rest;
      BooleanRoundTrip(false, rest);
    }
  }

  lemma RotationRoundTrip(r: Rotation, rest: seq<Byte>)
    ensures ReadRotation(WriteRotation(r) + rest) == Ok(r, rest)
  {
    var p, y, w := WriteFloat(r.pitch), WriteFloat(r.yaw), WriteFloat(r.roll);
    var t2 := w + rest;
    var t1 := y + t2;
    ConcatAssoc(p + y, w, rest);
    ConcatAssoc(p, y, t2);
    assert WriteRotation(r) + rest == p + t1;
    FloatRoundTrip(r.pitch, t1);
    FloatRoundTrip(r.yaw, t2);
    FloatRoundTrip(r.roll, rest);
    assert ReadFloat(p + t1) == Ok(r.pitch, t1);
    assert ReadFloat(t1) == Ok(r.yaw, t2);
    assert ReadFloat(t2) == Ok(r.roll, rest);
  }

  lemma NumericValueRoundTrip(v: MetadataValue, rest: seq<Byte>)
    requires v.ByteValue? || v.IntValue? || v.FloatValue? || v.BooleanValue? || v.BlockFaceValue?
    ensures ReadMetadataValue(TypeOf(v), WriteMetadataValue(v) + rest) == Ok(v, rest)
  {
    match v
    case ByteValue(b) => ByteRoundTrip(b, rest);
    case IntValue(i) => VarIntRoundTrip(i, rest);
    case FloatValue(f) => FloatRoundTrip(f, rest);
    case BooleanValue(flag) => BooleanRoundTrip(flag, rest);
    case BlockFaceValue(face) => VarIntRoundTrip(FaceId(face), rest);
  }

  lemma TextValueRoundTrip(v: MetadataValue, rest: seq<Byte>)
    requires v.StringValue? || v.ChatValue?
    requires ValueInRange(v)
    ensures ReadMetadataValue(TypeOf(v), WriteMetadataValue(v) + rest) == Ok(v, rest)
  {
    match v
    case StringValue(str) => LengthPrefixedRoundTrip(str, rest);
    case ChatValue(chat) => LengthPrefixedRoundTrip(chat, rest);
  }

  lemma PositionalValueRoundTrip(v: MetadataValue, rest: seq<Byte>)
    requires v.RotationValue? || v.PositionValue? || v.OptionalPositionValue? || v.BlockStateValue?
    requires ValueInRange(v)
    ensures ReadMetadataValue(TypeOf(v), WriteMetadataValue(v) + rest) == Ok(v, rest)
  {
    match v
    case RotationValue(r) =>
      assert TypeOf(v) == RotationType && WriteMetadataValue(v) == WriteRotation(r);
      RotationRoundTrip(r, rest);
      assert ReadRotation(WriteRotation(r) + rest) == Ok(r, rest);
    case PositionValue(p) =>
      assert TypeOf(v) == PositionType && WriteMetadataValue(v) == WritePosition(p);
      PositionRoundTrip(p, rest);
      assert ReadPosition(WritePosition(p) + rest) == Ok(p, rest);
    case OptionalPositionValue(op) =>
      assert TypeOf(v) == OptionalPositionType && WriteMetadataValue(v) == WriteOptionalPosition(op);
      OptionalPositionRoundTrip(op, rest);
      assert ReadOptionalPosition(WriteOptionalPosition(op) + rest) == Ok(op, rest);
    case BlockStateValue(st) =>
      assert TypeOf(v) == BlockStateType && WriteMetadataValue(v) == WriteBlockState(st);
      BlockStateRoundTrip(st, rest);
      assert BlockState(st.id, st.data % 16) == st;
      assert ReadBlockState(WriteBlockState(st) + rest) == Ok(st, rest);
  }

  lemma CompoundValueRoundTrip(v: MetadataValue, rest: seq<Byte>)
    requires v.ItemValue? || v.OptionalUuidValue? || v.NbtValue?
    requires ValueInRange(v)
    ensures ReadMetadataValue(TypeOf(v), WriteMetadataValue(v) + rest) == Ok(v, rest)
  {
    match v
    case ItemValue(item) => ItemRoundTrip(item, rest);
    case OptionalUuidValue(ou) => OptionalUuidRoundTrip(ou, rest);
    case NbtValue(tag) => NbtRoundTrip(tag, rest);
  }

  /** Every in-range value of every type reads back as written. */
  lemma MetadataValueRoundTrip(v: MetadataValue, rest: seq<Byte>)
    requires ValueInRange(v)
    ensures ReadMetadataValue(TypeOf(v), WriteMetadataValue(v) + rest) == Ok(v, rest)
  {
    if v.ByteValue? || v.IntValue? || v.FloatValue? || v.BooleanValue? || v.BlockFaceValue? {
      NumericValueRoundTrip(v, rest);
    } else if v.StringValue? || v.ChatValue? {
      TextValueRoundTrip(v, rest);
    } else if v.RotationValue? || v.PositionValue? || v.OptionalPositionValue? || v.BlockStateValue? {
      PositionalValueRoundTrip(v, rest);
    } else {
      CompoundValueRoundTrip(v, rest);
    }
  }

  function WriteEntry(e: EntityMetadata): seq<Byte>
  {
    WriteByte(e.index) + WriteVarInt(TypeId(TypeOf(e.value))) + WriteMetadataValue(e.value)
  }

  /** The entries, in order, without the terminator. */
  function WriteEntries(es: seq<EntityMetadata>): seq<Byte>
  {
    if es == [] then [] else WriteEntries(es[..|es| - 1]) + WriteEntry(es[|es| - 1])
  }

  /** `writeEntityMetadata`'s output: every entry, then the index 255. */
  function EncodeMetadata(es: seq<EntityMetadata>): seq<Byte>
  {
    WriteEntries(es) + [255]
  }

  /** Outcome of reading a metadata list. */
  datatype MetadataRead =
    | Entries(entries: seq<EntityMetadata>, rest: seq<Byte>)
    | UnknownMetadataType(typeId: Int32)
    | MalformedMetadata

  /** Outcome of reading one entry of a metadata list. */
  datatype EntryRead =
    | Entry(entry: EntityMetadata, rest: seq<Byte>)
    | Terminator(rest: seq<Byte>)
    | UnknownType(typeId: Int32)
    | MalformedEntry

  /** One pass of `readEntityMetadata`'s loop: the index byte (255 ends the
      list), the type id, then the value that type calls for. */
  function ReadEntry(s: seq<Byte>): (d: EntryRead)
    ensures d.Entry? ==> |d.rest| < |s|
  {
    match ReadUnsignedByte(s)
    case Fail => MalformedEntry
    case Ok(index, s1) =>
      if index == 255 then Terminator(s1)
      else
        match ReadVarInt(s1)
        case Fail => MalformedEntry
        case Ok(typeId, s2) =>
          match TypeOfId(typeId)
          case None => UnknownType(typeId)
          case Some(t) =>
            match ReadMetadataValue(t, s2)
            case Fail => MalformedEntry
            case Ok(v, s3) => Entry(EntityMetadata(index, v), s3)
  }

  /** `readEntityMetadata` as a specification: read entries until the index
      255; an unknown type id ends the read with an error naming it. */
  function DecodeMetadata(s: seq<Byte>): MetadataRead
    decreases |s|
  {
    match ReadEntry(s)
    case Terminator(rest) => Entries([], rest)
    case UnknownType(t) => UnknownMetadataType(t)
    case MalformedEntry => MalformedMetadata
    case Entry(e, rest) => Prepend([e], DecodeMetadata(rest))
  }

  /** Puts `es` in front of the entries of a successful read. */
  function Prepend(es: seq<EntityMetadata>, r: MetadataRead): (r': MetadataRead)
    ensures r'.Entries? <==> r.Entries?
    ensures r.Entries? ==> r'.entries == es + r.entries && r'.rest == r.rest
    ensures !r.Entries? ==> r' == r
  {
    match r
    case Entries(more, rest) => Entries(es + more, rest)
    case _ => r
  }

  lemma PrependPrepend(a: seq<EntityMetadata>, b: seq<EntityMetadata>, r: MetadataRead)
    ensures Prepend(a, Prepend(b, r)) == Prepend(a + b, r)
  {
    if r.Entries? {
      assert a + (b + r.entries) == (a + b) + r.entries;
    }
  }

  /** `readEntityMetadata`: the loop appends entries until the index 255. */
  method ReadEntityMetadata(s: seq<Byte>) returns (r: MetadataRead)
    ensures r == DecodeMetadata(s)
  {
    var ret: seq<EntityMetadata> := [];
    var cur := s;
    while true
      invariant DecodeMetadata(s) == Prepend(ret, DecodeMetadata(cur))
      decreases |cur|
    {
      var id := ReadUnsignedByte(cur);
      if id.Fail? { return MalformedMetadata; }
      if id.value == 255 { return Entries(ret, id.rest); }
      var typeId := ReadVarInt(id.rest);
      if typeId.Fail? { return MalformedMetadata; }
      var t := TypeOfId(typeId.value);
      if t.None? { return UnknownMetadataType(typeId.value); }
      var value := ReadMetadataValue(t.value, typeId.rest);
      if value.Fail? { return MalformedMetadata; }
      assert ReadEntry(cur) == Entry(EntityMetadata(id.value, value.value), value.rest);
      PrependPrepend(ret, [EntityMetadata(id.value, value.value)], DecodeMetadata(value.rest));
      ret := ret + [EntityMetadata(id.value, value.value)];
      cur := value.rest;
    }
  }

  /** `writeEntityMetadata`: each entry in order, then the terminator. */
  method WriteEntityMetadata(es: seq<EntityMetadata>) returns (out: seq<Byte>)
    ensures out == EncodeMetadata(es)
  {
    out := [];
    for i := 0 to |es|
      invariant out == WriteEntries(es[..i])
    {
      assert es[..i + 1][..i] == es[..i];
      out := out + WriteEntry(es[i]);
    }
    assert es[..|es|] == es;
    out := out + [255];
  }

  /** An entry that reads back: its index is below the terminator. */
  predicate EntryInRange(e: EntityMetadata)
  {
    0 <= e.index < 255 && ValueInRange(e.value)
  }

  lemma EmptyMetadataIsTerminator()
    ensures EncodeMetadata([]) == [255]
  {
  }

  lemma EntryRoundTrip(e: EntityMetadata, rest: seq<Byte>)
    requires EntryInRange(e)
    ensures ReadEntry(WriteEntry(e) + rest) == Entry(e, rest)
  {
    var t := TypeOf(e.value);
    var t2 := WriteMetadataValue(e.value) + rest;
    var t1 := WriteVarInt(TypeId(t)) + t2;
    assert WriteEntry(e) + rest == WriteByte(e.index) + t1;
    UnsignedByteRoundTrip(e.index, t1);
    VarIntRoundTrip(TypeId(t), t2);
    TypeIdsDistinct(TypeOfId(TypeId(t)).value, t);
    MetadataValueRoundTrip(e.value, rest);
  }

  lemma DecodeAfterEntry(e: EntityMetadata, rest: seq<Byte>)
    requires EntryInRange(e)
    ensures DecodeMetadata(WriteEntry(e) + rest) == Prepend([e], DecodeMetadata(rest))
  {
    EntryRoundTrip(e, rest);
  }

  lemma {:induction false} EntriesRoundTrip(es: seq<EntityMetadata>, rest: seq<Byte>)
    requires forall i :: 0 <= i < |es| ==> EntryInRange(es[i])
    ensures DecodeMetadata(WriteEntries(es) + rest) == Prepend(es, DecodeMetadata(rest))
    decreases |es|
  {
    if es == [] {
      assert WriteEntries(es) + rest == rest;
    } else {
      var front, last := es[..|es| - 1], es[|es| - 1];
      var tail := WriteEntry(last) + rest;
      assert WriteEntries(es) == WriteEntries(front) + WriteEntry(last);
      ConcatAssoc(WriteEntries(front), WriteEntry(last), rest);
      EntriesRoundTrip(front, tail);
      DecodeAfterEntry(last, rest);
      PrependPrepend(front, [last], DecodeMetadata(rest));
      assert front + [last] == es;
    }
  }

  /** Entries whose indices are all below 255 read back in order. */
  lemma MetadataRoundTrip(es: seq<EntityMetadata>, rest: seq<Byte>)
    requires forall i :: 0 <= i < |es| ==> EntryInRange(es[i])
    ensures DecodeMetadata(EncodeMetadata(es) + rest) == Entries(es, rest)
  {
    assert EncodeMetadata(es) + rest == WriteEntries(es) + ([255] + rest);
    EntriesRoundTrip(es, [255] + rest);
    MetadataStopsAtTerminator(rest);
    assert es + [] == es;
  }

  /** The read stops at the first index 255: nothing after it is looked at. */
  lemma MetadataStopsAtTerminator(rest: seq<Byte>)
    ensures DecodeMetadata([255] + rest) == Entries([], rest)
  {
    assert ([255] + rest)[1..] == rest;
  }

  /** An unknown type id ends the read with an error and no entries. */
  lemma UnknownTypeIsError(index: Byte, typeId: Int32, rest: seq<Byte>)
    requires index != 255 && !(0 <= typeId < 14)
    ensures DecodeMetadata([index] + WriteVarInt(typeId) + rest) == UnknownMetadataType(typeId)
  {
    var tail := WriteVarInt(typeId) + rest;
    var s := [index] + tail;
    assert [index] + WriteVarInt(typeId) + rest == s;
    assert s[0] == index && s[1..] == tail;
    assert ReadUnsignedByte(s) == Ok(index, tail);
    VarIntRoundTrip(typeId, rest);
    assert ReadVarInt(tail) == Ok(typeId, rest);
    assert TypeOfId(typeId).None?;
    assert ReadEntry(s) == UnknownType(typeId);
  }
}
