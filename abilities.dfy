/**
 * The player-abilities packet a server sends: four booleans packed into one
 * flag byte, followed by the flying and walking speeds.  The speeds are Java
 * floats and are carried as their 32-bit patterns.
 */
module PlayerAbilities {
  import opened Wire
  import opened Optional
  import ByteBits

  const FlagInvincible: bv8 := 0x01
  const FlagFlying: bv8 := 0x02
  const FlagCanFly: bv8 := 0x04
  const FlagCreative: bv8 := 0x08

  /** The packet's six fields as a value. */
  datatype Abilities = Abilities(invincible: bool, canFly: bool, flying: bool, creative: bool,
                                 flySpeed: FloatBits, walkSpeed: FloatBits)

  /** `(flags & flag) > 0` for a flag byte read as a signed Java byte. */
  predicate HasFlag(flags: Int8, flag: bv8)
  {
    ((flags % 256) as bv8) & flag != 0
  }

  /** The flag byte as a sum of the four flag values. */
  function FlagByte(a: Abilities): int
  {
    (if a.invincible then 1 else 0) + (if a.flying then 2 else 0)
    + (if a.canFly then 4 else 0) + (if a.creative then 8 else 0)
  }

  /** The booleans `read` takes from a flag byte; the speeds are passed through. */
  function FromFlags(flags: Int8, flySpeed: FloatBits, walkSpeed: FloatBits): Abilities
  {
    Abilities(HasFlag(flags, FlagInvincible), HasFlag(flags, FlagCanFly),
              HasFlag(flags, FlagFlying), HasFlag(flags, FlagCreative), flySpeed, walkSpeed)
  }

  /** The wire form: the flag byte, then the fly speed, then the walk speed. */
  function Encode(a: Abilities): seq<Byte>
  {
    WriteByte(FlagByte(a)) + WriteFloat(a.flySpeed) + WriteFloat(a.walkSpeed)
  }

  function Decode(s: seq<Byte>): (d: Decoded<Abilities>)
    ensures d.Ok? ==> |d.rest| == |s| - 9
  {
    match ReadByte(s)
    case Fail => Fail
    case Ok(flags, s1) =>
      match ReadFloat(s1)
      case Fail => Fail
      case Ok(fly, s2) =>
        match ReadFloat(s2)
        case Fail => Fail
        case Ok(walk, s3) => Ok(FromFlags(flags, fly, walk), s3)
  }

  /** Bit 0x01 is set iff invincible, 0x02 iff flying, 0x04 iff can-fly, 0x08 iff creative; the byte is below 16. */
  lemma FlagByteBits(a: Abilities)
    ensures 0 <= FlagByte(a) < 16
    ensures HasFlag(FlagByte(a), FlagInvincible) <==> a.invincible
    ensures HasFlag(FlagByte(a), FlagFlying) <==> a.flying
    ensures HasFlag(FlagByte(a), FlagCanFly) <==> a.canFly
    ensures HasFlag(FlagByte(a), FlagCreative) <==> a.creative
  {
  }

  /** The low four bits of a byte, as a number, are the byte modulo 16. */
  lemma LowNibble(v: bv8)
    ensures (v & 0x0F) as int == (v as int) % 16
  {
  }

  /** A value below 16 is the sum of its four flag bits. */
  lemma NibbleSum(w: bv8)
    requires w < 16
    ensures (if w & FlagInvincible != 0 then 1 else 0) + (if w & FlagFlying != 0 then 2 else 0)
          + (if w & FlagCanFly != 0 then 4 else 0) + (if w & FlagCreative != 0 then 8 else 0) == w as int
  {
  }

  /** The four flag bits of a byte are those of its low nibble. */
  lemma FlagsInNibble(v: bv8)
    ensures v & FlagInvincible == (v & 0x0F) & FlagInvincible && v & FlagFlying == (v & 0x0F) & FlagFlying
    ensures v & FlagCanFly == (v & 0x0F) & FlagCanFly && v & FlagCreative == (v & 0x0F) & FlagCreative
  {
  }

  /** The four low flag bits of a byte, summed, are the byte modulo 16. */
  lemma LowBitsValue(v: bv8)
    ensures (if v & FlagInvincible != 0 then 1 else 0) + (if v & FlagFlying != 0 then 2 else 0)
            + (if v & FlagCanFly != 0 then 4 else 0) + (if v & FlagCreative != 0 then 8 else 0)
            == (v as int) % 16
  {
    FlagsInNibble(v);
    NibbleSum(v & 0x0F);
    LowNibble(v);
  }

  /** Writing back what was read keeps exactly the low four bits of the flag byte, `flags & 0x0F`. */
  lemma RewriteKeepsLowBits(flags: Int8, flySpeed: FloatBits, walkSpeed: FloatBits)
    ensures FlagByte(FromFlags(flags, flySpeed, walkSpeed)) == (flags % 256) % 16
  {
    var u := flags % 256;
    var b := u as bv8;
    var a := FromFlags(flags, flySpeed, walkSpeed);
    assert a.invincible == (b & FlagInvincible != 0) && a.flying == (b & FlagFlying != 0);
    assert a.canFly == (b & FlagCanFly != 0) && a.creative == (b & FlagCreative != 0);
    LowBitsValue(b);
    ByteBits.ByteAsBits(u);
  }

  lemma RoundTrip(a: Abilities, rest: seq<Byte>)
    ensures Decode(Encode(a) + rest) == Ok(a, rest)
  {
    FlagByteBits(a);
    var f := FlagByte(a);
    assert Encode(a) + rest == WriteByte(f) + (WriteFloat(a.flySpeed) + (WriteFloat(a.walkSpeed) + rest));
    ByteRoundTrip(f, WriteFloat(a.flySpeed) + (WriteFloat(a.walkSpeed) + rest));
    FloatRoundTrip(a.flySpeed, WriteFloat(a.walkSpeed) + rest);
    FloatRoundTrip(a.walkSpeed, rest);
  }

  class ServerPlayerAbilitiesPacket {
    var invincible: bool
    var canFly: bool
    var flying: bool
    var creative: bool
    var flySpeed: FloatBits
    var walkSpeed: FloatBits

    function Value(): Abilities
      reads this
    {
      Abilities(invincible, canFly, flying, creative, flySpeed, walkSpeed)
    }

    constructor (a: Abilities)
      ensures Value() == a
    {
      invincible := a.invincible;
      canFly := a.canFly;
      flying := a.flying;
      creative := a.creative;
      flySpeed := a.flySpeed;
      walkSpeed := a.walkSpeed;
    }

    /**
     * `read`: assigns the fields in source order; when the input ends early
     * the fields assigned before the failing read keep their new values and
     * `None` stands for the IOException.
     */
    method Read(s: seq<Byte>) returns (rest: Option<seq<Byte>>)
      modifies this
      ensures Decode(s).Ok? ==> rest == Some(Decode(s).rest) && Value() == Decode(s).value
      ensures Decode(s).Fail? ==> rest.None?
      ensures ReadByte(s).Fail? ==> Value() == old(Value())
      ensures ReadByte(s).Ok? ==>
        var flags := ReadByte(s).value;
        var fly := ReadFloat(ReadByte(s).rest);
        invincible == HasFlag(flags, FlagInvincible) && canFly == HasFlag(flags, FlagCanFly)
        && flying == HasFlag(flags, FlagFlying) && creative == HasFlag(flags, FlagCreative)
        && (fly.Fail? ==> flySpeed == old(flySpeed) && walkSpeed == old(walkSpeed))
        && (fly.Ok? ==> flySpeed == fly.value && (ReadFloat(fly.rest).Fail? ==> walkSpeed == old(walkSpeed)))
    {
      var b := ReadByte(s);
      if b.Fail? {
        return None;
      }
      var flags := b.value;
      invincible := HasFlag(flags, FlagInvincible);
      canFly := HasFlag(flags, FlagCanFly);
      flying := HasFlag(flags, FlagFlying);
      creative := HasFlag(flags, FlagCreative);
      var fly := ReadFloat(b.rest);
      if fly.Fail? {
        return None;
      }
      flySpeed := fly.value;
      var walk := ReadFloat(fly.rest);
      if walk.Fail? {
        return None;
      }
      walkSpeed := walk.value;
      rest := Some(walk.rest);
    }

    /** `write`: builds the flag byte with bitwise or, one flag at a time. */
    method Write() returns (out: seq<Byte>)
      ensures out == Encode(Value())
    {
      var flags: bv8 := 0;
      if invincible {
        flags := flags | FlagInvincible;
      }
      if canFly {
        flags := flags | FlagCanFly;
      }
      if flying {
        flags := flags | FlagFlying;
      }
      if creative {
        flags := flags | FlagCreative;
      }
      assert flags as int == FlagByte(Value());
      out := WriteByte(flags as int) + WriteFloat(flySpeed) + WriteFloat(walkSpeed);
    }
  }
}
