/** The layout of the group-100 reply, as an independent table.

    The Open Interface sends packets 7 to 58 back to back, each with its own
    width and decode rule.  `PacketRule` is that table, `Offset` places each
    packet after the ones before it, and `Start` lists those positions as
    literals (`StartIsOffset` shows the two agree).  The lemmas show that the
    decoder's hand-written slices are exactly these positions: every field
    is decoded from its own packet's bytes and nothing else. */
module Layout {
  import opened Bits
  import opened Formats
  import opened Packets

  datatype BitfieldKind =
    | BumpsAndWheelDropBits | WheelOvercurrentBits | ButtonBits
    | ChargingSourceBits | LightBumperBits | StasisBits

  datatype Rule =
    | Scalar(format: Format)
    | Bitfield(kind: BitfieldKind)
    | Unused(width: nat)

  /** One decoded packet. */
  datatype Reading =
    | Plain(value: Value)
    | BumpsReading(bumps: BumpsAndWheelDrop)
    | OvercurrentsReading(overcurrents: WheelOvercurrents)
    | ButtonsReading(buttons: Buttons)
    | ChargingSourcesReading(sources: ChargingSources)
    | LightBumperReading(lightBumper: LightBumper)
    | StasisReading(stasis: Stasis)

  predicate IsPacket(id: int)
  {
    7 <= id <= 58
  }

  /** The decode rule of each packet of the group. */
  function PacketRule(id: int): Rule
    requires IsPacket(id)
  {
    match id
    case 7 => Bitfield(BumpsAndWheelDropBits)
    case 8 => Scalar(BoolByte)        // wall
    case 9 => Scalar(BoolByte)        // cliff left
    case 10 => Scalar(BoolByte)       // cliff front left
    case 11 => Scalar(BoolByte)       // cliff front right
    case 12 => Scalar(BoolByte)       // cliff right
    case 13 => Scalar(BoolByte)       // virtual wall
    case 14 => Bitfield(WheelOvercurrentBits)
    case 15 => Scalar(SignedByte)     // dirt detect
    case 16 => Unused(1)
    case 17 => Scalar(UnsignedByte)   // infrared character omni
    case 18 => Bitfield(ButtonBits)
    case 19 => Scalar(SignedShort)    // distance
    case 20 => Scalar(SignedShort)    // angle
    case 21 => Scalar(UnsignedByte)   // charging state
    case 22 => Scalar(UnsignedShort)  // voltage
    case 23 => Scalar(SignedShort)    // current
    case 24 => Scalar(SignedByte)     // temperature
    case 25 => Scalar(UnsignedShort)  // battery charge
    case 26 => Scalar(UnsignedShort)  // battery capacity
    case 27 => Scalar(UnsignedShort)  // wall signal
    case 28 => Scalar(UnsignedShort)  // cliff left signal
    case 29 => Scalar(UnsignedShort)  // cliff front left signal
    case 30 => Scalar(UnsignedShort)  // cliff front right signal
    case 31 => Scalar(UnsignedShort)  // cliff right signal
    case 32 => Unused(1)
    case 33 => Unused(2)
    case 34 => Bitfield(ChargingSourceBits)
    case 35 => Scalar(UnsignedByte)   // OI mode
    case 36 => Scalar(UnsignedByte)   // song number
    case 37 => Scalar(BoolByte)       // song playing
    case 38 => Scalar(UnsignedByte)   // number of stream packets
    case 39 => Scalar(SignedShort)    // requested velocity
    case 40 => Scalar(SignedShort)    // requested radius
    case 41 => Scalar(SignedShort)    // requested right velocity
    case 42 => Scalar(SignedShort)    // requested left velocity
    case 43 => Scalar(UnsignedShort)  // left encoder counts
    case 44 => Scalar(UnsignedShort)  // right encoder counts
    case 45 => Bitfield(LightBumperBits)
    case 46 => Scalar(UnsignedShort)  // light bump left signal
    case 47 => Scalar(UnsignedShort)  // light bump front left signal
    case 48 => Scalar(UnsignedShort)  // light bump center left signal
    case 49 => Scalar(UnsignedShort)  // light bump center right signal
    case 50 => Scalar(UnsignedShort)  // light bump front right signal
    case 51 => Scalar(UnsignedShort)  // light bump right signal
    case 52 => Scalar(UnsignedByte)   // infrared character left
    case 53 => Scalar(UnsignedByte)   // infrared character right
    case 54 => Scalar(SignedShort)    // left motor current
    case 55 => Scalar(SignedShort)    // right motor current
    case 56 => Scalar(SignedShort)    // main brush motor current
    case 57 => Scalar(SignedShort)    // side brush motor current
    case 58 => Bitfield(StasisBits)
  }

  function Width(rule: Rule): nat
  {
    match rule
    case Scalar(f) => Size(f)
    case Bitfield(_) => 1
    case Unused(w) => w
  }

  /** Where packet id starts in the reply: the widths of packets 7..id-1
      added up (id 59 gives the length of the whole reply). */
  function Offset(id: int): nat
    requires 7 <= id <= 59
    decreases id
  {
    if id == 7 then 0 else Offset(id - 1) + Width(PacketRule(id - 1))
  }

  /** How a packet's bytes decode under the table's rule. */
  function DecodeReading(rule: Rule, bytes: seq<Byte>): Reading
    requires !rule.Unused? && |bytes| == Width(rule)
  {
    match rule
    case Scalar(f) => Plain(Unpack(f, bytes).value)
    case Bitfield(BumpsAndWheelDropBits) => BumpsReading(BumpsAndWheelDropOf(bytes[0]))
    case Bitfield(WheelOvercurrentBits) => OvercurrentsReading(WheelOvercurrentsOf(bytes[0]))
    case Bitfield(ButtonBits) => ButtonsReading(ButtonsOf(bytes[0]))
    case Bitfield(ChargingSourceBits) => ChargingSourcesReading(ChargingSourcesOf(bytes[0]))
    case Bitfield(LightBumperBits) => LightBumperReading(LightBumperOf(bytes[0]))
    case Bitfield(StasisBits) => StasisReading(StasisOf(bytes[0]))
  }

  /** The field of the record that holds packet id. */
  function ReadingOf(s: Sensors, id: int): Reading
    requires IsPacket(id) && !PacketRule(id).Unused?
  {
    match id
    case 7 => BumpsReading(s.bumpsWheeldrops)
    case 8 => Plain(Bool(s.wall))
    case 9 => Plain(Bool(s.cliffLeft))
    case 10 => Plain(Bool(s.cliffFrontLeft))
    case 11 => Plain(Bool(s.cliffFrontRight))
    case 12 => Plain(Bool(s.cliffRight))
    case 13 => Plain(Bool(s.virtualWall))
    case 14 => OvercurrentsReading(s.overcurrents)
    case 15 => Plain(Int(s.dirtDetect))
    case 17 => Plain(Int(s.irOpcode))
    case 18 => ButtonsReading(s.buttons)
    case 19 => Plain(Int(s.distance))
    case 20 => Plain(Int(s.angle))
    case 21 => Plain(Int(s.chargerState))
    case 22 => Plain(Int(s.voltage))
    case 23 => Plain(Int(s.current))
    case 24 => Plain(Int(s.temperature))
    case 25 => Plain(Int(s.batteryCharge))
    case 26 => Plain(Int(s.batteryCapacity))
    case 27 => Plain(Int(s.wallSignal))
    case 28 => Plain(Int(s.cliffLeftSignal))
    case 29 => Plain(Int(s.cliffFrontLeftSignal))
    case 30 => Plain(Int(s.cliffFrontRightSignal))
    case 31 => Plain(Int(s.cliffRightSignal))
    case 34 => ChargingSourcesReading(s.chargerAvailable)
    case 35 => Plain(Int(s.openInterfaceMode))
    case 36 => Plain(Int(s.songNumber))
    case 37 => Plain(Bool(s.songPlaying))
    case 38 => Plain(Int(s.oiStreamNumPackets))
    case 39 => Plain(Int(s.velocity))
    case 40 => Plain(Int(s.radius))
    case 41 => Plain(Int(s.velocityRight))
    case 42 => Plain(Int(s.velocityLeft))
    case 43 => Plain(Int(s.encoderCountsLeft))
    case 44 => Plain(Int(s.encoderCountsRight))
    case 45 => LightBumperReading(s.lightBumper)
    case 46 => Plain(Int(s.lightBumperLeft))
    case 47 => Plain(Int(s.lightBumperFrontLeft))
    case 48 => Plain(Int(s.lightBumperCenterLeft))
    case 49 => Plain(Int(s.lightBumperCenterRight))
    case 50 => Plain(Int(s.lightBumperFrontRight))
    case 51 => Plain(Int(s.lightBumperRight))
    case 52 => Plain(Int(s.irOpcodeLeft))
    case 53 => Plain(Int(s.irOpcodeRight))
    case 54 => Plain(Int(s.leftMotorCurrent))
    case 55 => Plain(Int(s.rightMotorCurrent))
    case 56 => Plain(Int(s.mainBrushCurrent))
    case 57 => Plain(Int(s.sideBrushCurrent))
    case 58 => StasisReading(s.stasis)
  }

  /** The same positions written out, one per packet. */
  function Start(id: int): nat
    requires 7 <= id <= 59
  {
    match id
    case 7 => 0
    case 8 => 1
    case 9 => 2
    case 10 => 3
    case 11 => 4
    case 12 => 5
    case 13 => 6
    case 14 => 7
    case 15 => 8
    case 16 => 9
    case 17 => 10
    case 18 => 11
    case 19 => 12
    case 20 => 14
    case 21 => 16
    case 22 => 17
    case 23 => 19
    case 24 => 21
    case 25 => 22
    case 26 => 24
    case 27 => 26
    case 28 => 28
    case 29 => 30
    case 30 => 32
    case 31 => 34
    case 32 => 36
    case 33 => 37
    case 34 => 39
    case 35 => 40
    case 36 => 41
    case 37 => 42
    case 38 => 43
    case 39 => 44
    case 40 => 46
    case 41 => 48
    case 42 => 50
    case 43 => 52
    case 44 => 54
    case 45 => 56
    case 46 => 57
    case 47 => 59
    case 48 => 61
    case 49 => 63
    case 50 => 65
    case 51 => 67
    case 52 => 69
    case 53 => 70
    case 54 => 71
    case 55 => 73
    case 56 => 75
    case 57 => 77
    case 58 => 79
    case 59 => 80
  }

  /** The written-out positions are the running sums of the widths. */
  lemma {:induction false} StartIsOffset(id: int)
    requires 7 <= id <= 59
    ensures Start(id) == Offset(id)
    decreases id
  {
    if id > 7 {
      StartIsOffset(id - 1);
      StartStep(id);
    }
  }

  lemma StartStep(id: int)
    requires 7 < id <= 59
    ensures Start(id) == Start(id - 1) + Width(PacketRule(id - 1))
  {
  }

  /** Every packet of the group lies inside the 80-byte reply, each starts
      where the one before it ends, and the last one ends exactly at byte 80:
      the packets fill the reply that the decoder demands. */
  lemma PacketsFillReply(id: int)
    requires IsPacket(id)
    ensures Start(id + 1) == Start(id) + Width(PacketRule(id))
    ensures Start(id) + Width(PacketRule(id)) <= SENSOR_GROUP_100_LENGTH
    ensures Start(id) + Width(PacketRule(id)) == SENSOR_GROUP_100_LENGTH <==> id == 58
  {
    StartStep(id + 1);
    StartWithinReply(id + 1);
  }

  lemma StartWithinReply(id: int)
    requires 7 <= id <= 59
    ensures Start(id) <= SENSOR_GROUP_100_LENGTH
    ensures Start(id) == SENSOR_GROUP_100_LENGTH <==> id == 59
  {
  }

  /** The packets the decoder skips are 16, 32 and 33, on bytes 9, 36 and
      37..38. */
  lemma UnusedPackets(id: int)
    requires IsPacket(id)
    ensures PacketRule(id).Unused? <==> id == 16 || id == 32 || id == 33
    ensures id == 16 ==> Start(id) == 9 && Width(PacketRule(id)) == 1
    ensures id == 32 ==> Start(id) == 36 && Width(PacketRule(id)) == 1
    ensures id == 33 ==> Start(id) == 37 && Width(PacketRule(id)) == 2
  {
  }

  /** Each field of the decoded record is its packet's bytes, at the offset
      the table gives, decoded by the table's rule. */
  lemma DecoderFollowsPacketTable(data: seq<Byte>, id: int)
    requires |data| == SENSOR_GROUP_100_LENGTH
    requires IsPacket(id) && !PacketRule(id).Unused?
    ensures Start(id) + Width(PacketRule(id)) <= |data|
    ensures ReadingOf(SensorPacketDecoder(data).value, id)
         == DecodeReading(PacketRule(id), data[Start(id)..Start(id) + Width(PacketRule(id))])
  {
    if id <= 16 {
      Group1FollowsTable(data, id);
    } else if id <= 20 {
      Group2FollowsTable(data, id);
    } else if id <= 26 {
      Group3FollowsTable(data, id);
    } else if id <= 34 {
      Group4FollowsTable(data, id);
    } else if id <= 38 {
      Group5aFollowsTable(data, id);
    } else if id <= 42 {
      Group5bFollowsTable(data, id);
    } else if id <= 45 {
      Group101aFollowsTable(data, id);
    } else if id <= 51 {
      Group106FollowsTable(data, id);
    } else {
      Group101bFollowsTable(data, id);
    }
  }

  /** DecoderFollowsPacketTable for packets 7-16, the Open Interface's group 1. */
  lemma Group1FollowsTable(data: seq<Byte>, id: int)
    requires |data| == SENSOR_GROUP_100_LENGTH
    requires 7 <= id <= 16 && !PacketRule(id).Unused?
    ensures Start(id) + Width(PacketRule(id)) <= |data|
    ensures ReadingOf(SensorPacketDecoder(data).value, id)
         == DecodeReading(PacketRule(id), data[Start(id)..Start(id) + Width(PacketRule(id))])
  {
    var rule := PacketRule(id);
    if rule.Scalar? && rule.format != BoolByte {
      IntAtIsDecode(rule.format, data, Start(id));
    } else if rule.Scalar? {
      BoolAtIsDecode(data, Start(id));
    } else {
      assert data[Start(id)..Start(id) + 1][0] == IntAt(UnsignedByte, data, Start(id));
    }
  }

  /** DecoderFollowsPacketTable for packets 17-20, group 2. */
  lemma Group2FollowsTable(data: seq<Byte>, id: int)
    requires |data| == SENSOR_GROUP_100_LENGTH
    requires 17 <= id <= 20 && !PacketRule(id).Unused?
    ensures Start(id) + Width(PacketRule(id)) <= |data|
    ensures ReadingOf(SensorPacketDecoder(data).value, id)
         == DecodeReading(PacketRule(id), data[Start(id)..Start(id) + Width(PacketRule(id))])
  {
    var rule := PacketRule(id);
    if rule.Scalar? && rule.format != BoolByte {
      IntAtIsDecode(rule.format, data, Start(id));
    } else {
      assert data[Start(id)..Start(id) + 1][0] == IntAt(UnsignedByte, data, Start(id));
    }
  }

  /** DecoderFollowsPacketTable for packets 21-26, group 3. */
  lemma Group3FollowsTable(data: seq<Byte>, id: int)
    requires |data| == SENSOR_GROUP_100_LENGTH
    requires 21 <= id <= 26 && !PacketRule(id).Unused?
    ensures Start(id) + Width(PacketRule(id)) <= |data|
    ensures ReadingOf(SensorPacketDecoder(data).value, id)
         == DecodeReading(PacketRule(id), data[Start(id)..Start(id) + Width(PacketRule(id))])
  {
    var rule := PacketRule(id);
    if rule.Scalar? && rule.format != BoolByte {
      IntAtIsDecode(rule.format, data, Start(id));
    }
  }

  /** DecoderFollowsPacketTable for packets 27-34, group 4. */
  lemma Group4FollowsTable(data: seq<Byte>, id: int)
    requires |data| == SENSOR_GROUP_100_LENGTH
    requires 27 <= id <= 34 && !PacketRule(id).Unused?
    ensures Start(id) + Width(PacketRule(id)) <= |data|
    ensures ReadingOf(SensorPacketDecoder(data).value, id)
         == DecodeReading(PacketRule(id), data[Start(id)..Start(id) + Width(PacketRule(id))])
  {
    var rule := PacketRule(id);
    if rule.Scalar? && rule.format != BoolByte {
      IntAtIsDecode(rule.format, data, Start(id));
    } else {
      assert data[Start(id)..Start(id) + 1][0] == IntAt(UnsignedByte, data, Start(id));
    }
  }

  /** DecoderFollowsPacketTable for packets 35-38, the first half of group 5. */
  lemma Group5aFollowsTable(data: seq<Byte>, id: int)
    requires |data| == SENSOR_GROUP_100_LENGTH
    requires 35 <= id <= 38 && !PacketRule(id).Unused?
    ensures Start(id) + Width(PacketRule(id)) <= |data|
    ensures ReadingOf(SensorPacketDecoder(data).value, id)
         == DecodeReading(PacketRule(id), data[Start(id)..Start(id) + Width(PacketRule(id))])
  {
    var rule := PacketRule(id);
    if rule.Scalar? && rule.format != BoolByte {
      IntAtIsDecode(rule.format, data, Start(id));
    } else if rule.Scalar? {
      BoolAtIsDecode(data, Start(id));
    }
  }

  /** DecoderFollowsPacketTable for packets 39-42, the second half of group 5. */
  lemma Group5bFollowsTable(data: seq<Byte>, id: int)
    requires |data| == SENSOR_GROUP_100_LENGTH
    requires 39 <= id <= 42 && !PacketRule(id).Unused?
    ensures Start(id) + Width(PacketRule(id)) <= |data|
    ensures ReadingOf(SensorPacketDecoder(data).value, id)
         == DecodeReading(PacketRule(id), data[Start(id)..Start(id) + Width(PacketRule(id))])
  {
    var rule := PacketRule(id);
    if rule.Scalar? && rule.format != BoolByte {
      IntAtIsDecode(rule.format, data, Start(id));
    }
  }

  /** DecoderFollowsPacketTable for packets 43-45, the start of group 101. */
  lemma Group101aFollowsTable(data: seq<Byte>, id: int)
    requires |data| == SENSOR_GROUP_100_LENGTH
    requires 43 <= id <= 45 && !PacketRule(id).Unused?
    ensures Start(id) + Width(PacketRule(id)) <= |data|
    ensures ReadingOf(SensorPacketDecoder(data).value, id)
         == DecodeReading(PacketRule(id), data[Start(id)..Start(id) + Width(PacketRule(id))])
  {
    var rule := PacketRule(id);
    if rule.Scalar? && rule.format != BoolByte {
      IntAtIsDecode(rule.format, data, Start(id));
    } else {
      assert data[Start(id)..Start(id) + 1][0] == IntAt(UnsignedByte, data, Start(id));
    }
  }

  /** DecoderFollowsPacketTable for packets 46-51, the Open Interface's group 106. */
  lemma Group106FollowsTable(data: seq<Byte>, id: int)
    requires |data| == SENSOR_GROUP_100_LENGTH
    requires 46 <= id <= 51 && !PacketRule(id).Unused?
    ensures Start(id) + Width(PacketRule(id)) <= |data|
    ensures ReadingOf(SensorPacketDecoder(data).value, id)
         == DecodeReading(PacketRule(id), data[Start(id)..Start(id) + Width(PacketRule(id))])
  {
    var rule := PacketRule(id);
    if rule.Scalar? && rule.format != BoolByte {
      IntAtIsDecode(rule.format, data, Start(id));
    }
  }

  /** DecoderFollowsPacketTable for packets 52-58, the rest of group 101. */
  lemma Group101bFollowsTable(data: seq<Byte>, id: int)
    requires |data| == SENSOR_GROUP_100_LENGTH
    requires 52 <= id <= 58 && !PacketRule(id).Unused?
    ensures Start(id) + Width(PacketRule(id)) <= |data|
    ensures ReadingOf(SensorPacketDecoder(data).value, id)
         == DecodeReading(PacketRule(id), data[Start(id)..Start(id) + Width(PacketRule(id))])
  {
    var rule := PacketRule(id);
    if rule.Scalar? && rule.format != BoolByte {
      IntAtIsDecode(rule.format, data, Start(id));
    } else {
      assert data[Start(id)..Start(id) + 1][0] == IntAt(UnsignedByte, data, Start(id));
    }
  }

  /** A field changes only if its own packet's bytes change. */
  lemma FieldDependsOnlyOnItsPacket(d1: seq<Byte>, d2: seq<Byte>, id: int)
    requires |d1| == |d2| == SENSOR_GROUP_100_LENGTH
    requires IsPacket(id) && !PacketRule(id).Unused?
    requires forall i :: Start(id) <= i < Start(id) + Width(PacketRule(id)) && 0 <= i < |d1| ==> d1[i] == d2[i]
    ensures ReadingOf(SensorPacketDecoder(d1).value, id) == ReadingOf(SensorPacketDecoder(d2).value, id)
  {
    PacketsFillReply(id);
    var lo, hi := Start(id), Start(id) + Width(PacketRule(id));
    assert d1[lo..hi] == d2[lo..hi];
    var r1, r2 := ReadingOf(SensorPacketDecoder(d1).value, id), ReadingOf(SensorPacketDecoder(d2).value, id);
    DecoderFollowsPacketTable(d1, id);
    DecoderFollowsPacketTable(d2, id);
    assert r1 == DecodeReading(PacketRule(id), d1[lo..hi]);
  }

  /** The bytes of the unused packets never affect the result: two replies
      that differ only there decode to the same record. */
  lemma UnusedBytesIgnored(d1: seq<Byte>, d2: seq<Byte>)
    requires |d1| == |d2| == SENSOR_GROUP_100_LENGTH
    requires forall i :: 0 <= i < |d1| && i != 9 && i != 36 && i != 37 && i != 38 ==> d1[i] == d2[i]
    ensures SensorPacketDecoder(d1) == SensorPacketDecoder(d2)
  {
  }
}
