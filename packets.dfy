/** `SensorPacketDecoder`: the reply to sensor group packet 100 of the
    Create 2 Open Interface (packets 7 to 58, 80 bytes) turned into one record.

    Six packets are bitfields, split into named flags with the masks of
    CreateOi; the others go through `decode` with a fixed format on a fixed
    slice.  Packets 16, 32 and 33 (bytes 9 and 36..38) are not read. */
module Packets {
  import opened Wrappers
  import opened Bits
  import opened Formats
  import CreateOi

  datatype BumpsAndWheelDrop = BumpsAndWheelDrop(
    wheeldropLeft: bool, wheeldropRight: bool, bumpLeft: bool, bumpRight: bool)

  datatype WheelOvercurrents = WheelOvercurrents(
    leftWheelOvercurrent: bool, rightWheelOvercurrent: bool,
    mainBrushOvercurrent: bool, sideBrushOvercurrent: bool)

  datatype Buttons = Buttons(
    clock: bool, schedule: bool, day: bool, hour: bool,
    minute: bool, dock: bool, spot: bool, clean: bool)

  datatype ChargingSources = ChargingSources(homeBase: bool, internalCharger: bool)

  datatype LightBumper = LightBumper(
    right: bool, frontRight: bool, centerRight: bool,
    centerLeft: bool, frontLeft: bool, left: bool)

  datatype Stasis = Stasis(disabled: bool, toggling: bool)

  /** Every sensor of the Create 2, in the order of the packets. */
  datatype Sensors = Sensors(
    bumpsWheeldrops: BumpsAndWheelDrop,   // 7
    wall: bool,                           // 8
    cliffLeft: bool,                      // 9
    cliffFrontLeft: bool,                 // 10
    cliffFrontRight: bool,                // 11
    cliffRight: bool,                     // 12
    virtualWall: bool,                    // 13
    overcurrents: WheelOvercurrents,      // 14
    dirtDetect: int,                      // 15
    irOpcode: int,                        // 17
    buttons: Buttons,                     // 18
    distance: int,                        // 19
    angle: int,                           // 20
    chargerState: int,                    // 21
    voltage: int,                         // 22
    current: int,                         // 23
    temperature: int,                     // 24
    batteryCharge: int,                   // 25
    batteryCapacity: int,                 // 26
    wallSignal: int,                      // 27
    cliffLeftSignal: int,                 // 28
    cliffFrontLeftSignal: int,            // 29
    cliffFrontRightSignal: int,           // 30
    cliffRightSignal: int,                // 31
    chargerAvailable: ChargingSources,    // 34
    openInterfaceMode: int,               // 35
    songNumber: int,                      // 36
    songPlaying: bool,                    // 37
    oiStreamNumPackets: int,              // 38
    velocity: int,                        // 39
    radius: int,                          // 40
    velocityRight: int,                   // 41
    velocityLeft: int,                    // 42
    encoderCountsLeft: int,               // 43
    encoderCountsRight: int,              // 44
    lightBumper: LightBumper,             // 45
    lightBumperLeft: int,                 // 46
    lightBumperFrontLeft: int,            // 47
    lightBumperCenterLeft: int,           // 48
    lightBumperCenterRight: int,          // 49
    lightBumperFrontRight: int,           // 50
    lightBumperRight: int,                // 51
    irOpcodeLeft: int,                    // 52
    irOpcodeRight: int,                   // 53
    leftMotorCurrent: int,                // 54
    rightMotorCurrent: int,               // 55
    mainBrushCurrent: int,                // 56
    sideBrushCurrent: int,                // 57
    stasis: Stasis                        // 58 ('statis' in the source)
  )

  /** The exception raised when the reply is not 80 bytes long. */
  datatype DecoderError = NotEightyBytes(length: nat)

  const SENSOR_GROUP_100_LENGTH := 80

  /** `BumpsAndWheelDrop` from its byte: each flag is one binary digit. */
  function BumpsAndWheelDropOf(d: Byte): (r: BumpsAndWheelDrop)
    ensures r.bumpRight == Bit(d, 0) && r.bumpLeft == Bit(d, 1)
    ensures r.wheeldropRight == Bit(d, 2) && r.wheeldropLeft == Bit(d, 3)
  {
    MaskSelectsBit(d, 0); MaskSelectsBit(d, 1); MaskSelectsBit(d, 2); MaskSelectsBit(d, 3);
    BumpsAndWheelDrop(
      BitAnd(d, CreateOi.WHEEL_DROP_LEFT) != 0,
      BitAnd(d, CreateOi.WHEEL_DROP_RIGHT) != 0,
      BitAnd(d, CreateOi.BUMP_LEFT) != 0,
      BitAnd(d, CreateOi.BUMP_RIGHT) != 0)
  }

  /** `WheelOvercurrents` from its byte: each flag is one binary digit. */
  function WheelOvercurrentsOf(d: Byte): (r: WheelOvercurrents)
    ensures r.sideBrushOvercurrent == Bit(d, 0) && r.mainBrushOvercurrent == Bit(d, 1)
    ensures r.rightWheelOvercurrent == Bit(d, 2) && r.leftWheelOvercurrent == Bit(d, 3)
  {
    MaskSelectsBit(d, 0); MaskSelectsBit(d, 1); MaskSelectsBit(d, 2); MaskSelectsBit(d, 3);
    WheelOvercurrents(
      BitAnd(d, CreateOi.OVERCURRENT_LEFT_WHEEL) != 0,
      BitAnd(d, CreateOi.OVERCURRENT_RIGHT_WHEEL) != 0,
      BitAnd(d, CreateOi.OVERCURRENT_MAIN_BRUSH) != 0,
      BitAnd(d, CreateOi.OVERCURRENT_SIDE_BRUSH) != 0)
  }

  /** `Buttons` from its byte: each flag is one binary digit. */
  function ButtonsOf(d: Byte): (r: Buttons)
    ensures r.clean == Bit(d, 0) && r.spot == Bit(d, 1) && r.dock == Bit(d, 2)
    ensures r.minute == Bit(d, 3) && r.hour == Bit(d, 4) && r.day == Bit(d, 5)
    ensures r.schedule == Bit(d, 6) && r.clock == Bit(d, 7)
  {
    MaskSelectsBit(d, 0); MaskSelectsBit(d, 1); MaskSelectsBit(d, 2); MaskSelectsBit(d, 3);
    MaskSelectsBit(d, 4); MaskSelectsBit(d, 5); MaskSelectsBit(d, 6); MaskSelectsBit(d, 7);
    Buttons(
      BitAnd(d, CreateOi.BUTTON_CLOCK) != 0,
      BitAnd(d, CreateOi.BUTTON_SCHEDULE) != 0,
      BitAnd(d, CreateOi.BUTTON_DAY) != 0,
      BitAnd(d, CreateOi.BUTTON_HOUR) != 0,
      BitAnd(d, CreateOi.BUTTON_MINUTE) != 0,
      BitAnd(d, CreateOi.BUTTON_DOCK) != 0,
      BitAnd(d, CreateOi.BUTTON_SPOT) != 0,
      BitAnd(d, CreateOi.BUTTON_CLEAN) != 0)
  }

  /** `ChargingSources` from its byte: each flag is one binary digit. */
  function ChargingSourcesOf(d: Byte): (r: ChargingSources)
    ensures r.internalCharger == Bit(d, 0) && r.homeBase == Bit(d, 1)
  {
    MaskSelectsBit(d, 0); MaskSelectsBit(d, 1);
    ChargingSources(
      BitAnd(d, CreateOi.CHARGE_SOURCE_HOME_BASE) != 0,
      BitAnd(d, CreateOi.CHARGE_SOURCE_INTERNAL) != 0)
  }

  /** `LightBumper` from its byte: each flag is one binary digit. */
  function LightBumperOf(d: Byte): (r: LightBumper)
    ensures r.left == Bit(d, 0) && r.frontLeft == Bit(d, 1) && r.centerLeft == Bit(d, 2)
    ensures r.centerRight == Bit(d, 3) && r.frontRight == Bit(d, 4) && r.right == Bit(d, 5)
  {
    MaskSelectsBit(d, 0); MaskSelectsBit(d, 1); MaskSelectsBit(d, 2);
    MaskSelectsBit(d, 3); MaskSelectsBit(d, 4); MaskSelectsBit(d, 5);
    LightBumper(
      BitAnd(d, CreateOi.LIGHT_BUMPER_RIGHT) != 0,
      BitAnd(d, CreateOi.LIGHT_BUMPER_FRONT_RIGHT) != 0,
      BitAnd(d, CreateOi.LIGHT_BUMPER_CENTER_RIGHT) != 0,
      BitAnd(d, CreateOi.LIGHT_BUMPER_CENTER_LEFT) != 0,
      BitAnd(d, CreateOi.LIGHT_BUMPER_FRONT_LEFT) != 0,
      BitAnd(d, CreateOi.LIGHT_BUMPER_LEFT) != 0)
  }

  /** `Stasis` from its byte: each flag is one binary digit. */
  function StasisOf(d: Byte): (r: Stasis)
    ensures r.toggling == Bit(d, 0) && r.disabled == Bit(d, 1)
  {
    MaskSelectsBit(d, 0); MaskSelectsBit(d, 1);
    Stasis(
      BitAnd(d, CreateOi.STASIS_DISABLED) != 0,
      BitAnd(d, CreateOi.STASIS_TOGGLING) != 0)
  }

  /** `decode(f, data[lo:lo+size])` for an integer format, read straight
      from the bytes; IntAtIsDecode shows it is the slice's decoding. */
  function IntAt(f: Format, data: seq<Byte>, lo: nat): int
    requires f != BoolByte && lo + Size(f) <= |data|
  {
    match f
    case SignedByte => SignedByteValue(data[lo])
    case UnsignedByte => data[lo]
    case SignedShort => SignedShortValue(data[lo], data[lo + 1])
    case UnsignedShort => UnsignedShortValue(data[lo], data[lo + 1])
  }

  /** `decode('bool_byte', data[lo:lo+1])`, read straight from the byte. */
  function BoolAt(data: seq<Byte>, lo: nat): bool
    requires lo < |data|
  {
    data[lo] != 0
  }

  /** IntAt is `decode` of the field's slice (see DecodeByName for the
      dictionary lookup). */
  lemma IntAtIsDecode(f: Format, data: seq<Byte>, lo: nat)
    requires f != BoolByte && lo + Size(f) <= |data|
    ensures Unpack(f, data[lo..lo + Size(f)]) == Success(Int(IntAt(f, data, lo)))
  {
  }

  lemma BoolAtIsDecode(data: seq<Byte>, lo: nat)
    requires lo < |data|
    ensures Unpack(BoolByte, data[lo..lo + 1]) == Success(Bool(BoolAt(data, lo)))
  {
  }

  function SensorPacketDecoder(data: seq<Byte>): (r: Result<Sensors, DecoderError>)
    ensures r.Failure? <==> |data| != SENSOR_GROUP_100_LENGTH
    ensures r.Failure? ==> r.error == NotEightyBytes(|data|)
  {
    if |data| != SENSOR_GROUP_100_LENGTH then Failure(NotEightyBytes(|data|))
    else
      Success(Sensors(
        BumpsAndWheelDropOf(IntAt(UnsignedByte, data, 0)),
        BoolAt(data, 1),
        BoolAt(data, 2),
        BoolAt(data, 3),
        BoolAt(data, 4),
        BoolAt(data, 5),
        BoolAt(data, 6),
        WheelOvercurrentsOf(IntAt(UnsignedByte, data, 7)),
        IntAt(SignedByte, data, 8),
        // packet 16, byte 9, is not read
        IntAt(UnsignedByte, data, 10),
        ButtonsOf(IntAt(UnsignedByte, data, 11)),
        IntAt(SignedShort, data, 12),
        IntAt(SignedShort, data, 14),
        IntAt(UnsignedByte, data, 16),
        IntAt(UnsignedShort, data, 17),
        IntAt(SignedShort, data, 19),
        IntAt(SignedByte, data, 21),
        IntAt(UnsignedShort, data, 22),
        IntAt(UnsignedShort, data, 24),
        IntAt(UnsignedShort, data, 26),
        IntAt(UnsignedShort, data, 28),
        IntAt(UnsignedShort, data, 30),
        IntAt(UnsignedShort, data, 32),
        IntAt(UnsignedShort, data, 34),
        // packets 32 and 33, bytes 36..38, are not read
        ChargingSourcesOf(IntAt(UnsignedByte, data, 39)),
        IntAt(UnsignedByte, data, 40),
        IntAt(UnsignedByte, data, 41),
        BoolAt(data, 42),
        IntAt(UnsignedByte, data, 43),
        IntAt(SignedShort, data, 44),
        IntAt(SignedShort, data, 46),
        IntAt(SignedShort, data, 48),
        IntAt(SignedShort, data, 50),
        IntAt(UnsignedShort, data, 52),
        IntAt(UnsignedShort, data, 54),
        LightBumperOf(IntAt(UnsignedByte, data, 56)),
        IntAt(UnsignedShort, data, 57),
        IntAt(UnsignedShort, data, 59),
        IntAt(UnsignedShort, data, 61),
        IntAt(UnsignedShort, data, 63),
        IntAt(UnsignedShort, data, 65),
        IntAt(UnsignedShort, data, 67),
        IntAt(UnsignedByte, data, 69),
        IntAt(UnsignedByte, data, 70),
        IntAt(SignedShort, data, 71),
        IntAt(SignedShort, data, 73),
        IntAt(SignedShort, data, 75),
        IntAt(SignedShort, data, 77),
        StasisOf(IntAt(UnsignedByte, data, 79))
      ))
  }

  /** The bumps and wheel-drop record is exactly the low four bits of its
      byte: two bytes give the same record if and only if they agree there. */
  lemma BumpsAndWheelDropIsLowNibble(d1: Byte, d2: Byte)
    ensures BumpsAndWheelDropOf(d1) == BumpsAndWheelDropOf(d2) <==> d1 % 16 == d2 % 16
  {
    SameLowBits(d1, d2, 4);
    AgreeBelowSucc(d1, d2, 0); AgreeBelowSucc(d1, d2, 1);
    AgreeBelowSucc(d1, d2, 2); AgreeBelowSucc(d1, d2, 3);
  }

  /** The same holds of every bitfield with its own width: each record is
      exactly the low bits its masks cover, and the higher bits have no effect. */
  lemma WheelOvercurrentsIsLowNibble(d1: Byte, d2: Byte)
    ensures WheelOvercurrentsOf(d1) == WheelOvercurrentsOf(d2) <==> d1 % 16 == d2 % 16
  {
    SameLowBits(d1, d2, 4);
    AgreeBelowSucc(d1, d2, 0); AgreeBelowSucc(d1, d2, 1);
    AgreeBelowSucc(d1, d2, 2); AgreeBelowSucc(d1, d2, 3);
  }

  /** All eight bits are buttons, so the record determines its byte. */
  lemma ButtonsIsWholeByte(d1: Byte, d2: Byte)
    ensures ButtonsOf(d1) == ButtonsOf(d2) <==> d1 == d2
  {
    if ButtonsOf(d1) == ButtonsOf(d2) {
          AgreeOnByte(d1, d2);
    }
  }

  lemma ChargingSourcesIsLowTwoBits(d1: Byte, d2: Byte)
    ensures ChargingSourcesOf(d1) == ChargingSourcesOf(d2) <==> d1 % 4 == d2 % 4
  {
    SameLowBits(d1, d2, 2);
    AgreeBelowSucc(d1, d2, 0); AgreeBelowSucc(d1, d2, 1);
  }

  lemma LightBumperIsLowSixBits(d1: Byte, d2: Byte)
    ensures LightBumperOf(d1) == LightBumperOf(d2) <==> d1 % 64 == d2 % 64
  {
    SameLowBits(d1, d2, 6);
    AgreeBelowSucc(d1, d2, 0); AgreeBelowSucc(d1, d2, 1);
    AgreeBelowSucc(d1, d2, 2); AgreeBelowSucc(d1, d2, 3);
    AgreeBelowSucc(d1, d2, 4); AgreeBelowSucc(d1, d2, 5);
  }

  lemma StasisIsLowTwoBits(d1: Byte, d2: Byte)
    ensures StasisOf(d1) == StasisOf(d2) <==> d1 % 4 == d2 % 4
  {
    SameLowBits(d1, d2, 2);
    AgreeBelowSucc(d1, d2, 0); AgreeBelowSucc(d1, d2, 1);
  }

  /** Byte 0x05 reports the right bumper and the right wheel drop only. */
  lemma BumpsAndWheelDropExample()
    ensures BumpsAndWheelDropOf(0x05) == BumpsAndWheelDrop(false, true, false, true)
  {
  }
}
