# Create 2 sensor-packet decoder

A model of the sensor decoder of the Create 2 library. The iRobot Create 2
answers a request for sensor group 100 with one 80-byte reply. That reply
holds the Open Interface packets 7 to 58 back to back. The library turns
the reply into a `Sensors` record with two functions:

- `decode(format, data)` looks a format name up in a table of `struct`
  unpackers ('?', 'b', 'B', '>h', '>H') and returns the first value unpacked.
- `SensorPacketDecoder(data)` rejects a reply that is not 80 bytes long. It
  cuts the reply into fixed slices and decodes each one with `decode`. The
  six bitfield packets are split into named flags with `bool(d & MASK)`, using
  the masks of `createlib/create_oi.py`.

The model is pure, as the source is:

- `Bits` holds bytes, Python's integer `&` (`BitAnd`) and a reference
  definition of binary digits (`Bit`) that `&` is proved against.
- `CreateOi` holds the bit masks.
- `Formats` holds `decode`.
- `Packets` holds the flag records, the `Sensors` record and
  `SensorPacketDecoder`.
- `Layout` restates the group-100 reply as an independent table of packet
  widths and decode rules. It proves that the decoder's hand-written slice
  positions are exactly the running sums of that table. So every field is
  decoded from its own packet's bytes, and the unused bytes 9, 36, 37 and 38
  never matter.

Error paths are results, not exceptions:

- An unknown format name (KeyError) is `UnknownFormat`.
- A slice of the wrong length (struct.error) is `WrongLength`.
- A reply that is not 80 bytes long is `NotEightyBytes(length)`.

`Encode` is the byte image of a value, the inverse of `struct.unpack` (it
plays the role of `struct.pack`). It is used only in proofs: every format is
onto its range, and the four integer formats are also injective. '?' is not
injective, since every non-zero byte reads as true.

## Model

| member | source | states |
|---|---|---|
| Formats.FormatNamed | createlib/packets.py:19-25 | the format table: a name finds a format exactly when it is that format's key, otherwise nothing (the KeyError case) |
| Formats.Unpack | createlib/packets.py:20-25 | unpacking succeeds exactly when the slice has the format's size (1 byte, or 2 for the shorts); otherwise it fails with the expected and actual lengths; a success lies in the format's range |
| Formats.Decode | createlib/packets.py:17-25 | an unknown name fails with UnknownFormat; for a known name, decoding succeeds iff the length matches that format's size, and the value is in that format's range |
| Formats.DecodeByName | createlib/packets.py:17-25 | decoding by a format's key is unpacking with that format |
| Formats.SignedByteValue | createlib/packets.py:21 | 'b' gives a value in -128..127, negative exactly when the byte is 128 or more |
| Formats.SignedByteTwosComplement | createlib/packets.py:21 | the signed byte value is congruent to the byte modulo 256 (two's complement) |
| Formats.UnsignedShortValue | createlib/packets.py:24 | '>H' gives a value in 0..65535 |
| Formats.UnsignedShortBigEndian | createlib/packets.py:24 | the first byte is the high base-256 digit of the '>H' value and the second byte the low digit (big-endian) |
| Formats.SignedShortValue | createlib/packets.py:23 | '>h' gives a value in -32768..32767, negative exactly when the high byte is 128 or more |
| Formats.SignedShortTwosComplement | createlib/packets.py:23-24 | the '>h' value is congruent to the '>H' value of the same bytes modulo 65536 |
| Formats.UnpackEncode | createlib/packets.py:20-24 | every in-range value of every format is unpacked from its byte image, so each format is onto its range |
| Formats.EncodeUnpack | createlib/packets.py:21-24 | every successfully unpacked integer value re-encodes to exactly the bytes it came from |
| Formats.UnpackInjective | createlib/packets.py:21-24 | the integer formats are injective: equal decoded values come from equal byte strings |
| Formats.DecodeTotal | createlib/packets.py:17-25 | decoding a known format never fails on a buffer of that format's size, whatever its bytes |
| Formats.BoolByteIsNonzero | createlib/packets.py:20 | 'bool_byte' reads a byte as true exactly when it is non-zero |
| Formats.ShortExamples | createlib/packets.py:21-24 | 0xFF 0x38 is -200; the bounds of '>h' are 0x80 0x00 and 0x7F 0xFF; 0xFF 0xFF is -1 signed and 65535 unsigned; 'b' reads 0x80 as -128 |
| Bits.BitAnd | createlib/packets.py:114 | Python's `&` on non-negative integers, computed digit by digit; the result is at most either operand (its digits are given by BitAndBits) |
| Bits.BitAndBits | createlib/packets.py:114 | Python's `&` keeps exactly the binary digits set in both operands |
| Bits.MaskSelectsBit | createlib/packets.py:114 | `bool(d & 2^k)` holds exactly when digit k of d is set |
| Bits.SameLowBits | createlib/packets.py:111-166 | two numbers agree on their n lowest digits iff they are equal modulo 2^n (used for the bitfields) |
| Packets.BumpsAndWheelDropOf | createlib/packets.py:111-118 | each flag `bool(d & MASK)` is one binary digit of the byte, with the masks of createlib/create_oi.py:186-191: bump right is bit 0, bump left bit 1, wheel drop right bit 2, wheel drop left bit 3 |
| Packets.WheelOvercurrentsOf | createlib/packets.py:120-127 | each flag `bool(d & MASK)` is one binary digit of the byte, with the masks of createlib/create_oi.py:179-184: side brush is bit 0, main brush bit 1, right wheel bit 2, left wheel bit 3 |
| Packets.ButtonsOf | createlib/packets.py:129-140 | each flag `bool(d & MASK)` is one binary digit of the byte, with the masks of createlib/create_oi.py:168-177: clean, spot, dock, minute, hour, day, schedule and clock are bits 0 to 7 |
| Packets.ChargingSourcesOf | createlib/packets.py:142-147 | each flag `bool(d & MASK)` is one binary digit of the byte, with the masks of createlib/create_oi.py:154-157: internal charger is bit 0, home base bit 1 |
| Packets.LightBumperOf | createlib/packets.py:149-158 | each flag `bool(d & MASK)` is one binary digit of the byte, with the masks of createlib/create_oi.py:193-200: left, front left, center left, center right, front right and right are bits 0 to 5 |
| Packets.StasisOf | createlib/packets.py:160-166 | each flag `bool(d & MASK)` is one binary digit of the byte, with the masks of createlib/create_oi.py:202-205: toggling is bit 0, disabled bit 1 |
| Packets.BumpsAndWheelDropIsLowNibble | createlib/packets.py:111-118 | two bytes give the same bumps record iff they agree modulo 16; the upper four bits have no effect |
| Packets.WheelOvercurrentsIsLowNibble | createlib/packets.py:120-127 | two bytes give the same overcurrent record iff they agree modulo 16 |
| Packets.ButtonsIsWholeByte | createlib/packets.py:129-140 | two bytes give the same buttons record iff they are equal: all eight bits are buttons |
| Packets.ChargingSourcesIsLowTwoBits | createlib/packets.py:142-147 | two bytes give the same charging-source record iff they agree modulo 4 |
| Packets.LightBumperIsLowSixBits | createlib/packets.py:149-158 | two bytes give the same light-bumper record iff they agree modulo 64 |
| Packets.StasisIsLowTwoBits | createlib/packets.py:160-166 | two bytes give the same stasis record iff they agree modulo 4 |
| Packets.BumpsAndWheelDropExample | createlib/packets.py:111-118 | byte 0x05 reports the right bumper and the right wheel drop, and nothing else |
| Packets.IntAtIsDecode | createlib/packets.py:177-219 | `IntAt`, the decoder's reading of an integer field at an offset, is unpacking the slice of the format's size there |
| Packets.BoolAtIsDecode | createlib/packets.py:170-175 | `BoolAt`, the decoder's reading of a bool field at an offset, is unpacking the one-byte slice there with '?' |
| Packets.SensorPacketDecoder | createlib/packets.py:101-102 | the decoder fails exactly when the reply is not 80 bytes long, and then reports the actual length |
| Layout.StartIsOffset | createlib/packets.py:168-221 | the written-out packet positions equal the running sums of the packet widths, starting at byte 0 for packet 7 |
| Layout.PacketsFillReply | createlib/packets.py:101-107 | every packet 7..58 lies inside the 80-byte reply, each starts where the previous one ends, and only packet 58 ends at byte 80 |
| Layout.UnusedPackets | createlib/packets.py:104-107 | the skipped packets are exactly 16, 32 and 33, on bytes 9, 36 and 37-38 |
| Layout.DecoderFollowsPacketTable | createlib/packets.py:109-221 | for an 80-byte reply, every used packet's field is the table's decode rule applied to that packet's bytes at the table's offset |
| Layout.FieldDependsOnlyOnItsPacket | createlib/packets.py:168-221 | two 80-byte replies that agree on one packet's bytes give that packet the same field |
| Layout.UnusedBytesIgnored | createlib/packets.py:104-107 | two 80-byte replies that differ only in bytes 9, 36, 37 and 38 decode to the same record |

## Left out

- `createlib/create_serial.py`, `createlib/repeat_timer.py` and `Create2_proj.py` are not part of this model. They cover the serial port, timers and the user interface, which are I/O.
- `createlib/__init__.py` only re-exports names, so there is nothing to model.
- Python's dynamic typing is not modelled. `data` is always a sequence of bytes, so passing a non-bytes object (a TypeError in the source) cannot be expressed.
- The text of the Python exception messages is not kept. The errors carry the lengths and the format name instead.
- The charging state (`charger_state`, createlib/packets.py:183) and the Open Interface mode (`open_interface_mode`, createlib/packets.py:197) stay plain unsigned bytes, as in the source. Nothing checks them against `CHARGING_STATE` (createlib/create_oi.py:159-166) or `MODES` (createlib/create_oi.py:55-59). Any reply length other than 80 raises a plain `Exception` (createlib/packets.py:101-102), which is `NotEightyBytes` here.
- `Layout.PacketRule` takes the packet widths from the Open Interface packet table, as `SENSOR_PACKETS` in `createlib/create_oi.py:207-257` numbers the packets. The source itself has no width table.
- The other constant tables of `createlib/create_oi.py` (opcodes, baud rates, modes, charging states) are not used by the decoder, so they are not modelled.
- Packets.IntAtIsDecode: stated with `Unpack` on the slice rather than the string lookup in `decode`. Formats.DecodeByName supplies the lookup step.
