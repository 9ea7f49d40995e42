/** `decode(format, data)`: the five byte formats of the sensor reply.

    The source looks the format name up in a dictionary of `struct` unpackers
    ('?', 'b', 'B', '>h', '>H') and returns the first unpacked value.  An
    unknown name raises KeyError; a buffer whose length differs from the
    format's size raises struct.error.  Both are error results here. */
module Formats {
  import opened Wrappers
  import opened Bits

  datatype Format = BoolByte | SignedByte | UnsignedByte | SignedShort | UnsignedShort

  /** What `decode` returns: a Python bool for '?', an int otherwise. */
  datatype Value = Bool(b: bool) | Int(i: int)

  datatype DecodeError =
    | UnknownFormat(name: string)            // KeyError from the dictionary lookup
    | WrongLength(expected: nat, actual: nat) // struct.error from unpack

  /** The dictionary key of each format. */
  function Name(f: Format): string
  {
    match f
    case BoolByte => "bool_byte"
    case SignedByte => "signed_byte"
    case UnsignedByte => "unsigned_byte"
    case SignedShort => "signed_short"
    case UnsignedShort => "unsigned_short"
  }

  /** The dictionary lookup: a name finds exactly the format it is the key of. */
  function FormatNamed(name: string): (r: Option<Format>)
    ensures forall f :: Name(f) == name <==> r == Some(f)
  {
    if name == "bool_byte" then Some(BoolByte)
    else if name == "signed_byte" then Some(SignedByte)
    else if name == "unsigned_byte" then Some(UnsignedByte)
    else if name == "signed_short" then Some(SignedShort)
    else if name == "unsigned_short" then Some(UnsignedShort)
    else None
  }

  /** Number of bytes the format's `struct` consumes. */
  function Size(f: Format): nat
  {
    match f
    case SignedShort | UnsignedShort => 2
    case _ => 1
  }

  /** The values a format can produce: the range of its integer width. */
  predicate InRange(f: Format, v: Value)
  {
    match f
    case BoolByte => v.Bool?
    case SignedByte => v.Int? && -128 <= v.i <= 127
    case UnsignedByte => v.Int? && 0 <= v.i <= 255
    case SignedShort => v.Int? && -32768 <= v.i <= 32767
    case UnsignedShort => v.Int? && 0 <= v.i <= 65535
  }

  /** 'b': one byte read as two's complement. */
  function SignedByteValue(b: Byte): (r: int)
    ensures -128 <= r <= 127
    ensures r < 0 <==> b >= 128
  {
    if b < 128 then b else b - 256
  }

  /** The signed reading is the byte's own value modulo 256. */
  lemma SignedByteTwosComplement(b: Byte)
    ensures SignedByteValue(b) % 256 == b
  {
  }

  /** '>H': two bytes, most significant first. */
  function UnsignedShortValue(hi: Byte, lo: Byte): (r: int)
    ensures 0 <= r <= 65535
  {
    hi * 256 + lo
  }

  /** Big-endian: the first byte is the high digit in base 256, the second
      the low one. */
  lemma UnsignedShortBigEndian(hi: Byte, lo: Byte)
    ensures UnsignedShortValue(hi, lo) / 256 == hi && UnsignedShortValue(hi, lo) % 256 == lo
  {
  }

  /** '>h': two bytes, most significant first, read as two's complement. */
  function SignedShortValue(hi: Byte, lo: Byte): (r: int)
    ensures -32768 <= r <= 32767
    ensures r < 0 <==> hi >= 128
  {
    var u := UnsignedShortValue(hi, lo);
    if u >= 32768 then u - 65536 else u
  }

  /** Two's complement: the signed reading agrees with the unsigned one
      modulo 2^16. */
  lemma SignedShortTwosComplement(hi: Byte, lo: Byte)
    ensures SignedShortValue(hi, lo) % 65536 == UnsignedShortValue(hi, lo)
  {
  }

  /** `Struct(fmt).unpack(data)[0]` for one of the five formats. */
  function Unpack(f: Format, data: seq<Byte>): (r: Result<Value, DecodeError>)
    ensures r.Success? <==> |data| == Size(f)
    ensures r.Failure? ==> r.error == WrongLength(Size(f), |data|)
    ensures r.Success? ==> InRange(f, r.value)
  {
    if |data| != Size(f) then Failure(WrongLength(Size(f), |data|))
    else
      match f
      case BoolByte => Success(Bool(data[0] != 0))
      case SignedByte => Success(Int(SignedByteValue(data[0])))
      case UnsignedByte => Success(Int(data[0]))
      case SignedShort => Success(Int(SignedShortValue(data[0], data[1])))
      case UnsignedShort => Success(Int(UnsignedShortValue(data[0], data[1])))
  }

  /** `decode(format, data)`: dictionary lookup, then unpack. */
  function Decode(format: string, data: seq<Byte>): (r: Result<Value, DecodeError>)
    ensures FormatNamed(format).None? ==> r == Failure(UnknownFormat(format))
    ensures forall f :: Name(f) == format ==>
      (r.Success? <==> |data| == Size(f)) && (r.Success? ==> InRange(f, r.value))
  {
    match FormatNamed(format)
    case None => Failure(UnknownFormat(format))
    case Some(f) => Unpack(f, data)
  }

  /** Looking a format up by its key and unpacking with it is unpacking with
      that format. */
  lemma DecodeByName(f: Format, data: seq<Byte>)
    ensures Decode(Name(f), data) == Unpack(f, data)
  {
  }

  /** `struct.pack` for the same formats: the byte image of an in-range value. */
  function Encode(f: Format, v: Value): (r: seq<Byte>)
    requires InRange(f, v)
    ensures |r| == Size(f)
  {
    match f
    case BoolByte => [if v.b then 1 else 0]
    case SignedByte => [v.i % 256]
    case UnsignedByte => [v.i]
    case SignedShort => [(v.i % 65536) / 256, (v.i % 65536) % 256]
    case UnsignedShort => [v.i / 256, v.i % 256]
  }

  /** Every in-range value is decoded from its byte image: each format is onto
      its range. */
  lemma UnpackEncode(f: Format, v: Value)
    requires InRange(f, v)
    ensures Unpack(f, Encode(f, v)) == Success(v)
  {
    match f
    case SignedShort =>
      var u := v.i % 65536;
      assert u == (u / 256) * 256 + u % 256;
      assert u == if v.i < 0 then v.i + 65536 else v.i;
    case UnsignedShort =>
      assert v.i == (v.i / 256) * 256 + v.i % 256;
    case SignedByte =>
      assert v.i % 256 == if v.i < 0 then v.i + 256 else v.i;
    case _ =>
  }

  /** Each integer format's decoded value re-encodes to the bytes it came from. */
  lemma EncodeUnpack(f: Format, data: seq<Byte>)
    requires f != BoolByte && Unpack(f, data).Success?
    ensures Encode(f, Unpack(f, data).value) == data
  {
    match f
    case SignedShort =>
      SignedShortTwosComplement(data[0], data[1]);
      UnsignedShortBigEndian(data[0], data[1]);
    case UnsignedShort =>
      UnsignedShortBigEndian(data[0], data[1]);
    case SignedByte =>
      SignedByteTwosComplement(data[0]);
    case UnsignedByte =>
  }

  /** The integer formats are injective: equal decoded values come from equal
      bytes.  With UnpackEncode, each is a bijection between the byte strings
      of its size and its range. */
  lemma UnpackInjective(f: Format, s1: seq<Byte>, s2: seq<Byte>)
    requires f != BoolByte
    requires Unpack(f, s1).Success? && Unpack(f, s1) == Unpack(f, s2)
    ensures s1 == s2
  {
    EncodeUnpack(f, s1);
    EncodeUnpack(f, s2);
  }

  /** Decoding never fails on a buffer of the right size, whatever its bytes. */
  lemma DecodeTotal(f: Format, data: seq<Byte>)
    requires |data| == Size(f)
    ensures Decode(Name(f), data).Success?
  {
  }

  /** The '?' format reads any non-zero byte as true. */
  lemma BoolByteIsNonzero(b: Byte)
    ensures Decode("bool_byte", [b]) == Success(Bool(b != 0))
  {
  }

  /** The round trips at the boundaries of the two 16-bit formats, and the
      reading of 0xFF 0x38 as -200. */
  lemma ShortExamples()
    ensures Decode("signed_short", [0xFF, 0x38]) == Success(Int(-200))
    ensures Decode("signed_short", [0x80, 0x00]) == Success(Int(-32768))
    ensures Decode("signed_short", [0x7F, 0xFF]) == Success(Int(32767))
    ensures Decode("signed_short", [0xFF, 0xFF]) == Success(Int(-1))
    ensures Decode("unsigned_short", [0xFF, 0xFF]) == Success(Int(65535))
    ensures Decode("signed_byte", [0x80]) == Success(Int(-128))
  {
  }
}
