/**
 * A CAN message (identifier, frame, length and an eight-byte data packet) and
 * its text form: "0x" fields separated by ':', the identifier padded to three
 * hexadecimal digits and every data byte to two.
 */
module CanMessages {
  import opened Wrappers
  import opened CppInt
  import opened CanPacket
  import opened GeneralTemplates
  import opened GeneralUtilities

  const CAN_BYTE_WIDTH: nat := 2
  const CAN_ID_WIDTH: nat := 3
  const CAN_MESSAGE_SIZE: nat := 9
  const CAN_FRAME: byte := 0
  const CAN_MESSAGE_LENGTH: byte := 8

  /** nthDataPacketByte refuses an index itself, or the packet's `at` throws. */
  datatype CanError = IndexOutOfRange(index: int) | Packet(error: PacketError)

  /** The value a CanMessage holds. */
  datatype CanFrame = CanFrame(id: uint32, frame: byte, length: byte, data: seq<byte>)

  /** The message of the default constructor: all zero, with eight zero data bytes. */
  function DefaultFrame(): (m: CanFrame)
    ensures m.id == 0 && m.frame == 0 && m.length == 0 && m.data == ZeroPacket()
  {
    CanFrame(0, 0, 0, ZeroPacket())
  }

  // ---------------------------------------------------------------- text form

  /** One "0x" field: the hexadecimal digits of `n`, zero-padded to `width`. */
  function HexField(n: int, width: nat): (r: string)
    ensures |r| > 2 && r[..2] == "0x"
    ensures ':' !in r
  {
    PaddedHexDigits(n, width);
    "0x" + ZeroPadded(HexString(n), width)
  }

  lemma PaddedHexDigits(n: int, width: nat)
    ensures forall i :: 0 <= i < |ZeroPadded(HexString(n), width)| ==> IsHexDigit(ZeroPadded(HexString(n), width)[i])
    ensures ':' !in "0x" + ZeroPadded(HexString(n), width)
  {
    var digits := HexString(n);
    var padded := ZeroPadded(digits, width);
    var z := |padded| - |digits|;
    forall i | 0 <= i < |padded|
      ensures IsHexDigit(padded[i])
    {
      if i >= z {
        assert padded[i] == padded[z..][i - z];
      }
    }
    NoColonInHexDigits(padded);
  }

  lemma NoColonInHexDigits(s: string)
    requires forall i :: 0 <= i < |s| ==> IsHexDigit(s[i])
    ensures ':' !in s
  {
    forall i | 0 <= i < |s|
      ensures s[i] != ':'
    {
      assert IsHexDigit(s[i]);
    }
  }

  /** The identifier field: toHexString of a `uint32_t` goes through a cast to `int`. */
  function IdField(id: uint32): string
  {
    HexField(UInt32ToInt(id), CAN_ID_WIDTH)
  }

  function ByteField(b: byte): string
  {
    HexField(b as int, CAN_BYTE_WIDTH)
  }

  function ByteFields(data: seq<byte>): (r: seq<string>)
    ensures |r| == |data| && forall i :: 0 <= i < |data| ==> r[i] == ByteField(data[i])
  {
    seq(|data|, i requires 0 <= i < |data| => ByteField(data[i]))
  }

  /** The all-zero test of toString, with the packet compared byte by byte. */
  predicate IsBlank(m: CanFrame)
  {
    m.id == 0 && m.frame == 0 && m.length == 0 && m.data == ZeroPacket()
  }

  /** The same test with the packet equality the firmware header implements: sizes only. */
  predicate IsBlankAsWritten(m: CanFrame)
  {
    m.id == 0 && m.frame == 0 && m.length == 0 && |m.data| == PACKET_LENGTH
  }

  /** The fields of toString after the blank test. */
  function FieldsText(m: CanFrame): (r: string)
    ensures |r| > 2 && r[..2] == "0x"
  {
    IdField(m.id) + ":" + Join(ByteFields(m.data), ':')
  }

  /** What toString returns: nothing for the blank message, otherwise its fields. */
  function MessageText(m: CanFrame): (r: string)
    ensures r == "" <==> IsBlank(m)
    ensures r != "" ==> |r| > 2 && r[..2] == "0x"
  {
    if IsBlank(m) then "" else FieldsText(m)
  }

  /** What toString returns with the size-only packet equality. */
  function MessageTextAsWritten(m: CanFrame): (r: string)
    ensures r == "" <==> IsBlankAsWritten(m)
  {
    if IsBlankAsWritten(m) then "" else FieldsText(m)
  }

  /** With the size-only equality a message with data but zero header fields prints as nothing. */
  lemma BlankAsWrittenIgnoresData()
    ensures var m := CanFrame(0, 0, 0, [1, 0, 0, 0, 0, 0, 0, 0]);
      MessageTextAsWritten(m) == "" && MessageText(m) != ""
  {
    var m := CanFrame(0, 0, 0, [1, 0, 0, 0, 0, 0, 0, 0]);
    assert m.data[0] != ZeroPacket()[0];
  }

  /** The message parseCanMessage builds from its list of fields. */
  function FrameOfFields(parts: seq<string>): CanFrame
  {
    if |parts| != CAN_MESSAGE_SIZE then DefaultFrame()
    else CanFrame(HexStringToUInt(parts[0]), CAN_FRAME, CAN_MESSAGE_LENGTH,
                  seq(PACKET_LENGTH, k requires 0 <= k < PACKET_LENGTH => HexStringToUChar(parts[k + 1])))
  }

  /** The packet of parseCanMessage after the first i fields: bytes 0 .. i - 2 read, the rest zero. */
  function PartlyParsed(parts: seq<string>, i: nat): (r: seq<byte>)
    requires |parts| == CAN_MESSAGE_SIZE
    ensures |r| == PACKET_LENGTH
  {
    seq(PACKET_LENGTH, k requires 0 <= k < PACKET_LENGTH => if k + 1 < i then HexStringToUChar(parts[k + 1]) else 0)
  }

  lemma PartlyParsedStart(parts: seq<string>)
    requires |parts| == CAN_MESSAGE_SIZE
    ensures PartlyParsed(parts, 0) == ZeroPacket()
  {
  }

  /** Field 0 is the identifier; field i > 0 is byte i - 1. */
  lemma PartlyParsedStep(parts: seq<string>, i: nat)
    requires |parts| == CAN_MESSAGE_SIZE && i < CAN_MESSAGE_SIZE
    ensures i == 0 ==> PartlyParsed(parts, 1) == PartlyParsed(parts, 0)
    ensures i > 0 ==> PartlyParsed(parts, i + 1) == PartlyParsed(parts, i)[i - 1 := HexStringToUChar(parts[i])]
  {
  }

  lemma PartlyParsedDone(parts: seq<string>)
    requires |parts| == CAN_MESSAGE_SIZE
    ensures PartlyParsed(parts, CAN_MESSAGE_SIZE) == FrameOfFields(parts).data
  {
  }

  /** What parseCanMessage builds from a text. */
  function ParsedFrame(str: string): (m: CanFrame)
    ensures |ParseToVectorSpec(str, ':')| != CAN_MESSAGE_SIZE ==> m == DefaultFrame()
    ensures |ParseToVectorSpec(str, ':')| == CAN_MESSAGE_SIZE ==>
      m.frame == CAN_FRAME && m.length == CAN_MESSAGE_LENGTH && |m.data| == PACKET_LENGTH
  {
    FrameOfFields(ParseToVectorSpec(str, ':'))
  }

  // ---------------------------------------------------------------- round trips

  lemma HexFieldReadsBack(v: uint32, width: nat)
    ensures HexStringToUInt(HexField(v, width)) == v
  {
    HexStringToUIntOfPadded(v, width);
  }

  lemma ByteFieldReadsBack(b: byte)
    ensures HexStringToUChar(ByteField(b)) == b
  {
    HexFieldReadsBack(b as int, CAN_BYTE_WIDTH);
    ToByteOfSmall(b as int);
  }

  /** The text of a message splits back into its nine fields. */
  lemma FieldsOfText(m: CanFrame)
    requires |m.data| == PACKET_LENGTH
    ensures ParseToVectorSpec(FieldsText(m), ':') == [IdField(m.id)] + ByteFields(m.data)
  {
    var parts := [IdField(m.id)] + ByteFields(m.data);
    JoinCons(IdField(m.id), ByteFields(m.data), ':');
    assert Join(parts, ':') == FieldsText(m);
    forall k | 0 <= k < |parts|
      ensures |parts[k]| > 0 && ':' !in parts[k]
    {
      if k > 0 {
        assert parts[k] == ByteField(m.data[k - 1]);
      }
    }
    ParseToVectorOfJoin(parts, ':');
  }

  /** The text of a message that is not blank parses to its data, with the identifier its field reads as. */
  lemma ParsedMessageText(m: CanFrame)
    requires |m.data| == PACKET_LENGTH && !IsBlank(m)
    ensures ParsedFrame(MessageText(m)) == CanFrame(HexStringToUInt(IdField(m.id)), CAN_FRAME, CAN_MESSAGE_LENGTH, m.data)
  {
    assert MessageText(m) == FieldsText(m);
    FieldsOfText(m);
    FrameOfPrintedFields(m.id, m.data);
  }

  /**
   * Parsing the text of an eight-byte message whose identifier is below 2^31
   * gives back its identifier and data, with frame 0 and length 8.
   */
  lemma MessageTextRoundTrip(m: CanFrame)
    requires m.id < INT32_LIMIT && |m.data| == PACKET_LENGTH && !IsBlank(m)
    ensures ParsedFrame(MessageText(m)) == CanFrame(m.id, CAN_FRAME, CAN_MESSAGE_LENGTH, m.data)
  {
    ParsedMessageText(m);
    assert IdField(m.id) == HexField(m.id, CAN_ID_WIDTH);
    HexFieldReadsBack(m.id, CAN_ID_WIDTH);
  }

  /** The printed fields of an eight-byte packet read back as that packet. */
  lemma FrameOfPrintedFields(id: uint32, data: seq<byte>)
    requires |data| == PACKET_LENGTH
    ensures FrameOfFields([IdField(id)] + ByteFields(data)) == CanFrame(HexStringToUInt(IdField(id)), CAN_FRAME, CAN_MESSAGE_LENGTH, data)
  {
    var parts := [IdField(id)] + ByteFields(data);
    forall k | 0 <= k < PACKET_LENGTH
      ensures HexStringToUChar(parts[k + 1]) == data[k]
    {
      PrintedByteField(id, data, k);
    }
    FieldsReadAsData(parts, data);
  }

  /** Nine fields whose last eight read as the bytes of a packet give that packet. */
  lemma FieldsReadAsData(parts: seq<string>, data: seq<byte>)
    requires |parts| == CAN_MESSAGE_SIZE && |data| == PACKET_LENGTH
    requires forall k :: 0 <= k < PACKET_LENGTH ==> HexStringToUChar(parts[k + 1]) == data[k]
    ensures FrameOfFields(parts).data == data
  {
    var d := FrameOfFields(parts).data;
    forall k | 0 <= k < PACKET_LENGTH
      ensures d[k] == data[k]
    {
    }
  }

  /** Field k + 1 of a printed message reads back as byte k. */
  lemma PrintedByteField(id: uint32, data: seq<byte>, k: nat)
    requires k < |data|
    ensures HexStringToUChar(([IdField(id)] + ByteFields(data))[k + 1]) == data[k]
  {
    assert ([IdField(id)] + ByteFields(data))[k + 1] == ByteField(data[k]);
    ByteFieldReadsBack(data[k]);
  }

  /**
   * An identifier of 2^31 or more is printed through a negative `int`, so its
   * text reads back as 2^32 minus the identifier.
   */
  lemma HighIdentifierReadsBackNegated(m: CanFrame)
    requires m.id >= INT32_LIMIT && |m.data| == PACKET_LENGTH
    ensures ParsedFrame(MessageText(m)).id == UINT32_LIMIT - m.id
  {
    ParsedMessageText(m);
    var negated: uint32 := UINT32_LIMIT - m.id;
    NegatedIdField(m.id);
    HexFieldReadsBack(negated, CAN_ID_WIDTH);
  }

  lemma NegatedIdField(id: uint32)
    requires id >= INT32_LIMIT
    ensures IdField(id) == HexField(UINT32_LIMIT - id, CAN_ID_WIDTH)
  {
    var x := UInt32ToInt(id);
    assert Abs(x) == UINT32_LIMIT - id;
    assert HexString(x) == HexString(UINT32_LIMIT - id);
  }

  /** The blank message prints as nothing, and nothing parses to the default message. */
  lemma BlankRoundTrip()
    ensures MessageText(DefaultFrame()) == ""
    ensures ParsedFrame("") == DefaultFrame()
  {
    assert ParseToVectorSpec("", ':') == [""];
  }

  lemma ConcatAssociates(a: string, b: string, c: string, d: string)
    ensures a + b + c + d == a + (b + c + d)
  {
  }

  /** One turn of toString's loop: the field, then ':' unless it was the last one. */
  lemma FieldStep(before: string, field: string, rest: seq<string>)
    requires |rest| > 0 && rest[0] == field
    ensures (if |rest| > 1 then before + field + ":" else before + field) + Join(rest[1..], ':') == before + Join(rest, ':')
  {
    if |rest| > 1 {
      var tail := Join(rest[1..], ':');
      assert Join(rest, ':') == field + [':'] + tail;
      ConcatAssociates(before, field, ":", tail);
    } else {
      assert Join(rest[1..], ':') == [];
    }
  }

  // ---------------------------------------------------------------- the message object

  class CanMessage {
    var id: uint32
    var frame: byte
    var length: byte
    var dataPacket: seq<byte>

    function Value(): CanFrame
      reads this
    {
      CanFrame(id, frame, length, dataPacket)
    }

    constructor (id: uint32, frame: byte, length: byte, dataPacket: seq<byte>)
      ensures Value() == CanFrame(id, frame, length, dataPacket)
    {
      this.id := id;
      this.frame := frame;
      this.length := length;
      this.dataPacket := dataPacket;
    }

    /** The default message: zero header fields and eight zero bytes. */
    constructor Default()
      ensures Value() == DefaultFrame()
    {
      id := 0;
      frame := 0;
      length := 0;
      dataPacket := ZeroPacket();
    }

    method SetID(id: uint32)
      modifies this
      ensures Value() == old(Value()).(id := id)
    {
      this.id := id;
    }

    method SetFrame(frame: byte)
      modifies this
      ensures Value() == old(Value()).(frame := frame)
    {
      this.frame := frame;
    }

    method SetLength(length: byte)
      modifies this
      ensures Value() == old(Value()).(length := length)
    {
      this.length := length;
    }

    method SetDataPacket(dataPacket: seq<byte>)
      modifies this
      ensures Value() == old(Value()).(data := dataPacket)
    {
      this.dataPacket := dataPacket;
    }

    /** nthDataPacketByte: the index must lie in [0, 8] and within the packet. */
    function NthDataPacketByte(index: int): (r: Result<byte, CanError>)
      reads this
      ensures (index < 0 || index > PACKET_LENGTH) ==> r == Err(IndexOutOfRange(index))
      ensures 0 <= index <= PACKET_LENGTH && index >= |dataPacket| ==> r == Err(Packet(OutOfRange(index)))
      ensures r.Ok? <==> 0 <= index <= PACKET_LENGTH && index < |dataPacket|
      ensures r.Ok? ==> r.value == dataPacket[index]
    {
      if index > PACKET_LENGTH || index < 0 then Err(IndexOutOfRange(index))
      else match NthByte(dataPacket, index)
        case Ok(b) => Ok(b)
        case Err(e) => Err(Packet(e))
    }

    /** setDataPacketNthByte: the packet's setNthByte; the header fields stay. */
    method SetDataPacketNthByte(index: int, nth: byte) returns (r: Result<bool, PacketError>)
      modifies this
      ensures id == old(id) && frame == old(frame) && length == old(length)
      ensures NthByteUpdate(old(dataPacket), index, nth).Ok? ==>
        r == Ok(NthByteUpdate(old(dataPacket), index, nth).value.0) &&
        dataPacket == NthByteUpdate(old(dataPacket), index, nth).value.1
      ensures NthByteUpdate(old(dataPacket), index, nth).Err? ==>
        r == Err(NthByteUpdate(old(dataPacket), index, nth).error) && dataPacket == old(dataPacket)
    {
      if 0 <= index < PACKET_LENGTH {
        if index < |dataPacket| {
          dataPacket := dataPacket[index := nth];
          return Ok(true);
        }
        return Err(OutOfRange(index));
      }
      return Ok(false);
    }

    /** toString: the blank test, then the identifier and one field per data byte. */
    method ToString() returns (returnString: string)
      ensures returnString == MessageText(Value())
    {
      var zero := Equals(dataPacket, ZeroPacket());
      if id == 0 && frame == 0 && length == 0 && zero {
        return "";
      }
      var packet := dataPacket;
      var hexId := ToHexString(UInt32ToInt(id));
      var paddedId := ToFixedWidth(hexId, CAN_ID_WIDTH);
      returnString := "0x" + paddedId + ":";
      ghost var target := Join(ByteFields(packet), ':');
      ghost var head := returnString;
      assert ByteFields(packet)[0..] == ByteFields(packet);
      var i := 0;
      while i < |packet|
        invariant 0 <= i <= |packet|
        invariant returnString + Join(ByteFields(packet)[i..], ':') == head + target
      {
        ghost var rest := ByteFields(packet)[i..];
        var hexByte := ToHexString(packet[i] as int);
        var paddedByte := ToFixedWidth(hexByte, CAN_BYTE_WIDTH);
        var field := "0x" + paddedByte;
        ghost var before := returnString;
        returnString := returnString + field;
        if i != |packet| - 1 {
          returnString := returnString + ":";
        }
        FieldStep(before, field, rest);
        assert rest[1..] == ByteFields(packet)[i + 1..];
        i := i + 1;
      }
    }

    /** parseCanMessage: nine ':'-separated fields give the identifier and the eight bytes. */
    static method ParseCanMessage(str: string) returns (returnMessage: CanMessage)
      ensures fresh(returnMessage) && returnMessage.Value() == ParsedFrame(str)
    {
      var rawMsg := ParseToVector(str, ':');
      if |rawMsg| != CAN_MESSAGE_SIZE {
        returnMessage := new CanMessage.Default();
        return;
      }
      returnMessage := new CanMessage.Default();
      returnMessage.SetFrame(CAN_FRAME);
      returnMessage.SetLength(CAN_MESSAGE_LENGTH);
      var i := 0;
      PartlyParsedStart(rawMsg);
      while i < |rawMsg|
        invariant 0 <= i <= |rawMsg|
        invariant fresh(returnMessage)
        invariant returnMessage.frame == CAN_FRAME && returnMessage.length == CAN_MESSAGE_LENGTH
        invariant returnMessage.id == if i == 0 then 0 else HexStringToUInt(rawMsg[0])
        invariant returnMessage.dataPacket == PartlyParsed(rawMsg, i)
      {
        PartlyParsedStep(rawMsg, i);
        if i == 0 {
          returnMessage.SetID(HexStringToUInt(rawMsg[i]));
        } else {
          ghost var before := returnMessage.dataPacket;
          var nth := HexStringToUChar(rawMsg[i]);
          assert NthByteUpdate(before, i - 1, nth) == Ok((true, before[i - 1 := nth]));
          var _ := returnMessage.SetDataPacketNthByte(i - 1, nth);
        }
        i := i + 1;
      }
      PartlyParsedDone(rawMsg);
    }
  }
}
