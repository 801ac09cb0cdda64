/**
 * The eight-byte payload of a CAN frame. The packet owns a byte vector that
 * its setters replace or patch in place; the packet itself is an object.
 */
module CanPacket {
  import opened Wrappers
  import opened CppInt

  const PACKET_LENGTH: nat := 8

  /** `std::vector::at` past the end of the vector throws `std::out_of_range`. */
  datatype PacketError = OutOfRange(index: int)

  /** Eight zero bytes: the default packet. */
  function ZeroPacket(): (r: seq<byte>)
    ensures |r| == PACKET_LENGTH && forall i :: 0 <= i < |r| ==> r[i] == 0
  {
    [0, 0, 0, 0, 0, 0, 0, 0]
  }

  /**
   * What setNthByte does to a byte vector: indices outside [0, 8) are refused
   * with false; inside that range the write goes through `at`, which throws
   * when the vector is shorter than the index.
   */
  function NthByteUpdate(packet: seq<byte>, index: int, nth: byte): (r: Result<(bool, seq<byte>), PacketError>)
    ensures r.Err? <==> 0 <= index < PACKET_LENGTH && index >= |packet|
    ensures r.Ok? && r.value.0 ==> 0 <= index < |packet| && r.value.1 == packet[index := nth]
    ensures r.Ok? && !r.value.0 ==> (index < 0 || index >= PACKET_LENGTH) && r.value.1 == packet
  {
    if 0 <= index < PACKET_LENGTH then
      if index < |packet| then Ok((true, packet[index := nth])) else Err(OutOfRange(index))
    else Ok((false, packet))
  }

  /** The byte `at(index)` reads. */
  function NthByte(packet: seq<byte>, index: int): (r: Result<byte, PacketError>)
    ensures r.Ok? <==> 0 <= index < |packet|
    ensures r.Ok? ==> r.value == packet[index]
  {
    if 0 <= index < |packet| then Ok(packet[index]) else Err(OutOfRange(index))
  }

  /** A write through setNthByte is seen by the next read of the same index, and by no other. */
  lemma NthByteAfterUpdate(packet: seq<byte>, index: int, nth: byte, other: int)
    requires 0 <= index < PACKET_LENGTH && index < |packet|
    ensures NthByteUpdate(packet, index, nth).Ok?
    ensures NthByte(NthByteUpdate(packet, index, nth).value.1, index) == Ok(nth)
    ensures other != index ==> NthByte(NthByteUpdate(packet, index, nth).value.1, other) == NthByte(packet, other)
  {
  }

  /** The bytewise OR of combineDataPackets, as long as the first packet. */
  function OrBytes(first: seq<byte>, second: seq<byte>): (r: seq<byte>)
    requires |second| >= |first|
    ensures |r| == |first|
  {
    seq(|first|, i requires 0 <= i < |first| => ByteOr(first[i], second[i]))
  }

  /** Combining with the zero packet changes nothing. */
  lemma OrBytesZero(first: seq<byte>)
    requires |first| <= PACKET_LENGTH
    ensures OrBytes(first, ZeroPacket()) == first
  {
    forall i | 0 <= i < |first|
      ensures OrBytes(first, ZeroPacket())[i] == first[i]
    {
      ByteOrZero(first[i]);
    }
  }

  /** Combining a packet with itself changes nothing. */
  lemma OrBytesSelf(first: seq<byte>)
    ensures OrBytes(first, first) == first
  {
    forall i | 0 <= i < |first|
      ensures OrBytes(first, first)[i] == first[i]
    {
      ByteOrSelf(first[i]);
    }
  }

  /** For packets of one length, the order of the two arguments does not matter. */
  lemma OrBytesCommutes(first: seq<byte>, second: seq<byte>)
    requires |first| == |second|
    ensures OrBytes(first, second) == OrBytes(second, first)
  {
    forall i | 0 <= i < |first|
      ensures OrBytes(first, second)[i] == OrBytes(second, first)[i]
    {
      ByteOrCommutes(first[i], second[i]);
    }
  }

  lemma ByteOrZero(a: byte)
    ensures ByteOr(a, 0) == a
  {
  }

  lemma ByteOrSelf(a: byte)
    ensures ByteOr(a, a) == a
  {
    NatOrSelf(a as nat);
  }

  lemma ByteOrCommutes(a: byte, b: byte)
    ensures ByteOr(a, b) == ByteOr(b, a)
  {
    NatOrCommutes(a as nat, b as nat);
  }

  /**
   * The equality operator as the firmware header writes it: after the size
   * check, every element of `rhs` is compared with `rhs` itself.
   */
  method EqualsAsWritten(lhs: seq<byte>, rhs: seq<byte>) returns (b: bool)
    ensures b <==> |lhs| == |rhs|
  {
    if |lhs| != |rhs| {
      return false;
    }
    var i := 0;
    while i < |rhs|
      invariant 0 <= i <= |rhs|
    {
      if rhs[i] != rhs[i] {
        return false;
      }
      i := i + 1;
    }
    return true;
  }

  /** The equality operator as intended: the same size and the same bytes. */
  method Equals(lhs: seq<byte>, rhs: seq<byte>) returns (b: bool)
    ensures b <==> lhs == rhs
  {
    if |lhs| != |rhs| {
      return false;
    }
    var i := 0;
    while i < |rhs|
      invariant 0 <= i <= |rhs|
      invariant lhs[..i] == rhs[..i]
    {
      if lhs[i] != rhs[i] {
        return false;
      }
      i := i + 1;
    }
    assert lhs == lhs[..i] && rhs == rhs[..i];
    return true;
  }

  class CanDataPacket {
    var dataPacket: seq<byte>

    /** The default packet: eight zero bytes. */
    constructor ()
      ensures dataPacket == ZeroPacket()
    {
      dataPacket := ZeroPacket();
    }

    /** The packet of eight given bytes, in order. */
    constructor FromBytes(first: byte, second: byte, third: byte, fourth: byte,
                          fifth: byte, sixth: byte, seventh: byte, eighth: byte)
      ensures |dataPacket| == PACKET_LENGTH
      ensures dataPacket[0] == first && dataPacket[1] == second && dataPacket[2] == third && dataPacket[3] == fourth
      ensures dataPacket[4] == fifth && dataPacket[5] == sixth && dataPacket[6] == seventh && dataPacket[7] == eighth
    {
      dataPacket := [first, second, third, fourth, fifth, sixth, seventh, eighth];
    }

    /** The packet holding a copy of any byte vector, of any length. */
    constructor FromVector(packet: seq<byte>)
      ensures dataPacket == packet
    {
      dataPacket := packet;
    }

    /** setDataPacket: the whole byte vector is replaced. */
    method SetDataPacket(packet: seq<byte>)
      modifies this
      ensures dataPacket == packet
    {
      dataPacket := packet;
    }

    /** setDataPacket given eight bytes: the vector becomes exactly those bytes, in order. */
    method SetDataPacketBytes(first: byte, second: byte, third: byte, fourth: byte,
                              fifth: byte, sixth: byte, seventh: byte, eighth: byte)
      modifies this
      ensures |dataPacket| == PACKET_LENGTH
      ensures dataPacket[0] == first && dataPacket[1] == second && dataPacket[2] == third && dataPacket[3] == fourth
      ensures dataPacket[4] == fifth && dataPacket[5] == sixth && dataPacket[6] == seventh && dataPacket[7] == eighth
    {
      dataPacket := [first, second, third, fourth, fifth, sixth, seventh, eighth];
    }

    /** setNthByte: patches one byte in place when the index is in [0, 8). */
    method SetNthByte(index: int, nth: byte) returns (r: Result<bool, PacketError>)
      modifies this
      ensures NthByteUpdate(old(dataPacket), index, nth).Ok? ==>
        r == Ok(NthByteUpdate(old(dataPacket), index, nth).value.0) &&
        dataPacket == NthByteUpdate(old(dataPacket), index, nth).value.1
      ensures NthByteUpdate(old(dataPacket), index, nth).Err? ==>
        r == Err(NthByteUpdate(old(dataPacket), index, nth).error) && dataPacket == old(dataPacket)
    {
      if 0 <= index < PACKET_LENGTH {
        if index < |dataPacket| {
          dataPacket := dataPacket[index := nth];
          return Ok(true);
        }
        return Err(OutOfRange(index));
      }
      return Ok(false);
    }

    /** toBasicArray: copies the bytes to the front of an eight-byte array. */
    method ToBasicArray(copyArray: array<byte>)
      requires copyArray.Length == PACKET_LENGTH && |dataPacket| <= PACKET_LENGTH
      modifies copyArray
      ensures copyArray[..|dataPacket|] == dataPacket
      ensures copyArray[|dataPacket|..] == old(copyArray[|dataPacket|..])
    {
      var i := 0;
      while i < |dataPacket|
        invariant 0 <= i <= |dataPacket|
        invariant copyArray[..i] == dataPacket[..i]
        invariant copyArray[|dataPacket|..] == old(copyArray[|dataPacket|..])
      {
        copyArray[i] := dataPacket[i];
        i := i + 1;
      }
    }

    /** combineDataPackets: a new packet holding the bytewise OR of the two. */
    static method CombineDataPackets(first: CanDataPacket, second: CanDataPacket) returns (r: CanDataPacket)
      requires |second.dataPacket| >= |first.dataPacket|
      ensures fresh(r) && r.dataPacket == OrBytes(first.dataPacket, second.dataPacket)
    {
      var constructorArg: seq<byte> := [];
      var firstCopy := first.dataPacket;
      var secondCopy := second.dataPacket;
      var i := 0;
      while i < |firstCopy|
        invariant 0 <= i <= |firstCopy|
        invariant constructorArg == OrBytes(firstCopy[..i], secondCopy)
      {
        constructorArg := constructorArg + [ByteOr(firstCopy[i], secondCopy[i])];
        i := i + 1;
      }
      assert firstCopy[..i] == firstCopy;
      r := new CanDataPacket.FromVector(constructorArg);
    }
  }
}
