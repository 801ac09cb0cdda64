/**
 * The firmware's GPIO pin: its IO type, the last logic and analog states it
 * saw or wrote, the shared analog-to-digital threshold, and the split of a
 * state into five EEPROM bytes. Pin levels and ADC samples are parameters;
 * pinModeFast, digitalWriteFast and analogWrite to the hardware are left out.
 */
module Gpio {
  import opened CppInt

  const ANALOG_MAX: int := 1023
  const DEFAULT_ANALOG_TO_DIGITAL_THRESHOLD: int := 510
  /** The number of bytes an EEPROM state takes. */
  const EEPROM_STATE_SIZE: nat := 5
  /** The largest state five bytes of at most 255 can hold. */
  const EEPROM_STATE_MAX: int := 1275

  datatype IOType = DIGITAL_INPUT | DIGITAL_OUTPUT | ANALOG_INPUT | ANALOG_OUTPUT | DIGITAL_INPUT_PULLUP | UNSPECIFIED

  // ---------------------------------------------------------------- EEPROM state

  /** The non-zero bytes of a state, most significant first: full 255s, the remainder in front. */
  function Chunks(state: int): seq<byte>
    decreases state
  {
    if state <= 0 then []
    else Chunks(state - 255) + [(if state > 254 then 255 else state) as byte]
  }

  function Sum(bytes: seq<byte>): int
  {
    if |bytes| == 0 then 0 else Sum(bytes[..|bytes| - 1]) + bytes[|bytes| - 1] as int
  }

  function ZeroBytes(n: nat): (r: seq<byte>)
    ensures |r| == n
  {
    seq(n, _ => 0 as byte)
  }

  lemma ZeroBytesAreZero(n: nat)
    ensures forall i :: 0 <= i < n ==> ZeroBytes(n)[i] == 0
  {
  }

  /** Every chunk is non-zero, and all but the front one are 255. */
  lemma {:induction false} ChunksShape(state: int)
    ensures state <= 0 ==> Chunks(state) == []
    ensures state > 0 ==> |Chunks(state)| == (state + 254) / 255
    ensures forall i :: 0 <= i < |Chunks(state)| ==> Chunks(state)[i] > 0
    ensures forall i :: 0 < i < |Chunks(state)| ==> Chunks(state)[i] == 255
    decreases state
  {
    if state > 0 {
      ChunksShape(state - 255);
    }
  }

  /** The chunks add up to the state. */
  lemma {:induction false} ChunksSum(state: int)
    requires state >= 0
    ensures Sum(Chunks(state)) == state
    decreases state
  {
    if state > 0 {
      var c := Chunks(state);
      assert c[..|c| - 1] == Chunks(state - 255);
      if state > 255 {
        ChunksSum(state - 255);
      } else {
        assert Chunks(state - 255) == [];
      }
    }
  }

  lemma {:induction false} SumConcat(a: seq<byte>, b: seq<byte>)
    ensures Sum(a + b) == Sum(a) + Sum(b)
    decreases |b|
  {
    if |b| > 0 {
      assert (a + b)[..|a + b| - 1] == a + b[..|b| - 1];
      SumConcat(a, b[..|b| - 1]);
    } else {
      assert a + b == a;
    }
  }

  lemma {:induction false} SumOfZeros(n: nat)
    ensures Sum(ZeroBytes(n)) == 0
  {
    if n > 0 {
      assert ZeroBytes(n)[..n - 1] == ZeroBytes(n - 1);
      SumOfZeros(n - 1);
    }
  }

  /** A state up to EEPROM_STATE_MAX needs at most five chunks. */
  lemma ChunksFit(state: int)
    requires state <= EEPROM_STATE_MAX
    ensures |Chunks(state)| <= EEPROM_STATE_SIZE
  {
    ChunksShape(state);
  }

  /** toEEPROMWritableState as a function: the chunks with zeros in front, five bytes in all. */
  function EEPROMWritableState(state: int): (r: seq<byte>)
    requires state <= EEPROM_STATE_MAX
    ensures |r| == EEPROM_STATE_SIZE
  {
    ChunksFit(state);
    ZeroBytes(EEPROM_STATE_SIZE - |Chunks(state)|) + Chunks(state)
  }

  /**
   * The five bytes of a state hold it: they add up to the state (to 0 for a
   * negative one), the zero bytes all come first, and every non-zero byte but
   * the first is 255.
   */
  lemma EEPROMWritableStateHoldsState(state: int)
    requires state <= EEPROM_STATE_MAX
    ensures Sum(EEPROMWritableState(state)) == if state < 0 then 0 else state
    ensures forall i, j :: 0 <= i < j < EEPROM_STATE_SIZE && EEPROMWritableState(state)[j] == 0 ==>
              EEPROMWritableState(state)[i] == 0
    ensures forall i, j :: 0 <= i < j < EEPROM_STATE_SIZE && EEPROMWritableState(state)[i] != 0 ==>
              EEPROMWritableState(state)[j] == 255
  {
    ChunksShape(state);
    var n := EEPROM_STATE_SIZE - |Chunks(state)|;
    SumConcat(ZeroBytes(n), Chunks(state));
    SumOfZeros(n);
    ZeroBytesAreZero(n);
    if state >= 0 {
      ChunksSum(state);
    }
  }

  /** A state of 0 or below is five zero bytes. */
  lemma EEPROMWritableStateOfNonPositive(state: int)
    requires state <= 0
    ensures EEPROMWritableState(state) == ZeroBytes(EEPROM_STATE_SIZE)
  {
    ChunksShape(state);
  }

  /** One more zero in front of the padding. */
  lemma ZeroBytesPrepend(n: nat, tail: seq<byte>)
    ensures [0 as byte] + (ZeroBytes(n) + tail) == ZeroBytes(n + 1) + tail
  {
    assert ZeroBytes(n + 1) == [0 as byte] + ZeroBytes(n);
  }

  /** One more round of the first loop: the chunk for `copyInt` goes in front of the ones already made. */
  lemma ChunksStep(copyInt: int, made: seq<byte>)
    requires copyInt > 0
    ensures Chunks(copyInt - 255) + ([(if copyInt > 254 then 255 else copyInt) as byte] + made) == Chunks(copyInt) + made
  {
    var b := (if copyInt > 254 then 255 else copyInt) as byte;
    assert Chunks(copyInt) == Chunks(copyInt - 255) + [b];
    assert Chunks(copyInt - 255) + ([b] + made) == (Chunks(copyInt - 255) + [b]) + made;
  }

  /**
   * toEEPROMWritableState: the first loop peels 255 at a time off the state,
   * inserting each byte at the front; the second pads with zeros to five
   * bytes. Above 1275 the second loop never stops, so the state must fit.
   */
  method ToEEPROMWritableState(longState: int) returns (result: seq<byte>)
    requires longState <= EEPROM_STATE_MAX
    ensures result == EEPROMWritableState(longState)
  {
    result := [];
    var copyInt := longState;
    while copyInt > 0
      invariant copyInt <= longState
      invariant Chunks(copyInt) + result == Chunks(longState)
      decreases copyInt
    {
      ChunksStep(copyInt, result);
      if copyInt > 254 {
        result := [255 as byte] + result;
      } else {
        result := [copyInt as byte] + result;
      }
      copyInt := copyInt - 255;
    }
    assert result == Chunks(longState);
    ChunksFit(longState);
    ghost var chunks, padding := result, 0;
    while |result| != EEPROM_STATE_SIZE
      invariant |result| == padding + |chunks| <= EEPROM_STATE_SIZE
      invariant result == ZeroBytes(padding) + chunks
      decreases EEPROM_STATE_SIZE - |result|
    {
      ZeroBytesPrepend(padding, chunks);
      result := [0 as byte] + result;
      padding := padding + 1;
    }
  }

  // ---------------------------------------------------------------- the shared threshold

  /** GPIO's static members: the analog-to-digital threshold every pin compares against. */
  class GpioStatics {
    var analogToDigitalThreshold: int

    constructor ()
      ensures analogToDigitalThreshold == DEFAULT_ANALOG_TO_DIGITAL_THRESHOLD
    {
      analogToDigitalThreshold := DEFAULT_ANALOG_TO_DIGITAL_THRESHOLD;
    }

    /** setAnalogToDigitalThreshold: a negative threshold is stored as 0. */
    method SetAnalogToDigitalThreshold(threshold: int)
      modifies this
      ensures threshold >= 0 ==> analogToDigitalThreshold == threshold
      ensures threshold < 0 ==> analogToDigitalThreshold == 0
    {
      var t := threshold;
      if t < 0 {
        t := 0;
      }
      analogToDigitalThreshold := t;
    }
  }

  // ---------------------------------------------------------------- the pin

  predicate IsDigitalInput(ioType: IOType)
  {
    ioType == DIGITAL_INPUT || ioType == DIGITAL_INPUT_PULLUP
  }

  predicate IsAnalog(ioType: IOType)
  {
    ioType == ANALOG_INPUT || ioType == ANALOG_OUTPUT
  }

  /** An ADC sample: analogRead reports ten bits. */
  predicate IsSample(sample: int)
  {
    0 <= sample <= ANALOG_MAX
  }

  /**
   * The logic and analog state a pin holds after getIOAgnosticState: a digital
   * input latches the level it reads, an analog input the sample it reads, and
   * any other pin keeps both.
   */
  function StateAfterAgnosticRead(ioType: IOType, logicState: bool, analogState: int,
                                  pinLevel: bool, sample: int): (bool, int)
  {
    if IsDigitalInput(ioType) then (pinLevel, analogState)
    else if ioType == ANALOG_INPUT then (logicState, sample)
    else (logicState, analogState)
  }

  class Gpio {
    var pinNumber: int
    var ioType: IOType
    var logicState: bool
    var analogState: int

    /** No analog state above ANALOG_MAX is ever kept. */
    predicate Valid()
      reads this
    {
      analogState <= ANALOG_MAX
    }

    constructor (pinNumber: int, ioType: IOType)
      ensures Valid() && this.pinNumber == pinNumber && this.ioType == ioType
      ensures !logicState && analogState == 0
    {
      this.pinNumber := pinNumber;
      this.ioType := ioType;
      logicState := false;
      analogState := 0;
    }

    /** setIOType: a new IO type starts from analog state 0 and logic low. */
    method SetIOType(ioType: IOType)
      modifies this
      ensures Valid() && this.ioType == ioType && pinNumber == old(pinNumber)
      ensures analogState == 0 && !logicState
    {
      this.ioType := ioType;
      analogState := 0;
      logicState := false;
    }

    /** g_digitalRead: switches to DIGITAL_INPUT unless already a digital input, then latches the level. */
    method DigitalRead(pinLevel: bool) returns (level: bool)
      requires Valid()
      modifies this
      ensures Valid() && pinNumber == old(pinNumber)
      ensures level == pinLevel && logicState == pinLevel
      ensures IsDigitalInput(old(ioType)) ==> ioType == old(ioType) && analogState == old(analogState)
      ensures !IsDigitalInput(old(ioType)) ==> ioType == DIGITAL_INPUT && analogState == 0
    {
      if !IsDigitalInput(ioType) {
        SetIOType(DIGITAL_INPUT);
      }
      logicState := pinLevel;
      return logicState;
    }

    /** g_analogRead: switches to ANALOG_INPUT unless already one, then latches the sample. */
    method AnalogRead(sample: int) returns (state: int)
      requires Valid() && IsSample(sample)
      modifies this
      ensures Valid() && pinNumber == old(pinNumber) && ioType == ANALOG_INPUT
      ensures state == sample && analogState == sample
      ensures old(ioType) == ANALOG_INPUT ==> logicState == old(logicState)
    {
      if ioType != ANALOG_INPUT {
        SetIOType(ANALOG_INPUT);
      }
      analogState := sample;
      return analogState;
    }

    /**
     * g_softDigitalRead: an output reports what it holds (an analog output
     * compared with the threshold), an analog input samples and compares, and
     * anything else is read as a digital input.
     */
    method SoftDigitalRead(statics: GpioStatics, pinLevel: bool, sample: int) returns (level: bool)
      requires Valid() && IsSample(sample)
      modifies this
      ensures Valid() && pinNumber == old(pinNumber)
      ensures old(ioType) == DIGITAL_OUTPUT ==> level == old(logicState) && ioType == old(ioType)
      ensures old(ioType) == ANALOG_INPUT ==> level == (sample >= statics.analogToDigitalThreshold) && analogState == sample
      ensures old(ioType) == ANALOG_OUTPUT ==>
        level == (old(analogState) >= statics.analogToDigitalThreshold) && analogState == old(analogState)
      ensures IsDigitalInput(old(ioType)) || old(ioType) == UNSPECIFIED ==> level == pinLevel
      ensures old(ioType) != DIGITAL_OUTPUT && old(ioType) != ANALOG_OUTPUT ==> ioType != ANALOG_OUTPUT
      ensures old(ioType) == DIGITAL_OUTPUT || old(ioType) == ANALOG_OUTPUT ==>
        ioType == old(ioType) && logicState == old(logicState) && analogState == old(analogState)
      ensures old(ioType) == ANALOG_INPUT ==> ioType == ANALOG_INPUT && logicState == old(logicState)
      ensures IsDigitalInput(old(ioType)) ==>
        ioType == old(ioType) && logicState == pinLevel && analogState == old(analogState)
      ensures old(ioType) == UNSPECIFIED ==> ioType == DIGITAL_INPUT && logicState == pinLevel && analogState == 0
    {
      if ioType == DIGITAL_OUTPUT {
        return logicState;
      } else if ioType == ANALOG_INPUT {
        var _ := AnalogRead(sample);
        return analogState >= statics.analogToDigitalThreshold;
      } else if ioType == ANALOG_OUTPUT {
        return analogState >= statics.analogToDigitalThreshold;
      } else {
        level := DigitalRead(pinLevel);
      }
    }

    /** g_softAnalogRead: an analog pin reports its state, any other 5 when high and 0 when low. */
    method SoftAnalogRead() returns (state: int)
      ensures IsAnalog(ioType) ==> state == analogState
      ensures !IsAnalog(ioType) ==> state == (if logicState then 5 else 0)
    {
      if ioType == ANALOG_OUTPUT || ioType == ANALOG_INPUT {
        return analogState;
      }
      if logicState {
        return 5;
      }
      return 0;
    }

    /** g_digitalWrite: switches to DIGITAL_OUTPUT unless already one, then holds the level. */
    method DigitalWrite(level: bool)
      requires Valid()
      modifies this
      ensures Valid() && pinNumber == old(pinNumber) && ioType == DIGITAL_OUTPUT && logicState == level
      ensures old(ioType) == DIGITAL_OUTPUT ==> analogState == old(analogState)
    {
      if ioType != DIGITAL_OUTPUT {
        SetIOType(DIGITAL_OUTPUT);
      }
      logicState := level;
    }

    /**
     * g_analogWrite: switches to ANALOG_OUTPUT unless the pin is an output
     * already, then holds the state cut down to ANALOG_MAX (a negative state
     * is kept as it is).
     */
    method AnalogWrite(state: int)
      requires Valid()
      modifies this
      ensures Valid() && pinNumber == old(pinNumber)
      ensures analogState == (if state > ANALOG_MAX then ANALOG_MAX else state)
      ensures old(ioType) == DIGITAL_OUTPUT || old(ioType) == ANALOG_OUTPUT ==>
        ioType == old(ioType) && logicState == old(logicState)
      ensures old(ioType) != DIGITAL_OUTPUT && old(ioType) != ANALOG_OUTPUT ==> ioType == ANALOG_OUTPUT && !logicState
    {
      if ioType != DIGITAL_OUTPUT && ioType != ANALOG_OUTPUT {
        SetIOType(ANALOG_OUTPUT);
      }
      var s := state;
      if s > ANALOG_MAX {
        s := ANALOG_MAX;
      }
      analogState := s;
    }

    /** getIOAgnosticState: reads the pin the way its IO type calls for. */
    method GetIOAgnosticState(statics: GpioStatics, pinLevel: bool, sample: int) returns (state: int)
      requires Valid() && IsSample(sample)
      modifies this
      ensures Valid() && pinNumber == old(pinNumber)
      ensures state <= ANALOG_MAX
      ensures IsDigitalInput(old(ioType)) ==> state == (if pinLevel then 1 else 0)
      ensures old(ioType) == ANALOG_INPUT ==> state == sample
      ensures old(ioType) == ANALOG_OUTPUT ==> state == old(analogState)
      ensures old(ioType) == DIGITAL_OUTPUT ==> state == (if old(logicState) then 1 else 0)
      ensures old(ioType) == UNSPECIFIED ==> state == 0
      ensures ioType == old(ioType)
      ensures (logicState, analogState)
              == StateAfterAgnosticRead(old(ioType), old(logicState), old(analogState), pinLevel, sample)
    {
      if IsDigitalInput(ioType) {
        var level := DigitalRead(pinLevel);
        state := if level then 1 else 0;
      } else if ioType == DIGITAL_OUTPUT {
        var level := SoftDigitalRead(statics, pinLevel, sample);
        state := if level then 1 else 0;
      } else if ioType == ANALOG_INPUT {
        state := AnalogRead(sample);
      } else if ioType == ANALOG_OUTPUT {
        state := SoftAnalogRead();
      } else {
        state := 0;
      }
    }

    /** getEEPROMWritableState: the pin's state as five EEPROM bytes. */
    method GetEEPROMWritableState(statics: GpioStatics, pinLevel: bool, sample: int) returns (bytes: seq<byte>)
      requires Valid() && IsSample(sample)
      modifies this
      ensures Valid() && |bytes| == EEPROM_STATE_SIZE
      ensures IsDigitalInput(old(ioType)) ==> bytes == EEPROMWritableState(if pinLevel then 1 else 0)
      ensures old(ioType) == ANALOG_INPUT ==> bytes == EEPROMWritableState(sample)
      ensures old(ioType) == ANALOG_OUTPUT ==> bytes == EEPROMWritableState(old(analogState))
      ensures old(ioType) == DIGITAL_OUTPUT ==> bytes == EEPROMWritableState(if old(logicState) then 1 else 0)
      ensures old(ioType) == UNSPECIFIED ==> bytes == ZeroBytes(EEPROM_STATE_SIZE)
      ensures pinNumber == old(pinNumber) && ioType == old(ioType)
      ensures (logicState, analogState)
              == StateAfterAgnosticRead(old(ioType), old(logicState), old(analogState), pinLevel, sample)
    {
      var state := GetIOAgnosticState(statics, pinLevel, sample);
      bytes := ToEEPROMWritableState(state);
      if old(ioType) == UNSPECIFIED {
        EEPROMWritableStateOfNonPositive(0);
      }
    }
  }
}
