/**
 * ArduinoUno, the PC-side description of an Arduino Uno: its pin tables,
 * the names of its analog pins, the maps from pins and aliases to GPIO
 * objects built when it is constructed, and the removal of the pin the CAN
 * shield occupies. Each GPIO object is represented by its IO type.
 */
module ArduinoUno {
  import opened Wrappers
  import opened StdString
  import opened Gpio

  /** Pins that read analog values, A0 to A5: the pins 14 to 19. */
  const AVAILABLE_ANALOG_PINS: set<int> := set p | 14 <= p <= 19
  /** Pins with hardware PWM. */
  const AVAILABLE_PWM_PINS: set<int> := {3, 5, 6, 9, 10, 11}
  /** Every usable pin: the pins 2 to 19. */
  const AVAILABLE_PINS: set<int> := set p | 2 <= p <= 19
  /** The highest digital-only pin number. */
  const NUMBER_OF_DIGITAL_PINS: int := 13
  const ARDUINO_TYPE_IDENTIFIER: string := "arduino_uno"

  /** The names of A0 to A5, the A*_STRING texts of arduino/firmware/src/arduinopcstrings.cpp:135-140. */
  const ANALOG_PIN_NAMES: seq<string> := ["A0", "A1", "A2", "A3", "A4", "A5"]
  /** The pin numbers of A0 to A5, written out, which name them too: the Uno's A*_EQUIVALENT_STRING texts of arduino/firmware/src/arduinopcstrings.cpp:143-148. */
  const ANALOG_PIN_EQUIVALENTS: seq<string> := ["14", "15", "16", "17", "18", "19"]

  /** What staticParseAnalogPin and staticAnalogPinFromNumber throw for. */
  datatype PinError =
    | InvalidAnalogPinAlias(pinAlias: string)
    | InvalidAnalogPinNumber(pinNumber: int)

  // ---------------------------------------------------------------- analog pin names

  /** staticAnalogPinFromNumber: pins 14 to 19 are named A0 to A5; other numbers throw. */
  function AnalogPinFromNumber(pinNumber: int): (r: Result<string, PinError>)
    ensures r.Ok? <==> pinNumber in AVAILABLE_ANALOG_PINS
    ensures r.Ok? ==> |r.value| == 2 && r.value[0] == 'A' && r.value[1] as int - '0' as int == pinNumber - 14
    ensures r.Err? ==> r.error == InvalidAnalogPinNumber(pinNumber)
  {
    if pinNumber == 14 then Ok(ANALOG_PIN_NAMES[0])
    else if pinNumber == 15 then Ok(ANALOG_PIN_NAMES[1])
    else if pinNumber == 16 then Ok(ANALOG_PIN_NAMES[2])
    else if pinNumber == 17 then Ok(ANALOG_PIN_NAMES[3])
    else if pinNumber == 18 then Ok(ANALOG_PIN_NAMES[4])
    else if pinNumber == 19 then Ok(ANALOG_PIN_NAMES[5])
    else Err(InvalidAnalogPinNumber(pinNumber))
  }

  /** staticParseAnalogPin: A0 to A5, or the numbers 14 to 19 written out; anything else throws. */
  function ParseAnalogPin(pinAlias: string): (r: Result<int, PinError>)
    ensures r.Ok? <==> pinAlias in ANALOG_PIN_NAMES || pinAlias in ANALOG_PIN_EQUIVALENTS
    ensures r.Ok? ==> r.value in AVAILABLE_ANALOG_PINS
    ensures r.Ok? ==> pinAlias == ANALOG_PIN_NAMES[r.value - 14] || pinAlias == ANALOG_PIN_EQUIVALENTS[r.value - 14]
    ensures r.Err? ==> r.error == InvalidAnalogPinAlias(pinAlias)
  {
    if pinAlias == ANALOG_PIN_NAMES[0] || pinAlias == ANALOG_PIN_EQUIVALENTS[0] then Ok(14)
    else if pinAlias == ANALOG_PIN_NAMES[1] || pinAlias == ANALOG_PIN_EQUIVALENTS[1] then Ok(15)
    else if pinAlias == ANALOG_PIN_NAMES[2] || pinAlias == ANALOG_PIN_EQUIVALENTS[2] then Ok(16)
    else if pinAlias == ANALOG_PIN_NAMES[3] || pinAlias == ANALOG_PIN_EQUIVALENTS[3] then Ok(17)
    else if pinAlias == ANALOG_PIN_NAMES[4] || pinAlias == ANALOG_PIN_EQUIVALENTS[4] then Ok(18)
    else if pinAlias == ANALOG_PIN_NAMES[5] || pinAlias == ANALOG_PIN_EQUIVALENTS[5] then Ok(19)
    else Err(InvalidAnalogPinAlias(pinAlias))
  }

  /** The written-out equivalents are `std::to_string` of the pin numbers. */
  lemma EquivalentsAreNumerals(i: int)
    requires 0 <= i < 6
    ensures ANALOG_PIN_EQUIVALENTS[i] == ToString(14 + i)
  {
    assert Digits(1) == "1";
    assert ToString(14 + i) == "1" + [DigitChar(4 + i)];
  }

  /** No name is used twice, so each finds its own pin. */
  lemma AnalogAliasesAreDistinct(i: int)
    requires 0 <= i < 6
    ensures ParseAnalogPin(ANALOG_PIN_NAMES[i]) == Ok(14 + i)
    ensures ParseAnalogPin(ANALOG_PIN_EQUIVALENTS[i]) == Ok(14 + i)
  {
    assert forall j :: 0 <= j < 6 ==> ANALOG_PIN_NAMES[j][1] == DigitChar(j);
    assert forall j :: 0 <= j < 6 ==> ANALOG_PIN_EQUIVALENTS[j][1] == DigitChar(4 + j);
    assert forall j :: 0 <= j < 6 ==> ANALOG_PIN_NAMES[j][0] != ANALOG_PIN_EQUIVALENTS[i][0];
  }

  /** Parsing the name of an analog pin, or its number written out, gives the pin back. */
  lemma AnalogPinRoundTrip(pinNumber: int)
    requires pinNumber in AVAILABLE_ANALOG_PINS
    ensures AnalogPinFromNumber(pinNumber).Ok?
    ensures ParseAnalogPin(AnalogPinFromNumber(pinNumber).value) == Ok(pinNumber)
    ensures ParseAnalogPin(ToString(pinNumber)) == Ok(pinNumber)
  {
    AnalogAliasesAreDistinct(pinNumber - 14);
    EquivalentsAreNumerals(pinNumber - 14);
  }

  /** Every alias parseAnalogPin accepts is the pin's name or its number written out. */
  lemma ParseAnalogPinInverse(pinAlias: string)
    requires ParseAnalogPin(pinAlias).Ok?
    ensures var pinNumber := ParseAnalogPin(pinAlias).value;
            AnalogPinFromNumber(pinNumber) == Ok(pinAlias) || pinAlias == ToString(pinNumber)
  {
    EquivalentsAreNumerals(ParseAnalogPin(pinAlias).value - 14);
  }

  /** isValidAnalogPinIdentifier: some analog pin has this name. */
  function IsValidAnalogPinIdentifier(state: string): (r: bool)
    ensures r <==> |state| == 2 && state[0] == 'A' && '0' <= state[1] <= '5'
  {
    AnalogNameHasPin(state);
    exists pinNumber :: pinNumber in AVAILABLE_ANALOG_PINS && AnalogPinFromNumber(pinNumber) == Ok(state)
  }

  /** A name A0 to A5 belongs to the pin 14 places past its digit. */
  lemma AnalogNameHasPin(state: string)
    ensures |state| == 2 && state[0] == 'A' && '0' <= state[1] <= '5' ==>
              AnalogPinFromNumber(14 + (state[1] as int - '0' as int)) == Ok(state)
  {
    if |state| == 2 && state[0] == 'A' && '0' <= state[1] <= '5' {
      var d := state[1] as int - '0' as int;
      assert ANALOG_PIN_NAMES[d] == ['A', DigitChar(d)];
      assert state == ['A', DigitChar(d)];
    }
  }

  /** The pin tables as ranges. */
  lemma PinRanges(pinNumber: int)
    ensures pinNumber in AVAILABLE_PINS <==> 2 <= pinNumber <= 19
    ensures pinNumber in AVAILABLE_ANALOG_PINS <==> 14 <= pinNumber <= 19
    ensures pinNumber in AVAILABLE_PWM_PINS ==> pinNumber in AVAILABLE_PINS && pinNumber !in AVAILABLE_ANALOG_PINS
  {
  }

  /** isValidAnalogInputPin: one of the analog pins. */
  function IsValidAnalogInputPin(pinNumber: int): (r: bool)
    ensures r <==> AnalogPinFromNumber(pinNumber).Ok?
    ensures r <==> 14 <= pinNumber <= 19
  {
    PinRanges(pinNumber);
    pinNumber in AVAILABLE_ANALOG_PINS
  }

  /** isValidAnalogOutputPin: one of the PWM pins of the board, whatever has been removed since. */
  function IsValidAnalogOutputPin(pinNumber: int): (r: bool)
    ensures r <==> 3 <= pinNumber <= 11 && pinNumber != 4 && pinNumber != 7 && pinNumber != 8
    ensures r ==> !IsValidAnalogInputPin(pinNumber)
  {
    pinNumber in AVAILABLE_PWM_PINS
  }

  // ---------------------------------------------------------------- pin aliases

  /**
   * The alias initializeIO gives a pin: the analog name above the last
   * digital-only pin, the number written out otherwise.
   */
  function AliasOf(pinNumber: int): (r: string)
    requires pinNumber in AVAILABLE_PINS
    ensures pinNumber > NUMBER_OF_DIGITAL_PINS ==> |r| == 2 && r[0] == 'A'
    ensures pinNumber <= NUMBER_OF_DIGITAL_PINS ==> r == ToString(pinNumber)
  {
    PinRanges(pinNumber);
    if pinNumber > NUMBER_OF_DIGITAL_PINS then AnalogPinFromNumber(pinNumber).value else ToString(pinNumber)
  }

  /** No two pins share an alias. */
  lemma AliasInjective(p: int, q: int)
    requires p in AVAILABLE_PINS && q in AVAILABLE_PINS && AliasOf(p) == AliasOf(q)
    ensures p == q
  {
    if p > NUMBER_OF_DIGITAL_PINS && q > NUMBER_OF_DIGITAL_PINS {
      assert AliasOf(p)[1] == AliasOf(q)[1];
    } else if p <= NUMBER_OF_DIGITAL_PINS && q <= NUMBER_OF_DIGITAL_PINS {
      ToStringInjective(p, q);
    }
  }

  /** std::map::emplace: inserts only when the key is absent. */
  function Emplace<K, V>(m: map<K, V>, key: K, value: V): (r: map<K, V>)
    ensures key in r && r.Keys == m.Keys + {key}
    ensures key !in m ==> r[key] == value
    ensures forall k :: k in m ==> r[k] == m[k]
  {
    if key in m then m else m[key := value]
  }

  /**
   * The pins `pins` and the alias map `aliases` match: each pin is found
   * under its alias, and each alias leads to the pin it names.
   */
  predicate AliasesMatch(pins: set<int>, aliases: map<string, int>)
  {
    && pins <= AVAILABLE_PINS
    && (forall p :: p in pins ==> AliasOf(p) in aliases && aliases[AliasOf(p)] == p)
    && (forall a :: a in aliases ==> aliases[a] in pins && AliasOf(aliases[a]) == a)
  }

  /** Emplacing a new pin under its alias keeps the match. */
  lemma AliasesMatchAdd(pins: set<int>, aliases: map<string, int>, pinNumber: int)
    requires AliasesMatch(pins, aliases)
    requires pinNumber in AVAILABLE_PINS && pinNumber !in pins
    ensures AliasesMatch(pins + {pinNumber}, Emplace(aliases, AliasOf(pinNumber), pinNumber))
  {
    forall a | a in aliases
      ensures a != AliasOf(pinNumber)
    {
      if a == AliasOf(pinNumber) {
        AliasInjective(aliases[a], pinNumber);
      }
    }
  }

  /** Erasing a pin and its alias keeps the match. */
  lemma AliasesMatchErase(pins: set<int>, aliases: map<string, int>, pinNumber: int)
    requires AliasesMatch(pins, aliases)
    requires pinNumber in pins
    ensures AliasesMatch(pins - {pinNumber}, aliases - {AliasOf(pinNumber)})
  {
  }

  /** Every GPIO is still of unspecified IO type. */
  predicate AllUnspecified(pins: map<int, IOType>)
  {
    forall p :: p in pins ==> pins[p] == UNSPECIFIED
  }

  /** Every pin of the board has the alias initializeIO gives it. */
  predicate InitialIterationAliases(iterationAliases: map<int, string>)
  {
    && iterationAliases.Keys == AVAILABLE_PINS
    && forall p :: p in iterationAliases ==> iterationAliases[p] == AliasOf(p)
  }

  /** Some element of a non-empty set: the next one a loop over the set visits. */
  method Pick<T>(s: set<T>) returns (x: T)
    requires s != {}
    ensures x in s
  {
    x :| x in s;
  }

  /** The first loop of initializeIO: an unspecified GPIO for each available pin. */
  method NewGpioPins(availablePins: set<int>) returns (pins: map<int, IOType>)
    ensures pins.Keys == availablePins
    ensures AllUnspecified(pins)
  {
    pins := map[];
    var remaining := availablePins;
    while remaining != {}
      invariant remaining <= availablePins
      invariant pins.Keys == availablePins - remaining
      invariant forall p :: p in pins ==> pins[p] == UNSPECIFIED
      decreases remaining
    {
      var pinNumber := Pick(remaining);
      pins := Emplace(pins, pinNumber, UNSPECIFIED);
      remaining := remaining - {pinNumber};
    }
  }

  /**
   * The second loop of initializeIO, over the pins of the board: each pin's
   * alias both ways, and the CAN pin's number written out as its alias
   * when it is one of the analog pins.
   */
  method NewAliases(pins: set<int>, canBusPin: int) returns (aliases: map<string, int>, iterationAliases: map<int, string>, canAlias: string)
    requires pins == AVAILABLE_PINS
    ensures AliasesMatch(AVAILABLE_PINS, aliases)
    ensures InitialIterationAliases(iterationAliases)
    ensures canAlias == if canBusPin in AVAILABLE_ANALOG_PINS then ToString(canBusPin) else ""
  {
    aliases, iterationAliases, canAlias := map[], map[], "";
    var pending := pins;
    while pending != {}
      invariant pending <= AVAILABLE_PINS
      invariant iterationAliases.Keys == AVAILABLE_PINS - pending
      invariant forall p :: p in iterationAliases ==> iterationAliases[p] == AliasOf(p)
      invariant AliasesMatch(AVAILABLE_PINS - pending, aliases)
      invariant canAlias == if canBusPin in AVAILABLE_PINS - pending && canBusPin > NUMBER_OF_DIGITAL_PINS then ToString(canBusPin) else ""
      decreases pending
    {
      var pinNumber := Pick(pending);
      PinRanges(pinNumber);
      AliasesMatchAdd(AVAILABLE_PINS - pending, aliases, pinNumber);
      assert AVAILABLE_PINS - pending + {pinNumber} == AVAILABLE_PINS - (pending - {pinNumber});
      if pinNumber > NUMBER_OF_DIGITAL_PINS {
        if pinNumber == canBusPin {
          canAlias := ToString(pinNumber);
        }
        aliases := Emplace(aliases, AnalogPinFromNumber(pinNumber).value, pinNumber);
        iterationAliases := Emplace(iterationAliases, pinNumber, AnalogPinFromNumber(pinNumber).value);
      } else {
        aliases := Emplace(aliases, ToString(pinNumber), pinNumber);
        iterationAliases := Emplace(iterationAliases, pinNumber, ToString(pinNumber));
      }
      pending := pending - {pinNumber};
    }
    PinRanges(canBusPin);
  }

  /**
   * The pin tables of a board: every pin, every PWM pin and thirteen
   * digital pins; or, once the CAN pin is erased, each of those less it.
   */
  predicate TablesMatch(availablePins: set<int>, availablePwmPins: set<int>, numberOfDigitalPins: int, canBusPin: int)
  {
    || (availablePins == AVAILABLE_PINS && availablePwmPins == AVAILABLE_PWM_PINS
        && numberOfDigitalPins == NUMBER_OF_DIGITAL_PINS)
    || (canBusPin in AVAILABLE_PWM_PINS && availablePins == AVAILABLE_PINS - {canBusPin}
        && availablePwmPins == AVAILABLE_PWM_PINS - {canBusPin} && numberOfDigitalPins == NUMBER_OF_DIGITAL_PINS - 1)
  }

  /** The CAN pin can be erased once only: the tables were full, and are then the reduced ones. */
  lemma TablesAfterErase(availablePins: set<int>, availablePwmPins: set<int>, numberOfDigitalPins: int, canBusPin: int)
    requires TablesMatch(availablePins, availablePwmPins, numberOfDigitalPins, canBusPin)
    requires canBusPin in availablePwmPins
    ensures availablePins == AVAILABLE_PINS && canBusPin in availablePins
    ensures TablesMatch(availablePins - {canBusPin}, availablePwmPins - {canBusPin}, numberOfDigitalPins - 1, canBusPin)
  {
    PinRanges(canBusPin);
  }

  // ---------------------------------------------------------------- the board

  class ArduinoUno {
    /** The pin the CAN shield occupies, defined elsewhere in the library. */
    const canBusPin: int
    /** Whether CAN capability is known, and whether the board has it. */
    var canCapability: (bool, bool)
    var canPinAlias: string
    var firmwareVersion: string
    var availablePins: set<int>
    var availablePwmPins: set<int>
    var availableAnalogPins: set<int>
    var numberOfDigitalPins: int
    var analogToDigitalThreshold: int
    /** Pin number to GPIO. */
    var gpioPins: map<int, IOType>
    /** Alias to the pin number of its GPIO. */
    var gpioPinsAlias: map<string, int>
    /** Pin number to alias. */
    var gpioPinIterationAliasMap: map<int, string>

    /**
     * All pins are available, or all but the CAN pin, which is then gone
     * from the PWM pins too and one digital pin fewer is counted; every
     * GPIO is reachable under its pin's alias, and every alias leads to a
     * GPIO of the board.
     */
    predicate Valid()
      reads this
    {
      && TablesMatch(availablePins, availablePwmPins, numberOfDigitalPins, canBusPin)
      && availableAnalogPins == AVAILABLE_ANALOG_PINS
      && gpioPins.Keys == availablePins
      && AliasesMatch(availablePins, gpioPinsAlias)
      && gpioPinIterationAliasMap.Keys == AVAILABLE_PINS
    }

    /**
     * The constructors: the four overloads differ in whether the firmware
     * version and the CAN capability are given (`None` when not). The CAN
     * capability, when present, is known; when the board has it, its pin
     * is erased, which needs it to be one of the PWM pins.
     */
    constructor(canBusPin: int, firmwareVersion: string, canCapability: Option<bool>)
      requires canCapability == Some(true) ==> canBusPin in AVAILABLE_PWM_PINS
      ensures this.canBusPin == canBusPin && this.firmwareVersion == firmwareVersion
      ensures this.canCapability == if canCapability.Some? then (true, canCapability.value) else (false, false)
      ensures analogToDigitalThreshold == -1
      ensures Valid()
      ensures canCapability == Some(true) ==> availablePins == AVAILABLE_PINS - {canBusPin}
      ensures canCapability != Some(true) ==> availablePins == AVAILABLE_PINS
      ensures AllUnspecified(gpioPins)
      ensures InitialIterationAliases(gpioPinIterationAliasMap)
    {
      this.canBusPin := canBusPin;
      this.firmwareVersion := firmwareVersion;
      this.canCapability := if canCapability.Some? then (true, canCapability.value) else (false, false);
      canPinAlias := "";
      availablePins := AVAILABLE_PINS;
      availablePwmPins := AVAILABLE_PWM_PINS;
      availableAnalogPins := AVAILABLE_ANALOG_PINS;
      numberOfDigitalPins := NUMBER_OF_DIGITAL_PINS;
      analogToDigitalThreshold := -1;
      gpioPins := map[];
      gpioPinsAlias := map[];
      gpioPinIterationAliasMap := map[];
      new;
      InitializeIO();
    }

    /**
     * initializeIO without the configuration file: one unspecified GPIO per
     * available pin, the alias maps filled in, and the CAN pin erased when
     * the board has CAN.
     */
    method InitializeIO()
      requires availablePins == AVAILABLE_PINS && availablePwmPins == AVAILABLE_PWM_PINS
      requires availableAnalogPins == AVAILABLE_ANALOG_PINS && numberOfDigitalPins == NUMBER_OF_DIGITAL_PINS
      requires canCapability.1 ==> canBusPin in AVAILABLE_PWM_PINS
      modifies this`availablePins, this`availablePwmPins, this`gpioPins, this`gpioPinsAlias, this`numberOfDigitalPins
      modifies this`gpioPinIterationAliasMap, this`canPinAlias
      ensures Valid()
      ensures canCapability.1 ==> availablePins == AVAILABLE_PINS - {canBusPin}
      ensures !canCapability.1 ==> availablePins == AVAILABLE_PINS
      ensures AllUnspecified(gpioPins)
      ensures InitialIterationAliases(gpioPinIterationAliasMap)
      ensures canPinAlias == if canBusPin in AVAILABLE_ANALOG_PINS then ToString(canBusPin) else ""
    {
      CreateGpios();
      PinRanges(canBusPin);
      if canCapability.1 {
        EraseCanPin();
      }
    }

    /**
     * The two loops of initializeIO: a GPIO for every pin of the full board,
     * then the alias maps; the CAN pin's alias is kept when it is analog.
     */
    method CreateGpios()
      requires availablePins == AVAILABLE_PINS && availablePwmPins == AVAILABLE_PWM_PINS
      requires availableAnalogPins == AVAILABLE_ANALOG_PINS && numberOfDigitalPins == NUMBER_OF_DIGITAL_PINS
      modifies this`gpioPins, this`gpioPinsAlias, this`gpioPinIterationAliasMap, this`canPinAlias
      ensures Valid()
      ensures AllUnspecified(gpioPins)
      ensures InitialIterationAliases(gpioPinIterationAliasMap)
      ensures canPinAlias == if canBusPin in AVAILABLE_ANALOG_PINS then ToString(canBusPin) else ""
    {
      gpioPins := NewGpioPins(availablePins);
      var aliases, iterationAliases, canAlias := NewAliases(availablePins, canBusPin);
      gpioPinsAlias, gpioPinIterationAliasMap, canPinAlias := aliases, iterationAliases, canAlias;
    }

    /**
     * setPinAlias: a pin with an alias gets the new one; any other pin is
     * refused and nothing changes. The overload taking a GPIO reference
     * does the same with the GPIO's pin number.
     */
    method SetPinAlias(pinNumber: int, newAlias: string) returns (ok: bool)
      modifies this`gpioPinIterationAliasMap
      ensures ok <==> pinNumber in old(gpioPinIterationAliasMap)
      ensures ok ==> gpioPinIterationAliasMap == old(gpioPinIterationAliasMap)[pinNumber := newAlias]
      ensures !ok ==> gpioPinIterationAliasMap == old(gpioPinIterationAliasMap)
      ensures old(Valid()) ==> Valid()
    {
      if pinNumber !in gpioPinIterationAliasMap {
        return false;
      } else {
        gpioPinIterationAliasMap := gpioPinIterationAliasMap[pinNumber := newAlias];
        return true;
      }
    }

    /** setPinAlias given a `std::shared_ptr` to a GPIO: an empty one (`None`) is refused too. */
    method SetPinAliasOfGpio(gpio: Option<int>, newAlias: string) returns (ok: bool)
      modifies this`gpioPinIterationAliasMap
      ensures ok <==> gpio.Some? && gpio.value in old(gpioPinIterationAliasMap)
      ensures ok ==> gpioPinIterationAliasMap == old(gpioPinIterationAliasMap)[gpio.value := newAlias]
      ensures !ok ==> gpioPinIterationAliasMap == old(gpioPinIterationAliasMap)
    {
      if gpio.None? {
        return false;
      }
      ok := SetPinAlias(gpio.value, newAlias);
    }

    /**
     * eraseCanPin: the CAN pin leaves the available and PWM pins, its GPIO
     * and the alias made of its number go, and one digital pin fewer is
     * counted. Its entry in the pin-to-alias map stays. Erasing an element
     * that is not there is undefined behaviour, hence the precondition.
     */
    method EraseCanPin()
      requires Valid()
      requires canBusPin in availablePwmPins
      modifies this`availablePins, this`availablePwmPins, this`gpioPins, this`gpioPinsAlias, this`numberOfDigitalPins
      ensures availablePins == old(availablePins) - {canBusPin}
      ensures availablePwmPins == old(availablePwmPins) - {canBusPin}
      ensures gpioPins == old(gpioPins) - {canBusPin}
      ensures AllUnspecified(old(gpioPins)) ==> AllUnspecified(gpioPins)
      ensures gpioPinsAlias == old(gpioPinsAlias) - {ToString(canBusPin)}
      ensures numberOfDigitalPins == old(numberOfDigitalPins) - 1
      ensures Valid()
    {
      TablesAfterErase(availablePins, availablePwmPins, numberOfDigitalPins, canBusPin);
      PinRanges(canBusPin);
      AliasesMatchErase(availablePins, gpioPinsAlias, canBusPin);
      availablePins := availablePins - {canBusPin};
      availablePwmPins := availablePwmPins - {canBusPin};
      gpioPins := gpioPins - {canBusPin};
      gpioPinsAlias := gpioPinsAlias - {ToString(canBusPin)};
      numberOfDigitalPins := numberOfDigitalPins - 1;
    }

    /**
     * setCanCapability: stores the pair and, when the capability is known
     * and present, erases the CAN pin, which must still be there.
     */
    method SetCanCapability(capability: (bool, bool))
      requires Valid()
      requires capability.0 && capability.1 ==> canBusPin in availablePwmPins
      modifies this`canCapability, this`availablePins, this`availablePwmPins, this`gpioPins, this`gpioPinsAlias, this`numberOfDigitalPins
      ensures canCapability == capability
      ensures capability.0 && capability.1 ==> availablePins == old(availablePins) - {canBusPin}
      ensures !(capability.0 && capability.1) ==> availablePins == old(availablePins) && gpioPins == old(gpioPins)
      ensures Valid()
    {
      canCapability := capability;
      if canCapability.0 && canCapability.1 {
        EraseCanPin();
      }
    }

    /** setAnalogToDigitalThreshold: stored as given. */
    method SetAnalogToDigitalThreshold(state: int)
      modifies this`analogToDigitalThreshold
      ensures analogToDigitalThreshold == state
    {
      analogToDigitalThreshold := state;
    }

    /**
     * analogToDigitalThreshold: -1 means not yet known, and the board is
     * asked; `reply` is its answer, `None` when the request fails, which
     * leaves -1 in place. A known threshold is returned without asking.
     */
    method AnalogToDigitalThreshold(reply: Option<int>) returns (threshold: int)
      modifies this`analogToDigitalThreshold
      ensures old(analogToDigitalThreshold) != -1 ==> threshold == old(analogToDigitalThreshold)
      ensures old(analogToDigitalThreshold) == -1 && reply.None? ==> threshold == -1
      ensures old(analogToDigitalThreshold) == -1 && reply.Some? ==> threshold == reply.value
      ensures analogToDigitalThreshold == threshold
    {
      if analogToDigitalThreshold == -1 {
        if reply.None? {
          return analogToDigitalThreshold;
        } else {
          analogToDigitalThreshold := reply.value;
          return analogToDigitalThreshold;
        }
      } else {
        return analogToDigitalThreshold;
      }
    }

    /**
     * isValidDigitalOutputPin and isValidDigitalInputPin, which are the
     * same test: an analog pin of the board, or a pin still available.
     */
    function IsValidDigitalPin(pinNumber: int): (r: bool)
      reads this
      ensures Valid() && r ==> 2 <= pinNumber <= 19
      ensures 14 <= pinNumber <= 19 ==> r
      ensures Valid() && availablePins == AVAILABLE_PINS ==> (r <==> 2 <= pinNumber <= 19)
      ensures Valid() && availablePins != AVAILABLE_PINS ==> (r <==> 2 <= pinNumber <= 19 && pinNumber != canBusPin)
    {
      PinRanges(pinNumber);
      pinNumber in AVAILABLE_ANALOG_PINS || pinNumber in availablePins
    }
  }

  /**
   * After eraseCanPin the CAN pin is no longer a valid digital pin (unless
   * it is an analog one), yet isValidAnalogOutputPin, which reads the
   * board's fixed PWM table, still accepts it.
   */
  lemma ErasedCanPinStaysPwmValid(canBusPin: int, availablePins: set<int>)
    requires canBusPin in AVAILABLE_PWM_PINS && canBusPin !in availablePins
    ensures IsValidAnalogOutputPin(canBusPin)
    ensures !(canBusPin in AVAILABLE_ANALOG_PINS || canBusPin in availablePins)
  {
  }
}
