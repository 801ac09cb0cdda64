/**
 * SerialPort settings: the codecs between the StopBits, DataBits, Parity and
 * BaudRate enumerations and their text, port-name normalisation against the
 * POSIX device list, the guarded setters of an unopened port, and the sorted
 * list of ports a probe reports present. Opening, reading and writing the
 * device are not part of this model.
 */
module SerialPort {
  import opened Wrappers
  import opened StdString

  datatype StopBits = ONE | TWO
  datatype DataBits = FIVE | SIX | SEVEN | EIGHT
  datatype Parity = EVEN | ODD | NONE
  datatype BaudRate =
    BAUD50 | BAUD75 | BAUD110 | BAUD134 | BAUD150 | BAUD200 | BAUD300 | BAUD600 | BAUD1200 |
    BAUD1800 | BAUD2400 | BAUD4800 | BAUD9600 | BAUD19200 | BAUD38400 | BAUD57600 | BAUD115200 |
    BAUD230400 | BAUD460800 | BAUD500000 | BAUD576000 | BAUD921600 | BAUD1000000 | BAUD1152000 |
    BAUD1500000 | BAUD2000000 | BAUD2500000 | BAUD3000000 | BAUD3500000 | BAUD4000000

  /** The exceptions the settings code throws. */
  datatype SerialError =
    | InvalidBaudRate(raw: string)
    | InvalidDataBits(raw: string)
    | InvalidStopBits(raw: string)
    | InvalidParity(raw: string)
    | InvalidPortName(name: string)
    | PortIsOpen
    | InvalidTimeout(timeout: int)

  /** SerialPortNames() on POSIX systems. */
  function SerialPortNames(): seq<string> { [
    "/dev/ttyS0", "/dev/ttyS1", "/dev/ttyS2", "/dev/ttyS3", "/dev/ttyS4", "/dev/ttyS5",
    "/dev/ttyS6", "/dev/ttyS7", "/dev/ttyS8", "/dev/ttyS9", "/dev/ttyS10", "/dev/ttyS11",
    "/dev/ttyS12", "/dev/ttyS13", "/dev/ttyS14", "/dev/ttyS15", "/dev/ttyUSB0", "/dev/ttyUSB1",
    "/dev/ttyUSB2", "/dev/ttyUSB3", "/dev/ttyUSB4", "/dev/ttyUSB5", "/dev/ttyAMA0", "/dev/ttyAMA1",
    "/dev/ttyACM0", "/dev/ttyACM1", "/dev/ttyACM2", "/dev/ttyACM3", "/dev/ttyACM4", "/dev/ttyACM5",
    "/dev/ttyACM6", "/dev/ttyACM7", "/dev/rfserialm0", "/dev/rfserialm1", "/dev/irserialm0",
    "/dev/irserialm1", "/dev/cuau0", "/dev/cuau1", "/dev/cuau2", "/dev/cuau3", "/dev/cuaU0",
    "/dev/cuaU1", "/dev/cuaU2", "/dev/cuaU3"
  ] }

  const DEFAULT_DATA_BITS: DataBits := EIGHT
  const DEFAULT_STOP_BITS: StopBits := ONE
  const DEFAULT_PARITY: Parity := NONE
  const DEFAULT_BAUD_RATE: BaudRate := BAUD115200
  const DEFAULT_TIMEOUT: int := 20

  // ---------------------------------------------------------------- to text

  /** baudRateToString: the rate's decimal numeral, without leading zeros. */
  function BaudRateToString(baudRate: BaudRate): (r: string)
    ensures |r| > 0 && r[0] != '0'
    ensures forall i :: 0 <= i < |r| ==> '0' <= r[i] <= '9'
  {
    match baudRate
    case BAUD50 => "50"
    case BAUD75 => "75"
    case BAUD110 => "110"
    case BAUD134 => "134"
    case BAUD150 => "150"
    case BAUD200 => "200"
    case BAUD300 => "300"
    case BAUD600 => "600"
    case BAUD1200 => "1200"
    case BAUD1800 => "1800"
    case BAUD2400 => "2400"
    case BAUD4800 => "4800"
    case BAUD9600 => "9600"
    case BAUD19200 => "19200"
    case BAUD38400 => "38400"
    case BAUD57600 => "57600"
    case BAUD115200 => "115200"
    case BAUD230400 => "230400"
    case BAUD460800 => "460800"
    case BAUD500000 => "500000"
    case BAUD576000 => "576000"
    case BAUD921600 => "921600"
    case BAUD1000000 => "1000000"
    case BAUD1152000 => "1152000"
    case BAUD1500000 => "1500000"
    case BAUD2000000 => "2000000"
    case BAUD2500000 => "2500000"
    case BAUD3000000 => "3000000"
    case BAUD3500000 => "3500000"
    case BAUD4000000 => "4000000"
  }

  /** stopBitsToString: the digit "1" or "2". */
  function StopBitsToString(stopBits: StopBits): (r: string)
    ensures |r| == 1 && (r[0] == '1' <==> stopBits == ONE) && (r[0] == '2' <==> stopBits == TWO)
  {
    match stopBits
    case ONE => "1"
    case TWO => "2"
  }

  /** dataBitsToString: the digit of the bit count, "5" to "8". */
  function DataBitsToString(dataBits: DataBits): (r: string)
    ensures |r| == 1 && '5' <= r[0] <= '8'
    ensures r[0] == '8' <==> dataBits == EIGHT
    ensures r[0] == '5' <==> dataBits == FIVE
  {
    match dataBits
    case EIGHT => "8"
    case SEVEN => "7"
    case SIX => "6"
    case FIVE => "5"
  }

  /** parityToString: the capitalised English word. */
  function ParityToString(parity: Parity): (r: string)
    ensures |r| >= 3 && 'A' <= r[0] <= 'Z'
    ensures forall i :: 1 <= i < |r| ==> 'a' <= r[i] <= 'z'
  {
    match parity
    case EVEN => "Even"
    case ODD => "Odd"
    case NONE => "None"
  }

  // ---------------------------------------------------------------- from text

  /**
   * The if-chain of parseBaudRateFromRaw, applied to the already lower-cased
   * text; the comparisons are grouped by the length of the numeral, which
   * leaves the outcome of every comparison unchanged.
   */
  function BaudRateFromLowerCase(copyString: string): (r: Option<BaudRate>)
    ensures r.Some? ==> BaudRateToString(r.value) == copyString
  {
    if |copyString| <= 3 then ShortBaudRate(copyString)
    else if |copyString| <= 5 then MediumBaudRate(copyString)
    else if |copyString| == 6 then LongBaudRate(copyString)
    else LongestBaudRate(copyString)
  }

  function ShortBaudRate(copyString: string): (r: Option<BaudRate>)
    ensures r.Some? ==> BaudRateToString(r.value) == copyString
  {
    match copyString
    case "50" => Some(BAUD50)
    case "75" => Some(BAUD75)
    case "110" => Some(BAUD110)
    case "134" => Some(BAUD134)
    case "150" => Some(BAUD150)
    case "200" => Some(BAUD200)
    case "300" => Some(BAUD300)
    case "600" => Some(BAUD600)
    case _ => None
  }

  function MediumBaudRate(copyString: string): (r: Option<BaudRate>)
    ensures r.Some? ==> BaudRateToString(r.value) == copyString
  {
    match copyString
    case "1200" => Some(BAUD1200)
    case "1800" => Some(BAUD1800)
    case "2400" => Some(BAUD2400)
    case "4800" => Some(BAUD4800)
    case "9600" => Some(BAUD9600)
    case "19200" => Some(BAUD19200)
    case "38400" => Some(BAUD38400)
    case "57600" => Some(BAUD57600)
    case _ => None
  }

  function LongBaudRate(copyString: string): (r: Option<BaudRate>)
    ensures r.Some? ==> BaudRateToString(r.value) == copyString
  {
    match copyString
    case "115200" => Some(BAUD115200)
    case "230400" => Some(BAUD230400)
    case "460800" => Some(BAUD460800)
    case "500000" => Some(BAUD500000)
    case "576000" => Some(BAUD576000)
    case "921600" => Some(BAUD921600)
    case _ => None
  }

  function LongestBaudRate(copyString: string): (r: Option<BaudRate>)
    ensures r.Some? ==> BaudRateToString(r.value) == copyString
  {
    match copyString
    case "1000000" => Some(BAUD1000000)
    case "1152000" => Some(BAUD1152000)
    case "1500000" => Some(BAUD1500000)
    case "2000000" => Some(BAUD2000000)
    case "2500000" => Some(BAUD2500000)
    case "3000000" => Some(BAUD3000000)
    case "3500000" => Some(BAUD3500000)
    case "4000000" => Some(BAUD4000000)
    case _ => None
  }

  /** parseBaudRateFromRaw: the lower-cased text must be one of the rate numerals; anything else throws. */
  function ParseBaudRateFromRaw(baudRate: string): (r: Result<BaudRate, SerialError>)
    ensures r.Ok? ==> BaudRateToString(r.value) == ToLower(baudRate)
    ensures r.Err? <==> forall b: BaudRate :: BaudRateToString(b) != ToLower(baudRate)
    ensures r.Err? ==> r.error == InvalidBaudRate(baudRate)
  {
    match BaudRateFromLowerCase(ToLower(baudRate))
    case Some(b) => Ok(b)
    case None =>
      UnknownBaudRateText(ToLower(baudRate));
      Err(InvalidBaudRate(baudRate))
  }

  /** Text the if-chain does not recognise is no rate's text. */
  lemma UnknownBaudRateText(copyString: string)
    requires BaudRateFromLowerCase(copyString).None?
    ensures forall b: BaudRate :: BaudRateToString(b) != copyString
  {
    forall b: BaudRate
      ensures BaudRateToString(b) != copyString
    {
      BaudRateFromItsText(b);
    }
  }

  /** parseDataBitsFromRaw: a digit or the English word, in any case. */
  function ParseDataBitsFromRaw(dataBits: string): (r: Result<DataBits, SerialError>)
    ensures r.Ok? ==> ToLower(dataBits) == DataBitsToString(r.value) || ToLower(dataBits) == DataBitsWord(r.value)
    ensures r.Err? <==> forall d: DataBits :: ToLower(dataBits) != DataBitsToString(d) && ToLower(dataBits) != DataBitsWord(d)
    ensures r.Err? ==> r.error == InvalidDataBits(dataBits)
  {
    match DataBitsFromLowerCase(ToLower(dataBits))
    case Some(d) => Ok(d)
    case None => Err(InvalidDataBits(dataBits))
  }

  /** The if-chain of parseDataBitsFromRaw, applied to the already lower-cased text. */
  function DataBitsFromLowerCase(copyString: string): (r: Option<DataBits>)
    ensures r.Some? ==> copyString == DataBitsToString(r.value) || copyString == DataBitsWord(r.value)
    ensures r.None? <==> forall d: DataBits :: copyString != DataBitsToString(d) && copyString != DataBitsWord(d)
  {
    match copyString
    case "eight" | "8" => Some(EIGHT)
    case "seven" | "7" => Some(SEVEN)
    case "six" | "6" => Some(SIX)
    case "five" | "5" => Some(FIVE)
    case _ => None
  }

  function DataBitsWord(dataBits: DataBits): string
  {
    match dataBits
    case EIGHT => "eight"
    case SEVEN => "seven"
    case SIX => "six"
    case FIVE => "five"
  }

  /** parseStopBitsFromRaw: "1"/"one" or "2"/"two", in any case. */
  function ParseStopBitsFromRaw(stopBits: string): (r: Result<StopBits, SerialError>)
    ensures r == Ok(ONE) <==> ToLower(stopBits) in {"one", "1"}
    ensures r == Ok(TWO) <==> ToLower(stopBits) in {"two", "2"}
    ensures r.Err? ==> r.error == InvalidStopBits(stopBits)
  {
    match StopBitsFromLowerCase(ToLower(stopBits))
    case Some(b) => Ok(b)
    case None => Err(InvalidStopBits(stopBits))
  }

  /** The if-chain of parseStopBitsFromRaw, applied to the already lower-cased text. */
  function StopBitsFromLowerCase(copyString: string): (r: Option<StopBits>)
    ensures r == Some(ONE) <==> copyString in {"one", "1"}
    ensures r == Some(TWO) <==> copyString in {"two", "2"}
  {
    match copyString
    case "one" | "1" => Some(ONE)
    case "two" | "2" => Some(TWO)
    case _ => None
  }

  /** parseParityFromRaw: the word or its initial, in any case. */
  function ParseParityFromRaw(parity: string): (r: Result<Parity, SerialError>)
    ensures r == Ok(NONE) <==> ToLower(parity) in {"none", "n"}
    ensures r == Ok(EVEN) <==> ToLower(parity) in {"even", "e"}
    ensures r == Ok(ODD) <==> ToLower(parity) in {"odd", "o"}
    ensures r.Err? ==> r.error == InvalidParity(parity)
  {
    match ParityFromLowerCase(ToLower(parity))
    case Some(p) => Ok(p)
    case None => Err(InvalidParity(parity))
  }

  /** The if-chain of parseParityFromRaw, applied to the already lower-cased text. */
  function ParityFromLowerCase(copyString: string): (r: Option<Parity>)
    ensures r == Some(NONE) <==> copyString in {"none", "n"}
    ensures r == Some(EVEN) <==> copyString in {"even", "e"}
    ensures r == Some(ODD) <==> copyString in {"odd", "o"}
  {
    match copyString
    case "none" | "n" => Some(NONE)
    case "even" | "e" => Some(EVEN)
    case "odd" | "o" => Some(ODD)
    case _ => None
  }

  /** Every baud rate's text parses back to that rate. */
  lemma BaudRateRoundTrip(b: BaudRate)
    ensures ParseBaudRateFromRaw(BaudRateToString(b)) == Ok(b)
  {
    BaudRateIsNumeral(b);
    ToLowerOfLower(BaudRateToString(b));
    BaudRateFromItsText(b);
  }

  /** A rate's text is made of decimal digits only, so lower-casing leaves it alone. */
  lemma BaudRateIsNumeral(b: BaudRate)
    ensures forall i :: 0 <= i < |BaudRateToString(b)| ==> '0' <= BaudRateToString(b)[i] <= '9'
  {
  }

  lemma BaudRateFromItsText(b: BaudRate)
    ensures BaudRateFromLowerCase(BaudRateToString(b)) == Some(b)
  {
    var t := BaudRateToString(b);
    if |t| <= 3 {
      ShortBaudRateFromItsText(b);
    } else if |t| <= 5 {
      MediumBaudRateFromItsText(b);
    } else if |t| == 6 {
      LongBaudRateFromItsText(b);
    } else {
      LongestBaudRateFromItsText(b);
    }
  }

  lemma ShortBaudRateFromItsText(b: BaudRate)
    requires |BaudRateToString(b)| <= 3
    ensures ShortBaudRate(BaudRateToString(b)) == Some(b)
  {
  }

  lemma MediumBaudRateFromItsText(b: BaudRate)
    requires 3 < |BaudRateToString(b)| <= 5
    ensures MediumBaudRate(BaudRateToString(b)) == Some(b)
  {
  }

  lemma LongBaudRateFromItsText(b: BaudRate)
    requires |BaudRateToString(b)| == 6
    ensures LongBaudRate(BaudRateToString(b)) == Some(b)
  {
  }

  lemma LongestBaudRateFromItsText(b: BaudRate)
    requires |BaudRateToString(b)| > 6
    ensures LongestBaudRate(BaudRateToString(b)) == Some(b)
  {
  }

  /** Data bits, stop bits and parity texts parse back to their values. */
  lemma SettingsRoundTrip(d: DataBits, s: StopBits, p: Parity)
    ensures ParseDataBitsFromRaw(DataBitsToString(d)) == Ok(d)
    ensures ParseStopBitsFromRaw(StopBitsToString(s)) == Ok(s)
    ensures ParseParityFromRaw(ParityToString(p)) == Ok(p)
  {
    ToLowerOfLower(DataBitsToString(d));
    ToLowerOfLower(StopBitsToString(s));
    assert ToLower(ParityToString(p)) == match p case EVEN => "even" case ODD => "odd" case NONE => "none";
  }

  /**
   * The parsers ignore case: a text is accepted exactly when its lower-case
   * form is, and then both give the same value; a refusal names the text as given.
   */
  lemma ParsersIgnoreCase(raw: string)
    ensures ParseBaudRateFromRaw(raw).Ok? == ParseBaudRateFromRaw(ToLower(raw)).Ok?
    ensures ParseBaudRateFromRaw(raw).Ok? ==> ParseBaudRateFromRaw(raw).value == ParseBaudRateFromRaw(ToLower(raw)).value
    ensures ParseDataBitsFromRaw(raw).Ok? == ParseDataBitsFromRaw(ToLower(raw)).Ok?
    ensures ParseDataBitsFromRaw(raw).Ok? ==> ParseDataBitsFromRaw(raw).value == ParseDataBitsFromRaw(ToLower(raw)).value
    ensures ParseStopBitsFromRaw(raw).Ok? == ParseStopBitsFromRaw(ToLower(raw)).Ok?
    ensures ParseStopBitsFromRaw(raw).Ok? ==> ParseStopBitsFromRaw(raw).value == ParseStopBitsFromRaw(ToLower(raw)).value
    ensures ParseParityFromRaw(raw).Ok? == ParseParityFromRaw(ToLower(raw)).Ok?
    ensures ParseParityFromRaw(raw).Ok? ==> ParseParityFromRaw(raw).value == ParseParityFromRaw(ToLower(raw)).value
  {
    ToLowerIdempotent(raw);
  }

  // ---------------------------------------------------------------- port names

  /** The device path getPortNameAndNumber looks up: "/dev/tty" or "/dev/" is prefixed when "/dev/" is absent. */
  function NormalizedPortName(name: string): (r: string)
    ensures Contains(name, "/dev/") ==> r == name
    ensures !Contains(name, "/dev/") && !Contains(name, "tty") ==> r == "/dev/tty" + name
    ensures !Contains(name, "/dev/") && Contains(name, "tty") ==> r == "/dev/" + name
  {
    if Find(name, "/dev/").None? then
      if Find(name, "tty").None? then "/dev/tty" + name else "/dev/" + name
    else name
  }

  /** getPortNameAndNumber: the position of the normalised name in SerialPortNames(), or an error. */
  method GetPortNameAndNumber(name: string) returns (r: Result<(nat, string), SerialError>)
    ensures r.Ok? ==> r.value.0 < |SerialPortNames()| && SerialPortNames()[r.value.0] == r.value.1
    ensures r.Ok? ==> r.value.1 == NormalizedPortName(name) && r.value.1 !in SerialPortNames()[..r.value.0]
    ensures r.Err? <==> NormalizedPortName(name) !in SerialPortNames()
    ensures r.Err? ==> r.error == InvalidPortName(name)
  {
    var str := name;
    if Find(str, "/dev/").None? {
      if Find(str, "tty").None? {
        str := "/dev/tty" + str;
      } else {
        str := "/dev/" + str;
      }
    }
    var found := SearchNames(SerialPortNames(), str);
    if found.Some? {
      return Ok((found.value, str));
    }
    return Err(InvalidPortName(name));
  }

  /** The counted loop of getPortNameAndNumber: the first position holding `str`. */
  method SearchNames(names: seq<string>, str: string) returns (found: Option<nat>)
    ensures found == IndexOf(names, str)
  {
    var i := 0;
    while i < |names|
      invariant 0 <= i <= |names|
      invariant str !in names[..i]
    {
      if str == names[i] {
        assert names[..IndexOf(names, str).value] <= names[..i];
        return Some(i);
      }
      assert names[..i + 1] == names[..i] + [names[i]];
      i := i + 1;
    }
    assert names[..i] == names;
    return None;
  }

  /** A full device path is looked up as it is. */
  lemma FullPathIsNotPrefixed(name: string)
    requires "/dev/" <= name
    ensures NormalizedPortName(name) == name
  {
    assert OccursAt(name, "/dev/", 0);
  }

  /** A bare device suffix such as "USB0", with no '/' and no 't', gains the "/dev/tty" prefix. */
  lemma BareSuffixGainsPrefix(name: string)
    requires forall i :: 0 <= i < |name| ==> name[i] != '/' && name[i] != 't'
    ensures NormalizedPortName(name) == "/dev/tty" + name
  {
    forall j | 0 <= j && j + 3 <= |name|
      ensures !OccursAt(name, "tty", j)
    {
      assert name[j..j + 3][0] == name[j];
    }
    forall j | 0 <= j && j + 5 <= |name|
      ensures !OccursAt(name, "/dev/", j)
    {
      assert name[j..j + 5][0] == name[j];
    }
  }

  /** A "tty" name such as "ttyACM1", with no '/', gains only the "/dev/" prefix. */
  lemma TtyNameGainsDevPrefix(name: string)
    requires "tty" <= name && forall i :: 0 <= i < |name| ==> name[i] != '/'
    ensures NormalizedPortName(name) == "/dev/" + name
  {
    forall j | 0 <= j && j + 5 <= |name|
      ensures !OccursAt(name, "/dev/", j)
    {
      assert name[j..j + 5][0] == name[j];
    }
    assert OccursAt(name, "tty", 0);
  }

  // ---------------------------------------------------------------- the port

  class SerialPort {
    var portName: string
    var portNumber: nat
    var baudRate: BaudRate
    var stopBits: StopBits
    var dataBits: DataBits
    var parity: Parity
    var timeout: int
    var isOpen: bool

    /** A port whose name has already been resolved; see Open for the public constructors. */
    constructor (portName: string, portNumber: nat, baudRate: BaudRate, stopBits: StopBits, dataBits: DataBits, parity: Parity)
      ensures this.portName == portName && this.portNumber == portNumber
      ensures this.baudRate == baudRate && this.stopBits == stopBits
      ensures this.dataBits == dataBits && this.parity == parity
      ensures timeout == DEFAULT_TIMEOUT && !isOpen
    {
      this.portName := portName;
      this.portNumber := portNumber;
      this.baudRate := baudRate;
      this.stopBits := stopBits;
      this.dataBits := dataBits;
      this.parity := parity;
      timeout := DEFAULT_TIMEOUT;
      isOpen := false;
    }

    /** What every setting currently is, for the frame conditions below. */
    function Settings(): (BaudRate, StopBits, DataBits, Parity)
      reads this
    {
      (baudRate, stopBits, dataBits, parity)
    }

    /** setDataBits: refused while the port is open; otherwise only the data bits change. */
    method SetDataBits(newDataBits: DataBits) returns (r: Result<(), SerialError>)
      modifies this
      ensures old(isOpen) ==> r == Err(PortIsOpen) && Settings() == old(Settings())
      ensures !old(isOpen) ==> r.Ok? && Settings() == old((baudRate, stopBits, newDataBits, parity))
      ensures portName == old(portName) && portNumber == old(portNumber)
      ensures timeout == old(timeout) && isOpen == old(isOpen)
    {
      if !isOpen {
        dataBits := newDataBits;
        return Ok(());
      }
      return Err(PortIsOpen);
    }

    /** setBaudRate: refused while the port is open; otherwise only the baud rate changes. */
    method SetBaudRate(newBaudRate: BaudRate) returns (r: Result<(), SerialError>)
      modifies this
      ensures old(isOpen) ==> r == Err(PortIsOpen) && Settings() == old(Settings())
      ensures !old(isOpen) ==> r.Ok? && Settings() == old((newBaudRate, stopBits, dataBits, parity))
      ensures portName == old(portName) && portNumber == old(portNumber)
      ensures timeout == old(timeout) && isOpen == old(isOpen)
    {
      if !isOpen {
        baudRate := newBaudRate;
        return Ok(());
      }
      return Err(PortIsOpen);
    }

    /** setStopBits: refused while the port is open; otherwise only the stop bits change. */
    method SetStopBits(newStopBits: StopBits) returns (r: Result<(), SerialError>)
      modifies this
      ensures old(isOpen) ==> r == Err(PortIsOpen) && Settings() == old(Settings())
      ensures !old(isOpen) ==> r.Ok? && Settings() == old((baudRate, newStopBits, dataBits, parity))
      ensures portName == old(portName) && portNumber == old(portNumber)
      ensures timeout == old(timeout) && isOpen == old(isOpen)
    {
      if !isOpen {
        stopBits := newStopBits;
        return Ok(());
      }
      return Err(PortIsOpen);
    }

    /** setParity: refused while the port is open; otherwise only the parity changes. */
    method SetParity(newParity: Parity) returns (r: Result<(), SerialError>)
      modifies this
      ensures old(isOpen) ==> r == Err(PortIsOpen) && Settings() == old(Settings())
      ensures !old(isOpen) ==> r.Ok? && Settings() == old((baudRate, stopBits, dataBits, newParity))
      ensures portName == old(portName) && portNumber == old(portNumber)
      ensures timeout == old(timeout) && isOpen == old(isOpen)
    {
      if !isOpen {
        parity := newParity;
        return Ok(());
      }
      return Err(PortIsOpen);
    }

    /** setPortName: refused while open or for an unknown name; otherwise name and number are both replaced. */
    method SetPortName(name: string) returns (r: Result<(), SerialError>)
      modifies this
      ensures old(isOpen) ==> r == Err(PortIsOpen)
      ensures !old(isOpen) ==> (r.Ok? <==> NormalizedPortName(name) in SerialPortNames())
      ensures r.Ok? ==> (portName == NormalizedPortName(name) && portNumber < |SerialPortNames()| &&
        SerialPortNames()[portNumber] == portName)
      ensures r.Err? ==> portName == old(portName) && portNumber == old(portNumber)
      ensures Settings() == old(Settings()) && timeout == old(timeout) && isOpen == old(isOpen)
    {
      if isOpen {
        return Err(PortIsOpen);
      }
      var truePortNameAndNumber := GetPortNameAndNumber(name);
      match truePortNameAndNumber
      case Err(e) => return Err(e);
      case Ok((number, trueName)) =>
        portNumber := number;
        portName := trueName;
        return Ok(());
    }

    /** setTimeout: values below 1 are refused and leave the timeout as it was. */
    method SetTimeout(newTimeout: int) returns (r: Result<(), SerialError>)
      modifies this`timeout
      ensures newTimeout < 1 ==> r == Err(InvalidTimeout(newTimeout)) && timeout == old(timeout)
      ensures newTimeout >= 1 ==> r.Ok? && timeout == newTimeout
    {
      if newTimeout < 1 {
        return Err(InvalidTimeout(newTimeout));
      }
      timeout := newTimeout;
      return Ok(());
    }
  }

  /** The SerialPort constructors: the name is resolved first, and an unknown name throws. */
  method Open(name: string, baudRate: BaudRate, stopBits: StopBits, dataBits: DataBits, parity: Parity)
    returns (r: Result<SerialPort, SerialError>)
    ensures r.Ok? <==> NormalizedPortName(name) in SerialPortNames()
    ensures r.Ok? ==> fresh(r.value) && !r.value.isOpen && r.value.timeout == DEFAULT_TIMEOUT
    ensures r.Ok? ==> r.value.portName == NormalizedPortName(name) && r.value.Settings() == (baudRate, stopBits, dataBits, parity)
  {
    var truePortNameAndNumber := GetPortNameAndNumber(name);
    match truePortNameAndNumber
    case Err(e) => return Err(e);
    case Ok((number, trueName)) =>
      var port := new SerialPort(trueName, number, baudRate, stopBits, dataBits, parity);
      return Ok(port);
  }

  // ---------------------------------------------------------------- available ports

  /** std::string's operator<: lexicographic order of the characters. */
  predicate Less(a: string, b: string)
  {
    |b| > 0 && (|a| == 0 || a[0] < b[0] || (a[0] == b[0] && Less(a[1..], b[1..])))
  }

  lemma {:induction false} LessIrreflexive(a: string)
    ensures !Less(a, a)
  {
    if |a| > 0 {
      LessIrreflexive(a[1..]);
    }
  }

  lemma {:induction false} LessTransitive(a: string, b: string, c: string)
    requires Less(a, b) && Less(b, c)
    ensures Less(a, c)
  {
    if |a| > 0 && a[0] == b[0] && b[0] == c[0] {
      LessTransitive(a[1..], b[1..], c[1..]);
    }
  }

  lemma {:induction false} LessTotal(a: string, b: string)
    requires a != b
    ensures Less(a, b) || Less(b, a)
  {
    if |a| > 0 && |b| > 0 && a[0] == b[0] {
      assert a == [a[0]] + a[1..] && b == [b[0]] + b[1..];
      LessTotal(a[1..], b[1..]);
    }
  }

  /** Strictly increasing: sorted and free of duplicates, as a std::set iterates. */
  predicate StrictlySorted(s: seq<string>)
  {
    forall i, j :: 0 <= i < j < |s| ==> Less(s[i], s[j])
  }

  /** std::set<std::string>::emplace on the set's ordered contents. */
  function SetInsert(s: seq<string>, x: string): (r: seq<string>)
    requires StrictlySorted(s)
    ensures StrictlySorted(r)
    ensures forall y :: y in r <==> y in s || y == x
  {
    if |s| == 0 then [x]
    else if s[0] == x then s
    else if Less(x, s[0]) then
      assert forall j :: 0 <= j < |s| ==> Less(x, s[j]) by {
        forall j | 0 < j < |s| { LessTransitive(x, s[0], s[j]); }
      }
      [x] + s
    else
      LessTotal(x, s[0]);
      var rest := SetInsert(s[1..], x);
      assert forall y :: y in rest ==> Less(s[0], y);
      [s[0]] + rest
  }

  /** The device paths availableSerialPorts probes, in order. */
  function ProbedPortNames(): seq<string> { [
    "/dev/ttyACM0", "/dev/ttyACM1", "/dev/ttyACM2", "/dev/ttyACM3", "/dev/ttyACM4", "/dev/ttyACM5",
    "/dev/ttyACM6", "/dev/ttyACM7", "/dev/ttyUSB0", "/dev/ttyUSB1", "/dev/ttyUSB2", "/dev/ttyUSB3",
    "/dev/ttyUSB4", "/dev/ttyUSB5", "/dev/ttyUSB6", "/dev/ttyUSB7"
  ] }

  /**
   * availableSerialPorts: keeps the probed names for which `present` holds
   * (the `ls` command succeeding), then lists them through a std::set.
   */
  method AvailableSerialPorts(present: string -> bool) returns (realReturn: seq<string>)
    ensures StrictlySorted(realReturn)
    ensures forall name :: name in realReturn <==> name in ProbedPortNames() && present(name)
  {
    var returnVector: seq<string> := [];
    var i := 0;
    while i < |ProbedPortNames()|
      invariant 0 <= i <= |ProbedPortNames()|
      invariant forall name :: name in returnVector <==> name in ProbedPortNames()[..i] && present(name)
    {
      assert ProbedPortNames()[..i + 1] == ProbedPortNames()[..i] + [ProbedPortNames()[i]];
      if present(ProbedPortNames()[i]) {
        returnVector := returnVector + [ProbedPortNames()[i]];
      }
      i := i + 1;
    }
    assert ProbedPortNames()[..i] == ProbedPortNames();
    var uniques: seq<string> := [];
    i := 0;
    while i < |returnVector|
      invariant 0 <= i <= |returnVector|
      invariant StrictlySorted(uniques)
      invariant forall name :: name in uniques <==> name in returnVector[..i]
    {
      assert returnVector[..i + 1] == returnVector[..i] + [returnVector[i]];
      uniques := SetInsert(uniques, returnVector[i]);
      i := i + 1;
    }
    assert returnVector[..i] == returnVector;
    realReturn := [];
    i := 0;
    while i < |uniques|
      invariant 0 <= i <= |uniques|
      invariant realReturn == uniques[..i]
    {
      realReturn := realReturn + [uniques[i]];
      i := i + 1;
    }
    assert uniques[..i] == uniques;
  }
}
