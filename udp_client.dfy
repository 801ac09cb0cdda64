/**
 * UDPClient: the line-ending codec (enumeration to terminator text and the
 * case-insensitive identifier lookup), the terminator appended by writeString,
 * and the client's guarded port-number setters. Sockets, name resolution and
 * the send retry loop are not part of this model; the write operations return
 * the text they hand to the socket.
 */
module UdpClient {
  import opened Wrappers
  import opened CppInt
  import opened StdString
  import opened GeneralUtilities
  import opened GeneralTemplates

  datatype LineEnding = LE_None | LE_CarriageReturn | LE_LineFeed | LE_CarriageReturnLineFeed

  /** The exceptions the modelled code throws. */
  datatype UdpError =
    | InvalidLineEnding(raw: string)
    | InvalidPortNumber(portNumber: int)

  const DEFAULT_PORT_NUMBER: uint16 := 8888
  const DEFAULT_TIMEOUT: nat := 100

  // ---------------------------------------------------------------- identifier lists

  function AvailableLineEndings(): seq<string> { ["None", "CR", "LF", "CRLF"] }

  function NoLineEndingIdentifiers(): seq<string>
  {
    ["n", "no", "none", "noline", "nolineending", "nolineendings"]
  }

  function CarriageReturnIdentifiers(): seq<string>
  {
    ["return", "carriagereturn", "carriage-return", "cr", "creturn"]
  }

  function LineFeedIdentifiers(): seq<string>
  {
    ["feed", "line", "linefeed", "line-feed", "lf", "f", "lfeed"]
  }

  function CarriageReturnLineFeedIdentifiers(): seq<string>
  {
    ["carriagereturnlinefeed", "crlf", "lfcr", "lfeedcreturn", "line-feed-carriage-return", "carriage-return-line-feed"]
  }

  /** The identifier list that names each line ending. */
  function Identifiers(lineEnding: LineEnding): seq<string>
  {
    match lineEnding
    case LE_None => NoLineEndingIdentifiers()
    case LE_CarriageReturn => CarriageReturnIdentifiers()
    case LE_LineFeed => LineFeedIdentifiers()
    case LE_CarriageReturnLineFeed => CarriageReturnLineFeedIdentifiers()
  }

  // ---------------------------------------------------------------- terminator text

  /** lineEndingToString: the terminator each line ending stands for. */
  function LineEndingToString(lineEnding: LineEnding): (r: string)
    ensures |r| <= 2 && forall i :: 0 <= i < |r| ==> r[i] == '\r' || r[i] == '\n'
    ensures (r == "") <==> lineEnding == LE_None
  {
    match lineEnding
    case LE_CarriageReturn => "\r"
    case LE_LineFeed => "\n"
    case LE_CarriageReturnLineFeed => "\r\n"
    case LE_None => ""
  }

  /**
   * parseLineEnding: the same mapping as lineEndingToString; its final
   * `throw` is unreachable for the four enumerators.
   */
  function ParseLineEnding(lineEnding: LineEnding): (r: string)
    ensures r == LineEndingToString(lineEnding)
  {
    match lineEnding
    case LE_CarriageReturn => "\r"
    case LE_LineFeed => "\n"
    case LE_CarriageReturnLineFeed => "\r\n"
    case LE_None => ""
  }

  /** The line ending whose terminator is `text`, if there is one: the inverse of lineEndingToString. */
  function LineEndingOfText(text: string): (r: Option<LineEnding>)
    ensures r.Some? ==> LineEndingToString(r.value) == text
    ensures r.None? <==> forall le: LineEnding :: LineEndingToString(le) != text
  {
    match text
    case "" => Some(LE_None)
    case "\r" => Some(LE_CarriageReturn)
    case "\n" => Some(LE_LineFeed)
    case "\r\n" => Some(LE_CarriageReturnLineFeed)
    case _ => None
  }

  /** Distinct line endings have distinct terminators, so the text determines the line ending. */
  lemma LineEndingTextRoundTrip(lineEnding: LineEnding)
    ensures LineEndingOfText(LineEndingToString(lineEnding)) == Some(lineEnding)
  {
    match lineEnding
    case LE_None =>
    case LE_CarriageReturn => assert LineEndingToString(lineEnding) == "\r";
    case LE_LineFeed => assert LineEndingToString(lineEnding) == "\n";
    case LE_CarriageReturnLineFeed => assert LineEndingToString(lineEnding) == "\r\n";
  }

  // ---------------------------------------------------------------- identifier lookup

  /** parseLineEndingFromRaw as a function: the lists are searched in order on the lower-cased text. */
  function LineEndingFromRaw(lineEnding: string): (r: Result<LineEnding, UdpError>)
    ensures r.Ok? ==> ToLower(lineEnding) in Identifiers(r.value)
    ensures r.Err? <==> forall le: LineEnding :: ToLower(lineEnding) !in Identifiers(le)
    ensures r.Err? ==> r.error == InvalidLineEnding(lineEnding)
  {
    var copyString := ToLower(lineEnding);
    if copyString in NoLineEndingIdentifiers() then Ok(LE_None)
    else if copyString in CarriageReturnIdentifiers() then Ok(LE_CarriageReturn)
    else if copyString in LineFeedIdentifiers() then Ok(LE_LineFeed)
    else if copyString in CarriageReturnLineFeedIdentifiers() then Ok(LE_CarriageReturnLineFeed)
    else Err(InvalidLineEnding(lineEnding))
  }

  /** parseLineEndingFromRaw: one linear search per identifier list, in the order of the source. */
  method ParseLineEndingFromRaw(lineEnding: string) returns (r: Result<LineEnding, UdpError>)
    ensures r == LineEndingFromRaw(lineEnding)
  {
    var copyString := ToLower(lineEnding);
    var found := VectorContains(NoLineEndingIdentifiers(), copyString);
    if found {
      return Ok(LE_None);
    }
    found := VectorContains(CarriageReturnIdentifiers(), copyString);
    if found {
      return Ok(LE_CarriageReturn);
    }
    found := VectorContains(LineFeedIdentifiers(), copyString);
    if found {
      return Ok(LE_LineFeed);
    }
    found := VectorContains(CarriageReturnLineFeedIdentifiers(), copyString);
    if found {
      return Ok(LE_CarriageReturnLineFeed);
    }
    return Err(InvalidLineEnding(lineEnding));
  }

  /** Every identifier is already lower case. */
  lemma IdentifiersAreLowerCase(lineEnding: LineEnding, s: string)
    requires s in Identifiers(lineEnding)
    ensures ToLower(s) == s
  {
    match lineEnding
    case LE_None => NoLineEndingIdentifiersAreLowerCase(s);
    case LE_CarriageReturn => CarriageReturnIdentifiersAreLowerCase(s);
    case LE_LineFeed => LineFeedIdentifiersAreLowerCase(s);
    case LE_CarriageReturnLineFeed => CarriageReturnLineFeedIdentifiersAreLowerCase(s);
  }

  lemma NoLineEndingIdentifiersAreLowerCase(s: string)
    requires s in NoLineEndingIdentifiers()
    ensures ToLower(s) == s
  {
  }

  lemma CarriageReturnIdentifiersAreLowerCase(s: string)
    requires s in CarriageReturnIdentifiers()
    ensures ToLower(s) == s
  {
  }

  lemma LineFeedIdentifiersAreLowerCase(s: string)
    requires s in LineFeedIdentifiers()
    ensures ToLower(s) == s
  {
  }

  lemma CarriageReturnLineFeedIdentifiersAreLowerCase(s: string)
    requires s in CarriageReturnLineFeedIdentifiers()
    ensures ToLower(s) == s
  {
  }

  /** No identifier appears in two lists, so the order of the search does not matter. */
  lemma IdentifierListsDisjoint(s: string)
    ensures s in CarriageReturnIdentifiers() ==> s !in NoLineEndingIdentifiers()
    ensures s in LineFeedIdentifiers() ==> s !in NoLineEndingIdentifiers() && s !in CarriageReturnIdentifiers()
    ensures s in CarriageReturnLineFeedIdentifiers() ==>
      s !in NoLineEndingIdentifiers() && s !in CarriageReturnIdentifiers() && s !in LineFeedIdentifiers()
  {
    if s in CarriageReturnIdentifiers() {
      CarriageReturnNotNone(s);
    }
    if s in LineFeedIdentifiers() {
      LineFeedNotEarlier(s);
    }
    if s in CarriageReturnLineFeedIdentifiers() {
      CarriageReturnLineFeedNotEarlier(s);
    }
  }

  lemma CarriageReturnNotNone(s: string)
    requires s in CarriageReturnIdentifiers()
    ensures s !in NoLineEndingIdentifiers()
  {
  }

  lemma LineFeedNotEarlier(s: string)
    requires s in LineFeedIdentifiers()
    ensures s !in NoLineEndingIdentifiers() && s !in CarriageReturnIdentifiers()
  {
  }

  lemma CarriageReturnLineFeedNotEarlier(s: string)
    requires s in CarriageReturnLineFeedIdentifiers()
    ensures s !in NoLineEndingIdentifiers() && s !in CarriageReturnIdentifiers() && s !in LineFeedIdentifiers()
  {
  }

  /** A text whose lower-case form is in a line ending's list parses to that line ending. */
  lemma IdentifierParses(lineEnding: LineEnding, raw: string)
    requires ToLower(raw) in Identifiers(lineEnding)
    ensures LineEndingFromRaw(raw) == Ok(lineEnding)
  {
    IdentifierListsDisjoint(ToLower(raw));
  }

  /** Each identifier, exactly as listed, parses to its line ending. */
  lemma ListedIdentifierParses(lineEnding: LineEnding, s: string)
    requires s in Identifiers(lineEnding)
    ensures LineEndingFromRaw(s) == Ok(lineEnding)
  {
    IdentifiersAreLowerCase(lineEnding, s);
    IdentifierParses(lineEnding, s);
  }

  /** The lookup ignores case: a text parses exactly as its lower-case form does. */
  lemma LineEndingFromRawIgnoresCase(raw: string)
    ensures LineEndingFromRaw(raw).Ok? == LineEndingFromRaw(ToLower(raw)).Ok?
    ensures LineEndingFromRaw(raw).Ok? ==> LineEndingFromRaw(raw) == LineEndingFromRaw(ToLower(raw))
  {
    ToLowerIdempotent(raw);
  }

  /** The four names offered to the user ("None", "CR", "LF", "CRLF") parse to their line endings. */
  lemma AvailableLineEndingsParse()
    ensures LineEndingFromRaw(AvailableLineEndings()[0]) == Ok(LE_None)
    ensures LineEndingFromRaw(AvailableLineEndings()[1]) == Ok(LE_CarriageReturn)
    ensures LineEndingFromRaw(AvailableLineEndings()[2]) == Ok(LE_LineFeed)
    ensures LineEndingFromRaw(AvailableLineEndings()[3]) == Ok(LE_CarriageReturnLineFeed)
  {
    AvailableNamesLowerCase();
    IdentifierParses(LE_None, "None");
    IdentifierParses(LE_CarriageReturn, "CR");
    IdentifierParses(LE_LineFeed, "LF");
    IdentifierParses(LE_CarriageReturnLineFeed, "CRLF");
  }

  lemma AvailableNamesLowerCase()
    ensures ToLower("None") == "none" && ToLower("CR") == "cr"
    ensures ToLower("LF") == "lf" && ToLower("CRLF") == "crlf"
  {
  }

  /**
   * The lineEnding() getter parses the stored terminator text with the
   * identifier lookup; no terminator is an identifier, so the getter throws
   * whatever line ending was set.
   */
  lemma TerminatorIsNoIdentifier(lineEnding: LineEnding)
    ensures LineEndingFromRaw(LineEndingToString(lineEnding)).Err?
  {
    var text := LineEndingToString(lineEnding);
    assert ToLower(text) == text;
    forall le: LineEnding
      ensures text !in Identifiers(le)
    {
      forall s | s in Identifiers(le)
        ensures s != text
      {
        assert 'a' <= s[0] <= 'z';
      }
    }
  }

  // ---------------------------------------------------------------- writing

  /** The text writeString sends: the line ending is appended unless the string already ends with it. */
  function SentText(str: string, lineEnding: string): (r: string)
    ensures EndsWith(r, lineEnding)
    ensures str <= r && (r == str || r == str + lineEnding)
    ensures EndsWith(str, lineEnding) <==> r == str
  {
    AffixesOfConcatenation(str, lineEnding);
    if EndsWith(str, lineEnding) then str else str + lineEnding
  }

  /** Sending text that was already sent adds nothing. */
  lemma SentTextIdempotent(str: string, lineEnding: string)
    ensures SentText(SentText(str, lineEnding), lineEnding) == SentText(str, lineEnding)
  {
  }

  /**
   * The part of `s` a C string length counts: everything before the first NUL
   * character, or all of `s` when it holds none.
   */
  function UpToNul(s: string): (r: string)
    ensures r <= s
    ensures 0 as char !in r
    ensures |r| < |s| ==> s[|r|] == 0 as char
  {
    if |s| == 0 || s[0] == 0 as char then "" else [s[0]] + UpToNul(s[1..])
  }

  /** Text without a NUL is counted whole. */
  lemma {:induction false} UpToNulOfNulFree(s: string)
    requires 0 as char !in s
    ensures UpToNul(s) == s
  {
    if |s| > 0 {
      assert s[0] in s;
      assert 0 as char !in s[1..] by {
        forall i | 0 <= i < |s[1..]|
          ensures s[1..][i] != 0 as char
        {
          assert s[1..][i] == s[i + 1];
        }
      }
      UpToNulOfNulFree(s[1..]);
      assert s == [s[0]] + s[1..];
    }
  }

  /**
   * A NUL inside the string cuts the sent text there: what follows it, the
   * line ending included, never reaches the socket.
   */
  lemma UpToNulCutsAtFirstNul(str: string, lineEnding: string, k: nat)
    requires k < |str| && str[k] == 0 as char
    requires forall i :: 0 <= i < k ==> str[i] != 0 as char
    ensures UpToNul(SentText(str, lineEnding)) == str[..k]
  {
    var t := SentText(str, lineEnding);
    var r := UpToNul(t);
    assert t[k] == 0 as char;
    assert |r| == k by {
      if |r| > k {
        assert false;
      } else if |r| < k {
        assert false;
      }
    }
    assert r == t[..k] == str[..k];
  }

  /**
   * isValidPortNumber: strictly between 0 and the largest uint16_t, so of the
   * uint16_t values exactly 0 and 65535 are refused.
   */
  predicate IsValidPortNumber(portNumber: int): (b: bool)
    ensures 0 <= portNumber <= UINT16_MAX ==> (b <==> portNumber != 0 && portNumber != UINT16_MAX)
    ensures b ==> 0 <= portNumber <= UINT16_MAX
  {
    0 < portNumber < UINT16_MAX
  }

  class UdpClient {
    var portNumber: uint16
    var returnAddressPortNumber: uint16
    var timeout: nat
    var lineEnding: string

    /** The stored terminator is always the text of some line ending. */
    predicate Valid()
      reads this
    {
      LineEndingOfText(lineEnding).Some?
    }

    /** A client whose port numbers initialize has already accepted; see Create. */
    constructor (portNumber: uint16, returnAddressPortNumber: uint16)
      requires IsValidPortNumber(portNumber) && IsValidPortNumber(returnAddressPortNumber)
      ensures Valid()
      ensures this.portNumber == portNumber && this.returnAddressPortNumber == returnAddressPortNumber
      ensures timeout == DEFAULT_TIMEOUT && lineEnding == ""
    {
      this.portNumber := portNumber;
      this.returnAddressPortNumber := returnAddressPortNumber;
      timeout := DEFAULT_TIMEOUT;
      lineEnding := "";
    }

    /** setPortNumber: an invalid number throws and leaves the destination port as it was. */
    method SetPortNumber(newPortNumber: uint16) returns (r: Result<(), UdpError>)
      modifies this`portNumber
      ensures r.Ok? <==> IsValidPortNumber(newPortNumber)
      ensures r.Ok? ==> portNumber == newPortNumber
      ensures r.Err? ==> r.error == InvalidPortNumber(newPortNumber) && portNumber == old(portNumber)
    {
      if !IsValidPortNumber(newPortNumber) {
        return Err(InvalidPortNumber(newPortNumber));
      }
      portNumber := newPortNumber;
      return Ok(());
    }

    /** setReturnAddressPortNumber: the same guard, on the return address. */
    method SetReturnAddressPortNumber(newPortNumber: uint16) returns (r: Result<(), UdpError>)
      modifies this`returnAddressPortNumber
      ensures r.Ok? <==> IsValidPortNumber(newPortNumber)
      ensures r.Ok? ==> returnAddressPortNumber == newPortNumber
      ensures r.Err? ==> r.error == InvalidPortNumber(newPortNumber) && returnAddressPortNumber == old(returnAddressPortNumber)
    {
      if !IsValidPortNumber(newPortNumber) {
        return Err(InvalidPortNumber(newPortNumber));
      }
      returnAddressPortNumber := newPortNumber;
      return Ok(());
    }

    /** setTimeout: any value is accepted. */
    method SetTimeout(newTimeout: nat)
      modifies this`timeout
      ensures timeout == newTimeout
    {
      timeout := newTimeout;
    }

    /** setLineEnding: stores the terminator text. */
    method SetLineEnding(newLineEnding: LineEnding)
      modifies this`lineEnding
      ensures Valid() && lineEnding == LineEndingToString(newLineEnding)
    {
      lineEnding := ParseLineEnding(newLineEnding);
      LineEndingTextRoundTrip(newLineEnding);
    }

    /** The lineEnding() getter as written: the stored terminator goes through the identifier lookup and throws. */
    method LineEndingAsWritten() returns (r: Result<LineEnding, UdpError>)
      requires Valid()
      ensures r.Err? && r.error == InvalidLineEnding(lineEnding)
    {
      var stored := LineEndingOfText(lineEnding).value;
      TerminatorIsNoIdentifier(stored);
      r := ParseLineEndingFromRaw(lineEnding);
    }

    /** The lineEnding() getter as intended: the line ending whose terminator is stored. */
    method CurrentLineEnding() returns (le: LineEnding)
      requires Valid()
      ensures LineEndingToString(le) == lineEnding
    {
      le := LineEndingOfText(lineEnding).value;
    }

    /**
     * writeString: the line ending is appended unless the string already ends
     * with it, and `sendto` is given the result up to its first NUL.
     */
    method WriteString(str: string) returns (sent: string)
      ensures sent == UpToNul(SentText(str, lineEnding))
      ensures Valid() && 0 as char !in str ==> sent == SentText(str, lineEnding)
    {
      var copyString := str;
      if !EndsWith(copyString, lineEnding) {
        copyString := copyString + lineEnding;
      }
      sent := UpToNul(copyString);
      if Valid() && 0 as char !in str {
        assert 0 as char !in copyString by {
          assert forall i :: 0 <= i < |lineEnding| ==> lineEnding[i] == '\r' || lineEnding[i] == '\n';
        }
        UpToNulOfNulFree(copyString);
      }
    }

    /**
     * writeByte as written: `std::string{1, toSend}` sends the byte 0x01
     * before the character; a NUL character is cut off with everything after it.
     */
    method WriteByteAsWritten(toSend: char) returns (sent: string)
      ensures sent == UpToNul(SentText(BracedString(1 as char, toSend), lineEnding))
      ensures |sent| >= 1 && sent[0] == 1 as char
      ensures toSend == 0 as char ==> sent == [1 as char]
      ensures toSend != 0 as char ==> |sent| >= 2 && sent[1] == toSend
    {
      sent := WriteString(BracedString(1 as char, toSend));
      var t := SentText(BracedString(1 as char, toSend), lineEnding);
      assert t[0] == 1 as char && t[1] == toSend;
      if toSend == 0 as char {
        UpToNulCutsAtFirstNul(BracedString(1 as char, toSend), lineEnding, 1);
        assert BracedString(1 as char, toSend)[..1] == [1 as char];
      } else {
        assert |sent| != 0 && |sent| != 1;
      }
    }

    /**
     * writeByte as intended: the one-character string holding `toSend`; a NUL
     * character sends nothing, since the C string length stops before it.
     */
    method WriteByte(toSend: char) returns (sent: string)
      ensures sent == UpToNul(SentText([toSend], lineEnding))
      ensures toSend == 0 as char ==> sent == ""
      ensures toSend != 0 as char ==> |sent| >= 1 && sent[0] == toSend
    {
      sent := WriteString(FillString(1, toSend));
      assert FillString(1, toSend) == [toSend];
      if toSend == 0 as char {
        UpToNulCutsAtFirstNul([toSend], lineEnding, 0);
      } else {
        assert SentText([toSend], lineEnding)[0] == toSend;
      }
    }
  }

  /** The constructor's initialize step: either port number being invalid throws. */
  method Create(portNumber: uint16, returnAddressPortNumber: uint16) returns (r: Result<UdpClient, UdpError>)
    ensures r.Ok? <==> IsValidPortNumber(portNumber) && IsValidPortNumber(returnAddressPortNumber)
    ensures r.Err? && !IsValidPortNumber(portNumber) ==> r.error == InvalidPortNumber(portNumber)
    ensures r.Err? && IsValidPortNumber(portNumber) ==> r.error == InvalidPortNumber(returnAddressPortNumber)
    ensures r.Ok? ==> fresh(r.value) && r.value.Valid() && r.value.lineEnding == ""
    ensures r.Ok? ==> r.value.portNumber == portNumber && r.value.returnAddressPortNumber == returnAddressPortNumber
  {
    if !IsValidPortNumber(portNumber) {
      return Err(InvalidPortNumber(portNumber));
    }
    if !IsValidPortNumber(returnAddressPortNumber) {
      return Err(InvalidPortNumber(returnAddressPortNumber));
    }
    var client := new UdpClient(portNumber, returnAddressPortNumber);
    return Ok(client);
  }

  /** After setLineEnding(le), the intended getter gives back le. */
  method SetThenGetLineEnding(client: UdpClient, lineEnding: LineEnding) returns (le: LineEnding)
    modifies client
    ensures le == lineEnding
  {
    client.SetLineEnding(lineEnding);
    le := client.CurrentLineEnding();
    LineEndingTextRoundTrip(lineEnding);
  }
}
