/**
 * TCPDuplex: a TCP client, a TCP server, or both behind one stream, chosen by
 * a TCPObjectType. The client part is kept as the values its accessors report
 * (TCPClient's sockets and name resolution are not modelled); the server part
 * is a TcpServer object.
 */
module TcpDuplex {
  import opened Wrappers
  import opened CppInt
  import opened StdString
  import opened GeneralTemplates
  import TcpServer

  datatype TcpObjectType = TCP_DUPLEX | TCP_SERVER | TCP_CLIENT

  datatype DuplexError =
    | UnknownIdentifier(raw: string)
    | InvalidPortNumber(portNumber: int)
    | ServerFailure(error: TcpServer.ServerError)

  const DEFAULT_CLIENT_PORT_NUMBER: uint16 := 8888
  const DEFAULT_CLIENT_RETURN_ADDRESS_PORT_NUMBER: uint16 := 1234
  const DEFAULT_CLIENT_TIMEOUT: uint32 := 100
  const DEFAULT_CLIENT_LINE_ENDING: string := "\r\n"
  const DEFAULT_SERVER_PORT_NUMBER: uint16 := TcpServer.DEFAULT_PORT_NUMBER
  const DEFAULT_SERVER_TIMEOUT: nat := TcpServer.DEFAULT_TIMEOUT

  /** The object types that own a client part. */
  predicate HasClient(objectType: TcpObjectType)
  {
    objectType == TCP_CLIENT || objectType == TCP_DUPLEX
  }

  /** The object types that own a server part. */
  predicate HasServer(objectType: TcpObjectType)
  {
    objectType == TCP_SERVER || objectType == TCP_DUPLEX
  }

  // ---------------------------------------------------------------- the TCPObjectType codec

  /** tcpObjectTypeToString: the display name of each object type. */
  function TcpObjectTypeToString(objectType: TcpObjectType): (r: string)
    ensures |r| == 10 && r[..4] == "TCP "
  {
    match objectType
    case TCP_DUPLEX => "TCP Duplex"
    case TCP_SERVER => "TCP Server"
    case TCP_CLIENT => "TCP Client"
  }

  predicate IsSpace(c: char)
  {
    c == ' '
  }

  /** What parseTCPObjectTypeFromRaw compares: the lower-cased text with every space removed. */
  function IdentifierKey(raw: string): string
  {
    KeepFailing(ToLower(raw), IsSpace)
  }

  /** The object type a key names, if any. */
  function TcpObjectTypeOfKey(key: string): Option<TcpObjectType>
  {
    if key == "tcpduplex" then Some(TCP_DUPLEX)
    else if key == "tcpserver" then Some(TCP_SERVER)
    else if key == "tcpclient" then Some(TCP_CLIENT)
    else None
  }

  /** parseTCPObjectTypeFromRaw as a function: an unknown identifier throws. */
  function TcpObjectTypeFromRaw(raw: string): (r: Result<TcpObjectType, DuplexError>)
    ensures r.Ok? ==> IdentifierKey(raw) in {"tcpduplex", "tcpserver", "tcpclient"}
    ensures r.Err? <==> IdentifierKey(raw) !in {"tcpduplex", "tcpserver", "tcpclient"}
    ensures r.Err? ==> r.error == UnknownIdentifier(raw)
  {
    match TcpObjectTypeOfKey(IdentifierKey(raw))
    case Some(objectType) => Ok(objectType)
    case None => Err(UnknownIdentifier(raw))
  }

  /** parseTCPObjectTypeFromRaw: lower-cases, drops spaces in a loop, then compares. */
  method ParseTcpObjectTypeFromRaw(tcpObjectType: string) returns (r: Result<TcpObjectType, DuplexError>)
    ensures r == TcpObjectTypeFromRaw(tcpObjectType)
  {
    var copyString := ToLower(tcpObjectType);
    var secondCopy := "";
    var i := 0;
    while i < |copyString|
      invariant 0 <= i <= |copyString|
      invariant secondCopy == KeepFailing(copyString[..i], IsSpace)
    {
      KeepFailingStep(copyString, i, IsSpace);
      if copyString[i] != ' ' {
        secondCopy := secondCopy + [copyString[i]];
      }
      i := i + 1;
    }
    assert copyString[..i] == copyString;
    if secondCopy == "tcpduplex" {
      return Ok(TCP_DUPLEX);
    } else if secondCopy == "tcpserver" {
      return Ok(TCP_SERVER);
    } else if secondCopy == "tcpclient" {
      return Ok(TCP_CLIENT);
    }
    return Err(UnknownIdentifier(tcpObjectType));
  }

  /** The key of a display name is its two words run together in lower case. */
  lemma KeyOfDisplayName(word: string, lowerWord: string)
    requires |word| == |lowerWord| && forall i :: 0 <= i < |word| ==> ToLowerChar(word[i]) == lowerWord[i]
    requires forall i :: 0 <= i < |lowerWord| ==> lowerWord[i] != ' '
    ensures IdentifierKey("TCP " + word) == "tcp" + lowerWord
  {
    assert ToLower("TCP " + word) == "tcp" + " " + lowerWord;
    KeepFailingConcat("tcp" + " ", lowerWord, IsSpace);
    KeepFailingConcat("tcp", " ", IsSpace);
    KeepFailingOfFailing("tcp", IsSpace);
    KeepFailingOfFailing(lowerWord, IsSpace);
    assert KeepFailing(" ", IsSpace) == "";
  }

  /** The key of each display name. */
  lemma DisplayNameKeys()
    ensures IdentifierKey(TcpObjectTypeToString(TCP_DUPLEX)) == "tcpduplex"
    ensures IdentifierKey(TcpObjectTypeToString(TCP_SERVER)) == "tcpserver"
    ensures IdentifierKey(TcpObjectTypeToString(TCP_CLIENT)) == "tcpclient"
  {
    DisplayNameKey(TCP_DUPLEX, "Duplex", "duplex", "tcpduplex");
    DisplayNameKey(TCP_SERVER, "Server", "server", "tcpserver");
    DisplayNameKey(TCP_CLIENT, "Client", "client", "tcpclient");
  }

  lemma DisplayNameKey(objectType: TcpObjectType, word: string, lowerWord: string, key: string)
    requires TcpObjectTypeToString(objectType) == "TCP " + word
    requires |word| == |lowerWord| && forall i :: 0 <= i < |word| ==> ToLowerChar(word[i]) == lowerWord[i]
    requires forall i :: 0 <= i < |lowerWord| ==> lowerWord[i] != ' '
    requires key == "tcp" + lowerWord
    ensures IdentifierKey(TcpObjectTypeToString(objectType)) == key
  {
    KeyOfDisplayName(word, lowerWord);
  }

  /** Every display name parses back to its object type. */
  lemma TcpObjectTypeRoundTrip(objectType: TcpObjectType)
    ensures TcpObjectTypeFromRaw(TcpObjectTypeToString(objectType)) == Ok(objectType)
  {
    DisplayNameKeys();
    assert "tcpserver"[3] != "tcpduplex"[3];
    assert "tcpclient"[3] != "tcpduplex"[3] && "tcpclient"[3] != "tcpserver"[3];
  }

  /** Two texts with the same key parse alike: the same object type, or both throw. */
  predicate SameOutcome(raw: string, other: string)
  {
    TcpObjectTypeFromRaw(raw).Ok? == TcpObjectTypeFromRaw(other).Ok?
    && (TcpObjectTypeFromRaw(raw).Ok? ==> TcpObjectTypeFromRaw(raw).value == TcpObjectTypeFromRaw(other).value)
  }

  /** Texts with the same key parse alike. */
  lemma SameKeySameOutcome(raw: string, other: string)
    requires IdentifierKey(raw) == IdentifierKey(other)
    ensures SameOutcome(raw, other)
  {
  }

  /** Parsing ignores case. */
  lemma ParseIgnoresCase(raw: string)
    ensures SameOutcome(ToLower(raw), raw)
  {
    ToLowerIdempotent(raw);
    SameKeySameOutcome(ToLower(raw), raw);
  }

  /** Lower-casing works piece by piece over a concatenation. */
  lemma ToLowerConcat(front: string, back: string)
    ensures ToLower(front + back) == ToLower(front) + ToLower(back)
  {
    var l, r := ToLower(front + back), ToLower(front) + ToLower(back);
    assert |l| == |r|;
    forall i | 0 <= i < |l|
      ensures l[i] == r[i]
    {
      if i < |front| {
        assert (front + back)[i] == front[i];
      } else {
        assert (front + back)[i] == back[i - |front|];
      }
    }
  }

  /** Lower-casing leaves a space where it was. */
  lemma ToLowerAroundSpace(front: string, back: string)
    ensures ToLower(front + " " + back) == ToLower(front) + " " + ToLower(back)
  {
    ToLowerConcat(front + " ", back);
    ToLowerConcat(front, " ");
    assert ToLower(" ") == " ";
  }

  /** Dropping spaces from text with one more space gives the same result. */
  lemma KeepFailingDropsSpace(front: string, back: string)
    ensures KeepFailing(front + " " + back, IsSpace) == KeepFailing(front + back, IsSpace)
  {
    KeepFailingConcat(front + " ", back, IsSpace);
    KeepFailingConcat(front, " ", IsSpace);
    KeepFailingConcat(front, back, IsSpace);
    assert KeepFailing(" ", IsSpace) == "";
  }

  /** Removing one space leaves the key unchanged. */
  lemma KeyIgnoresSpace(front: string, back: string)
    ensures IdentifierKey(front + " " + back) == IdentifierKey(front + back)
  {
    ToLowerAroundSpace(front, back);
    ToLowerConcat(front, back);
    KeepFailingDropsSpace(ToLower(front), ToLower(back));
  }

  /** Parsing ignores a space anywhere in the text. */
  lemma ParseIgnoresSpace(front: string, back: string)
    ensures SameOutcome(front + " " + back, front + back)
  {
    KeyIgnoresSpace(front, back);
    SameKeySameOutcome(front + " " + back, front + back);
  }

  // ---------------------------------------------------------------- the duplex object

  /** What TCPDuplex reads back from its TCPClient. */
  datatype ClientPart = ClientPart(portNumber: uint16, returnAddressPortNumber: uint16, timeout: uint32, lineEnding: string)

  /** `unsigned long` handed to TCPClient's `unsigned int` timeout: the value modulo 2^32. */
  function ClientTimeoutOf(timeout: int): (r: uint32)
    ensures 0 <= timeout < UINT32_LIMIT ==> r == timeout
    ensures (r - timeout) % UINT32_LIMIT == 0
  {
    timeout % UINT32_LIMIT
  }

  class TcpDuplex {
    var objectType: TcpObjectType
    var client: Option<ClientPart>
    var server: TcpServer.TcpServer?

    /** A client part exactly for client and duplex objects, a server part exactly for server and duplex objects. */
    predicate Valid()
      reads this
    {
      (client.Some? <==> HasClient(objectType)) && (server != null <==> HasServer(objectType))
    }

    /**
     * The five-argument constructor, the one all the others delegate to. A duplex
     * object builds its server with the default port number, whatever
     * `serverPortNumber` says. The sockets' own failures are left to Create.
     */
    constructor (clientPortNumber: uint16, serverPortNumber: uint16, clientReturnAddressPortNumber: uint16,
                 objectType: TcpObjectType)
      requires HasClient(objectType) ==>
        TcpServer.IsValidPortNumber(clientPortNumber) && TcpServer.IsValidPortNumber(clientReturnAddressPortNumber)
      requires objectType == TCP_SERVER ==> TcpServer.IsValidPortNumber(serverPortNumber)
      ensures Valid() && this.objectType == objectType && (server != null ==> fresh(server))
      ensures ClientPortNumber() == (if HasClient(objectType) then clientPortNumber else 0)
      ensures ServerPortNumber() == (if objectType == TCP_SERVER then serverPortNumber
                                     else if objectType == TCP_DUPLEX then DEFAULT_SERVER_PORT_NUMBER else 0)
      ensures ClientTimeout() == (if HasClient(objectType) then DEFAULT_CLIENT_TIMEOUT else 0)
      ensures ServerTimeout() == (if HasServer(objectType) then DEFAULT_SERVER_TIMEOUT else 0)
    {
      this.objectType := objectType;
      if HasClient(objectType) {
        client := Some(ClientPart(clientPortNumber, clientReturnAddressPortNumber,
                                  DEFAULT_CLIENT_TIMEOUT, DEFAULT_CLIENT_LINE_ENDING));
      } else {
        client := None;
      }
      if HasServer(objectType) {
        if HasClient(objectType) {
          server := new TcpServer.TcpServer(DEFAULT_SERVER_PORT_NUMBER);
        } else {
          server := new TcpServer.TcpServer(serverPortNumber);
        }
      } else {
        server := null;
      }
    }

    /** clientPortNumber: 0 for an object without a client. */
    function ClientPortNumber(): (r: uint16)
      requires Valid()
      reads this
      ensures !HasClient(objectType) ==> r == 0
    {
      if HasClient(objectType) then client.value.portNumber else 0
    }

    /** serverPortNumber: 0 for an object without a server. */
    function ServerPortNumber(): (r: uint16)
      requires Valid()
      reads this, server
      ensures !HasServer(objectType) ==> r == 0
    {
      if HasServer(objectType) then server.portNumber else 0
    }

    /** clientTimeout: 0 for an object without a client. */
    function ClientTimeout(): (r: nat)
      requires Valid()
      reads this
      ensures !HasClient(objectType) ==> r == 0
      ensures r < UINT32_LIMIT
    {
      if HasClient(objectType) then client.value.timeout else 0
    }

    /** serverTimeout: 0 for an object without a server. */
    function ServerTimeout(): (r: nat)
      requires Valid()
      reads this, server
      ensures !HasServer(objectType) ==> r == 0
    {
      if HasServer(objectType) then server.timeout else 0
    }

    /**
     * timeout: the server's, the client's, or for a duplex object the larger of
     * the two (both are non-negative, so the mixed signed/unsigned comparison
     * agrees with the mathematical one).
     */
    function Timeout(): (r: nat)
      requires Valid()
      reads this, server
      ensures objectType == TCP_SERVER ==> r == ServerTimeout()
      ensures objectType == TCP_CLIENT ==> r == ClientTimeout()
      ensures r >= ClientTimeout() && r >= ServerTimeout()
      ensures r == ClientTimeout() || r == ServerTimeout()
    {
      match objectType
      case TCP_SERVER => server.timeout
      case TCP_CLIENT => client.value.timeout
      case TCP_DUPLEX =>
        if client.value.timeout > server.timeout then client.value.timeout else server.timeout
    }

    /** lineEnding: a duplex object reports the server's, a space, then the client's. */
    function LineEnding(): (r: string)
      requires Valid()
      reads this, server
      ensures objectType == TCP_SERVER ==> r == server.lineEnding
      ensures objectType == TCP_CLIENT ==> r == client.value.lineEnding
      ensures objectType == TCP_DUPLEX ==>
        var s := server.lineEnding;
        |r| == |s| + 1 + |client.value.lineEnding| && s <= r && r[|s|] == ' ' && r[|s| + 1..] == client.value.lineEnding
    {
      match objectType
      case TCP_SERVER => server.lineEnding
      case TCP_CLIENT => client.value.lineEnding
      case TCP_DUPLEX => server.lineEnding + " " + client.value.lineEnding
    }

    /** setLineEnding: every part present takes the new terminator. */
    method SetLineEnding(lineEnding: string)
      requires Valid()
      modifies this, server
      ensures Valid() && objectType == old(objectType) && server == old(server)
      ensures LineEnding() == (if objectType == TCP_DUPLEX then lineEnding + " " + lineEnding else lineEnding)
      ensures HasClient(objectType) ==> client == Some(old(client).value.(lineEnding := lineEnding))
      ensures server != null ==> server.lineEnding == lineEnding
      ensures server != null ==> server.portNumber == old(server.portNumber) && server.timeout == old(server.timeout)
      ensures server != null ==> server.queue == old(server.queue) && server.isListening == old(server.isListening)
    {
      if HasClient(objectType) {
        client := Some(client.value.(lineEnding := lineEnding));
      }
      if HasServer(objectType) {
        server.SetLineEnding(lineEnding);
      }
    }

    /** setClientPortNumber: ignored without a client; an invalid number throws and changes nothing. */
    method SetClientPortNumber(portNumber: uint16) returns (r: Result<(), DuplexError>)
      requires Valid()
      modifies this`client
      ensures Valid()
      ensures r.Err? <==> HasClient(objectType) && !TcpServer.IsValidPortNumber(portNumber)
      ensures r.Err? ==> r.error == InvalidPortNumber(portNumber) && client == old(client)
      ensures r.Ok? && HasClient(objectType) ==> client == Some(old(client).value.(portNumber := portNumber))
      ensures !HasClient(objectType) ==> client == old(client)
    {
      if HasClient(objectType) {
        if !TcpServer.IsValidPortNumber(portNumber) {
          return Err(InvalidPortNumber(portNumber));
        }
        client := Some(client.value.(portNumber := portNumber));
      }
      return Ok(());
    }

    /** setClientReturnAddressPortNumber: the same guard, on the return address. */
    method SetClientReturnAddressPortNumber(portNumber: uint16) returns (r: Result<(), DuplexError>)
      requires Valid()
      modifies this`client
      ensures Valid()
      ensures r.Err? <==> HasClient(objectType) && !TcpServer.IsValidPortNumber(portNumber)
      ensures r.Err? ==> r.error == InvalidPortNumber(portNumber) && client == old(client)
      ensures r.Ok? && HasClient(objectType) ==> client == Some(old(client).value.(returnAddressPortNumber := portNumber))
      ensures !HasClient(objectType) ==> client == old(client)
    {
      if HasClient(objectType) {
        if !TcpServer.IsValidPortNumber(portNumber) {
          return Err(InvalidPortNumber(portNumber));
        }
        client := Some(client.value.(returnAddressPortNumber := portNumber));
      }
      return Ok(());
    }

    /** setServerPortNumber: ignored without a server; otherwise the server's guarded setter. */
    method SetServerPortNumber(portNumber: uint16) returns (r: Result<(), DuplexError>)
      requires Valid()
      modifies server
      ensures r.Err? <==> HasServer(objectType) && !TcpServer.IsValidPortNumber(portNumber)
      ensures r.Err? ==> r.error == ServerFailure(TcpServer.InvalidPortNumber(portNumber))
      ensures ServerPortNumber() == (if r.Ok? && HasServer(objectType) then portNumber else old(ServerPortNumber()))
      ensures server != null ==> server.timeout == old(server.timeout) && server.lineEnding == old(server.lineEnding)
      ensures server != null ==> server.queue == old(server.queue) && server.isListening == old(server.isListening)
    {
      if HasServer(objectType) {
        var result := server.SetPortNumber(portNumber);
        if result.Err? {
          return Err(ServerFailure(result.error));
        }
      }
      return Ok(());
    }

    /** setClientTimeout: ignored without a client; the client keeps the value modulo 2^32. */
    method SetClientTimeout(timeout: int)
      requires Valid()
      modifies this`client
      ensures Valid()
      ensures ClientTimeout() == (if HasClient(objectType) then ClientTimeoutOf(timeout) else 0)
      ensures HasClient(objectType) ==> client == Some(old(client).value.(timeout := ClientTimeoutOf(timeout)))
      ensures !HasClient(objectType) ==> client == old(client)
    {
      if HasClient(objectType) {
        client := Some(client.value.(timeout := ClientTimeoutOf(timeout)));
      }
    }

    /** setServerTimeout: ignored without a server; otherwise the server's clamping setter. */
    method SetServerTimeout(timeout: int, socketOptionFails: bool) returns (r: Result<(), DuplexError>)
      requires Valid()
      modifies server
      ensures r.Err? <==> HasServer(objectType) && socketOptionFails
      ensures r.Err? ==> r.error == ServerFailure(TcpServer.SocketTimeoutNotSet) && ServerTimeout() == old(ServerTimeout())
      ensures r.Ok? && HasServer(objectType) ==> ServerTimeout() == (if timeout < 0 then 0 else timeout)
      ensures ServerPortNumber() == old(ServerPortNumber())
      ensures server != null ==> server.portNumber == old(server.portNumber) && server.lineEnding == old(server.lineEnding)
      ensures server != null ==> server.queue == old(server.queue) && server.isListening == old(server.isListening)
    {
      if HasServer(objectType) {
        var result := server.SetTimeout(timeout, socketOptionFails);
        if result.Err? {
          return Err(ServerFailure(result.error));
        }
      }
      return Ok(());
    }

    /**
     * setTimeout: sets whichever parts exist; a duplex object sets the client
     * first, so the client keeps the new value even when the server's throws.
     */
    method SetTimeout(timeout: int, socketOptionFails: bool) returns (r: Result<(), DuplexError>)
      requires Valid()
      modifies this`client, server
      ensures Valid()
      ensures r.Err? <==> HasServer(objectType) && socketOptionFails
      ensures ClientTimeout() == (if HasClient(objectType) then ClientTimeoutOf(timeout) else 0)
      ensures r.Ok? && HasServer(objectType) ==> ServerTimeout() == (if timeout < 0 then 0 else timeout)
      ensures r.Err? ==> ServerTimeout() == old(ServerTimeout())
      ensures HasClient(objectType) ==> client == Some(old(client).value.(timeout := ClientTimeoutOf(timeout)))
      ensures !HasClient(objectType) ==> client == old(client)
      ensures server != null ==> server.portNumber == old(server.portNumber) && server.lineEnding == old(server.lineEnding)
      ensures server != null ==> server.queue == old(server.queue) && server.isListening == old(server.isListening)
    {
      SetClientTimeout(timeout);
      r := SetServerTimeout(timeout, socketOptionFails);
    }

    /** flushRXTX: empties the server's queue; a client-only object has nothing to flush. */
    method FlushRXTX()
      requires Valid()
      modifies server
      ensures server != null ==> server.queue == []
      ensures server != null ==> server.portNumber == old(server.portNumber) && server.timeout == old(server.timeout)
      ensures server != null ==> server.lineEnding == old(server.lineEnding) && server.isListening == old(server.isListening)
    {
      if HasServer(objectType) {
        server.FlushRXTX();
      }
    }
  }

  /**
   * Building a TCPDuplex: the client's and the server's initialize reject invalid
   * port numbers, then setServerTimeout(DEFAULT_SERVER_TIMEOUT) may throw.
   */
  method Create(clientPortNumber: uint16, serverPortNumber: uint16, clientReturnAddressPortNumber: uint16,
                objectType: TcpObjectType, socketOptionFails: bool) returns (r: Result<TcpDuplex, DuplexError>)
    ensures r.Ok? <==>
      (HasClient(objectType) ==>
        TcpServer.IsValidPortNumber(clientPortNumber) && TcpServer.IsValidPortNumber(clientReturnAddressPortNumber))
      && (objectType == TCP_SERVER ==> TcpServer.IsValidPortNumber(serverPortNumber))
      && !(HasServer(objectType) && socketOptionFails)
    ensures r.Ok? ==> fresh(r.value) && r.value.Valid() && r.value.objectType == objectType
    ensures r.Ok? ==> r.value.Timeout() == (if objectType == TCP_CLIENT then DEFAULT_CLIENT_TIMEOUT as nat else DEFAULT_SERVER_TIMEOUT)
  {
    if HasClient(objectType) && !TcpServer.IsValidPortNumber(clientPortNumber) {
      return Err(InvalidPortNumber(clientPortNumber));
    }
    if HasClient(objectType) && !TcpServer.IsValidPortNumber(clientReturnAddressPortNumber) {
      return Err(InvalidPortNumber(clientReturnAddressPortNumber));
    }
    if objectType == TCP_SERVER && !TcpServer.IsValidPortNumber(serverPortNumber) {
      return Err(ServerFailure(TcpServer.InvalidPortNumber(DEFAULT_SERVER_PORT_NUMBER as int)));
    }
    var duplex := new TcpDuplex(clientPortNumber, serverPortNumber, clientReturnAddressPortNumber, objectType);
    var timeoutResult := duplex.SetServerTimeout(DEFAULT_SERVER_TIMEOUT, socketOptionFails);
    if timeoutResult.Err? {
      return Err(timeoutResult.error);
    }
    return Ok(duplex);
  }

  /** A negative timeout given to a duplex object: the server keeps 0, the client 2^32 - 1, and timeout() reports the latter. */
  method NegativeDuplexTimeout(duplex: TcpDuplex) returns (t: nat)
    requires duplex.Valid() && duplex.objectType == TCP_DUPLEX
    modifies duplex, duplex.server
    ensures t == UINT32_LIMIT - 1
  {
    var result := duplex.SetTimeout(-1, false);
    t := duplex.Timeout();
  }
}
