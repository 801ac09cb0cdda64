/**
 * TCPServer's received-datagram queue and settings. The socket, the listener
 * thread and its mutex are abstracted away: every read starts with one
 * syncDatagramListener step whose recvfrom outcome is a parameter.
 */
module TcpServer {
  import opened Wrappers
  import opened CppInt
  import opened StdString

  const DEFAULT_PORT_NUMBER: uint16 := 8888
  const DEFAULT_TIMEOUT: nat := 100

  /** The parts of a `sockaddr_in` a datagram carries. */
  datatype SocketAddress = SocketAddress(family: nat, port: uint16, host: uint32)

  datatype Datagram = Datagram(socketAddress: SocketAddress, message: string)

  /** TCPDatagram{}: family, port and host all zero, empty message. */
  const DEFAULT_DATAGRAM: Datagram := Datagram(SocketAddress(0, 0, 0), "")

  /**
   * What one recvfrom call handed to syncDatagramListener: `NoData` for a
   * return value of -1, otherwise the byte count recvfrom returned and the
   * receive buffer read as a C string, that is cut at its first NUL.
   */
  datatype Reception = NoData | Received(sender: SocketAddress, count: nat, text: string)

  /** The values of EAGAIN and EWOULDBLOCK on Linux. */
  const EAGAIN: nat := 11
  const EWOULDBLOCK: nat := 11

  datatype ServerError = InvalidPortNumber(portNumber: int) | SocketTimeoutNotSet

  /**
   * isValidPortNumber: strictly between 0 and the largest uint16_t, so of the
   * uint16_t values exactly 0 and 65535 are refused.
   */
  predicate IsValidPortNumber(portNumber: int): (b: bool)
    ensures 0 <= portNumber <= UINT16_MAX ==> (b <==> portNumber != 0 && portNumber != UINT16_MAX)
    ensures b ==> 0 <= portNumber <= UINT16_MAX
  {
    0 < portNumber < UINT16_MAX
  }

  /**
   * syncDatagramListener as written: a byte count equal to EAGAIN or
   * EWOULDBLOCK is taken for an error code, so an 11-byte datagram is dropped;
   * otherwise a non-empty text joins the queue at the back.
   */
  function SyncedAsWritten(queue: seq<Datagram>, reception: Reception): (r: seq<Datagram>)
    ensures reception.Received? && (reception.count == EAGAIN || reception.count == EWOULDBLOCK) ==> r == queue
    ensures reception.Received? && reception.count != EAGAIN && reception.count != EWOULDBLOCK ==>
      r == Synced(queue, reception)
    ensures reception.NoData? ==> r == queue
  {
    match reception
    case NoData => queue
    case Received(sender, count, text) =>
      if count == EAGAIN || count == EWOULDBLOCK then queue
      else if text != "" then queue + [Datagram(sender, text)]
      else queue
  }

  /**
   * An eleven-byte datagram such as "hello world" never reaches the queue as
   * written, while the intended listener queues it.
   */
  lemma ElevenByteDatagramLostAsWritten(queue: seq<Datagram>, sender: SocketAddress)
    ensures SyncedAsWritten(queue, Received(sender, 11, "hello world")) == queue
    ensures Synced(queue, Received(sender, 11, "hello world")) == queue + [Datagram(sender, "hello world")]
  {
  }

  /**
   * syncDatagramListener as intended: only the return value -1 signals a
   * failure (EAGAIN and EWOULDBLOCK arrive in errno), and a non-empty
   * received text joins the queue at the back.
   */
  function Synced(queue: seq<Datagram>, reception: Reception): (r: seq<Datagram>)
    ensures queue <= r
    ensures |r| == |queue| + 1 <==> reception.Received? && reception.text != ""
    ensures |r| == |queue| || |r| == |queue| + 1
    ensures |r| > |queue| ==> r[|queue|] == Datagram(reception.sender, reception.text)
  {
    if reception.Received? && reception.text != "" then
      queue + [Datagram(reception.sender, reception.text)]
    else
      queue
  }

  /** The datagram at the front, or the default datagram when the queue is empty. */
  function Front(queue: seq<Datagram>): Datagram
  {
    if |queue| == 0 then DEFAULT_DATAGRAM else queue[0]
  }

  /** The queue after pop_front, where popping an empty queue is not attempted. */
  function Popped(queue: seq<Datagram>): seq<Datagram>
  {
    if |queue| == 0 then [] else queue[1..]
  }

  /** The character readByte and peekByte report: 0 for an empty front message. */
  function FrontByte(queue: seq<Datagram>): char
    requires |queue| > 0
  {
    if queue[0].message == "" then 0 as char else queue[0].message[0]
  }

  /** Total number of characters waiting in the queue. */
  function TotalLength(queue: seq<Datagram>): nat
  {
    if |queue| == 0 then 0 else |queue[0].message| + TotalLength(queue[1..])
  }

  /**
   * The queue after readByte: the front message loses its first character and
   * keeps its sender; an empty front message leaves the queue alone.
   */
  function ByteTaken(queue: seq<Datagram>): (r: seq<Datagram>)
    requires |queue| > 0
    ensures |r| == |queue| && r[1..] == queue[1..]
    ensures r[0].socketAddress == queue[0].socketAddress
    ensures queue[0].message == "" ==> r == queue
    ensures queue[0].message != "" ==> [FrontByte(queue)] + r[0].message == queue[0].message
  {
    var front := queue[0];
    if front.message == "" then queue
    else [Datagram(front.socketAddress, front.message[1..])] + queue[1..]
  }

  /**
   * The queue after putBack(str): `str` goes in front of the front message,
   * which keeps its sender; an empty `str` changes nothing.
   */
  function PrependText(queue: seq<Datagram>, str: string): (r: seq<Datagram>)
    requires str == "" || |queue| > 0
    ensures |r| == |queue|
    ensures str == "" ==> r == queue
    ensures |queue| > 0 ==> r[1..] == queue[1..] && r[0].socketAddress == queue[0].socketAddress
    ensures |queue| > 0 ==> r[0].message == str + queue[0].message
  {
    if str == "" then queue
    else [Datagram(queue[0].socketAddress, str + queue[0].message)] + queue[1..]
  }

  /** readByte takes exactly one character out of a queue whose front message is not empty. */
  lemma ByteTakenShortens(queue: seq<Datagram>)
    requires |queue| > 0 && queue[0].message != ""
    ensures TotalLength(ByteTaken(queue)) + 1 == TotalLength(queue)
  {
    var r := ByteTaken(queue);
    assert r[1..] == queue[1..];
    assert |r[0].message| + 1 == |queue[0].message|;
  }

  /** Putting back the character readByte returned restores the queue. */
  lemma ByteThenPutBackRestores(queue: seq<Datagram>)
    requires |queue| > 0 && queue[0].message != ""
    ensures PrependText(ByteTaken(queue), [FrontByte(queue)]) == queue
  {
    var r := PrependText(ByteTaken(queue), [FrontByte(queue)]);
    assert r[0] == queue[0];
    assert r == [r[0]] + r[1..];
    assert queue == [queue[0]] + queue[1..];
  }

  /**
   * putBack(char) as written builds `std::string{1, back}`, the two characters
   * 0x01 and `back`: the queue is not restored, and the next readByte yields 0x01.
   */
  lemma PutBackCharAsWrittenCorrupts(queue: seq<Datagram>)
    requires |queue| > 0 && queue[0].message != ""
    ensures PrependText(ByteTaken(queue), BracedString(1 as char, FrontByte(queue))) != queue
    ensures FrontByte(PrependText(ByteTaken(queue), BracedString(1 as char, FrontByte(queue)))) == 1 as char
  {
    var r := PrependText(ByteTaken(queue), BracedString(1 as char, FrontByte(queue)));
    assert |r[0].message| == |queue[0].message| + 1;
  }

  /** A datagram put back is the next one read, and the rest of the queue is as before. */
  lemma PutBackThenReadDatagram(queue: seq<Datagram>, datagram: Datagram, reception: Reception)
    ensures Front(Synced([datagram] + queue, reception)) == datagram
    ensures Popped(Synced([datagram] + queue, reception)) == Synced(queue, reception)
  {
    var r := Synced([datagram] + queue, reception);
    assert r[1..] == Synced(queue, reception);
  }

  /** readByte on a queue whose front message is `c` followed by `rest`. */
  lemma ByteOfFrontMessage(queue: seq<Datagram>, c: char, rest: string)
    requires |queue| > 0 && queue[0].message == [c] + rest
    ensures FrontByte(queue) == c && ByteTaken(queue)[0].message == rest
  {
    assert queue[0].message[1..] == rest;
  }

  class TcpServer {
    var portNumber: uint16
    var timeout: nat
    var isListening: bool
    var queue: seq<Datagram>
    var lineEnding: string

    /** A server whose port number initialize has already accepted; see Create. */
    constructor (portNumber: uint16)
      requires IsValidPortNumber(portNumber)
      ensures this.portNumber == portNumber && timeout == DEFAULT_TIMEOUT
      ensures !isListening && queue == [] && lineEnding == ""
    {
      this.portNumber := portNumber;
      timeout := DEFAULT_TIMEOUT;
      isListening := false;
      queue := [];
      lineEnding := "";
    }

    /** setPortNumber: an invalid number throws and leaves the port as it was. */
    method SetPortNumber(newPortNumber: uint16) returns (r: Result<(), ServerError>)
      modifies this`portNumber
      ensures r.Ok? <==> IsValidPortNumber(newPortNumber)
      ensures r.Ok? ==> portNumber == newPortNumber
      ensures r.Err? ==> r.error == InvalidPortNumber(newPortNumber) && portNumber == old(portNumber)
    {
      if !IsValidPortNumber(newPortNumber) {
        return Err(InvalidPortNumber(newPortNumber));
      }
      portNumber := newPortNumber;
      return Ok(());
    }

    /**
     * setTimeout: a negative value is stored as 0; when setsockopt refuses the
     * receive timeout the previous value comes back and the call throws.
     */
    method SetTimeout(newTimeout: int, socketOptionFails: bool) returns (r: Result<(), ServerError>)
      modifies this`timeout
      ensures r.Ok? <==> !socketOptionFails
      ensures r.Ok? && newTimeout >= 0 ==> timeout == newTimeout
      ensures r.Ok? && newTimeout < 0 ==> timeout == 0
      ensures r.Err? ==> r.error == SocketTimeoutNotSet && timeout == old(timeout)
    {
      var tempTimeout := timeout;
      if newTimeout < 0 {
        timeout := 0;
      } else {
        timeout := newTimeout;
      }
      if socketOptionFails {
        timeout := tempTimeout;
        return Err(SocketTimeoutNotSet);
      }
      return Ok(());
    }

    /** flushRXTX (and flushRX, flushTX): every queued datagram is dropped. */
    method FlushRXTX()
      modifies this`queue
      ensures queue == []
    {
      queue := [];
    }

    method SetLineEnding(newLineEnding: string)
      modifies this`lineEnding
      ensures lineEnding == newLineEnding
    {
      lineEnding := newLineEnding;
    }

    /** syncDatagramListener as intended: one recvfrom, whose non-empty text is queued at the back whatever its length. */
    method SyncDatagramListener(reception: Reception)
      modifies this`queue
      ensures queue == Synced(old(queue), reception)
    {
      if reception.Received? && reception.text != "" {
        queue := queue + [Datagram(reception.sender, reception.text)];
      }
    }

    /** peek: the front message, or "" for an empty queue; nothing is removed. */
    method Peek(reception: Reception) returns (message: string)
      modifies this`queue
      ensures queue == Synced(old(queue), reception)
      ensures message == Front(queue).message
    {
      SyncDatagramListener(reception);
      if |queue| == 0 {
        return "";
      }
      return queue[0].message;
    }

    /** peekDatagram: the front datagram, or the default one; nothing is removed. */
    method PeekDatagram(reception: Reception) returns (datagram: Datagram)
      modifies this`queue
      ensures queue == Synced(old(queue), reception)
      ensures datagram == Front(queue)
    {
      SyncDatagramListener(reception);
      if |queue| == 0 {
        return DEFAULT_DATAGRAM;
      }
      return queue[0];
    }

    /** peekByte: the first character of the front message, or 0; nothing is removed. */
    method PeekByte(reception: Reception) returns (c: char)
      modifies this`queue
      ensures queue == Synced(old(queue), reception)
      ensures |queue| == 0 ==> c == 0 as char
      ensures |queue| > 0 ==> c == FrontByte(queue)
    {
      SyncDatagramListener(reception);
      if |queue| == 0 {
        return 0 as char;
      }
      if |queue[0].message| == 0 {
        return 0 as char;
      }
      return queue[0].message[0];
    }

    /**
     * readByte: takes the first character of the front message. The source reads
     * front() without checking, so the queue must not be empty after the sync.
     */
    method ReadByte(reception: Reception) returns (c: char)
      requires |Synced(queue, reception)| > 0
      modifies this`queue
      ensures c == FrontByte(Synced(old(queue), reception))
      ensures queue == ByteTaken(Synced(old(queue), reception))
    {
      SyncDatagramListener(reception);
      var str := queue[0].message;
      if |str| == 0 {
        return 0 as char;
      }
      var charToReturn := str[0];
      var newDatagramMessage := str[1..];
      var newDatagramAddress := queue[0].socketAddress;
      queue := queue[1..];
      queue := [Datagram(newDatagramAddress, newDatagramMessage)] + queue;
      return charToReturn;
    }

    /** readDatagram: pops and returns the front datagram, or the default one. */
    method ReadDatagram(reception: Reception) returns (datagram: Datagram)
      modifies this`queue
      ensures datagram == Front(Synced(old(queue), reception))
      ensures queue == Popped(Synced(old(queue), reception))
    {
      SyncDatagramListener(reception);
      if |queue| == 0 {
        return DEFAULT_DATAGRAM;
      }
      datagram := queue[0];
      queue := queue[1..];
    }

    /** readLine: pops and returns the front message, or "" for an empty queue. */
    method ReadLine(reception: Reception) returns (line: string)
      modifies this`queue
      ensures line == Front(Synced(old(queue), reception)).message
      ensures queue == Popped(Synced(old(queue), reception))
    {
      SyncDatagramListener(reception);
      if |queue| == 0 {
        return "";
      }
      line := queue[0].message;
      queue := queue[1..];
    }

    /** readUntil: readLine with the line ending swapped out and then restored. */
    method ReadUntil(until: string, reception: Reception) returns (line: string)
      modifies this`queue, this`lineEnding
      ensures line == Front(Synced(old(queue), reception)).message
      ensures queue == Popped(Synced(old(queue), reception))
      ensures lineEnding == old(lineEnding)
    {
      var tempLineEnding := lineEnding;
      lineEnding := until;
      line := ReadLine(reception);
      lineEnding := tempLineEnding;
    }

    /** putBack(datagram): the datagram becomes the front of the queue. */
    method PutBackDatagram(datagram: Datagram)
      modifies this`queue
      ensures queue == [datagram] + old(queue)
    {
      queue := [datagram] + queue;
    }

    /**
     * putBack(str): `str` is prepended to the front message. The source reads
     * front() without checking, so a non-empty `str` needs a non-empty queue.
     */
    method PutBackString(str: string)
      requires str == "" || |queue| > 0
      modifies this`queue
      ensures queue == PrependText(old(queue), str)
    {
      if |str| == 0 {
        return;
      }
      var newDatagramMessage := str + queue[0].message;
      var newDatagramAddress := queue[0].socketAddress;
      queue := queue[1..];
      queue := [Datagram(newDatagramAddress, newDatagramMessage)] + queue;
    }

    /** putBack(char) as written: `std::string{1, back}` puts 0x01 and `back` in front. */
    method PutBackCharAsWritten(back: char)
      requires |queue| > 0
      modifies this`queue
      ensures queue == PrependText(old(queue), BracedString(1 as char, back))
      ensures FrontByte(queue) == 1 as char
    {
      PutBackString(BracedString(1 as char, back));
    }

    /** putBack(char) as intended: the one character `back` goes in front. */
    method PutBackChar(back: char)
      requires |queue| > 0
      modifies this`queue
      ensures queue == PrependText(old(queue), [back])
      ensures FrontByte(queue) == back
    {
      PutBackString(FillString(1, back));
      assert FillString(1, back) == [back];
    }
  }

  /**
   * The constructor's initialize step: an invalid port number throws. The
   * number is replaced by the default before the message is composed, so the
   * message reports the default port number.
   */
  method Create(portNumber: uint16) returns (r: Result<TcpServer, ServerError>)
    ensures r.Ok? <==> IsValidPortNumber(portNumber)
    ensures r.Err? ==> r.error == InvalidPortNumber(DEFAULT_PORT_NUMBER as int)
    ensures r.Ok? ==> fresh(r.value) && r.value.portNumber == portNumber
    ensures r.Ok? ==> r.value.queue == [] && r.value.timeout == DEFAULT_TIMEOUT
  {
    if !IsValidPortNumber(portNumber) {
      return Err(InvalidPortNumber(DEFAULT_PORT_NUMBER as int));
    }
    var server := new TcpServer(portNumber);
    return Ok(server);
  }

  /** readByte followed by the intended putBack(char) leaves the queue as the sync left it. */
  method ReadByteThenPutBack(server: TcpServer, reception: Reception) returns (c: char)
    requires |Synced(server.queue, reception)| > 0 && Synced(server.queue, reception)[0].message != ""
    modifies server
    ensures server.queue == Synced(old(server.queue), reception)
  {
    ghost var synced := Synced(server.queue, reception);
    c := server.ReadByte(reception);
    server.PutBackChar(c);
    ByteThenPutBackRestores(synced);
  }
}
