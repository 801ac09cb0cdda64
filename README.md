# tjlutils in Dafny

tjlutils is a C++ utility library. It covers string helpers, serial-port settings, UDP and TCP endpoints, CAN-bus frames, a loop unroller for byte-stream scripts, a fixed-width bitset, an event timer, month names, and the PC-side and firmware-side description of an Arduino Uno's pins. This project models the deterministic core of that library in Dafny and proves what its functions promise.

Each modelled source file becomes one Dafny module:

- `GeneralUtilities` (general_utilities.dfy): trim, strip, prefix and suffix tests, zero padding, hex text, digit conversion, file-name splitting.
- `GeneralTemplates` (general_templates.dfy): `parseToVector`, `findLastOfIf`, `stripFromStringIf`, `stripAllFromStringIf`, `vectorContains`.
- `FirmwareUtilities` (firmware_utilities.dfy): the firmware's parity tests, `endsWith`, `parseToVector`, `intExp`, `tAbs`, `tMax`, `tMin`.
- `SerialPort` (serial_port.dfy): the text codecs for baud rate, data bits, stop bits and parity; port-name normalisation; the guarded setters of a `SerialPort`; the port list.
- `CanPacket` (can_packet.dfy): `CanDataPacket`, the eight payload bytes of a CAN frame.
- `CanMessages` (can_message.dfy): `CanMessage`, its colon-separated hex text and its parser.
- `ScriptUnroller` (script_unroller.dfy): `IByteStream`'s unrolling of `LOOP_START`/`LOOP_END` blocks.
- `Bitsets` (bitset.dfy): `Bitset<N>` over an integer word, with its endianness.
- `UdpClient` (udp_client.dfy): line endings, their identifiers, the port guards and the bytes `writeString` hands to `sendto`, which stop at the first NUL character.
- `TcpServer` (tcp_server.dfy): the received-datagram queue and its reads, peeks and put-backs.
- `TcpDuplex` (tcp_duplex.dfy): the object type codec and how a duplex object delegates to its client and server.
- `Gpio` (gpio.dfy): a firmware GPIO pin's soft state and its five EEPROM bytes.
- `DateTime` (date_time.dfy): `monthName` and `monthIndex`.
- `EventTimer` (event_timer.dfy): the pausable stopwatch and its split of elapsed time.
- `ArduinoUno` (arduino_uno.dfy): the Uno's pin tables, analog pin names, the alias maps and the removal of the CAN pin.

Three support modules hold what the C++ standard library provides:

- `Wrappers` holds `Option` and `Result`. A thrown exception becomes an `Err` that carries what the message reports.
- `CppInt` holds fixed-width integers, truncating division and bitwise OR.
- `StdString` holds `find`, `find_last_of`, `tolower` and `to_string`.

Members without a row in the table below are helpers. They include the rest of the three support modules and proof steps such as `Bitsets.SameEntries`.

The source's objects stay objects. A class whose methods update fields becomes a Dafny `class` with `modifies` frames. Each loop that builds a result becomes a method with invariants, and it is proved equal to a specification function. What the outside world supplies is passed in as a parameter:

- clock readings;
- pin levels and ADC samples;
- the outcome of a `recvfrom`;
- whether a socket option could be set;
- the board's reply to a request;
- the `stoi` a script uses.

## Model

| member | source | states |
|---|---|---|
| GeneralUtilities.TrimWhitespaceFromBeginning | generalutilities/src/generalutilities.cpp:218-228 | the result is a suffix of the input that is empty or does not start with a space, and every character removed was a space |
| GeneralUtilities.TrimWhitespaceFromEnd | generalutilities/src/generalutilities.cpp:230-240 | the result is a prefix of the input that is empty or does not end with a space, and every character removed was a space |
| GeneralUtilities.TrimWhitespace | generalutilities/src/generalutilities.cpp:207-216 | the result is a slice of the input with no space at either end, and everything outside that slice is spaces |
| GeneralUtilities.IsWhitespace | generalutilities/src/generalutilities.cpp:242-250 | true exactly when every character code is at most 32 |
| GeneralUtilities.TWhitespace | generalutilities/src/generalutilities.cpp:296-303 | exactly `howMuch` characters, all spaces |
| GeneralUtilities.StripFromString | generalutilities/src/generalutilities.cpp:257-272 | the input unchanged when the pattern does not occur; otherwise the input with exactly its first occurrence cut out |
| GeneralUtilities.StripAll | generalutilities/src/generalutilities.cpp:279-289 | repeated stripping of a non-empty pattern ends with a string that contains no occurrence of it and is no longer than the input |
| GeneralUtilities.StripAllFromString | generalutilities/src/generalutilities.cpp:279-289 | the loop computes the repeated stripping, so its result contains no occurrence of the non-empty pattern |
| GeneralUtilities.StripAllIdempotent | generalutilities/src/generalutilities.cpp:279-289 | text without the pattern is left unchanged, so stripping twice is stripping once |
| GeneralUtilities.EmptyPatternMakesNoProgress | generalutilities/src/generalutilities.cpp:279-289 | the empty pattern is found at position 0 of every string and stripping it changes nothing, so the source's loop never ends on it |
| GeneralUtilities.StartsWith | generalutilities/src/generalutilities.cpp:492-495 | true exactly when the match string is a prefix |
| GeneralUtilities.EndsWith | generalutilities/src/generalutilities.cpp:465-472 | true exactly when the match string is a suffix |
| GeneralUtilities.AffixesOfConcatenation | generalutilities/src/generalutilities.cpp:465-495 | a concatenation starts with its front part and ends with its back part |
| GeneralUtilities.ZeroPadded | generalutilities/src/generalutilities.cpp:305-316 | the padded string is max(length, width) long, ends with the input and is '0' before it |
| GeneralUtilities.ToFixedWidth | generalutilities/src/generalutilities.cpp:305-316 | the insertion loop returns the zero-padded form |
| GeneralUtilities.IsDigit | generalutilities/src/generalutilities.cpp:434-437 | true exactly for '0' to '9' |
| GeneralUtilities.CharToInt | generalutilities/src/generalutilities.cpp:323-338 | a digit maps to its value, any other character to 0 |
| GeneralUtilities.IntToChar | generalutilities/src/generalutilities.cpp:340-355 | 0 to 9 map to their digit, any other value to '0' |
| GeneralUtilities.DigitRoundTrip | generalutilities/src/generalutilities.cpp:323-355 | charToInt undoes intToChar on 0 to 9, and intToChar undoes charToInt on the digits |
| GeneralUtilities.SplitFileName | generalutilities/src/generalutilities.cpp:415-432 | without a '/' or '\\' the pair is ("", ""); otherwise the path splits at the last separator into directory and file name |
| GeneralUtilities.HexDigits | generalutilities/src/generalutilities.cpp:76-109 | lower-case hexadecimal digits, empty only for 0, with no leading zero |
| GeneralUtilities.HexString | generalutilities/src/generalutilities.cpp:76-109 | a non-empty string of lower-case hexadecimal digits that starts with '0' only when it is "0" |
| GeneralUtilities.HexValueOfHexDigits | generalutilities/src/generalutilities.cpp:76-109 | reading the digits back gives the number |
| GeneralUtilities.LargestDivisorIsMagnitude | generalutilities/src/generalutilities.cpp:89-104 | the `copy % 15 == 0` … `copy % 1 == 0` chain stops at the magnitude of the remainder |
| GeneralUtilities.DigitChainIsHexChar | generalutilities/src/generalutilities.cpp:89-104 | the chain inserts the hexadecimal digit of the remainder's magnitude, for negative remainders too |
| GeneralUtilities.DigitLoopStep | generalutilities/src/generalutilities.cpp:88-106 | one turn of the loop puts the digit of the remainder in front and drops one digit from the number |
| GeneralUtilities.ToHexString | generalutilities/src/generalutilities.cpp:76-109 | the counting loop and the insertion loop together return "0" for 0 and otherwise the lower-case hexadecimal digits of the magnitude |
| GeneralUtilities.HexValueOfHexString | generalutilities/src/generalutilities.cpp:76-109 | toHexString of n reads back as the magnitude of n |
| GeneralUtilities.HexStringToUInt | generalutilities/src/generalutilities.cpp:439-450 | a string of hexadecimal digits, with or without "0x", reads as its value when that fits in 32 bits |
| GeneralUtilities.HexStringToUChar | generalutilities/src/generalutilities.cpp:452-463 | the same value narrowed to 8 bits |
| GeneralUtilities.HexStringToUIntOfPrefixed | generalutilities/src/generalutilities.cpp:439-450 | "0x" followed by the digits of a 32-bit value reads back as that value |
| GeneralUtilities.HexStringToUIntOfPadded | generalutilities/src/generalutilities.cpp:439-450 | "0x" followed by the zero-padded toHexString of a 32-bit value reads back as the value |
| GeneralTemplates.DropLeadingDelimiter | generalutilities/include/generalutilities.h:376-380 | the text is unchanged, or it started with the delimiter and loses just that one character |
| GeneralTemplates.SplitPieces | generalutilities/include/generalutilities.h:385-395 | no piece holds the delimiter, and non-empty text gives at least one piece |
| GeneralTemplates.ParseToVectorSpec | generalutilities/include/generalutilities.h:371-397 | no piece holds the delimiter, and the vector is empty only when the text held a delimiter |
| GeneralTemplates.SplitPiecesStep | generalutilities/include/generalutilities.h:385-395 | one turn of the loop emits the text before the first delimiter and continues after it, or emits the whole rest |
| GeneralTemplates.ParseToVector | generalutilities/include/generalutilities.h:371-397 | the method returns the specified pieces |
| GeneralTemplates.SplitLoop | generalutilities/include/generalutilities.h:385-395 | the emplace loop produces the pieces of the split |
| GeneralTemplates.ParseWithoutDelimiter | generalutilities/include/generalutilities.h:381-384 | text without the delimiter comes back as a single element equal to the text |
| GeneralTemplates.JoinSplitPieces | generalutilities/include/generalutilities.h:385-395 | joining the pieces with the delimiter gives back text that does not end with it |
| GeneralTemplates.JoinParseToVector | generalutilities/include/generalutilities.h:371-397 | text that neither starts nor ends with the delimiter is recovered by joining its pieces |
| GeneralTemplates.SplitPiecesOfJoin | generalutilities/include/generalutilities.h:385-395 | non-empty pieces without the delimiter survive a join followed by the split loop |
| GeneralTemplates.ParseToVectorOfJoin | generalutilities/include/generalutilities.h:371-397 | non-empty pieces without the delimiter survive a join followed by parseToVector |
| GeneralTemplates.FindLastOfIf | generalutilities/include/generalutilities.h:348-357 | the result is the largest index satisfying the predicate, and none (npos) exactly when no element does |
| GeneralTemplates.FirstIndexWhere | generalutilities/include/generalutilities.h:196-208 | the first index satisfying the predicate, and none exactly when no character does |
| GeneralTemplates.StripFromStringIf | generalutilities/include/generalutilities.h:196-208 | the input unchanged when no character satisfies the predicate; otherwise only the first such character is removed |
| GeneralTemplates.KeepFailingKeepsExactlyFailing | generalutilities/include/generalutilities.h:211-220 | the kept characters all fail the predicate, and every failing character is kept as often as it occurs |
| GeneralTemplates.KeepFailingConcat | generalutilities/include/generalutilities.h:211-220 | filtering works piece by piece over a concatenation, so the order of the kept characters is the input's |
| GeneralTemplates.KeepFailingOfFailing | generalutilities/include/generalutilities.h:211-220 | text none of whose characters satisfies the predicate is kept whole |
| GeneralTemplates.StripAllFromStringIf | generalutilities/include/generalutilities.h:211-220 | the loop keeps exactly the characters failing the predicate, in order |
| GeneralTemplates.VectorContains | generalutilities/include/generalutilities.h:252-260 | true exactly when an equal element is in the vector |
| FirmwareUtilities.IsEvenlyDivisibleBy | arduino/firmware/src/firmwareutilities.cpp:5-11 | true exactly when neither argument is 0 and the magnitude of the divisor divides the magnitude of the number |
| FirmwareUtilities.DivisibilityIgnoresSign | arduino/firmware/src/firmwareutilities.cpp:5-11 | the sign of either argument makes no difference |
| FirmwareUtilities.IsEven | arduino/firmware/src/firmwareutilities.cpp:13-16 | true exactly for the non-zero even numbers |
| FirmwareUtilities.IsOdd | arduino/firmware/src/firmwareutilities.cpp:18-21 | true exactly for 0 and the odd numbers |
| FirmwareUtilities.ZeroIsOddAsWritten | arduino/firmware/src/firmwareutilities.cpp:5-21 | as written, 0 is odd and not even, the same parity as 1 |
| FirmwareUtilities.IsEvenIntended | arduino/firmware/src/firmwareutilities.cpp:13-16 | the intended test: 0 or a number the written test calls even |
| FirmwareUtilities.IsOddIntended | arduino/firmware/src/firmwareutilities.cpp:18-21 | the intended test: a non-zero number the written test calls odd |
| FirmwareUtilities.ParityAsIntended | arduino/firmware/src/firmwareutilities.cpp:13-21 | corrected, every number is exactly one of even and odd, parity alternates and ignores sign |
| FirmwareUtilities.EndsWithAsWritten | arduino/firmware/src/firmwareutilities.cpp:204-214 | locating the first occurrence only ever answers true for a real suffix |
| FirmwareUtilities.EndsWithAsWrittenMissesRepeat | arduino/firmware/src/firmwareutilities.cpp:204-214 | "abab" ends with "ab", yet the first-occurrence test says it does not |
| FirmwareUtilities.EndsWithAsIntended | arduino/firmware/src/firmwareutilities.cpp:204-214 | for a suffix that occurs nowhere earlier, the written test and the suffix test agree |
| FirmwareUtilities.ParseToVector | arduino/firmware/src/firmwareutilities.cpp:221-241 | the loop returns the pieces of the split |
| FirmwareUtilities.PiecesOfNothing | arduino/firmware/src/firmwareutilities.cpp:224-230 | "" and the lone delimiter give an empty vector |
| FirmwareUtilities.PiecesAgreeWithTemplate | arduino/firmware/src/firmwareutilities.cpp:221-241 | on every other input the firmware split equals the library's parseToVector |
| FirmwareUtilities.JoinPieces | arduino/firmware/src/firmwareutilities.cpp:221-241 | text that neither starts nor ends with the delimiter is recovered by joining its pieces |
| FirmwareUtilities.PowerAdd | arduino/firmware/src/firmwareutilities.cpp:402-412 | the power the loop computes adds exponents: b^(m+n) == b^m * b^n |
| FirmwareUtilities.IntExp | arduino/firmware/src/firmwareutilities.cpp:402-412 | exponent 0 gives 1, a positive exponent gives base^exponent, a negative exponent gives the base |
| FirmwareUtilities.TAbs | arduino/firmware/src/firmwareutilities.cpp:414-417 | the non-negative difference of the two values |
| FirmwareUtilities.TMax | arduino/firmware/src/firmwareutilities.cpp:419-422 | one of the two values, at least as large as both |
| FirmwareUtilities.TMin | arduino/firmware/src/firmwareutilities.cpp:424-427 | one of the two values, at most as large as both |
| FirmwareUtilities.DistanceIsMaxLessMin | arduino/firmware/src/firmwareutilities.cpp:414-427 | the difference is the larger less the smaller, is symmetric, and max + min is the sum |
| SerialPort.BaudRateToString | serialport/src/serialport.cpp:1135-1236 | the rate's decimal numeral, non-empty and without a leading zero; BaudRateRoundTrip parses it back |
| SerialPort.StopBitsToString | serialport/src/serialport.cpp:1237-1246 | "1" exactly for ONE and "2" exactly for TWO |
| SerialPort.DataBitsToString | serialport/src/serialport.cpp:1248-1261 | one digit from "5" to "8", "8" exactly for EIGHT and "5" exactly for FIVE; SettingsRoundTrip parses it back |
| SerialPort.ParityToString | serialport/src/serialport.cpp:1263-1274 | a capitalised word of at least three letters; SettingsRoundTrip parses it back |
| SerialPort.BaudRateFromLowerCase | serialport/src/serialport.cpp:1019-1081 | the POSIX if-chain only ever answers with the rate whose text is the input |
| SerialPort.ShortBaudRate | serialport/src/serialport.cpp:1019-1034 | the links of the chain for the up-to-three-digit rates answer only with the rate whose text is the input |
| SerialPort.MediumBaudRate | serialport/src/serialport.cpp:1035-1050 | the same for the four- and five-digit rates |
| SerialPort.LongBaudRate | serialport/src/serialport.cpp:1051-1062 | the same for the six-digit rates |
| SerialPort.LongestBaudRate | serialport/src/serialport.cpp:1063-1081 | the same for the seven-digit rates |
| SerialPort.ParseBaudRateFromRaw | serialport/src/serialport.cpp:980-1083 | the result's text is the lower-cased input; it throws exactly when no rate has that text, reporting the input |
| SerialPort.UnknownBaudRateText | serialport/src/serialport.cpp:1019-1081 | text the chain does not recognise is no rate's text |
| SerialPort.ParseDataBitsFromRaw | serialport/src/serialport.cpp:1085-1100 | the lower-cased input is the digit or the English word of the result; it throws exactly when it is neither for any width |
| SerialPort.DataBitsFromLowerCase | serialport/src/serialport.cpp:1089-1099 | the chain recognises exactly the digits and words of the widths |
| SerialPort.ParseStopBitsFromRaw | serialport/src/serialport.cpp:1102-1113 | ONE exactly for "one"/"1" and TWO exactly for "two"/"2" in any case; anything else throws |
| SerialPort.StopBitsFromLowerCase | serialport/src/serialport.cpp:1106-1112 | the chain recognises exactly "one", "1", "two" and "2" |
| SerialPort.ParseParityFromRaw | serialport/src/serialport.cpp:1115-1128 | NONE, EVEN and ODD exactly for their word or initial in any case; anything else throws |
| SerialPort.ParityFromLowerCase | serialport/src/serialport.cpp:1119-1127 | the chain recognises exactly the words and initials |
| SerialPort.BaudRateRoundTrip | serialport/src/serialport.cpp:1019-1081 | parseBaudRateFromRaw(baudRateToString(b)) == b for every POSIX rate |
| SerialPort.BaudRateIsNumeral | serialport/src/serialport.cpp:1171-1234 | every rate's text is decimal digits only, so lower-casing leaves it alone |
| SerialPort.BaudRateFromItsText | serialport/src/serialport.cpp:1019-1081 | the chain maps each rate's text back to the rate |
| SerialPort.SettingsRoundTrip | serialport/src/serialport.cpp:1085-1128 | data bits, stop bits and parity each parse back from their text |
| SerialPort.ParsersIgnoreCase | serialport/src/serialport.cpp:980-1128 | each of the four parsers accepts a text exactly when it accepts its lower-case form, and then both give the same value; a refusal reports the text as given |
| SerialPort.NormalizedPortName | serialport/src/serialport.cpp:838-845 | a name with "/dev/" is kept; otherwise "/dev/" is prefixed when it has "tty" and "/dev/tty" when it has not |
| SerialPort.GetPortNameAndNumber | serialport/src/serialport.cpp:837-853 | on success the number is the first position of the normalised name among the port names; it throws exactly when the normalised name is not one of them |
| SerialPort.SearchNames | serialport/src/serialport.cpp:846-852 | the counted loop finds the first position holding the name |
| SerialPort.FullPathIsNotPrefixed | serialport/src/serialport.cpp:838-845 | a name starting with "/dev/" is looked up as it is |
| SerialPort.BareSuffixGainsPrefix | serialport/src/serialport.cpp:838-845 | a bare suffix such as "USB0" gains "/dev/tty" |
| SerialPort.TtyNameGainsDevPrefix | serialport/src/serialport.cpp:838-845 | a name such as "ttyACM1" gains only "/dev/" |
| SerialPort.SerialPort.SetDataBits | serialport/src/serialport.cpp:901-908 | refused and nothing changes while open; otherwise only the data bits change |
| SerialPort.SerialPort.SetBaudRate | serialport/src/serialport.cpp:910-917 | refused and nothing changes while open; otherwise only the baud rate changes |
| SerialPort.SerialPort.SetStopBits | serialport/src/serialport.cpp:919-926 | refused and nothing changes while open; otherwise only the stop bits change |
| SerialPort.SerialPort.SetParity | serialport/src/serialport.cpp:928-935 | refused and nothing changes while open; otherwise only the parity changes |
| SerialPort.SerialPort.SetPortName | serialport/src/serialport.cpp:890-899 | refused while open or for an unknown name, leaving name and number; otherwise both are replaced by the lookup's result, and no other setting changes |
| SerialPort.SerialPort.SetTimeout | serialport/src/serialport.cpp:967-973 | a value below 1 is refused and the timeout is unchanged; otherwise it becomes the timeout |
| SerialPort.SerialPort.constructor | serialport/src/serialport.cpp:155-163 | the member initialisers: the given settings, the default timeout, closed |
| SerialPort.Open | serialport/src/serialport.cpp:155-168 | a fresh closed port with the given settings and the resolved name, or the lookup's error for an unknown name |
| SerialPort.LessIrreflexive | serialport/src/serialport.cpp:1361-1364 | the std::string order the std::set keeps is irreflexive |
| SerialPort.LessTransitive | serialport/src/serialport.cpp:1361-1364 | the order is transitive |
| SerialPort.LessTotal | serialport/src/serialport.cpp:1361-1364 | the order is total on distinct strings |
| SerialPort.SetInsert | serialport/src/serialport.cpp:1362-1364 | std::set emplace keeps the contents strictly sorted and adds exactly the new string |
| SerialPort.AvailableSerialPorts | serialport/src/serialport.cpp:1347-1369 | the result is strictly sorted (sorted and duplicate-free) and holds exactly the probed paths that are present |
| CanPacket.ZeroPacket | arduino/firmware/src/candatapacket.cpp:3-7 | the default packet is eight zero bytes |
| CanPacket.NthByteUpdate | arduino/firmware/src/candatapacket.cpp:45-53 | an index outside [0, 8) gives false and the packet unchanged; inside, the write replaces that byte only and gives true, and throws (out_of_range) when the vector is shorter than the index |
| CanPacket.NthByte | arduino/include/old-bad/arduino.h:688-691 | `nthByte`, which is `at` on the byte vector: the byte at an index inside the vector, out_of_range otherwise |
| CanPacket.NthByteAfterUpdate | arduino/firmware/src/candatapacket.cpp:45-53 | after setNthByte the index reads back the new byte and every other index reads as before |
| CanPacket.OrBytes | arduino/firmware/src/candatapacket.cpp:68-79 | the combination has the first packet's length |
| CanPacket.OrBytesZero | arduino/firmware/src/candatapacket.cpp:68-79 | combining with the zero packet changes nothing |
| CanPacket.OrBytesSelf | arduino/firmware/src/candatapacket.cpp:68-79 | combining a packet with itself changes nothing |
| CanPacket.OrBytesCommutes | arduino/firmware/src/candatapacket.cpp:68-79 | combining packets of equal length does not depend on their order |
| CanPacket.EqualsAsWritten | arduino/firmware/include/candatapacket.h:30-42 | as written, equality holds exactly when the two sizes agree |
| CanPacket.Equals | arduino/firmware/include/candatapacket.h:30-42 | as intended, equality holds exactly for the same bytes |
| CanPacket.CanDataPacket.constructor | arduino/firmware/src/candatapacket.cpp:3-7 | eight zero bytes |
| CanPacket.CanDataPacket.FromBytes | arduino/firmware/src/candatapacket.cpp:9-17 | the eight given bytes, in order |
| CanPacket.CanDataPacket.FromVector | arduino/firmware/src/candatapacket.cpp:19-23 | a copy of the given vector |
| CanPacket.CanDataPacket.SetDataPacket | arduino/firmware/src/candatapacket.cpp:31-34 | the whole byte vector is replaced |
| CanPacket.CanDataPacket.SetDataPacketBytes | arduino/firmware/src/candatapacket.cpp:36-43 | the vector becomes the eight given bytes, in order |
| CanPacket.CanDataPacket.SetNthByte | arduino/firmware/src/candatapacket.cpp:45-53 | the result and the new vector are those of the update: one byte patched and true, false and nothing changed, or out_of_range and nothing changed |
| CanPacket.CanDataPacket.ToBasicArray | arduino/firmware/src/candatapacket.cpp:55-61 | the array's first cells receive the bytes in order and the rest keep their values |
| CanPacket.CanDataPacket.CombineDataPackets | arduino/firmware/src/candatapacket.cpp:68-79 | a fresh packet holding the bytewise OR, as long as the first packet |
| CanMessages.DefaultFrame | arduino/src/canmessage.cpp:19-26 | the default message has zero id, frame and length and eight zero bytes |
| CanMessages.HexField | arduino/src/canmessage.cpp:89-94 | a printed field starts with "0x" and holds no ':' |
| CanMessages.ByteFields | arduino/src/canmessage.cpp:91-97 | one printed field per data byte, in order |
| CanMessages.FieldsText | arduino/src/canmessage.cpp:89-98 | the printed fields start with "0x" |
| CanMessages.MessageText | arduino/src/canmessage.cpp:81-99 | with the intended packet equality, toString is "" exactly for the blank message and otherwise starts with "0x" |
| CanMessages.MessageTextAsWritten | arduino/firmware/src/canmessage.cpp:69-86 | with the firmware's size-only packet equality, toString is "" exactly when id, frame and length are zero and the packet has eight bytes |
| CanMessages.BlankAsWrittenIgnoresData | arduino/firmware/src/canmessage.cpp:72-77 | as written in the firmware, a message with zero header fields and a non-zero byte prints as nothing, though it is not blank |
| CanMessages.PartlyParsedStep | arduino/src/canmessage.cpp:143-150 | one turn of the parse loop: field 0 sets the id and field i > 0 sets byte i - 1 |
| CanMessages.PartlyParsedDone | arduino/src/canmessage.cpp:143-150 | after the nine fields every byte has been read from its field |
| CanMessages.ParsedFrame | arduino/src/canmessage.cpp:133-152 | a field count other than 9 gives the default message; otherwise frame 0, length 8 and eight data bytes |
| CanMessages.HexFieldReadsBack | arduino/src/canmessage.cpp:121-125 | parseCanID reads a printed 32-bit value back |
| CanMessages.ByteFieldReadsBack | arduino/src/canmessage.cpp:127-131 | parseCanByte reads a printed byte back |
| CanMessages.FieldsOfText | arduino/src/canmessage.cpp:89-98 | splitting the printed text on ':' gives back the id field and the byte fields |
| CanMessages.ParsedMessageText | arduino/src/canmessage.cpp:81-152 | parsing a printed message recovers its data and the value of its printed id, with frame 0 and length 8 |
| CanMessages.MessageTextRoundTrip | arduino/src/canmessage.cpp:81-152 | for ids below 2^31, parseCanMessage(toString(m)) has m's id and data bytes, frame 0 and length 8 |
| CanMessages.FrameOfPrintedFields | arduino/src/canmessage.cpp:133-152 | the parse of printed fields is the message with those values |
| CanMessages.FieldsReadAsData | arduino/src/canmessage.cpp:143-150 | fields that read as the given bytes fill the packet with them |
| CanMessages.PrintedByteField | arduino/src/canmessage.cpp:91-97 | the field for byte k reads back as byte k |
| CanMessages.HighIdentifierReadsBackNegated | arduino/src/canmessage.cpp:81-152 | an id of 2^31 or more goes through a negative int and reads back as 2^32 minus the id |
| CanMessages.NegatedIdField | arduino/src/canmessage.cpp:89 | such an id prints as the field of its magnitude as a negative int |
| CanMessages.BlankRoundTrip | arduino/src/canmessage.cpp:81-152 | the default message prints as "" and "" parses as the default message |
| CanMessages.CanMessage.constructor | arduino/src/canmessage.cpp:10-17 | the message holds the given id, frame, length and packet |
| CanMessages.CanMessage.Default | arduino/src/canmessage.cpp:19-26 | the message is the default message |
| CanMessages.CanMessage.SetID | arduino/src/canmessage.cpp:28-31 | only the id changes |
| CanMessages.CanMessage.SetFrame | arduino/src/canmessage.cpp:33-36 | only the frame changes |
| CanMessages.CanMessage.SetLength | arduino/src/canmessage.cpp:38-41 | only the length changes |
| CanMessages.CanMessage.SetDataPacket | arduino/src/canmessage.cpp:43-46 | only the packet changes |
| CanMessages.CanMessage.NthDataPacketByte | arduino/src/canmessage.cpp:63-69 | an index below 0 or above 8 throws; an index inside the packet gives its byte; 8, which the guard lets through, reaches the packet's bounds check and throws out_of_range |
| CanMessages.CanMessage.SetDataPacketNthByte | arduino/src/canmessage.cpp:71-74 | the packet's setNthByte result and new bytes; the header fields stay |
| CanMessages.CanMessage.ToString | arduino/src/canmessage.cpp:81-99 | the text built by the loop is the message text |
| CanMessages.CanMessage.ParseCanMessage | arduino/src/canmessage.cpp:133-152 | a fresh message equal to the parse of the text |
| ScriptUnroller.ContainsLoopStart | ibytestream/ibytestream.cpp:371-379 | true exactly when some command is LOOP_START |
| ScriptUnroller.LastStart | ibytestream/ibytestream.cpp:352-356 | the last LOOP_START, none exactly when there is none |
| ScriptUnroller.FirstEndFrom | ibytestream/ibytestream.cpp:358-367 | the first LOOP_END at or after the given index, none exactly when there is none |
| ScriptUnroller.LastLoopStartPosition | ibytestream/ibytestream.cpp:350-356 | the scan keeps the index of the last LOOP_START, 0 when there is none |
| ScriptUnroller.FindInnerLoopIndexesAsWritten | ibytestream/ibytestream.cpp:348-369 | both loops as written, including the end index computed as start + i or start + i - 1 |
| ScriptUnroller.InnerLoopIndexesAsWrittenOverruns | ibytestream/ibytestream.cpp:358-364 | for a loop that does not start at index 0 the end index is offset: with a loop at 2..4 the written search reports (2, 5), and the unroll copies the LOOP_END and drops the last command |
| ScriptUnroller.FindInnerLoopIndexes | ibytestream/ibytestream.cpp:348-369 | corrected search: the last LOOP_START and the first LOOP_END after it, and no LOOP_START lies after the start index |
| ScriptUnroller.Repeat | ibytestream/ibytestream.cpp:330-334 | copies of a loop-free body are loop-free |
| ScriptUnroller.AppendRange | ibytestream/ibytestream.cpp:335-343 | each copy loop appends exactly the given range |
| ScriptUnroller.UnrollInnerLoop | ibytestream/ibytestream.cpp:327-344 | the commands before the loop, the body repeated the loop count times, then the commands after the LOOP_END |
| ScriptUnroller.DepthAppend | ibytestream/ibytestream.cpp:325-346 | the nesting depth of a concatenation is the sum of the depths |
| ScriptUnroller.StartCountAppend | ibytestream/ibytestream.cpp:325-346 | the LOOP_START count of a concatenation is the sum of the counts |
| ScriptUnroller.BalancedWithoutStartIsPlain | ibytestream/ibytestream.cpp:325-346 | a balanced script without LOOP_START has no LOOP_END either |
| ScriptUnroller.InnerLoopIsClosed | ibytestream/ibytestream.cpp:348-369 | in a balanced script the innermost loop is closed, its body is loop-free and no LOOP_START follows it |
| ScriptUnroller.InnerLoopPieces | ibytestream/ibytestream.cpp:348-369 | the innermost loop adds one LOOP_START and no depth to what precedes it |
| ScriptUnroller.ReplacedPrefixesNonNegative | ibytestream/ibytestream.cpp:335-344 | replacing a closed loop by loop-free copies keeps every prefix's depth non-negative |
| ScriptUnroller.UnrollDepth | ibytestream/ibytestream.cpp:327-344 | unrolling a closed loop keeps the total depth |
| ScriptUnroller.UnrollStartCount | ibytestream/ibytestream.cpp:327-344 | unrolling a closed loop removes exactly one LOOP_START |
| ScriptUnroller.UnrollClosedLoop | ibytestream/ibytestream.cpp:327-344 | unrolling a closed loop keeps the script balanced |
| ScriptUnroller.UnrollKeepsBalance | ibytestream/ibytestream.cpp:325-345 | one turn of the while loop keeps the script balanced and removes one LOOP_START, which bounds the number of turns |
| ScriptUnroller.Unrolled | ibytestream/ibytestream.cpp:319-347 | the fully unrolled script is loop-free. Each step takes the inner loop from the corrected FindInnerLoopIndexes; with the search as written the result differs (InnerLoopIndexesAsWrittenOverruns) |
| ScriptUnroller.DoUnrollLoopCommands | ibytestream/ibytestream.cpp:319-347 | the while loop computes the fully unrolled script, and a script without LOOP_START comes back unchanged. It uses the corrected FindInnerLoopIndexes; as written the loop bounds overrun (InnerLoopIndexesAsWrittenOverruns) |
| ScriptUnroller.UnrolledIsIdempotent | ibytestream/ibytestream.cpp:319-347 | the unrolled script is balanced again, and unrolling it a second time gives it back unchanged |
| ScriptUnroller.SingleLoopBalanced | ibytestream/ibytestream.cpp:348-369 | a single loop at index 0 around a loop-free body is balanced, and its innermost loop is (0, body length + 1) |
| ScriptUnroller.RepeatThenTailIsPlain | ibytestream/ibytestream.cpp:329-344 | the copies of a loop-free body followed by a loop-free tail are loop-free |
| ScriptUnroller.SingleLoopUnrolls | ibytestream/ibytestream.cpp:329-344 | a single loop at index 0 with count n, body b and tail t unrolls to b repeated n times, then t |
| Bitsets.Mask | bitset/bitset.h:86 | `1 << k` for k below 31 has bit k alone set |
| Bitsets.Or | bitset/bitset.h:86-88 | `\|=` sets each bit that is set in either word |
| Bitsets.AndNot | bitset/bitset.h:116-118 | `&= ~` keeps each bit set in the first word and clear in the mask |
| Bitsets.Position | bitset/bitset.h:85-89 | an index names a bit below N: counted from the top used bit for little-endian, from bit 0 for big-endian |
| Bitsets.PositionInjective | bitset/bitset.h:85-89 | distinct indexes name distinct bits in either byte order |
| Bitsets.BitsAfterSet | bitset/bitset.h:81-91 | setting an index's bit makes that index true and leaves every other index |
| Bitsets.BitsAfterReset | bitset/bitset.h:111-121 | clearing an index's bit makes that index false and leaves every other index |
| Bitsets.AboveAfterSet | bitset/bitset.h:81-91 | setting a bit below N leaves the unused bits alone |
| Bitsets.AboveAfterReset | bitset/bitset.h:111-121 | clearing a bit below N leaves the unused bits alone |
| Bitsets.BitsOfZero | bitset/bitset.h:104-108 | the zero word has no index set |
| Bitsets.CountTrueBounds | bitset/bitset.h:197-206 | the count is at most N, 0 exactly when nothing is set and N exactly when everything is |
| Bitsets.Rejects | bitset/bitset.h:83 | the intended range check refuses exactly the indexes from N on |
| Bitsets.ShiftAmountAsWritten | bitset/bitset.h:116 | the little-endian shift amount is computed in 64-bit `size_t` |
| Bitsets.GuardAsWrittenAdmitsWidth | bitset/bitset.h:113-116 | the `> N` check of reset, flip and test lets index N through, where the shift amount wraps to 2^64 - 1 |
| Bitsets.Bitset.Bits | bitset/bitset.h:175-184 | one flag per index, N in all |
| Bitsets.Bitset.constructor | bitset/bitset.h:44-50 | N bits, all false, in the given byte order |
| Bitsets.Bitset.FromValue | bitset/bitset.h:35-42 | index i holds bit i of the initial value, and the unused bits stay clear |
| Bitsets.Bitset.Test | bitset/bitset.h:175-184 | the flag at an index below N; any other index throws. This is the intended guard: as written only an index above N throws (Findings row bitset/bitset.h:113-116) |
| Bitsets.Bitset.Set | bitset/bitset.h:81-91 | an index from N on throws and changes nothing; otherwise that index becomes true and no other index or unused bit changes |
| Bitsets.Bitset.Reset | bitset/bitset.h:111-121 | with the intended guard, an index from N on throws and changes nothing; otherwise that index becomes false and nothing else changes. As written only an index above N throws (Findings row bitset/bitset.h:113-116) |
| Bitsets.Bitset.Flip | bitset/bitset.h:132-139 | with the intended guard, an index from N on throws and changes nothing; otherwise that index is negated and nothing else changes. As written only an index above N throws (Findings row bitset/bitset.h:113-116) |
| Bitsets.Bitset.ResetAll | bitset/bitset.h:104-108 | the word becomes 0, so no index is set (none() holds) |
| Bitsets.Bitset.SetAll | bitset/bitset.h:72-78 | every index becomes true (all() holds) and the unused bits keep theirs |
| Bitsets.Bitset.FlipAll | bitset/bitset.h:123-129 | every index is negated and the unused bits keep theirs |
| Bitsets.Bitset.SetMultiple | bitset/bitset.h:94-101 | index i takes bit i of the argument, for every index below N |
| Bitsets.Bitset.SetFromString | bitset/bitset.h:52-69 | after an optional "0b" the text must be N long or it throws and nothing changes; then index i is true exactly when character i is not '0' |
| Bitsets.Bitset.AnySet | bitset/bitset.h:142-150 | true exactly when some index is set |
| Bitsets.Bitset.NoneSet | bitset/bitset.h:153-161 | true exactly when no index is set, so it is the negation of any() |
| Bitsets.Bitset.AllSet | bitset/bitset.h:164-172 | true exactly when every index is set |
| Bitsets.Bitset.Count | bitset/bitset.h:197-206 | the number of indexes below N that are set |
| Bitsets.FromString | bitset/bitset.h:27-33 | the string constructor: a fresh bitset holding the text's bits, or the length error |
| UdpClient.LineEndingToString | udpclient/src/udpclient.cpp:351-362 | at most two characters, each '\r' or '\n', and empty exactly for LE_None |
| UdpClient.ParseLineEnding | udpclient/src/udpclient.cpp:305-318 | parseLineEnding gives the same text as lineEndingToString for every line ending |
| UdpClient.LineEndingOfText | udpclient/src/udpclient.cpp:351-362 | the inverse of lineEndingToString: a line ending whose text is the input, none exactly when no text matches |
| UdpClient.LineEndingTextRoundTrip | udpclient/src/udpclient.cpp:351-362 | each line ending's text maps back to it |
| UdpClient.LineEndingFromRaw | udpclient/src/udpclient.cpp:320-349 | the lower-cased input is one of the result's identifiers; it throws exactly when it is in no list, reporting the input |
| UdpClient.ParseLineEndingFromRaw | udpclient/src/udpclient.cpp:320-349 | the four search loops compute that lookup |
| UdpClient.IdentifiersAreLowerCase | udpclient/src/udpclient.cpp:26-29 | every listed identifier is already lower case |
| UdpClient.IdentifierListsDisjoint | udpclient/src/udpclient.cpp:26-29 | no identifier is in two lists, so the order of the loops does not matter |
| UdpClient.IdentifierParses | udpclient/src/udpclient.cpp:320-349 | any text whose lower-case form is an identifier parses to that identifier's line ending |
| UdpClient.ListedIdentifierParses | udpclient/src/udpclient.cpp:320-349 | every listed identifier, written as listed, parses to its own line ending |
| UdpClient.LineEndingFromRawIgnoresCase | udpclient/src/udpclient.cpp:320-349 | a text and its lower-case form parse alike |
| UdpClient.AvailableLineEndingsParse | udpclient/src/udpclient.cpp:25 | "None", "CR", "LF" and "CRLF" parse to the four line endings |
| UdpClient.TerminatorIsNoIdentifier | udpclient/src/udpclient.cpp:151-154 | the stored terminator ("", "\r", "\n" or "\r\n") is no identifier, so the getter that parses it always throws |
| UdpClient.SentText | udpclient/src/udpclient.cpp:280-283 | the text sent ends with the line ending, which is appended exactly when the string does not already end with it |
| UdpClient.SentTextIdempotent | udpclient/src/udpclient.cpp:280-283 | preparing an already prepared string changes nothing |
| UdpClient.UpToNul | udpclient/src/udpclient.cpp:286-288 | the prefix `strlen` counts: it holds no NUL and is followed by a NUL, or it is the whole text |
| UdpClient.UpToNulOfNulFree | udpclient/src/udpclient.cpp:286-288 | a text without NUL is sent whole |
| UdpClient.UpToNulCutsAtFirstNul | udpclient/src/udpclient.cpp:280-288 | a NUL in the string cuts the sent text there, so the line ending is not sent |
| UdpClient.IsValidPortNumber | udpclient/src/udpclient.cpp:299-302 | of the uint16_t values, exactly 0 and 65535 are refused, and nothing outside that range is accepted |
| UdpClient.UdpClient.constructor | udpclient/src/udpclient.cpp:86-98 | both ports stored, the default timeout and an empty line ending |
| UdpClient.UdpClient.SetPortNumber | udpclient/src/udpclient.cpp:134-144 | accepted and stored exactly when 0 < p < 65535; otherwise it throws and the port stays |
| UdpClient.UdpClient.SetReturnAddressPortNumber | udpclient/src/udpclient.cpp:112-122 | the same check for the return address port |
| UdpClient.UdpClient.SetTimeout | udpclient/src/udpclient.cpp:156-159 | the timeout becomes the value |
| UdpClient.UdpClient.SetLineEnding | udpclient/src/udpclient.cpp:146-149 | the stored terminator becomes the line ending's text |
| UdpClient.UdpClient.LineEndingAsWritten | udpclient/src/udpclient.cpp:151-154 | as written, the getter throws for every stored terminator |
| UdpClient.UdpClient.CurrentLineEnding | udpclient/src/udpclient.cpp:151-154 | as intended, the getter answers the line ending whose text is stored |
| UdpClient.UdpClient.WriteString | udpclient/src/udpclient.cpp:277-297 | the bytes handed to `sendto` are the prepared text up to its first NUL, which is `strlen` of it; for a string without NUL that is the whole prepared text |
| UdpClient.UdpClient.WriteByteAsWritten | udpclient/src/udpclient.cpp:267-270 | as written, `std::string{1, toSend}` sends the character 1 first; a NUL byte is cut off, leaving the 1 alone, and any other byte follows the 1 |
| UdpClient.UdpClient.WriteByte | udpclient/src/udpclient.cpp:267-270 | as intended, the text sent starts with the byte alone; a NUL byte sends nothing, because `strlen` stops before it |
| UdpClient.Create | udpclient/src/udpclient.cpp:203-225 | construction succeeds exactly when both ports are valid, reporting the first invalid one |
| UdpClient.SetThenGetLineEnding | udpclient/src/udpclient.cpp:146-154 | with the corrected getter, setting a line ending and reading it back gives it |
| TcpServer.SyncedAsWritten | tcpserver/tcpserver.cpp:315-338 | as written, a byte count equal to EAGAIN or EWOULDBLOCK (11 on Linux) drops the datagram; any other count queues exactly what Synced queues |
| TcpServer.ElevenByteDatagramLostAsWritten | tcpserver/tcpserver.cpp:329-331 | the 11-byte datagram "hello world" is dropped as written and queued as intended |
| TcpServer.Synced | tcpserver/tcpserver.cpp:315-338 | as intended, the queue only grows at the back, by one datagram exactly when a non-empty text arrived, whatever the byte count, holding its sender and text |
| TcpServer.ByteTaken | tcpserver/tcpserver.cpp:388-406 | only the front message changes: it loses its first character, or the queue stays when that message is empty |
| TcpServer.PrependText | tcpserver/tcpserver.cpp:484-497 | the text goes in front of the front message; the sender and the other datagrams are kept |
| TcpServer.ByteTakenShortens | tcpserver/tcpserver.cpp:388-406 | readByte removes exactly one character from what is queued |
| TcpServer.ByteThenPutBackRestores | tcpserver/tcpserver.cpp:388-406 | putting back the character readByte took restores the queue |
| TcpServer.PutBackCharAsWrittenCorrupts | tcpserver/tcpserver.cpp:474-477 | with `std::string{1, back}` the queue is not restored, and the next byte read is the character 1 |
| TcpServer.PutBackThenReadDatagram | tcpserver/tcpserver.cpp:408-419 | a datagram put back is the next one read, leaving the rest of the queue as it was |
| TcpServer.ByteOfFrontMessage | tcpserver/tcpserver.cpp:388-406 | readByte answers the first character of the front message and leaves the rest of it |
| TcpServer.IsValidPortNumber | tcpserver/tcpserver.cpp:40-43 | of the uint16_t values, exactly 0 and 65535 are refused, and nothing outside that range is accepted |
| TcpServer.TcpServer.constructor | tcpserver/tcpserver.cpp:29-38 | the accepted port, the default timeout, an empty queue, not listening |
| TcpServer.TcpServer.SetPortNumber | tcpserver/tcpserver.cpp:45-56 | stored exactly when 0 < p < 65535; otherwise it throws and the port stays |
| TcpServer.TcpServer.SetTimeout | tcpserver/tcpserver.cpp:58-73 | a negative timeout becomes 0; a failing socket option throws and keeps the old timeout |
| TcpServer.TcpServer.FlushRXTX | tcpserver/tcpserver.cpp:98-102 | the queue is emptied |
| TcpServer.TcpServer.SetLineEnding | tcpserver/tcpserver.cpp:340-343 | the line ending becomes the value |
| TcpServer.TcpServer.SyncDatagramListener | tcpserver/tcpserver.cpp:315-338 | the queue becomes Synced of the old queue and the reception, the intended listener that keeps 11-byte datagrams |
| TcpServer.TcpServer.Peek | tcpserver/tcpserver.cpp:350-359 | the front message or "", with nothing removed |
| TcpServer.TcpServer.PeekDatagram | tcpserver/tcpserver.cpp:362-371 | the front datagram or the default one, with nothing removed |
| TcpServer.TcpServer.PeekByte | tcpserver/tcpserver.cpp:373-386 | the front message's first character, or 0 for an empty queue, with nothing removed |
| TcpServer.TcpServer.ReadByte | tcpserver/tcpserver.cpp:388-406 | the front message's first character, which is removed from it |
| TcpServer.TcpServer.ReadDatagram | tcpserver/tcpserver.cpp:408-419 | the front datagram, popped, or the default datagram for an empty queue |
| TcpServer.TcpServer.ReadLine | tcpserver/tcpserver.cpp:422-432 | the front message, popped, or "" for an empty queue |
| TcpServer.TcpServer.ReadUntil | tcpserver/tcpserver.cpp:459-466 | reads a line as readLine does and leaves the line ending as it was |
| TcpServer.TcpServer.PutBackDatagram | tcpserver/tcpserver.cpp:468-472 | the datagram becomes the front of the queue |
| TcpServer.TcpServer.PutBackString | tcpserver/tcpserver.cpp:484-497 | the text goes in front of the front message |
| TcpServer.TcpServer.PutBackCharAsWritten | tcpserver/tcpserver.cpp:474-477 | as written, the characters 1 and `back` go in front |
| TcpServer.TcpServer.PutBackChar | tcpserver/tcpserver.cpp:474-477 | as intended, the one character goes in front and is the next byte read |
| TcpServer.Create | tcpserver/tcpserver.cpp:119-146 | initialize succeeds exactly for a valid port number, with an empty queue and the default timeout; the error reports the default port number, which replaced the rejected one before the message was built |
| TcpServer.ReadByteThenPutBack | tcpserver/tcpserver.cpp:388-477 | readByte followed by the intended putBack(char) leaves the queue as the sync left it |
| TcpDuplex.TcpObjectTypeToString | tcpduplex/tcpduplex.cpp:588-599 | a ten-character name beginning "TCP " |
| TcpDuplex.TcpObjectTypeFromRaw | tcpduplex/tcpduplex.cpp:566-586 | accepted exactly when the text, lower-cased and with its spaces removed, is "tcpduplex", "tcpserver" or "tcpclient"; otherwise it throws, reporting the text |
| TcpDuplex.ParseTcpObjectTypeFromRaw | tcpduplex/tcpduplex.cpp:566-586 | the comparison chain computes that lookup |
| TcpDuplex.KeyOfDisplayName | tcpduplex/tcpduplex.cpp:566-599 | a name "TCP " + word normalises to "tcp" + the lower-cased word |
| TcpDuplex.DisplayNameKeys | tcpduplex/tcpduplex.cpp:566-599 | the three names normalise to the three identifiers |
| TcpDuplex.DisplayNameKey | tcpduplex/tcpduplex.cpp:566-599 | each name normalises to its identifier |
| TcpDuplex.TcpObjectTypeRoundTrip | tcpduplex/tcpduplex.cpp:566-599 | every object type's name parses back to it |
| TcpDuplex.SameKeySameOutcome | tcpduplex/tcpduplex.cpp:566-586 | two texts with the same normal form parse alike |
| TcpDuplex.ParseIgnoresCase | tcpduplex/tcpduplex.cpp:566-586 | a text and its lower-case form parse alike |
| TcpDuplex.ToLowerConcat | tcpduplex/tcpduplex.cpp:570 | lower-casing distributes over concatenation |
| TcpDuplex.ToLowerAroundSpace | tcpduplex/tcpduplex.cpp:570 | lower-casing keeps a space in place |
| TcpDuplex.KeepFailingDropsSpace | tcpduplex/tcpduplex.cpp:571-576 | removing the spaces gives the same text with or without an inserted space |
| TcpDuplex.KeyIgnoresSpace | tcpduplex/tcpduplex.cpp:566-586 | inserting a space does not change the normal form |
| TcpDuplex.ParseIgnoresSpace | tcpduplex/tcpduplex.cpp:566-586 | a text parses as it does with a space inserted anywhere |
| TcpDuplex.ClientTimeoutOf | tcpduplex/tcpduplex.cpp:178-183 | the client's timeout is the value modulo 2^32, and the value itself when it fits |
| TcpDuplex.TcpDuplex.constructor | tcpduplex/tcpduplex.cpp:79-97 | a client for client and duplex objects, a server for server and duplex objects (a duplex one on the default port), with default timeouts |
| TcpDuplex.TcpDuplex.ClientPortNumber | tcpduplex/tcpduplex.cpp:197-204 | 0 when there is no client |
| TcpDuplex.TcpDuplex.ServerPortNumber | tcpduplex/tcpduplex.cpp:233-240 | 0 when there is no server |
| TcpDuplex.TcpDuplex.ClientTimeout | tcpduplex/tcpduplex.cpp:224-231 | 0 when there is no client, and below 2^32 |
| TcpDuplex.TcpDuplex.ServerTimeout | tcpduplex/tcpduplex.cpp:242-249 | 0 when there is no server |
| TcpDuplex.TcpDuplex.Timeout | tcpduplex/tcpduplex.cpp:267-278 | the server's or the client's timeout, whichever part exists, and the larger of the two for a duplex |
| TcpDuplex.TcpDuplex.LineEnding | tcpduplex/tcpduplex.cpp:99-108 | a server or a client reports its own line ending; a duplex reports the server's, a space, then the client's |
| TcpDuplex.TcpDuplex.SetLineEnding | tcpduplex/tcpduplex.cpp:99-120 | every part present takes the line ending, so a duplex then reports it twice joined by a space; the client keeps its ports and timeout, and the server its port, timeout, queue and listening flag |
| TcpDuplex.TcpDuplex.SetClientPortNumber | tcpduplex/tcpduplex.cpp:157-162 | with a client, an invalid port throws and keeps the client; a valid one is stored; without a client nothing happens |
| TcpDuplex.TcpDuplex.SetClientReturnAddressPortNumber | tcpduplex/tcpduplex.cpp:171-176 | the same guard, on the return address port, which TCPClient keeps in its return address (tcpclient/tcpclient.cpp:75-85, 185-186) |
| TcpDuplex.TcpDuplex.SetServerPortNumber | tcpduplex/tcpduplex.cpp:251-256 | with a server, an invalid port throws and keeps the port; a valid one is stored; the server's timeout, line ending, queue and listening flag stay |
| TcpDuplex.TcpDuplex.SetClientTimeout | tcpduplex/tcpduplex.cpp:178-183 | the client's timeout becomes the value modulo 2^32; its port, return address port and line ending stay; without a client nothing changes |
| TcpDuplex.TcpDuplex.SetServerTimeout | tcpduplex/tcpduplex.cpp:258-265 | with a server, a failing socket option throws and keeps the timeout; otherwise a negative value becomes 0; the server's port, line ending, queue and listening flag stay |
| TcpDuplex.TcpDuplex.SetTimeout | tcpduplex/tcpduplex.cpp:185-195 | both parts present take the timeout, each by its own rule, the client even when the server's throws; the client's ports and line ending and the server's port, line ending, queue and listening flag stay |
| TcpDuplex.TcpDuplex.FlushRXTX | tcpduplex/tcpduplex.cpp:289-294 | the server's queue is emptied; its port, timeout, line ending and listening flag stay |
| TcpDuplex.Create | tcpduplex/tcpduplex.cpp:79-97 | construction succeeds exactly when the parts present accept their ports and the server timeout can be set; the timeout is then the default of the part that decides it |
| TcpDuplex.NegativeDuplexTimeout | tcpduplex/tcpduplex.cpp:185-195 | a duplex given timeout -1 reports 2^32 - 1: the client wraps it while the server clamps it to 0 |
| Gpio.ZeroBytes | arduino/firmware/src/gpio.cpp:48-50 | n bytes of padding |
| Gpio.ZeroBytesAreZero | arduino/firmware/src/gpio.cpp:48-50 | every padding byte is 0 |
| Gpio.ChunksShape | arduino/firmware/src/gpio.cpp:39-47 | the first loop makes ceil(state / 255) non-zero bytes, all 255 but the front one, and none for a state of 0 or below |
| Gpio.ChunksSum | arduino/firmware/src/gpio.cpp:39-47 | the bytes of the first loop add up to the state |
| Gpio.SumConcat | arduino/firmware/src/gpio.cpp:35-52 | the byte sum of two pieces is the sum of their sums |
| Gpio.SumOfZeros | arduino/firmware/src/gpio.cpp:48-50 | padding adds nothing to the sum |
| Gpio.ChunksFit | arduino/firmware/src/gpio.cpp:39-50 | a state up to 1275 needs at most five bytes, so the padding loop stops |
| Gpio.EEPROMWritableState | arduino/firmware/src/gpio.cpp:35-52 | five bytes |
| Gpio.EEPROMWritableStateHoldsState | arduino/firmware/src/gpio.cpp:35-52 | the five bytes add up to the state (0 for a negative one), the zeros come first, and every non-zero byte after the first is 255 |
| Gpio.EEPROMWritableStateOfNonPositive | arduino/firmware/src/gpio.cpp:35-52 | a state of 0 or below is five zero bytes |
| Gpio.ZeroBytesPrepend | arduino/firmware/src/gpio.cpp:48-50 | inserting one more zero at the front extends the padding |
| Gpio.ChunksStep | arduino/firmware/src/gpio.cpp:39-47 | one round of the first loop puts the next chunk in front of those already made |
| Gpio.ToEEPROMWritableState | arduino/firmware/src/gpio.cpp:35-52 | the two loops compute EEPROMWritableState |
| Gpio.GpioStatics.constructor | arduino/firmware/src/gpio.cpp:4 | the threshold starts at 510 |
| Gpio.GpioStatics.SetAnalogToDigitalThreshold | arduino/firmware/src/gpio.cpp:54-61 | a negative threshold is stored as 0, any other as given |
| Gpio.Gpio.constructor | arduino/firmware/src/gpio.cpp:6-13 | the pin number and IO type as given, logic low and analog 0 |
| Gpio.Gpio.SetIOType | arduino/firmware/src/gpio.cpp:78-94 | the new IO type, with the states reset to low and 0 |
| Gpio.Gpio.DigitalRead | arduino/firmware/src/gpio.cpp:96-102 | a pin that is not a digital input becomes one; the level read is answered and latched |
| Gpio.Gpio.AnalogRead | arduino/firmware/src/gpio.cpp:142-148 | the pin becomes an analog input; the sample is answered and latched |
| Gpio.Gpio.SoftDigitalRead | arduino/firmware/src/gpio.cpp:104-117 | a digital output answers its level, an analog output and an analog input compare their state with the threshold, others read as a digital input. The new state per IO type: outputs keep everything, an analog input latches the sample, a digital input latches the level, and an unspecified pin becomes a digital input holding the level with analog state 0 |
| Gpio.Gpio.SoftAnalogRead | arduino/firmware/src/gpio.cpp:120-131 | an analog pin answers its state, any other 5 when high and 0 when low |
| Gpio.Gpio.DigitalWrite | arduino/firmware/src/gpio.cpp:133-140 | the pin becomes a digital output holding the level |
| Gpio.Gpio.AnalogWrite | arduino/firmware/src/gpio.cpp:150-160 | the state is held, cut down to 1023; a pin that was no output becomes an analog output |
| Gpio.Gpio.GetIOAgnosticState | arduino/firmware/src/gpio.cpp:15-28 | each IO type is read its own way, an unspecified pin gives 0, and no answer exceeds 1023. The IO type never changes: a digital input latches the level, an analog input latches the sample, and every other pin keeps its state |
| Gpio.Gpio.GetEEPROMWritableState | arduino/firmware/src/gpio.cpp:30-33 | the five EEPROM bytes of the state getIOAgnosticState reads, for each IO type, and five zeros for an unspecified pin; the pin is left as getIOAgnosticState leaves it |
| StdString.Digits | arduino/src/arduinouno.cpp:122-123 | decimal digits only, a single one exactly below 10 |
| StdString.ToString | arduino/src/arduinouno.cpp:122-123 | `std::to_string` of a pin number: a minus sign exactly for a negative number, digits otherwise |
| StdString.DigitsInjective | arduino/src/arduinouno.cpp:122-123 | different numbers have different digits |
| StdString.ToStringInjective | arduino/src/arduinouno.cpp:122-123 | different pin numbers get different aliases, so the alias map has one key per pin |
| StdString.ToLower | tcpduplex/tcpduplex.cpp:570 | `std::transform` with `::tolower` changes exactly the capital letters, each to its small letter |
| StdString.ToLowerIdempotent | tcpduplex/tcpduplex.cpp:570 | lower-casing twice is lower-casing once |
| StdString.BracedString | udpclient/src/udpclient.cpp:269 | `std::string{1, c}` is the two characters 1 and c |
| DateTime.MonthName | datetime/datetime.cpp:60-77 | a capitalized name exactly for 1 to 12; anything else throws, reporting the number |
| DateTime.MonthIndexOfKey | datetime/datetime.cpp:83-109 | the chain answers the position of the key among the twelve lower-case names, or throws when it is none of them |
| DateTime.MonthIndex | datetime/datetime.cpp:79-110 | the lower-cased name's zero-based position, found exactly when the lower-cased name is a month; otherwise it throws, reporting the lower-cased text |
| DateTime.KeysAreDistinct | datetime/datetime.cpp:83-109 | the twelve keys differ, so each finds its own index |
| DateTime.ToLowerOfCapitalized | datetime/datetime.cpp:82 | lower-casing a capitalized word changes its first letter only |
| DateTime.LowerMonthName | datetime/datetime.cpp:60-110 | each month name lower-cases to that month's key |
| DateTime.LowerMonth | datetime/datetime.cpp:60-110 | one month's name lower-cases to its key |
| DateTime.LowerName | datetime/datetime.cpp:82 | a capitalized name whose tail equals the key's tail lower-cases to the key |
| DateTime.MonthRoundTrip | datetime/datetime.cpp:60-110 | monthIndex(monthName(m)) is m - 1 for every month m |
| DateTime.MonthIndexInverse | datetime/datetime.cpp:60-110 | every accepted name is, up to letter case, monthName of its index plus one |
| DateTime.MonthIndexIgnoresCase | datetime/datetime.cpp:79-110 | a name and its lower-case form get the same answer |
| EventTimer.BreakdownOfElapsed | eventtimer/src/eventtimer.cpp:87-90 | a non-negative total splits into hours, minutes below 60, seconds below 60 and milliseconds below 1000 that add back up to it |
| EventTimer.NormalBreakdownIsUnique | eventtimer/src/eventtimer.cpp:87-90 | only one such split adds up to a given total |
| EventTimer.BreakdownOfNegative | eventtimer/src/eventtimer.cpp:87-90 | with truncating division a negative total splits as its opposite does, every counter negated, and still adds back up |
| EventTimer.EventTimer.constructor | eventtimer/src/eventtimer.cpp:23-32 | all counters zero, not paused |
| EventTimer.EventTimer.Start | eventtimer/src/eventtimer.cpp:34-43 | counters zeroed, the clock reading becomes the start, running |
| EventTimer.EventTimer.Pause | eventtimer/src/eventtimer.cpp:45-48 | only the paused flag changes |
| EventTimer.EventTimer.Unpause | eventtimer/src/eventtimer.cpp:50-53 | only the paused flag changes |
| EventTimer.EventTimer.Update | eventtimer/src/eventtimer.cpp:80-94 | running: the whole milliseconds since the start become the total, split into counters that stay consistent with it; paused: the counters stay and the start moves so the last measured time ends now |
| EventTimer.TicksAddMilliseconds | eventtimer/src/eventtimer.cpp:84-85 | adding whole milliseconds of clock ticks adds them to the millisecond count |
| EventTimer.PausedSpanIsExcluded | eventtimer/src/eventtimer.cpp:34-94 | start, update, pause, update, unpause, update: the total is the time up to the last update before the pause plus the time since the update made while paused; the span between that last update and the pause is lost, because pause takes no clock reading; the counters split the total |
| ArduinoUno.AnalogPinFromNumber | arduino/src/arduinouno.cpp:874-892 | the name "A" + digit exactly for the pins 14 to 19, the digit being the pin less 14; any other number throws, reporting it |
| ArduinoUno.ParseAnalogPin | arduino/src/arduinouno.cpp:854-872 | accepted exactly for A0 to A5 and "14" to "19", giving an analog pin that the text names; anything else throws, reporting the text |
| ArduinoUno.EquivalentsAreNumerals | arduino/src/arduinouno.cpp:854-872 | the numeric aliases are `std::to_string` of the analog pins |
| ArduinoUno.AnalogAliasesAreDistinct | arduino/src/arduinouno.cpp:854-872 | no alias appears in two branches of the chain, so each finds its own pin |
| ArduinoUno.AnalogPinRoundTrip | arduino/src/arduinouno.cpp:854-892 | an analog pin's name, and its number written out, both parse back to it |
| ArduinoUno.ParseAnalogPinInverse | arduino/src/arduinouno.cpp:854-892 | every accepted alias is its pin's name or its pin's number written out |
| ArduinoUno.IsValidAnalogPinIdentifier | arduino/src/arduinouno.cpp:758-766 | true exactly for the names A0 to A5 |
| ArduinoUno.AnalogNameHasPin | arduino/src/arduinouno.cpp:758-766 | each name A0 to A5 is the name of the pin 14 past its digit |
| ArduinoUno.PinRanges | arduino/src/arduinouno.cpp:3-5 | the pins are 2 to 19, the analog ones 14 to 19, and the PWM pins are among the non-analog pins |
| ArduinoUno.IsValidAnalogInputPin | arduino/src/arduinouno.cpp:808-816 | true exactly for the pins that have an analog name, 14 to 19 |
| ArduinoUno.IsValidAnalogOutputPin | arduino/src/arduinouno.cpp:798-806 | true exactly for 3, 5, 6, 9, 10 and 11, none of them an analog input |
| ArduinoUno.AliasOf | arduino/src/arduinouno.cpp:114-124 | an analog name above pin 13, the number written out up to it |
| ArduinoUno.AliasInjective | arduino/src/arduinouno.cpp:114-124 | no two pins get the same alias, so no emplace of the loop is ignored |
| ArduinoUno.Emplace | arduino/src/arduinouno.cpp:111 | `std::map::emplace` adds the key, keeps every existing entry, and stores the value only for a new key |
| ArduinoUno.AliasesMatchAdd | arduino/src/arduinouno.cpp:114-124 | emplacing a new pin under its alias keeps every pin reachable by its alias and every alias naming its pin |
| ArduinoUno.AliasesMatchErase | arduino/src/arduinouno.cpp:288-296 | removing a pin and its alias keeps that match |
| ArduinoUno.NewGpioPins | arduino/src/arduinouno.cpp:110-112 | one unspecified GPIO for each available pin, and none other |
| ArduinoUno.NewAliases | arduino/src/arduinouno.cpp:114-124 | the alias map matches the pins of the board, every pin gets its alias, and the CAN pin's number written out is kept when it is an analog pin |
| ArduinoUno.TablesAfterErase | arduino/src/arduinouno.cpp:288-296 | the CAN pin can be erased from full tables only, and the tables are then those less that pin |
| ArduinoUno.ArduinoUno.constructor | arduino/src/arduinouno.cpp:10-66 | the full pin tables, threshold -1, the CAN capability as given (unknown when not given), every pin unspecified and aliased, the CAN pin erased when the board has CAN |
| ArduinoUno.ArduinoUno.InitializeIO | arduino/src/arduinouno.cpp:106-127 | one unspecified GPIO per pin, the alias maps filled in, and the CAN pin gone exactly when the board has CAN |
| ArduinoUno.ArduinoUno.CreateGpios | arduino/src/arduinouno.cpp:110-124 | the two loops leave every pin of the board with an unspecified GPIO under its alias |
| ArduinoUno.ArduinoUno.SetPinAlias | arduino/src/arduinouno.cpp:68-76 | a pin that has an alias gets the new one and true; any other is refused with false and nothing changes |
| ArduinoUno.ArduinoUno.SetPinAliasOfGpio | arduino/src/arduinouno.cpp:78-89 | the same given a shared GPIO, an empty one being refused |
| ArduinoUno.ArduinoUno.EraseCanPin | arduino/src/arduinouno.cpp:288-296 | the CAN pin leaves the pin tables, the GPIO map and the alias map, and one digital pin fewer is counted |
| ArduinoUno.ArduinoUno.SetCanCapability | arduino/src/arduinouno.cpp:238-244 | the pair is stored, and the CAN pin erased exactly when the capability is known and present |
| ArduinoUno.ArduinoUno.SetAnalogToDigitalThreshold | arduino/src/arduinouno.cpp:267-270 | the threshold is stored as given |
| ArduinoUno.ArduinoUno.AnalogToDigitalThreshold | arduino/src/arduinouno.cpp:272-285 | a known threshold is answered; -1 asks the board, keeping its answer, or -1 when the request fails |
| ArduinoUno.ArduinoUno.IsValidDigitalPin | arduino/src/arduinouno.cpp:768-796 | an analog pin, or one still available: every pin 2 to 19 before the CAN pin is erased, all but it afterwards |
| ArduinoUno.ErasedCanPinStaysPwmValid | arduino/src/arduinouno.cpp:286-294 | once erased, the CAN pin is no valid digital pin, yet isValidAnalogOutputPin (arduino/src/arduinouno.cpp:798-806), which reads the static PWM pin list, still accepts it |

## Left out

- Operating-system I/O is left out: termios and Win32 calls, sockets, `sendto` and `recvfrom`, name resolution, the listener threads and their mutexes. The reads of `TCPServer` start with one synchronous receive step whose outcome is a parameter. The Windows branches of serialport.cpp are not modelled; the POSIX ones are.
- Clocks, pin levels, ADC samples and the board's replies over the serial port are parameters, so nothing here depends on time or hardware.
- Floating point is not modelled: `EventTimer`'s `totalTimeSeconds`, `totalTimeMinutes`, `totalTimeHours` and `totalTimeMicroseconds`, and the voltage forms of the Arduino analog reads and writes.
- The C# helper that lists serial ports asks the operating system and prints; it holds no logic to prove.
- `std::stoi` and the `std::stringstream` hex conversions are helper functions here. `HexStringToUInt` reads leading hex digits, and a script's `stoi` is a parameter of the unroller.
- EventTimer.EventTimer.constructor: `m_startTime` and `m_rawTime` are left uninitialised by the source; the model starts them at 0.
- EventTimer.EventTimer.Update: clock ticks and `long long` counters are unbounded integers, so overflow is not modelled.
- FirmwareUtilities.TAbs: does not model the overflow of the AVR's 16-bit `int` in `lhs-rhs`, which is undefined behaviour; `tAbs(30000, -30000)` gives 60000 here.
- FirmwareUtilities.IntExp: does not model the overflow of the AVR's 16-bit `int`; the result is the mathematical power.
- TcpDuplex.ClientTimeoutOf: the client's `uint32_t` timeout wraps; the servers' `long` timeouts are unbounded integers.
- Bitsets.Bitset: the bit count N is at most 31, so every shifted mask fits the `int` the source shifts.
- ScriptUnroller.DoUnrollLoopCommands: requires balanced loops, which is what the script reader produces. On other input the source's loop need not end.
- Gpio.ToEEPROMWritableState: requires a state of at most 1275. Above that the padding loop never stops, because the vector already holds more than five bytes.
- TcpServer.TcpServer.ReadByte: requires a non-empty queue after the receive step. `front()` of an empty deque is undefined behaviour.
- TcpServer.TcpServer.PutBackString: requires a non-empty queue when the text is not empty, for the same reason.
- TcpServer.TcpServer.PutBackChar: requires a non-empty queue, for the same reason.
- ArduinoUno.ArduinoUno.EraseCanPin: requires the CAN pin to be one of the PWM pins still present. Erasing `find()` of a missing element is undefined behaviour, and an analog CAN pin has no alias made of its number.
- GeneralUtilities.StripAllFromString: requires a non-empty pattern, as does GeneralUtilities.StripAll. On the empty pattern the source's loop never ends, because `find("")` is 0 and stripping changes nothing (EmptyPatternMakesNoProgress).
- CanPacket.CanDataPacket.ToBasicArray: requires at most eight bytes. `FromVector` and `setDataPacket` accept a vector of any length, and a longer one would be written past the end of the caller's eight-byte array, which is undefined behaviour.
- CanPacket.CanDataPacket.CombineDataPackets: requires the second packet to be at least as long as the first. A shorter one is read past its end.
- CanMessages: `toPrettyString` only formats for people and is not modelled. The CAN_BUS_PIN constant is declared outside the modelled files, so it is a parameter of the `ArduinoUno` constructor.
- ArduinoUno.ArduinoUno.InitializeIO: models the two loops that build the GPIO and alias maps and the erasure of the CAN pin. It leaves out the rest of `initializeIO`: the configuration file's aliases, IO types and initial states, `assignIOTypes`, the logging, and the Bluetooth multiplier.
- ArduinoUno: `firmwareVersion()` and the serial-protocol reads and writes talk to the board and are not modelled. `AnalogToDigitalThreshold` shows the same ask-once pattern with the reply as a parameter.
- Gpio: the hardware calls `pinModeFast`, `digitalWriteFast`, `digitalReadFast`, `analogRead` and `analogWrite` are not modelled; their results are parameters. In `ArduinoUno` each GPIO object is represented by its IO type.
- TcpDuplex: the reads, peeks and put-backs only forward to the server or client and are not modelled again. The TCP client is represented by its port numbers, timeout and line ending.
- SerialPort: the baud-rate if-chain is split into four functions by the length of the text. Each link keeps the source's order and its answers.
- Copies of logic modelled elsewhere are left out: udpserver (the same queue as `TCPServer`), udpduplex (the same codec as `TCPDuplex`), the tscriptexecutor unroller, the firmware's copy of `CanMessage`, and the Nano and Mega boards.
- DateTime: the `current*` functions and the time stamps read the wall clock and are not modelled.

## Findings

| source | as written | input that shows it | evidently intended | confidence | as-written member | corrected member |
|---|---|---|---|---|---|---|
| ibytestream/ibytestream.cpp:358-364 | the LOOP_END index is computed as `s + i` or `s + i - 1` although `i` already counts from the start of the script | write a, write b, LOOP_START 2, write c, LOOP_END, write d: the end is reported at 5 instead of 4, so the unrolled output keeps the LOOP_END and drops "write d" | the index of the first LOOP_END after the last LOOP_START | not executed | ScriptUnroller.InnerLoopIndexesAsWrittenOverruns | ScriptUnroller.FindInnerLoopIndexes |
| arduino/firmware/include/candatapacket.h:30-42 | `operator==` compares each byte of `rhs` with itself, so two packets are equal whenever their sizes are | through the firmware's toString (arduino/firmware/src/canmessage.cpp:72-77), the frame with id 0, frame 0, length 0 and data 1,0,0,0,0,0,0,0 prints as "" | equal sizes and equal bytes | not executed | CanMessages.BlankAsWrittenIgnoresData | CanPacket.Equals |
| bitset/bitset.h:113-116 | `reset`, `flip` and `test` refuse an index only when it is greater than N | index N passes, and its little-endian shift amount wraps to 2^64 - 1 | refuse every index of N or more, as `set` does | not executed | Bitsets.GuardAsWrittenAdmitsWidth | Bitsets.Rejects |
| udpclient/src/udpclient.cpp:151-154 | `lineEnding()` hands the stored terminator ("\r\n" and so on) to the identifier lookup, which knows no terminator | any line ending set: `setLineEnding(LE_CarriageReturn)` then `lineEnding()` throws | answer the line ending whose terminator is stored | not executed | UdpClient.TerminatorIsNoIdentifier | UdpClient.SetThenGetLineEnding |
| udpclient/src/udpclient.cpp:267-270 | `std::string{1, toSend}` is the initializer-list constructor: two characters, 0x01 then the byte | `writeByte('x')` sends "\x01x" plus the line ending | the one character `toSend` | not executed | UdpClient.UdpClient.WriteByteAsWritten | UdpClient.UdpClient.WriteByte |
| tcpserver/tcpserver.cpp:329-331 | `recvfrom`'s return value, a byte count, is compared with EAGAIN and EWOULDBLOCK, which are errno codes (11 on Linux) | the 11-byte datagram "hello world" is never queued, so no read sees it | only -1 signals a failure | not executed | TcpServer.ElevenByteDatagramLostAsWritten | TcpServer.Synced |
| tcpserver/tcpserver.cpp:474-477 | `putBack(char)` builds `std::string{1, back}`, so 0x01 goes in front of the character | `readByte` then `putBack` of that byte leaves 0x01 at the front of the queue | put back the one character, restoring the queue | not executed | TcpServer.PutBackCharAsWrittenCorrupts | TcpServer.ByteThenPutBackRestores |
| arduino/firmware/src/firmwareutilities.cpp:204-214 | `endsWith` looks only at the first occurrence of the suffix | `endsWith("abab", "ab")` is false | true exactly when the text ends with the suffix | not executed | FirmwareUtilities.EndsWithAsWrittenMissesRepeat | FirmwareUtilities.EndsWithAsIntended |
| arduino/firmware/src/firmwareutilities.cpp:5-21 | `isEvenlyDivisibleBy` is false when either argument is 0, so `isEven(0)` is false and `isOdd(0)` is true | 0 | 0 is even | not executed | FirmwareUtilities.ZeroIsOddAsWritten | FirmwareUtilities.ParityAsIntended |
