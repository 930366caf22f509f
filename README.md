# MessageU core, modelled in Dafny

MessageU is a client/server messaging system. The server is written in Python and the client in C++. This project models the parts of it that can be stated without sockets or threads:

- **Request decoding.** The server's binary request decoder (`Protocol.parse_request` and its helpers). Also the two request encoders of the server's test client, and what the decoder makes of their output.
- **Port file.** The server's port configuration: `read_port_from_file` and `read_from_file`.
- **Server-info file.** The client's reading of its server-info file (`FileManager::readFromFile` and `readServerInfo`).
- **Menu check.** The client's validation of a menu choice (`UserInterface::isValidRequestNumber`, built on `std::stoi`).
- **Loggers.** The server has two loggers (ServerDir/Logger.py, Server/Logger.py) and the client has one (Client/Log.cpp). For each, the model covers how it lays out an entry and how it routes entries to the console and the log file.

Pure code is modelled as functions over values; stateful code is modelled as classes. Each logger is a class whose methods update its flags and append to two output sequences: `console` (the lines printed) and `fileLines` (the lines written to the log file). The Python loggers read and write attributes declared on the class body (`Log._log_file`, `Log._to_file`). Those are modelled as a separate object, `LogClassAttributes`, that every instance shares. The client's `readFromFile` loop is a method with loop invariants, proved against the function `Lines`.

Files:

- `wrappers.dfy`: `Option` and `Result`.
- `bytes.dfy`: byte-level packing and unpacking.
- `text.dfy`: decimal digits and string helpers.
- `protocol.dfy` and `request_builders.dfy`: the wire format.
- `file_handler.dfy`, `io_handler.dfy` and `file_manager.dfy`: the configuration files.
- `user_interface.dfy`: the menu check.
- `log_levels.dfy`, `serverdir_logger.dfy`, `server_logger.dfy` and `client_log.dfy`: the loggers.

**Header layout.** The format string `"16s B H I"` has no byte-order prefix, so Python's `struct` uses native size and alignment, with these fields:

- the 16-byte client id;
- the version byte;
- one pad byte (offset 17);
- the 2-byte code (offset 18);
- the 4-byte payload size (offset 20).

That makes `HEADER_SIZE` 24. The model takes native order to be little-endian. The encoder and decoder use the same format, so the round-trip results hold for either byte order.

## Model

| member | source | states |
|---|---|---|
| Bytes.PackFixed | ServerDir/Tests/test_server.py:34-35 | a `Ns` field is the bytes cut or NUL-padded to exactly N |
| Bytes.EncodeU16 | ServerDir/Protocol.py:13-35 | packing a 16-bit field gives 2 bytes that unpack to the same value |
| Bytes.EncodeDecodeU16 | ServerDir/Protocol.py:13-35 | any 2 bytes unpack (`DecodeU16`, the `H` field read little-endian) and repack to themselves |
| Bytes.EncodeU32 | ServerDir/Protocol.py:13-35 | packing a 32-bit field gives 4 bytes that unpack to the same value |
| Bytes.EncodeDecodeU32 | ServerDir/Protocol.py:13-35 | any 4 bytes unpack (`DecodeU32`, the `I` field read little-endian) and repack to themselves |
| Protocol.UnpackHeader | ServerDir/Protocol.py:35-39 | the header's id field is 16 bytes, taken from the first 24 bytes |
| Protocol.ParseRequest | ServerDir/Protocol.py:21-58 | short header and short payload give their errors; success iff the code/size pair is accepted; the header is echoed; the payload is always None |
| Protocol.ParsePayload | ServerDir/Protocol.py:61-77 | success iff (600, 415 bytes) or (601, 0 bytes), and then None; each error case: wrong registration size, non-empty user list, unsupported code |
| Protocol.AsciiDecode | ServerDir/Protocol.py:95 | decoding ASCII bytes keeps every code point |
| Protocol.AsciiEncode | ServerDir/Protocol.py:95 | encoding ASCII text and decoding it back is the identity |
| Protocol.AsciiDecodeEncode | ServerDir/Protocol.py:95 | decoding ASCII bytes and encoding the text again gives the same bytes |
| Protocol.RStripNul | ServerDir/Protocol.py:95-96 | the result is a prefix with no trailing NUL, and everything stripped was NUL |
| Protocol.RStripNulPadded | ServerDir/Protocol.py:95-96 | NUL-padding then stripping gives back bytes that had no trailing NUL |
| Protocol.ParseRegistrationPayload | ServerDir/Protocol.py:80-101 | anything but 415 bytes is an unpack error; a 415-byte payload succeeds iff its NUL-stripped name field is ASCII, and otherwise fails with the decode error; on success the name is the ASCII text of the whole stripped name field and the key is the whole stripped key field |
| Protocol.ParsePayloadAsIntended | ServerDir/Protocol.py:64-74 | corrected dispatch: a 415-byte code-600 payload yields the registration parser's result; every other code and size, a code-600 size mismatch included, gives exactly what the dispatch as written gives |
| Protocol.ParseRequestAsIntended | ServerDir/Protocol.py:21-58 | every failure of the decoder as written is kept, and so is every success with a code other than 600; an accepted code-600 request now carries the parsed registration of its 415 payload bytes, or fails with the registration parser's error |
| Protocol.PadByteIgnored | ServerDir/Protocol.py:35-39 | changing the pad byte at offset 17 never changes the outcome |
| Protocol.TrailingBytesIgnored | ServerDir/Protocol.py:42-46 | bytes beyond the declared payload never change the outcome |
| RequestBuilders.PackHeader | ServerDir/Tests/test_server.py:35 | a packed header is 24 bytes with a zero pad byte |
| RequestBuilders.PackRegistration | ServerDir/Tests/test_server.py:34 | a packed registration payload is 415 bytes |
| RequestBuilders.BuildRegisterRequest | ServerDir/Tests/test_server.py:33-36 | the register request is 439 bytes |
| RequestBuilders.BuildUserListRequest | ServerDir/Tests/test_server.py:38-40 | the user-list request is a bare 24-byte header |
| RequestBuilders.HeaderRoundTrip | ServerDir/Protocol.py:35-39 | unpacking a packed header gives back its fields, the id cut or padded to 16 bytes |
| RequestBuilders.RequestRoundTrip | ServerDir/Protocol.py:21-77 | any packed header plus exactly its payload (and any trailing bytes) decodes iff the code/size pair is accepted, echoing the header; otherwise it gives the matching error |
| RequestBuilders.RegistrationRoundTrip | ServerDir/Protocol.py:80-101 | ASCII name and key without trailing NULs, packed as "255s 160s", parse back unchanged |
| RequestBuilders.RegisterRequestDecodes | ServerDir/Tests/test_server.py:33-36 | the test client's register request decodes to id all zero, version 1, code 600, size 415 |
| RequestBuilders.UserListRequestDecodes | ServerDir/Tests/test_server.py:38-40 | the user-list request decodes to id all zero, version 1, code 601, size 0 |
| RequestBuilders.RegisterPayloadContents | ServerDir/Tests/test_server.py:34 | the register payload holds the name "yaron serlin" (its explicit NUL stripped) and the key "123456789" |
| RequestBuilders.RegistrationDropped | ServerDir/Protocol.py:64-74 | the decoder as written accepts that request but returns no payload, although the payload parses |
| RequestBuilders.RegistrationRequestAsIntended | ServerDir/Protocol.py:64-74 | with the corrected dispatch, any packed header for code 600 and size 415, followed by a packed ASCII name and key without trailing NULs and by any bytes, decodes to that header and that name and key |
| RequestBuilders.RegisterRequestAsIntended | ServerDir/Protocol.py:64-74 | with the corrected dispatch the register request yields its name and key |
| FileHandler.RemoveAll | ServerDir/FileHandler.py:10 | `replace(c, "")` leaves no `c`, adds nothing, and keeps every other character's count |
| FileHandler.RemoveAllAppend | ServerDir/FileHandler.py:10 | removal distributes over concatenation, so the kept characters keep their order |
| FileHandler.RemoveAllAbsent | ServerDir/FileHandler.py:10 | text without `c` is unchanged |
| FileHandler.StripBlanks | ServerDir/FileHandler.py:10 | no space or newline remains; all other characters are kept with their counts |
| FileHandler.StripBlanksAppend | ServerDir/FileHandler.py:10 | stripping distributes over concatenation |
| FileHandler.StripBlanksKeeps | ServerDir/FileHandler.py:10 | text without spaces and newlines is kept verbatim |
| FileHandler.ReadFromFile | ServerDir/FileHandler.py:5-24 | unreadable or all-blank content gives None; content that is not blank after stripping gives exactly the stripped text |
| IOHandler.FourDigits | ServerDir/IO_Handler.py:8-11 | a zero-padded rendering of a port below 10000 matches `\d{4}` (`IsValidPort`, the `re.fullmatch` of `is_valid_port`) |
| IOHandler.FourDigitsValue | ServerDir/IO_Handler.py:28 | `int()` of that rendering is the port |
| IOHandler.ValidPortDigits | ServerDir/IO_Handler.py:8-28 | every text accepted by `IsValidPort` is the rendering of its value, which is below 10000 |
| IOHandler.PortFromContent | ServerDir/IO_Handler.py:17-28 | missing, empty or malformed content gives 1357; four-digit content gives its value |
| IOHandler.ReadPortFromFile | ServerDir/IO_Handler.py:14-28 | a missing file gives 1357; a file whose text without spaces and newlines is four digits gives their value, any other file gives 1357; the port is always below 10000 |
| IOHandler.PortFileRoundTrip | ServerDir/IO_Handler.py:14-28 | a file holding any four-digit port and a newline yields that port |
| IOHandler.MalformedPortFileGivesDefault | ServerDir/IO_Handler.py:22-25 | "12345", "80" and a blank file give 1357 |
| FileManager.AfterFirstLine | Client/FileManager.cpp:16 | the text left after one `getline` is strictly shorter |
| FileManager.LinesHaveNoNewline | Client/FileManager.cpp:16-18 | no line of `Lines(text)`, the lines `getline` reads, contains '\n' |
| FileManager.FirstLineSplit | Client/FileManager.cpp:16-18 | the first line is the text before the first '\n' |
| FileManager.LinesJoin | Client/FileManager.cpp:16-18 | joining the lines with '\n' gives back the text, with a final '\n' added if it had none |
| FileManager.LinesStep | Client/FileManager.cpp:16-18 | one turn of the loop: the line from `pos` ends at the next '\n', and the rest continues after it |
| FileManager.FindLineEnd | Client/FileManager.cpp:16 | returns the first '\n' at or after `pos`, or the end of the text |
| FileManager.ReadFromFile | Client/FileManager.cpp:5-23 | an unopenable file gives "Unable to open file"; otherwise the loop collects exactly `Lines(text)` |
| FileManager.ParseServerInfo | Client/FileManager.cpp:31-57 | no lines give an error, and a first line without ':' gives an error; on success the first line is address ":" port, the address has no ':', and the port is non-empty digits at most INT_MAX |
| FileManager.ServerInfoRoundTrip | Client/FileManager.cpp:34-57 | any ':'-free address and in-range digit port written as the first line parse back unchanged |
| FileManager.PortNotNumericRejected | Client/FileManager.cpp:45-48 | for any ':'-free address and any port text that is empty or holds a non-digit, the first line is rejected as "Invalid port number" |
| FileManager.PortOutOfRangeRejected | Client/FileManager.cpp:50-55 | for any ':'-free address and any digit port whose value exceeds INT_MAX, the first line is rejected as "Port number out of range" |
| FileManager.OnlyFirstLineConsulted | Client/FileManager.cpp:34 | lines after the first never matter |
| FileManager.SecondColonRejected | Client/FileManager.cpp:36-48 | "a:1:2" splits at the first ':' and is rejected as non-numeric |
| FileManager.ReadServerInfo | Client/FileManager.cpp:25-58 | an unopenable file gives its error; otherwise the result is the parse of the file's lines, and a success reassembles the first line |
| UserInterface.SkipSpaces | Client/UserInterface.cpp:14 | what `stoi` skips leaves no leading white space and is no longer than the input |
| UserInterface.SkipSpacesDropsSpaces | Client/UserInterface.cpp:14 | the skipped text is a suffix of the input and everything dropped before it is white space |
| UserInterface.DigitPrefix | Client/UserInterface.cpp:14 | the longest leading run of digits |
| UserInterface.Stoi | Client/UserInterface.cpp:14 | any value `stoi` returns lies within 32-bit `int` |
| UserInterface.IsValidRequestNumber | Client/UserInterface.cpp:4-40 | Valid iff `stoi` succeeds with one of the eight case labels; exit iff it gives 0; a `stoi` exception means Invalid |
| UserInterface.DigitPrefixOf | Client/UserInterface.cpp:14 | digits followed by a non-digit: `stoi` reads exactly those digits |
| UserInterface.StoiReads | Client/UserInterface.cpp:14 | from an optional '-', a digit run and any non-digit text, `stoi` reads exactly that digit run with that sign |
| UserInterface.NumericPrefixDecides | Client/UserInterface.cpp:14 | text after the leading number never changes `stoi`'s result |
| UserInterface.StoiRoundTrip | Client/UserInterface.cpp:14 | every `int` printed in decimal is read back exactly |
| UserInterface.AcceptedWithTrailingText | Client/UserInterface.cpp:14-26 | a request code followed by any non-digit text is accepted |
| UserInterface.TrailingTextAccepted | Client/UserInterface.cpp:14-26 | "151abc" is accepted |
| UserInterface.UnlistedCodeAccepted | Client/UserInterface.cpp:25-26 | 153 is accepted although the menu does not list it |
| UserInterface.ZeroExits | Client/UserInterface.cpp:27-28 | "0" and "-0" exit |
| UserInterface.NonNumericRejected | Client/UserInterface.cpp:34-37 | "abc" and a lone "+" hold no number and are rejected |
| UserInterface.UnknownCodeRejected | Client/UserInterface.cpp:29-31 | "100", a number that is not a case label, is rejected |
| Text.IntToString | Client/Log.cpp:127 | the decimal rendering of a line number is non-empty and starts with '-' iff the number is negative; StoiRoundTrip reads every `int` back from it |
| Text.NatToString | Client/Log.cpp:127 | a decimal rendering: non-empty digits with no leading zero, whose value is the number |
| Text.PaddedDigitsValue | ServerDir/IO_Handler.py:28 | zero-padded digits of v read back as v |
| Text.DigitsArePadded | ServerDir/IO_Handler.py:28 | any digit string is the zero-padded rendering of its value |
| Text.IndexOf | Client/FileManager.cpp:36 | `find`: the first occurrence, or the length when there is none |
| Text.IndexOfUnique | Client/FileManager.cpp:36 | an index holding `c` with none before it is what `find` returns |
| LogLevels.LevelName | ServerDir/Logger.py:17-36 | names are 4 to 7 characters; "UNKNOWN" iff the level is none of the four |
| LogLevels.LevelNamesDistinct | Client/Log.cpp:99-105 | different levels have different names |
| ServerDirLogger.Center | ServerDir/Logger.py:183-186 | `str.center`: text at least `width` long is unchanged, shorter text is padded to exactly `width` |
| ServerDirLogger.CenterLayout | ServerDir/Logger.py:183-186 | shorter text sits after CPython's left margin `marg // 2 + (marg & width & 1)`, with only spaces before and after it |
| ServerDirLogger.CenterEvenMargin | ServerDir/Logger.py:183-186 | an even margin is split into two equal runs of spaces |
| ServerDirLogger.EvenNameCentred | ServerDir/Logger.py:183-184 | an even-length name is centred in 6 and followed by one more space |
| ServerDirLogger.LevelFieldCentred | ServerDir/Logger.py:179-186 | the level field (`LevelField`) of a name of at most 7 characters is 7 characters: ⌊(7−len)/2⌋ spaces, the name, then spaces |
| ServerDirLogger.LevelFieldsOfLevels | ServerDir/Logger.py:183-186 | the fields are " DEBUG ", " INFO  ", "WARNING", " ERROR " and "UNKNOWN" |
| ServerDirLogger.Truncate | ServerDir/Logger.py:178-182 | `s[:n]` is the prefix of length min(n, len) |
| ServerDirLogger.FixedPart | ServerDir/Logger.py:182-188 | the fixed part opens with the bracketed timestamp cut to 19 characters |
| ServerDirLogger.FixedPartLayout | ServerDir/Logger.py:182-188 | after the bracketed timestamp come " [", the level field, "] " and "[filename:line]", and nothing else |
| ServerDirLogger.PadEntry | ServerDir/Logger.py:188-195 | fixed part, spaces up to column max(54, its length), the message verbatim, then " (" name ")": the message never starts before column 54 or inside the fixed part |
| ServerDirLogger.TimestampFirst | ServerDir/Logger.py:178-194 | every entry `FormatLogEntry` builds (`_format_log_entry`) opens with "[" the timestamp cut to its first 19 characters "]" |
| ServerDirLogger.LogClassAttributes.constructor | ServerDir/Logger.py:41-42 | the class attributes start with no file and file logging off |
| ServerDirLogger.Log.constructor | ServerDir/Logger.py:46-59 | the instance flags are set; the instance's file is open iff requested with a name and the open succeeds; a failed open clears only the class attribute `_to_file` |
| ServerDirLogger.Log.InitializeLogFile | ServerDir/Logger.py:62-74 | opens the file when requested with a name; on failure clears the class attribute `Log._to_file` and leaves the instance's own flag |
| ServerDirLogger.Log.Cleanup | ServerDir/Logger.py:76-82 | afterwards no file is held, and nothing else changes, so a second call does nothing |
| ServerDirLogger.Log.LogToFile | ServerDir/Logger.py:111-120 | DEBUG entries are never written; others are appended |
| ServerDirLogger.Log.LogMessage | ServerDir/Logger.py:84-109 | the formatted entry reaches the console iff `_to_console`, and the file iff `_to_file`, the class attribute `Log._log_file` and the level is not DEBUG |
| ServerDirLogger.Log.LogMessageAsIntended | ServerDir/Logger.py:108-109 | corrected routing: the file gate reads the instance's own file |
| ServerDirLogger.FileOutputNeverHappens | ServerDir/Logger.py:108 | the gate reads the class attribute `Log._log_file` (None at line 41), while `__init__` sets only the instance's (line 71): a logger whose file opened still writes nothing to it at any level; the console gets the entry |
| ServerDirLogger.FileOutputAsIntended | ServerDir/Logger.py:108-120 | with the corrected gate every non-DEBUG entry reaches the file |
| ServerLogger.LevelString | Server/Logger.py:16-26 | every level string is 7 characters |
| ServerLogger.LevelStringCentred | Server/Logger.py:16-26 | the hard-coded strings equal the ServerDir logger's centred fields |
| ServerLogger.EntryHead | Server/Logger.py:65 | "[" timestamp "] " then the 7-character level, ending in a tab |
| ServerLogger.EntryHeadLayout | Server/Logger.py:65 | the level is preceded by "[" and followed by "] [" filename ":" line "]" and the tab, and nothing else |
| ServerLogger.LogEntry | Server/Logger.py:65 | the head, the message verbatim, then " (" name ")" |
| ServerLogger.LogClassAttributes.constructor | Server/Logger.py:30-31 | this logger's own class attributes start with no file and file logging off |
| ServerLogger.Log.constructor | Server/Logger.py:35-48 | as in the ServerDir logger: the instance's file is open iff requested and opened; a failed open clears only the class attribute |
| ServerLogger.Log.Cleanup | Server/Logger.py:50-53 | afterwards no file is held and nothing else changes |
| ServerLogger.Log.LogToFile | Server/Logger.py:73-75 | DEBUG entries are never written |
| ServerLogger.Log.LogMessage | Server/Logger.py:55-71 | the entry reaches the console iff `_to_console`, and the file iff `_to_file`, the class attribute `Log._log_file` and the level is not DEBUG |
| ServerLogger.FileOutputNeverHappens | Server/Logger.py:70 | the gate reads the class attribute `Log._log_file` (None at line 30), while `__init__` sets only the instance's (line 45): a logger whose file opened writes nothing to it |
| ClientLog.LevelToString | Client/Log.cpp:97-114 | Some iff the name fits `width`, and then exactly `width` characters |
| ClientLog.LevelToStringLayout | Client/Log.cpp:109-112 | the name sits at ⌊pad/2⌋ with only spaces before and after it, so the odd space goes to the right |
| ClientLog.SameCentringAsServer | Client/Log.cpp:107-112 | at the default width 7 the client centres every name exactly as ServerDir/Logger.py does |
| ClientLog.DefaultWidthStrings | Client/Log.h:49 | at width 7: " DEBUG ", " INFO  ", "WARNING", " ERROR ", "UNKNOWN" |
| ClientLog.FindLastSeparator | Client/Log.cpp:122 | `find_last_of("/\\")`: a separator with none after it, or None when there is none |
| ClientLog.BaseName | Client/Log.cpp:120-125 | the longest separator-free suffix of the path, the file name `CallerDetails` puts in "[file:line]" |
| ClientLog.BaseNameOfPlainName | Client/Log.cpp:123-125 | a path without a separator is kept whole |
| ClientLog.BaseNameAfterSeparator | Client/Log.cpp:122-125 | everything up to and including the last '/' or '\\' is dropped |
| ClientLog.SetW | Client/Log.cpp:51 | `std::setw`: right-aligned, never cut |
| ClientLog.LevelColumn | Client/Log.cpp:46-52 | in the entry `LogEntry` builds, "[timestamp] [" comes first; a 7-character level string follows, unchanged by `setw(7)`; then "] ", the caller details, a space, the message, " (", the logger name and ")", in that order and nothing else; the entry's length is fixed by its parts |
| ClientLog.MessageEntryLayout | Client/Log.cpp:46-52 | the entry `log_message` writes for any level, file and line: "[timestamp] [", the level centred exactly as the ServerDir logger's field, "] ", the caller's "[file:line]", the message and " (" name ")" |
| ClientLog.Log.constructor | Client/Log.cpp:4-15 | file logging stays on iff requested and either no file name was given or the open succeeded; the file is open iff requested, named and opened |
| ClientLog.Log.Cleanup | Client/Log.cpp:37-41 | afterwards the file is closed, so a second call does nothing |
| ClientLog.Log.LogToFile | Client/Log.cpp:78-82 | DEBUG entries are never written |
| ClientLog.Log.Route | Client/Log.cpp:54-75 | an unknown level with console logging on throws before any output; otherwise the entry reaches the console iff `_log_to_console`, and the file iff the file is open and the level is not DEBUG |
| ClientLog.Log.LogMessage | Client/Log.cpp:43-62 | the entry (`MessageEntry`) built from the centred level, the caller's file name and line is routed as above |
| ClientLog.FileOutput | Client/Log.cpp:43-62 | with the constructor of lines 4-15, a logger whose file opened writes every non-DEBUG entry there; one whose open failed writes nothing and turns file logging off |

## Left out

- Networking and threads: socket bind, listen, accept, `recv` and the thread per connection (ServerDir/Server.py, Server/Server.py, Server/Main.py), the socket clients of the test scripts, and Client/NetworkManager.cpp. `handle_client` passes at most 439 bytes to the decoder. The decoder is modelled for any input length.
- Client/Client.cpp (`main` and console I/O) is not part of this model. FileManager.h declares `readServerInfo` as returning `pair<string,int>`, but FileManager.cpp returns `pair<string,string>`; the model follows the .cpp body. Inside it, `port = std::stoi(portStr)` stores an `int` into a `std::string`, which keeps only one character. That value is discarded, so the model only keeps the `out_of_range` check.
- `readClientData`, `writeClientData` and `generatePrivateKey` are TODO stubs. Client/MessageHandler.h, Client/SecurityManager.h and Client/ClientData.h hold declarations only, and the RSA/AES cryptography they name is foreign code.
- File system: opening, reading, appending and closing files are inputs (`Option<string>` contents, an `openSucceeds` flag) or output sequences. The Python loggers' `print` to stderr on a failed open is not modelled, nor is Python's newline translation on read.
- Logger internals: timestamps (`datetime.now`, `localtime_s`; the empty timestamp on failure) are inputs. Caller frames (`inspect.currentframe`) and `__builtin_FILE`/`__builtin_LINE` are inputs. ANSI colour codes are not part of the modelled console lines, and locks and mutexes are left out.
- The level wrappers `debug`/`info`/`warning`/`error` of all three loggers only forward a level. They are covered by `LogMessage` with that level. The client's destructor only calls `cleanup`.
- IOHandler.IsValidPort: Python's `\d` also matches non-ASCII decimal digits; the model accepts only '0'..'9'.
- Logging from the port-file code: the `logger.debug`, `logger.warning` and `logger.error` calls of ServerDir/FileHandler.py:7-23 and ServerDir/IO_Handler.py:18-27 produce no modelled output; FileHandler.ReadFromFile and IOHandler.ReadPortFromFile model only their results.
- UserInterface.IsValidRequestNumber: `exit(0)` is the result `ExitProgram` rather than the end of the process, and the `log.error` calls are not modelled.
- UserInterface.Stoi: only the "C" locale's white space is skipped, and base prefixes are not relevant to base 10.
- ClientLog.LevelToString: the `size_t` arithmetic of `width - level_str.size()` is modelled as a signed difference, as the conversion back to `int` gives. A negative space count is `None`, standing for the exception `std::string` throws.

## Findings

| source | as written | input that shows it | evidently intended | confidence | as-written member | corrected member |
|---|---|---|---|---|---|---|
| ServerDir/Protocol.py:64-74 | the code-600 branch checks the length and falls off the end, returning None; the call to `_parse_registration_payload` sits unreachably after code 601's `return None` | the test client's register request (code 600, 415-byte payload "yaron serlin" / "123456789") | a code-600 request yields the parsed name and public key | not executed | RequestBuilders.RegistrationDropped | RequestBuilders.RegistrationRequestAsIntended |
| ServerDir/Logger.py:108 | file output is gated on the class attribute `Log._log_file`, which is always None because `__init__` assigns only the instance's `self._log_file`; no entry ever reaches the log file (Server/Logger.py:70 is the same) | `Log(filename="logfile.txt", log_to_file=True)` with a successful open, then an INFO message | non-DEBUG entries are written to the opened file | not executed | ServerDirLogger.FileOutputNeverHappens | ServerDirLogger.FileOutputAsIntended |
