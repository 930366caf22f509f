/**
 * The client's server-info file (Client/FileManager.cpp). Opening the file is
 * abstracted: the input is the file's text, or None when the stream cannot be
 * opened. `readFromFile` splits the text the way repeated `std::getline` does;
 * `readServerInfo` parses the first line as `<IP>:<PORT>`.
 */
module FileManager {
  import opened Wrappers
  import opened Text

  /** `INT_MAX` of a 32-bit `int`, the bound `std::stoi` enforces. */
  const INT_MAX: nat := 0x7FFF_FFFF

  /** The `std::runtime_error`s the two functions throw. */
  datatype FileError =
    | UnableToOpen(path: string)
    | EmptyServerInfo
    | MissingSeparator
    | PortNotNumeric
    | PortOutOfRange

  /** The text after the first line and its '\n' (empty when there is no '\n'). */
  function AfterFirstLine(text: string): (rest: string)
    ensures |rest| < |text| || text == []
  {
    var k := IndexOf(text, '\n');
    if k < |text| then text[k + 1..] else []
  }

  /**
   * The lines successive `std::getline` calls extract: each ends at a '\n',
   * which is consumed and dropped; a last line without '\n' still counts, and
   * an empty remainder ends the loop.
   */
  function Lines(text: string): (ls: seq<string>)
    decreases |text|
  {
    if text == [] then []
    else [text[..IndexOf(text, '\n')]] + Lines(AfterFirstLine(text))
  }

  /** Every line followed by a newline, as `std::endl` would write them. */
  function JoinLines(ls: seq<string>): string {
    if ls == [] then [] else ls[0] + "\n" + JoinLines(ls[1..])
  }

  /** A text ending in '\n' (or empty) stays as it is; otherwise it gains a final '\n'. */
  function Terminated(text: string): string {
    if text == [] || text[|text| - 1] == '\n' then text else text + "\n"
  }

  /** No extracted line holds a '\n'. */
  lemma {:induction false} LinesHaveNoNewline(text: string)
    ensures forall i | 0 <= i < |Lines(text)| :: '\n' !in Lines(text)[i]
    decreases |text|
  {
    if text != [] {
      LinesHaveNoNewline(AfterFirstLine(text));
    }
  }

  /** The line before the first '\n' and the text after it put the text back together. */
  lemma FirstLineSplit(text: string)
    requires text != []
    ensures IndexOf(text, '\n') < |text| ==>
              text == text[..IndexOf(text, '\n')] + "\n" + AfterFirstLine(text)
    ensures IndexOf(text, '\n') == |text| ==>
              text[..IndexOf(text, '\n')] == text && AfterFirstLine(text) == []
  {
    var k := IndexOf(text, '\n');
    if k < |text| {
      SplitAround(text, k);
    }
  }

  /** A text is what comes before index `k`, the character there, and what follows. */
  lemma SplitAround(s: string, k: nat)
    requires k < |s|
    ensures s == s[..k] + [s[k]] + s[k + 1..]
  {
  }

  /** A non-empty tail decides whether the whole text is terminated. */
  lemma TerminatedAppend(a: string, b: string)
    requires b != []
    ensures Terminated(a + b) == a + Terminated(b)
  {
    assert (a + b)[|a + b| - 1] == b[|b| - 1];
  }

  /**
   * Lines loses nothing but the final newline: writing the lines back, each
   * followed by '\n', gives the text, plus one '\n' when the text lacked a final one.
   */
  lemma {:induction false} LinesJoin(text: string)
    ensures JoinLines(Lines(text)) == Terminated(text)
    decreases |text|
  {
    if text != [] {
      var k := IndexOf(text, '\n');
      var line := text[..k];
      var rest := AfterFirstLine(text);
      assert Lines(text) == [line] + Lines(rest);
      FirstLineSplit(text);
      if k == |text| {
        assert Lines(rest) == [];
        assert JoinLines(Lines(text)) == line + "\n";
      } else {
        assert JoinLines(Lines(text)) == line + "\n" + JoinLines(Lines(rest));
        LinesJoin(rest);
        if rest != [] {
          TerminatedAppend(line + "\n", rest);
        }
      }
    }
  }

  /** One turn of the getline loop: the line from `pos` ends at the first '\n' at or after it. */
  lemma LinesStep(text: string, pos: nat, end: nat, next: nat)
    requires pos < |text| && pos <= end <= |text|
    requires forall j | pos <= j < end :: text[j] != '\n'
    requires end < |text| ==> text[end] == '\n'
    requires next == if end < |text| then end + 1 else |text|
    ensures Lines(text[pos..]) == [text[pos..end]] + Lines(text[next..])
  {
    var rest := text[pos..];
    IndexOfUnique(rest, '\n', end - pos);
    assert rest[..end - pos] == text[pos..end];
    assert AfterFirstLine(rest) == text[next..];
  }

  /** The loop invariant of `readFromFile` survives one more line. */
  lemma LinesLoopStep(text: string, lines: seq<string>, pos: nat, end: nat, next: nat)
    requires pos < |text| && pos <= end <= |text|
    requires forall j | pos <= j < end :: text[j] != '\n'
    requires end < |text| ==> text[end] == '\n'
    requires next == if end < |text| then end + 1 else |text|
    requires lines + Lines(text[pos..]) == Lines(text)
    ensures (lines + [text[pos..end]]) + Lines(text[next..]) == Lines(text)
  {
    LinesStep(text, pos, end, next);
    AppendOne(lines, text[pos..end], Lines(text[next..]), Lines(text));
  }

  /** Moving one element from the front of the rest to the end of the prefix keeps the whole. */
  lemma AppendOne(prefix: seq<string>, x: string, rest: seq<string>, whole: seq<string>)
    requires prefix + ([x] + rest) == whole
    ensures (prefix + [x]) + rest == whole
  {
    assert (prefix + [x]) + rest == prefix + ([x] + rest);
  }

  /** Once the stream is exhausted the lines collected are all the lines. */
  lemma LinesLoopDone(text: string, lines: seq<string>, pos: nat)
    requires pos == |text|
    requires lines + Lines(text[pos..]) == Lines(text)
    ensures lines == Lines(text)
  {
    assert text[pos..] == [];
    assert lines + [] == lines;
  }

  /** The `std::getline` scan: the index of the first '\n' at or after `pos`, or `|text|`. */
  method FindLineEnd(text: string, pos: nat) returns (end: nat)
    requires pos <= |text|
    ensures pos <= end <= |text|
    ensures forall j | pos <= j < end :: text[j] != '\n'
    ensures end < |text| ==> text[end] == '\n'
  {
    end := pos;
    while end < |text| && text[end] != '\n'
      invariant pos <= end <= |text|
      invariant forall j | pos <= j < end :: text[j] != '\n'
    {
      end := end + 1;
    }
  }

  /** `FileManager::readFromFile`: the `while (std::getline(file, line))` loop pushing each line. */
  method ReadFromFile(path: string, file: Option<string>) returns (r: Result<seq<string>, FileError>)
    ensures file.None? ==> r == Failure(UnableToOpen(path))
    ensures file.Some? ==> r == Success(Lines(file.value))
  {
    if file.None? {
      return Failure(UnableToOpen(path));
    }
    var text := file.value;
    var lines: seq<string> := [];
    var pos := 0;
    while pos < |text|
      invariant 0 <= pos <= |text|
      invariant lines + Lines(text[pos..]) == Lines(text)
      decreases |text| - pos
    {
      var end := FindLineEnd(text, pos);
      var next := if end < |text| then end + 1 else |text|;
      LinesLoopStep(text, lines, pos, end, next);
      lines := lines + [text[pos..end]];
      pos := next;
    }
    LinesLoopDone(text, lines, pos);
    return Success(lines);
  }

  /**
   * The checks of `FileManager::readServerInfo` on the lines read: only the
   * first line is consulted; it splits at its first ':' into an address (which
   * may be empty) and a port text, which must be a non-empty run of digits whose
   * value fits an `int`. The port text is returned verbatim.
   */
  function ParseServerInfo(lines: seq<string>): (r: Result<(string, string), FileError>)
    ensures lines == [] ==> r == Failure(EmptyServerInfo)
    ensures r.Success? ==>
              && lines != []
              && lines[0] == r.value.0 + ":" + r.value.1
              && ':' !in r.value.0
              && r.value.1 != [] && AllDigits(r.value.1)
              && DecimalValue(r.value.1) <= INT_MAX
    ensures lines != [] && ':' !in lines[0] ==> r == Failure(MissingSeparator)
  {
    if lines == [] then Failure(EmptyServerInfo)
    else
      var line := lines[0];
      var pos := IndexOf(line, ':');
      if pos == |line| then Failure(MissingSeparator)
      else
        var address := line[..pos];
        var portText := line[pos + 1..];
        assert line == address + ":" + portText;
        if portText == [] || !AllDigits(portText) then Failure(PortNotNumeric)
        else if DecimalValue(portText) > INT_MAX then Failure(PortOutOfRange)
        else Success((address, portText))
  }

  /** Any address without ':' and any in-range digit port, written as `<IP>:<PORT>` on the first line, parse back unchanged. */
  lemma ServerInfoRoundTrip(address: string, port: string, more: seq<string>)
    requires ':' !in address
    requires port != [] && AllDigits(port) && DecimalValue(port) <= INT_MAX
    ensures ParseServerInfo([address + ":" + port] + more) == Success((address, port))
  {
    var line := address + ":" + port;
    IndexOfUnique(line, ':', |address|);
    assert line[..|address|] == address && line[|address| + 1..] == port;
  }

  /** A port text that is empty or holds a non-digit is "Invalid port number", whatever its value would be. */
  lemma PortNotNumericRejected(address: string, port: string, more: seq<string>)
    requires ':' !in address
    requires port == [] || !AllDigits(port)
    ensures ParseServerInfo([address + ":" + port] + more) == Failure(PortNotNumeric)
  {
    var line := address + ":" + port;
    IndexOfUnique(line, ':', |address|);
    assert line[..|address|] == address && line[|address| + 1..] == port;
  }

  /** A digit port whose value exceeds `INT_MAX` is "Port number out of range", the `std::out_of_range` of `std::stoi`. */
  lemma PortOutOfRangeRejected(address: string, port: string, more: seq<string>)
    requires ':' !in address
    requires port != [] && AllDigits(port) && DecimalValue(port) > INT_MAX
    ensures ParseServerInfo([address + ":" + port] + more) == Failure(PortOutOfRange)
  {
    var line := address + ":" + port;
    IndexOfUnique(line, ':', |address|);
    assert line[..|address|] == address && line[|address| + 1..] == port;
  }

  /** Only the first line matters. */
  lemma OnlyFirstLineConsulted(lines: seq<string>)
    requires lines != []
    ensures ParseServerInfo(lines) == ParseServerInfo([lines[0]])
  {
  }

  /** A port text with a second ':' is not all digits, so "a:1:2" is rejected. */
  lemma SecondColonRejected()
    ensures ParseServerInfo(["a:1:2"]) == Failure(PortNotNumeric)
  {
    IndexOfUnique("a:1:2", ':', 1);
    assert "a:1:2"[2..] == "1:2";
    assert !IsDigit("1:2"[1]);
  }

  /** `FileManager::readServerInfo`: read the lines, then parse the first one. */
  method ReadServerInfo(path: string, file: Option<string>) returns (r: Result<(string, string), FileError>)
    ensures file.None? ==> r == Failure(UnableToOpen(path))
    ensures file.Some? ==> r == ParseServerInfo(Lines(file.value))
    ensures r.Success? ==> file.Some? && Lines(file.value)[0] == r.value.0 + ":" + r.value.1
  {
    var lines := ReadFromFile(path, file);
    match lines
    case Failure(e) =>
      r := Failure(e);
    case Success(ls) =>
      r := ParseServerInfo(ls);
  }
}
