/**
 * The server's port configuration (ServerDir/IO_Handler.py): a port file holding
 * exactly four decimal digits names the port, anything else falls back to 1357.
 * Python's `\d` also matches non-ASCII decimal digits; the model reads it as '0'..'9'.
 */
module IOHandler {
  import opened Wrappers
  import opened Text
  import FileHandler

  const DEFAULT_PORT: nat := 1357

  /** `re.fullmatch(r"\d{4}", port)`. */
  predicate IsValidPort(port: string) {
    |port| == 4 && AllDigits(port)
  }

  /** The zero-padded four-digit rendering of a port below 10000. */
  function FourDigits(p: nat): (s: string)
    requires p < 10000
    ensures IsValidPort(s)
  {
    PaddedDigits(p, 4)
  }

  /** Four-digit text and ports below 10000 correspond one to one, leading zeros included. */
  lemma FourDigitsValue(p: nat)
    requires p < 10000
    ensures DecimalValue(FourDigits(p)) == p
  {
    assert Pow10(4) == 10000;
    PaddedDigitsValue(p, 4);
  }

  lemma ValidPortDigits(s: string)
    requires IsValidPort(s)
    ensures DecimalValue(s) < 10000
    ensures FourDigits(DecimalValue(s)) == s
  {
    assert Pow10(4) == 10000;
    DigitsArePadded(s);
  }

  /** The body of `read_port_from_file` after the file has been read: `content` is what `read_from_file` returned. */
  function PortFromContent(content: Option<string>): (port: nat)
    ensures port == DEFAULT_PORT || (content.Some? && IsValidPort(content.value) && port == DecimalValue(content.value))
    ensures content.None? || content.value == [] ==> port == DEFAULT_PORT
    ensures content.Some? && !IsValidPort(content.value) ==> port == DEFAULT_PORT
    ensures content.Some? && IsValidPort(content.value) ==> port == DecimalValue(content.value)
    ensures port < 10000
  {
    match content
    case None => DEFAULT_PORT
    case Some(text) =>
      if text == [] then DEFAULT_PORT
      else if !IsValidPort(text) then DEFAULT_PORT
      else DecimalValue(text)
  }

  /**
   * `read_port_from_file`: never fails. The port is the value of the file's
   * text with spaces and newlines removed when that is exactly four digits,
   * and 1357 otherwise.
   */
  function ReadPortFromFile(file: Option<string>): (port: nat)
    ensures file.None? ==> port == DEFAULT_PORT
    ensures file.Some? && IsValidPort(FileHandler.StripBlanks(file.value)) ==>
              port == DecimalValue(FileHandler.StripBlanks(file.value))
    ensures file.Some? && !IsValidPort(FileHandler.StripBlanks(file.value)) ==> port == DEFAULT_PORT
    ensures port < 10000
  {
    PortFromContent(FileHandler.ReadFromFile(file))
  }

  /** A port file holding any four-digit port and a line break yields that port. */
  lemma PortFileRoundTrip(p: nat)
    requires p < 10000
    ensures ReadPortFromFile(Some(FourDigits(p) + "\n")) == p
  {
    var s := FourDigits(p);
    FileHandler.StripBlanksAppend(s, "\n");
    FileHandler.StripBlanksKeeps(s);
    assert FileHandler.StripBlanks("\n") == [];
    assert FileHandler.StripBlanks(s + "\n") == s;
    FourDigitsValue(p);
  }

  /** Content that is not exactly four digits, such as "12345" or "80", gives the default port. */
  lemma MalformedPortFileGivesDefault()
    ensures ReadPortFromFile(Some("12345")) == DEFAULT_PORT
    ensures ReadPortFromFile(Some("80")) == DEFAULT_PORT
    ensures ReadPortFromFile(Some(" \n")) == DEFAULT_PORT
  {
    FileHandler.StripBlanksKeeps("12345");
    FileHandler.StripBlanksKeeps("80");
  }
}
