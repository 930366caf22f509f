/**
 * The server's binary request decoder (class `Protocol` in ServerDir/Protocol.py).
 *
 * The header format "16s B H I" carries no byte-order prefix, so Python's
 * `struct` uses native size and alignment: the 16-byte client id, the version
 * byte, one pad byte, the 2-byte code at offset 18 and the 4-byte payload size
 * at offset 20, 24 bytes in all. Native order is taken to be little-endian.
 */
module Protocol {
  import opened Wrappers
  import opened Bytes

  const CLIENT_ID_SIZE := 16
  const VERSION_OFFSET := 16
  const PAD_OFFSET := 17
  const CODE_OFFSET := 18
  const PAYLOAD_SIZE_OFFSET := 20
  const HEADER_SIZE := 24

  const NAME_SIZE := 255
  const PUBLIC_KEY_SIZE := 160
  const REGISTRATION_SIZE := NAME_SIZE + PUBLIC_KEY_SIZE

  const REGISTRATION_CODE: uint16 := 600
  const USER_LIST_CODE: uint16 := 601

  datatype Header = Header(clientId: seq<byte>, version: byte, code: uint16, payloadSize: uint32)

  /** The registration payload: the name as ASCII text, the public key as raw bytes. */
  datatype Registration = Registration(name: string, publicKey: seq<byte>)

  datatype Request = Request(header: Header, payload: Option<Registration>)

  /** Each `ValueError` the decoder raises, plus the `struct.error` of a wrong-sized registration. */
  datatype DecodeError =
    | ShortHeader(actual: nat, expected: nat)
    | ShortPayload(actual: nat, expected: nat)
    | RegistrationSizeMismatch(actual: nat, expected: nat)
    | UserListSizeMismatch(actual: nat, expected: nat)
    | UnsupportedCode(code: uint16)
    | UnpackSizeMismatch(actual: nat, expected: nat)
    | NameNotAscii

  /** `struct.unpack(HEADER_FORMAT, h)`: the pad byte at offset 17 is skipped. */
  function UnpackHeader(h: seq<byte>): (hd: Header)
    requires |h| == HEADER_SIZE
    ensures |hd.clientId| == CLIENT_ID_SIZE
  {
    Header(h[..CLIENT_ID_SIZE], h[VERSION_OFFSET],
           DecodeU16(h[CODE_OFFSET..PAYLOAD_SIZE_OFFSET]),
           DecodeU32(h[PAYLOAD_SIZE_OFFSET..HEADER_SIZE]))
  }

  /** The declared end of the payload region of a buffer holding at least a header. */
  function PayloadEnd(data: seq<byte>): nat
    requires |data| >= HEADER_SIZE
  {
    HEADER_SIZE + UnpackHeader(data[..HEADER_SIZE]).payloadSize as int
  }

  /**
   * `Protocol.parse_request`: all-or-nothing decoding of one request. A success
   * never carries a payload, since `_parse_payload` returns None for both codes
   * it accepts.
   */
  function ParseRequest(data: seq<byte>): (r: Result<Request, DecodeError>)
    ensures |data| < HEADER_SIZE ==> r == Failure(ShortHeader(|data|, HEADER_SIZE))
    ensures |data| >= HEADER_SIZE && |data| < PayloadEnd(data) ==>
              r == Failure(ShortPayload(|data|, PayloadEnd(data)))
    ensures r.Success? ==>
              && |data| >= PayloadEnd(data)
              && r.value.header == UnpackHeader(data[..HEADER_SIZE])
              && r.value.payload.None?
    ensures r.Success? <==>
              && |data| >= HEADER_SIZE
              && |data| >= PayloadEnd(data)
              && AcceptedShape(UnpackHeader(data[..HEADER_SIZE]))
  {
    if |data| < HEADER_SIZE then Failure(ShortHeader(|data|, HEADER_SIZE))
    else
      var header := UnpackHeader(data[..HEADER_SIZE]);
      var end := HEADER_SIZE + header.payloadSize as int;
      if |data| < end then Failure(ShortPayload(|data|, end))
      else
        match ParsePayload(data[HEADER_SIZE..end], header.code)
        case Failure(e) => Failure(e)
        case Success(payload) => Success(Request(header, payload))
  }

  /** The only (code, payload size) pairs the decoder accepts. */
  predicate AcceptedShape(h: Header) {
    || (h.code == REGISTRATION_CODE && h.payloadSize as int == REGISTRATION_SIZE)
    || (h.code == USER_LIST_CODE && h.payloadSize == 0)
  }

  /**
   * `Protocol._parse_payload`: dispatch on the request code. Code 600 checks the
   * length and then falls off the end of the function, so it yields None like
   * code 601; the registration parser after 601's `return None` is never reached.
   */
  function ParsePayload(payload: seq<byte>, code: uint16): (r: Result<Option<Registration>, DecodeError>)
    ensures r.Success? ==> r.value.None?
    ensures r.Success? <==>
              || (code == REGISTRATION_CODE && |payload| == REGISTRATION_SIZE)
              || (code == USER_LIST_CODE && |payload| == 0)
    ensures code == REGISTRATION_CODE && |payload| != REGISTRATION_SIZE ==>
              r == Failure(RegistrationSizeMismatch(|payload|, REGISTRATION_SIZE))
    ensures code == USER_LIST_CODE && |payload| != 0 ==>
              r == Failure(UserListSizeMismatch(|payload|, 0))
    ensures code != REGISTRATION_CODE && code != USER_LIST_CODE ==>
              r == Failure(UnsupportedCode(code))
  {
    if code == REGISTRATION_CODE then
      if |payload| != REGISTRATION_SIZE then Failure(RegistrationSizeMismatch(|payload|, REGISTRATION_SIZE))
      else Success(None)
    else if code == USER_LIST_CODE then
      if |payload| > 0 then Failure(UserListSizeMismatch(|payload|, 0))
      else Success(None)
    else
      Failure(UnsupportedCode(code))
  }

  /** Bytes that decode as ASCII. */
  predicate IsAscii(b: seq<byte>) {
    forall i | 0 <= i < |b| :: b[i] < 0x80
  }

  /** Text made only of ASCII characters. */
  predicate IsAsciiText(s: string) {
    forall i | 0 <= i < |s| :: s[i] < 0x80 as char
  }

  /** `bytes.decode('ascii')` on bytes that are ASCII. */
  function AsciiDecode(b: seq<byte>): (s: string)
    requires IsAscii(b)
    ensures |s| == |b| && IsAsciiText(s)
    ensures forall i | 0 <= i < |b| :: s[i] as int == b[i] as int
  {
    seq(|b|, i requires 0 <= i < |b| => b[i] as int as char)
  }

  /** `str.encode('ascii')` on ASCII text. */
  function AsciiEncode(s: string): (b: seq<byte>)
    requires IsAsciiText(s)
    ensures |b| == |s| && IsAscii(b)
    ensures AsciiDecode(b) == s
  {
    var b := seq(|s|, i requires 0 <= i < |s| => s[i] as int as byte);
    assert forall i | 0 <= i < |s| :: AsciiDecode(b)[i] == s[i];
    b
  }

  /** Decoding ASCII bytes and encoding the text again gives the same bytes. */
  lemma AsciiDecodeEncode(b: seq<byte>)
    requires IsAscii(b)
    ensures AsciiEncode(AsciiDecode(b)) == b
  {
    var e := AsciiEncode(AsciiDecode(b));
    assert forall i | 0 <= i < |b| :: e[i] == b[i];
  }

  /** `bytes.rstrip(b'\x00')`. */
  function RStripNul(b: seq<byte>): (r: seq<byte>)
    ensures |r| <= |b| && r == b[..|r|]
    ensures r == [] || r[|r| - 1] != 0
    ensures forall i | |r| <= i < |b| :: b[i] == 0
  {
    if b == [] then []
    else if b[|b| - 1] == 0 then RStripNul(b[..|b| - 1])
    else b
  }

  /** Bytes with no trailing NUL come back from padding and stripping unchanged. */
  lemma RStripNulPadded(s: seq<byte>, n: nat)
    requires |s| <= n
    requires s == [] || s[|s| - 1] != 0
    ensures RStripNul(PackFixed(s, n)) == s
  {
    var b := PackFixed(s, n);
    var r := RStripNul(b);
    assert b[..|s|] == s;
  }

  /**
   * `Protocol._parse_registration_payload`: unpack "255s 160s" (a `struct.error`
   * unless exactly 415 bytes), strip trailing NULs from both fields and decode
   * the name as ASCII.
   */
  function ParseRegistrationPayload(payload: seq<byte>): (r: Result<Registration, DecodeError>)
    ensures |payload| != REGISTRATION_SIZE ==>
              r == Failure(UnpackSizeMismatch(|payload|, REGISTRATION_SIZE))
    ensures |payload| == REGISTRATION_SIZE ==>
              (r.Success? <==> IsAscii(RStripNul(payload[..NAME_SIZE])))
    ensures |payload| == REGISTRATION_SIZE && !IsAscii(RStripNul(payload[..NAME_SIZE])) ==>
              r == Failure(NameNotAscii)
    ensures r.Success? ==>
              && |r.value.name| <= NAME_SIZE && IsAsciiText(r.value.name)
              && |r.value.publicKey| <= PUBLIC_KEY_SIZE
              && (r.value.publicKey == [] || r.value.publicKey[|r.value.publicKey| - 1] != 0)
              && r.value.publicKey == payload[NAME_SIZE..NAME_SIZE + |r.value.publicKey|]
              && (forall i | 0 <= i < |r.value.name| :: r.value.name[i] as int == payload[i] as int)
    ensures r.Success? ==>
              && r.value.publicKey == RStripNul(payload[NAME_SIZE..])
              && AsciiEncode(r.value.name) == RStripNul(payload[..NAME_SIZE])
  {
    if |payload| != REGISTRATION_SIZE then Failure(UnpackSizeMismatch(|payload|, REGISTRATION_SIZE))
    else
      var name := RStripNul(payload[..NAME_SIZE]);
      var publicKey := RStripNul(payload[NAME_SIZE..]);
      if !IsAscii(name) then Failure(NameNotAscii)
      else
        AsciiDecodeEncode(name);
        Success(Registration(AsciiDecode(name), publicKey))
  }

  /**
   * The code-600 dispatch the decoder evidently intends: a 415-byte payload is
   * handed to the registration parser instead of being dropped.
   */
  function ParsePayloadAsIntended(payload: seq<byte>, code: uint16): (r: Result<Option<Registration>, DecodeError>)
    ensures code == REGISTRATION_CODE && |payload| == REGISTRATION_SIZE ==>
              match ParseRegistrationPayload(payload)
              case Success(reg) => r == Success(Some(reg))
              case Failure(e) => r == Failure(e)
    ensures !(code == REGISTRATION_CODE && |payload| == REGISTRATION_SIZE) ==> r == ParsePayload(payload, code)
  {
    if code == REGISTRATION_CODE && |payload| == REGISTRATION_SIZE then
      match ParseRegistrationPayload(payload)
      case Success(reg) => Success(Some(reg))
      case Failure(e) => Failure(e)
    else ParsePayload(payload, code)
  }

  /**
   * `parse_request` with the intended code-600 dispatch: every outcome of the
   * decoder as written is kept, except that an accepted registration request
   * now carries its parsed payload, or fails when its name is not ASCII.
   */
  function ParseRequestAsIntended(data: seq<byte>): (r: Result<Request, DecodeError>)
    ensures ParseRequest(data).Failure? ==> r == ParseRequest(data)
    ensures r.Success? ==> ParseRequest(data) == Success(Request(r.value.header, None))
    ensures ParseRequest(data).Success? && ParseRequest(data).value.header.code != REGISTRATION_CODE ==>
              r == ParseRequest(data)
    ensures ParseRequest(data).Success? && ParseRequest(data).value.header.code == REGISTRATION_CODE ==>
              var reg := ParseRegistrationPayload(data[HEADER_SIZE..HEADER_SIZE + REGISTRATION_SIZE]);
              && (reg.Success? ==> r == Success(Request(ParseRequest(data).value.header, Some(reg.value))))
              && (reg.Failure? ==> r == Failure(reg.error))
  {
    if |data| < HEADER_SIZE then Failure(ShortHeader(|data|, HEADER_SIZE))
    else
      var header := UnpackHeader(data[..HEADER_SIZE]);
      var end := HEADER_SIZE + header.payloadSize as int;
      if |data| < end then Failure(ShortPayload(|data|, end))
      else
        match ParsePayloadAsIntended(data[HEADER_SIZE..end], header.code)
        case Failure(e) => Failure(e)
        case Success(payload) => Success(Request(header, payload))
  }

  /** Header fields come from the first HEADER_SIZE bytes only, and the pad byte is never read. */
  lemma PadByteIgnored(data: seq<byte>, x: byte)
    requires |data| >= HEADER_SIZE
    ensures ParseRequest(data[PAD_OFFSET := x]) == ParseRequest(data)
  {
    var d := data[PAD_OFFSET := x];
    assert d[..HEADER_SIZE][..CLIENT_ID_SIZE] == data[..HEADER_SIZE][..CLIENT_ID_SIZE];
    assert d[..HEADER_SIZE][CODE_OFFSET..PAYLOAD_SIZE_OFFSET] == data[..HEADER_SIZE][CODE_OFFSET..PAYLOAD_SIZE_OFFSET];
    assert d[..HEADER_SIZE][PAYLOAD_SIZE_OFFSET..HEADER_SIZE] == data[..HEADER_SIZE][PAYLOAD_SIZE_OFFSET..HEADER_SIZE];
    assert UnpackHeader(d[..HEADER_SIZE]) == UnpackHeader(data[..HEADER_SIZE]);
    var end := PayloadEnd(data);
    if |data| >= end {
      assert d[HEADER_SIZE..end] == data[HEADER_SIZE..end];
    }
  }

  /** Bytes after the declared payload region are silently ignored. */
  lemma TrailingBytesIgnored(data: seq<byte>, extra: seq<byte>)
    requires |data| >= HEADER_SIZE && |data| >= PayloadEnd(data)
    ensures ParseRequest(data + extra) == ParseRequest(data)
  {
    var d := data + extra;
    assert d[..HEADER_SIZE] == data[..HEADER_SIZE];
    var end := PayloadEnd(data);
    assert d[HEADER_SIZE..end] == data[HEADER_SIZE..end];
  }
}
