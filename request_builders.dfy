/**
 * The wire encoders of the server's test client (`build_register_request` and
 * `build_user_list_request` in ServerDir/Tests/test_server.py), which pack the
 * same "16s B H I" header as the decoder, and what the decoder makes of them.
 */
module RequestBuilders {
  import opened Wrappers
  import opened Bytes
  import opened Protocol

  /** `struct.pack("16s B H I", clientId, version, code, payloadSize)` with native alignment. */
  function PackHeader(clientId: seq<byte>, version: byte, code: uint16, payloadSize: uint32): (h: seq<byte>)
    ensures |h| == HEADER_SIZE
    ensures h[PAD_OFFSET] == 0
  {
    PackFixed(clientId, CLIENT_ID_SIZE) + [version, 0] + EncodeU16(code) + EncodeU32(payloadSize)
  }

  /** `struct.pack("255s 160s", name, publicKey)`. */
  function PackRegistration(name: seq<byte>, publicKey: seq<byte>): (p: seq<byte>)
    ensures |p| == REGISTRATION_SIZE
  {
    PackFixed(name, NAME_SIZE) + PackFixed(publicKey, PUBLIC_KEY_SIZE)
  }

  /** The test client's registration name, with its explicit terminating NUL. */
  const REGISTER_NAME: seq<byte> := AsciiEncode("yaron serlin\0")
  const REGISTER_KEY: seq<byte> := AsciiEncode("123456789")

  /** `build_register_request`: the `clientId` argument is ignored; the id field is packed from `b''`. */
  function BuildRegisterRequest(clientId: seq<byte>): (r: seq<byte>)
    ensures |r| == HEADER_SIZE + REGISTRATION_SIZE
  {
    var payload := PackRegistration(REGISTER_NAME, REGISTER_KEY);
    PackHeader([], 1, REGISTRATION_CODE, |payload| as uint32) + payload
  }

  /** `build_user_list_request`: a bare header; `clientId` is ignored here too. */
  function BuildUserListRequest(clientId: seq<byte>): (r: seq<byte>)
    ensures |r| == HEADER_SIZE
  {
    PackHeader([], 1, USER_LIST_CODE, 0)
  }

  /** Decoding a packed header gives back its fields, the id cut or padded to 16 bytes. */
  lemma {:induction false} HeaderRoundTrip(clientId: seq<byte>, version: byte, code: uint16, payloadSize: uint32)
    ensures UnpackHeader(PackHeader(clientId, version, code, payloadSize))
            == Header(PackFixed(clientId, CLIENT_ID_SIZE), version, code, payloadSize)
  {
    var h := PackHeader(clientId, version, code, payloadSize);
    assert h[..CLIENT_ID_SIZE] == PackFixed(clientId, CLIENT_ID_SIZE);
    assert h[CODE_OFFSET..PAYLOAD_SIZE_OFFSET] == EncodeU16(code);
    assert h[PAYLOAD_SIZE_OFFSET..HEADER_SIZE] == EncodeU32(payloadSize);
  }

  /**
   * A packed header followed by exactly `payloadSize` bytes (and anything after
   * them) decodes exactly when its code and size are one of the accepted pairs;
   * on success the header is echoed, otherwise the error names the offending code
   * or size.
   */
  lemma {:induction false} RequestRoundTrip(clientId: seq<byte>, version: byte, code: uint16,
                                            payload: seq<byte>, extra: seq<byte>)
    requires |payload| < 0x1_0000_0000
    ensures var r := ParseRequest(PackHeader(clientId, version, code, |payload| as uint32) + payload + extra);
            && (r.Success? <==>
                  || (code == REGISTRATION_CODE && |payload| == REGISTRATION_SIZE)
                  || (code == USER_LIST_CODE && |payload| == 0))
            && (r.Success? ==>
                  r.value == Request(Header(PackFixed(clientId, CLIENT_ID_SIZE), version, code, |payload| as uint32), None))
            && (code == REGISTRATION_CODE && |payload| != REGISTRATION_SIZE ==>
                  r == Failure(RegistrationSizeMismatch(|payload|, REGISTRATION_SIZE)))
            && (code == USER_LIST_CODE && |payload| != 0 ==>
                  r == Failure(UserListSizeMismatch(|payload|, 0)))
            && (code != REGISTRATION_CODE && code != USER_LIST_CODE ==>
                  r == Failure(UnsupportedCode(code)))
  {
    var h := PackHeader(clientId, version, code, |payload| as uint32);
    var data := h + payload + extra;
    HeaderRoundTrip(clientId, version, code, |payload| as uint32);
    assert data[..HEADER_SIZE] == h;
    assert data[HEADER_SIZE..HEADER_SIZE + |payload|] == payload;
  }

  /** The registration payload round-trips: ASCII name and key without trailing NULs, padded, parse back unchanged. */
  lemma {:induction false} RegistrationRoundTrip(name: string, publicKey: seq<byte>)
    requires IsAsciiText(name) && |name| <= NAME_SIZE && (name == [] || name[|name| - 1] != '\0')
    requires |publicKey| <= PUBLIC_KEY_SIZE && (publicKey == [] || publicKey[|publicKey| - 1] != 0)
    ensures ParseRegistrationPayload(PackRegistration(AsciiEncode(name), publicKey))
            == Success(Registration(name, publicKey))
  {
    var n := AsciiEncode(name);
    var p := PackRegistration(n, publicKey);
    assert p[..NAME_SIZE] == PackFixed(n, NAME_SIZE);
    assert p[NAME_SIZE..] == PackFixed(publicKey, PUBLIC_KEY_SIZE);
    assert n != [] ==> n[|n| - 1] as int == name[|name| - 1] as int;
    RStripNulPadded(n, NAME_SIZE);
    RStripNulPadded(publicKey, PUBLIC_KEY_SIZE);
  }

  /** The register request decodes, echoing an all-zero id, version 1, code 600 and size 415. */
  lemma RegisterRequestDecodes(clientId: seq<byte>)
    ensures ParseRequest(BuildRegisterRequest(clientId))
            == Success(Request(Header(Zeros(CLIENT_ID_SIZE), 1, REGISTRATION_CODE, REGISTRATION_SIZE as uint32), None))
  {
    var payload := PackRegistration(REGISTER_NAME, REGISTER_KEY);
    RequestRoundTrip([], 1, REGISTRATION_CODE, payload, []);
    assert PackHeader([], 1, REGISTRATION_CODE, |payload| as uint32) + payload + []
           == BuildRegisterRequest(clientId);
    assert PackFixed([], CLIENT_ID_SIZE) == Zeros(CLIENT_ID_SIZE);
  }

  /** The user-list request decodes, echoing an all-zero id, version 1, code 601 and size 0. */
  lemma UserListRequestDecodes(clientId: seq<byte>)
    ensures ParseRequest(BuildUserListRequest(clientId))
            == Success(Request(Header(Zeros(CLIENT_ID_SIZE), 1, USER_LIST_CODE, 0), None))
  {
    RequestRoundTrip([], 1, USER_LIST_CODE, [], []);
    assert PackHeader([], 1, USER_LIST_CODE, 0) + [] + [] == BuildUserListRequest(clientId);
    assert PackFixed([], CLIENT_ID_SIZE) == Zeros(CLIENT_ID_SIZE);
  }

  /** The register request's payload holds the name "yaron serlin" and the key "123456789". */
  lemma RegisterPayloadContents(clientId: seq<byte>)
    ensures ParseRegistrationPayload(BuildRegisterRequest(clientId)[HEADER_SIZE..])
            == Success(Registration("yaron serlin", AsciiEncode("123456789")))
  {
    var r := BuildRegisterRequest(clientId);
    var name := AsciiEncode("yaron serlin");
    assert PackFixed(REGISTER_NAME, NAME_SIZE) == PackFixed(name, NAME_SIZE);
    assert r[HEADER_SIZE..] == PackRegistration(name, REGISTER_KEY);
    RegistrationRoundTrip("yaron serlin", REGISTER_KEY);
  }

  /** The decoder as written drops that registration: the payload comes back as None. */
  lemma RegistrationDropped(clientId: seq<byte>)
    ensures ParseRegistrationPayload(BuildRegisterRequest(clientId)[HEADER_SIZE..]).Success?
    ensures ParseRequest(BuildRegisterRequest(clientId)).Success?
    ensures ParseRequest(BuildRegisterRequest(clientId)).value.payload == None
  {
    RegisterPayloadContents(clientId);
    RegisterRequestDecodes(clientId);
  }

  /**
   * With the intended dispatch, every packed registration request, whatever
   * follows it, decodes to its header and to the name and key it was built from.
   */
  lemma {:induction false} RegistrationRequestAsIntended(clientId: seq<byte>, version: byte, name: string,
                                                         publicKey: seq<byte>, extra: seq<byte>)
    requires IsAsciiText(name) && |name| <= NAME_SIZE && (name == [] || name[|name| - 1] != '\0')
    requires |publicKey| <= PUBLIC_KEY_SIZE && (publicKey == [] || publicKey[|publicKey| - 1] != 0)
    ensures ParseRequestAsIntended(PackHeader(clientId, version, REGISTRATION_CODE, REGISTRATION_SIZE as uint32)
                                   + PackRegistration(AsciiEncode(name), publicKey) + extra)
            == Success(Request(Header(PackFixed(clientId, CLIENT_ID_SIZE), version, REGISTRATION_CODE,
                                      REGISTRATION_SIZE as uint32),
                               Some(Registration(name, publicKey))))
  {
    var payload := PackRegistration(AsciiEncode(name), publicKey);
    var data := PackHeader(clientId, version, REGISTRATION_CODE, |payload| as uint32) + payload + extra;
    RequestRoundTrip(clientId, version, REGISTRATION_CODE, payload, extra);
    RegistrationRoundTrip(name, publicKey);
    assert data[HEADER_SIZE..HEADER_SIZE + REGISTRATION_SIZE] == payload;
  }

  /** With the intended dispatch, the register request yields its name and key. */
  lemma RegisterRequestAsIntended(clientId: seq<byte>)
    ensures ParseRequestAsIntended(BuildRegisterRequest(clientId))
            == Success(Request(Header(Zeros(CLIENT_ID_SIZE), 1, REGISTRATION_CODE, REGISTRATION_SIZE as uint32),
                               Some(Registration("yaron serlin", AsciiEncode("123456789")))))
  {
    var r := BuildRegisterRequest(clientId);
    RegisterRequestDecodes(clientId);
    RegisterPayloadContents(clientId);
    assert r[HEADER_SIZE..HEADER_SIZE + REGISTRATION_SIZE] == r[HEADER_SIZE..];
  }
}
