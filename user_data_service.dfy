/** Turning the request's encrypted, signed token into UserData, and the
    read-only views (users, connections, connection groups) derived from it.

    The token is the base64 text of a ciphertext which decrypts to a 32-byte
    HMAC-SHA256 signature followed by the UTF-8 JSON text of the UserData.
    Every way in which a token can fail yields the same result, `None`. */
module UserDataService {
  import opened Wrappers
  import opened UserDataModel
  import opened UserDataConnections

  newtype uint8 = x: int | 0 <= x < 256
  type Bytes = seq<uint8>

  /** Length in bytes of an HMAC-SHA256 signature. */
  const SIGNATURE_LENGTH: nat := 32

  /** The request parameter carrying the token. */
  const ENCRYPTED_DATA_PARAMETER := "data"

  /** The only connection group: every connection lives in it. */
  const ROOT_CONNECTION_GROUP := "ROOT"

  datatype Request = Request(parameters: map<string, string>)

  /** The credentials of a login attempt; the HTTP request may be absent. */
  datatype Credentials = Credentials(request: Option<Request>)

  /** The library calls the pipeline relies on, each returning `None` where
      the library throws: base64 decoding, derivation of the AES and HMAC keys
      from the configured secret, AES-CBC/PKCS5 decryption, HMAC-SHA256
      signing, UTF-8 decoding and JSON deserialisation. */
  datatype Crypto = Crypto(
    parseBase64: string -> Option<Bytes>,
    createEncryptionKey: Bytes -> Bytes,
    createSignatureKey: Bytes -> Bytes,
    decrypt: (Bytes, Bytes) -> Option<Bytes>,
    sign: (Bytes, Bytes) -> Option<Bytes>,
    decodeUtf8: Bytes -> Option<string>,
    readValue: string -> Option<Fields>)

  /** Splits a plaintext into its leading signature and the payload after
      it; a plaintext that cannot hold both a signature and at least one
      byte of payload has no split. */
  function SplitSigned(plaintext: Bytes): (parts: Option<(Bytes, Bytes)>)
    ensures parts.Some? <==> |plaintext| > SIGNATURE_LENGTH
    ensures parts.Some? ==> |parts.value.0| == SIGNATURE_LENGTH
    ensures parts.Some? ==> parts.value.0 + parts.value.1 == plaintext
  {
    if |plaintext| <= SIGNATURE_LENGTH then None
    else Some((plaintext[..SIGNATURE_LENGTH], plaintext[SIGNATURE_LENGTH..]))
  }

  /** The payload of a plaintext whose leading signature is the signature
      of the rest under `signatureKey`. */
  function VerifiedPayload(plaintext: Bytes, signatureKey: Bytes, lib: Crypto): (payload: Option<Bytes>)
    ensures |plaintext| <= SIGNATURE_LENGTH ==> payload.None?
    ensures payload.Some? ==>
      && |plaintext| > SIGNATURE_LENGTH
      && payload.value == plaintext[SIGNATURE_LENGTH..]
      && lib.sign(signatureKey, payload.value) == Some(plaintext[..SIGNATURE_LENGTH])
  {
    match SplitSigned(plaintext)
    case None => None
    case Some((received, json)) =>
      if lib.sign(signatureKey, json) == Some(received) then Some(json) else None
  }

  /** The plaintext is a signature of exactly 32 bytes followed by a
      non-empty payload that it signs. */
  ghost predicate SignedBy(plaintext: Bytes, payload: Bytes, signatureKey: Bytes, lib: Crypto)
  {
    exists signature ::
      && |signature| == SIGNATURE_LENGTH
      && payload != []
      && plaintext == signature + payload
      && lib.sign(signatureKey, payload) == Some(signature)
  }

  /** The signature check accepts a plaintext, and yields `payload`, exactly
      when the plaintext is a correct signature followed by that payload. */
  lemma {:induction false} VerifiedPayloadIsSignedBy(plaintext: Bytes, payload: Bytes, signatureKey: Bytes, lib: Crypto)
    ensures VerifiedPayload(plaintext, signatureKey, lib) == Some(payload) <==>
            SignedBy(plaintext, payload, signatureKey, lib)
  {
    if VerifiedPayload(plaintext, signatureKey, lib) == Some(payload) {
      var signature := plaintext[..SIGNATURE_LENGTH];
      assert plaintext == signature + payload;
    }
    if SignedBy(plaintext, payload, signatureKey, lib) {
      var signature :| |signature| == SIGNATURE_LENGTH && payload != []
        && plaintext == signature + payload && lib.sign(signatureKey, payload) == Some(signature);
      assert plaintext[..SIGNATURE_LENGTH] == signature;
      assert plaintext[SIGNATURE_LENGTH..] == payload;
    }
  }

  /** A 32-byte prefix that is not the payload's signature is rejected,
      whatever the payload. */
  lemma {:induction false} TamperedSignatureIsRejected(signature: Bytes, payload: Bytes, signatureKey: Bytes, lib: Crypto)
    requires |signature| == SIGNATURE_LENGTH
    requires lib.sign(signatureKey, payload) != Some(signature)
    ensures VerifiedPayload(signature + payload, signatureKey, lib).None?
  {
    var plaintext := signature + payload;
    assert plaintext[..SIGNATURE_LENGTH] == signature;
    assert plaintext[SIGNATURE_LENGTH..] == payload;
  }

  /** The first stage of the pipeline: base64-decode the token, decrypt it
      with the key derived from the configured secret (absent when the
      configuration cannot supply one), check the signature and decode the
      payload as UTF-8. */
  function DecryptedJson(base64: string, secretKey: Option<Bytes>, lib: Crypto): (json: Option<string>)
    ensures secretKey.None? ==> json.None?
    ensures lib.parseBase64(base64).None? ==> json.None?
    ensures json.Some? ==>
      && secretKey.Some? && lib.parseBase64(base64).Some?
      && var plaintext := lib.decrypt(lib.createEncryptionKey(secretKey.value), lib.parseBase64(base64).value);
      && plaintext.Some?
      && |plaintext.value| > SIGNATURE_LENGTH
      && lib.sign(lib.createSignatureKey(secretKey.value), plaintext.value[SIGNATURE_LENGTH..])
           == Some(plaintext.value[..SIGNATURE_LENGTH])
      && lib.decodeUtf8(plaintext.value[SIGNATURE_LENGTH..]) == json
  {
    if secretKey.None? then None
    else
      match lib.parseBase64(base64)
      case None => None
      case Some(ciphertext) =>
        match lib.decrypt(lib.createEncryptionKey(secretKey.value), ciphertext)
        case None => None
        case Some(plaintext) =>
          match VerifiedPayload(plaintext, lib.createSignatureKey(secretKey.value), lib)
          case None => None
          case Some(payload) => lib.decodeUtf8(payload)
  }

  /** What an honest token author produces: `base64` decodes to a ciphertext
      that decrypts, under the key derived from `secretKey`, to a correct
      signature followed by the UTF-8 encoding of `json`. */
  ghost predicate CarriesSignedJson(base64: string, secretKey: Bytes, lib: Crypto, json: string)
  {
    && lib.parseBase64(base64).Some?
    && var plaintext := lib.decrypt(lib.createEncryptionKey(secretKey), lib.parseBase64(base64).value);
    && plaintext.Some?
    && exists payload ::
         && SignedBy(plaintext.value, payload, lib.createSignatureKey(secretKey), lib)
         && lib.decodeUtf8(payload) == Some(json)
  }

  /** The first stage yields `json` exactly for tokens that carry it signed. */
  lemma {:induction false} DecryptedJsonIsCarriedJson(base64: string, secretKey: Bytes, lib: Crypto, json: string)
    ensures DecryptedJson(base64, Some(secretKey), lib) == Some(json) <==>
            CarriesSignedJson(base64, secretKey, lib, json)
  {
    var ciphertext := lib.parseBase64(base64);
    if ciphertext.Some? {
      var plaintext := lib.decrypt(lib.createEncryptionKey(secretKey), ciphertext.value);
      if plaintext.Some? {
        var signatureKey := lib.createSignatureKey(secretKey);
        var verified := VerifiedPayload(plaintext.value, signatureKey, lib);
        if verified.Some? {
          VerifiedPayloadIsSignedBy(plaintext.value, verified.value, signatureKey, lib);
        }
        if CarriesSignedJson(base64, secretKey, lib, json) {
          var payload :| SignedBy(plaintext.value, payload, signatureKey, lib)
                         && lib.decodeUtf8(payload) == Some(json);
          VerifiedPayloadIsSignedBy(plaintext.value, payload, signatureKey, lib);
        }
      }
    }
  }

  /** fromCredentials: the UserData carried by the request's token, or
      `None` when the request or its token is missing, the token fails any
      check, or the data it carries has expired at `now`. */
  function FromCredentials(credentials: Credentials, secretKey: Option<Bytes>, lib: Crypto, now: int): (data: Option<Fields>)
    ensures credentials.request.None? ==> data.None?
    ensures credentials.request.Some? && ENCRYPTED_DATA_PARAMETER !in credentials.request.value.parameters ==> data.None?
    ensures secretKey.None? ==> data.None?
    ensures data.Some? ==> !data.value.IsExpired(now)
  {
    if credentials.request.None? then None
    else if ENCRYPTED_DATA_PARAMETER !in credentials.request.value.parameters then None
    else
      match DecryptedJson(credentials.request.value.parameters[ENCRYPTED_DATA_PARAMETER], secretKey, lib)
      case None => None
      case Some(json) =>
        match lib.readValue(json)
        case None => None
        case Some(fields) => if fields.IsExpired(now) then None else Some(fields)
  }

  /** The only tokens accepted are those carrying, signed, a JSON document
      that parses to unexpired data; that data is what is returned. Every
      other input, whichever check it fails, yields the same `None`. */
  lemma {:induction false} FromCredentialsAcceptsExactly(credentials: Credentials, secretKey: Bytes, lib: Crypto, now: int, fields: Fields)
    ensures FromCredentials(credentials, Some(secretKey), lib, now) == Some(fields) <==>
      && credentials.request.Some?
      && ENCRYPTED_DATA_PARAMETER in credentials.request.value.parameters
      && (exists json :: CarriesSignedJson(credentials.request.value.parameters[ENCRYPTED_DATA_PARAMETER], secretKey, lib, json)
                         && lib.readValue(json) == Some(fields))
      && !fields.IsExpired(now)
  {
    if credentials.request.Some? && ENCRYPTED_DATA_PARAMETER in credentials.request.value.parameters {
      var base64 := credentials.request.value.parameters[ENCRYPTED_DATA_PARAMETER];
      var json := DecryptedJson(base64, Some(secretKey), lib);
      if json.Some? {
        DecryptedJsonIsCarriedJson(base64, secretKey, lib, json.value);
      }
      forall json' | CarriesSignedJson(base64, secretKey, lib, json')
        ensures json == Some(json')
      {
        DecryptedJsonIsCarriedJson(base64, secretKey, lib, json');
      }
    }
  }

  /** Round trip: a token built by an honest author from unexpired data is
      accepted and yields exactly that data. */
  lemma {:induction false} TokenRoundTrip(credentials: Credentials, secretKey: Bytes, lib: Crypto, now: int,
                                          ciphertext: Bytes, signature: Bytes, payload: Bytes, json: string, fields: Fields)
    requires credentials.request.Some?
    requires ENCRYPTED_DATA_PARAMETER in credentials.request.value.parameters
    requires lib.parseBase64(credentials.request.value.parameters[ENCRYPTED_DATA_PARAMETER]) == Some(ciphertext)
    requires lib.decrypt(lib.createEncryptionKey(secretKey), ciphertext) == Some(signature + payload)
    requires |signature| == SIGNATURE_LENGTH && payload != []
    requires lib.sign(lib.createSignatureKey(secretKey), payload) == Some(signature)
    requires lib.decodeUtf8(payload) == Some(json)
    requires lib.readValue(json) == Some(fields)
    requires !fields.IsExpired(now)
    ensures FromCredentials(credentials, Some(secretKey), lib, now) == Some(fields)
  {
    var plaintext := signature + payload;
    assert SignedBy(plaintext, payload, lib.createSignatureKey(secretKey), lib);
    VerifiedPayloadIsSignedBy(plaintext, payload, lib.createSignatureKey(secretKey), lib);
  }

  /** getUserIdentifiers: a user sees only themselves. */
  function GetUserIdentifiers(userData: UserData): (identifiers: set<string>)
    reads userData
    ensures identifiers == {userData.username}
  {
    {userData.username}
  }

  /** getConnectionIdentifiers: no connection is visible when there is no
      connections map or the data has expired at `now`; otherwise exactly
      the map's keys are. */
  function GetConnectionIdentifiers(userData: UserData, now: int): (identifiers: set<string>)
    reads userData
    ensures forall identifier :: identifier in identifiers <==>
      && userData.Lookup(identifier).Some?
      && !userData.Snapshot().IsExpired(now)
  {
    var connections := userData.connections;
    if connections.None? || userData.Snapshot().IsExpired(now) then {}
    else connections.value.Keys
  }

  /** getConnectionGroupIdentifiers: the root group alone. */
  function GetConnectionGroupIdentifiers(userData: UserData): (identifiers: set<string>)
    ensures identifiers == {ROOT_CONNECTION_GROUP}
  {
    {ROOT_CONNECTION_GROUP}
  }

  datatype ConnectionGroup = ConnectionGroup(
    name: string,
    identifier: string,
    connectionIdentifiers: set<string>,
    connectionGroupIdentifiers: seq<string>)

  /** getRootConnectionGroup: named and identified "ROOT", holding every
      visible connection and no child group. */
  function GetRootConnectionGroup(userData: UserData, now: int): (group: ConnectionGroup)
    reads userData
    ensures group.name == ROOT_CONNECTION_GROUP && group.identifier == ROOT_CONNECTION_GROUP
    ensures group.connectionGroupIdentifiers == []
    ensures forall identifier :: identifier in group.connectionIdentifiers <==>
      userData.Lookup(identifier).Some? && !userData.Snapshot().IsExpired(now)
  {
    ConnectionGroup(ROOT_CONNECTION_GROUP, ROOT_CONNECTION_GROUP, GetConnectionIdentifiers(userData, now), [])
  }

  /** getConnectionDirectory: one entry per visible connection, keyed by its
      identifier, built from the entry stored under that identifier, placed
      in the root group, and sharing this UserData. */
  method GetConnectionDirectory(userData: UserData, now: int) returns (directory: map<string, UserDataConnection>)
    ensures directory.Keys == GetConnectionIdentifiers(userData, now)
    ensures forall identifier :: identifier in directory ==>
      && directory[identifier].identifier == identifier
      && directory[identifier].name == identifier
      && directory[identifier].configuration == NewSessionConfiguration(directory[identifier].connection)
      && directory[identifier].data == userData
      && Some(directory[identifier].connection) == userData.Lookup(identifier)
      && directory[identifier].parentIdentifier == Some(ROOT_CONNECTION_GROUP)
  {
    var connections := userData.connections;
    if connections.None? || userData.Snapshot().IsExpired(now) {
      return map[];
    }
    directory := map[];
    var remaining := connections.value.Keys;
    while remaining != {}
      invariant remaining <= connections.value.Keys
      invariant directory.Keys == connections.value.Keys - remaining
      invariant forall identifier :: identifier in directory ==>
        && fresh(directory[identifier])
        && directory[identifier].identifier == identifier
        && directory[identifier].name == identifier
        && directory[identifier].configuration == NewSessionConfiguration(directory[identifier].connection)
        && directory[identifier].data == userData
        && directory[identifier].connection == connections.value[identifier]
        && directory[identifier].parentIdentifier == Some(ROOT_CONNECTION_GROUP)
      decreases remaining
    {
      var identifier :| identifier in remaining;
      var entry := new UserDataConnection(userData, identifier, connections.value[identifier]);
      entry.SetParentIdentifier(ROOT_CONNECTION_GROUP);
      directory := directory[identifier := entry];
      remaining := remaining - {identifier};
    }
  }
}
