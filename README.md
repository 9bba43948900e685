# guacamole-auth-json core, modelled in Dafny

This project models the core of the JSON authentication extension for
Apache Guacamole:

- The token pipeline that turns the request's `data` parameter into a
  `UserData` object. The parameter is base64 text of an AES-CBC ciphertext
  whose plaintext is a 32-byte HMAC-SHA256 signature followed by UTF-8
  JSON. Every failure yields the same result, `None` (null in the source).
- The `UserData` record: username, optional expiry, and the map of
  connections. It also covers the read-only views derived from it: user
  identifiers, connection identifiers, the connection directory, and the
  root connection group.
- The single-use guard. A `UserDataConnection` whose entry is single-use
  removes that entry from the shared `UserData` before connecting, and a
  second attempt is denied.
- The connection broker (`ConnectionService`). It tracks sessions started
  under a caller-chosen id (`activeConnections`), records the tunnels that
  join each such session (`shadowers`), and closes joiners together with
  the session they joined.

Files:

- `wrappers.dfy`: `Option` and `Result`.
- `protocol.dfy`: module `Protocol`, the proxy configuration value `Config`.
- `user_data.dfy`: module `UserDataModel`.
- `user_data_connection.dfy`: module `UserDataConnections`.
- `user_data_service.dfy`: module `UserDataService`.
- `connection_service.dfy`: module `ConnectionBroker`.

The broker is a class. Its fields are the two registries and the map of
tunnels handed out (open or closed). A ghost map `owner` records which
tracking tunnel registered each proxy connection id. `Valid()` states that
the registries are consistent:

- every joinable session belongs to an open tracking tunnel;
- every tracked id names a joinable session registered under that same id;
- every joiner is a tunnel the broker handed out.

Every method keeps this invariant.

The library calls the token pipeline makes are function-typed parameters
bundled in `Crypto`, each returning `Option`. These are base64, key
derivation, decryption, signing, UTF-8 decoding and JSON deserialisation.
The clock is a parameter `now`. The broker's handshake result is a
parameter: `None` for an I/O failure, otherwise the proxy's connection id.
That id is required to be fresh, which is the assumption the source states
with its `assert` on the shadow-set insertion.

Notes on the code's behaviour:

- A join also copies the entry's parameters into its configuration.
- A single-use entry is consumed by `UserDataConnection.connect`, which then
  calls the generic `SimpleConnection.connect`, not the broker.
- Joiners live in a list, not a set. A closed joiner stays in the list
  until its session's shadow set is dropped.
- The encryption methods are `NONE` and `SSL`.

## Model

| member | source | states |
|---|---|---|
| `UserDataModel.Connection.SetProtocol` | src/main/java/org/glyptodon/guacamole/auth/json/user/UserData.java:83-96 | reading the protocol back gives the stored value; parameters, id, primary connection and single-use flag are unchanged |
| `UserDataModel.Connection.SetParameters` | src/main/java/org/glyptodon/guacamole/auth/json/user/UserData.java:108-124 | reading the parameters back gives the stored value; protocol and the other fields are unchanged |
| `UserDataModel.Fields.IsExpired` | src/main/java/org/glyptodon/guacamole/auth/json/user/UserData.java:220-231 | never expired without an expiry; otherwise expired iff `now` is strictly after it, so still valid at the expiry instant itself |
| `UserDataModel.ExpiryIsMonotone` | src/main/java/org/glyptodon/guacamole/auth/json/user/UserData.java:229 | data expired at some time is expired at every later time |
| `UserDataModel.UserData.constructor` | src/main/java/org/glyptodon/guacamole/auth/json/user/UserData.java:34-52 | a deserialised object holds exactly the parsed username, expiry and connections |
| `UserDataModel.UserData.SetUsername` | src/main/java/org/glyptodon/guacamole/auth/json/user/UserData.java:136-150 | the getter returns the stored username; expiry and connections unchanged |
| `UserDataModel.UserData.SetExpires` | src/main/java/org/glyptodon/guacamole/auth/json/user/UserData.java:162-179 | the getter returns the stored expiry; username and connections unchanged |
| `UserDataModel.UserData.SetConnections` | src/main/java/org/glyptodon/guacamole/auth/json/user/UserData.java:192-209 | the getter returns the stored map; username and expiry unchanged |
| `UserDataModel.UserData.RemoveConnection` | src/main/java/org/glyptodon/guacamole/auth/json/user/UserDataConnection.java:111 | returns the entry that was stored under the identifier (none if absent or no map), leaves it absent, keeps every other entry and field; nothing changes when there was no entry |
| `UserDataConnections.NewSessionConfiguration` | src/main/java/org/glyptodon/guacamole/auth/json/user/UserDataConnection.java:66-79 | configuration protocol is the entry's protocol, no connection id, parameters are the entry's when present and empty otherwise |
| `UserDataConnections.UserDataConnection.constructor` | src/main/java/org/glyptodon/guacamole/auth/json/user/UserDataConnection.java:98-102 | identifier and name both equal the given identifier; configuration built from the entry; shares the given UserData |
| `UserDataConnections.UserDataConnection.SetParentIdentifier` | src/main/java/org/glyptodon/guacamole/auth/json/user/UserDataService.java:341-342 | the entry's parent group becomes the given identifier |
| `UserDataConnections.UserDataConnection.Connect` | src/main/java/org/glyptodon/guacamole/auth/json/user/UserDataConnection.java:104-119 | reusable entry: proceeds, UserData unchanged; single-use entry still present: removed from UserData, then proceeds; single-use entry already gone: permission denied, no attempt, nothing changes |
| `UserDataConnections.SingleUseIsConsumedOnce` | src/main/java/org/glyptodon/guacamole/auth/json/user/UserDataConnection.java:33-40 | two entries for the same single-use connection over one UserData: first attempt proceeds, second is denied, only that entry is gone afterwards |
| `UserDataService.SplitSigned` | src/main/java/org/glyptodon/guacamole/auth/json/user/UserDataService.java:132-140 | a split exists iff the plaintext is longer than 32 bytes; the signature is exactly 32 bytes and signature followed by payload is the plaintext |
| `UserDataService.VerifiedPayload` | src/main/java/org/glyptodon/guacamole/auth/json/user/UserDataService.java:132-152 | a plaintext of at most 32 bytes is rejected; an accepted payload is the bytes after the first 32, and its signature equals those first 32 bytes |
| `UserDataService.VerifiedPayloadIsSignedBy` | src/main/java/org/glyptodon/guacamole/auth/json/user/UserDataService.java:132-152 | the signature check yields a payload iff the plaintext is a 32-byte correct signature of a non-empty payload followed by that payload |
| `UserDataService.TamperedSignatureIsRejected` | src/main/java/org/glyptodon/guacamole/auth/json/user/UserDataService.java:148-152 | a 32-byte prefix other than the payload's signature is rejected |
| `UserDataService.DecryptedJson` | src/main/java/org/glyptodon/guacamole/auth/json/user/UserDataService.java:122-178 | no key or bad base64 gives no JSON; any JSON produced came from a decryptable ciphertext whose plaintext is longer than 32 bytes, correctly signed, and UTF-8 for that JSON |
| `UserDataService.DecryptedJsonIsCarriedJson` | src/main/java/org/glyptodon/guacamole/auth/json/user/UserDataService.java:122-178 | the decrypting stage yields a JSON text iff the token carries it under a correct signature |
| `UserDataService.FromCredentials` | src/main/java/org/glyptodon/guacamole/auth/json/user/UserDataService.java:109-199 | missing request, missing `data` parameter or missing key yield none; returned data is never expired at `now` |
| `UserDataService.FromCredentialsAcceptsExactly` | src/main/java/org/glyptodon/guacamole/auth/json/user/UserDataService.java:109-199 | data is returned iff the request has a `data` token carrying, correctly signed, JSON that parses to that data and it is unexpired; every other input gives the same `None` |
| `UserDataService.TokenRoundTrip` | src/main/java/org/glyptodon/guacamole/auth/json/user/UserDataService.java:86-93 | a token an honest author builds from unexpired data (encrypt signature then payload) is accepted and yields that data |
| `UserDataService.GetUserIdentifiers` | src/main/java/org/glyptodon/guacamole/auth/json/user/UserDataService.java:215-220 | the user sees exactly their own username |
| `UserDataService.GetConnectionIdentifiers` | src/main/java/org/glyptodon/guacamole/auth/json/user/UserDataService.java:291-301 | an identifier is visible iff the connections map holds it and the data is not expired |
| `UserDataService.GetConnectionGroupIdentifiers` | src/main/java/org/glyptodon/guacamole/auth/json/user/UserDataService.java:367-372 | exactly the root group "ROOT" |
| `UserDataService.GetRootConnectionGroup` | src/main/java/org/glyptodon/guacamole/auth/json/user/UserDataService.java:386-396 | named and identified "ROOT", no child groups, holds exactly the visible connection identifiers |
| `UserDataService.GetConnectionDirectory` | src/main/java/org/glyptodon/guacamole/auth/json/user/UserDataService.java:318-351 | keys are exactly the visible identifiers; each value is an entry whose identifier and name are that identifier, holding the entry stored under it and the new-session configuration built from that entry, with parent "ROOT", sharing this UserData |
| `ConnectionBroker.ConnectionService.constructor` | src/main/java/org/glyptodon/guacamole/auth/json/connection/ConnectionService.java:104-113 | both registries start empty and consistent |
| `ConnectionBroker.ConnectionService.GetConfiguration` | src/main/java/org/glyptodon/guacamole/auth/json/connection/ConnectionService.java:130-158 | a join fails iff its primary connection is not tracked; else it carries the tracked connection id and no protocol; a non-join carries the entry's protocol and no connection id; parameters copied when present in both cases |
| `ConnectionBroker.ConnectionService.CloseAll` | src/main/java/org/glyptodon/guacamole/auth/json/connection/ConnectionService.java:167-178 | every listed tunnel ends closed; a tunnel that is not listed and sits in no shadow set keeps its state; registries only shrink, no tunnel reopens, consistency is kept |
| `ConnectionBroker.ConnectionService.CloseJoiner` | src/main/java/org/glyptodon/guacamole/auth/json/connection/ConnectionService.java:169-175 | one iteration of closeAll: the tunnel ends closed, tunnels closed before stay closed, and tunnels in no shadow set keep their state |
| `ConnectionBroker.RemoveIfMapped` | src/main/java/org/glyptodon/guacamole/auth/json/connection/ConnectionService.java:294 | `activeConnections.remove(id, connectionID)`: the id is gone exactly when it mapped to this connection id, and every other entry is kept |
| `ConnectionBroker.ConnectionService.Close` | src/main/java/org/glyptodon/guacamole/auth/json/connection/ConnectionService.java:290-302 | the tunnel ends closed; a tracking tunnel's session is no longer joinable, its id is dropped when still tracked with its connection id, and all its joiners end closed; a tunnel other than this one that sits in no shadow set keeps its state; a plain tunnel, or a tracking one with no joiners, changes exactly this tunnel and the compare-and-remove and shadow-set removal |
| `ConnectionBroker.ConnectionService.StopTracking` | src/main/java/org/glyptodon/guacamole/auth/json/connection/ConnectionService.java:292-298 | compare-and-remove: the id is dropped only if it still maps to this connection id; the shadow set of this connection id is removed and returned |
| `ConnectionBroker.ConnectionService.MarkClosed` | src/main/java/org/glyptodon/guacamole/auth/json/connection/ConnectionService.java:300 | only this tunnel's open flag changes |
| `ConnectionBroker.ConnectionService.OpenUntracked` | src/main/java/org/glyptodon/guacamole/auth/json/connection/ConnectionService.java:250-254 | a new open plain tunnel; neither registry changes |
| `ConnectionBroker.ConnectionService.OpenTracking` | src/main/java/org/glyptodon/guacamole/auth/json/connection/ConnectionService.java:256-309 | the fresh connection id, previously absent, gets an empty shadow set; the id now maps to it, replacing any older mapping; no existing tunnel changes |
| `ConnectionBroker.ConnectionService.TrackJoiner` | src/main/java/org/glyptodon/guacamole/auth/json/connection/ConnectionService.java:313-332 | the joiner ends in the joined session's live shadow set or closed; appended when that set exists, with nothing else changed; otherwise closed, and when it has no joiners of its own nothing but it and its own registration changes |
| `ConnectionBroker.ConnectionService.Connect` | src/main/java/org/glyptodon/guacamole/auth/json/connection/ConnectionService.java:199-336 | untracked join target: ResourceNotFound; unimplemented encryption: server error; failed handshake: transport failure; all three change nothing. Success: a fresh tunnel, tracked under the entry's id when it has one, with id and shadow set registered while it is open; a joiner ends in the joined shadow set or closed; with no racing closes, the whole new state: only the new tunnel is added, the entry's id (if any) is mapped to the new connection id, that connection id gets an empty shadow set, and a joiner is appended to the joined session's shadow set; every other id and shadow set is kept |
| `ConnectionBroker.ConnectionService.Establish` | src/main/java/org/glyptodon/guacamole/auth/json/connection/ConnectionService.java:248-334 | after the handshake: the whole new state in each case (plain or tracking, join target live or gone); older tunnels keep their registration and stay closed once closed |
| `ConnectionBroker.ConnectionService.Register` | src/main/java/org/glyptodon/guacamole/auth/json/connection/ConnectionService.java:250-274 | a plain tunnel for an entry without an id; otherwise a tracking tunnel whose fresh connection id gets an empty shadow set and is tracked under the id; nothing else changes |
| `ConnectionBroker.ConnectionService.RegisterJoiner` | src/main/java/org/glyptodon/guacamole/auth/json/connection/ConnectionService.java:250-331 | live join target: registration plus the joiner appended to its shadow set; vanished target: the new tunnel is closed, its registration is undone (its id dropped, its shadow set gone), every other entry and tunnel is as before |
| `ConnectionBroker.JoinThenClosePrimary` | src/main/java/org/glyptodon/guacamole/auth/json/connection/ConnectionService.java:290-302 | a joiner of session "a" sits in its shadow set; closing the primary closes the joiner and "a" is no longer tracked |
| `ConnectionBroker.JoinUnknownSession` | src/main/java/org/glyptodon/guacamole/auth/json/connection/ConnectionService.java:210-217 | joining an id never connected fails with ResourceNotFound |
| `ConnectionBroker.SupersedeWithoutClosing` | src/main/java/org/glyptodon/guacamole/auth/json/connection/ConnectionService.java:267-274 | connecting twice under one id leaves the first tunnel open and the id tracking the second session |
| `ConnectionBroker.PrimaryClosesDuringJoin` | src/main/java/org/glyptodon/guacamole/auth/json/connection/ConnectionService.java:323-330 | when the primary closes during a joiner's handshake, the joiner is closed rather than left open and untracked |

## Left out

- Decryption, HMAC signing, base64, UTF-8 decoding and JSON parsing are
  foreign library code. They are parameters of the pipeline (`Crypto`), so
  the model proves nothing about AES or HMAC themselves. The constant-time
  behaviour of the signature comparison cannot be expressed.
- Reading the secret key from the configuration, and deriving the
  encryption and signature keys from it, are also library code. A missing
  or unreadable key is the parameter `None`; key derivation is a parameter.
- `ConnectionBroker.ConnectionService.Connect`: does not apply the
  substitution tokens to the parameter values; the configuration is used
  as built.
- Sockets, SSL, the guacd handshake, and the reader and writer of a tunnel
  are I/O. The handshake's outcome is a parameter. `NONE` and `SSL` lead to
  the same model behaviour.
- Concurrency is not modelled. Each map operation is one sequential step.
  The race in which a joined session closes during the joiner's handshake
  is modelled by the `racingCloses` parameter: closes by other requests,
  done before this connection registers. Finer interleavings are not
  modelled, and neither are the atomicity guarantees of `ConcurrentHashMap`.
  The single-use guard's atomicity is modelled only sequentially.
- Closing a transport never fails in the model. The exceptions that
  `closeAll` masks therefore have no counterpart, and a failing close
  cannot leave a tunnel open.
- `ConnectionBroker.ConnectionService.Close`: for a tracking tunnel with
  joiners, only the drop-when-still-mapped half of the compare-and-remove
  is stated. The keep-otherwise half is stated by `StopTracking`, and by
  `Close` itself when the tunnel has no joiners. A joiner closed in the
  cascade may itself track an id, so across a cascade the model states only
  that entries are dropped, never added or altered. It does not state that
  only entries of closed tunnels disappear. For tunnels, it states that a
  tunnel in no shadow set keeps its state. A tunnel that sits in some other
  session's shadow set is not stated to stay open, even when the cascade
  does not reach that session.
- `ConnectionBroker.ConnectionService.CloseAll` (and its loop step
  `ConnectionBroker.ConnectionService.CloseJoiner`): a tunnel that sits in
  another session's shadow set is not stated to keep its state, even when
  no cascade of the listed tunnels reaches that session. Only unlisted
  tunnels in no shadow set are framed. Closing a listed tracking tunnel
  closes its joiners, and any of them may be tracking in turn, so the set of
  tunnels a cascade reaches is transitive through the shadow sets. Stating
  it would need that reachable set as a definition. `Connect` with racing
  closes inherits this gap. With no racing closes, its new state is exact.
- `UserDataConnections.UserDataConnection.Connect`: what the underlying
  `SimpleConnection.connect` does with the configuration is not modelled.
  The result `Connecting(config)` stands for handing that configuration on.
- The username is a plain string, so a JSON document without a username
  (a null username) is not distinguished. The expiry is an unbounded
  integer; the source only compares 64-bit values, so no overflow is
  involved.
- `UserData.Connection` is a value. Its setters return an updated entry
  instead of changing a shared object. The core never changes an entry
  after parsing, so no sharing is lost.
- `getId`, `getPrimaryConnection`, `isSingleUse` and `removeConnection` are
  not defined in this version of UserData.java. Their behaviour is taken
  from their callers: plain getters, a single-use flag that defaults to false, and
  map removal that returns the old entry (none when there is no map).
- `getUser`, `getUserDirectory` and `getConnectionGroupDirectory` only wrap
  the modelled identifier sets and root group into API objects. They are
  not modelled.
- `UserContext` only delegates to these services and returns empty
  directories, `AuthenticationProviderService` only holds stubs, and
  `ConfigurationService` reads properties. None of them is modelled.
- `UserDataService.FromCredentials`: the JSON reader returns `Option`, so
  a document that parses to a null object (the payload `null`, correctly
  signed) is treated like unparsable JSON and yields `None`. In the source,
  Jackson returns null for it, and `isExpired()` at UserDataService.java:185
  then throws a `NullPointerException`. None of the catches handle that, so
  `fromCredentials` throws instead of returning null.
- `UserDataService.GetConnectionDirectory`: the contract does not state
  that each directory entry is a newly allocated object. Freshness is
  proved inside its loop only.
- Logging is not modelled.
