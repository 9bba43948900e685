/** The data carried by a verified token: the user's name, an optional
    expiry instant and the connections the user may use
    (UserData and its nested Connection). */
module UserDataModel {
  import opened Wrappers

  /** One entry of the connections map. An entry either starts a new session
      (`protocol`, with optional `parameters`) or joins the active session
      registered under `primaryConnection`. `id`, when present, makes the
      session it starts trackable, and therefore joinable. A single-use
      entry may be used for one connection attempt only. */
  datatype Connection = Connection(
    id: Option<string>,
    protocol: Option<string>,
    parameters: Option<map<string, string>>,
    primaryConnection: Option<string>,
    singleUse: bool)
  {
    /** setProtocol: reading the protocol back gives what was stored, and
        nothing else about the entry changes. */
    function SetProtocol(protocol': Option<string>): (c: Connection)
      ensures c.protocol == protocol'
      ensures c.parameters == parameters && c.id == id
      ensures c.primaryConnection == primaryConnection && c.singleUse == singleUse
    {
      this.(protocol := protocol')
    }

    /** setParameters: reading the parameters back gives what was stored,
        and nothing else about the entry changes. */
    function SetParameters(parameters': Option<map<string, string>>): (c: Connection)
      ensures c.parameters == parameters'
      ensures c.protocol == protocol && c.id == id
      ensures c.primaryConnection == primaryConnection && c.singleUse == singleUse
    {
      this.(parameters := parameters')
    }
  }

  /** The fields of a UserData object, as the JSON document gives them.
      `expires` is a UNIX epoch timestamp in milliseconds. */
  datatype Fields = Fields(
    username: string,
    expires: Option<int>,
    connections: Option<map<string, Connection>>)
  {
    /** Data without an expiry never expires; otherwise it is expired once
        the clock is strictly past the expiry instant, so it is still valid
        at that very millisecond. */
    function IsExpired(now: int): (expired: bool)
      ensures expires.None? ==> !expired
      ensures expires.Some? ==> (expired <==> now > expires.value)
    {
      match expires
      case None => false
      case Some(instant) => now > instant
    }
  }

  /** Once expired, data stays expired as the clock moves forward. */
  lemma ExpiryIsMonotone(fields: Fields, now: int, later: int)
    requires fields.IsExpired(now) && now <= later
    ensures fields.IsExpired(later)
  {
  }

  /** The live, shared UserData object. Its setters and `RemoveConnection`
      update it in place; every directory entry built from it holds a
      reference to this same object. */
  class UserData {
    var username: string
    var expires: Option<int>
    var connections: Option<map<string, Connection>>

    /** The object's current fields as a value. */
    function Snapshot(): Fields
      reads this
    {
      Fields(username, expires, connections)
    }

    /** The entry stored under `identifier`, if the map exists and has one. */
    function Lookup(identifier: string): (entry: Option<Connection>)
      reads this
      ensures entry.Some? <==> connections.Some? && identifier in connections.value
      ensures entry.Some? ==> entry.value == connections.value[identifier]
    {
      if connections.Some? && identifier in connections.value
      then Some(connections.value[identifier])
      else None
    }

    /** Deserialisation: a new object holding the parsed fields. */
    constructor (fields: Fields)
      ensures Snapshot() == fields
    {
      username := fields.username;
      expires := fields.expires;
      connections := fields.connections;
    }

    method SetUsername(username': string)
      modifies this
      ensures username == username'
      ensures expires == old(expires) && connections == old(connections)
    {
      username := username';
    }

    method SetExpires(expires': Option<int>)
      modifies this
      ensures expires == expires'
      ensures username == old(username) && connections == old(connections)
    {
      expires := expires';
    }

    method SetConnections(connections': Option<map<string, Connection>>)
      modifies this
      ensures connections == connections'
      ensures username == old(username) && expires == old(expires)
    {
      connections := connections';
    }

    /** Removes the entry stored under `identifier`, returning what was
        there. A missing map or missing entry yields `None` and changes
        nothing; every other entry is kept as it was. */
    method RemoveConnection(identifier: string) returns (removed: Option<Connection>)
      modifies this
      ensures removed == old(Lookup(identifier))
      ensures Lookup(identifier).None?
      ensures username == old(username) && expires == old(expires)
      ensures connections.Some? <==> old(connections).Some?
      ensures connections.Some? ==> connections.value == old(connections).value - {identifier}
      ensures removed.None? ==> unchanged(this)
    {
      removed := Lookup(identifier);
      if removed.Some? {
        connections := Some(connections.value - {identifier});
      }
    }
  }
}
