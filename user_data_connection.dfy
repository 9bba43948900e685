/** A directory entry for one connection of a UserData object. Using the
    entry consumes it from the shared UserData when it is single-use, so
    that only the first attempt can proceed. */
module UserDataConnections {
  import opened Wrappers
  import opened Protocol
  import opened UserDataModel

  /** The new-session configuration of an entry: its protocol, and its
      parameters when it has any (an empty parameter map otherwise). */
  function NewSessionConfiguration(connection: Connection): (config: Config)
    ensures config.protocol == connection.protocol
    ensures config.connectionId.None?
    ensures connection.parameters.Some? ==> config.parameters == connection.parameters.value
    ensures connection.parameters.None? ==> config.parameters == map[]
  {
    var config := EmptyConfig.(protocol := connection.protocol);
    match connection.parameters
    case Some(parameters) => config.(parameters := parameters)
    case None => config
  }

  /** What a connection attempt amounts to: the configuration handed on to
      the underlying connect, or a permission denial. */
  datatype Attempt = Connecting(config: Config) | PermissionDenied

  class UserDataConnection {
    const identifier: string
    const name: string
    var parentIdentifier: Option<string>
    const configuration: Config
    /** The UserData this entry was taken from, shared with every other entry. */
    const data: UserData
    const connection: Connection

    /** The identifier doubles as the human-readable name. */
    constructor (data: UserData, identifier: string, connection: Connection)
      ensures this.identifier == identifier && name == identifier
      ensures configuration == NewSessionConfiguration(connection)
      ensures this.data == data && this.connection == connection
      ensures parentIdentifier.None?
    {
      this.identifier := identifier;
      this.name := identifier;
      this.configuration := NewSessionConfiguration(connection);
      this.data := data;
      this.connection := connection;
      this.parentIdentifier := None;
    }

    method SetParentIdentifier(parent: string)
      modifies this
      ensures parentIdentifier == Some(parent)
    {
      parentIdentifier := Some(parent);
    }

    /** A reusable entry proceeds and leaves UserData alone. A single-use
        entry proceeds only if it is still present in UserData, and is
        removed from it before the attempt; if it is already gone the
        attempt is denied and nothing changes. */
    method Connect() returns (attempt: Attempt)
      modifies data
      ensures !connection.singleUse ==> attempt == Connecting(configuration) && unchanged(data)
      ensures connection.singleUse && old(data.Lookup(identifier)).None? ==>
        attempt == PermissionDenied && unchanged(data)
      ensures connection.singleUse && old(data.Lookup(identifier)).Some? ==>
        && attempt == Connecting(configuration)
        && data.Lookup(identifier).None?
        && data.connections == Some(old(data.connections).value - {identifier})
      ensures data.username == old(data.username) && data.expires == old(data.expires)
    {
      if connection.singleUse {
        var removed := data.RemoveConnection(identifier);
        if removed.None? {
          return PermissionDenied;
        }
      }
      attempt := Connecting(configuration);
    }
  }

  /** Two directory entries for the same single-use connection, sharing one
      UserData: the first attempt proceeds with the entry's configuration,
      the second is denied, and the entry is gone afterwards while every
      other entry remains. */
  method SingleUseIsConsumedOnce(username: string, expires: Option<int>,
                                 others: map<string, Connection>,
                                 identifier: string, entry: Connection)
    returns (first: Attempt, second: Attempt, remaining: Option<map<string, Connection>>)
    requires entry.singleUse
    ensures first == Connecting(NewSessionConfiguration(entry))
    ensures second == PermissionDenied
    ensures remaining == Some(others - {identifier})
  {
    var connections := others[identifier := entry];
    assert connections - {identifier} == others - {identifier};
    var data := new UserData(Fields(username, expires, Some(connections)));
    var one := new UserDataConnection(data, identifier, entry);
    var two := new UserDataConnection(data, identifier, entry);
    first := one.Connect();
    second := two.Connect();
    remaining := data.connections;
  }
}
