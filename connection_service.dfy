/** The connection broker: establishes connections to the remote desktop
    proxy (guacd), tracks the sessions started under a caller-chosen id so
    that later connections can join them, and tears joiners down together
    with the session they joined. */
module ConnectionBroker {
  import opened Wrappers
  import opened Protocol
  import opened UserDataModel

  /** Tunnels handed out by the broker, numbered in order of creation. */
  type TunnelId = nat

  /** What a tracking tunnel was registered under: the entry's id and the
      connection id the proxy assigned during the handshake. */
  datatype Tracking = Tracking(id: string, backend: string)

  /** A tunnel is open or closed; a tracking tunnel carries its registration. */
  datatype Tunnel = Tunnel(open: bool, tracking: Option<Tracking>)

  /** The proxy's configured encryption; any value the broker does not
      implement is `Unimplemented`. */
  datatype EncryptionMethod = NoEncryption | SSL | Unimplemented

  datatype ConnectError = ResourceNotFound | ServerError | TransportFailure

  /** Overwriting an entry twice keeps only the second value. */
  lemma UpdateTwice<K, V>(m: map<K, V>, k: K, first: V, second: V)
    ensures m[k := first][k := second] == m[k := second]
  {
  }

  /** Removing an entry just written removes it from the original map. */
  lemma UpdateThenRemove<K, V>(m: map<K, V>, k: K, v: V)
    ensures m[k := v] - {k} == m - {k}
  {
  }

  /** Removing an absent key leaves the map as it was. */
  lemma RemoveAbsent<K, V>(m: map<K, V>, k: K)
    requires k !in m
    ensures m - {k} == m
  {
  }

  /** Compare-and-remove on the tracked ids: `id` is dropped only while it
      still maps to `backend`; every other entry is kept. */
  function RemoveIfMapped(active: map<string, string>, id: string, backend: string): (result: map<string, string>)
    ensures id in result <==> id in active && active[id] != backend
    ensures forall k :: k in result ==> k in active && result[k] == active[k]
    ensures forall k :: k in active && k != id ==> k in result
  {
    if id in active && active[id] == backend then active - {id} else active
  }

  class ConnectionService {
    /** Entry id -> proxy connection id of the session tracked under it. */
    var activeConnections: map<string, string>
    /** Proxy connection id of a joinable session -> the tunnels joining it. */
    var shadowers: map<string, seq<TunnelId>>
    /** Every tunnel handed out so far. */
    var tunnels: map<TunnelId, Tunnel>
    var nextTunnel: TunnelId
    /** Proxy connection id -> the tracking tunnel registered with it. */
    ghost var owner: map<string, TunnelId>

    /** Registry consistency: a joinable session belongs to an open tracking
        tunnel; a tracked id names a joinable session registered under that
        same id; joiners are tunnels the broker handed out. */
    ghost predicate Valid()
      reads this
    {
      && (forall u :: u in tunnels ==> u < nextTunnel)
      && (forall u :: u in tunnels && tunnels[u].tracking.Some? ==>
            tunnels[u].tracking.value.backend in owner && owner[tunnels[u].tracking.value.backend] == u)
      && (forall b :: b in owner ==>
            && owner[b] in tunnels
            && tunnels[owner[b]].tracking.Some?
            && tunnels[owner[b]].tracking.value.backend == b)
      && (forall b :: b in shadowers ==> b in owner && tunnels[owner[b]].open)
      && (forall b, u :: b in shadowers && u in shadowers[b] ==> u in tunnels)
      && (forall id :: id in activeConnections ==>
            && activeConnections[id] in shadowers
            && tunnels[owner[activeConnections[id]]].tracking.value.id == id)
    }

    /** Tunnel `u` sits in no shadow set. */
    ghost predicate Unjoined(u: TunnelId)
      reads this
    {
      forall b :: b in shadowers ==> u !in shadowers[b]
    }

    /** A tunnel in no shadow set stays out of every shadow set while
        tunnels are only being closed. */
    twostate lemma UnjoinedStaysUnjoined(u: TunnelId)
      requires OnlyCloses() && old(Unjoined(u))
      ensures Unjoined(u)
    {
    }

    /** What closing tunnels may do to the broker: close tunnels (never open
        one) and drop shadow sets and tracked ids (never add or alter one). */
    twostate predicate OnlyCloses()
      reads this
    {
      && owner == old(owner) && nextTunnel == old(nextTunnel)
      && tunnels.Keys == old(tunnels.Keys)
      && (forall u :: u in tunnels ==> tunnels[u].tracking == old(tunnels[u].tracking))
      && (forall u :: u in tunnels && tunnels[u].open ==> old(tunnels[u].open))
      && shadowers.Keys <= old(shadowers.Keys)
      && (forall b :: b in shadowers ==> shadowers[b] == old(shadowers[b]))
      && (forall id :: id in activeConnections ==>
            id in old(activeConnections) && activeConnections[id] == old(activeConnections[id]))
    }

    constructor ()
      ensures Valid()
      ensures activeConnections == map[] && shadowers == map[] && tunnels == map[]
    {
      activeConnections := map[];
      shadowers := map[];
      tunnels := map[];
      nextTunnel := 0;
      owner := map[];
    }

    /** getConfiguration: a join is configured with the proxy connection id
        currently tracked under its primary connection, and cannot be
        configured when none is; any other entry is configured with its
        protocol. Parameters are carried over in both cases. */
    function GetConfiguration(connection: Connection): (config: Option<Config>)
      reads this
      ensures connection.primaryConnection.Some? ==>
        (config.None? <==> connection.primaryConnection.value !in activeConnections)
      ensures connection.primaryConnection.Some? && config.Some? ==>
        && config.value.connectionId == Some(activeConnections[connection.primaryConnection.value])
        && config.value.protocol.None?
      ensures connection.primaryConnection.None? ==>
        && config.Some?
        && config.value.connectionId.None?
        && config.value.protocol == connection.protocol
      ensures config.Some? && connection.parameters.Some? ==>
        config.value.parameters == connection.parameters.value
      ensures config.Some? && connection.parameters.None? ==> config.value.parameters == map[]
    {
      var base :=
        match connection.primaryConnection
        case Some(primary) =>
          if primary in activeConnections
          then Some(EmptyConfig.(connectionId := Some(activeConnections[primary])))
          else None
        case None => Some(EmptyConfig.(protocol := connection.protocol));
      match base
      case None => None
      case Some(config) =>
        match connection.parameters
        case Some(parameters) => Some(config.(parameters := parameters))
        case None => Some(config)
    }

    /** closeAll: closes every tunnel of `joiners`. */
    method CloseAll(joiners: seq<TunnelId>)
      requires Valid()
      requires forall u :: u in joiners ==> u in tunnels
      modifies this
      decreases shadowers.Keys, 2
      ensures Valid() && OnlyCloses()
      ensures forall u :: u in joiners ==> !tunnels[u].open
      ensures forall u :: u in old(tunnels) && u !in joiners && old(Unjoined(u)) ==> tunnels[u] == old(tunnels[u])
      ensures joiners == [] ==> unchanged(this)
    {
      ghost var kept := set u | u in tunnels && u !in joiners && Unjoined(u);
      ghost var closed: seq<TunnelId> := [];
      var i := 0;
      while i < |joiners|
        invariant 0 <= i <= |joiners|
        invariant i == 0 ==> unchanged(this)
        invariant Valid() && OnlyCloses()
        invariant closed == joiners[..i]
        invariant forall u :: u in closed ==> u in tunnels && !tunnels[u].open
        invariant forall u :: u in kept ==> Unjoined(u) && tunnels[u] == old(tunnels[u])
      {
        ghost var closedNext := closed + [joiners[i]];
        assert closedNext == joiners[..i + 1];
        CloseJoiner(joiners[i], kept, closed);
        closed := closedNext;
        i := i + 1;
      }
      assert closed == joiners;
    }

    /** One step of closeAll: closing joiner `t` leaves the tunnels of
        `kept`, which sit in no shadow set, as they were, and the tunnels of
        `closed` closed. */
    method CloseJoiner(t: TunnelId, ghost kept: set<TunnelId>, ghost closed: seq<TunnelId>)
      requires Valid() && t in tunnels && t !in kept
      requires forall u :: u in kept ==> u in tunnels && Unjoined(u)
      requires forall u :: u in closed ==> u in tunnels && !tunnels[u].open
      modifies this
      decreases shadowers.Keys, 1
      ensures Valid() && OnlyCloses() && !tunnels[t].open
      ensures forall u :: u in closed ==> u in tunnels && !tunnels[u].open
      ensures forall u :: u in kept ==> Unjoined(u) && tunnels[u] == old(tunnels[u])
    {
      Close(t);
      forall u | u in kept
        ensures Unjoined(u)
      {
        UnjoinedStaysUnjoined(u);
      }
    }

    /** Closing a tunnel. A tracking tunnel first stops being joinable: its
        id is dropped if, and only if, it is still tracked with this
        tunnel's proxy connection id, so a newer registration under the same
        id survives. Its shadow set is then dropped and every joiner in it
        closed. */
    method Close(t: TunnelId)
      requires Valid() && t in tunnels
      modifies this
      decreases shadowers.Keys, 0
      ensures Valid() && OnlyCloses()
      ensures !tunnels[t].open
      ensures old(tunnels[t].tracking).None? ==>
        && activeConnections == old(activeConnections)
        && shadowers == old(shadowers)
        && tunnels == old(tunnels)[t := Tunnel(false, None)]
      ensures old(tunnels[t].tracking).Some? ==>
        var Tracking(id, backend) := old(tunnels[t].tracking.value);
        && backend !in shadowers
        && (old(id in activeConnections && activeConnections[id] == backend) ==> id !in activeConnections)
        && (old(backend in shadowers) ==> forall u :: u in old(shadowers[backend]) ==> !tunnels[u].open)
      ensures old(tunnels[t].tracking).Some? && old(tunnels[t].tracking.value.backend in shadowers ==>
                                                  shadowers[tunnels[t].tracking.value.backend] == []) ==>
        var Tracking(id, backend) := old(tunnels[t].tracking.value);
        && activeConnections == RemoveIfMapped(old(activeConnections), id, backend)
        && shadowers == old(shadowers) - {backend}
        && tunnels == old(tunnels)[t := old(tunnels[t]).(open := false)]
      ensures forall u :: u in old(tunnels) && u != t && old(Unjoined(u)) ==> tunnels[u] == old(tunnels[u])
    {
      if tunnels[t].tracking.Some? {
        var joiners := StopTracking(t);
        // Close every tunnel joined to the closed session
        if joiners.Some? {
          CloseAll(joiners.value);
        }
      }
      MarkClosed(t);
    }

    /** The registry part of closing tracking tunnel `t`: drop its id if it
        is still tracked with `t`'s proxy connection id, then take out the
        shadow set of that connection id. */
    method StopTracking(t: TunnelId) returns (joiners: Option<seq<TunnelId>>)
      requires Valid() && t in tunnels && tunnels[t].tracking.Some?
      modifies this
      ensures Valid() && OnlyCloses()
      ensures tunnels == old(tunnels)
      ensures
        var Tracking(id, backend) := tunnels[t].tracking.value;
        && activeConnections == RemoveIfMapped(old(activeConnections), id, backend)
        && shadowers == old(shadowers) - {backend}
        && joiners == (if backend in old(shadowers) then Some(old(shadowers[backend])) else None)
      ensures joiners.Some? ==> forall u :: u in joiners.value ==> u in tunnels
    {
      var Tracking(id, backend) := tunnels[t].tracking.value;
      // Stop the session from being joined further
      if id in activeConnections && activeConnections[id] == backend {
        activeConnections := activeConnections - {id};
      }
      if backend in shadowers {
        joiners := Some(shadowers[backend]);
        shadowers := shadowers - {backend};
      } else {
        joiners := None;
      }
    }

    /** Closing the tunnel's socket, once it no longer owns a shadow set. */
    method MarkClosed(t: TunnelId)
      requires Valid() && t in tunnels
      requires tunnels[t].tracking.Some? ==> tunnels[t].tracking.value.backend !in shadowers
      modifies this
      ensures Valid() && OnlyCloses()
      ensures tunnels == old(tunnels)[t := old(tunnels[t]).(open := false)]
      ensures activeConnections == old(activeConnections) && shadowers == old(shadowers)
    {
      tunnels := tunnels[t := tunnels[t].(open := false)];
    }

    /** A plain tunnel for a connection without an id: no registry changes. */
    method OpenUntracked() returns (t: TunnelId)
      requires Valid()
      modifies this
      ensures Valid()
      ensures t == old(nextTunnel) && t !in old(tunnels)
      ensures tunnels == old(tunnels)[t := Tunnel(true, None)]
      ensures activeConnections == old(activeConnections) && shadowers == old(shadowers)
      ensures owner == old(owner) && nextTunnel > t
    {
      t := nextTunnel;
      nextTunnel := nextTunnel + 1;
      tunnels := tunnels[t := Tunnel(true, None)];
    }

    /** A tracking tunnel for a connection with an id: its fresh proxy
        connection id gets an empty shadow set, and the id is tracked with
        it, replacing any earlier registration under the same id without
        closing the earlier tunnel. */
    method OpenTracking(id: string, backend: string) returns (t: TunnelId)
      requires Valid() && backend !in owner
      modifies this
      ensures Valid()
      ensures t == old(nextTunnel) && t !in old(tunnels)
      ensures tunnels == old(tunnels)[t := Tunnel(true, Some(Tracking(id, backend)))]
      ensures backend !in old(shadowers) && shadowers == old(shadowers)[backend := []]
      ensures activeConnections == old(activeConnections)[id := backend]
      ensures owner == old(owner)[backend := t] && nextTunnel > t
    {
      t := nextTunnel;
      nextTunnel := nextTunnel + 1;
      tunnels := tunnels[t := Tunnel(true, Some(Tracking(id, backend)))];
      owner := owner[backend := t];
      // Allow the session to be joined
      shadowers := shadowers[backend := []];
      activeConnections := activeConnections[id := backend];
    }

    /** The join step: the new tunnel joins the shadow set of the session it
        joined if that set still exists, and is closed if it does not. */
    method TrackJoiner(t: TunnelId, joined: string)
      requires Valid() && t in tunnels
      modifies this
      ensures Valid() && tunnels.Keys == old(tunnels.Keys)
      ensures (joined in shadowers && t in shadowers[joined]) || !tunnels[t].open
      ensures joined in old(shadowers) ==>
        && shadowers == old(shadowers)[joined := old(shadowers[joined]) + [t]]
        && activeConnections == old(activeConnections)
        && tunnels == old(tunnels) && nextTunnel == old(nextTunnel)
      ensures owner == old(owner)
      ensures joined !in old(shadowers) ==> OnlyCloses() && !tunnels[t].open && joined !in shadowers
      ensures joined !in old(shadowers) && old(tunnels[t].tracking).None? ==>
        && activeConnections == old(activeConnections) && shadowers == old(shadowers)
        && tunnels == old(tunnels)[t := old(tunnels[t]).(open := false)]
      ensures joined !in old(shadowers) && old(tunnels[t].tracking).Some? &&
              old(tunnels[t].tracking.value.backend in shadowers ==> shadowers[tunnels[t].tracking.value.backend] == []) ==>
        var Tracking(id, backend) := old(tunnels[t].tracking.value);
        && activeConnections == RemoveIfMapped(old(activeConnections), id, backend)
        && shadowers == old(shadowers) - {backend}
        && tunnels == old(tunnels)[t := old(tunnels[t]).(open := false)]
    {
      // Track the joiner, if the joined session can still be joined
      if joined in shadowers {
        shadowers := shadowers[joined := shadowers[joined] + [t]];
      }
      // Close the joiner in every case where it would not be closed
      // together with the joined session
      if joined !in shadowers {
        Close(t);
      }
    }

    /** connect. A join whose primary connection is not tracked fails with
        ResourceNotFound, an unimplemented encryption method with a server
        error, a failed handshake with a transport failure; none of these
        changes anything. Otherwise `backend` is the connection id the proxy
        assigned, and `racingCloses` are the tunnels other requests close
        while this one is in its handshake. An entry without an id yields a
        plain tunnel; one with an id yields a tracking tunnel, registered
        under that id. A joining tunnel ends up either in the shadow set of
        the session it joined or closed. */
    method Connect(connection: Connection, encryption: EncryptionMethod,
                   handshake: Option<string>, racingCloses: seq<TunnelId>)
      returns (result: Result<TunnelId, ConnectError>)
      requires Valid()
      requires handshake.Some? ==> handshake.value !in owner
      requires forall u :: u in racingCloses ==> u in tunnels
      modifies this
      ensures Valid()
      ensures old(GetConfiguration(connection)).None? ==> result == Failure(ResourceNotFound)
      ensures old(GetConfiguration(connection)).Some? && encryption == Unimplemented ==>
        result == Failure(ServerError)
      ensures old(GetConfiguration(connection)).Some? && encryption != Unimplemented && handshake.None? ==>
        result == Failure(TransportFailure)
      ensures old(GetConfiguration(connection)).Some? && encryption != Unimplemented && handshake.Some? ==>
        result.Success?
      ensures result.Failure? ==>
        && activeConnections == old(activeConnections)
        && shadowers == old(shadowers)
        && tunnels == old(tunnels)
      ensures result.Success? ==>
        && result.value == old(nextTunnel)
        && result.value in tunnels
        && tunnels[result.value].tracking ==
             (if connection.id.Some? then Some(Tracking(connection.id.value, handshake.value)) else None)
      ensures result.Success? && connection.primaryConnection.None? ==> tunnels[result.value].open
      ensures result.Success? && connection.id.Some? && tunnels[result.value].open ==>
        && connection.id.value in activeConnections
        && activeConnections[connection.id.value] == handshake.value
        && handshake.value in shadowers && shadowers[handshake.value] == []
      ensures result.Success? && connection.primaryConnection.Some? ==>
        var joined := old(activeConnections[connection.primaryConnection.value]);
        || (joined in shadowers && result.value in shadowers[joined] && tunnels[result.value].open)
        || (joined !in shadowers && !tunnels[result.value].open)
      ensures result.Success? && racingCloses == [] ==>
        && tunnels == old(tunnels)[result.value := Tunnel(true, tunnels[result.value].tracking)]
        && activeConnections ==
             (if connection.id.Some? then old(activeConnections)[connection.id.value := handshake.value]
              else old(activeConnections))
      ensures result.Success? && racingCloses == [] && connection.primaryConnection.None? ==>
        shadowers == (if connection.id.Some? then old(shadowers)[handshake.value := []] else old(shadowers))
      ensures result.Success? && racingCloses == [] && connection.primaryConnection.Some? ==>
        var joined := old(activeConnections[connection.primaryConnection.value]);
        shadowers == (if connection.id.Some? then old(shadowers)[handshake.value := []] else old(shadowers))
                       [joined := old(shadowers[joined]) + [result.value]]
      ensures result.Success? ==> forall u :: u in racingCloses ==> u in tunnels && !tunnels[u].open
      ensures forall u :: u in old(tunnels) ==> u in tunnels && tunnels[u].tracking == old(tunnels[u].tracking)
      ensures handshake.None? ==> owner == old(owner)
      ensures handshake.Some? ==> owner.Keys <= old(owner.Keys) + {handshake.value}
    {
      var config := GetConfiguration(connection);
      if config.None? {
        return Failure(ResourceNotFound);
      }
      if encryption == Unimplemented {
        return Failure(ServerError);
      }
      if handshake.None? {
        return Failure(TransportFailure);
      }
      CloseAll(racingCloses);
      var t := Establish(connection.id, handshake.value, config.value.connectionId);
      return Success(t);
    }

    /** The socket connect hands out: plain for an entry without an id,
        tracking and registered under the id otherwise. */
    method Register(id: Option<string>, backend: string) returns (t: TunnelId)
      requires Valid() && backend !in owner
      modifies this
      ensures Valid()
      ensures t == old(nextTunnel) && t !in old(tunnels) && backend !in old(shadowers)
      ensures tunnels == old(tunnels)[t := Tunnel(true, if id.Some? then Some(Tracking(id.value, backend)) else None)]
      ensures activeConnections == (if id.Some? then old(activeConnections)[id.value := backend] else old(activeConnections))
      ensures shadowers == (if id.Some? then old(shadowers)[backend := []] else old(shadowers))
      ensures owner == (if id.Some? then old(owner)[backend := t] else old(owner))
    {
      if id.None? {
        t := OpenUntracked();
      } else {
        t := OpenTracking(id.value, backend);
      }
    }

    /** What connect does once the handshake has assigned `backend`: hand
        out a plain tunnel (no `id`) or a tracking tunnel registered under
        `id`, then, for a join, track it as a joiner of session `joined`. */
    method Establish(id: Option<string>, backend: string, joined: Option<string>) returns (t: TunnelId)
      requires Valid() && backend !in owner
      requires joined.Some? ==> joined.value in owner
      modifies this
      ensures Valid()
      ensures t == old(nextTunnel) && t in tunnels && old(tunnels).Keys <= tunnels.Keys
      ensures tunnels[t].tracking == (if id.Some? then Some(Tracking(id.value, backend)) else None)
      ensures joined.None? ==> tunnels[t].open
      ensures id.Some? && tunnels[t].open ==>
        && id.value in activeConnections && activeConnections[id.value] == backend
        && backend in shadowers && shadowers[backend] == []
      ensures joined.Some? ==>
        || (joined.value in shadowers && t in shadowers[joined.value] && tunnels[t].open)
        || (joined.value !in shadowers && !tunnels[t].open)
      ensures joined.None? || joined.value in old(shadowers) ==>
        && tunnels == old(tunnels)[t := Tunnel(true, tunnels[t].tracking)]
        && activeConnections == (if id.Some? then old(activeConnections)[id.value := backend] else old(activeConnections))
      ensures joined.None? ==>
        shadowers == (if id.Some? then old(shadowers)[backend := []] else old(shadowers))
      ensures joined.Some? && joined.value in old(shadowers) ==>
        shadowers == (if id.Some? then old(shadowers)[backend := []] else old(shadowers))
                       [joined.value := old(shadowers[joined.value]) + [t]]
      ensures joined.Some? && joined.value !in old(shadowers) ==>
        && tunnels == old(tunnels)[t := Tunnel(false, tunnels[t].tracking)]
        && activeConnections == (if id.Some? then old(activeConnections) - {id.value} else old(activeConnections))
        && shadowers == old(shadowers)
      ensures owner.Keys <= old(owner.Keys) + {backend}
      ensures forall u :: u in old(tunnels) ==> tunnels[u].tracking == old(tunnels[u].tracking)
      ensures forall u :: u in old(tunnels) && !old(tunnels[u].open) ==> !tunnels[u].open
    {
      if joined.None? {
        t := Register(id, backend);
      } else {
        // Track tunnels which join sessions, so that they close with them
        t := RegisterJoiner(id, backend, joined.value);
      }
    }

    /** The join case of establishing a connection: register the new
        tunnel, then track it as a joiner of `joined`, or close it (undoing
        its own registration) when `joined` can no longer be joined. */
    method RegisterJoiner(id: Option<string>, backend: string, joined: string) returns (t: TunnelId)
      requires Valid() && backend !in owner && joined in owner
      modifies this
      ensures Valid()
      ensures t == old(nextTunnel) && t !in old(tunnels) && t in tunnels
      ensures tunnels[t].tracking == (if id.Some? then Some(Tracking(id.value, backend)) else None)
      ensures (joined in shadowers && t in shadowers[joined] && tunnels[t].open) || (joined !in shadowers && !tunnels[t].open)
      ensures joined in old(shadowers) ==>
        && tunnels == old(tunnels)[t := Tunnel(true, tunnels[t].tracking)]
        && activeConnections == (if id.Some? then old(activeConnections)[id.value := backend] else old(activeConnections))
        && shadowers == (if id.Some? then old(shadowers)[backend := []] else old(shadowers))
                          [joined := old(shadowers[joined]) + [t]]
      ensures joined !in old(shadowers) ==>
        && tunnels == old(tunnels)[t := Tunnel(false, tunnels[t].tracking)]
        && activeConnections == (if id.Some? then old(activeConnections) - {id.value} else old(activeConnections))
        && shadowers == old(shadowers)
      ensures owner.Keys <= old(owner.Keys) + {backend}
    {
      t := Register(id, backend);
      label registered:
      assert joined != backend;
      TrackJoiner(t, joined);
      if joined in old(shadowers) {
        assert old@registered(shadowers[joined]) == old(shadowers[joined]);
      } else {
        // The joiner's own registration is undone by closing it
        UpdateTwice(old(tunnels), t, Tunnel(true, tunnels[t].tracking), Tunnel(false, tunnels[t].tracking));
        if id.Some? {
          UpdateThenRemove(old(activeConnections), id.value, backend);
          UpdateThenRemove(old(shadowers), backend, []);
          RemoveAbsent(old(shadowers), backend);
        }
      }
    }
  }

  /** A session started under id "a" can be joined; the joiner sits in its
      shadow set; closing the primary tunnel closes the joiner too and
      "a" is no longer tracked. */
  method JoinThenClosePrimary(protocol: string, primaryBackend: string, joinerBackend: string)
    returns (joinedBeforeClose: bool, joinerOpenAfter: bool, trackedAfter: bool)
    requires primaryBackend != joinerBackend
    ensures joinedBeforeClose && !joinerOpenAfter && !trackedAfter
  {
    var broker := new ConnectionService();
    var primary := Connection(Some("a"), Some(protocol), None, None, false);
    var joiner := Connection(None, None, None, Some("a"), false);
    var first := broker.Connect(primary, NoEncryption, Some(primaryBackend), []);
    var second := broker.Connect(joiner, NoEncryption, Some(joinerBackend), []);
    joinedBeforeClose := primaryBackend in broker.shadowers && second.value in broker.shadowers[primaryBackend];
    broker.Close(first.value);
    joinerOpenAfter := broker.tunnels[second.value].open;
    trackedAfter := "a" in broker.activeConnections;
  }

  /** Joining an id that was never connected fails with ResourceNotFound. */
  method JoinUnknownSession(backend: string) returns (result: Result<TunnelId, ConnectError>)
    ensures result == Failure(ResourceNotFound)
  {
    var broker := new ConnectionService();
    var joiner := Connection(None, None, None, Some("missing"), false);
    result := broker.Connect(joiner, SSL, Some(backend), []);
  }

  /** Connecting twice under the same id: the first tunnel stays open and
      the id now tracks the second session. */
  method SupersedeWithoutClosing(protocol: string, firstBackend: string, secondBackend: string)
    returns (firstOpen: bool, tracked: Option<string>)
    requires firstBackend != secondBackend
    ensures firstOpen && tracked == Some(secondBackend)
  {
    var broker := new ConnectionService();
    var entry := Connection(Some("a"), Some(protocol), None, None, false);
    var first := broker.Connect(entry, NoEncryption, Some(firstBackend), []);
    var second := broker.Connect(entry, NoEncryption, Some(secondBackend), []);
    firstOpen := broker.tunnels[first.value].open;
    tracked := if "a" in broker.activeConnections then Some(broker.activeConnections["a"]) else None;
  }

  /** The primary session closes while a joiner is in its handshake: the
      joiner is closed instead of being left open and untracked. */
  method PrimaryClosesDuringJoin(protocol: string, primaryBackend: string, joinerBackend: string)
    returns (joinerOpen: bool)
    requires primaryBackend != joinerBackend
    ensures !joinerOpen
  {
    var broker := new ConnectionService();
    var primary := Connection(Some("a"), Some(protocol), None, None, false);
    var joiner := Connection(None, None, None, Some("a"), false);
    var first := broker.Connect(primary, NoEncryption, Some(primaryBackend), []);
    var second := broker.Connect(joiner, NoEncryption, Some(joinerBackend), [first.value]);
    assert first.value in [first.value];
    assert primaryBackend !in broker.shadowers;
    joinerOpen := broker.tunnels[second.value].open;
  }
}
