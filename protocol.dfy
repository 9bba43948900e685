/** The value handed to the remote desktop proxy (guacd) when a connection is
    established: either a protocol to start a new session with, or the
    connection id of an existing session to join, plus parameter name/value
    pairs. Its parameter map starts out empty; setting parameters replaces it. */
module Protocol {
  import opened Wrappers

  datatype Config = Config(
    connectionId: Option<string>,
    protocol: Option<string>,
    parameters: map<string, string>)

  /** A freshly constructed configuration: nothing set. */
  const EmptyConfig := Config(None, None, map[])
}
