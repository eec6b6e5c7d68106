/** The daemon section of the configuration and its (trivial) normaliser. */
module DaemonConfig {

  import opened Wrappers

  /** Daemon settings. The socket path is the local channel the forwarding
      handler dials; the handler reads it from this section. */
  datatype DConfig = DConfig(debugMode: bool, socketPath: string)

  /** The zero value a configuration loader leaves when the section is absent. */
  const Zero: DConfig := DConfig(false, "")

  predicate ProductionMode(d: DConfig) {
    !d.debugMode
  }

  /** The normaliser changes nothing and always succeeds. */
  function Normalize(d: DConfig): (r: (DConfig, Option<Error>))
    ensures r.0 == d && r.1 == None
  {
    (d, None)
  }

  lemma NormalizeIdempotent(d: DConfig)
    ensures Normalize(Normalize(d).0) == Normalize(d)
  {
  }

  lemma ZeroIsProduction()
    ensures ProductionMode(Normalize(Zero).0)
  {
  }
}
