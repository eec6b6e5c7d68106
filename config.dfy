/** The whole configuration and its normaliser, which runs the daemon, logging
    and server normalisers in that order and stops at the first error. */
module Config {

  import opened Wrappers
  import DaemonConfig
  import ServerConfig

  const DaemonPrefix: string := "daemon configuration error: "
  const LoggingPrefix: string := "logging configuration error: "
  const ServerPrefix: string := "server configuration error: "

  /** The sub-normalisers, named for the trace of which ones ran. */
  datatype Stage = DaemonStage | LoggingStage | ServerStage

  const AllStages: seq<Stage> := [DaemonStage, LoggingStage, ServerStage]

  function PrefixOf(st: Stage): string {
    match st
    case DaemonStage => DaemonPrefix
    case LoggingStage => LoggingPrefix
    case ServerStage => ServerPrefix
  }

  /** The logging section's normaliser is not part of this model: it may
      rewrite its section and may fail with any error. */
  type LoggingNormalizer<!L> = L -> (L, Option<Error>)

  datatype Normalization<L> = Normalization(
    daemon: DaemonConfig.DConfig,
    logging: L,
    server: ServerConfig.Settings,
    invoked: seq<Stage>,
    err: Option<Error>)

  /** What one call of ADConfig.Normalize leaves and returns. */
  function NormalizedAll<L>(d: DaemonConfig.DConfig, l: L, s: ServerConfig.Settings,
                            normalizeLogging: LoggingNormalizer<L>): (r: Normalization<L>)
    // the stages run are a non-empty prefix of daemon, logging, server
    ensures 1 <= |r.invoked| <= 3 && r.invoked == AllStages[..|r.invoked|]
    // every stage before the last one run succeeded, and only the last can fail
    ensures |r.invoked| >= 3 ==> normalizeLogging(l).1 == None
    ensures |r.invoked| < 3 ==> r.err.Some?
    ensures r.err == None <==> (normalizeLogging(l).1 == None && ServerConfig.Normalized(s).err == None)
    // an error is the failing stage's own error behind that stage's prefix
    ensures r.err.Some? ==> r.err.value.Wrapped?
                            && r.err.value.context == PrefixOf(r.invoked[|r.invoked| - 1])
    ensures r.err.Some? && |r.invoked| == 2 ==> Some(r.err.value.cause) == normalizeLogging(l).1
    ensures r.err.Some? && |r.invoked| == 3 ==> Some(r.err.value.cause) == ServerConfig.Normalized(s).err
    // the daemon normaliser never fails, so its prefix never appears
    ensures r.invoked != [DaemonStage]
    ensures r.err.Some? ==> r.err.value.context != DaemonPrefix
    // the sections after a failing stage are left as they were
    ensures r.daemon == d
    ensures r.logging == normalizeLogging(l).0
    ensures r.server == if |r.invoked| == 3 then ServerConfig.Normalized(s).settings else s
  {
    var (d', dErr) := DaemonConfig.Normalize(d);
    match dErr
    case Some(e) => Normalization(d', l, s, [DaemonStage], Some(Wrapped(DaemonPrefix, e)))
    case None =>
      var (l', lErr) := normalizeLogging(l);
      match lErr
      case Some(e) => Normalization(d', l', s, [DaemonStage, LoggingStage], Some(Wrapped(LoggingPrefix, e)))
      case None =>
        var n := ServerConfig.Normalized(s);
        match n.err
        case Some(e) => Normalization(d', l', n.settings, AllStages, Some(Wrapped(ServerPrefix, e)))
        case None => Normalization(d', l', n.settings, AllStages, None)
  }

  /** A cert-less TLS server section surfaces as the prefixed cert error. */
  lemma ServerErrorText<L>(d: DaemonConfig.DConfig, l: L, s: ServerConfig.Settings,
                           normalizeLogging: LoggingNormalizer<L>)
    requires normalizeLogging(l).1 == None && s.tlsEnabled && s.tlsCertFile == ""
    ensures NormalizedAll(d, l, s, normalizeLogging).err
         == Some(Wrapped(ServerPrefix, ServerConfig.CertMissing))
    ensures Text(NormalizedAll(d, l, s, normalizeLogging).err.value)
         == ServerPrefix + ServerConfig.CertMissingText
  {
  }

  /** The configuration of the whole process, updated in place. */
  class ADConfig<L> {
    var daemon: DaemonConfig.DConfig
    var logging: L
    const server: ServerConfig.Server
    /** The sub-normalisers the last call of Normalize ran, in order. */
    ghost var invoked: seq<Stage>

    constructor (d: DaemonConfig.DConfig, l: L, server: ServerConfig.Server)
      ensures daemon == d && logging == l && this.server == server && invoked == []
    {
      daemon, logging, this.server := d, l, server;
      invoked := [];
    }

    method Normalize(normalizeLogging: LoggingNormalizer<L>) returns (err: Option<Error>)
      modifies this, server
      ensures var r := NormalizedAll(old(daemon), old(logging), old(server.Value()), normalizeLogging);
              daemon == r.daemon && logging == r.logging && server.Value() == r.server
              && invoked == r.invoked && err == r.err
    {
      var (d', dErr) := DaemonConfig.Normalize(daemon);
      daemon := d';
      invoked := [DaemonStage];
      match dErr {
        case Some(e) =>
          return Some(Wrapped(DaemonPrefix, e));
        case None =>
      }

      var (l', lErr) := normalizeLogging(logging);
      logging := l';
      invoked := invoked + [LoggingStage];
      match lErr {
        case Some(e) =>
          return Some(Wrapped(LoggingPrefix, e));
        case None =>
      }

      var sErr := server.Normalize();
      invoked := invoked + [ServerStage];
      match sErr {
        case Some(e) =>
          return Some(Wrapped(ServerPrefix, e));
        case None =>
      }
      return None;
    }
  }
}
