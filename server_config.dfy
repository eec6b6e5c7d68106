/** The network section of the configuration: bind address, gRPC port and
    TLS material, with the normaliser that defaults and checks them in place. */
module ServerConfig {

  import opened Wrappers

  const DefaultHost: string := "0.0.0.0"
  const DefaultGrpcPort: int := 6593

  /** heredoc.Doc drops the leading newline, strips the common four-tab
      indentation and empties the whitespace-only closing line. */
  const CertMissingText: string :=
    "TLS certificate file not provided in the config file\n\nPlease check the docs for more information: \n"
  const KeyMissingText: string :=
    "TLS key file not provided in the config file\t\n\nPlease check the docs for more information: \n"

  const CertMissing: Error := New(CertMissingText)
  const KeyMissing: Error := New(KeyMissingText)

  /** The value of the server section's fields at one moment. */
  datatype Settings = Settings(
    host: string,
    grpcPort: int,
    tlsEnabled: bool,
    tlsCertFile: string,
    tlsKeyFile: string)

  datatype Normalization = Normalization(settings: Settings, err: Option<Error>)

  /** What one call of Normalize leaves and returns. The defaults are applied
      before any check, so they are in place on the error paths too. */
  function Normalized(s: Settings): (r: Normalization)
    ensures r.settings.host == (if s.host == "" then DefaultHost else s.host)
    ensures r.settings.grpcPort == (if s.grpcPort == 0 then DefaultGrpcPort else s.grpcPort)
    ensures r.settings.host != "" && r.settings.grpcPort != 0
    ensures r.settings.tlsEnabled == s.tlsEnabled
    ensures r.settings.tlsCertFile == s.tlsCertFile && r.settings.tlsKeyFile == s.tlsKeyFile
    ensures r.err == None <==> (!s.tlsEnabled || (s.tlsCertFile != "" && s.tlsKeyFile != ""))
    ensures r.err == Some(CertMissing) <==> (s.tlsEnabled && s.tlsCertFile == "")
    ensures r.err == Some(KeyMissing) <==> (s.tlsEnabled && s.tlsCertFile != "" && s.tlsKeyFile == "")
  {
    var host := if s.host == "" then DefaultHost else s.host;
    var port := if s.grpcPort == 0 then DefaultGrpcPort else s.grpcPort;
    var t := s.(host := host, grpcPort := port);
    if s.tlsEnabled then
      if s.tlsCertFile == "" then Normalization(t, Some(CertMissing))
      else if s.tlsKeyFile == "" then Normalization(t, Some(KeyMissing))
      else Normalization(t, None)
    else Normalization(t, None)
  }

  /** A second call leaves the same state and gives the same outcome. */
  lemma NormalizedIdempotent(s: Settings)
    ensures Normalized(Normalized(s).settings) == Normalized(s)
  {
  }

  /** With TLS disabled the outcome is success whatever the cert and key hold. */
  lemma TlsDisabledSucceeds(s: Settings)
    requires !s.tlsEnabled
    ensures Normalized(s).err == None
  {
  }

  /** The server section as an object whose Normalize updates it in place. */
  class Server {
    var host: string
    var grpcPort: int
    var tlsEnabled: bool
    var tlsCertFile: string
    var tlsKeyFile: string

    constructor (s: Settings)
      ensures Value() == s
    {
      host, grpcPort := s.host, s.grpcPort;
      tlsEnabled, tlsCertFile, tlsKeyFile := s.tlsEnabled, s.tlsCertFile, s.tlsKeyFile;
    }

    function Value(): Settings
      reads this
    {
      Settings(host, grpcPort, tlsEnabled, tlsCertFile, tlsKeyFile)
    }

    method Normalize() returns (err: Option<Error>)
      modifies this
      ensures Value() == Normalized(old(Value())).settings
      ensures err == Normalized(old(Value())).err
    {
      if host == "" {
        host := DefaultHost;
      }
      if grpcPort == 0 {
        grpcPort := DefaultGrpcPort;
      }
      if tlsEnabled {
        if tlsCertFile == "" {
          return Some(CertMissing);
        }
        if tlsKeyFile == "" {
          return Some(KeyMissing);
        }
      }
      return None;
    }
  }
}
