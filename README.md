# ACL API request path and configuration, in Dafny

This project models the core of an unprivileged gRPC front end that accepts
filesystem ACL change requests and forwards each one to a root-privileged
daemon over a unix socket. It covers five pieces:

- **ACL entry builder** (`AclUtils`). It renders an entry in the POSIX ACL
  short text form `[default:]type:entity:perms`. That string is what crosses
  the privilege boundary.
- **Forwarding handler** (`AclHandlers`). It turns one `ApplyACLEntry`
  request into one message `{action, entry, path}`. It marshals the message,
  dials the daemon's socket, writes, does one read into a 1024-byte buffer,
  unmarshals, and maps the result. For a request that carries an entry,
  every failing stage gives its own `{success: false, message}` response and
  never an RPC error. A request without an entry panics on the nil pointer
  before any socket stage.
- **Configuration normalisers** (`ServerConfig`, `DaemonConfig`, `Config`).
  They apply host and port defaults, check the TLS certificate and key paths,
  and compose the daemon, logging and server normalisers in order. The first
  error stops the sequence and is wrapped with that section's prefix.
- **Logging interceptor** (`Interceptor`). It logs each call on the way in and
  on the way out, and returns the handler's result unchanged.
- `Wrappers`: `Option` and Go `error` values (`errors.New`, and `fmt.Errorf`
  with `%w`).

State that the source changes in place is modelled as classes:

- `Server` and `ADConfig` hold the configuration sections.
- `Channel` is the socket connection. It has a ghost `closed` flag and a ghost
  trace of socket operations.
- `Logger` is an append-only record sequence.
- `Handler` wraps the RPC handler and remembers its calls.

Each state-changing method is proved equal to a pure function of the old
state: `Normalized`, `NormalizedAll`, `Handled` or `CallRecords`. The
properties are proved about those functions.

Outside collaborators are parameters:

- JSON marshalling and unmarshalling are arbitrary functions, `Encoder` and
  `Decoder`.
- The daemon at the far end of the socket is a `Peer` value. It fixes whether
  the dial, the write and the read succeed, the reply bytes, and how many
  bytes one read delivers at most.
- The logging section's normaliser is an arbitrary function
  `L -> (L, Option<Error>)`.

Facts about the code that the model follows:

- The handler validates nothing: an unknown action, an empty target path and
  any entry text are forwarded verbatim (internal/acl/handlers.go:24-32).
- The handler always forwards to the daemon. It never applies the entry
  itself (for example by running setfacl).
- The server settings have no CA field (config/server.go), so no mutual TLS
  is configured from them.
- The handler reads `config.APIDConfig.DConfig.SocketPath`
  (internal/acl/handlers.go:21), but `DConfig` declares only `DebugMode`
  (config/daemon.go:4-6), so the Go code does not compile as shown. The model
  gives `DConfig` a `socketPath` field, and the handler takes the daemon
  section as a parameter instead of reading a global.
- Action is assigned to a Go `string` field at internal/acl/handlers.go:29.
  The model takes entity type, entity and permissions to be strings as well.
  The generated protobuf types are not part of this model; if `EntityType`
  is an enum printed by its name, it never holds a ':'.

Some facts the proofs bring out:

- `default:` starts the entry text exactly when `isDefault` is set if the
  entity type is colon-free and is not the word `default` itself. See
  `DefaultPrefixIff`; `DefaultTypeLooksDefault` shows the second condition is
  needed.
- For a string entity type, a non-default entry with entity type
  `default:user` renders the same as a default `user` entry, because entity
  types are not validated (`ColonInTypeForgesDefault`).
- The TLS error texts are what `heredoc.Doc` makes of the raw literals: the
  leading newline and the common indentation are dropped, and the
  whitespace-only last line becomes empty. The key message keeps the tab that
  trails its first line in the source.

## Model

| member | source | states |
|---|---|---|
| `AclUtils.BuildACLEntry` | internal/acl/utils.go:9-21 | The length is 8 (only for a default entry) plus the lengths of type, entity and permissions, plus 2. A default entry starts with `default:`. After the prefix comes exactly `type:entity:perms`, so an empty entity gives nothing between the two colons. |
| `AclUtils.ActionIrrelevant` | internal/acl/utils.go:9-21 | Entries that agree on isDefault, type, entity and permissions render the same text. The action never matters, and equal inputs give equal outputs. |
| `AclUtils.DefaultPrefixIff` | internal/acl/utils.go:10-20 | For a colon-free entity type other than `default`, the text starts with `default:` if and only if isDefault is set. |
| `AclUtils.NoDefaultPrefix` | internal/acl/utils.go:10-20 | Under the same premise, a non-default entry's text does not start with `default:`. |
| `AclUtils.DefaultTypeLooksDefault` | internal/acl/utils.go:10-20 | A non-default entry of type `default` still starts with `default:`. This is why the premise above is needed. |
| `AclUtils.RoundTrip` | internal/acl/utils.go:20 | When no field contains ':', splitting the text on ':' recovers isDefault, type, entity and permissions exactly. |
| `AclUtils.Injective` | internal/acl/utils.go:20 | For colon-free fields, equal texts come from equal rendered fields. |
| `AclUtils.ColonInTypeForgesDefault` | internal/acl/utils.go:20 | Without the colon-free premise, type `default:user` non-default renders the same as type `user` default. |
| `AclUtils.ExampleUserAlice` | internal/acl/utils.go:20 | user / alice / rwx, non-default, renders `user:alice:rwx`. |
| `AclUtils.ExampleEmptyEntity` | internal/acl/utils.go:15-20 | mask / empty / rwx renders `mask::rwx`. |
| `AclHandlers.ForwardMessage` | internal/acl/handlers.go:24-32 | The forwarded message carries the entry's action verbatim, the built entry text and the target path. None of them is checked. |
| `AclHandlers.Delivered` | internal/acl/handlers.go:54-55 | One read delivers no more than the buffer capacity, the reply length or the peer's burst. It delivers exactly one of the three. |
| `AclHandlers.Received` | internal/acl/handlers.go:54-67 | The decoder gets a prefix of the daemon's reply of at most 1024 bytes. |
| `AclHandlers.Channel.Dial` | internal/acl/handlers.go:41-44 | The dial succeeds as the peer decides. It connects only on success and records the dialled path. |
| `AclHandlers.Channel.Write` | internal/acl/handlers.go:48-51 | The write succeeds as the peer decides and records the bytes written. |
| `AclHandlers.Channel.Read` | internal/acl/handlers.go:54-58 | A successful read copies the first `Delivered` reply bytes into the front of the buffer and leaves the rest alone. A failed read delivers nothing. |
| `AclHandlers.Channel.Close` | internal/acl/handlers.go:45 | Closing sets the ghost closed flag and records the close. |
| `AclHandlers.Forwarded` | internal/acl/handlers.go:35-77 | For a request that carries an entry: there are no socket operations exactly when marshalling fails. Otherwise the first operation dials the configured socket path. The connection is closed, last, exactly when the dial succeeded. Only the marshalled message is written. The one read asks for 1024 bytes and happens only after a successful write. Success means every stage went through and the daemon's decoded reply said success, with that message. |
| `AclHandlers.Handled` | internal/acl/handlers.go:19-77 | The call panics if and only if the request has no entry, and then touches no socket. A call that returns always has a nil Go error. For a request with an entry, the response and the socket operations are those of `Forwarded`. |
| `AclHandlers.NilEntryPanics` | internal/acl/handlers.go:28-30 | A request without an entry panics with no socket operation, whatever the encoder, decoder and daemon would do. |
| `AclHandlers.ApplyACLEntry` | internal/acl/handlers.go:19-77 | The answer and the socket operations are those of `Handled`: a panic for a missing entry, otherwise `Forwarded`'s response with a nil Go error. The connection ends closed exactly when it was dialled successfully. |
| `AclHandlers.EncodeFailureStage` | internal/acl/handlers.go:35-38 | A marshal failure gives `{false, "JSON encoding failed"}` and no connection is attempted. |
| `AclHandlers.ConnectFailureStage` | internal/acl/handlers.go:41-44 | A dial failure gives `{false, "Failed to connect to root daemon"}`. Nothing is written, read or closed. |
| `AclHandlers.WriteFailureStage` | internal/acl/handlers.go:48-51 | A write failure gives `{false, "Failed to write to socket"}`. Nothing is read and the connection is closed. |
| `AclHandlers.ReadFailureStage` | internal/acl/handlers.go:54-58 | A read failure gives `{false, "Failed to read from socket"}`, and the connection is closed. |
| `AclHandlers.DecodeStage` | internal/acl/handlers.go:67-76 | An unmarshal failure gives `{false, "Failed to parse response"}`. Otherwise success and message are copied unchanged from the daemon's reply. |
| `AclHandlers.SuccessIff` | internal/acl/handlers.go:35-76 | The response is a success if and only if marshal, dial, write, read and unmarshal all succeed and the daemon reports success. |
| `AclHandlers.ReplyPassesThrough` | internal/acl/handlers.go:54-76 | A reply that one read delivers whole and that decodes to a verdict comes back as exactly that verdict. For example, `{true, "ok"}` gives `{true, "ok"}`. |
| `AclHandlers.AllStagesTrace` | internal/acl/handlers.go:41-58 | When marshal, dial, write and read succeed, the socket trace is exactly: dial the configured path, write the marshalled message, one 1024-byte read, then the deferred close. |
| `AclHandlers.LongReplyTruncated` | internal/acl/handlers.go:54-67 | For replies longer than 1024 bytes, the decoder sees only what the first 1024 bytes determine, and always less than the whole reply. |
| `DaemonConfig.Normalize` | config/daemon.go:9-17 | It returns nil for every daemon section and leaves the section, and so DebugMode, unchanged. |
| `DaemonConfig.NormalizeIdempotent` | config/daemon.go:9-17 | A second normalisation gives the same section and outcome. |
| `DaemonConfig.ZeroIsProduction` | config/daemon.go:11-14 | The zero value, with debug mode off, is production mode after normalisation. |
| `ServerConfig.Normalized` | config/server.go:20-55 | An empty host becomes `0.0.0.0`, and a port of 0 becomes 6593. Any other host or port is kept, negatives included. The defaults are applied on error paths too. The TLS flag, cert and key are never changed. The outcome is nil iff TLS is off or both paths are set. It is the cert error iff TLS is on with no cert, so the cert check wins. It is the key error iff TLS is on with a cert but no key. |
| `ServerConfig.NormalizedIdempotent` | config/server.go:20-55 | A second call leaves the same state and gives the same outcome. |
| `ServerConfig.TlsDisabledSucceeds` | config/server.go:49-54 | With TLS off the outcome is nil, whatever the cert and key hold. |
| `ServerConfig.Server.Normalize` | config/server.go:20-55 | The in-place method leaves the fields and returns the error that `Normalized` gives for the old fields. |
| `Config.NormalizedAll` | config/config.go:17-32 | The sub-normalisers run in the order daemon, logging, server. The stages run are a non-empty prefix of that order, and only the last one can fail. Later stages are not run, so server defaults are not applied after a logging error. The result is nil iff logging and server both succeed. An error is the failing stage's own error wrapped with that stage's prefix. The daemon prefix never appears. |
| `Config.ServerErrorText` | config/config.go:27-29 | A cert-less TLS server section yields the cert error wrapped with `server configuration error: `, and its text is that prefix followed by the cert message. |
| `Config.ADConfig.Normalize` | config/config.go:17-32 | The in-place method leaves the three sections, the stages run and the error that `NormalizedAll` gives for the old state. |
| `Interceptor.StatusCode` | internal/grpcserver/interceptor.go:31 | An error that carries no gRPC status is reported with code Unknown. |
| `Interceptor.StatusErrorLoggedWithCode` | internal/grpcserver/interceptor.go:31-35 | A status error's record carries the name of its own code. |
| `Interceptor.Logger.Log` | internal/grpcserver/interceptor.go:21-24 | Logging appends exactly one record and changes nothing before it. |
| `Interceptor.Handler.Handle` | internal/grpcserver/interceptor.go:27 | The handler answers as its behaviour fixes. It records the context and request it got, and what the log held at that moment. |
| `Interceptor.CallRecords` | internal/grpcserver/interceptor.go:21-42 | Each call adds exactly two records, and both carry the full method name. The first is the Info record "Incoming gRPC request" with the request. The second is an Error record iff the handler failed: "gRPC request failed" with the error and the name of its status code. Otherwise it is the Info record "gRPC response" with the response. |
| `Interceptor.PlainErrorLoggedUnknown` | internal/grpcserver/interceptor.go:30-35 | An error without a gRPC status is logged with the code name "Unknown". |
| `Interceptor.Intercept` | internal/grpcserver/interceptor.go:12-45 | The result is exactly the handler's `(resp, err)`. The handler runs once, on the original context and request. The request record was already in the log when it ran. The log grows by exactly the call's two records. |

## Left out

- Real sockets: dialling, the unix-domain transport and partial reads across several calls. The daemon is a fixed `Peer`, and one connection serves one request.
- JSON: the grammar of the request and reply documents is not modelled. Marshalling and unmarshalling are arbitrary functions.
- AclHandlers.Channel.Read: when a Go read returns both bytes and an error, the handler ignores the bytes. The model delivers no bytes on a failed read, which the handler cannot tell apart.
- The advisory "Prefer using TLS for security" that server normalisation prints to standard output when TLS is off. It is I/O and does not change the outcome.
- The `heredoc` library: its output for the two TLS messages is worked out by hand and written as constants.
- The logging section and its normaliser (config `Logging`) are not part of this model. The model uses an arbitrary normaliser of that section.
- AclHandlers.ApplyACLEntry: the panic is modelled as an answer, not as Go's unwinding. Nothing recovers it, so the interceptor never writes its second record for such a call and the process stops; the interceptor model covers only handlers that return.
- Interceptor.Intercept: concurrent calls share the process-global zap logger (internal/grpcserver/interceptor.go:18), so their records interleave. The two adjacent records per call hold only for one call in isolation.
- The `context.Context` passed to the handler and interceptor is an opaque value. Cancellation and deadlines are not modelled.
- The process-global `zap` logger and `config.APIDConfig` are passed in as explicit objects and values.
- cmd/aclapi/main.go: signal handling, goroutines and the 5-second graceful-then-forced shutdown are concurrency and wall-clock timing.
- internal/grpcserver/grpc.go: server construction, service registration, reflection in debug mode, and the TCP listen. The TLS options built there are never passed to the server, so TLS is not modelled as enforced.
- internal/grpcserver/utils.go (mutual TLS credentials), internal/utils/utils.go (logger setup), internal/grpcserver/handlers.go (a constant Ping), internal/grpcserver/server.go (a plain struct): X.509 and library calls or no logic.
- Go's `int` for the gRPC port: no arithmetic is done on it, so its width does not matter and it is an unbounded `int`.
