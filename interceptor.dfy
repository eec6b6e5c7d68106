/** The unary server interceptor installed on the gRPC server: it logs each
    call around the handler and hands back whatever the handler returned. */
module Interceptor {

  import opened Wrappers

  /** gRPC status codes. */
  datatype Code =
    | OK | Canceled | Unknown | InvalidArgument | DeadlineExceeded | NotFound
    | AlreadyExists | PermissionDenied | ResourceExhausted | FailedPrecondition
    | Aborted | OutOfRange | Unimplemented | Internal | Unavailable | DataLoss
    | Unauthenticated

  /** What Code.String() prints. */
  function CodeName(c: Code): string {
    match c
    case OK => "OK"
    case Canceled => "Canceled"
    case Unknown => "Unknown"
    case InvalidArgument => "InvalidArgument"
    case DeadlineExceeded => "DeadlineExceeded"
    case NotFound => "NotFound"
    case AlreadyExists => "AlreadyExists"
    case PermissionDenied => "PermissionDenied"
    case ResourceExhausted => "ResourceExhausted"
    case FailedPrecondition => "FailedPrecondition"
    case Aborted => "Aborted"
    case OutOfRange => "OutOfRange"
    case Unimplemented => "Unimplemented"
    case Internal => "Internal"
    case Unavailable => "Unavailable"
    case DataLoss => "DataLoss"
    case Unauthenticated => "Unauthenticated"
  }

  /** An error a handler returns: a gRPC status error, or any other error. */
  datatype RpcError = StatusError(code: Code, message: string) | PlainError(message: string)

  /** The code status.FromError reports: a status error's own code, and
      Unknown for an error that carries no status. */
  function StatusCode(e: RpcError): (c: Code)
    ensures e.PlainError? ==> c == Unknown
  {
    match e
    case StatusError(code, _) => code
    case PlainError(_) => Unknown
  }

  datatype Level = Info | Error

  /** The structured fields a record carries besides its method name. */
  datatype Fields<V> =
    | RequestField(request: V)
    | ErrorFields(err: RpcError, code: string)
    | ResponseField(response: V)

  datatype Record<V> = Record(level: Level, message: string, fullMethod: string, fields: Fields<V>)

  const IncomingMessage: string := "Incoming gRPC request"
  const FailedMessage: string := "gRPC request failed"
  const ResponseMessage: string := "gRPC response"

  datatype ServerInfo = ServerInfo(fullMethod: string)

  /** The process logger: an append-only sequence of records. */
  class Logger<V> {
    var records: seq<Record<V>>

    constructor ()
      ensures records == []
    {
      records := [];
    }

    method Log(level: Level, message: string, fullMethod: string, fields: Fields<V>)
      modifies this
      ensures records == old(records) + [Record(level, message, fullMethod, fields)]
    {
      records := records + [Record(level, message, fullMethod, fields)];
    }
  }

  /** The RPC handler the interceptor wraps: its answer for each context and
      request is fixed, and it remembers what it was called with and what the
      log held at that moment. */
  class Handler<C, V> {
    const behaviour: (C, V) -> (V, Option<RpcError>)
    var calls: seq<(C, V)>
    ghost var logAtCall: seq<seq<Record<V>>>

    constructor (behaviour: (C, V) -> (V, Option<RpcError>))
      ensures this.behaviour == behaviour && calls == [] && logAtCall == []
    {
      this.behaviour := behaviour;
      calls := [];
      logAtCall := [];
    }

    method Handle(ctx: C, req: V, ghost logger: Logger<V>) returns (resp: V, err: Option<RpcError>)
      modifies this
      ensures (resp, err) == behaviour(ctx, req)
      ensures calls == old(calls) + [(ctx, req)]
      ensures logAtCall == old(logAtCall) + [logger.records]
    {
      resp, err := behaviour(ctx, req).0, behaviour(ctx, req).1;
      calls := calls + [(ctx, req)];
      logAtCall := logAtCall + [logger.records];
    }
  }

  /** The two records one intercepted call adds to the log: the request on the
      way in, then the error with its status code or the response. */
  function CallRecords<V>(fullMethod: string, req: V, resp: V, err: Option<RpcError>)
    : (t: seq<Record<V>>)
    ensures |t| == 2
    ensures forall i :: 0 <= i < |t| ==> t[i].fullMethod == fullMethod
    ensures t[0].level == Info && t[0].message == IncomingMessage && t[0].fields == RequestField(req)
    ensures t[1].level == Error <==> err.Some?
    ensures t[1].message == if err.Some? then FailedMessage else ResponseMessage
    ensures err.Some? ==> t[1].fields.ErrorFields? && t[1].fields.err == err.value
    ensures err.Some? ==> t[1].fields.code == CodeName(StatusCode(err.value))
    ensures err.None? ==> t[1].fields == ResponseField(resp)
  {
    var incoming := Record(Info, IncomingMessage, fullMethod, RequestField(req));
    match err
    case Some(e) => [incoming, Record(Error, FailedMessage, fullMethod, ErrorFields(e, CodeName(StatusCode(e))))]
    case None => [incoming, Record(Info, ResponseMessage, fullMethod, ResponseField(resp))]
  }

  /** Observe, do not alter: the handler runs once on the original context
      and request, its result comes back untouched, and the log grows by the
      call's two records. */
  method Intercept<C, V>(logger: Logger<V>, ctx: C, req: V, info: ServerInfo,
                         handler: Handler<C, V>)
    returns (resp: V, err: Option<RpcError>)
    modifies logger, handler
    ensures (resp, err) == handler.behaviour(ctx, req)
    ensures handler.calls == old(handler.calls) + [(ctx, req)]
    // the request record was written before the handler ran
    ensures handler.logAtCall == old(handler.logAtCall)
              + [old(logger.records) + CallRecords(info.fullMethod, req, resp, err)[..1]]
    ensures logger.records == old(logger.records) + CallRecords(info.fullMethod, req, resp, err)
  {
    logger.Log(Info, IncomingMessage, info.fullMethod, RequestField(req));

    resp, err := handler.Handle(ctx, req, logger);

    match err {
      case Some(e) =>
        logger.Log(Error, FailedMessage, info.fullMethod, ErrorFields(e, CodeName(StatusCode(e))));
      case None =>
        logger.Log(Info, ResponseMessage, info.fullMethod, ResponseField(resp));
    }
    assert CallRecords(info.fullMethod, req, resp, err)[..1]
        == [Record(Info, IncomingMessage, info.fullMethod, RequestField(req))];
    return resp, err;
  }

  /** The status error a handler returns is logged with its own code name. */
  lemma StatusErrorLoggedWithCode<V>(fullMethod: string, req: V, resp: V, code: Code, msg: string)
    ensures CallRecords(fullMethod, req, resp, Some(StatusError(code, msg)))[1].fields.code == CodeName(code)
  {
  }

  /** An error without a gRPC status is logged with the code name "Unknown". */
  lemma PlainErrorLoggedUnknown<V>(fullMethod: string, req: V, resp: V, msg: string)
    ensures CallRecords(fullMethod, req, resp, Some(PlainError(msg)))[1].fields.code == "Unknown"
  {
  }
}
