/** The ACL service handler in forwarding mode: one request becomes one
    message to the root daemon over a unix socket, and the daemon's reply (or
    the stage that failed) becomes the RPC response. */
module AclHandlers {

  import opened Wrappers
  import opened AclUtils
  import DaemonConfig

  newtype byte = x: int | 0 <= x < 256

  /** The reply buffer holds at most this many bytes. */
  const ResponseBufferSize: nat := 1024

  const EncodeFailed: string := "JSON encoding failed"
  const ConnectFailed: string := "Failed to connect to root daemon"
  const WriteFailed: string := "Failed to write to socket"
  const ReadFailed: string := "Failed to read from socket"
  const ParseFailed: string := "Failed to parse response"

  /** The entry is a message-typed field, so a request may arrive without one. */
  datatype ApplyACLRequest = ApplyACLRequest(targetPath: string, entry: Option<ACLEntry>)
  datatype ApplyACLResponse = ApplyACLResponse(success: bool, message: string)

  /** The document sent to the daemon, and the one it sends back. */
  datatype AclMessage = AclMessage(action: string, entry: string, path: string)
  datatype DaemonReply = DaemonReply(success: bool, message: string)

  /** JSON marshalling and unmarshalling, left abstract: marshalling may fail,
      unmarshalling fails on bytes that are not a reply document. */
  type Encoder = AclMessage -> Option<seq<byte>>
  type Decoder = seq<byte> -> Option<DaemonReply>

  /** The far end of the socket, fixed in advance: whether it accepts the
      connection, whether the write and the read succeed, the reply it sends,
      and how many bytes one read delivers at most. */
  datatype Peer = Peer(listening: bool, writeOk: bool, readOk: bool, reply: seq<byte>, burst: nat)

  /** What happened on the socket, in order. */
  datatype Op = Dialled(path: string) | Wrote(data: seq<byte>) | ReadInto(capacity: nat) | Closed

  function Min(a: nat, b: nat): nat {
    if a <= b then a else b
  }

  /** The number of reply bytes one successful read into a buffer of the
      given capacity delivers. */
  function Delivered(p: Peer, capacity: nat): (n: nat)
    ensures n <= capacity && n <= |p.reply| && n <= p.burst
    ensures n == capacity || n == |p.reply| || n == p.burst
  {
    Min(Min(|p.reply|, p.burst), capacity)
  }

  /** A unix-socket connection to the daemon. */
  class Channel {
    const peer: Peer
    var connected: bool
    ghost var closed: bool
    ghost var ops: seq<Op>

    constructor (peer: Peer)
      ensures this.peer == peer && !connected && !closed && ops == []
    {
      this.peer := peer;
      connected := false;
      closed := false;
      ops := [];
    }

    method Dial(path: string) returns (ok: bool)
      requires !connected && !closed
      modifies this
      ensures ok == peer.listening && connected == ok && !closed
      ensures ops == old(ops) + [Dialled(path)]
    {
      ok := peer.listening;
      connected := ok;
      ops := ops + [Dialled(path)];
    }

    method Write(data: seq<byte>) returns (ok: bool)
      requires connected && !closed
      modifies this
      ensures ok == peer.writeOk && connected && !closed
      ensures ops == old(ops) + [Wrote(data)]
    {
      ok := peer.writeOk;
      ops := ops + [Wrote(data)];
    }

    /** One read: copies the first bytes of the reply into the front of buf
        and leaves the rest of buf alone. */
    method Read(buf: array<byte>) returns (n: nat, ok: bool)
      requires connected && !closed
      modifies this, buf
      ensures ok == peer.readOk && connected && !closed
      ensures n == if ok then Delivered(peer, buf.Length) else 0
      ensures n <= buf.Length && n <= |peer.reply|
      ensures buf[..n] == peer.reply[..n] && buf[n..] == old(buf[n..])
      ensures ops == old(ops) + [ReadInto(buf.Length)]
    {
      ok := peer.readOk;
      n := if ok then Delivered(peer, buf.Length) else 0;
      var k := 0;
      while k < n
        modifies buf
        invariant 0 <= k <= n
        invariant buf[..k] == peer.reply[..k]
        invariant buf[k..] == old(buf[k..])
      {
        buf[k] := peer.reply[k];
        k := k + 1;
      }
      ops := ops + [ReadInto(buf.Length)];
    }

    method Close()
      requires connected && !closed
      modifies this
      ensures connected && closed
      ensures ops == old(ops) + [Closed]
    {
      closed := true;
      ops := ops + [Closed];
    }
  }

  /** The message forwarded for a request: the action as given, the canonical
      entry text and the target path, none of them checked. */
  function ForwardMessage(targetPath: string, entry: ACLEntry): (m: AclMessage)
    ensures m.action == entry.action && m.path == targetPath
    ensures m.entry == BuildACLEntry(entry)
  {
    AclMessage(entry.action, BuildACLEntry(entry), targetPath)
  }

  /** The bytes handed to the decoder: what one read into the reply buffer
      delivers. */
  function Received(p: Peer): (bytes: seq<byte>)
    ensures |bytes| <= ResponseBufferSize && |bytes| <= |p.reply|
    ensures bytes == p.reply[..|bytes|]
  {
    p.reply[..Delivered(p, ResponseBufferSize)]
  }

  function Failure(message: string): ApplyACLResponse {
    ApplyACLResponse(false, message)
  }

  datatype Outcome = Outcome(response: ApplyACLResponse, ops: seq<Op>)

  /** What one call of ApplyACLEntry answers and does on the socket for a
      request that carries an entry. */
  function Forwarded(targetPath: string, entry: ACLEntry, socketPath: string,
                     encode: Encoder, decode: Decoder, peer: Peer): (o: Outcome)
    // no socket operation at all exactly when marshalling fails
    ensures o.ops == [] <==> encode(ForwardMessage(targetPath, entry)).None?
    // the first operation dials the configured path
    ensures o.ops != [] ==> o.ops[0] == Dialled(socketPath)
    // a dialled connection is closed, last
    ensures Closed in o.ops <==> (encode(ForwardMessage(targetPath, entry)).Some? && peer.listening)
    ensures Closed in o.ops ==> o.ops[|o.ops| - 1] == Closed
    // what is written is the marshalled message
    ensures forall d :: Wrote(d) in o.ops ==> encode(ForwardMessage(targetPath, entry)) == Some(d)
    // at most one read and it asks for the reply buffer's size
    ensures forall c :: ReadInto(c) in o.ops ==> c == ResponseBufferSize && peer.writeOk
    // success is reported only when every stage went through and the daemon said so
    ensures o.response.success ==>
              && peer.listening && peer.writeOk && peer.readOk
              && decode(Received(peer)) == Some(DaemonReply(true, o.response.message))
  {
    match encode(ForwardMessage(targetPath, entry))
    case None => Outcome(Failure(EncodeFailed), [])
    case Some(data) =>
      if !peer.listening then Outcome(Failure(ConnectFailed), [Dialled(socketPath)])
      else if !peer.writeOk then
        Outcome(Failure(WriteFailed), [Dialled(socketPath), Wrote(data), Closed])
      else if !peer.readOk then
        Outcome(Failure(ReadFailed),
                [Dialled(socketPath), Wrote(data), ReadInto(ResponseBufferSize), Closed])
      else
        var ops := [Dialled(socketPath), Wrote(data), ReadInto(ResponseBufferSize), Closed];
        match decode(Received(peer))
        case None => Outcome(Failure(ParseFailed), ops)
        case Some(reply) => Outcome(ApplyACLResponse(reply.success, reply.message), ops)
  }

  /** Marshalling fails: no connection is attempted. */
  lemma EncodeFailureStage(targetPath: string, entry: ACLEntry, socketPath: string,
                           encode: Encoder, decode: Decoder, peer: Peer)
    requires encode(ForwardMessage(targetPath, entry)).None?
    ensures Forwarded(targetPath, entry, socketPath, encode, decode, peer)
         == Outcome(Failure(EncodeFailed), [])
  {
  }

  /** Dialling fails: nothing is written or read, and there is nothing to close. */
  lemma ConnectFailureStage(targetPath: string, entry: ACLEntry, socketPath: string,
                            encode: Encoder, decode: Decoder, peer: Peer)
    requires encode(ForwardMessage(targetPath, entry)).Some? && !peer.listening
    ensures Forwarded(targetPath, entry, socketPath, encode, decode, peer)
         == Outcome(Failure(ConnectFailed), [Dialled(socketPath)])
  {
  }

  /** Writing fails: nothing is read and the connection is closed. */
  lemma WriteFailureStage(targetPath: string, entry: ACLEntry, socketPath: string,
                          encode: Encoder, decode: Decoder, peer: Peer)
    requires encode(ForwardMessage(targetPath, entry)).Some? && peer.listening && !peer.writeOk
    ensures var data := encode(ForwardMessage(targetPath, entry)).value;
            Forwarded(targetPath, entry, socketPath, encode, decode, peer)
              == Outcome(Failure(WriteFailed), [Dialled(socketPath), Wrote(data), Closed])
  {
  }

  /** Reading fails: the decoder is not consulted and the connection is closed. */
  lemma ReadFailureStage(targetPath: string, entry: ACLEntry, socketPath: string,
                         encode: Encoder, decode: Decoder, peer: Peer)
    requires encode(ForwardMessage(targetPath, entry)).Some?
    requires peer.listening && peer.writeOk && !peer.readOk
    ensures var data := encode(ForwardMessage(targetPath, entry)).value;
            Forwarded(targetPath, entry, socketPath, encode, decode, peer)
              == Outcome(Failure(ReadFailed),
                         [Dialled(socketPath), Wrote(data), ReadInto(ResponseBufferSize), Closed])
  {
  }

  /** Every socket stage went through: the answer is the parse failure or the
      daemon's own verdict and message, unchanged. */
  lemma DecodeStage(targetPath: string, entry: ACLEntry, socketPath: string,
                    encode: Encoder, decode: Decoder, peer: Peer)
    requires encode(ForwardMessage(targetPath, entry)).Some?
    requires peer.listening && peer.writeOk && peer.readOk
    ensures var r := Forwarded(targetPath, entry, socketPath, encode, decode, peer).response;
            match decode(Received(peer))
            case None => r == Failure(ParseFailed)
            case Some(reply) => r.success == reply.success && r.message == reply.message
  {
  }

  /** The request succeeds exactly when every stage goes through and the
      daemon reports success. */
  lemma SuccessIff(targetPath: string, entry: ACLEntry, socketPath: string,
                   encode: Encoder, decode: Decoder, peer: Peer)
    ensures Forwarded(targetPath, entry, socketPath, encode, decode, peer).response.success
        <==> (&& encode(ForwardMessage(targetPath, entry)).Some?
              && peer.listening && peer.writeOk && peer.readOk
              && decode(Received(peer)).Some? && decode(Received(peer)).value.success)
  {
  }

  /** A reply that one read delivers whole and that decodes to a verdict comes
      back as that verdict: {success: true, message: "ok"} gives (true, "ok"). */
  lemma ReplyPassesThrough(targetPath: string, entry: ACLEntry, socketPath: string,
                           encode: Encoder, decode: Decoder, peer: Peer, reply: DaemonReply)
    requires encode(ForwardMessage(targetPath, entry)).Some?
    requires peer.listening && peer.writeOk && peer.readOk
    requires |peer.reply| <= ResponseBufferSize && |peer.reply| <= peer.burst
    requires decode(peer.reply) == Some(reply)
    ensures Forwarded(targetPath, entry, socketPath, encode, decode, peer).response
         == ApplyACLResponse(reply.success, reply.message)
  {
    assert Received(peer) == peer.reply;
  }

  /** A reply longer than the buffer is cut before decoding: the decoder sees
      at most its first 1024 bytes, whatever follows them. */
  lemma LongReplyTruncated(p: Peer, q: Peer)
    requires |p.reply| > ResponseBufferSize && |q.reply| > ResponseBufferSize
    requires p.burst == q.burst
    requires p.reply[..ResponseBufferSize] == q.reply[..ResponseBufferSize]
    ensures Received(p) == Received(q)
    ensures |Received(p)| < |p.reply|
  {
  }

  /** Every socket stage goes through: the trace is dial, one write of the
      marshalled message, one read into the reply buffer and the deferred
      close, whatever the decoder makes of the reply. */
  lemma AllStagesTrace(targetPath: string, entry: ACLEntry, socketPath: string,
                       encode: Encoder, decode: Decoder, peer: Peer)
    requires encode(ForwardMessage(targetPath, entry)).Some?
    requires peer.listening && peer.writeOk && peer.readOk
    ensures var data := encode(ForwardMessage(targetPath, entry)).value;
            Forwarded(targetPath, entry, socketPath, encode, decode, peer).ops
              == [Dialled(socketPath), Wrote(data), ReadInto(ResponseBufferSize), Closed]
  {
  }

  /** How a call of the handler ends: it returns a response and an RPC error,
      or it panics with a nil pointer dereference. */
  datatype Answer = Returned(response: ApplyACLResponse, err: Option<Error>) | Panicked

  datatype Handling = Handling(answer: Answer, ops: seq<Op>)

  /** What one call of ApplyACLEntry does for any request. Building the
      message reads the entry's fields first, before any socket stage. */
  function Handled(req: ApplyACLRequest, socketPath: string, encode: Encoder,
                   decode: Decoder, peer: Peer): (h: Handling)
    // a missing entry panics, and only a missing entry does
    ensures h.answer.Panicked? <==> req.entry.None?
    // a call that returns never reports an RPC error
    ensures h.answer.Returned? ==> h.answer.err == None
    ensures req.entry.Some? ==>
              var o := Forwarded(req.targetPath, req.entry.value, socketPath, encode, decode, peer);
              h.answer.response == o.response && h.ops == o.ops
  {
    match req.entry
    case None => Handling(Panicked, [])
    case Some(entry) =>
      var o := Forwarded(req.targetPath, entry, socketPath, encode, decode, peer);
      Handling(Returned(o.response, None), o.ops)
  }

  /** A request without an entry panics before the socket is touched,
      whatever the encoder, decoder and daemon would have done. */
  lemma NilEntryPanics(req: ApplyACLRequest, socketPath: string, encode: Encoder,
                       decode: Decoder, peer: Peer)
    requires req.entry.None?
    ensures Handled(req, socketPath, encode, decode, peer) == Handling(Panicked, [])
  {
  }

  /** The handler. A request with an entry is answered with a response and no
      RPC error on every path; a request without one panics. */
  method ApplyACLEntry(cfg: DaemonConfig.DConfig, req: ApplyACLRequest, encode: Encoder,
                       decode: Decoder, conn: Channel)
    returns (answer: Answer)
    requires !conn.connected && !conn.closed
    modifies conn
    ensures var h := Handled(req, cfg.socketPath, encode, decode, conn.peer);
            answer == h.answer && conn.ops == old(conn.ops) + h.ops
    ensures conn.closed == conn.connected
  {
    var socketPath := cfg.socketPath;
    if req.entry.None? {
      return Panicked;
    }
    var aclmsg := AclMessage(req.entry.value.action, BuildACLEntry(req.entry.value), req.targetPath);

    var acldata := encode(aclmsg);
    if acldata.None? {
      return Returned(Failure(EncodeFailed), None);
    }

    var ok := conn.Dial(socketPath);
    if !ok {
      return Returned(Failure(ConnectFailed), None);
    }

    ok := conn.Write(acldata.value);
    if !ok {
      conn.Close();
      return Returned(Failure(WriteFailed), None);
    }

    var respBuf := new byte[ResponseBufferSize];
    var n, readOk := conn.Read(respBuf);
    if !readOk {
      conn.Close();
      return Returned(Failure(ReadFailed), None);
    }

    var response := decode(respBuf[..n]);
    conn.Close();
    if response.None? {
      return Returned(Failure(ParseFailed), None);
    }
    return Returned(ApplyACLResponse(response.value.success, response.value.message), None);
  }
}
