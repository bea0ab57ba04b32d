/**
 * The client side of the binary handshake protocol (client/src/lib/net.py): a
 * connection sends the 12-byte protocol signature followed by its 4-byte connection id,
 * validates the server's answer, and re-runs that handshake whenever a send or receive
 * fails on the transport. The transport is an oracle: each connection attempt and each
 * try of an operation comes with its outcome.
 */
module ServerConn {
  import opened Wrappers

  type byte = x: int | 0 <= x < 256
  type Bytes = seq<byte>

  /** `_conn_id`: the four random bytes chosen once per connection object. */
  type ConnId = s: Bytes | |s| == 4 witness [0, 0, 0, 0]

  /** `_PROTOCOL_SIGNATURE`, the ASCII bytes of "guessthesong". */
  const Signature: Bytes := [103, 117, 101, 115, 115, 116, 104, 101, 115, 111, 110, 103]

  /** A websocket message: text frames arrive as strings, binary frames as bytes. */
  datatype Message = Text(text: string) | Binary(data: Bytes)

  /** The four `ConnectionError`s `_connect` raises, in the order it checks for them. */
  datatype ConnectionError =
    | InitFailed      // a transport exception while connecting, sending or receiving
    | TextHandshake   // "Server handshake should be binary, received text instead"
    | InvalidResponse // "Invalid server handshake response"
    | IdMismatch      // "Connection ID returned from server does not match sent client ID"

  /** The frame `_connect` sends: the signature, then the connection id. */
  function HandshakeFrame(id: ConnId): (frame: Bytes)
    ensures |frame| == 16
    ensures frame[..12] == Signature && frame[12..] == id
  {
    Signature + id
  }

  /** The id a server reads back out of a handshake frame. */
  function FrameId(frame: Bytes): Option<ConnId> {
    if |frame| == 16 && frame[..12] == Signature then Some(frame[12..]) else None
  }

  /** A handshake frame carries exactly its id, and frames of different ids differ. */
  lemma FrameIdOfHandshake(id: ConnId, other: ConnId)
    ensures FrameId(HandshakeFrame(id)) == Some(id)
    ensures HandshakeFrame(id) == HandshakeFrame(other) <==> id == other
  {
    if HandshakeFrame(id) == HandshakeFrame(other) {
      assert id == HandshakeFrame(id)[12..];
    }
  }

  /**
   * The response checks of `_connect`, in order, with the bytes `response[0:4]` is
   * compared with as a parameter: text is refused first, then a wrong length or prefix,
   * then a wrong id.
   */
  function CheckResponseAgainst(prefix: Bytes, id: ConnId, response: Message): (r: Option<ConnectionError>)
    ensures response.Text? <==> r == Some(TextHandshake)
    ensures r.None? <==> response.Binary? && |response.data| == 8 && response.data[..4] == prefix && response.data[4..] == id
    ensures r == Some(IdMismatch) <==> response.Binary? && |response.data| == 8 && response.data[..4] == prefix && response.data[4..] != id
    ensures r != Some(InitFailed)
  {
    if response.Text? then Some(TextHandshake)
    else if |response.data| != 8 || response.data[0..4] != prefix then Some(InvalidResponse)
    else
      assert response.data[4..] == response.data[4..8];
      if response.data[4..8] != id then Some(IdMismatch) else None
  }

  /**
   * The checks as written: the four-byte slice `response[0:4]` is compared with the
   * whole twelve-byte signature.
   */
  function CheckResponseAsWritten(id: ConnId, response: Message): (r: Option<ConnectionError>)
    ensures response.Text? ==> r == Some(TextHandshake)
    ensures response.Binary? ==> r == Some(InvalidResponse)
  {
    var r := CheckResponseAgainst(Signature, id, response);
    if response.Binary? && |response.data| == 8 then
      assert |response.data[..4]| == 4 != |Signature|;
      r
    else r
  }

  /** The eight-byte answer the checks are laid out for: a four-byte prefix, then the id. */
  function Echo(id: ConnId): (m: Message)
    ensures m.Binary? && |m.data| == 8 && m.data[..4] == Signature[..4] && m.data[4..] == id
  {
    Binary(Signature[..4] + id)
  }

  /** Even the answer a server built for this id is refused. */
  lemma AsWrittenRefusesEcho(id: ConnId)
    ensures CheckResponseAsWritten(id, Echo(id)) == Some(InvalidResponse)
  {
  }

  /**
   * The checks with the prefix compared against the signature's first four bytes, as the
   * eight-byte length and the `[4:8]` id slice call for: exactly the echo of this id passes.
   */
  function CheckResponse(id: ConnId, response: Message): (r: Option<ConnectionError>)
    ensures r.None? <==> response == Echo(id)
    ensures response.Text? <==> r == Some(TextHandshake)
    ensures r != Some(InitFailed)
  {
    var r := CheckResponseAgainst(Signature[..4], id, response);
    if r.None? then
      assert response.data == response.data[..4] + response.data[4..];
      r
    else r
  }

  /** An echo of another connection's id is refused as a mismatch, not as garbage. */
  lemma EchoOfOtherId(id: ConnId, other: ConnId)
    requires id != other
    ensures CheckResponse(id, Echo(other)) == Some(IdMismatch)
  {
  }

  /** An open transport connection. */
  type Handle = nat

  /** What the transport does with one `_connect`: refuse, fail while sending or receiving the handshake, or answer it. */
  datatype ConnectAttempt =
    | ConnectRefused
    | SendFailed(handle: Handle)
    | RecvFailed(handle: Handle)
    | Answered(handle: Handle, response: Message)

  /** What went out on the wire, and on which connection. */
  datatype Sent = Handshake(on: Handle, frame: Bytes) | Payload(on: Handle, msg: Message) | CloseFrame(on: Handle)

  /** The connection field `_conn` and everything sent so far. */
  datatype Wire = Wire(conn: Option<Handle>, sent: seq<Sent>)

  /** Every handshake sent carries this connection's id. */
  predicate HandshakesCarry(sent: seq<Sent>, id: ConnId) {
    forall k | 0 <= k < |sent| && sent[k].Handshake? :: sent[k].frame == HandshakeFrame(id)
  }

  lemma HandshakesCarryAppend(a: seq<Sent>, b: seq<Sent>, id: ConnId)
    requires HandshakesCarry(a, id) && HandshakesCarry(b, id)
    ensures HandshakesCarry(a + b, id)
  {
    forall k | 0 <= k < |a + b| && (a + b)[k].Handshake? ensures (a + b)[k].frame == HandshakeFrame(id) {
      if k >= |a| {
        assert (a + b)[k] == b[k - |a|];
      }
    }
  }

  lemma HandshakesCarryOne(a: seq<Sent>, s: Sent, id: ConnId)
    requires s.Handshake? ==> s.frame == HandshakeFrame(id)
    ensures HandshakesCarry(a, id) ==> HandshakesCarry(a + [s], id)
  {
    if HandshakesCarry(a, id) {
      HandshakesCarryAppend(a, [s], id);
    }
  }

  /**
   * `_connect`, with the bytes `response[0:4]` is compared with as a parameter: `_conn` is
   * replaced as soon as the transport connects, before the handshake is sent; the
   * handshake is checked only once it was answered.
   */
  function ConnectStep(prefix: Bytes, w: Wire, id: ConnId, a: ConnectAttempt): (r: (Wire, Option<ConnectionError>))
    ensures a.ConnectRefused? ==> r.0 == w
    ensures !a.ConnectRefused? ==> r.0.conn == Some(a.handle)
    ensures r.1.None? <==> a.Answered? && CheckResponseAgainst(prefix, id, a.response).None?
    ensures !a.Answered? ==> r.1 == Some(InitFailed)
    ensures a.Answered? ==> r.1 == CheckResponseAgainst(prefix, id, a.response)
    ensures (a.RecvFailed? || a.Answered?) ==> r.0.sent == w.sent + [Handshake(a.handle, HandshakeFrame(id))]
    ensures (a.ConnectRefused? || a.SendFailed?) ==> r.0.sent == w.sent
    ensures HandshakesCarry(w.sent, id) ==> HandshakesCarry(r.0.sent, id)
  {
    match a
    case ConnectRefused => (w, Some(InitFailed))
    case SendFailed(h) => (w.(conn := Some(h)), Some(InitFailed))
    case RecvFailed(h) =>
      HandshakesCarryOne(w.sent, Handshake(h, HandshakeFrame(id)), id);
      (Wire(Some(h), w.sent + [Handshake(h, HandshakeFrame(id))]), Some(InitFailed))
    case Answered(h, response) =>
      HandshakesCarryOne(w.sent, Handshake(h, HandshakeFrame(id)), id);
      (Wire(Some(h), w.sent + [Handshake(h, HandshakeFrame(id))]), CheckResponseAgainst(prefix, id, response))
  }

  /** With the corrected prefix, a connection succeeds exactly when the answer is the echo of its id. */
  lemma ConnectCorrected(w: Wire, id: ConnId, a: ConnectAttempt)
    ensures ConnectStep(Signature[..4], w, id, a).1.None? <==> a.Answered? && a.response == Echo(id)
  {
    if a.Answered? {
      assert CheckResponseAgainst(Signature[..4], id, a.response).None? <==> CheckResponse(id, a.response).None?;
    }
  }

  /** As written, no connection succeeds: every attempt raises. */
  lemma ConnectAsWrittenFails(w: Wire, id: ConnId, a: ConnectAttempt)
    ensures ConnectStep(Signature, w, id, a).1.Some?
  {
    if a.Answered? {
      assert CheckResponseAgainst(Signature, id, a.response) == CheckResponseAsWritten(id, a.response);
    }
  }

  /** A reconnection whose answer passes the checks. */
  predicate Reconnects(prefix: Bytes, a: ConnectAttempt, id: ConnId) {
    a.Answered? && CheckResponseAgainst(prefix, id, a.response).None?
  }

  /** The `ConnectionError` a reconnection raises, if any: a transport failure, or the first check the answer fails. */
  function AttemptError(prefix: Bytes, id: ConnId, a: ConnectAttempt): Option<ConnectionError> {
    if a.Answered? then CheckResponseAgainst(prefix, id, a.response) else Some(InitFailed)
  }

  /** The operation `_reconnect_wrapper` retries. */
  datatype Op = SendOp(msg: Message) | RecvOp

  /** One try of the operation, and the reconnection that follows if the try hits a transport exception. */
  datatype Try = Try(done: bool, reconnect: ConnectAttempt)

  /** How a wrapped operation ends. */
  datatype WrapperOutcome =
    | Returned                       // the operation went through; `recv`'s message is dropped here
    | Failed(error: ConnectionError) // a reconnection raised, ending the loop
    | NotConnected                   // `_conn` was None: "Not connected"
    | StillRetrying                  // the tries ran out while the loop would go on

  /** The effect of the operation going through on the current connection. */
  function Perform(w: Wire, op: Op): (r: Wire)
    requires w.conn.Some?
    ensures r.conn == w.conn
    ensures r.sent == if op.SendOp? then w.sent + [Payload(w.conn.value, op.msg)] else w.sent
  {
    match op
    case SendOp(msg) => w.(sent := w.sent + [Payload(w.conn.value, msg)])
    case RecvOp => w
  }

  /** Every try up to `n` failed and was followed by a successful reconnection. */
  predicate RetriedUpTo(prefix: Bytes, tries: seq<Try>, id: ConnId, n: nat)
    requires n <= |tries|
  {
    forall j | 0 <= j < n :: !tries[j].done && Reconnects(prefix, tries[j].reconnect, id)
  }

  /** Try `k` is the first that fails to reconnect: every earlier try failed and reconnected. */
  predicate FailsAt(prefix: Bytes, tries: seq<Try>, id: ConnId, k: nat)
    requires k < |tries|
  {
    !tries[k].done && RetriedUpTo(prefix, tries, id, k) && !Reconnects(prefix, tries[k].reconnect, id)
  }

  /** Everything `after` adds to `before` is a handshake. */
  predicate OnlyHandshakesAfter(before: seq<Sent>, after: seq<Sent>) {
    forall k | |before| <= k < |after| :: after[k].Handshake?
  }

  /** `after` extends `before` with handshakes and then, if there is one, the final entry `last`. */
  predicate SentAfter(before: seq<Sent>, after: seq<Sent>, last: Option<Sent>) {
    match last
    case None => |before| <= |after| && after[..|before|] == before && OnlyHandshakesAfter(before, after)
    case Some(x) =>
      && |before| < |after| && after[..|before|] == before && after[|after| - 1] == x
      && OnlyHandshakesAfter(before, after[..|after| - 1])
  }

  lemma SentAfterChain(a: seq<Sent>, b: seq<Sent>, c: seq<Sent>, last: Option<Sent>)
    requires SentAfter(a, b, None) && SentAfter(b, c, last)
    ensures SentAfter(a, c, last)
  {
    var n := if last.Some? then |c| - 1 else |c|;
    assert c[..|a|] == c[..|b|][..|a|];
    forall k | |a| <= k < n ensures c[..n][k].Handshake? {
      if k < |b| {
        assert c[..n][k] == c[..|b|][k];
      }
    }
    if last.None? {
      assert c[..n] == c;
    }
  }

  /**
   * The `while True` of `_reconnect_wrapper` over a finite run of tries: no retry bound,
   * no backoff; a failed reconnection escapes.
   */
  function Retry(prefix: Bytes, w: Wire, id: ConnId, op: Op, tries: seq<Try>): (r: (WrapperOutcome, Wire))
    requires w.conn.Some?
    ensures r.0 != NotConnected && r.1.conn.Some?
    ensures r.0 == StillRetrying <==> RetriedUpTo(prefix, tries, id, |tries|)
    ensures r.0 == Returned <==> exists k | 0 <= k < |tries| :: tries[k].done && RetriedUpTo(prefix, tries, id, k)
    ensures HandshakesCarry(w.sent, id) ==> HandshakesCarry(r.1.sent, id)
    ensures |w.sent| <= |r.1.sent| && r.1.sent[..|w.sent|] == w.sent
    decreases |tries|
  {
    if tries == [] then (StillRetrying, w)
    else if tries[0].done then
      assert RetriedUpTo(prefix, tries, id, 0);
      if op.SendOp? then
        HandshakesCarryOne(w.sent, Payload(w.conn.value, op.msg), id);
        (Returned, Perform(w, op))
      else
        (Returned, Perform(w, op))
    else
      var (w', err) := ConnectStep(prefix, w, id, tries[0].reconnect);
      if err.Some? then
        (Failed(err.value), w')
      else
        var r := Retry(prefix, w', id, op, tries[1..]);
        RetriedShift(prefix, tries, id);
        assert r.1.sent[..|w.sent|] == r.1.sent[..|w'.sent|][..|w.sent|];
        r
  }

  /** Tries after a failed first try that reconnected: the indices shift by one. */
  lemma RetriedShift(prefix: Bytes, tries: seq<Try>, id: ConnId)
    requires tries != [] && !tries[0].done && Reconnects(prefix, tries[0].reconnect, id)
    ensures forall n | 0 <= n < |tries| :: RetriedUpTo(prefix, tries[1..], id, n) <==> RetriedUpTo(prefix, tries, id, n + 1)
    ensures forall n | 0 <= n < |tries| - 1 :: tries[1..][n].done == tries[n + 1].done
  {
    forall n | 0 <= n < |tries| ensures RetriedUpTo(prefix, tries[1..], id, n) <==> RetriedUpTo(prefix, tries, id, n + 1) {
      if RetriedUpTo(prefix, tries[1..], id, n) {
        forall j | 0 <= j < n + 1 ensures !tries[j].done && Reconnects(prefix, tries[j].reconnect, id) {
          if j > 0 {
            assert tries[j] == tries[1..][j - 1];
          }
        }
      }
      if RetriedUpTo(prefix, tries, id, n + 1) {
        forall j | 0 <= j < n ensures !tries[1..][j].done && Reconnects(prefix, tries[1..][j].reconnect, id) {
          assert tries[1..][j] == tries[j + 1];
        }
      }
    }
  }

  /**
   * What a wrapped operation puts on the wire: the handshakes of its reconnections, then,
   * when a send goes through, its payload on the connection it ends on. A receive adds
   * nothing but handshakes.
   */
  lemma {:induction false} RetryWire(prefix: Bytes, w: Wire, id: ConnId, op: Op, tries: seq<Try>)
    requires w.conn.Some?
    decreases |tries|
    ensures var r := Retry(prefix, w, id, op, tries);
      SentAfter(w.sent, r.1.sent, if r.0 == Returned && op.SendOp? then Some(Payload(r.1.conn.value, op.msg)) else None)
  {
    if tries != [] {
      if tries[0].done {
        RetryDone(prefix, w, id, op, tries);
        assert Perform(w, op).sent[..|w.sent|] == w.sent;
      } else {
        var w' := ConnectStep(prefix, w, id, tries[0].reconnect).0;
        assert SentAfter(w.sent, w'.sent, None);
        if Reconnects(prefix, tries[0].reconnect, id) {
          RetryReconnected(prefix, w, id, op, tries);
          RetryWire(prefix, w', id, op, tries[1..]);
          var r := Retry(prefix, w', id, op, tries[1..]);
          SentAfterChain(w.sent, w'.sent, r.1.sent, if r.0 == Returned && op.SendOp? then Some(Payload(r.1.conn.value, op.msg)) else None);
        }
      }
    }
  }

  /**
   * A wrapped operation fails exactly when some reconnection fails before any try goes
   * through, and then it raises that reconnection's own error.
   */
  lemma {:induction false} RetryFailure(prefix: Bytes, w: Wire, id: ConnId, op: Op, tries: seq<Try>)
    requires w.conn.Some?
    decreases |tries|
    ensures Retry(prefix, w, id, op, tries).0.Failed? <==> exists k | 0 <= k < |tries| :: FailsAt(prefix, tries, id, k)
    ensures forall k | 0 <= k < |tries| && FailsAt(prefix, tries, id, k) ::
              Retry(prefix, w, id, op, tries).0 == Failed(AttemptError(prefix, id, tries[k].reconnect).value)
  {
    if tries != [] {
      if tries[0].done {
        RetryDone(prefix, w, id, op, tries);
        forall k | 0 <= k < |tries| ensures !FailsAt(prefix, tries, id, k) {
          assert tries[0].done;
        }
      } else if !Reconnects(prefix, tries[0].reconnect, id) {
        assert FailsAt(prefix, tries, id, 0);
        forall k | 0 < k < |tries| ensures !FailsAt(prefix, tries, id, k) {
          assert !Reconnects(prefix, tries[0].reconnect, id);
        }
      } else {
        var w' := ConnectStep(prefix, w, id, tries[0].reconnect).0;
        RetryReconnected(prefix, w, id, op, tries);
        RetryFailure(prefix, w', id, op, tries[1..]);
        RetriedShift(prefix, tries, id);
        assert !FailsAt(prefix, tries, id, 0);
        forall k | 0 < k < |tries| ensures FailsAt(prefix, tries, id, k) <==> FailsAt(prefix, tries[1..], id, k - 1) {
          assert tries[k] == tries[1..][k - 1];
        }
        if Retry(prefix, w, id, op, tries).0.Failed? {
          var k :| 0 <= k < |tries[1..]| && FailsAt(prefix, tries[1..], id, k);
          assert FailsAt(prefix, tries, id, k + 1);
        }
      }
    }
  }

  /**
   * As written the loop never retries: an operation that fails once escapes with the
   * reconnection's error, since no reconnection succeeds.
   */
  lemma RetryAsWritten(w: Wire, id: ConnId, op: Op, tries: seq<Try>)
    requires w.conn.Some? && tries != []
    ensures Retry(Signature, w, id, op, tries).0 == Returned <==> tries[0].done
    ensures !tries[0].done ==> Retry(Signature, w, id, op, tries).0.Failed?
  {
    ConnectAsWrittenFails(w, id, tries[0].reconnect);
  }

  /** A try that goes through ends the loop with the operation's effect. */
  lemma RetryDone(prefix: Bytes, w: Wire, id: ConnId, op: Op, tries: seq<Try>)
    requires w.conn.Some? && tries != [] && tries[0].done
    ensures Retry(prefix, w, id, op, tries) == (Returned, Perform(w, op))
  {
  }

  /** A try that fails and reconnects goes on from the new connection with the remaining tries. */
  lemma RetryReconnected(prefix: Bytes, w: Wire, id: ConnId, op: Op, tries: seq<Try>)
    requires w.conn.Some? && tries != [] && !tries[0].done && Reconnects(prefix, tries[0].reconnect, id)
    ensures ConnectStep(prefix, w, id, tries[0].reconnect).0.conn.Some?
    ensures Retry(prefix, w, id, op, tries) == Retry(prefix, ConnectStep(prefix, w, id, tries[0].reconnect).0, id, op, tries[1..])
  {
  }

  /** A send that fails once, reconnects, and then goes through: a new handshake, then the payload, both on the new connection. */
  lemma RetryAfterReconnect(w: Wire, id: ConnId, msg: Message, h: Handle, next: ConnectAttempt)
    requires w.conn.Some?
    ensures Retry(Signature[..4], w, id, SendOp(msg), [Try(false, Answered(h, Echo(id))), Try(true, next)])
            == (Returned, Wire(Some(h), w.sent + [Handshake(h, HandshakeFrame(id)), Payload(h, msg)]))
  {
    var tries := [Try(false, Answered(h, Echo(id))), Try(true, next)];
    var w' := Wire(Some(h), w.sent + [Handshake(h, HandshakeFrame(id))]);
    assert Reconnects(Signature[..4], tries[0].reconnect, id) && ConnectStep(Signature[..4], w, id, tries[0].reconnect).0 == w' by {
      ConnectCorrected(w, id, tries[0].reconnect);
    }
    RetryReconnected(Signature[..4], w, id, SendOp(msg), tries);
    assert tries[1..] == [Try(true, next)];
    RetryDone(Signature[..4], w', id, SendOp(msg), tries[1..]);
    assert w.sent + [Handshake(h, HandshakeFrame(id))] + [Payload(h, msg)] == w.sent + [Handshake(h, HandshakeFrame(id)), Payload(h, msg)];
  }

  /** `ServerConnection`. */
  class ServerConnection {
    const serverUrl: string
    /** Chosen once, here, and reused by every reconnection. */
    const connId: ConnId
    var conn: Option<Handle>
    var sent: seq<Sent>

    ghost predicate Valid()
      reads this
    {
      HandshakesCarry(sent, connId)
    }

    /** `__init__`: the id comes from `secrets.token_bytes(4)`, passed in here. */
    constructor (serverUrl: string, id: ConnId)
      ensures this.serverUrl == serverUrl && connId == id
      ensures conn == None && sent == []
      ensures Valid()
    {
      this.serverUrl := serverUrl;
      connId := id;
      conn := None;
      sent := [];
    }

    /** `_connect`. */
    method Connect(a: ConnectAttempt) returns (err: Option<ConnectionError>)
      requires Valid()
      modifies this
      ensures (Wire(conn, sent), err) == ConnectStep(Signature[..4], old(Wire(conn, sent)), connId, a)
      ensures Valid()
    {
      match a {
        case ConnectRefused =>
          return Some(InitFailed);
        case SendFailed(h) =>
          conn := Some(h);
          return Some(InitFailed);
        case RecvFailed(h) =>
          conn := Some(h);
          sent := sent + [Handshake(h, HandshakeFrame(connId))];
          HandshakesCarryAppend(old(sent), [Handshake(h, HandshakeFrame(connId))], connId);
          return Some(InitFailed);
        case Answered(h, response) =>
          conn := Some(h);
          sent := sent + [Handshake(h, HandshakeFrame(connId))];
          HandshakesCarryAppend(old(sent), [Handshake(h, HandshakeFrame(connId))], connId);
          if response.Text? {
            return Some(TextHandshake);
          }
          if |response.data| != 8 || response.data[0..4] != Signature[..4] {
            return Some(InvalidResponse);
          }
          if response.data[4..8] != connId {
            return Some(IdMismatch);
          }
          return None;
      }
    }

    /** `_reconnect_wrapper`: refuses to start without a connection, then retries `op` until it goes through. */
    method ReconnectWrapper(op: Op, tries: seq<Try>) returns (outcome: WrapperOutcome)
      requires Valid()
      modifies this
      ensures old(conn).None? ==> outcome == NotConnected && conn == old(conn) && sent == old(sent)
      ensures old(conn).Some? ==> (outcome, Wire(conn, sent)) == Retry(Signature[..4], old(Wire(conn, sent)), connId, op, tries)
      ensures Valid()
    {
      if conn.None? {
        return NotConnected;
      }
      var k := 0;
      while k < |tries|
        invariant k <= |tries| && conn.Some? && Valid()
        invariant Retry(Signature[..4], old(Wire(conn, sent)), connId, op, tries) == Retry(Signature[..4], Wire(conn, sent), connId, op, tries[k..])
      {
        assert tries[k..][0] == tries[k] && tries[k..][1..] == tries[k + 1..];
        if tries[k].done {
          match op {
            case SendOp(msg) =>
              HandshakesCarryAppend(sent, [Payload(conn.value, msg)], connId);
              sent := sent + [Payload(conn.value, msg)];
            case RecvOp =>
          }
          return Returned;
        }
        var err := Connect(tries[k].reconnect);
        if err.Some? {
          return Failed(err.value);
        }
        k := k + 1;
      }
      assert tries[k..] == [];
      return StillRetrying;
    }

    /** `send`. */
    method Send(msg: Message, tries: seq<Try>) returns (outcome: WrapperOutcome)
      requires Valid()
      modifies this
      ensures old(conn).None? ==> outcome == NotConnected && sent == old(sent)
      ensures old(conn).Some? ==> (outcome, Wire(conn, sent)) == Retry(Signature[..4], old(Wire(conn, sent)), connId, SendOp(msg), tries)
      ensures Valid()
    {
      outcome := ReconnectWrapper(SendOp(msg), tries);
    }

    /** `recv`: the message received is not handed back; the caller gets only the outcome. */
    method Recv(tries: seq<Try>) returns (outcome: WrapperOutcome)
      requires Valid()
      modifies this
      ensures old(conn).None? ==> outcome == NotConnected && sent == old(sent)
      ensures old(conn).Some? ==> (outcome, Wire(conn, sent)) == Retry(Signature[..4], old(Wire(conn, sent)), connId, RecvOp, tries)
      ensures Valid()
    {
      outcome := ReconnectWrapper(RecvOp, tries);
    }

    /**
     * `close`: refused only while `_conn` is None, and it never resets `_conn`. Closing a
     * connection that is already closed sends no second close frame.
     */
    method Close() returns (ok: bool)
      requires Valid()
      modifies this
      ensures ok <==> old(conn).Some?
      ensures conn == old(conn)
      ensures sent == if ok && CloseFrame(conn.value) !in old(sent) then old(sent) + [CloseFrame(conn.value)] else old(sent)
      ensures Valid()
    {
      if conn.None? {
        return false;
      }
      if CloseFrame(conn.value) !in sent {
        sent := sent + [CloseFrame(conn.value)];
        HandshakesCarryAppend(old(sent), [CloseFrame(conn.value)], connId);
      }
      return true;
    }
  }

  /** A second `close` goes through as well, since the first one left `_conn` set; only one close frame is sent. */
  method CloseTwice(c: ServerConnection) returns (first: bool, second: bool)
    requires c.Valid() && c.conn.Some?
    modifies c
    ensures first && second
    ensures c.conn == old(c.conn)
    ensures c.sent == if CloseFrame(old(c.conn).value) in old(c.sent) then old(c.sent) else old(c.sent) + [CloseFrame(old(c.conn).value)]
  {
    first := c.Close();
    second := c.Close();
  }
}
