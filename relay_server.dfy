/**
 * The relay server (server/src/index.js): connections identify themselves with a
 * signature as their first message; a sender's message is broadcast to every receiver;
 * once every receiver has confirmed the song, all of them are told to start playback.
 * Handlers run one at a time on Node's single thread, so each is one state transition.
 * Sockets are ids; what the server sends or closes is appended to an outbox.
 */
module Relay {
  import opened Wrappers

  /** The strings of `CONFIG.messages` the server uses. */
  datatype Config = Config(
    receiverSignature: string,
    senderSignature: string,
    managerSignature: string,
    restartServer: string,
    triggerPlayback: string,
    requestConfirmation: string,
    requestError: string,
    songReceived: string)

  /** A websocket message: text frames arrive as strings, binary frames (a song) as buffers. */
  datatype Payload = Text(text: string) | Binary(data: seq<int>)

  type SocketId = nat

  /** What the server does to a socket: send it a message, or close it. */
  datatype Outgoing = Deliver(to: SocketId, payload: Payload) | Disconnect(to: SocketId)

  /** No socket appears twice: `receivers` is a `Set`, kept here in its iteration (insertion) order. */
  predicate Distinct(rs: seq<SocketId>) {
    forall i, j | 0 <= i < j < |rs| :: rs[i] != rs[j]
  }

  /** `Set.prototype.add`: appends unless already present. */
  function Add(rs: seq<SocketId>, ws: SocketId): (r: seq<SocketId>)
    ensures forall x :: x in r <==> x in rs || x == ws
    ensures Distinct(rs) ==> Distinct(r)
  {
    if ws in rs then rs else rs + [ws]
  }

  /** `Set.prototype.delete`: drops the socket, keeping the order of the rest. */
  function Remove(rs: seq<SocketId>, ws: SocketId): (r: seq<SocketId>)
    ensures forall x :: x in r <==> x in rs && x != ws
    ensures |r| <= |rs|
    ensures Distinct(rs) ==> Distinct(r)
    ensures Distinct(rs) && ws in rs ==> |r| == |rs| - 1
    ensures ws !in rs ==> r == rs
  {
    if rs == [] then []
    else
      var rest := Remove(rs[1..], ws);
      assert forall x :: x in rs <==> x == rs[0] || x in rs[1..];
      if rs[0] == ws then
        rest
      else
        assert Distinct(rs) ==> rs[0] !in rest;
        assert Distinct(rs) ==> Distinct(rs[1..]) by {
          if Distinct(rs) {
            forall i, j | 0 <= i < j < |rs[1..]| ensures rs[1..][i] != rs[1..][j] {
              assert rs[1..][i] == rs[i + 1] && rs[1..][j] == rs[j + 1];
            }
          }
        }
        [rs[0]] + rest
  }

  /** The tail of a distinct sequence is distinct and does not hold its head. */
  lemma DistinctTail(rs: seq<SocketId>)
    requires Distinct(rs) && rs != []
    ensures Distinct(rs[1..]) && rs[0] !in rs[1..]
  {
    forall a, b | 0 <= a < b < |rs[1..]| ensures rs[1..][a] != rs[1..][b] {
      assert rs[1..][a] == rs[a + 1] && rs[1..][b] == rs[b + 1];
    }
    forall j | 0 <= j < |rs[1..]| ensures rs[1..][j] != rs[0] {
      assert rs[1..][j] == rs[j + 1];
    }
  }

  /** Deleting a member of a distinct sequence cuts it out at its place: the others keep their order. */
  lemma {:induction false} RemoveKeepsOrder(rs: seq<SocketId>, ws: SocketId, i: nat)
    requires Distinct(rs) && i < |rs| && rs[i] == ws
    ensures Remove(rs, ws) == rs[..i] + rs[i + 1..]
  {
    var rest := rs[1..];
    DistinctTail(rs);
    if i == 0 {
      assert Remove(rs, ws) == Remove(rest, ws) == rest;
    } else {
      assert rs[0] != ws && rest[i - 1] == ws;
      RemoveKeepsOrder(rest, ws, i - 1);
      assert Remove(rs, ws) == [rs[0]] + Remove(rest, ws);
      assert rs[..i] == [rs[0]] + rest[..i - 1];
      assert rs[i + 1..] == rest[i..];
    }
  }

  /** `for (const rec of receivers) rec.send(p)`: one message per receiver, in set order. */
  function SendToAll(rs: seq<SocketId>, p: Payload): (out: seq<Outgoing>)
    ensures |out| == |rs|
    ensures forall k | 0 <= k < |rs| :: out[k] == Deliver(rs[k], p)
  {
    if rs == [] then [] else SendToAll(rs[..|rs| - 1], p) + [Deliver(rs[|rs| - 1], p)]
  }

  lemma SendToAllStep(rs: seq<SocketId>, p: Payload, i: nat)
    requires i < |rs|
    ensures SendToAll(rs[..i + 1], p) == SendToAll(rs[..i], p) + [Deliver(rs[i], p)]
  {
    assert rs[..i + 1][..i] == rs[..i];
  }

  /** JavaScript's `x++` on `null` or a number: `null` counts as 0. */
  function PlusPlus(count: Option<int>): (r: int)
    ensures count.None? ==> r == 1
    ensures count.Some? ==> r == count.value + 1
  {
    match count
    case None => 1
    case Some(n) => n + 1
  }

  /** The server's state: the module-level variables, the per-connection flags, the open connections and the outbox. */
  datatype ServerState = ServerState(
    receivers: seq<SocketId>,
    count: Option<int>,                // `confirmationCount`; None is `null`, no playback pending
    clientCount: int,
    identified: map<SocketId, bool>,   // `already_identified` of every connection made
    clients: set<SocketId>,            // the connections not closed yet
    outbox: seq<Outgoing>,
    halted: bool)                      // `process.exit(0)` was called

  const Initial: ServerState := ServerState([], None, 0, map[], {}, [], false)

  /** What the handlers keep true. */
  predicate Valid(s: ServerState) {
    && s.clientCount == |s.clients|
    && s.clients <= s.identified.Keys
    && Distinct(s.receivers)
    && (forall r | r in s.receivers :: r in s.clients && s.identified[r])
    && (s.count.Some? ==> s.count.value >= 0)
  }

  /** `triggerReceiverPlayback`: every receiver is told to play, and nothing is pending any more. */
  function Trigger(cfg: Config, s: ServerState): (r: ServerState)
    ensures r.count.None? && r.receivers == s.receivers && r.clients == s.clients && r.identified == s.identified
    ensures r.outbox == s.outbox + SendToAll(s.receivers, Text(cfg.triggerPlayback))
  {
    s.(outbox := s.outbox + SendToAll(s.receivers, Text(cfg.triggerPlayback)), count := None)
  }

  /** `broadcastSong`: with no receivers nothing happens; otherwise the count restarts at 0 and every receiver gets the track. */
  function Broadcast(s: ServerState, track: Payload): (r: ServerState)
    ensures s.receivers == [] ==> r == s
    ensures s.receivers != [] ==> r.count == Some(0) && r.outbox == s.outbox + SendToAll(s.receivers, track)
    ensures r.receivers == s.receivers && r.clients == s.clients && r.identified == s.identified && r.clientCount == s.clientCount
  {
    if |s.receivers| == 0 then s
    else s.(count := Some(0), outbox := s.outbox + SendToAll(s.receivers, track))
  }

  /** `handleHandshake`: the receiver signature registers a receiver, the other two are accepted as they are, anything else closes the socket. */
  function Handshake(cfg: Config, s: ServerState, ws: SocketId, message: Payload): (r: (ServerState, bool))
    ensures r.1 <==> message in {Text(cfg.receiverSignature), Text(cfg.senderSignature), Text(cfg.managerSignature)}
    ensures message == Text(cfg.receiverSignature) ==> r.0.receivers == Add(s.receivers, ws)
    ensures message != Text(cfg.receiverSignature) ==> r.0.receivers == s.receivers
    ensures r.1 ==> r.0.outbox == s.outbox
    ensures !r.1 ==> r.0.outbox == s.outbox + [Disconnect(ws)]
  {
    if message == Text(cfg.receiverSignature) then (s.(receivers := Add(s.receivers, ws)), true)
    else if message == Text(cfg.senderSignature) then (s, true)
    else if message == Text(cfg.managerSignature) then (s, true)
    else (s.(outbox := s.outbox + [Disconnect(ws)]), false)
  }

  /** The `message` handler of one connection. */
  function OnMessage(cfg: Config, s: ServerState, ws: SocketId, message: Payload): (r: ServerState)
    requires ws in s.identified
    ensures r.clients == s.clients && r.clientCount == s.clientCount && r.identified.Keys == s.identified.Keys
    ensures !s.identified[ws] ==> (r.identified[ws] <==> message in {Text(cfg.receiverSignature), Text(cfg.senderSignature), Text(cfg.managerSignature)})
    ensures r.halted <==> s.halted || (s.identified[ws] && message == Text(cfg.restartServer))
    ensures |s.outbox| <= |r.outbox| && r.outbox[..|s.outbox|] == s.outbox
  {
    if !s.identified[ws] then
      var (s', ok) := Handshake(cfg, s, ws, message);
      s'.(identified := s'.identified[ws := ok])
    else if message == Text(cfg.restartServer) then
      s.(outbox := s.outbox + [Deliver(ws, Text(cfg.requestConfirmation))], halted := true)
    else if message == Text(cfg.triggerPlayback) then
      if s.count.Some? then
        var t := Trigger(cfg, s);
        t.(outbox := t.outbox + [Deliver(ws, Text(cfg.requestConfirmation))])
      else
        s.(outbox := s.outbox + [Deliver(ws, Text(cfg.requestError))])
    else if ws in s.receivers then
      if message != Text(cfg.songReceived) then s
      else
        var s' := s.(count := Some(PlusPlus(s.count)));
        if PlusPlus(s.count) == |s.receivers| then Trigger(cfg, s') else s'
    else
      var b := Broadcast(s, message);
      b.(outbox := b.outbox + [Deliver(ws, Text(cfg.songReceived))])
  }

  /** The `connection` handler: a new, unidentified connection is counted. */
  function OnConnection(s: ServerState, ws: SocketId): (r: ServerState)
    ensures r.clients == s.clients + {ws} && ws in r.identified && !r.identified[ws]
    ensures r.receivers == s.receivers && r.count == s.count && r.outbox == s.outbox && r.halted == s.halted
  {
    s.(identified := s.identified[ws := false], clientCount := s.clientCount + 1, clients := s.clients + {ws})
  }

  /** The `close` handler: the connection is no longer counted and no longer a receiver. */
  function OnClose(s: ServerState, ws: SocketId): (r: ServerState)
    ensures ws !in r.clients && ws !in r.receivers && r.clients <= s.clients
    ensures forall x :: x in r.receivers <==> x in s.receivers && x != ws
    ensures r.count == s.count && r.outbox == s.outbox && r.identified == s.identified && r.halted == s.halted
  {
    s.(clientCount := s.clientCount - 1, receivers := Remove(s.receivers, ws), clients := s.clients - {ws})
  }

  /** The initial state is valid. */
  lemma InitialValid()
    ensures Valid(Initial)
  {
  }

  /** A fresh connection keeps the state valid, and is counted. */
  lemma OnConnectionValid(s: ServerState, ws: SocketId)
    requires Valid(s) && ws !in s.identified
    ensures Valid(OnConnection(s, ws))
    ensures OnConnection(s, ws).clientCount == s.clientCount + 1
  {
    assert ws !in s.clients;
  }

  /** Closing a connection keeps the state valid; it leaves the receivers, and `clientCount` drops by one. */
  lemma OnCloseValid(s: ServerState, ws: SocketId)
    requires Valid(s) && ws in s.clients
    ensures Valid(OnClose(s, ws))
    ensures ws !in OnClose(s, ws).receivers && OnClose(s, ws).clientCount == s.clientCount - 1
  {
  }

  /** Every message keeps the state valid. */
  lemma OnMessageValid(cfg: Config, s: ServerState, ws: SocketId, message: Payload)
    requires Valid(s) && ws in s.clients
    ensures ws in s.identified && Valid(OnMessage(cfg, s, ws, message))
  {
    var r := OnMessage(cfg, s, ws, message);
    if !s.identified[ws] {
      assert ws !in s.receivers;
      var (s', ok) := Handshake(cfg, s, ws, message);
      assert forall x | x in s'.receivers :: x in s.receivers || (x == ws && ok);
      assert forall x | x in s.receivers :: x != ws;
    } else if message == Text(cfg.restartServer) || message == Text(cfg.triggerPlayback) {
      assert r.receivers == s.receivers && r.clients == s.clients && r.identified == s.identified;
    } else if ws in s.receivers {
      assert r.receivers == s.receivers && r.clients == s.clients && r.identified == s.identified;
    } else {
      assert r == Broadcast(s, message).(outbox := Broadcast(s, message).outbox + [Deliver(ws, Text(cfg.songReceived))]);
    }
  }

  /** The first message of a connection is its handshake: what each kind of message does. */
  lemma FirstMessageIsHandshake(cfg: Config, s: ServerState, ws: SocketId, message: Payload)
    requires Valid(s) && ws in s.clients && !s.identified[ws]
    ensures var r := OnMessage(cfg, s, ws, message);
      && (message == Text(cfg.receiverSignature) ==> r.identified[ws] && r.receivers == s.receivers + [ws] && r.outbox == s.outbox)
      && (message in {Text(cfg.senderSignature), Text(cfg.managerSignature)} && message != Text(cfg.receiverSignature) ==> r.identified[ws] && r.receivers == s.receivers && r.outbox == s.outbox)
      && (message !in {Text(cfg.receiverSignature), Text(cfg.senderSignature), Text(cfg.managerSignature)} ==>
            !r.identified[ws] && r.receivers == s.receivers && r.outbox == s.outbox + [Disconnect(ws)])
      && r.count == s.count && r.clients == s.clients
  {
    assert ws !in s.receivers;
  }

  /** The control messages come from any client, and apply only once it has identified itself. */
  predicate IsControl(cfg: Config, message: Payload) {
    message == Text(cfg.restartServer) || message == Text(cfg.triggerPlayback)
  }

  /**
   * A forced trigger with a song pending triggers playback and confirms; with nothing
   * pending it only answers with an error. Receivers and senders alike may send it.
   */
  lemma ForcedTrigger(cfg: Config, s: ServerState, ws: SocketId)
    requires ws in s.identified && s.identified[ws]
    requires cfg.triggerPlayback != cfg.restartServer
    ensures var r := OnMessage(cfg, s, ws, Text(cfg.triggerPlayback));
      && (s.count.Some? ==> r == Trigger(cfg, s).(outbox := Trigger(cfg, s).outbox + [Deliver(ws, Text(cfg.requestConfirmation))]))
      && (s.count.None? ==> r == s.(outbox := s.outbox + [Deliver(ws, Text(cfg.requestError))]))
  {
  }

  /** A restart request is confirmed to its sender and then the process exits. */
  lemma RestartHalts(cfg: Config, s: ServerState, ws: SocketId)
    requires ws in s.identified && s.identified[ws]
    ensures OnMessage(cfg, s, ws, Text(cfg.restartServer)).halted
    ensures OnMessage(cfg, s, ws, Text(cfg.restartServer)).outbox == s.outbox + [Deliver(ws, Text(cfg.requestConfirmation))]
  {
  }

  /** A receiver's message other than a confirmation or a control message changes nothing. */
  lemma ReceiverNoise(cfg: Config, s: ServerState, ws: SocketId, message: Payload)
    requires ws in s.identified && s.identified[ws] && ws in s.receivers
    requires !IsControl(cfg, message) && message != Text(cfg.songReceived)
    ensures OnMessage(cfg, s, ws, message) == s
  {
  }

  /**
   * A non-receiver's message that is not a control message is broadcast as a song and
   * always answered with `songReceived`, even when there is nobody to broadcast to.
   */
  lemma SenderSong(cfg: Config, s: ServerState, ws: SocketId, track: Payload)
    requires ws in s.identified && s.identified[ws] && ws !in s.receivers
    requires !IsControl(cfg, track)
    ensures var r := OnMessage(cfg, s, ws, track);
      && r.outbox == s.outbox + SendToAll(s.receivers, track) + [Deliver(ws, Text(cfg.songReceived))]
      && r.count == (if s.receivers == [] then s.count else Some(0))
      && r.receivers == s.receivers
  {
    if s.receivers == [] {
      assert SendToAll(s.receivers, track) == [];
      assert s.outbox + [] == s.outbox;
    }
  }

  /** One receiver confirming: the count goes up (from `null` to 1), and reaching the number of receivers triggers playback. */
  lemma Confirmation(cfg: Config, s: ServerState, ws: SocketId)
    requires ws in s.identified && s.identified[ws] && ws in s.receivers
    requires !IsControl(cfg, Text(cfg.songReceived))
    ensures var r := OnMessage(cfg, s, ws, Text(cfg.songReceived));
      var c := if s.count.Some? then s.count.value + 1 else 1;
      && (c == |s.receivers| ==> r == Trigger(cfg, s))
      && (c != |s.receivers| ==> r == s.(count := Some(c)))
  {
  }

  /** The `null++` quirk: a confirmation with nothing pending counts as the first; with one receiver it triggers playback. */
  lemma StrayConfirmationTriggers(cfg: Config, s: ServerState, ws: SocketId)
    requires ws in s.identified && s.identified[ws] && s.receivers == [ws] && s.count.None?
    requires !IsControl(cfg, Text(cfg.songReceived))
    ensures OnMessage(cfg, s, ws, Text(cfg.songReceived)) == Trigger(cfg, s)
    ensures OnMessage(cfg, s, ws, Text(cfg.songReceived)).outbox == s.outbox + [Deliver(ws, Text(cfg.triggerPlayback))]
  {
    Confirmation(cfg, s, ws);
    assert SendToAll([ws], Text(cfg.triggerPlayback)) == [Deliver(ws, Text(cfg.triggerPlayback))];
  }

  /** Confirmations from the receivers in `rs`, one after another. */
  function Confirm(cfg: Config, s: ServerState, rs: seq<SocketId>): ServerState
    requires forall x | x in rs :: x in s.receivers && x in s.identified && s.identified[x]
    decreases |rs|
  {
    if rs == [] then s
    else
      var s' := OnMessage(cfg, s, rs[0], Text(cfg.songReceived));
      assert s'.receivers == s.receivers && s'.identified == s.identified;
      Confirm(cfg, s', rs[1..])
  }

  /**
   * A round: after a broadcast, once as many confirmations arrive as there are receivers,
   * playback is triggered for every receiver and nothing is pending; before that, no
   * trigger is sent and the count says how many confirmed.
   */
  lemma {:induction false} ConfirmationRound(cfg: Config, s: ServerState, rs: seq<SocketId>, k: nat)
    requires s.count == Some(k) && k + |rs| <= |s.receivers|
    requires forall x | x in rs :: x in s.receivers && x in s.identified && s.identified[x]
    requires !IsControl(cfg, Text(cfg.songReceived))
    ensures var r := Confirm(cfg, s, rs);
      && r.receivers == s.receivers
      && (k + |rs| == |s.receivers| && rs != [] ==>
            r.count.None? && r.outbox == s.outbox + SendToAll(s.receivers, Text(cfg.triggerPlayback)))
      && (k + |rs| < |s.receivers| ==> r.count == Some(k + |rs|) && r.outbox == s.outbox)
    decreases |rs|
  {
    if rs != [] {
      var s' := OnMessage(cfg, s, rs[0], Text(cfg.songReceived));
      Confirmation(cfg, s, rs[0]);
      if k + 1 == |s.receivers| {
        assert rs[1..] == [];
      } else {
        assert s' == s.(count := Some(k + 1));
        ConfirmationRound(cfg, s', rs[1..], k + 1);
      }
    }
  }

  /**
   * A receiver that leaves mid-round is not taken into account: the count is not
   * re-checked on close, so a count that already reached the new number of receivers
   * only grows past it and playback waits for a forced trigger.
   */
  lemma LeavingReceiverStallsRound(cfg: Config, a: SocketId, b: SocketId, s: ServerState)
    requires a != b && s.receivers == [a, b] && s.count == Some(1)
    requires a in s.identified && s.identified[a] && b in s.clients
    requires !IsControl(cfg, Text(cfg.songReceived))
    ensures var closed := OnClose(s, b);
      var after := OnMessage(cfg, closed, a, Text(cfg.songReceived));
      && closed.receivers == [a] && closed.count == Some(1)
      && after.count == Some(2) && after.outbox == s.outbox
  {
    var closed := OnClose(s, b);
    assert [a, b][1..] == [b];
    assert Remove([b], b) == [];
    assert Remove([a, b], b) == [a] + Remove([b], b);
  }

  /** The server: the module-level variables of index.js, the per-connection flags and the outbox. */
  class RelayServer {
    const cfg: Config
    var receivers: seq<SocketId>
    var confirmationCount: Option<int>
    var clientCount: int
    var identified: map<SocketId, bool>
    var clients: set<SocketId>
    var outbox: seq<Outgoing>
    var halted: bool

    function State(): ServerState
      reads this
    {
      ServerState(receivers, confirmationCount, clientCount, identified, clients, outbox, halted)
    }

    constructor (cfg: Config)
      ensures this.cfg == cfg && State() == Initial
    {
      this.cfg := cfg;
      receivers := [];
      confirmationCount := None;
      clientCount := 0;
      identified := map[];
      clients := {};
      outbox := [];
      halted := false;
    }

    /** `handleHandshake`. */
    method HandleHandshake(ws: SocketId, message: Payload) returns (ok: bool)
      modifies this
      ensures (State(), ok) == Handshake(cfg, old(State()), ws, message)
    {
      if message == Text(cfg.receiverSignature) {
        if ws !in receivers {
          receivers := receivers + [ws];
        }
        return true;
      } else if message == Text(cfg.senderSignature) {
        return true;
      } else if message == Text(cfg.managerSignature) {
        return true;
      }
      outbox := outbox + [Disconnect(ws)];
      return false;
    }

    /** `triggerReceiverPlayback`: a loop over the receivers. */
    method TriggerReceiverPlayback()
      modifies this
      ensures State() == Trigger(cfg, old(State()))
    {
      for i := 0 to |receivers|
        invariant receivers == old(receivers) && confirmationCount == old(confirmationCount)
        invariant outbox == old(outbox) + SendToAll(receivers[..i], Text(cfg.triggerPlayback))
        invariant clientCount == old(clientCount) && identified == old(identified) && clients == old(clients) && halted == old(halted)
      {
        SendToAllStep(receivers, Text(cfg.triggerPlayback), i);
        outbox := outbox + [Deliver(receivers[i], Text(cfg.triggerPlayback))];
      }
      assert receivers[..|receivers|] == receivers;
      confirmationCount := None;
    }

    /** `broadcastSong`: a loop over the receivers, unless there are none. */
    method BroadcastSong(track: Payload)
      modifies this
      ensures State() == Broadcast(old(State()), track)
    {
      if |receivers| == 0 {
        return;
      }
      confirmationCount := Some(0);
      for i := 0 to |receivers|
        invariant receivers == old(receivers) && confirmationCount == Some(0)
        invariant outbox == old(outbox) + SendToAll(receivers[..i], track)
        invariant clientCount == old(clientCount) && identified == old(identified) && clients == old(clients) && halted == old(halted)
      {
        SendToAllStep(receivers, track, i);
        outbox := outbox + [Deliver(receivers[i], track)];
      }
      assert receivers[..|receivers|] == receivers;
    }

    /** The `connection` handler. */
    method Connection(ws: SocketId)
      requires Valid(State()) && ws !in identified
      modifies this
      ensures State() == OnConnection(old(State()), ws) && Valid(State())
    {
      OnConnectionValid(State(), ws);
      identified := identified[ws := false];
      clientCount := clientCount + 1;
      clients := clients + {ws};
    }

    /** The `message` handler. */
    method Message(ws: SocketId, message: Payload)
      requires Valid(State()) && ws in clients && !halted
      modifies this
      ensures State() == OnMessage(cfg, old(State()), ws, message) && Valid(State())
    {
      OnMessageValid(cfg, State(), ws, message);
      if !identified[ws] {
        var ok := HandleHandshake(ws, message);
        identified := identified[ws := ok];
        return;
      }
      if message == Text(cfg.restartServer) {
        outbox := outbox + [Deliver(ws, Text(cfg.requestConfirmation))];
        halted := true;
        return;
      }
      if message == Text(cfg.triggerPlayback) {
        if confirmationCount.Some? {
          TriggerReceiverPlayback();
          outbox := outbox + [Deliver(ws, Text(cfg.requestConfirmation))];
        } else {
          outbox := outbox + [Deliver(ws, Text(cfg.requestError))];
        }
        return;
      }
      if ws in receivers {
        if message != Text(cfg.songReceived) {
          return;
        }
        confirmationCount := Some(PlusPlus(confirmationCount));
        if confirmationCount == Some(|receivers|) {
          TriggerReceiverPlayback();
        }
      } else {
        BroadcastSong(message);
        outbox := outbox + [Deliver(ws, Text(cfg.songReceived))];
      }
    }

    /** The `close` handler. */
    method Close(ws: SocketId)
      requires Valid(State()) && ws in clients
      modifies this
      ensures State() == OnClose(old(State()), ws) && Valid(State())
    {
      OnCloseValid(State(), ws);
      clientCount := clientCount - 1;
      receivers := Remove(receivers, ws);
      clients := clients - {ws};
    }
  }
}
