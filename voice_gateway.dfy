/**
 * The voice gateway (voiceGateway.ts): the websocket handshake that turns a
 * voice server assignment into the UDP endpoint, SSRC and session key that
 * playback needs. Hello is answered with Identify the first time and with
 * Resume afterwards, Ready with Select Protocol and Speaking, and Session
 * Description stores the key; a closed socket is replaced by a new one and
 * nothing is forgotten.
 */
module VoiceSignaling {

  import opened Wrappers
  import opened Udp

  /** The voice gateway's opcodes. */
  const IdentifyOp: int := 0
  const SelectOp: int := 1
  const ReadyOp: int := 2
  const HeartbeatOp: int := 3
  const SessionOp: int := 4
  const SpeakingOp: int := 5
  const HeartbeatAckOp: int := 6
  const ResumeOp: int := 7
  const HelloOp: int := 8

  /** The only transport and encryption mode the bot asks for. */
  const Protocol: string := "udp"
  const EncryptionMode: string := "xsalsa20_poly1305_lite"

  /**
   * The props record the main gateway fills in: one object shared between the
   * bot and every voice gateway it creates, so later updates are seen here.
   */
  class VoiceGatewayProps {
    var address: string
    var serverId: string
    var userId: string
    var token: string
    var sessionId: string

    constructor (address: string, serverId: string, userId: string, token: string, sessionId: string)
      ensures Snapshot() == Props(address, serverId, userId, token, sessionId)
    {
      this.address, this.serverId, this.userId := address, serverId, userId;
      this.token, this.sessionId := token, sessionId;
    }

    /** The current field values. */
    function Snapshot(): Props
      reads this
    {
      Props(address, serverId, userId, token, sessionId)
    }
  }

  /** The values of the props record at one moment. */
  datatype Props = Props(address: string, serverId: string, userId: string, token: string, sessionId: string)

  /** A payload the voice gateway sends. */
  datatype VoicePayload =
    | Identify(serverId: string, userId: string, sessionId: string, token: string)
    | Resume(serverId: string, sessionId: string, token: string)
    | SelectProtocol(protocol: string, address: Option<string>, port: Option<int>, mode: string)
    | Speaking(speaking: int, delay: int, ssrc: Option<int>)
    | Heartbeat

  /** The `op` field a payload is sent with. */
  function OpOf(p: VoicePayload): (op: int)
    ensures p.Identify? <==> op == IdentifyOp
    ensures p.Resume? <==> op == ResumeOp
  {
    match p
    case Identify(_, _, _, _) => IdentifyOp
    case Resume(_, _, _) => ResumeOp
    case SelectProtocol(_, _, _, _) => SelectOp
    case Speaking(_, _, _) => SpeakingOp
    case Heartbeat => HeartbeatOp
  }

  /**
   * A decoded inbound message: its opcode and the fields of `d` the handler
   * reads (Hello's heartbeat_interval, Ready's ip and port, Session
   * Description's encodings' ssrcs and secret_key).
   */
  datatype VoiceMessage = VoiceMessage(
    op: int, heartbeatInterval: int, ip: string, port: int, ssrcs: seq<int>, secretKey: seq<int>)

  /** What the handshake has learned; `None` is a field still undefined. */
  datatype SessionState = SessionState(
    connected: bool, hostname: Option<string>, port: Option<int>,
    ssrc: Option<int>, secretKey: Option<seq<byte>>)

  const InitialSession: SessionState := SessionState(false, None, None, None, None)

  /** The endpoint and key handed to playback. */
  datatype UdpConnection = UdpConnection(hostname: string, port: int, secretKey: seq<byte>, ssrc: int)

  /**
   * The udpConnection getter: defined only when the key is set and hostname,
   * port and ssrc are all truthy (a non-empty string, non-zero numbers).
   */
  function Connection(st: SessionState): (c: Option<UdpConnection>)
    ensures c.Some? <==>
      && st.secretKey.Some?
      && st.hostname.Some? && st.hostname.value != ""
      && st.port.Some? && st.port.value != 0
      && st.ssrc.Some? && st.ssrc.value != 0
    ensures c.Some? ==> c.value == UdpConnection(st.hostname.value, st.port.value, st.secretKey.value, st.ssrc.value)
  {
    if st.secretKey.Some? && st.hostname.Some? && st.hostname.value != ""
       && st.port.Some? && st.port.value != 0 && st.ssrc.Some? && st.ssrc.value != 0
    then Some(UdpConnection(st.hostname.value, st.port.value, st.secretKey.value, st.ssrc.value))
    else None
  }

  /** The handler's reaction to one message: new state, payloads sent, heartbeat period started. */
  datatype Reaction = Reaction(state: SessionState, sends: seq<VoicePayload>, heartbeat: Option<int>)

  /**
   * onMessage as a function of the learned state and the current props. A
   * Session Description without encodings makes the handler throw before it
   * assigns anything, so nothing changes.
   */
  function Respond(st: SessionState, props: Props, m: VoiceMessage): Reaction
  {
    if m.op == HelloOp then
      var greeting := if st.connected then Resume(props.serverId, props.sessionId, props.token)
                      else Identify(props.serverId, props.userId, props.sessionId, props.token);
      Reaction(st.(connected := true), [greeting], Some(m.heartbeatInterval))
    else if m.op == ReadyOp then
      var next := st.(hostname := Some(m.ip), port := Some(m.port));
      Reaction(next, [SelectProtocol(Protocol, next.hostname, next.port, EncryptionMode), Speaking(1, 0, st.ssrc)], None)
    else if m.op == SessionOp then
      if m.ssrcs == [] then Reaction(st, [], None)
      else Reaction(st.(ssrc := Some(m.ssrcs[0]), secretKey := Some(Uint8From(m.secretKey))), [], None)
    else Reaction(st, [], None)
  }

  /** A payload together with the index of the socket it went out on. */
  datatype Sent = Sent(socket: nat, payload: VoicePayload)

  /** The payloads of one handler run, all on socket `socket`. */
  function OnSocket(socket: nat, ps: seq<VoicePayload>): (r: seq<Sent>)
    ensures |r| == |ps|
    ensures forall i :: 0 <= i < |r| ==> r[i] == Sent(socket, ps[i])
  {
    seq(|ps|, i requires 0 <= i < |ps| => Sent(socket, ps[i]))
  }

  /** A heartbeat timer: its period and whether it is still running. */
  datatype Timer = Timer(period: int, running: bool)

  class VoiceGateway {
    const props: VoiceGatewayProps
    var connected: bool
    var hostname: Option<string>
    var port: Option<int>
    var ssrc: Option<int>
    var secretKey: Option<seq<byte>>
    /** Every heartbeat timer started, in order. */
    var timers: seq<Timer>
    /** The handle kept in `interval`: the index of the latest timer. */
    var interval: Option<nat>
    /** The URL of every websocket opened; the last one is the current socket. */
    var sockets: seq<string>
    var sent: seq<Sent>

    ghost predicate Valid()
      reads this
    {
      && |sockets| > 0
      && (interval.None? <==> timers == [])
      && (interval.Some? ==> interval.value == |timers| - 1)
      && (connected <==> timers != [])
    }

    function State(): SessionState
      reads this
    {
      SessionState(connected, hostname, port, ssrc, secretKey)
    }

    function Current(): nat
      reads this
    {
      if |sockets| == 0 then 0 else |sockets| - 1
    }

    /** Opens the first socket to the props' address; nothing is known yet. */
    constructor (props: VoiceGatewayProps)
      ensures Valid() && this.props == props
      ensures State() == InitialSession
      ensures sockets == ["wss://" + props.address] && sent == [] && timers == []
    {
      this.props := props;
      connected, hostname, port, ssrc, secretKey := false, None, None, None, None;
      timers, interval := [], None;
      sockets := ["wss://" + props.address];
      sent := [];
    }

    /** The udpConnection getter: `Connection` of the fields as they are now. */
    function UdpConnectionNow(): (c: Option<UdpConnection>)
      reads this
      ensures c.Some? <==>
        && secretKey.Some?
        && hostname.Some? && hostname.value != ""
        && port.Some? && port.value != 0
        && ssrc.Some? && ssrc.value != 0
      ensures c.Some? ==> c.value == UdpConnection(hostname.value, port.value, secretKey.value, ssrc.value)
    {
      Connection(State())
    }

    /**
     * onMessage: switch on the opcode. Hello greets (Identify or Resume),
     * starts a heartbeat timer and marks the gateway connected; Ready stores
     * the endpoint, then sends Select Protocol and Speaking; Session
     * Description stores the SSRC and key; anything else is only logged.
     */
    method OnMessage(m: VoiceMessage)
      requires Valid()
      modifies this
      ensures Valid()
      ensures var r := Respond(old(State()), old(props.Snapshot()), m);
        && State() == r.state
        && sent == old(sent) + OnSocket(Current(), r.sends)
        && timers == old(timers) + (if r.heartbeat.Some? then [Timer(r.heartbeat.value, true)] else [])
      ensures sockets == old(sockets)
    {
      if m.op == HelloOp {
        if connected {
          Send(Resume(props.serverId, props.sessionId, props.token));
        } else {
          Send(Identify(props.serverId, props.userId, props.sessionId, props.token));
        }
        StartHeartbeat(m.heartbeatInterval);
        connected := true;
      } else if m.op == ReadyOp {
        hostname := Some(m.ip);
        port := Some(m.port);
        Send(SelectProtocol(Protocol, hostname, port, EncryptionMode));
        Send(Speaking(1, 0, ssrc));
      } else if m.op == SessionOp {
        if m.ssrcs != [] {
          ssrc := Some(m.ssrcs[0]);
          secretKey := Some(Uint8From(m.secretKey));
        }
      }
    }

    /** gateway.send on the current socket. */
    method Send(p: VoicePayload)
      modifies this`sent
      ensures sent == old(sent) + [Sent(Current(), p)]
    {
      sent := sent + [Sent(Current(), p)];
    }

    /** startHeartbeat: a new timer; the handle of any earlier one is overwritten. */
    method StartHeartbeat(period: int)
      modifies this`timers, this`interval
      ensures timers == old(timers) + [Timer(period, true)]
      ensures interval == Some(|old(timers)|)
    {
      interval := Some(|timers|);
      timers := timers + [Timer(period, true)];
    }

    /** One firing of heartbeat timer `i`: a running timer sends Heartbeat on the current socket. */
    method Beat(i: nat)
      requires i < |timers|
      modifies this`sent
      ensures sent == old(sent) + (if timers[i].running then [Sent(Current(), Heartbeat)] else [])
    {
      if timers[i].running {
        Send(Heartbeat);
      }
    }

    /**
     * onClose: stop the timer whose handle is kept, then resumeConnection
     * opens a new socket to the props' current address. The learned state is
     * kept, so the next Hello is answered with Resume.
     */
    method OnClose()
      requires Valid()
      modifies this
      ensures Valid()
      ensures State() == old(State()) && sent == old(sent) && interval == old(interval)
      ensures sockets == old(sockets) + ["wss://" + props.address]
      ensures |timers| == |old(timers)|
      ensures forall i :: 0 <= i < |timers| ==>
        timers[i] == if old(interval) == Some(i) then old(timers[i]).(running := false) else old(timers[i])
    {
      if interval.Some? {
        timers := timers[interval.value := timers[interval.value].(running := false)];
      }
      sockets := sockets + ["wss://" + props.address];
    }
  }

  /** The state and payloads after a run of messages, each with the props current when it arrives. */
  datatype Trace = Trace(state: SessionState, sends: seq<VoicePayload>)

  function Run(st: SessionState, events: seq<(Props, VoiceMessage)>): Trace
    decreases |events|
  {
    if events == [] then Trace(st, [])
    else
      var before := Run(st, events[..|events| - 1]);
      var e := events[|events| - 1];
      var r := Respond(before.state, e.0, e.1);
      Trace(r.state, before.sends + r.sends)
  }

  /** How many payloads of a run carry opcode `op`. */
  function CountOp(ps: seq<VoicePayload>, op: int): nat
  {
    if ps == [] then 0
    else CountOp(ps[..|ps| - 1], op) + (if OpOf(ps[|ps| - 1]) == op then 1 else 0)
  }

  /** How many messages of a run are Hellos. */
  function Hellos(events: seq<(Props, VoiceMessage)>): nat
  {
    if events == [] then 0
    else Hellos(events[..|events| - 1]) + (if events[|events| - 1].1.op == HelloOp then 1 else 0)
  }

  lemma {:induction false} CountOpAppend(a: seq<VoicePayload>, b: seq<VoicePayload>, op: int)
    ensures CountOp(a + b, op) == CountOp(a, op) + CountOp(b, op)
    decreases |b|
  {
    if b == [] {
      assert a + b == a;
    } else {
      assert (a + b)[..|a + b| - 1] == a + b[..|b| - 1];
      CountOpAppend(a, b[..|b| - 1], op);
    }
  }

  /** A Hello is answered by exactly one greeting: Identify when not yet connected, Resume otherwise. */
  lemma HelloGreets(st: SessionState, props: Props, m: VoiceMessage)
    requires m.op == HelloOp
    ensures var r := Respond(st, props, m);
      && r.state == st.(connected := true)
      && r.heartbeat == Some(m.heartbeatInterval)
      && r.sends == [if st.connected then Resume(props.serverId, props.sessionId, props.token)
                     else Identify(props.serverId, props.userId, props.sessionId, props.token)]
      && CountOp(r.sends, IdentifyOp) == (if st.connected then 0 else 1)
      && CountOp(r.sends, ResumeOp) == (if st.connected then 1 else 0)
  {
    var r := Respond(st, props, m);
    assert r.sends[..0] == [];
  }

  /**
   * From a fresh gateway, a run of messages is connected exactly when it
   * held a Hello, sends Identify for the first Hello only, and Resume for
   * every later one.
   */
  lemma {:induction false} IdentifyOnlyOnce(events: seq<(Props, VoiceMessage)>)
    ensures var t := Run(InitialSession, events);
      && (t.state.connected <==> Hellos(events) > 0)
      && CountOp(t.sends, IdentifyOp) == Min1(Hellos(events))
      && CountOp(t.sends, ResumeOp) == Hellos(events) - Min1(Hellos(events))
    decreases |events|
  {
    if events != [] {
      var prefix := events[..|events| - 1];
      var e := events[|events| - 1];
      IdentifyOnlyOnce(prefix);
      var before := Run(InitialSession, prefix);
      var r := Respond(before.state, e.0, e.1);
      CountOpAppend(before.sends, r.sends, IdentifyOp);
      CountOpAppend(before.sends, r.sends, ResumeOp);
      if e.1.op == HelloOp {
        HelloGreets(before.state, e.0, e.1);
      } else {
        NonHelloSendsNoGreeting(before.state, e.0, e.1);
      }
    }
  }

  function Min1(n: nat): nat
  {
    if n == 0 then 0 else 1
  }

  /** Only a Hello makes the handler greet or changes `connected`. */
  lemma NonHelloSendsNoGreeting(st: SessionState, props: Props, m: VoiceMessage)
    requires m.op != HelloOp
    ensures var r := Respond(st, props, m);
      && r.state.connected == st.connected
      && r.heartbeat.None?
      && CountOp(r.sends, IdentifyOp) == 0 && CountOp(r.sends, ResumeOp) == 0
  {
    var r := Respond(st, props, m);
    if m.op == ReadyOp {
      var first := r.sends[..1];
      assert first[..0] == [];
      assert CountOp(first, IdentifyOp) == 0 && CountOp(first, ResumeOp) == 0;
      assert r.sends[..|r.sends| - 1] == first;
    }
  }

  /**
   * Ready stores the announced endpoint and answers with Select Protocol
   * (udp, that endpoint, the lite encryption mode) followed by Speaking with
   * the SSRC known so far; the SSRC and key are untouched.
   */
  lemma ReadySelectsThenSpeaks(st: SessionState, props: Props, m: VoiceMessage)
    requires m.op == ReadyOp
    ensures var r := Respond(st, props, m);
      && r.state == SessionState(st.connected, Some(m.ip), Some(m.port), st.ssrc, st.secretKey)
      && r.sends == [SelectProtocol("udp", Some(m.ip), Some(m.port), "xsalsa20_poly1305_lite"), Speaking(1, 0, st.ssrc)]
      && OpOf(r.sends[0]) == 1 && OpOf(r.sends[1]) == 5
      && r.heartbeat.None?
  {
  }

  /**
   * Session Description stores the first encoding's SSRC and the key as
   * bytes and sends nothing; the endpoint and `connected` are untouched.
   */
  lemma SessionStoresKey(st: SessionState, props: Props, m: VoiceMessage)
    requires m.op == SessionOp
    ensures var r := Respond(st, props, m);
      && r.sends == [] && r.heartbeat.None?
      && r.state.hostname == st.hostname && r.state.port == st.port && r.state.connected == st.connected
      && (m.ssrcs != [] ==> r.state.ssrc == Some(m.ssrcs[0]) && r.state.secretKey == Some(Uint8From(m.secretKey)))
      && (m.ssrcs == [] ==> r.state == st)
  {
  }

  /** Any other opcode, HeartbeatACK included, changes nothing and sends nothing. */
  lemma OtherOpcodesIgnored(st: SessionState, props: Props, m: VoiceMessage)
    requires m.op != HelloOp && m.op != ReadyOp && m.op != SessionOp
    ensures Respond(st, props, m) == Reaction(st, [], None)
  {
  }

  /**
   * After Ready and Session Description with a truthy endpoint and SSRC, in
   * either order, the UDP connection is available with exactly those values.
   */
  lemma HandshakeYieldsConnection(st: SessionState, props: Props, ready: VoiceMessage, session: VoiceMessage)
    requires ready.op == ReadyOp && session.op == SessionOp
    requires ready.ip != "" && ready.port != 0 && session.ssrcs != [] && session.ssrcs[0] != 0
    ensures var a := Respond(Respond(st, props, ready).state, props, session).state;
      var b := Respond(Respond(st, props, session).state, props, ready).state;
      && Connection(a) == Connection(b)
      == Some(UdpConnection(ready.ip, ready.port, Uint8From(session.secretKey), session.ssrcs[0]))
  {
  }
}
