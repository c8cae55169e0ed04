/**
 * The main gateway client (bot.ts): identifies with a fixed intents mask on
 * Hello, routes dispatch events to the one registered message handler, and
 * fills the props record shared with the voice gateway from the voice state
 * and voice server updates, creating a new voice gateway on the latter.
 */
module MainGateway {

  import VoiceSignaling

  /** The gateway intents, one bit each. */
  datatype Intent =
    | Guilds | GuildMembers | GuildBans | GuildEmojis | GuildIntegrations
    | GuildWebhooks | GuildInvites | GuildVoiceStates | GuildPresences | GuildMessages
    | GuildMessageReactions | GuildMessageTyping | DirectMessages
    | DirectMessageReactions | DirectMessageTyping

  /** The bit position of each intent. */
  function Shift(i: Intent): (n: nat)
    ensures n < 15
  {
    match i
    case Guilds => 0
    case GuildMembers => 1
    case GuildBans => 2
    case GuildEmojis => 3
    case GuildIntegrations => 4
    case GuildWebhooks => 5
    case GuildInvites => 6
    case GuildVoiceStates => 7
    case GuildPresences => 8
    case GuildMessages => 9
    case GuildMessageReactions => 10
    case GuildMessageTyping => 11
    case DirectMessages => 12
    case DirectMessageReactions => 13
    case DirectMessageTyping => 14
  }

  /** The enum value of an intent: `1 << position`. */
  function Bit(i: Intent): bv32
  {
    (1 as bv32) << Shift(i)
  }

  /** The intents sent with Identify: guilds, voice states and guild messages. */
  function IdentifyIntents(): bv32
  {
    Bit(Guilds) | Bit(GuildVoiceStates) | Bit(GuildMessages)
  }

  /** Every intent is a single bit, and two different intents never share it. */
  lemma IntentsAreDistinctBits(i: Intent, j: Intent)
    ensures Bit(i) != 0 && Bit(i) & (Bit(i) - 1) == 0
    ensures i != j ==> Bit(i) & Bit(j) == 0
  {
    var m := Shift(i);
    var n := Shift(j);
    SingleBit(m);
    if i != j {
      ShiftInjective(i, j);
      DisjointBits(m, n);
    }
  }

  lemma SingleBit(m: nat)
    requires m < 15
    ensures (1 as bv32) << m != 0 && ((1 as bv32) << m) & (((1 as bv32) << m) - 1) == 0
  {
    if m < 8 {
      if m < 4 {
        if m == 0 {} else if m == 1 {} else if m == 2 {} else {}
      } else {
        if m == 4 {} else if m == 5 {} else if m == 6 {} else {}
      }
    } else if m < 12 {
      if m == 8 {} else if m == 9 {} else if m == 10 {} else {}
    } else {
      if m == 12 {} else if m == 13 {} else {}
    }
  }

  lemma DisjointBits(m: nat, n: nat)
    requires m < 15 && n < 15 && m != n
    ensures ((1 as bv32) << m) & ((1 as bv32) << n) == 0
  {
  }

  lemma ShiftInjective(i: Intent, j: Intent)
    ensures i != j ==> Shift(i) != Shift(j)
  {
  }

  /** The Identify intents are 641: bits 0, 7 and 9. */
  lemma IdentifyIntentsValue()
    ensures IdentifyIntents() == 641
  {
  }

  /** The handler registry's one action. */
  datatype Action = Message

  /** A registered callback, by identity: the model records calls, not their effects. */
  type Handler = nat

  datatype Author = Author(username: string, id: string)

  /** What a message handler receives. */
  datatype MessageInfo = MessageInfo(content: string, author: Author, channel: string, guild: string)

  /** A payload the bot sends on the main gateway. */
  datatype GatewayPayload =
    | Heartbeat
    | Identify(token: string, intents: bv32, os: string, browser: string, device: string)
    | VoiceStateUpdate(guildId: string, channelId: string, selfMute: bool, selfDeaf: bool)

  function OpOf(p: GatewayPayload): (op: int)
    ensures p.Heartbeat? <==> op == 1
    ensures p.Identify? <==> op == 2
    ensures p.VoiceStateUpdate? <==> op == 4
  {
    match p
    case Heartbeat => 1
    case Identify(_, _, _, _, _) => 2
    case VoiceStateUpdate(_, _, _, _) => 4
  }

  /** The fields of `d` a dispatch handler reads. */
  datatype DispatchData = DispatchData(
    content: string, author: Author, channelId: string, guildId: string,
    userId: string, sessionId: string, token: string, endpoint: string)

  /** A decoded inbound message: opcode, dispatch type `t`, Hello's interval and `d`. */
  datatype GatewayMessage = GatewayMessage(op: int, t: string, heartbeatInterval: int, d: DispatchData)

  const HelloOp: int := 10
  const HeartbeatAckOp: int := 11
  const DispatchOp: int := 0

  const MessageCreate: string := "MESSAGE_CREATE"
  const VoiceStateUpdated: string := "VOICE_STATE_UPDATE"
  const VoiceServerUpdated: string := "VOICE_SERVER_UPDATE"

  /** The voice props after one main-gateway message. */
  function PropsAfter(p: VoiceSignaling.Props, m: GatewayMessage): VoiceSignaling.Props
  {
    if m.op != DispatchOp then p
    else if m.t == VoiceStateUpdated then p.(userId := m.d.userId, sessionId := m.d.sessionId)
    else if m.t == VoiceServerUpdated then p.(token := m.d.token, serverId := m.d.guildId, address := m.d.endpoint)
    else p
  }

  /** The props after a run of messages. */
  function PropsAfterAll(p: VoiceSignaling.Props, ms: seq<GatewayMessage>): VoiceSignaling.Props
    decreases |ms|
  {
    if ms == [] then p else PropsAfterAll(PropsAfter(p, ms[0]), ms[1..])
  }

  /**
   * A voice state update touches only the user and session ids; a voice
   * server update only the token, server id and address; nothing else
   * touches the props at all.
   */
  lemma PropsAfterFields(p: VoiceSignaling.Props, m: GatewayMessage)
    ensures var q := PropsAfter(p, m);
      && (m.op == DispatchOp && m.t == VoiceStateUpdated ==>
            q == VoiceSignaling.Props(p.address, p.serverId, m.d.userId, p.token, m.d.sessionId))
      && (m.op == DispatchOp && m.t == VoiceServerUpdated ==>
            q == VoiceSignaling.Props(m.d.endpoint, m.d.guildId, p.userId, m.d.token, p.sessionId))
      && (m.op != DispatchOp || (m.t != VoiceStateUpdated && m.t != VoiceServerUpdated) ==> q == p)
  {
  }

  /**
   * The two voice updates write disjoint fields, so once both have arrived,
   * in either order and whatever came between that does not write props,
   * the props hold all five values.
   */
  lemma {:induction false} BothUpdatesFillProps(p: VoiceSignaling.Props, state: GatewayMessage,
                                                between: seq<GatewayMessage>, server: GatewayMessage)
    requires state.op == DispatchOp && state.t == VoiceStateUpdated
    requires server.op == DispatchOp && server.t == VoiceServerUpdated
    requires forall i :: 0 <= i < |between| ==> !WritesProps(between[i])
    ensures var full := VoiceSignaling.Props(server.d.endpoint, server.d.guildId, state.d.userId, server.d.token, state.d.sessionId);
      && PropsAfterAll(p, [state] + between + [server]) == full
      && PropsAfterAll(p, [server] + between + [state]) == full
  {
    var q1 := PropsAfter(p, state);
    var q2 := PropsAfter(p, server);
    assert ([state] + between + [server])[1..] == between + [server];
    assert ([server] + between + [state])[1..] == between + [state];
    SkipsKeepProps(q1, between, server);
    SkipsKeepProps(q2, between, state);
  }

  /** Whether a message writes the voice props. */
  predicate WritesProps(m: GatewayMessage)
  {
    m.op == DispatchOp && (m.t == VoiceStateUpdated || m.t == VoiceServerUpdated)
  }

  lemma {:induction false} SkipsKeepProps(p: VoiceSignaling.Props, between: seq<GatewayMessage>, last: GatewayMessage)
    requires forall i :: 0 <= i < |between| ==> !WritesProps(between[i])
    ensures PropsAfterAll(p, between + [last]) == PropsAfter(p, last)
    decreases |between|
  {
    if between == [] {
      assert between + [last] == [last];
    } else {
      assert (between + [last])[1..] == between[1..] + [last];
      SkipsKeepProps(p, between[1..], last);
    }
  }

  class Bot {
    /** The main gateway's address. */
    const sockAddr: string
    const token: string
    var handlers: map<Action, Handler>
    /** The props record shared with every voice gateway this bot creates. */
    const voiceGatewayProps: VoiceSignaling.VoiceGatewayProps
    var voiceGateway: VoiceSignaling.VoiceGateway?
    /** Payloads sent on the main gateway, in order. */
    var sent: seq<GatewayPayload>
    /** The period of every heartbeat timer started; none is ever stopped. */
    var timers: seq<int>
    /** Every handler call: the handler and what it was given. */
    var invoked: seq<(Handler, MessageInfo)>

    ghost predicate Valid()
      reads this
    {
      voiceGateway != null ==> voiceGateway.props == voiceGatewayProps
    }

    /** Opens the main gateway; the props start as empty strings and no handler is registered. */
    constructor (token: string)
      ensures Valid()
      ensures this.token == token && sockAddr == "wss://gateway.discord.gg/?v=8&encoding=json"
      ensures handlers == map[] && voiceGateway == null && sent == [] && timers == [] && invoked == []
      ensures fresh(voiceGatewayProps) && voiceGatewayProps.Snapshot() == VoiceSignaling.Props("", "", "", "", "")
    {
      this.token := token;
      sockAddr := "wss://gateway.discord.gg/?v=8&encoding=json";
      handlers := map[];
      voiceGatewayProps := new VoiceSignaling.VoiceGatewayProps("", "", "", "", "");
      voiceGateway := null;
      sent, timers, invoked := [], [], [];
    }

    /**
     * onMessage: Hello (10) starts a heartbeat timer and then identifies with
     * the fixed intents and client properties; a dispatch (0) goes to
     * handleDispatch; HeartbeatACK (11) and every other opcode are only
     * logged.
     */
    method OnMessage(m: GatewayMessage)
      requires Valid()
      modifies this, voiceGatewayProps
      ensures Valid()
      ensures m.op == HelloOp ==>
        && timers == old(timers) + [m.heartbeatInterval]
        && sent == old(sent) + [Identify(token, IdentifyIntents(), "linux", "my_library", "my_library")]
        && unchanged(this`handlers, this`voiceGateway, this`invoked, voiceGatewayProps)
      ensures m.op != HelloOp && m.op != DispatchOp ==>
        unchanged(this, voiceGatewayProps)
      ensures m.op == DispatchOp ==> timers == old(timers) && sent == old(sent)
      ensures m.op == DispatchOp ==> invoked == old(invoked) + (if m.t == MessageCreate && Message in handlers
        then [(handlers[Message], MessageInfo(m.d.content, m.d.author, m.d.channelId, m.d.guildId))] else [])
      ensures m.op == DispatchOp && m.t == VoiceServerUpdated ==>
        && voiceGateway != null && fresh(voiceGateway)
        && voiceGateway.State() == VoiceSignaling.InitialSession
        && voiceGateway.sockets == ["wss://" + m.d.endpoint]
        && voiceGateway.sent == [] && voiceGateway.timers == []
      ensures m.op == DispatchOp && m.t != VoiceServerUpdated ==> voiceGateway == old(voiceGateway)
      ensures voiceGatewayProps.Snapshot() == PropsAfter(old(voiceGatewayProps.Snapshot()), m)
      ensures handlers == old(handlers)
    {
      if m.op == HelloOp {
        timers := timers + [m.heartbeatInterval];
        sent := sent + [Identify(token, IdentifyIntents(), "linux", "my_library", "my_library")];
      } else if m.op == DispatchOp {
        HandleDispatch(m.t, m.d);
      }
    }

    /**
     * handleDispatch: MESSAGE_CREATE calls the message handler if one is
     * registered; VOICE_STATE_UPDATE stores the user and session ids;
     * VOICE_SERVER_UPDATE stores token, guild and endpoint and replaces the
     * voice gateway with a new one on the same props record; any other type
     * is ignored.
     */
    method HandleDispatch(t: string, d: DispatchData)
      requires Valid()
      modifies this`voiceGateway, this`invoked, voiceGatewayProps
      ensures Valid()
      ensures invoked == old(invoked) + (if t == MessageCreate && Message in handlers
        then [(handlers[Message], MessageInfo(d.content, d.author, d.channelId, d.guildId))] else [])
      ensures voiceGatewayProps.Snapshot()
        == PropsAfter(old(voiceGatewayProps.Snapshot()), GatewayMessage(DispatchOp, t, 0, d))
      ensures t == VoiceServerUpdated ==>
        && voiceGateway != null && fresh(voiceGateway)
        && voiceGateway.State() == VoiceSignaling.InitialSession
        && voiceGateway.sockets == ["wss://" + d.endpoint]
        && voiceGateway.sent == [] && voiceGateway.timers == []
      ensures t != VoiceServerUpdated ==> voiceGateway == old(voiceGateway)
    {
      if t == MessageCreate {
        if Message in handlers {
          invoked := invoked + [(handlers[Message], MessageInfo(d.content, d.author, d.channelId, d.guildId))];
        }
      } else if t == VoiceStateUpdated {
        voiceGatewayProps.userId := d.userId;
        voiceGatewayProps.sessionId := d.sessionId;
      } else if t == VoiceServerUpdated {
        voiceGatewayProps.token := d.token;
        voiceGatewayProps.serverId := d.guildId;
        voiceGatewayProps.address := d.endpoint;
        voiceGateway := new VoiceSignaling.VoiceGateway(voiceGatewayProps);
      }
    }

    /** A heartbeat timer firing: the interval callback sends a Heartbeat (op 1). */
    method Beat()
      requires timers != []
      modifies this`sent
      ensures sent == old(sent) + [Heartbeat]
      ensures OpOf(sent[|sent| - 1]) == 1
    {
      sent := sent + [Heartbeat];
    }

    /** handle: register `handler` for `action`, replacing any earlier one. */
    method Handle(action: Action, handler: Handler)
      modifies this`handlers
      ensures handlers == old(handlers)[action := handler]
    {
      handlers := handlers[action := handler];
    }

    /** joinVoice: a voice state update (op 4) for the channel, neither muted nor deafened. */
    method JoinVoice(guild: string, channel: string)
      modifies this`sent
      ensures sent == old(sent) + [VoiceStateUpdate(guild, channel, false, false)]
      ensures OpOf(sent[|sent| - 1]) == 4
    {
      sent := sent + [VoiceStateUpdate(guild, channel, false, false)];
    }
  }
}
