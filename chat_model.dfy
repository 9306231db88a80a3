/**
 * The chat widget's connection state machine (`RealEstateChat` in chat-widget.js) as values:
 * a snapshot of the widget's fields, one step function per handler, and the facts that hold
 * across any sequence of events.  The class in module Chat is proved to follow these steps.
 */
module ChatModel {
  import opened Wrappers
  import opened JsText

  datatype Role = User | Bot

  /** One entry of the transcript; `addMessage(role, content)` appends one. */
  datatype ChatMessage = ChatMessage(role: Role, text: string)

  /** The WebSocket `readyState` values. */
  datatype ReadyState = Connecting | Open | Closing | Closed

  /** The transport handle held in `ws`: the address it was opened on and its `readyState`. */
  datatype Transport = Transport(url: string, readyState: ReadyState)

  /** What `ws.send(JSON.stringify({type, sessionKey, message}))` puts on the wire. */
  datatype Envelope = Envelope(kind: string, sessionKey: string, message: string)

  /** A decoded inbound payload: its `type` and its `text` and `message` members. */
  datatype Inbound = Inbound(kind: string, text: string, message: string)

  const DefaultGatewayUrl := "ws://localhost:18789"
  const GatewayParam := "gateway"
  const SessionKeyPrefix := "realtor-demo-"
  const TransportPath := "/ws"
  const ChatSendType := "chat.send"
  const Greeting := "Hi! I'm here to help you find the perfect home in Albuquerque. What brings you here today?"
  const ConnectionErrorText := "\U{274C} Connection error. Please try again."
  const ConnectFailedText := "\U{274C} Failed to connect. Make sure the gateway is running."
  const ConnectionLostText := "Connection lost. Please refresh the page."
  const InboundErrorPrefix := "Error: "

  /** `getGatewayUrl`: the `gateway` query parameter when present (even if empty), else the default. */
  function GatewayUrl(params: map<string, string>): (url: string)
    ensures GatewayParam in params ==> url == params[GatewayParam]
    ensures GatewayParam !in params ==> url == DefaultGatewayUrl
  {
    if GatewayParam in params then params[GatewayParam] else DefaultGatewayUrl
  }

  /**
   * The session key chosen by the constructor: the stored key unless it is missing or empty
   * (`||` treats "" as missing), otherwise the prefix followed by the clock reading.
   */
  function SessionKey(stored: Option<string>, now: int): (key: string)
    ensures key != ""
    ensures stored.Some? && stored.value != "" ==> key == stored.value
    ensures (stored.None? || stored.value == "") ==> key == SessionKeyPrefix + IntToString(now)
  {
    if stored.Some? && stored.value != "" then stored.value else SessionKeyPrefix + IntToString(now)
  }

  /**
   * The widget's fields.  `created` counts the transports constructed so far and `closed` the
   * close signals that released a held handle: they are instrumentation, not fields of the source.
   */
  datatype ChatState = ChatState(
    sessionKey: string,
    gatewayUrl: string,
    ws: Option<Transport>,
    isConnecting: bool,
    isWaitingForInput: bool,
    transcript: seq<ChatMessage>,
    outbox: seq<Envelope>,
    created: nat,
    closed: nat)

  function Initial(sessionKey: string, gatewayUrl: string): ChatState
  {
    ChatState(sessionKey, gatewayUrl, None, false, false, [], [], 0, 0)
  }

  predicate IsOpen(s: ChatState)
  {
    s.ws.Some? && s.ws.value.readyState == Open
  }

  /** Transports constructed and not yet closed. */
  function Live(s: ChatState): int
  {
    s.created - s.closed
  }

  /**
   * What every reachable state satisfies: the live transport, if any, is the one `ws` holds,
   * `isConnecting` is exactly "the held transport is still CONNECTING", and every envelope
   * sent is a `chat.send` carrying this widget's session key.
   */
  ghost predicate Inv(s: ChatState): (b: bool)
    ensures b ==> 0 <= Live(s) <= 1
    ensures b ==> (Live(s) == 1 <==> s.ws.Some?)
  {
    && s.created == s.closed + (if s.ws.Some? then 1 else 0)
    && (s.isConnecting <==> (s.ws.Some? && s.ws.value.readyState == Connecting))
    && (s.ws.Some? ==> s.ws.value.url == s.gatewayUrl + TransportPath)
    && (forall i :: 0 <= i < |s.outbox| ==>
          s.outbox[i].kind == ChatSendType && s.outbox[i].sessionKey == s.sessionKey)
  }

  function BotSays(text: string): ChatMessage { ChatMessage(Bot, text) }

  /**
   * `connect()`.  `constructorThrows` says whether `new WebSocket(url)` throws.
   */
  function ConnectStep(s: ChatState, constructorThrows: bool): (r: ChatState)
    ensures r.outbox == s.outbox && r.isWaitingForInput == s.isWaitingForInput
    ensures r.sessionKey == s.sessionKey && r.gatewayUrl == s.gatewayUrl && r.closed == s.closed
    ensures r.ws.Some? <==> s.ws.Some? || r.created == s.created + 1
    ensures r.transcript == s.transcript || r.transcript == s.transcript + [BotSays(ConnectFailedText)]
  {
    if s.isConnecting || s.ws.Some? then s
    else if constructorThrows then
      s.(isConnecting := false, transcript := s.transcript + [BotSays(ConnectFailedText)])
    else
      s.(isConnecting := true,
         ws := Some(Transport(s.gatewayUrl + TransportPath, Connecting)),
         created := s.created + 1)
  }

  /** The `onopen` handler; the browser has set `readyState` to OPEN before it runs. */
  function OpenStep(s: ChatState): (r: ChatState)
    ensures r.ws.Some? <==> s.ws.Some?
    ensures s.ws.Some? ==> IsOpen(r) && r.ws.value.url == s.ws.value.url
    ensures !r.isConnecting && r.isWaitingForInput
    ensures r.outbox == s.outbox && r.created == s.created && r.closed == s.closed
  {
    s.(ws := if s.ws.Some? then Some(s.ws.value.(readyState := Open)) else None,
       isConnecting := false,
       transcript := s.transcript + [BotSays(Greeting)],
       isWaitingForInput := true)
  }

  /** `handleMessage(data)`, run by the `onmessage` handler on the decoded payload. */
  function MessageStep(s: ChatState, data: Inbound): (r: ChatState)
    ensures r.ws == s.ws && r.isConnecting == s.isConnecting && r.outbox == s.outbox
    ensures r.created == s.created && r.closed == s.closed
    ensures |r.transcript| <= |s.transcript| + 1 && s.transcript <= r.transcript
    ensures r.isWaitingForInput <==> s.isWaitingForInput || data.kind == "chat"
  {
    if data.kind == "chat" then
      s.(transcript := s.transcript + [BotSays(data.text)], isWaitingForInput := true)
    else if data.kind == "error" then
      s.(transcript := s.transcript + [BotSays(InboundErrorPrefix + data.message)])
    else s
  }

  /**
   * The `onerror` handler.  The handle stays in `ws`; the browser has moved its
   * `readyState` to CLOSED before the error event is dispatched.
   */
  function ErrorStep(s: ChatState): (r: ChatState)
    ensures r.ws.Some? <==> s.ws.Some?
    ensures s.ws.Some? ==> r.ws.value.url == s.ws.value.url && r.ws.value.readyState == Closed
    ensures !IsOpen(r) && !r.isConnecting
    ensures r.outbox == s.outbox && r.created == s.created && r.closed == s.closed
  {
    s.(ws := if s.ws.Some? then Some(s.ws.value.(readyState := Closed)) else None,
       isConnecting := false,
       transcript := s.transcript + [BotSays(ConnectionErrorText)])
  }

  /** The `onclose` handler: releases the handle from whatever state the widget was in. */
  function CloseStep(s: ChatState): (r: ChatState)
    ensures r.ws.None? && !r.isConnecting
    ensures Inv(s) ==> Inv(r) && Live(r) == 0
    ensures r.transcript == s.transcript && r.outbox == s.outbox && r.created == s.created
  {
    s.(isConnecting := false,
       ws := None,
       closed := s.closed + (if s.ws.Some? then 1 else 0))
  }

  /**
   * The browser's move of an OPEN transport to CLOSING when the server starts the closing
   * handshake.  No handler runs; only the handle's `readyState` changes, until `onclose`.
   */
  function ClosingStep(s: ChatState): (r: ChatState)
    ensures IsOpen(s) ==>
      r.ws.Some? && r.ws.value.url == s.ws.value.url && r.ws.value.readyState == Closing
    ensures !IsOpen(s) ==> r == s
    ensures !IsOpen(r)
    ensures r.(ws := s.ws) == s
  {
    if IsOpen(s) then s.(ws := Some(s.ws.value.(readyState := Closing))) else s
  }

  /** `sendMessage()` with `raw` the input field's value. */
  function SendStep(s: ChatState, raw: string, constructorThrows: bool): (r: ChatState)
    ensures Trim(raw) == [] ==> r == s
    ensures Trim(raw) != [] ==>
      (|r.transcript| > |s.transcript|
       && r.transcript[..|s.transcript| + 1] == s.transcript + [ChatMessage(User, Trim(raw))])
    ensures r.outbox == s.outbox
      || (IsOpen(s) && r.outbox == s.outbox + [Envelope(ChatSendType, s.sessionKey, Trim(raw))])
  {
    var message := Trim(raw);
    if message == [] then s
    else
      var s1 := s.(transcript := s.transcript + [ChatMessage(User, message)]);
      if IsOpen(s) then
        s1.(outbox := s1.outbox + [Envelope(ChatSendType, s.sessionKey, message)])
      else
        ConnectStep(s1.(transcript := s1.transcript + [BotSays(ConnectionLostText)]), constructorThrows)
  }

  /** The discrete events the widget reacts to. */
  datatype Event =
    | ConnectCall(constructorThrows: bool)
    | TransportOpen
    | TransportMessage(data: Inbound)
    | TransportError
    | TransportClosing
    | TransportClose
    | SendCall(raw: string, constructorThrows: bool)

  function Step(s: ChatState, e: Event): ChatState
  {
    match e
    case ConnectCall(t) => ConnectStep(s, t)
    case TransportOpen => OpenStep(s)
    case TransportMessage(data) => MessageStep(s, data)
    case TransportError => ErrorStep(s)
    case TransportClosing => ClosingStep(s)
    case TransportClose => CloseStep(s)
    case SendCall(raw, t) => SendStep(s, raw, t)
  }

  function Run(s: ChatState, events: seq<Event>): ChatState
    decreases |events|
  {
    if events == [] then s else Run(Step(s, events[0]), events[1..])
  }

  // ---------------------------------------------------------------------------------------
  // connect()

  /** While connecting, or while any handle is held, `connect()` changes nothing at all. */
  lemma ConnectIsNoOpWhenBusy(s: ChatState, constructorThrows: bool)
    requires s.isConnecting || s.ws.Some?
    ensures ConnectStep(s, constructorThrows) == s
  {
  }

  /**
   * A transport is constructed only from a state without one, and exactly one: the widget
   * then holds a CONNECTING handle on the gateway's `/ws` path, with the transcript untouched.
   */
  lemma ConnectCreatesOneTransportFromNull(s: ChatState, constructorThrows: bool)
    ensures var r := ConnectStep(s, constructorThrows);
      && r.created <= s.created + 1
      && (r.created == s.created + 1 <==> !s.isConnecting && s.ws.None? && !constructorThrows)
      && (r.created == s.created + 1 ==>
            r.ws == Some(Transport(s.gatewayUrl + TransportPath, Connecting))
            && r.isConnecting && r.transcript == s.transcript && r.outbox == s.outbox)
  {
  }

  /** A throwing constructor leaves no handle, clears the flag and reports exactly one bot message. */
  lemma ConnectFailureReported(s: ChatState)
    requires !s.isConnecting && s.ws.None?
    ensures var r := ConnectStep(s, true);
      && r.ws.None? && !r.isConnecting
      && r.transcript == s.transcript + [BotSays(ConnectFailedText)]
      && r.created == s.created && r.outbox == s.outbox
      && r.isWaitingForInput == s.isWaitingForInput
  {
  }

  /** Repeated `connect()` calls after one that constructed a transport add nothing. */
  lemma ConnectIdempotent(s: ChatState, first: bool, second: bool)
    ensures ConnectStep(s, first).ws.Some? ==>
      ConnectStep(ConnectStep(s, first), second) == ConnectStep(s, first)
  {
  }

  // ---------------------------------------------------------------------------------------
  // Transport signals

  /** The open signal clears the flag, greets once and marks the widget as waiting for input. */
  lemma OpenGreetsOnce(s: ChatState)
    requires Inv(s) && s.isConnecting
    ensures var r := OpenStep(s);
      && !r.isConnecting && r.isWaitingForInput && IsOpen(r)
      && r.transcript == s.transcript + [BotSays(Greeting)]
      && r.outbox == s.outbox && r.created == s.created && r.closed == s.closed
  {
  }

  /**
   * After an error the handle is kept and is not OPEN, so `connect()` stays a no-op and a send
   * emits no envelope, until the close signal arrives.
   */
  lemma ErrorKeepsHandleUntilClose(s: ChatState, raw: string, t1: bool, t2: bool)
    requires s.ws.Some?
    ensures var r := ErrorStep(s);
      && r.ws.Some? && !IsOpen(r) && !r.isConnecting
      && r.transcript == s.transcript + [BotSays(ConnectionErrorText)]
      && ConnectStep(r, t1) == r
      && SendStep(r, raw, t2).outbox == r.outbox
      && SendStep(r, raw, t2).created == r.created
  {
  }

  /**
   * A send after the server started the closing handshake but before `onclose` finds the handle
   * not OPEN: no envelope, the user entry and "Connection lost", and `connect()` is a no-op
   * because the handle is still held.
   */
  lemma ClosingHandshakeBlocksSend(s: ChatState, raw: string, constructorThrows: bool)
    requires IsOpen(s) && !AllWhitespace(raw)
    ensures var c := ClosingStep(s);
      var r := SendStep(c, raw, constructorThrows);
      && r.outbox == s.outbox && r.ws == c.ws && r.created == s.created
      && r.transcript == s.transcript + [ChatMessage(User, Trim(raw)), BotSays(ConnectionLostText)]
  {
    SendWhileNotOpen(ClosingStep(s), raw, constructorThrows);
  }

  /**
   * Along any run without a close signal, a held handle stays held and no transport is
   * constructed: `connect()` remains a no-op however many times it is called.
   */
  lemma {:induction false} HandleHeldUntilClose(s: ChatState, events: seq<Event>)
    requires s.ws.Some?
    requires forall i :: 0 <= i < |events| ==> !events[i].TransportClose?
    ensures Run(s, events).ws.Some? && Run(s, events).created == s.created
    ensures forall t :: ConnectStep(Run(s, events), t) == Run(s, events)
    decreases |events|
  {
    if events != [] {
      var s1 := Step(s, events[0]);
      if events[0].SendCall? && Trim(events[0].raw) != [] && !IsOpen(s) {
        var lost := s.(transcript := s.transcript + [ChatMessage(User, Trim(events[0].raw))]
                                                  + [BotSays(ConnectionLostText)]);
        assert s1 == ConnectStep(lost, events[0].constructorThrows);
      }
      assert s1.ws.Some? && s1.created == s.created;
      HandleHeldUntilClose(s1, events[1..]);
    }
  }

  /** Close returns the widget to idle from any state, after which `connect()` constructs again. */
  lemma CloseReenablesConnect(s: ChatState)
    ensures var r := CloseStep(s);
      && r.ws.None? && !r.isConnecting
      && r.transcript == s.transcript && r.outbox == s.outbox
      && ConnectStep(r, false).created == r.created + 1
      && ConnectStep(r, false).ws.Some?
  {
  }

  /** Inbound "chat" and "error" payloads each add one bot entry; any other type changes nothing. */
  lemma MessageHandling(s: ChatState, data: Inbound)
    ensures var r := MessageStep(s, data);
      && r.ws == s.ws && r.isConnecting == s.isConnecting && r.outbox == s.outbox
      && (data.kind == "chat" ==>
            r.transcript == s.transcript + [BotSays(data.text)] && r.isWaitingForInput)
      && (data.kind == "error" ==>
            r.transcript == s.transcript + [BotSays(InboundErrorPrefix + data.message)]
            && r.isWaitingForInput == s.isWaitingForInput)
      && (data.kind != "chat" && data.kind != "error" ==> r == s)
  {
  }

  // ---------------------------------------------------------------------------------------
  // sendMessage()

  /** Input that trims to nothing (whitespace only, or empty) changes nothing. */
  lemma SendBlankIsIgnored(s: ChatState, raw: string, constructorThrows: bool)
    requires AllWhitespace(raw)
    ensures SendStep(s, raw, constructorThrows) == s
  {
    TrimEmptyIffAllWhitespace(raw);
  }

  /** While OPEN: the trimmed user entry, then exactly one `chat.send` envelope, no bot entry. */
  lemma SendWhileOpen(s: ChatState, raw: string, constructorThrows: bool)
    requires IsOpen(s) && !AllWhitespace(raw)
    ensures var r := SendStep(s, raw, constructorThrows);
      && r.transcript == s.transcript + [ChatMessage(User, Trim(raw))]
      && r.outbox == s.outbox + [Envelope(ChatSendType, s.sessionKey, Trim(raw))]
      && r.ws == s.ws && r.isConnecting == s.isConnecting && r.created == s.created
  {
    TrimEmptyIffAllWhitespace(raw);
  }

  /**
   * While not OPEN: no envelope; the user entry then "Connection lost" are appended, and
   * `connect()` runs, which constructs a transport only when no handle is held.
   */
  lemma SendWhileNotOpen(s: ChatState, raw: string, constructorThrows: bool)
    requires !IsOpen(s) && !AllWhitespace(raw)
    ensures var r := SendStep(s, raw, constructorThrows);
      var lost := s.(transcript := s.transcript + [ChatMessage(User, Trim(raw)), BotSays(ConnectionLostText)]);
      && r.outbox == s.outbox
      && r == ConnectStep(lost, constructorThrows)
      && r.transcript[..|s.transcript| + 2] == lost.transcript
      && (s.ws.Some? || s.isConnecting ==> r == lost)
  {
    TrimEmptyIffAllWhitespace(raw);
    var s1 := s.(transcript := s.transcript + [ChatMessage(User, Trim(raw))]);
    var lost := s.(transcript := s.transcript + [ChatMessage(User, Trim(raw)), BotSays(ConnectionLostText)]);
    assert s1.transcript + [BotSays(ConnectionLostText)] == lost.transcript;
  }

  // ---------------------------------------------------------------------------------------
  // Whole runs

  lemma StepPreservesInv(s: ChatState, e: Event)
    requires Inv(s)
    ensures Inv(Step(s, e))
  {
    if e.SendCall? {
      var message := Trim(e.raw);
      if message != [] && IsOpen(s) {
        var r := Step(s, e);
        assert r.outbox == s.outbox + [Envelope(ChatSendType, s.sessionKey, message)];
      }
    }
  }

  /** From any state satisfying the invariant, every run keeps it: never two live transports. */
  lemma {:induction false} RunPreservesInv(s: ChatState, events: seq<Event>)
    requires Inv(s)
    ensures Inv(Run(s, events))
    ensures 0 <= Live(Run(s, events)) <= 1
    decreases |events|
  {
    if events != [] {
      StepPreservesInv(s, events[0]);
      RunPreservesInv(Step(s, events[0]), events[1..]);
    }
  }

  /**
   * One step appends to the transcript and the outbox and never rewrites them; the session
   * key and gateway are never changed; the waiting-for-input flag, once set, stays set.
   */
  lemma StepAppendOnly(s: ChatState, e: Event)
    ensures var r := Step(s, e);
      && s.transcript <= r.transcript && s.outbox <= r.outbox
      && r.sessionKey == s.sessionKey && r.gatewayUrl == s.gatewayUrl
      && (s.isWaitingForInput ==> r.isWaitingForInput)
  {
    match e
    case SendCall(raw, t) => SendAppendOnly(s, raw, t);
    case ConnectCall(t) =>
    case TransportOpen =>
    case TransportMessage(data) =>
    case TransportError =>
    case TransportClosing =>
    case TransportClose =>
  }

  lemma SendAppendOnly(s: ChatState, raw: string, constructorThrows: bool)
    ensures var r := SendStep(s, raw, constructorThrows);
      && s.transcript <= r.transcript && s.outbox <= r.outbox
      && r.sessionKey == s.sessionKey && r.gatewayUrl == s.gatewayUrl
      && (s.isWaitingForInput ==> r.isWaitingForInput)
  {
    var message := Trim(raw);
    if message != [] && !IsOpen(s) {
      var lost := s.(transcript := s.transcript + [ChatMessage(User, message)] + [BotSays(ConnectionLostText)]);
      assert s.transcript <= lost.transcript;
      assert SendStep(s, raw, constructorThrows) == ConnectStep(lost, constructorThrows);
    }
  }

  lemma {:induction false} RunAppendOnly(s: ChatState, events: seq<Event>)
    ensures var r := Run(s, events);
      && s.transcript <= r.transcript && s.outbox <= r.outbox
      && r.sessionKey == s.sessionKey && r.gatewayUrl == s.gatewayUrl
      && (s.isWaitingForInput ==> r.isWaitingForInput)
    decreases |events|
  {
    if events != [] {
      StepAppendOnly(s, events[0]);
      RunAppendOnly(Step(s, events[0]), events[1..]);
    }
  }

  /** An envelope is emitted only by a send while OPEN, and it carries the trimmed text. */
  lemma EnvelopeOnlyFromOpenSend(s: ChatState, e: Event)
    requires Step(s, e).outbox != s.outbox
    ensures e.SendCall? && IsOpen(s)
    ensures Step(s, e).outbox == s.outbox + [Envelope(ChatSendType, s.sessionKey, Trim(e.raw))]
  {
  }
}
