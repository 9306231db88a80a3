/**
 * `RealEstateChat` from chat-widget.js as a class: the fields the handlers mutate, and one
 * method per handler, each proved to take the widget to the state the matching step function
 * of ChatModel gives.  The transcript stands for the `addMessage` calls (the DOM they write)
 * and the outbox for the `ws.send` calls.
 */
module Chat {
  import opened Wrappers
  import opened JsText
  import opened ChatModel

  class RealEstateChat {
    const sessionKey: string
    const gatewayUrl: string
    var ws: Option<Transport>
    var isConnecting: bool
    var isWaitingForInput: bool
    var transcript: seq<ChatMessage>
    var outbox: seq<Envelope>
    // Transports constructed, and close signals that released a held handle (instrumentation).
    ghost var created: nat
    ghost var closed: nat

    ghost function State(): ChatState
      reads this
    {
      ChatState(sessionKey, gatewayUrl, ws, isConnecting, isWaitingForInput,
                transcript, outbox, created, closed)
    }

    ghost predicate Valid()
      reads this
    {
      Inv(State())
    }

    /**
     * The widget as constructed on page load: the stored session key (or a fresh one from the
     * clock), the gateway from the page's query parameters, no transport, empty transcript.
     */
    constructor (storedSessionKey: Option<string>, now: int, query: map<string, string>)
      ensures Valid()
      ensures State() == Initial(SessionKey(storedSessionKey, now), GatewayUrl(query))
    {
      sessionKey := SessionKey(storedSessionKey, now);
      gatewayUrl := GatewayUrl(query);
      ws := None;
      isConnecting := false;
      isWaitingForInput := false;
      transcript := [];
      outbox := [];
      created := 0;
      closed := 0;
    }

    /** `addMessage(role, content)`: appends one entry to the transcript and touches nothing else. */
    method AddMessage(role: Role, content: string)
      modifies this`transcript
      ensures transcript == old(transcript) + [ChatMessage(role, content)]
    {
      transcript := transcript + [ChatMessage(role, content)];
    }

    /** `openChat()`: reveals the widget (not modelled) and calls `connect()`. */
    method OpenChat(constructorThrows: bool)
      requires Valid()
      modifies this
      ensures Valid()
      ensures State() == ConnectStep(old(State()), constructorThrows)
    {
      Connect(constructorThrows);
    }

    /** `closeChat()`: only hides the widget; the connection and every field are left as they are. */
    method CloseChat()
      requires Valid()
      ensures Valid()
      ensures State() == old(State())
    {
    }

    /** `connect()`; `constructorThrows` is whether `new WebSocket(...)` throws. */
    method Connect(constructorThrows: bool)
      requires Valid()
      modifies this
      ensures Valid()
      ensures State() == ConnectStep(old(State()), constructorThrows)
    {
      if isConnecting || ws.Some? {
        return;
      }
      isConnecting := true;
      if constructorThrows {
        isConnecting := false;
        AddMessage(Bot, ConnectFailedText);
      } else {
        ws := Some(Transport(gatewayUrl + TransportPath, Connecting));
        created := created + 1;
      }
    }

    /** The transport's `onopen` handler (the browser has already set `readyState` to OPEN). */
    method OnOpen()
      requires Valid()
      modifies this
      ensures Valid()
      ensures State() == OpenStep(old(State()))
    {
      if ws.Some? {
        ws := Some(ws.value.(readyState := Open));
      }
      isConnecting := false;
      AddMessage(Bot, Greeting);
      isWaitingForInput := true;
    }

    /** The transport's `onmessage` handler, given the already decoded payload. */
    method OnMessage(data: Inbound)
      requires Valid()
      modifies this
      ensures Valid()
      ensures State() == MessageStep(old(State()), data)
    {
      HandleMessage(data);
    }

    /** The transport's `onerror` handler (the browser has already set `readyState` to CLOSED). */
    method OnError()
      requires Valid()
      modifies this
      ensures Valid()
      ensures State() == ErrorStep(old(State()))
    {
      if ws.Some? {
        ws := Some(ws.value.(readyState := Closed));
      }
      isConnecting := false;
      AddMessage(Bot, ConnectionErrorText);
    }

    /**
     * The browser moving an OPEN transport to CLOSING when the server starts the closing
     * handshake; the widget has no handler for it, so only the handle's `readyState` changes.
     */
    method OnClosingHandshake()
      requires Valid()
      modifies this`ws
      ensures Valid()
      ensures State() == ClosingStep(old(State()))
    {
      if ws.Some? && ws.value.readyState == Open {
        ws := Some(ws.value.(readyState := Closing));
      }
    }

    /** The transport's `onclose` handler. */
    method OnClose()
      requires Valid()
      modifies this
      ensures Valid()
      ensures State() == CloseStep(old(State()))
    {
      if ws.Some? {
        closed := closed + 1;
      }
      isConnecting := false;
      ws := None;
    }

    /** `sendMessage()`, where `raw` is the input field's value when the user submits. */
    method SendMessage(raw: string, constructorThrows: bool)
      requires Valid()
      modifies this
      ensures Valid()
      ensures State() == SendStep(old(State()), raw, constructorThrows)
    {
      var message := Trim(raw);
      if message == [] {
        return;
      }
      AddMessage(User, message);
      if ws.Some? && ws.value.readyState == Open {
        outbox := outbox + [Envelope(ChatSendType, sessionKey, message)];
      } else {
        AddMessage(Bot, ConnectionLostText);
        Connect(constructorThrows);
      }
    }

    /** `handleMessage(data)`. */
    method HandleMessage(data: Inbound)
      requires Valid()
      modifies this
      ensures Valid()
      ensures State() == MessageStep(old(State()), data)
    {
      if data.kind == "chat" {
        AddMessage(Bot, data.text);
        isWaitingForInput := true;
      } else if data.kind == "error" {
        AddMessage(Bot, InboundErrorPrefix + data.message);
      }
    }
  }

  /** Opening the widget and the transport opening: one greeting, waiting for input. */
  method ScenarioOpen(storedSessionKey: Option<string>, now: int, query: map<string, string>)
  {
    var chat := new RealEstateChat(storedSessionKey, now, query);
    chat.Connect(false);
    chat.Connect(false);
    assert chat.created == 1;
    chat.OnOpen();
    assert chat.transcript == [ChatMessage(Bot, Greeting)] && chat.isWaitingForInput;
  }

  /** A send of "3 bedrooms" while OPEN emits exactly one envelope carrying the session key. */
  method ScenarioSendWhileOpen(chat: RealEstateChat)
    requires chat.Valid() && IsOpen(chat.State())
    modifies chat
  {
    ghost var before := chat.State();
    assert Trim("3 bedrooms") == "3 bedrooms" by {
      assert SkipForward("3 bedrooms", 0) == 0;
      assert SkipBackward("3 bedrooms", 0, 10) == 10;
    }
    chat.SendMessage("3 bedrooms", false);
    SendWhileOpen(before, "3 bedrooms", false);
    assert chat.outbox == before.outbox + [Envelope("chat.send", chat.sessionKey, "3 bedrooms")];
    assert chat.transcript == before.transcript + [ChatMessage(User, "3 bedrooms")];
  }

  /** After the close signal, a send of "hello" emits nothing and starts a new connection attempt. */
  method ScenarioSendAfterClose(chat: RealEstateChat)
    requires chat.Valid()
    modifies chat
  {
    chat.OnClose();
    ghost var closedState := chat.State();
    assert Trim("hello") == "hello" by {
      assert SkipForward("hello", 0) == 0;
      assert SkipBackward("hello", 0, 5) == 5;
    }
    chat.SendMessage("hello", false);
    SendWhileNotOpen(closedState, "hello", false);
    assert chat.outbox == closedState.outbox;
    assert chat.transcript == closedState.transcript
      + [ChatMessage(User, "hello"), ChatMessage(Bot, ConnectionLostText)];
    assert chat.isConnecting && chat.created == closedState.created + 1;
  }
}
