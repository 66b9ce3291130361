/**
 * The `Chat` component: its roster and message history, the frames it reacts
 * to, and the frames it sends.
 *
 * An inbound frame is text; `DecodeFrame` turns it into a `Frame` or the
 * reason the component would panic on it, `ApplyFrame` gives the new state,
 * and `Chat.Update` performs the same change on the object in place.
 */
module ChatComponent {
  import opened Wrappers
  import opened Json
  import opened Protocol
  import opened Profiles

  /** What the component is asked to do: handle inbound text, or send what was typed. */
  datatype Msg =
    | HandleMsg(text: string)
      /** `input` is the text of the input field, `None` when the field is not mounted. */
    | SubmitMessage(input: Option<string>)

  /** An inbound frame after decoding. */
  datatype Frame =
    | UsersFrame(names: seq<string>)
    | MessageFrame(message: MessageData)
    | RegisterFrame

  /** Why handling inbound text fails; in the component each of these is an `unwrap` panic. */
  datatype HandleError =
    | BadEnvelope(reason: DecodeError)
    | MissingMessageData
    | BadMessageData(reason: DecodeError)

  /** The two pieces of state the component keeps. */
  datatype ChatState = ChatState(users: seq<UserProfile>, messages: seq<MessageData>)

  /** A new state together with whether the view must be rendered again. */
  datatype Handled = Handled(state: ChatState, rerender: bool)

  /** The text of a JSON document as an envelope. */
  function DecodeEnvelopeText(s: string, parse: Parser): (r: Result<WebSocketMessage, DecodeError>)
    ensures parse(s).None? ==> r == Err(NotJson)
    ensures parse(s).Some? ==> r == DecodeEnvelope(parse(s).value)
  {
    match parse(s)
    case None => Err(NotJson)
    case Some(j) => DecodeEnvelope(j)
  }

  /** The text of a JSON document as a message payload. */
  function DecodeMessageDataText(s: string, parse: Parser): (r: Result<MessageData, DecodeError>)
    ensures parse(s).None? ==> r == Err(NotJson)
    ensures parse(s).Some? ==> r == DecodeMessageData(parse(s).value)
  {
    match parse(s)
    case None => Err(NotJson)
    case Some(j) => DecodeMessageData(j)
  }

  /**
   * Inbound text as a frame. A users frame without a name list has no names;
   * a message frame needs `data`, and `data` must hold a payload; the `data`
   * of a register frame and the names of a message frame are not looked at.
   */
  function DecodeFrame(s: string, parse: Parser): (r: Result<Frame, HandleError>)
    ensures r.Ok? ==> DecodeEnvelopeText(s, parse).Ok?
    ensures r.Ok? && r.value.UsersFrame? <==>
              DecodeEnvelopeText(s, parse).Ok? && DecodeEnvelopeText(s, parse).value.messageType == Users
    ensures r.Ok? && r.value.RegisterFrame? <==>
              DecodeEnvelopeText(s, parse).Ok? && DecodeEnvelopeText(s, parse).value.messageType == Register
    ensures DecodeEnvelopeText(s, parse).Err? ==> r == Err(BadEnvelope(DecodeEnvelopeText(s, parse).error))
    ensures DecodeEnvelopeText(s, parse).Ok? && DecodeEnvelopeText(s, parse).value.messageType == Users ==>
              r == Ok(UsersFrame(DecodeEnvelopeText(s, parse).value.dataArray.GetOr([])))
    ensures DecodeEnvelopeText(s, parse).Ok? && DecodeEnvelopeText(s, parse).value.messageType == Message &&
            DecodeEnvelopeText(s, parse).value.data.None? ==>
              r == Err(MissingMessageData)
    ensures DecodeEnvelopeText(s, parse).Ok? && DecodeEnvelopeText(s, parse).value.messageType == Message &&
            DecodeEnvelopeText(s, parse).value.data.Some? ==>
              var payload := DecodeMessageDataText(DecodeEnvelopeText(s, parse).value.data.value, parse);
              (payload.Ok? ==> r == Ok(MessageFrame(payload.value))) &&
              (payload.Err? ==> r == Err(BadMessageData(payload.error)))
  {
    match DecodeEnvelopeText(s, parse)
    case Err(e) => Err(BadEnvelope(e))
    case Ok(envelope) =>
      match envelope.messageType
      case Users => Ok(UsersFrame(envelope.dataArray.GetOr([])))
      case Message =>
        if envelope.data.None? then Err(MissingMessageData)
        else
          (match DecodeMessageDataText(envelope.data.value, parse)
           case Err(e) => Err(BadMessageData(e))
           case Ok(m) => Ok(MessageFrame(m)))
      case Register => Ok(RegisterFrame)
  }

  /**
   * The effect of one decoded frame: a users frame replaces the roster, a
   * message frame appends to the history, a register frame changes nothing.
   */
  function ApplyFrame(st: ChatState, f: Frame): (h: Handled)
    ensures h.rerender <==> !f.RegisterFrame?
    ensures !h.rerender ==> h.state == st
    ensures f.UsersFrame? ==> h.state.users == Roster(f.names) && h.state.messages == st.messages
    ensures f.MessageFrame? ==> h.state.users == st.users && h.state.messages == st.messages + [f.message]
  {
    match f
    case UsersFrame(names) => Handled(ChatState(Roster(names), st.messages), true)
    case MessageFrame(m) => Handled(ChatState(st.users, st.messages + [m]), true)
    case RegisterFrame => Handled(st, false)
  }

  /** The state after a run of frames, handled in arrival order. */
  function ApplyFrames(st: ChatState, fs: seq<Frame>): ChatState
    decreases |fs|
  {
    if fs == [] then st else ApplyFrames(ApplyFrame(st, fs[0]).state, fs[1..])
  }

  /** The payloads of the message frames of a run, in arrival order. */
  function MessagesIn(fs: seq<Frame>): (ms: seq<MessageData>)
    ensures |ms| <= |fs|
    ensures (forall i :: 0 <= i < |fs| ==> fs[i].MessageFrame?) ==> |ms| == |fs|
  {
    if fs == [] then []
    else if fs[0].MessageFrame? then [fs[0].message] + MessagesIn(fs[1..])
    else MessagesIn(fs[1..])
  }

  /** The roster the last users frame of a run installs, if the run has one. */
  function LastRoster(fs: seq<Frame>): Option<seq<UserProfile>>
  {
    if fs == [] then None
    else if fs[|fs| - 1].UsersFrame? then Some(Roster(fs[|fs| - 1].names))
    else LastRoster(fs[..|fs| - 1])
  }

  /** The history only grows: a run appends the payloads of its message frames, in order. */
  lemma {:induction false} HistoryAfterFrames(st: ChatState, fs: seq<Frame>)
    ensures ApplyFrames(st, fs).messages == st.messages + MessagesIn(fs)
    decreases |fs|
  {
    if fs != [] {
      HistoryAfterFrames(ApplyFrame(st, fs[0]).state, fs[1..]);
    }
  }

  lemma {:induction false} ApplyFramesSnoc(st: ChatState, fs: seq<Frame>, f: Frame)
    ensures ApplyFrames(st, fs + [f]) == ApplyFrame(ApplyFrames(st, fs), f).state
    decreases |fs|
  {
    if fs == [] {
      assert fs + [f] == [f];
    } else {
      assert (fs + [f])[1..] == fs[1..] + [f];
      ApplyFramesSnoc(ApplyFrame(st, fs[0]).state, fs[1..], f);
    }
  }

  /**
   * After a run the roster is the one the last users frame installed, whatever
   * the roster was before; with no users frame it is the roster before.
   */
  lemma {:induction false} RosterAfterFrames(st: ChatState, fs: seq<Frame>)
    ensures ApplyFrames(st, fs).users == LastRoster(fs).GetOr(st.users)
    decreases |fs|
  {
    if fs != [] {
      var init := fs[..|fs| - 1];
      assert fs == init + [fs[|fs| - 1]];
      ApplyFramesSnoc(st, init, fs[|fs| - 1]);
      RosterAfterFrames(st, init);
    }
  }

  /** A run of message frames alone leaves the roster and grows the history by one entry per frame. */
  lemma MessageRun(st: ChatState, fs: seq<Frame>)
    requires forall i :: 0 <= i < |fs| ==> fs[i].MessageFrame?
    ensures ApplyFrames(st, fs).users == st.users
    ensures |ApplyFrames(st, fs).messages| == |st.messages| + |fs|
  {
    HistoryAfterFrames(st, fs);
    RosterAfterFrames(st, fs);
    NoUsersFrameNoRoster(fs);
  }

  lemma {:induction false} NoUsersFrameNoRoster(fs: seq<Frame>)
    requires forall i :: 0 <= i < |fs| ==> !fs[i].UsersFrame?
    ensures LastRoster(fs) == None
    decreases |fs|
  {
    if fs != [] {
      NoUsersFrameNoRoster(fs[..|fs| - 1]);
    }
  }

  /** What one `update` call does to the state, what it returns and what it sends. */
  datatype Reply = Reply(state: ChatState, rerender: bool, sent: Option<WebSocketMessage>)

  /**
   * One call of `update`. Handling inbound text never sends anything;
   * submitting never changes the state and never asks for a new render.
   */
  function Step(st: ChatState, msg: Msg, parse: Parser): (r: Result<Reply, HandleError>)
    ensures msg.SubmitMessage? ==> r.Ok? && r.value.state == st && !r.value.rerender
    ensures msg.SubmitMessage? ==> (r.value.sent.Some? <==> msg.input.Some?)
    ensures msg.HandleMsg? && r.Ok? ==> r.value.sent.None?
    ensures msg.HandleMsg? ==> (r.Err? <==> DecodeFrame(msg.text, parse).Err?)
    ensures msg.HandleMsg? && DecodeFrame(msg.text, parse).Err? ==> r == Err(DecodeFrame(msg.text, parse).error)
    ensures msg.HandleMsg? && DecodeFrame(msg.text, parse).Ok? ==>
              var h := ApplyFrame(st, DecodeFrame(msg.text, parse).value);
              r == Ok(Reply(h.state, h.rerender, None))
    ensures msg.SubmitMessage? && msg.input.Some? ==>
              r.value.sent == Some(WebSocketMessage(Message, None, Some(msg.input.value)))
  {
    match msg
    case HandleMsg(s) =>
      (match DecodeFrame(s, parse)
       case Err(e) => Err(e)
       case Ok(f) =>
         var h := ApplyFrame(st, f);
         Ok(Reply(h.state, h.rerender, None)))
    case SubmitMessage(input) =>
      Ok(Reply(st, false, if input.Some? then Some(MessageEnvelope(input.value)) else None))
  }

  // ------------------------------------------------------ end-to-end frames

  /**
   * A users frame as the server writes it installs exactly those names,
   * whatever its `data` and whatever the earlier roster, and keeps the history.
   */
  lemma UsersFrameDecodes(s: string, parse: Parser, names: Option<seq<string>>, data: Option<string>, st: ChatState)
    requires parse(s) == Some(EncodeEnvelope(WebSocketMessage(Users, names, data)))
    ensures DecodeFrame(s, parse) == Ok(UsersFrame(names.GetOr([])))
    ensures Step(st, HandleMsg(s), parse) == Ok(Reply(ChatState(Roster(names.GetOr([])), st.messages), true, None))
  {
    EnvelopeRoundTrip(WebSocketMessage(Users, names, data));
  }

  /**
   * A message frame whose `data` holds a payload appends that payload,
   * whatever its name list, and keeps the roster.
   */
  lemma MessageFrameDecodes(s: string, t: string, parse: Parser, m: MessageData, names: Option<seq<string>>, st: ChatState)
    requires parse(s) == Some(EncodeEnvelope(WebSocketMessage(Message, names, Some(t))))
    requires parse(t) == Some(EncodeMessageData(m))
    ensures DecodeFrame(s, parse) == Ok(MessageFrame(m))
    ensures Step(st, HandleMsg(s), parse) == Ok(Reply(ChatState(st.users, st.messages + [m]), true, None))
  {
  }

  /** A message frame without `data` is a failure, whatever its name list. */
  lemma MessageWithoutDataFails(s: string, parse: Parser, names: Option<seq<string>>)
    requires parse(s) == Some(EncodeEnvelope(WebSocketMessage(Message, names, None)))
    ensures DecodeFrame(s, parse) == Err(MissingMessageData)
  {
  }

  /** A message frame whose `data` is not JSON, or lacks a field of the payload, is a failure. */
  lemma MessageWithBadPayloadFails(s: string, t: string, parse: Parser, names: Option<seq<string>>)
    requires parse(s) == Some(EncodeEnvelope(WebSocketMessage(Message, names, Some(t))))
    requires parse(t).None? || (parse(t).Some? && parse(t).value.JObject? &&
                                (FromKey !in parse(t).value.fields || MessageKey !in parse(t).value.fields))
    ensures DecodeFrame(s, parse).Err? && DecodeFrame(s, parse).error.BadMessageData?
  {
  }

  /** A register frame is accepted and ignored, whatever it carries. */
  lemma RegisterFrameIgnored(s: string, parse: Parser, st: ChatState, names: Option<seq<string>>, data: Option<string>)
    requires parse(s) == Some(EncodeEnvelope(WebSocketMessage(Register, names, data)))
    ensures Step(st, HandleMsg(s), parse) == Ok(Reply(st, false, None))
  {
  }

  /** An envelope whose message type is none of the three is a failure. */
  lemma UnknownTypeFails(s: string, parse: Parser, fields: map<string, Json>, tag: string)
    requires parse(s) == Some(JObject(fields))
    requires MessageTypeKey in fields && fields[MessageTypeKey] == JString(tag)
    requires tag != "users" && tag != "register" && tag != "message"
    ensures DecodeFrame(s, parse) == Err(BadEnvelope(UnknownVariant(tag)))
  {
  }

  /** The register frame sent on creation reads back, on the other side, as the username it carries. */
  lemma RegisterFrameRoundTrip(username: string)
    ensures DecodeEnvelope(EncodeEnvelope(RegisterEnvelope(username))) ==
              Ok(WebSocketMessage(Register, None, Some(username)))
  {
  }

  /** The frame sent on submit reads back, on the other side, as the typed text. */
  lemma SubmittedFrameRoundTrip(text: string)
    ensures DecodeEnvelope(EncodeEnvelope(MessageEnvelope(text))) ==
              Ok(WebSocketMessage(Message, None, Some(text)))
  {
  }

  // ------------------------------------------------------------ component

  /** The component object; its roster and history change in place. */
  class Chat {
    var users: seq<UserProfile>
    var messages: seq<MessageData>

    function State(): ChatState
      reads this
    {
      ChatState(users, messages)
    }

    constructor ()
      ensures users == [] && messages == []
    {
      users := [];
      messages := [];
    }

    /**
     * Creates the component for the given user and returns the register
     * frame it sends on creation.
     */
    static method Create(username: string) returns (chat: Chat, register: WebSocketMessage)
      ensures fresh(chat)
      ensures chat.users == [] && chat.messages == []
      ensures register.messageType == Register
      ensures register.data == Some(username) && register.dataArray == None
    {
      register := RegisterEnvelope(username);
      chat := new Chat();
    }

    /**
     * Handles one message. `r` is `Err` exactly where the component would
     * panic, and then nothing has changed; otherwise it holds the re-render
     * flag. `sent` is the frame handed to the socket, if any.
     */
    method Update(msg: Msg, parse: Parser) returns (r: Result<bool, HandleError>, sent: Option<WebSocketMessage>)
      modifies this
      ensures Step(old(State()), msg, parse).Err? ==>
                r == Err(Step(old(State()), msg, parse).error) && sent == None &&
                users == old(users) && messages == old(messages)
      ensures Step(old(State()), msg, parse).Ok? ==>
                var reply := Step(old(State()), msg, parse).value;
                r == Ok(reply.rerender) && sent == reply.sent && State() == reply.state
    {
      sent := None;
      match msg {
        case HandleMsg(s) =>
          match DecodeFrame(s, parse) {
            case Err(e) =>
              r := Err(e);
            case Ok(UsersFrame(names)) =>
              users := Roster(names);
              r := Ok(true);
            case Ok(MessageFrame(m)) =>
              messages := messages + [m];
              r := Ok(true);
            case Ok(RegisterFrame) =>
              r := Ok(false);
          }
        case SubmitMessage(input) =>
          if input.Some? {
            sent := Some(MessageEnvelope(input.value));
          }
          r := Ok(false);
      }
    }
  }
}
