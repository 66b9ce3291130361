/**
 * The wire protocol of the chat: the `WebSocketMessage` envelope, its
 * message-type tag and the nested `MessageData` payload of a message frame,
 * together with the JSON shape serde's derived (de)serialisers give them.
 */
module Protocol {
  import opened Wrappers
  import opened Json

  /** The three frame kinds. */
  datatype MsgTypes = Users | Register | Message

  /** The envelope of every frame. An absent optional field is `None`. */
  datatype WebSocketMessage = WebSocketMessage(
    messageType: MsgTypes,
    dataArray: Option<seq<string>>,
    data: Option<string>)

  /** The payload carried, as JSON text, in the `data` of a message frame. */
  datatype MessageData = MessageData(from: string, message: string)

  /** Why a JSON value is not the expected envelope or payload. */
  datatype DecodeError =
    | NotJson
    | NotAnObject
    | MissingField(field: string)
    | InvalidType(field: string)
    | UnknownVariant(tag: string)

  // Field names on the wire: the Rust field names in camelCase.
  const MessageTypeKey := "messageType"
  const DataArrayKey := "dataArray"
  const DataKey := "data"
  const FromKey := "from"
  const MessageKey := "message"

  /** The wire name of a message type: the variant name in lower case. */
  function TypeTag(t: MsgTypes): (tag: string)
    ensures |tag| > 0 && forall i :: 0 <= i < |tag| ==> 'a' <= tag[i] <= 'z'
  {
    match t
    case Users => "users"
    case Register => "register"
    case Message => "message"
  }

  /** Reads a wire name back; matching is exact, so "Users" is rejected. */
  function ParseTypeTag(tag: string): (r: Option<MsgTypes>)
    ensures forall t :: r == Some(t) <==> TypeTag(t) == tag
  {
    if tag == "users" then Some(Users)
    else if tag == "register" then Some(Register)
    else if tag == "message" then Some(Message)
    else None
  }

  /** The outbound frame sent when the component is created, and the JSON value it is written as. */
  function RegisterEnvelope(username: string): (m: WebSocketMessage)
    ensures EncodeEnvelope(m) ==
              JObject(map[MessageTypeKey := JString("register"), DataArrayKey := JNull, DataKey := JString(username)])
  {
    WebSocketMessage(Register, None, Some(username))
  }

  /** The outbound frame sent when the user submits the typed text, and the JSON value it is written as. */
  function MessageEnvelope(text: string): (m: WebSocketMessage)
    ensures EncodeEnvelope(m) ==
              JObject(map[MessageTypeKey := JString("message"), DataArrayKey := JNull, DataKey := JString(text)])
  {
    WebSocketMessage(Message, None, Some(text))
  }

  // ---------------------------------------------------------------- strings

  function StringsToJson(xs: seq<string>): (r: seq<Json>)
    ensures |r| == |xs|
    ensures forall i :: 0 <= i < |xs| ==> r[i] == JString(xs[i])
  {
    if xs == [] then [] else [JString(xs[0])] + StringsToJson(xs[1..])
  }

  /** A JSON array as a list of strings; `None` as soon as one item is not a string. */
  function DecodeStrings(items: seq<Json>): (r: Option<seq<string>>)
    ensures r.Some? <==> forall i :: 0 <= i < |items| ==> items[i].JString?
    ensures r.Some? ==> |r.value| == |items|
    ensures r.Some? ==> forall i :: 0 <= i < |items| ==> items[i] == JString(r.value[i])
  {
    if items == [] then Some([])
    else if !items[0].JString? then None
    else
      match DecodeStrings(items[1..])
      case None => None
      case Some(rest) => Some([items[0].s] + rest)
  }

  lemma StringsRoundTrip(xs: seq<string>)
    ensures DecodeStrings(StringsToJson(xs)) == Some(xs)
  {
    var r := DecodeStrings(StringsToJson(xs));
    assert r.Some?;
    assert |r.value| == |xs|;
    forall i | 0 <= i < |xs| ensures r.value[i] == xs[i] {
      assert StringsToJson(xs)[i] == JString(r.value[i]);
    }
    assert r.value == xs;
  }

  // ------------------------------------------------------------- fields

  /** An `Option<Vec<String>>` field: absent or null is `None`. */
  function DecodeOptionalStrings(fields: map<string, Json>, key: string): (r: Result<Option<seq<string>>, DecodeError>)
    ensures r.Ok? && r.value.None? <==> key !in fields || fields[key] == JNull
    ensures r.Ok? && r.value.Some? ==> key in fields && fields[key] == JArray(StringsToJson(r.value.value))
    ensures r.Err? <==> key in fields && !fields[key].JNull? &&
                        !(fields[key].JArray? && forall i :: 0 <= i < |fields[key].items| ==> fields[key].items[i].JString?)
  {
    if key !in fields || fields[key].JNull? then Ok(None)
    else if !fields[key].JArray? then Err(InvalidType(key))
    else
      match DecodeStrings(fields[key].items)
      case None => Err(InvalidType(key))
      case Some(xs) =>
        assert fields[key].items == StringsToJson(xs);
        Ok(Some(xs))
  }

  /** An `Option<String>` field: absent or null is `None`. */
  function DecodeOptionalString(fields: map<string, Json>, key: string): (r: Result<Option<string>, DecodeError>)
    ensures r.Ok? && r.value.None? <==> key !in fields || fields[key] == JNull
    ensures r.Ok? && r.value.Some? ==> key in fields && fields[key] == JString(r.value.value)
    ensures key in fields && fields[key].JString? ==> r == Ok(Some(fields[key].s))
    ensures r.Err? <==> key in fields && !fields[key].JNull? && !fields[key].JString?
  {
    if key !in fields || fields[key].JNull? then Ok(None)
    else if fields[key].JString? then Ok(Some(fields[key].s))
    else Err(InvalidType(key))
  }

  /** A `String` field: it must be there and be a string. */
  function DecodeRequiredString(fields: map<string, Json>, key: string): (r: Result<string, DecodeError>)
    ensures r.Ok? <==> key in fields && fields[key].JString?
    ensures r.Ok? ==> fields[key] == JString(r.value)
    ensures r == Err(MissingField(key)) <==> key !in fields
  {
    if key !in fields then Err(MissingField(key))
    else if fields[key].JString? then Ok(fields[key].s)
    else Err(InvalidType(key))
  }

  function OptionalStringsToJson(o: Option<seq<string>>): Json
  {
    match o
    case None => JNull
    case Some(xs) => JArray(StringsToJson(xs))
  }

  function OptionalStringToJson(o: Option<string>): Json
  {
    match o
    case None => JNull
    case Some(x) => JString(x)
  }

  // ------------------------------------------------------------- envelope

  /** The JSON value serde writes for an envelope; `None` is written as null, not omitted. */
  function EncodeEnvelope(m: WebSocketMessage): (j: Json)
    ensures j.JObject? && j.fields.Keys == {MessageTypeKey, DataArrayKey, DataKey}
  {
    JObject(map[
      MessageTypeKey := JString(TypeTag(m.messageType)),
      DataArrayKey := OptionalStringsToJson(m.dataArray),
      DataKey := OptionalStringToJson(m.data)])
  }

  /**
   * The envelope a JSON value denotes. Keys other than the three are ignored;
   * a missing or unknown message type is an error.
   */
  function DecodeEnvelope(j: Json): (r: Result<WebSocketMessage, DecodeError>)
    ensures r.Ok? ==> j.JObject? && MessageTypeKey in j.fields
    ensures r.Ok? ==> j.fields[MessageTypeKey] == JString(TypeTag(r.value.messageType))
    ensures r.Ok? ==> DecodeOptionalStrings(j.fields, DataArrayKey) == Ok(r.value.dataArray)
    ensures r.Ok? ==> DecodeOptionalString(j.fields, DataKey) == Ok(r.value.data)
    ensures r.Ok? <==> j.JObject? && MessageTypeKey in j.fields && j.fields[MessageTypeKey].JString? &&
                       ParseTypeTag(j.fields[MessageTypeKey].s).Some? &&
                       DecodeOptionalStrings(j.fields, DataArrayKey).Ok? &&
                       DecodeOptionalString(j.fields, DataKey).Ok?
    ensures j.JObject? && MessageTypeKey in j.fields && j.fields[MessageTypeKey].JString? &&
            ParseTypeTag(j.fields[MessageTypeKey].s).None? ==>
              r == Err(UnknownVariant(j.fields[MessageTypeKey].s))
  {
    if !j.JObject? then Err(NotAnObject)
    else
      var fields := j.fields;
      if MessageTypeKey !in fields then Err(MissingField(MessageTypeKey))
      else if !fields[MessageTypeKey].JString? then Err(InvalidType(MessageTypeKey))
      else
        match ParseTypeTag(fields[MessageTypeKey].s)
        case None => Err(UnknownVariant(fields[MessageTypeKey].s))
        case Some(t) =>
          match DecodeOptionalStrings(fields, DataArrayKey)
          case Err(e) => Err(e)
          case Ok(dataArray) =>
            match DecodeOptionalString(fields, DataKey)
            case Err(e) => Err(e)
            case Ok(data) => Ok(WebSocketMessage(t, dataArray, data))
  }

  /** Decoding is a left inverse of encoding for every envelope. */
  lemma EnvelopeRoundTrip(m: WebSocketMessage)
    ensures DecodeEnvelope(EncodeEnvelope(m)) == Ok(m)
  {
    var fields := EncodeEnvelope(m).fields;
    assert ParseTypeTag(TypeTag(m.messageType)) == Some(m.messageType);
    match m.dataArray {
      case None =>
      case Some(xs) =>
        StringsRoundTrip(xs);
        assert DecodeOptionalStrings(fields, DataArrayKey) == Ok(Some(xs));
    }
  }

  /** An envelope that leaves out both optional keys decodes with both fields `None`. */
  lemma EnvelopeWithoutOptionalKeys(t: MsgTypes)
    ensures DecodeEnvelope(JObject(map[MessageTypeKey := JString(TypeTag(t))])) == Ok(WebSocketMessage(t, None, None))
  {
  }

  // ------------------------------------------------------------ payload

  /** The JSON shape of a message payload, as the server writes it. */
  function EncodeMessageData(m: MessageData): (j: Json)
    ensures j.JObject? && j.fields.Keys == {FromKey, MessageKey}
  {
    JObject(map[FromKey := JString(m.from), MessageKey := JString(m.message)])
  }

  /** The payload a JSON value denotes: both fields must be present strings. */
  function DecodeMessageData(j: Json): (r: Result<MessageData, DecodeError>)
    ensures r.Ok? <==> j.JObject? && FromKey in j.fields && MessageKey in j.fields &&
                       j.fields[FromKey].JString? && j.fields[MessageKey].JString?
    ensures r.Ok? ==> j.fields[FromKey] == JString(r.value.from) &&
                      j.fields[MessageKey] == JString(r.value.message)
  {
    if !j.JObject? then Err(NotAnObject)
    else
      match DecodeRequiredString(j.fields, FromKey)
      case Err(e) => Err(e)
      case Ok(from) =>
        match DecodeRequiredString(j.fields, MessageKey)
        case Err(e) => Err(e)
        case Ok(message) => Ok(MessageData(from, message))
  }

  lemma MessageDataRoundTrip(m: MessageData)
    ensures DecodeMessageData(EncodeMessageData(m)) == Ok(m)
  {
  }
}
