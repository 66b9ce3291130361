# Chat component of a Yew websocket chat client, in Dafny

This project models the `Chat` component of a small Yew chat client
(`src/components/chat.rs`). The component keeps two pieces of state: the
roster of connected users (`users`) and the history of received messages
(`messages`). It reacts to frames that arrive over the websocket, and it
builds the frames it sends.

Every frame is a JSON envelope `{messageType, dataArray, data}`:

- A `users` frame replaces the roster with one profile per listed name.
  Each profile gets an avatar URL built from the name.
- A `message` frame carries a nested JSON payload `{from, message}` as text
  in `data`. That payload is appended to the history.
- A `register` frame is ignored.

The component sends a `register` frame carrying the username when it is
created. It sends a `message` frame carrying the typed text when the user
submits.

The view looks up each history entry's sender in the roster. It panics when
the sender is not there. It shows a body that ends in `.gif` as an image.

Layout:

- `wrappers.dfy` (`Wrappers`): `Option`, `Result`.
- `json.dfy` (`Json`): JSON values, and the `Parser` type. A `Parser` turns
  text into a JSON value; it stands in for `serde_json`'s text parser.
- `protocol.dfy` (`Protocol`): the frame types, and the JSON shape that
  serde's derived code gives them. This covers camelCase keys, lower-case
  type tags, and optional fields that are absent or null. It also covers
  decoding and the round trips.
- `profiles.dfy` (`Profiles`): the avatar URL and the roster.
- `chat.dfy` (`ChatComponent`): decoding of inbound text into a frame, and
  the pure effect of one frame and of a run of frames. It also holds one
  `update` call as a function (`Step`) and the `Chat` class. The class's
  `Update` method changes the roster and history in place, as `Step` says.
- `view.dfy` (`ChatView`): the sender lookup, the `.gif` rule, and the
  rendering of the history.

Every `unwrap` in `update` is modelled as an `Err` result, and an `Err`
leaves the state unchanged. There are three such panics: inbound text that is
not an envelope, a message frame without `data`, and a payload that is not
`{from, message}`. The `unwrap` of the sender lookup in `view` is modelled as
a `None` result of rendering.

## Behaviour worth noting

- A users frame keeps duplicate names; it does not de-duplicate them.
- An unknown message type makes the outer decode fail (a panic). It is not
  a silent no-op.
- serde writes a `None` field as `null`, so the frames the component sends
  carry `"dataArray": null` instead of omitting the key.
- A history entry whose sender is not in the roster makes the view panic.
  There is no fallback avatar.
- There is no Connecting/Open/Closed lifecycle in the component.

## Model

| member | source | states |
|---|---|---|
| `Protocol.TypeTag` | src/components/chat.rs:20-26 | the wire name of every message type is a non-empty lower-case word |
| `Protocol.RegisterEnvelope` | src/components/chat.rs:61-65 | the creation frame is written as `{"messageType": "register", "dataArray": null, "data": <username>}` |
| `Protocol.MessageEnvelope` | src/components/chat.rs:118-122 | the submitted frame is written as `{"messageType": "message", "dataArray": null, "data": <typed text>}` |
| `Protocol.ParseTypeTag` | src/components/chat.rs:20-26 | a wire name decodes to a type exactly when it is that type's lower-case name; any other text, including other capitalisations, is rejected |
| `Protocol.DecodeStrings` | src/components/chat.rs:32 | a JSON array decodes to a list of names exactly when every item is a string; the list has the same length and holds those strings in order |
| `Protocol.StringsRoundTrip` | src/components/chat.rs:32 | decoding the JSON array written for a list of names gives back that list |
| `Protocol.DecodeOptionalStrings` | src/components/chat.rs:32 | the `dataArray` field is `None` exactly when it is absent or null; it fails exactly when it is some other value than an array of strings; otherwise it holds the array's strings, in order |
| `Protocol.DecodeOptionalString` | src/components/chat.rs:33 | the `data` field is `None` exactly when absent or null, is the string when it is a string, and fails exactly when it is some other value |
| `Protocol.DecodeRequiredString` | src/components/chat.rs:14-18 | a required string field succeeds exactly when it is present and a string, and reports a missing field exactly when it is absent |
| `Protocol.EncodeEnvelope` | src/components/chat.rs:28-34 | an envelope is written as an object with exactly the keys `messageType`, `dataArray` and `data` |
| `Protocol.DecodeEnvelope` | src/components/chat.rs:28-34 | an object decodes exactly when its `messageType` is a known lower-case name and its `dataArray` and `data` fields decode; the envelope then holds that type and those two field values; a string type tag that names no type fails with that tag |
| `Protocol.EnvelopeRoundTrip` | src/components/chat.rs:28-34 | decoding is a left inverse of encoding for every envelope |
| `Protocol.EnvelopeWithoutOptionalKeys` | src/components/chat.rs:28-34 | an object with only `messageType` decodes, with no name list and no `data` |
| `Protocol.EncodeMessageData` | src/components/chat.rs:14-18 | a payload is written as an object with exactly the keys `from` and `message` |
| `Protocol.DecodeMessageData` | src/components/chat.rs:14-18 | a payload decodes exactly when it is an object with string fields `from` and `message`, and holds those two strings |
| `Protocol.MessageDataRoundTrip` | src/components/chat.rs:14-18 | decoding a written payload gives back that payload |
| `Profiles.AvatarUrl` | src/components/chat.rs:95-98 | the avatar URL is the fixed prefix, then the name, then `.svg` |
| `Profiles.NameOfAvatar` | src/components/chat.rs:95-98 | a name read back from a URL rebuilds that exact URL |
| `Profiles.AvatarNameRecovered` | src/components/chat.rs:95-98 | the name can be recovered from its avatar URL |
| `Profiles.AvatarInjective` | src/components/chat.rs:95-98 | two names have the same avatar if and only if they are equal |
| `Profiles.Roster` | src/components/chat.rs:91-101 | the roster has one profile per name, in the same order; each profile has that name and that name's avatar |
| `Profiles.RosterNames` | src/components/chat.rs:91-101 | the roster's names are exactly the frame's names, duplicates included |
| `Profiles.RosterAvatarsName` | src/components/chat.rs:93-100 | every profile's avatar reads back as that profile's name |
| `ChatComponent.DecodeFrame` | src/components/chat.rs:86-113 | text that is not an envelope fails with the envelope error; a `users` envelope gives its name list, or no names when the list is absent; a `register` envelope gives the register frame; a `message` envelope fails without `data`, and otherwise gives the decoded payload of `data` or fails with its payload error |
| `ChatComponent.ApplyFrame` | src/components/chat.rs:88-113 | a users frame replaces the roster whatever it was before and keeps the history; a message frame appends exactly one entry and keeps the roster; only a register frame returns false, and it changes nothing |
| `ChatComponent.HistoryAfterFrames` | src/components/chat.rs:104-108 | after any run of frames, the history is the old history followed by the payloads of the run's message frames, in arrival order |
| `ChatComponent.RosterAfterFrames` | src/components/chat.rs:89-102 | after any run of frames, the roster is the one built by the last users frame, whatever the earlier roster; with no users frame it is the earlier roster |
| `ChatComponent.MessageRun` | src/components/chat.rs:104-108 | a run of n message frames keeps the roster and lengthens the history by n |
| `ChatComponent.Step` | src/components/chat.rs:84-136 | handling text fails exactly when the frame does not decode, with that error; otherwise its new state and return flag are those of `ApplyFrame`, and it sends nothing; a submit never changes state or asks for a render, and when the input field is present it sends a `message` envelope with the typed text as `data` and no name list |
| `ChatComponent.UsersFrameDecodes` | src/components/chat.rs:89-90 | a users envelope, whatever its `data`, yields its name list (no names when the list is absent); `update` then installs that roster, keeps the history and returns true |
| `ChatComponent.MessageFrameDecodes` | src/components/chat.rs:104-106 | a message envelope whose `data` holds a payload yields that payload, whatever its name list; `update` then appends it, keeps the roster and returns true |
| `ChatComponent.MessageWithoutDataFails` | src/components/chat.rs:105-106 | a message envelope without `data` fails, whatever else it carries |
| `ChatComponent.MessageWithBadPayloadFails` | src/components/chat.rs:105-106 | a message envelope, whatever its name list, whose `data` is not JSON or lacks `from` or `message`, fails with a payload error |
| `ChatComponent.RegisterFrameIgnored` | src/components/chat.rs:110-112 | a register envelope, whatever its name list and `data`, changes neither roster nor history, sends nothing and returns false |
| `ChatComponent.UnknownTypeFails` | src/components/chat.rs:87 | an envelope whose type tag names no type fails at the outer decode |
| `ChatComponent.RegisterFrameRoundTrip` | src/components/chat.rs:61-65 | the register frame reads back as type register with the username as `data` and no name list |
| `ChatComponent.SubmittedFrameRoundTrip` | src/components/chat.rs:118-122 | the submitted frame reads back as type message with the typed text as `data` and no name list |
| `ChatComponent.Chat.constructor` | src/components/chat.rs:75-77 | a new component has an empty roster and an empty history |
| `ChatComponent.Chat.Create` | src/components/chat.rs:53-82 | creation yields a fresh component with empty roster and history, and a register frame carrying the username and no name list |
| `ChatComponent.Chat.Update` | src/components/chat.rs:84-136 | on success, the new roster, history, return flag and sent frame are those of `Step`; on a failure nothing changes and nothing is sent |
| `ChatView.FindSender` | src/components/chat.rs:160 | the lookup fails exactly when no profile has the sender's name; otherwise it returns the first profile with that name |
| `ChatView.GifSuffixIsGif` | src/components/chat.rs:168 | every text that ends in `.gif` is classed as an image |
| `ChatView.IsGif` | src/components/chat.rs:168 | every text classed as an image is some text followed by `.gif` |
| `ChatView.RenderBody` | src/components/chat.rs:167-173 | a body is shown as an image exactly when it ends in `.gif`, and either way shows the message text |
| `ChatView.RenderEntry` | src/components/chat.rs:159-177 | an entry renders exactly when its sender is in the roster, with the sender's name, the avatar of the first roster profile with that name, and the classified body |
| `ChatView.RenderHistory` | src/components/chat.rs:158-179 | the history renders exactly when every entry renders; the result has one entry per message, in order |
| `ChatView.RosterLookup` | src/components/chat.rs:160 | in a roster built from names, the lookup finds a sender exactly when the name was listed, and returns that name's profile |
| `ChatView.HistoryRendersWhenSendersListed` | src/components/chat.rs:158-179 | when every sender is a listed name, the whole history renders and each entry shows its sender's avatar |
| `ChatView.UnknownSenderPanics` | src/components/chat.rs:160 | one message from a name the roster does not list makes the whole history fail to render |

## Left out

- Yew plumbing is not modelled: `Context`, `Callback`, the `User` context lookup, and the `Html` markup and CSS of `view`. That includes the roster column of the view, which only displays each profile's avatar and name.
- Reading and clearing the input field is browser DOM access. The field's text is a parameter of `SubmitMessage`: `None` stands for a field that is not mounted.
- `WebsocketService`, `try_send` and the `EventBus` bridge are transport I/O. A send is modelled as the frame that `Update` or `Create` returns. The outcome of `try_send` is only logged, and it changes nothing.
- `serde_json` text parsing and printing are not modelled. The text parser is a parameter (`Json.Parser`), and JSON objects are maps. In serde, the derived decoder rejects an object that repeats one of the struct's own keys (a `duplicate field` error) and accepts repeated unknown keys. A map cannot hold a repeated key, so the model does not express either case. Serde's derived code also accepts a struct written as a positional JSON array, and an enum written as a one-key object. The model does not accept those forms.
- ChatComponent.DecodeFrame: when several fields of an envelope are wrong at once, serde reports the first one in text order. The model checks the fields in declaration order. So it fails on the same inputs, but it may name a different error.
- `log::debug!` output is not modelled.
- Numbers in JSON values are integers; no part of the protocol uses numbers.
- Rust `String`s are UTF-8 bytes, and the model's strings are sequences of characters. `.gif` and the avatar template are ASCII, so the suffix test and the URL format mean the same in both.
