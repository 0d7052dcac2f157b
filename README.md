# POP chat: a Dafny model of the connection, the encryption and the session

POP is a two-party chat. The peers talk over a WebRTC data channel, and there is no
signalling server: the codes are copied and pasted by hand.

1. The host creates a room. A fresh AES-256-GCM key is generated and a WebRTC offer is
   made. The host then shows an *invite code*: `base64(key) | base64(JSON(offer))`.
2. The guest pastes the invite. Their side imports the key, accepts the offer and
   shows an *answer code*, `base64(JSON(answer))`.
3. The host pastes the answer code. The data channel opens, and each side sends its
   user name 500 ms after opening the chat screen.
4. Chat text is encrypted with AES-GCM under the shared key before it is sent. It
   travels as `base64(iv[12] ++ ciphertext)`. Files travel as the plain base 64 of
   their bytes.

The project models three parts:

- **`webrtc.dfy`** (module `WebRtc`) models the `P2PConnection` class of
  `src/lib/webrtc.ts` as a Dafny class with the same fields: the peer connection, the
  data channel, the ordered candidate list, the gathering flag and the state.
  - Each browser event is a method: a candidate, a gathering-state change, a
    connection-state change, the data channel's arrival, open and close.
  - The handshake methods, the bounded ICE-gathering wait, the send guards and
    `disconnect` are proved against specification functions such as `Steps`,
    `Settled` and `Accepted`.
  - The calls of `onStateChange` and the texts handed to `send` are recorded in
    two sequence fields. This lets contracts state how often the callback fires.
  - The module also holds the descriptor codec `encodeOffer`/`decodeOffer`.
- **`crypto.dfy`** (module `Crypto`), with **`base64.dfy`** (module `Base64`), models
  `src/lib/crypto.ts`.
  - The byte and base 64 loops are methods; `btoa` follows RFC 4648 section 4, and
    `atob` follows the forgiving-base64 decode of the WHATWG Infra standard.
  - Also modelled: key export and import, the `iv ++ ciphertext` framing of messages
    and files, the random user name and the random room id.
  - AES-GCM and the UTF-8 text codec are values holding functions. Predicates state
    what the code relies on: decryption undoes encryption under the same key and IV,
    and the tag adds 16 bytes.
- **`chat.dfy`** (module `Chat`) models the hook in `src/hooks/useChat.ts` as the
  class `ChatSession`.
  - The React state and refs become fields. The connection is a constant field.
  - The mount-time callbacks are relayed after every transport call. The invariant
    `Valid()` says that every state change the connection reported has reached the
    session, so the shown state is the connection's.
  - `jstext.dfy` (module `JsText`) holds the JavaScript string operations the codes
    pass through: `\s`, `trim`, `replace(/\s/g, '')` and `split('|')`.
  - `chattypes.dfy` holds the record types of `src/lib/types.ts`, and `wrappers.dfy`
    holds `Option`, `Result` and the error kinds.

The browser's decisions are parameters: which SDP it produces, whether a promise
resolves, which remote candidates it accepts, and which gathering events arrive
before each poll. So are the random values: key bytes, IVs and `Math.random()`
results. `Date.now()` is a `now` parameter.

## Model

| member | source | states |
|---|---|---|
| Base64.DecodeEncode | src/lib/crypto.ts:116-133 | Decoding the RFC 4648 encoding of any byte sequence gives that sequence back |
| Base64.EncodeLength | src/lib/crypto.ts:116-123 | The encoding of n bytes has 4·⌈n/3⌉ characters, a multiple of four |
| Base64.EncodeAlphabet | src/lib/crypto.ts:116-123 | Every character of an encoding is a base 64 letter or the `=` pad |
| Base64.AtobBtoa | src/lib/webrtc.ts:335-345 | `atob(btoa(s)) == s` for every string whose character codes are below 256 |
| Base64.BtoaBinaryString | src/lib/crypto.ts:117-122 | `btoa` of the one-character-per-byte string of a buffer succeeds and is the RFC 4648 encoding of the buffer |
| Base64.Btoa | src/lib/crypto.ts:122 | `btoa` throws exactly on a character code of 256 or more; otherwise its result, in groups of four, decodes to the character codes |
| Base64.Atob | src/lib/crypto.ts:127 | `atob` throws exactly on text that does not decode; otherwise its result is a binary string whose character codes are the decoded bytes |
| Base64.SextetsLength | src/lib/crypto.ts:116-123 | A buffer of n bytes splits into ⌈4n/3⌉ six-bit values, never a count of 1 mod 4 |
| Base64.OctetsOfSextets | src/lib/crypto.ts:126-133 | Joining the six-bit values of a buffer back into bytes gives the buffer |
| Base64.StripPaddingOfEncode | src/lib/crypto.ts:126-133 | Removing the `=` pad from an encoding leaves exactly the letters of the six-bit values |
| Base64.StripPaddingOfPadded | src/lib/crypto.ts:126-133 | Removing the pad from letters followed by 0 to 2 pad characters leaves the letters |
| Base64.RemoveAsciiWhitespaceNoop | src/lib/crypto.ts:126-133 | `atob`'s ASCII-whitespace removal leaves a text without such whitespace unchanged |
| Base64.GroupOf3 | src/lib/crypto.ts:116-133 | Three bytes split into four six-bit values that join back into the three bytes |
| Base64.GroupOf2 | src/lib/crypto.ts:116-133 | Two bytes split into three six-bit values (the last padded with zero bits) that join back into the two bytes |
| Base64.GroupOf1 | src/lib/crypto.ts:116-133 | One byte splits into two six-bit values that join back into the byte |
| Crypto.ArrayBufferToBase64 | src/lib/crypto.ts:116-123 | The binary string built by the loop has one character per byte with that byte as its code, so the result is the RFC 4648 encoding of the bytes |
| Crypto.Base64ToArrayBuffer | src/lib/crypto.ts:126-133 | The loop stores one byte per character of `atob`'s result: the decoded bytes, or the `atob` error for text that does not decode |
| Crypto.ToUint8 | src/lib/crypto.ts:130 | A Uint8Array store keeps a character code below 256 unchanged |
| Crypto.GenerateKey | src/lib/crypto.ts:7-13 | A generated key is 32 bytes (AES-256), and it is exactly the random input, passed as a parameter |
| Crypto.ExportKey | src/lib/crypto.ts:16-19 | The exported key is the base 64 of the raw key bytes |
| Crypto.ImportKey | src/lib/crypto.ts:22-31 | Importing decodes the text and accepts 16, 24 or 32 bytes; other text fails |
| Crypto.KeyRoundTrip | src/lib/crypto.ts:16-31 | `importKey(exportKey(k))` is k for every AES key |
| Crypto.Combine | src/lib/crypto.ts:51-53 | The framed buffer is the IV followed by the ciphertext, of the summed length |
| Crypto.EncryptMessage | src/lib/crypto.ts:34-56 | The result is the base 64 of `iv ++ seal(key, iv, utf8(message))` |
| Crypto.DecryptMessage | src/lib/crypto.ts:59-77 | Decoding, splitting at 12 and opening: the decoded text, an error for bad base 64, an error for a tag that fails |
| Crypto.EncryptFile | src/lib/crypto.ts:80-97 | The result has length 12 + the ciphertext's, holds the IV in bytes 0..11 and the ciphertext from byte 12 |
| Crypto.DecryptFile | src/lib/crypto.ts:100-113 | Splitting at offset 12 and opening: a buffer that encryptFile framed under the same key decrypts to the framed data; a tag that fails throws |
| Crypto.FrameParts | src/lib/crypto.ts:105-106 | Any 12-byte IV followed by a ciphertext is exactly what the split at offset 12 recovers |
| Crypto.SplitFrame | src/lib/crypto.ts:66-67 | Splitting `iv ++ c` at offset 12 recovers exactly the 12-byte IV and c |
| Crypto.FrameSplit | src/lib/crypto.ts:105-106 | Every buffer is its first 12 bytes followed by the rest |
| Crypto.TextRoundTrip | src/lib/crypto.ts:34-77 | `decryptMessage(encryptMessage(m, k), k)` is `m`, except that a leading U+FEFF of `m` is consumed by the default `new TextDecoder()` (only that one character, and only at the start) |
| Crypto.SealedTextDiffers | src/lib/crypto.test.ts:7-17 | The encrypted text has a known length, longer than the message, so it differs from the message; it needs only that UTF-8 takes at least a byte per character |
| Crypto.FileRoundTrip | src/lib/crypto.ts:80-113 | `decryptFile(encryptFile(d, k), k) == d`; the encrypted length is the original's plus 28 bytes, so it is non-zero and differs from the original |
| Crypto.Pick | src/lib/crypto.ts:139-141 | `Math.floor(Math.random() * n)` is an index below n |
| Crypto.Decimal | src/lib/crypto.ts:142 | The decimal form of a number is a non-empty digit string |
| Crypto.DecimalValue | src/lib/crypto.ts:142 | The digits of the decimal form denote the number and have no leading zero |
| Crypto.DecimalLength | src/lib/crypto.ts:140-142 | The number part of a user name has one to three digits |
| Crypto.GenerateUsername | src/lib/crypto.ts:136-143 | The name is a listed adjective, a listed noun and a number below 1000, and it is non-empty |
| Crypto.GenerateRoomId | src/lib/crypto.ts:146-153 | The id has exactly 8 characters; the i-th is the alphabet entry the i-th random draw picks, so each is in a–z or 0–9 |
| JsText.RemoveWhitespace | src/lib/webrtc.ts:342 | `replace(/\s/g, '')` leaves no whitespace and never lengthens the text |
| JsText.Split | src/hooks/useChat.ts:139 | `split('\|')` always yields at least one part |
| JsText.JoinSplit | src/hooks/useChat.ts:139 | Joining the parts of a split gives back the text, and no part holds the separator |
| JsText.SplitAt | src/hooks/useChat.ts:139 | The first part of a split ends at the first separator |
| JsText.SplitPrefix | src/hooks/useChat.ts:139 | A text split into two or more parts begins with the first part, the separator and the second part |
| JsText.SplitWithout | src/hooks/useChat.ts:139 | A text without the separator splits into itself alone |
| JsText.RemoveWhitespaceConcat | src/lib/webrtc.ts:342 | Whitespace removal distributes over concatenation |
| JsText.RemoveWhitespaceInsert | src/lib/webrtc.ts:342 | Whitespace inserted anywhere is removed again |
| JsText.RemoveWhitespaceTrim | src/lib/webrtc.ts:342 | Trimming before removing all whitespace changes nothing |
| JsText.RemoveWhitespaceNoop | src/hooks/useChat.ts:138 | Removing whitespace from a text that has none leaves it unchanged |
| JsText.RemoveWhitespaceOfBlank | src/lib/webrtc.ts:342 | A text of whitespace only becomes empty |
| JsText.RemoveWhitespaceTrimStart | src/lib/webrtc.ts:342 | Removing the leading whitespace first changes nothing once all whitespace is removed |
| JsText.RemoveWhitespaceTrimEnd | src/lib/webrtc.ts:342 | Removing the trailing whitespace first changes nothing once all whitespace is removed |
| JsText.Trim | src/lib/webrtc.ts:342 | A trimmed text neither starts nor ends with whitespace |
| JsText.TrimEnd | src/lib/webrtc.ts:342 | Removing trailing whitespace leaves a prefix of the text that does not end in whitespace |
| JsText.TrimStart | src/lib/webrtc.ts:342 | Removing leading whitespace leaves a text that does not start with whitespace |
| WebRtc.ReportedStateCases | src/lib/webrtc.ts:84-102 | Only `new` is ignored; `disconnected` and `closed` are exactly the states reported as disconnected; every reported state arises from some browser state |
| WebRtc.StepsCandidates | src/lib/webrtc.ts:66-71 | A run of events appends exactly its candidates, in arrival order, to those already collected |
| WebRtc.StepsComplete | src/lib/webrtc.ts:73-78 | The gathering flag is set after a run of events exactly when it was set before or some event reported `complete` |
| WebRtc.ObservedCandidates | src/lib/webrtc.ts:66-71 | The view at poll k holds the earlier candidates followed by every candidate that arrived up to poll k |
| WebRtc.FirstDoneIsFirst | src/lib/webrtc.ts:252-258 | Polling from check k stops at the first later check that sees gathering done, or at the timeout |
| WebRtc.WaitResolves | src/lib/webrtc.ts:244-267 | The wait resolves within 100 polls (10000 ms): at once exactly when gathering is already done, otherwise at the first poll that sees it done, or at the timeout |
| WebRtc.SettledCandidates | src/lib/webrtc.ts:244-267 | Waiting loses no candidate: the result holds the earlier candidates and every one that arrived before it resolved, in order |
| WebRtc.AcceptedMembers | src/lib/webrtc.ts:196-202 | A rejected candidate is skipped and the loop goes on: exactly the accepted candidates are added, and no more than offered |
| WebRtc.AcceptedAll | src/lib/webrtc.ts:233-239 | When every candidate is accepted, all are added, in order |
| WebRtc.EncodingShape | src/hooks/useChat.ts:128 | Base 64 text holds neither `\|` nor whitespace, so it can sit on either side of the separator |
| WebRtc.EncodeOffer | src/lib/webrtc.ts:335-338 | Encoding throws exactly when the JSON has a character code of 256 or more; otherwise the code has no whitespace and no `\|`, and its length is a multiple of four |
| WebRtc.DecodeOffer | src/lib/webrtc.ts:341-345 | Decoding ignores trimming and whitespace: it throws InvalidCharacter when the text without whitespace is not base 64, SyntaxError when its JSON does not parse, and otherwise yields what the JSON parses to |
| WebRtc.OfferRoundTrip | src/lib/webrtc.ts:335-345 | `decodeOffer(encodeOffer(o)) == o` for a descriptor whose JSON is Latin-1 text, and encoding then succeeds |
| WebRtc.DecodeOfferIgnoresWhitespace | src/lib/webrtc.ts:341-345 | Whitespace inserted anywhere into a code does not change what is decoded |
| WebRtc.FileMessageCarriesBytes | src/lib/webrtc.ts:286-317 | The file message copies the name, size and MIME type of the file, and its data is the plain base 64 of the file bytes, which decodes to them |
| WebRtc.P2PConnection.constructor | src/lib/webrtc.ts:45-59 | A new connection has a fresh peer connection, no channel, no candidates, the flag clear and state `disconnected` |
| WebRtc.P2PConnection.GetState | src/lib/webrtc.ts:145-147 | Reports the state updateState last stored |
| WebRtc.P2PConnection.UpdateState | src/lib/webrtc.ts:138-143 | The state becomes the argument; the callback fires once exactly when it changed, and never for the current state |
| WebRtc.P2PConnection.OnIceCandidate | src/lib/webrtc.ts:66-71 | A candidate is appended to the end of the list; the end-of-candidates event changes nothing |
| WebRtc.P2PConnection.OnIceGatheringStateChange | src/lib/webrtc.ts:73-78 | The flag is set when gathering reports `complete` and otherwise kept |
| WebRtc.P2PConnection.OnConnectionStateChange | src/lib/webrtc.ts:84-102 | Every browser state but `new` is reported through updateState with its mapped state; `new` changes nothing |
| WebRtc.P2PConnection.OnDataChannel | src/lib/webrtc.ts:104-107 | The responder adopts the channel the initiator opened |
| WebRtc.P2PConnection.OnChannelOpen | src/lib/webrtc.ts:113-116 | An opened channel makes the state `connected`, reported once if it is news |
| WebRtc.P2PConnection.OnChannelClose | src/lib/webrtc.ts:118-121 | A closed channel makes the state `disconnected`, reported once if it is news |
| WebRtc.P2PConnection.DeliverGatheringEvents | src/lib/webrtc.ts:66-78 | Delivering events to the two handlers changes the gathering view as the specification `Steps` says |
| WebRtc.P2PConnection.WaitForIceGathering | src/lib/webrtc.ts:244-267 | The poll loop resolves at the check `PollsToResolve` and leaves the view `Settled` |
| WebRtc.P2PConnection.AddRemoteCandidates | src/lib/webrtc.ts:196-202 | The loop adds exactly the accepted candidates, in order, and skips the rejected ones |
| WebRtc.P2PConnection.CreateOffer | src/lib/webrtc.ts:150-178 | Throws without a peer connection; otherwise `connecting` first, an ordered `pop-chat` channel, and an `offer` descriptor made of the local SDP and the candidates collected by the wait |
| WebRtc.P2PConnection.AcceptOffer | src/lib/webrtc.ts:181-218 | Throws without a peer connection; otherwise `connecting` first, the offer and its accepted candidates applied, and an `answer` descriptor made of the local SDP and the candidates collected |
| WebRtc.P2PConnection.CompleteConnection | src/lib/webrtc.ts:221-242 | Throws without a peer connection or when the answer is refused; otherwise applies the answer and its accepted candidates and leaves the state alone |
| WebRtc.P2PConnection.SendMessage | src/lib/webrtc.ts:270-283 | Sends, and returns true, exactly when the channel is open and `send` does not throw |
| WebRtc.P2PConnection.SendFile | src/lib/webrtc.ts:286-317 | Returns false without an open channel or a readable file; otherwise sends the file message |
| WebRtc.P2PConnection.Disconnect | src/lib/webrtc.ts:320-331 | Afterwards state is `disconnected` (reported once if news), the candidates are gone, the flag is clear, the channel is gone and a fresh peer connection exists |
| Chat.Notice | src/hooks/useChat.ts:45-55 | A system entry is from `system`, not own and has no file |
| Chat.StateNoticesCases | src/hooks/useChat.ts:27-34 | Only `connected` and `disconnected` add an entry, at most one; with the mount-time screen `home`, `disconnected` adds none |
| Chat.PackInvite | src/hooks/useChat.ts:128 | The invite is `key\|offer`; two non-empty parts free of `\|` and whitespace parse back to themselves |
| Chat.InviteRoundTrip | src/hooks/useChat.ts:128-143 | Parsing a packed invite gives back the key part and the offer part; parts after a second `\|` are ignored |
| Chat.ParseInvite | src/hooks/useChat.ts:138-143 | A code that parses yields two non-empty parts free of `\|` and whitespace, and the code without whitespace begins with `key\|offer`; any other code fails with "Invalid invite code" |
| Chat.InviteDelivers | src/hooks/useChat.ts:112-150 | From the host's invite the guest recovers exactly the host's key and offer |
| Chat.AnswerNormalizationHarmless | src/hooks/useChat.ts:169-170 | completeConnection's extra whitespace removal does not change the decoded answer |
| Chat.AnswerDelivers | src/hooks/useChat.ts:154-170 | The guest's answer code reaches the host intact |
| Chat.ChatDelivery | src/hooks/useChat.ts:69-88 | A received chat message decrypts to the sender's text, less a leading U+FEFF the decoder consumes, and is added as one entry that is not own, with the wire's sender and timestamp |
| Chat.TamperedChatDropped | src/hooks/useChat.ts:85-87 | A chat message that does not decrypt adds nothing |
| Chat.IdentityDelivery | src/hooks/useChat.ts:60-67 | An identity message sets the peer name and adds "<name> joined the chat." |
| Chat.FileDelivery | src/hooks/useChat.ts:90-108 | A received file message adds one entry "Sent a file: <name>" with the record as sent, whose data decodes to the file bytes |
| Chat.ReceivedEntriesBound | src/hooks/useChat.ts:57-109 | At most one entry per message; only a system message changes the peer name; a ping adds nothing |
| Chat.ChatSession.constructor | src/hooks/useChat.ts:12-43 | On mount: home screen, a generated user name, an empty transcript, `disconnected`, and a fresh connection |
| Chat.ChatSession.AddSystemMessage | src/hooks/useChat.ts:45-55 | Appends exactly one system entry |
| Chat.ChatSession.HandleStateChange | src/hooks/useChat.ts:27-34 | Shows the new state and appends the entries the callback adds for it |
| Chat.ChatSession.Relay | src/hooks/useChat.ts:27-34 | Runs the callback for a state change the connection has just reported, so the session shows the connection's state |
| Chat.ChatSession.HandleIncomingMessage | src/hooks/useChat.ts:57-109 | Without a key nothing changes; otherwise the transcript and peer name change as `ReceivedEntries` and `PeerNameAfter` say |
| Chat.ChatSession.OnPeerData | src/lib/webrtc.ts:123-130 | Data that does not parse is dropped; a parsed message is handled as above |
| Chat.ChatSession.OnPeerConnectionStateChange | src/lib/webrtc.ts:84-102 | A browser state change reaches the session: the shown state follows, and the callback's entries are added when it is news |
| Chat.ChatSession.OnDataChannel | src/lib/webrtc.ts:104-107 | The responder's connection adopts the channel |
| Chat.ChatSession.OnChannelOpen | src/lib/webrtc.ts:113-116 | The conversation becomes `connected`, with the "Connected!" notice when that is news, and sending is possible |
| Chat.ChatSession.OnChannelClose | src/lib/webrtc.ts:118-121 | The conversation becomes `disconnected` and sending is refused |
| Chat.ChatSession.CreateRoom | src/hooks/useChat.ts:112-130 | Initiator, `create` screen and the key set; succeeds exactly when the offer is made and encoded, and then the code is `key\|offer`. The transport holds the ordered `pop-chat` channel and has sent nothing |
| Chat.ChatSession.JoinRoom | src/hooks/useChat.ts:133-162 | Succeeds exactly when the invite parses, the key imports, the offer decodes and is accepted and the answer encodes. The invite's offer SDP becomes the remote description, and its candidates the browser accepts are added. On success the answer carries the candidates gathered by the wait, and its code is shown on the `join` screen. Any failure adds exactly one "Failed to join room" entry and leaves the screen; a key imported before a failure stays set. Nothing is sent and the data channel is unchanged |
| Chat.ChatSession.JoinSteps | src/hooks/useChat.ts:136-157 | The `try` part of joinRoom, with the same outcome, the same applied offer and answer, and no entry added; nothing is sent and the data channel is unchanged |
| Chat.ChatSession.ReadInvite | src/hooks/useChat.ts:138-150 | Parses the invite, imports the key and decodes the offer, keeping the key once imported |
| Chat.ChatSession.AcceptInvite | src/hooks/useChat.ts:151 | The offer's SDP becomes the remote description and its accepted candidates are added; the answer is made exactly when the browser applies the offer and produces an answer, and it carries the candidates gathered by the wait; nothing is sent and the data channel is unchanged |
| Chat.ChatSession.CompleteConnection | src/hooks/useChat.ts:165-190 | On success: the answer's SDP is the remote description, its accepted candidates are added, the data channel is kept, the chat screen is open and an identity send is queued. On failure: the connection is reset to `disconnected` and "Failed to connect. Invalid answer code." is added. Either way nothing is sent |
| Chat.ChatSession.AbandonConnection | src/hooks/useChat.ts:184-189 | Resets the transport to `disconnected` and adds the failure notice after any state notice; nothing is sent |
| Chat.ChatSession.GoToChat | src/hooks/useChat.ts:193-205 | Opens the chat screen and queues the identity send |
| Chat.ChatSession.IdentityTimerFires | src/hooks/useChat.ts:174-181 | The oldest queued identity is sent if the channel is open |
| Chat.ChatSession.SendMessage | src/hooks/useChat.ts:208-235 | With a key, the encrypted text is sent, and one own entry with the plain text is added exactly when the send returned true; without a key nothing happens |
| Chat.ChatSession.SendFile | src/hooks/useChat.ts:238-260 | One own file entry with empty data is added exactly when the send returned true |
| Chat.ChatSession.Disconnect | src/hooks/useChat.ts:263-270 | Empties the transcript, clears the code, the peer name and the key, goes home, and resets the transport; nothing is sent |
| Chat.ChatSession.SetScreen | src/hooks/useChat.ts:12 | The screen becomes the one chosen |
| Chat.ChatSession.SetUsername | src/hooks/useChat.ts:13 | The user name becomes the one chosen |
| Chat.ChatSession.Unmount | src/hooks/useChat.ts:40-42 | Unmounting disconnects the transport |

## Left out

- `ICE_SERVERS` (src/lib/webrtc.ts:22-43), STUN/TURN and SDP contents: the browser's transport is abstract, and SDP is an opaque string.
- Console logging, the unused `onError` callback and the channel's `onerror` handler: they change no state.
- JSON is an abstract stringify/parse pair that round-trips. `JSON.parse` does no shape validation; a parsed message whose payload has the wrong shape for its `type` adds nothing here, where the source would read missing fields.
- The 100 ms poll, the 10 s timeout and the 500 ms identity timer are modelled as checks and queued sends, not as wall-clock time. The events that arrive between polls are a `schedule` parameter.
- Promise interleaving is not modelled. Each async operation runs to completion, and inbound messages are handled in arrival order. Events of a channel closed by `disconnect` that arrive later are not modelled.
- Message `id`s (`crypto.randomUUID`) are left out. Each operation takes a single `now` for every `Date.now()` it reads.
- Strings are sequences of Unicode code points, not UTF-16 code units. Lone surrogates and the UTF-8 encoding itself belong to the abstract text codec, which is assumed to give back what it encodes less one leading U+FEFF.
- `atob` follows the forgiving decode, which is more lenient than strict RFC 4648 decoding. It drops ASCII whitespace, accepts missing padding and ignores non-zero trailing bits. The round-trip lemmas are stated over the strict encoding that `btoa` produces.
- The candidate array returned in a descriptor is a copy in the model. The source returns the live `iceCandidates` array, which later pushes would alias.
- The hook's `if (!connectionRef.current) return` guards are not modelled. The connection exists from mount to unmount, so they never fire.
- The connection's null-peer-connection throws are modelled, but `Valid()` shows they cannot happen from the session: every method leaves a peer connection in place.
- Chat.StateNoticesCases: "Peer disconnected." is added only when the mount-time screen was `chat`. The callback reads the `screen` captured by a `[]`-deps effect, which is always `home`, so the notice never shows. The model follows the code.
- Chat.ChatSession.JoinRoom: a key imported before the offer fails to decode stays set, as the code does it.
- Crypto.EncryptFile and Crypto.DecryptFile are modelled, but nothing uses them: files are sent as plain base 64, as the code does it.
- WebRtc.P2PConnection.CreateOffer and WebRtc.P2PConnection.AcceptOffer: the `|| ''` fallback for a missing local description is reached in the source only when `disconnect` runs during the gathering wait. That happens, for example, when the create screen's Back button is pressed while the offer is gathered: the descriptor is then built from the fresh connection, with an empty SDP and no candidates, and createRoom still shows it. The model runs each operation to completion, so no disconnect can happen during the wait and the fallback is not modelled.
- WebRtc.P2PConnection.CreateOffer and WebRtc.P2PConnection.AcceptOffer: the descriptor's `sdp` is the SDP given to `setLocalDescription`. The source reads `localDescription.sdp` after gathering, and a browser may have added candidate lines by then. SDP is an opaque string here, so that change is not modelled.
- `generateKey`'s randomness and `crypto.getRandomValues` for the IV are parameters, not modelled sources of randomness.
- The rendering components, `App.tsx`, `formatFileSize`, `formatTime` and the build configuration are outside this model.
