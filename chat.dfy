/**
  The chat session hook: one `ChatSession` per mounted app. It owns the transport,
  the AES key of the conversation and the state the screens show (screen, user names,
  transcript, connection state, the code to share).

  React state updates are modelled as field assignments made in program order. The
  connection's `onStateChange` callback is relayed by `Relay` right after each
  transport call that may fire it, and `onMessage` by `OnPeerData`. `Date.now()`,
  the key bytes, the IVs and the browser's decisions are parameters; each
  `setTimeout(…, 500)` that sends the user's identity is queued in `pendingIdentity`
  and sent by `IdentityTimerFires`.
*/
module Chat {
  import opened Wrappers
  import opened Base64
  import opened JsText
  import opened Crypto
  import opened ChatTypes
  import opened WebRtc

  const SystemSender: string := "system"
  const ConnectedNotice: string := "Connected! Your conversation is end-to-end encrypted."
  const PeerLeftNotice: string := "Peer disconnected."
  const JoinFailedNotice: string := "Failed to join room. Invalid invite code."
  const ConnectFailedNotice: string := "Failed to connect. Invalid answer code."
  const JoinedSuffix: string := " joined the chat."
  const FilePrefix: string := "Sent a file: "
  /** The identity message is sent this long after the chat screen opens. */
  const IdentityDelayMs: nat := 500
  const InviteSeparator: char := '|'

  /** The browser facilities the session uses. */
  datatype Platform = Platform(
    aead: Aead,
    text: TextCodec,
    offerJson: Json<ConnectionOffer>,
    messageJson: Json<PeerMessage>)

  ghost predicate SoundPlatform(p: Platform)
  {
    SoundAead(p.aead) && SoundText(p.text) && SoundJson(p.offerJson) && SoundJson(p.messageJson)
  }

  /** A transcript entry from `addSystemMessage`. */
  function Notice(content: string, now: int): (m: Message)
    ensures m.kind == System && m.sender == SystemSender && !m.isOwn && m.file.None?
  {
    Message(System, content, SystemSender, now, false, None)
  }

  /**
    The entries the state callback adds for `state`. The callback compares against the
    `screen` value it captured when the hook mounted, passed here as `screenAtMount`.
  */
  function StateNotices(state: ConnectionState, screenAtMount: AppScreen, now: int): seq<Message>
  {
    if state == Connected then [Notice(ConnectedNotice, now)]
    else if state == Disconnected && screenAtMount == ChatScreen then [Notice(PeerLeftNotice, now)]
    else []
  }

  /** Only `connected` and `disconnected` can add an entry, one at most. */
  lemma StateNoticesCases(state: ConnectionState, screenAtMount: AppScreen, now: int)
    ensures |StateNotices(state, screenAtMount, now)| <= 1
    ensures state == Connected ==> StateNotices(state, screenAtMount, now) == [Notice(ConnectedNotice, now)]
    ensures state == Connecting || state == Failed ==> StateNotices(state, screenAtMount, now) == []
    ensures screenAtMount != ChatScreen && state != Connected ==> StateNotices(state, screenAtMount, now) == []
  {
  }

  // ---------------------------------------------------------------------------
  // Invite codes

  /** The invite code `${keyString}|${encodedOffer}`: two parts free of `|` and whitespace parse back. */
  function PackInvite(keyString: string, encodedOffer: string): (code: string)
    ensures keyString != "" && encodedOffer != ""
            && InviteSeparator !in keyString && InviteSeparator !in encodedOffer
            && NoWhitespace(keyString) && NoWhitespace(encodedOffer)
            ==> ParseInvite(code) == Success((keyString, encodedOffer))
  {
    PackedParses(keyString, encodedOffer);
    keyString + [InviteSeparator] + encodedOffer
  }

  lemma PackedParses(keyString: string, encodedOffer: string)
    ensures keyString != "" && encodedOffer != ""
            && InviteSeparator !in keyString && InviteSeparator !in encodedOffer
            && NoWhitespace(keyString) && NoWhitespace(encodedOffer)
            ==> ParseInvite(keyString + [InviteSeparator] + encodedOffer) == Success((keyString, encodedOffer))
  {
    if && keyString != "" && encodedOffer != ""
       && InviteSeparator !in keyString && InviteSeparator !in encodedOffer
       && NoWhitespace(keyString) && NoWhitespace(encodedOffer)
    {
      var code := keyString + [InviteSeparator] + encodedOffer;
      assert NoWhitespace(code);
      RemoveWhitespaceNoop(code);
      SplitAt(keyString, InviteSeparator, encodedOffer);
      SplitWithout(encodedOffer, InviteSeparator);
    }
  }

  /**
    joinRoom's parsing: remove every whitespace character, split at `|`, keep the first
    two parts; either one missing or empty is "Invalid invite code". The parts kept are
    non-empty, free of `|` and whitespace, and the normalized code begins with them.
  */
  function ParseInvite(code: string): (r: Result<(string, string)>)
    ensures r.Failure? ==> r.error == InvalidInviteCode
    ensures r.Success? ==>
      var (k, o) := r.value;
      && k != "" && o != ""
      && InviteSeparator !in k && InviteSeparator !in o
      && NoWhitespace(k) && NoWhitespace(o)
      && k + [InviteSeparator] + o <= RemoveWhitespace(code)
  {
    var normalized := RemoveWhitespace(code);
    var parts := Split(normalized, InviteSeparator);
    JoinSplit(normalized, InviteSeparator);
    NoWhitespaceOfParts(normalized, parts);
    SplitPrefix(normalized, InviteSeparator);
    var keyString := parts[0];
    var encodedOffer := if |parts| > 1 then parts[1] else "";
    if keyString == "" || encodedOffer == "" then Failure(InvalidInviteCode)
    else Success((keyString, encodedOffer))
  }

  /** Parsing a packed code gives back both halves, and parts after a second `|` are ignored. */
  lemma InviteRoundTrip(keyString: string, encodedOffer: string, tail: string)
    requires keyString != "" && encodedOffer != ""
    requires InviteSeparator !in keyString && InviteSeparator !in encodedOffer
    requires NoWhitespace(keyString) && NoWhitespace(encodedOffer)
    ensures ParseInvite(PackInvite(keyString, encodedOffer)) == Success((keyString, encodedOffer))
    ensures ParseInvite(PackInvite(keyString, encodedOffer) + [InviteSeparator] + tail) == Success((keyString, encodedOffer))
  {
    var code := PackInvite(keyString, encodedOffer);
    assert NoWhitespace(code);
    RemoveWhitespaceNoop(code);
    SplitAt(keyString, InviteSeparator, encodedOffer);
    SplitWithout(encodedOffer, InviteSeparator);
    var rest := RemoveWhitespace(tail);
    NormalizeLonger(code, tail);
    assert code + [InviteSeparator] + rest == keyString + [InviteSeparator] + (encodedOffer + [InviteSeparator] + rest);
    SplitTwo(keyString, encodedOffer, rest);
  }

  lemma NormalizeLonger(code: string, tail: string)
    requires NoWhitespace(code)
    ensures RemoveWhitespace(code + [InviteSeparator] + tail) == code + [InviteSeparator] + RemoveWhitespace(tail)
  {
    RemoveWhitespaceConcat(code + [InviteSeparator], tail);
    RemoveWhitespaceConcat(code, [InviteSeparator]);
    RemoveWhitespaceNoop(code);
    assert RemoveWhitespace([InviteSeparator]) == [InviteSeparator];
  }

  lemma SplitTwo(a: string, b: string, rest: string)
    requires InviteSeparator !in a && InviteSeparator !in b
    ensures var parts := Split(a + [InviteSeparator] + (b + [InviteSeparator] + rest), InviteSeparator);
      |parts| >= 2 && parts[0] == a && parts[1] == b
  {
    SplitAt(a, InviteSeparator, b + [InviteSeparator] + rest);
    SplitAt(b, InviteSeparator, rest);
  }

  /** The parts of a split text without whitespace have no whitespace. */
  lemma NoWhitespaceOfParts(s: string, parts: seq<string>)
    requires NoWhitespace(s) && parts == Split(s, InviteSeparator)
    ensures forall k :: 0 <= k < |parts| ==> NoWhitespace(parts[k])
  {
    SplitPartsFrom(s);
  }

  lemma {:induction false} SplitPartsFrom(s: string)
    ensures forall k, i :: 0 <= k < |Split(s, InviteSeparator)| && 0 <= i < |Split(s, InviteSeparator)[k]|
              ==> Split(s, InviteSeparator)[k][i] in s
    decreases |s|
  {
    if |s| > 0 {
      SplitPartsFrom(s[1..]);
    }
  }

  /** What the joiner parses out of the host's code: the key string, then the encoded offer. */
  function InviteKey(code: string): Result<Key>
  {
    match ParseInvite(code)
    case Failure(e) => Failure(e)
    case Success(parts) => ParseKey(parts.0)
  }

  function InviteOffer(code: string, json: Json<ConnectionOffer>): Result<ConnectionOffer>
  {
    match ParseInvite(code)
    case Failure(e) => Failure(e)
    case Success(parts) =>
      match ParseKey(parts.0)
      case Failure(e) => Failure(e)
      case Success(_) => DecodeOffer(parts.1, json)
  }

  /** The joiner recovers from the host's invite code exactly the host's key and offer. */
  lemma InviteDelivers(keyBytes: Bytes, offer: ConnectionOffer, json: Json<ConnectionOffer>)
    requires |keyBytes| == KeyLength
    requires SoundJson(json) && |json.stringify(offer)| > 0
    requires IsBinary(json.stringify(offer))
    ensures EncodeOffer(offer, json).Success?
    ensures InviteKey(PackInvite(Encode(keyBytes), EncodeOffer(offer, json).value)) == Success(Key(keyBytes))
    ensures InviteOffer(PackInvite(Encode(keyBytes), EncodeOffer(offer, json).value), json) == Success(offer)
  {
    OfferRoundTrip(offer, json);
    var keyString := Encode(keyBytes);
    var encoded := EncodeOffer(offer, json).value;
    EncodingShape(keyBytes);
    EncodingShape(CharCodes(json.stringify(offer)));
    EncodeLength(keyBytes);
    EncodeLength(CharCodes(json.stringify(offer)));
    InviteRoundTrip(keyString, encoded, "");
    KeyRoundTrip(Key(keyBytes));
  }

  /** completeConnection's extra whitespace removal before decodeOffer changes nothing. */
  lemma AnswerNormalizationHarmless(code: string, json: Json<ConnectionOffer>)
    ensures DecodeOffer(RemoveWhitespace(code), json) == DecodeOffer(code, json)
  {
    RemoveWhitespaceTrim(RemoveWhitespace(code));
    RemoveWhitespaceNoop(RemoveWhitespace(code));
    RemoveWhitespaceTrim(code);
  }

  /** The responder's answer code reaches the initiator intact. */
  lemma AnswerDelivers(answer: ConnectionOffer, json: Json<ConnectionOffer>)
    requires SoundJson(json) && IsBinary(json.stringify(answer))
    ensures EncodeOffer(answer, json).Success?
    ensures DecodeOffer(RemoveWhitespace(EncodeOffer(answer, json).value), json) == Success(answer)
  {
    OfferRoundTrip(answer, json);
    AnswerNormalizationHarmless(EncodeOffer(answer, json).value, json);
  }

  // ---------------------------------------------------------------------------
  // Inbound messages

  /** The message `setTimeout` sends 500 ms after the chat screen opens. */
  function IdentityMessage(username: string, now: int): PeerMessage
  {
    PeerMessage(SystemType, Identity(Some(username)), now, username)
  }

  /** The chat message sendMessage puts on the wire. */
  function ChatMessage(ciphertext: string, sender: string, now: int): PeerMessage
  {
    PeerMessage(ChatType, Text(ciphertext), now, sender)
  }

  /** A system message that names a non-empty user. */
  predicate AnnouncesPeer(m: PeerMessage)
  {
    m.kind == SystemType && m.payload.Identity? && m.payload.username.Some? && m.payload.username.value != ""
  }

  /**
    The entries handleIncomingMessage adds (a key is set): a notice for an identity, the
    decrypted text of a chat message (nothing when decryption throws), and an entry with
    the file record of a file message.
  */
  function ReceivedEntries(m: PeerMessage, key: Key, p: Platform, now: int): seq<Message>
  {
    match m.kind
    case SystemType =>
      if AnnouncesPeer(m) then [Notice(m.payload.username.value + JoinedSuffix, now)] else []
    case ChatType =>
      if m.payload.Text? then
        match OpenedText(m.payload.text, key, p.aead, p.text)
        case Success(content) => [Message(Chat, content, m.sender, m.timestamp, false, None)]
        case Failure(_) => []
      else []
    case FileType =>
      if m.payload.FileData? then
        [Message(File, FilePrefix + m.payload.attachment.name, m.sender, m.timestamp, false, Some(m.payload.attachment))]
      else []
    case PingType => []
  }

  /** The peer's name after handleIncomingMessage. */
  function PeerNameAfter(m: PeerMessage, current: string): string
  {
    if AnnouncesPeer(m) then m.payload.username.value else current
  }

  /**
    A chat message decrypts, under the shared key, to the sender's text, with the
    sender's name and time; a leading byte order mark does not survive the decoder.
  */
  lemma ChatDelivery(content: string, sender: string, sentAt: int, key: Key, iv: Bytes, p: Platform, now: int)
    requires SoundPlatform(p) && |iv| == IvLength
    ensures ReceivedEntries(ChatMessage(SealedText(content, key, iv, p.aead, p.text), sender, sentAt), key, p, now)
            == [Message(Chat, WithoutBom(content), sender, sentAt, false, None)]
    ensures (|content| == 0 || content[0] != Bom) ==>
      ReceivedEntries(ChatMessage(SealedText(content, key, iv, p.aead, p.text), sender, sentAt), key, p, now)
      == [Message(Chat, content, sender, sentAt, false, None)]
  {
    TextRoundTrip(content, key, iv, p.aead, p.text);
  }

  /** A message that does not authenticate under the key adds nothing. */
  lemma TamperedChatDropped(m: PeerMessage, key: Key, p: Platform, now: int)
    requires m.kind == ChatType && m.payload.Text?
    requires OpenedText(m.payload.text, key, p.aead, p.text).Failure?
    ensures ReceivedEntries(m, key, p, now) == []
    ensures PeerNameAfter(m, "") == ""
  {
  }

  /** The identity message names its sender: the receiver learns the name and announces it. */
  lemma IdentityDelivery(username: string, sentAt: int, key: Key, p: Platform, now: int, current: string)
    requires username != ""
    ensures ReceivedEntries(IdentityMessage(username, sentAt), key, p, now) == [Notice(username + JoinedSuffix, now)]
    ensures PeerNameAfter(IdentityMessage(username, sentAt), current) == username
  {
  }

  /** A received file entry carries the record as sent, whose data decodes to the file bytes. */
  lemma FileDelivery(file: LocalFile, sender: string, sentAt: int, key: Key, p: Platform, now: int)
    ensures var entries := ReceivedEntries(FileMessage(file, sender, sentAt), key, p, now);
      && |entries| == 1
      && entries[0].content == FilePrefix + file.name
      && entries[0].sender == sender && entries[0].timestamp == sentAt && !entries[0].isOwn
      && entries[0].file.Some?
      && Decode(entries[0].file.value.data) == Some(file.bytes)
      && entries[0].file.value.size == |file.bytes|
  {
    FileMessageCarriesBytes(file, sender, sentAt);
  }

  /** Only a system message can change the peer's name; at most one entry per message. */
  lemma ReceivedEntriesBound(m: PeerMessage, key: Key, p: Platform, now: int, current: string)
    ensures |ReceivedEntries(m, key, p, now)| <= 1
    ensures m.kind != SystemType ==> PeerNameAfter(m, current) == current
    ensures m.kind == PingType ==> ReceivedEntries(m, key, p, now) == []
  {
  }

  // ---------------------------------------------------------------------------
  // The session

  class ChatSession {
    const connection: P2PConnection
    const platform: Platform
    /** The `screen` value the state callback captured when the hook mounted. */
    const screenAtMount: AppScreen

    var screen: AppScreen
    var username: string
    var messages: seq<Message>
    var connectionState: ConnectionState
    var connectionOffer: string
    var isInitiator: bool
    var peerUsername: string
    /** `encryptionKeyRef.current`. */
    var key: Option<Key>
    /** The user names captured by identity timers that have not fired yet, oldest first. */
    var pendingIdentity: seq<string>
    /** How many of the connection's `onStateChange` calls have been relayed. */
    var relayed: nat

    /** Every state change of the connection has been relayed, so the shown state is the connection's. */
    ghost predicate Valid()
      reads this, connection
    {
      relayed == |connection.notified| && connectionState == connection.state && connection.peerConnection.Some?
    }

    /** Mounting the hook: a random user name, a fresh connection, nothing else. */
    constructor(platform: Platform, r1: Unit, r2: Unit, r3: Unit)
      ensures Valid() && fresh(connection)
      ensures this.platform == platform && screenAtMount == Home
      ensures screen == Home && username == GenerateUsername(r1, r2, r3) && IsUsername(username)
      ensures messages == [] && connectionState == Disconnected && connectionOffer == ""
      ensures !isInitiator && peerUsername == "" && key.None? && pendingIdentity == []
    {
      this.platform := platform;
      screenAtMount := Home;
      screen := Home;
      username := GenerateUsername(r1, r2, r3);
      messages := [];
      connectionState := Disconnected;
      connectionOffer := "";
      isInitiator := false;
      peerUsername := "";
      key := None;
      pendingIdentity := [];
      relayed := 0;
      connection := new P2PConnection();
    }

    /** addSystemMessage. */
    method AddSystemMessage(content: string, now: int)
      modifies this`messages
      ensures messages == old(messages) + [Notice(content, now)]
    {
      messages := messages + [Notice(content, now)];
    }

    /** The `onStateChange` callback. */
    method HandleStateChange(state: ConnectionState, now: int)
      modifies this`connectionState, this`messages
      ensures connectionState == state
      ensures messages == old(messages) + StateNotices(state, screenAtMount, now)
    {
      connectionState := state;
      if state == Connected {
        AddSystemMessage(ConnectedNotice, now);
      } else if state == Disconnected && screenAtMount == ChatScreen {
        AddSystemMessage(PeerLeftNotice, now);
      }
    }

    /** Runs the callback for a state change the connection has just reported, if any. */
    method Relay(now: int)
      requires relayed <= |connection.notified| <= relayed + 1
      requires |connection.notified| == relayed ==> connectionState == connection.state
      requires |connection.notified| > relayed ==> connection.notified[relayed] == connection.state
      modifies this`relayed, this`connectionState, this`messages
      ensures relayed == |connection.notified| && connectionState == connection.state
      ensures messages == old(messages)
        + (if |connection.notified| > old(relayed) then StateNotices(connection.notified[old(relayed)], screenAtMount, now) else [])
    {
      if |connection.notified| > relayed {
        HandleStateChange(connection.notified[relayed], now);
        relayed := relayed + 1;
      }
    }

    /** handleIncomingMessage: ignored until a key is set. */
    method HandleIncomingMessage(m: PeerMessage, now: int)
      modifies this`messages, this`peerUsername
      ensures key.None? ==> messages == old(messages) && peerUsername == old(peerUsername)
      ensures key.Some? ==>
        && messages == old(messages) + ReceivedEntries(m, key.value, platform, now)
        && peerUsername == PeerNameAfter(m, old(peerUsername))
    {
      if key.None? {
        return;
      }
      var k := key.value;
      if m.kind == SystemType {
        if AnnouncesPeer(m) {
          peerUsername := m.payload.username.value;
          AddSystemMessage(m.payload.username.value + JoinedSuffix, now);
        }
        return;
      }
      if m.kind == ChatType {
        if m.payload.Text? {
          var decrypted := DecryptMessage(m.payload.text, k, platform.aead, platform.text);
          if decrypted.Success? {
            messages := messages + [Message(Chat, decrypted.value, m.sender, m.timestamp, false, None)];
          }
        }
      }
      if m.kind == FileType {
        if m.payload.FileData? {
          var record := m.payload.attachment;
          messages := messages + [Message(File, FilePrefix + record.name, m.sender, m.timestamp, false, Some(record))];
        }
      }
    }

    /** The data channel's `onmessage`, passed on to handleIncomingMessage when it parses. */
    method OnPeerData(data: string, now: int)
      modifies this`messages, this`peerUsername
      ensures Receive(data, platform.messageJson).None? ==>
        messages == old(messages) && peerUsername == old(peerUsername)
      ensures Receive(data, platform.messageJson).Some? && key.Some? ==>
        var m := Receive(data, platform.messageJson).value;
        && messages == old(messages) + ReceivedEntries(m, key.value, platform, now)
        && peerUsername == PeerNameAfter(m, old(peerUsername))
      ensures key.None? ==> messages == old(messages) && peerUsername == old(peerUsername)
    {
      match Receive(data, platform.messageJson)
      case None =>
      case Some(m) =>
        HandleIncomingMessage(m, now);
    }

    /** The browser reports a new peer connection state. */
    method OnPeerConnectionStateChange(s: PeerConnectionState, now: int)
      requires Valid()
      modifies this`relayed, this`connectionState, this`messages, connection`state, connection`notified
      ensures Valid()
      ensures ReportedState(s).None? ==> connectionState == old(connectionState) && messages == old(messages)
      ensures ReportedState(s).Some? ==> connectionState == ReportedState(s).value
      ensures ReportedState(s).Some? ==>
        messages == old(messages)
          + (if old(connectionState) == connectionState then [] else StateNotices(connectionState, screenAtMount, now))
    {
      connection.OnConnectionStateChange(s);
      Relay(now);
    }

    /** The responder's peer connection announces the initiator's data channel. */
    method OnDataChannel(channel: DataChannel)
      requires Valid()
      modifies connection`dataChannel
      ensures Valid() && connection.dataChannel == Some(channel)
    {
      connection.OnDataChannel(channel);
    }

    /** The data channel opens: the conversation is connected. */
    method OnChannelOpen(now: int)
      requires Valid()
      modifies this`relayed, this`connectionState, this`messages, connection`dataChannel, connection`state, connection`notified
      ensures Valid() && connectionState == Connected
      ensures messages == old(messages) + (if old(connectionState) == Connected then [] else [Notice(ConnectedNotice, now)])
      ensures old(connection.dataChannel).Some? ==> connection.CanSend()
    {
      connection.OnChannelOpen();
      Relay(now);
    }

    /** The data channel closes. */
    method OnChannelClose(now: int)
      requires Valid()
      modifies this`relayed, this`connectionState, this`messages, connection`dataChannel, connection`state, connection`notified
      ensures Valid() && connectionState == Disconnected
      ensures messages == old(messages)
        + (if old(connectionState) == Disconnected then [] else StateNotices(Disconnected, screenAtMount, now))
      ensures !connection.CanSend()
    {
      connection.OnChannelClose();
      Relay(now);
    }

    /**
      createRoom: a fresh key from `keyBytes`, an offer, and the invite code
      `key|offer`. It throws when the offer cannot be made or encoded; the screen
      and the key are set by then.
    */
    method CreateRoom(keyBytes: Bytes, offerSdp: Option<string>, schedule: seq<seq<GatheringEvent>>, now: int)
      returns (r: Outcome)
      requires Valid() && |keyBytes| == KeyLength
      modifies this`isInitiator, this`screen, this`key, this`relayed, this`connectionState, this`messages,
               this`connectionOffer, connection
      ensures Valid()
      ensures isInitiator && screen == Create && key == Some(Key(keyBytes))
      ensures connectionState == Connecting && messages == old(messages)
      ensures connection.sent == old(connection.sent)
      ensures connection.dataChannel == Some(DataChannel(ChannelLabel, true, ChannelConnecting))
      ensures r.Pass? <==>
        offerSdp.Some? && EncodeOffer(ConnectionOffer(Offer, offerSdp.value, connection.iceCandidates), platform.offerJson).Success?
      ensures r.Pass? ==>
        connectionOffer == PackInvite(Encode(keyBytes),
          EncodeOffer(ConnectionOffer(Offer, offerSdp.value, connection.iceCandidates), platform.offerJson).value)
      ensures r.Fail? ==> connectionOffer == old(connectionOffer)
      ensures offerSdp.Some? ==>
        connection.iceCandidates == Settled(old(connection.View()), schedule).candidates
    {
      isInitiator := true;
      screen := Create;
      var k := GenerateKey(keyBytes);
      key := Some(k);
      var keyString := ExportKey(k);
      var offer := connection.CreateOffer(offerSdp, schedule);
      Relay(now);
      if offer.Failure? {
        return Fail(offer.error);
      }
      var encoded := EncodeOffer(offer.value, platform.offerJson);
      if encoded.Failure? {
        return Fail(encoded.error);
      }
      connectionOffer := PackInvite(keyString, encoded.value);
      r := Pass;
    }

    /**
      joinRoom: parse the code, import the key, decode and accept the offer, and show
      the answer code. Any failure adds "Failed to join room. Invalid invite code.";
      a key imported before the failure stays set.
    */
    method JoinRoom(code: string, remoteApplied: bool, accepts: Candidate -> bool,
                    answerSdp: Option<string>, schedule: seq<seq<GatheringEvent>>, now: int)
      returns (r: Outcome)
      requires Valid()
      modifies this`key, this`relayed, this`connectionState, this`messages, this`connectionOffer,
               this`isInitiator, this`screen, connection
      ensures Valid()
      ensures key == if InviteKey(code).Success? then Some(InviteKey(code).value) else old(key)
      ensures connection.sent == old(connection.sent) && connection.dataChannel == old(connection.dataChannel)
      ensures InviteOffer(code, platform.offerJson).Failure? ==>
        && r == Fail(InviteOffer(code, platform.offerJson).error)
        && connection.state == old(connection.state) && connection.notified == old(connection.notified)
        && connection.peerConnection == old(connection.peerConnection)
        && connection.iceCandidates == old(connection.iceCandidates)
      ensures InviteOffer(code, platform.offerJson).Success? ==>
        && connectionState == Connecting
        && (r.Pass? <==>
              (remoteApplied && answerSdp.Some?
               && EncodeOffer(ConnectionOffer(Answer, answerSdp.value, connection.iceCandidates), platform.offerJson).Success?))
      ensures InviteOffer(code, platform.offerJson).Success? && remoteApplied ==>
        && connection.peerConnection.value.remoteDescription
           == Some(SessionDescription(Offer, InviteOffer(code, platform.offerJson).value.sdp))
        && connection.peerConnection.value.remoteCandidates
           == old(connection.peerConnection.value.remoteCandidates)
              + Accepted(InviteOffer(code, platform.offerJson).value.iceCandidates, accepts)
      ensures r.Pass? ==>
        && connection.iceCandidates == Settled(old(connection.View()), schedule).candidates
        && connection.peerConnection.value.localDescription == Some(SessionDescription(Answer, answerSdp.value))
      ensures r.Pass? ==>
        && connectionOffer == EncodeOffer(ConnectionOffer(Answer, answerSdp.value, connection.iceCandidates), platform.offerJson).value
        && !isInitiator && screen == Join && messages == old(messages)
      ensures r.Fail? ==>
        && messages == old(messages) + [Notice(JoinFailedNotice, now)]
        && connectionOffer == old(connectionOffer) && isInitiator == old(isInitiator) && screen == old(screen)
    {
      var outcome := JoinSteps(code, remoteApplied, accepts, answerSdp, schedule, now);
      if outcome.Fail? {
        AddSystemMessage(JoinFailedNotice, now);
      }
      r := outcome;
    }

    /** The body of joinRoom's `try`. */
    method JoinSteps(code: string, remoteApplied: bool, accepts: Candidate -> bool,
                     answerSdp: Option<string>, schedule: seq<seq<GatheringEvent>>, now: int)
      returns (r: Outcome)
      requires Valid()
      modifies this`key, this`relayed, this`connectionState, this`messages, this`connectionOffer,
               this`isInitiator, this`screen, connection
      ensures Valid()
      ensures messages == old(messages)
      ensures key == if InviteKey(code).Success? then Some(InviteKey(code).value) else old(key)
      ensures connection.sent == old(connection.sent) && connection.dataChannel == old(connection.dataChannel)
      ensures InviteOffer(code, platform.offerJson).Failure? ==>
        && r == Fail(InviteOffer(code, platform.offerJson).error)
        && connection.state == old(connection.state) && connection.notified == old(connection.notified)
        && connection.peerConnection == old(connection.peerConnection)
        && connection.iceCandidates == old(connection.iceCandidates)
      ensures InviteOffer(code, platform.offerJson).Success? ==>
        && connectionState == Connecting
        && (r.Pass? <==>
              (remoteApplied && answerSdp.Some?
               && EncodeOffer(ConnectionOffer(Answer, answerSdp.value, connection.iceCandidates), platform.offerJson).Success?))
      ensures InviteOffer(code, platform.offerJson).Success? && remoteApplied ==>
        && connection.peerConnection.value.remoteDescription
           == Some(SessionDescription(Offer, InviteOffer(code, platform.offerJson).value.sdp))
        && connection.peerConnection.value.remoteCandidates
           == old(connection.peerConnection.value.remoteCandidates)
              + Accepted(InviteOffer(code, platform.offerJson).value.iceCandidates, accepts)
      ensures r.Pass? ==>
        && connection.iceCandidates == Settled(old(connection.View()), schedule).candidates
        && connection.peerConnection.value.localDescription == Some(SessionDescription(Answer, answerSdp.value))
      ensures r.Pass? ==>
        && connectionOffer == EncodeOffer(ConnectionOffer(Answer, answerSdp.value, connection.iceCandidates), platform.offerJson).value
        && !isInitiator && screen == Join
      ensures r.Fail? ==>
        connectionOffer == old(connectionOffer) && isInitiator == old(isInitiator) && screen == old(screen)
    {
      var offer := ReadInvite(code);
      if offer.Failure? {
        return Fail(offer.error);
      }
      var answer := AcceptInvite(offer.value, remoteApplied, accepts, answerSdp, schedule, now);
      if answer.Failure? {
        return Fail(answer.error);
      }
      var encodedAnswer := EncodeOffer(answer.value, platform.offerJson);
      if encodedAnswer.Failure? {
        return Fail(encodedAnswer.error);
      }
      connectionOffer := encodedAnswer.value;
      isInitiator := false;
      screen := Join;
      r := Pass;
    }

    /** joinRoom's first steps: parse the code, import the key (kept once imported), decode the offer. */
    method ReadInvite(code: string) returns (r: Result<ConnectionOffer>)
      modifies this`key
      ensures r == InviteOffer(code, platform.offerJson)
      ensures key == if InviteKey(code).Success? then Some(InviteKey(code).value) else old(key)
    {
      var parsed := ParseInvite(code);
      if parsed.Failure? {
        return Failure(parsed.error);
      }
      var keyString, encodedOffer := parsed.value.0, parsed.value.1;
      var imported := ImportKey(keyString);
      if imported.Failure? {
        return Failure(imported.error);
      }
      key := Some(imported.value);
      r := DecodeOffer(encodedOffer, platform.offerJson);
    }

    /** joinRoom's call of acceptOffer, and the state callback it fires. */
    method AcceptInvite(offer: ConnectionOffer, remoteApplied: bool, accepts: Candidate -> bool,
                        answerSdp: Option<string>, schedule: seq<seq<GatheringEvent>>, now: int)
      returns (answer: Result<ConnectionOffer>)
      requires Valid()
      modifies this`relayed, this`connectionState, this`messages, connection
      ensures Valid() && connectionState == Connecting && messages == old(messages)
      ensures answer.Success? <==> remoteApplied && answerSdp.Some?
      ensures connection.sent == old(connection.sent) && connection.dataChannel == old(connection.dataChannel)
      ensures remoteApplied ==>
        && connection.peerConnection.value.remoteDescription == Some(SessionDescription(Offer, offer.sdp))
        && connection.peerConnection.value.remoteCandidates
           == old(connection.peerConnection.value.remoteCandidates) + Accepted(offer.iceCandidates, accepts)
      ensures answer.Success? ==>
        && connection.iceCandidates == Settled(old(connection.View()), schedule).candidates
        && connection.peerConnection.value.localDescription == Some(SessionDescription(Answer, answerSdp.value))
        && answer.value == ConnectionOffer(Answer, answerSdp.value, connection.iceCandidates)
    {
      answer := connection.AcceptOffer(offer, remoteApplied, accepts, answerSdp, schedule);
      Relay(now);
    }

    /**
      completeConnection (initiator): decode the answer and apply it, then open the chat
      and schedule the identity message. On failure the connection is reset and
      "Failed to connect. Invalid answer code." added.
    */
    method CompleteConnection(answerCode: string, remoteApplied: bool, accepts: Candidate -> bool, now: int)
      returns (r: Outcome)
      requires Valid()
      modifies this`relayed, this`connectionState, this`messages, this`pendingIdentity, this`screen, connection
      ensures Valid()
      ensures DecodeOffer(answerCode, platform.offerJson).Failure? ==>
        r == Fail(DecodeOffer(answerCode, platform.offerJson).error)
      ensures DecodeOffer(answerCode, platform.offerJson).Success? ==> (r.Pass? <==> remoteApplied)
      ensures connection.sent == old(connection.sent)
      ensures r.Pass? ==> connection.dataChannel == old(connection.dataChannel)
      ensures r.Pass? ==>
        && screen == ChatScreen && pendingIdentity == old(pendingIdentity) + [username]
        && messages == old(messages) && connectionState == old(connectionState)
        && connection.peerConnection.value.remoteDescription
           == Some(SessionDescription(Answer, DecodeOffer(answerCode, platform.offerJson).value.sdp))
        && connection.peerConnection.value.remoteCandidates
           == old(connection.peerConnection.value.remoteCandidates)
              + Accepted(DecodeOffer(answerCode, platform.offerJson).value.iceCandidates, accepts)
      ensures r.Fail? ==>
        && screen == old(screen) && pendingIdentity == old(pendingIdentity)
        && connectionState == Disconnected
        && connection.peerConnection == Some(NewPeerConnection) && connection.dataChannel.None?
        && messages == old(messages)
             + (if old(connectionState) == Disconnected then [] else StateNotices(Disconnected, screenAtMount, now))
             + [Notice(ConnectFailedNotice, now)]
    {
      var normalized := RemoveWhitespace(answerCode);
      AnswerNormalizationHarmless(answerCode, platform.offerJson);
      var answer := DecodeOffer(normalized, platform.offerJson);
      var outcome: Outcome;
      if answer.Failure? {
        outcome := Fail(answer.error);
      } else {
        outcome := connection.CompleteConnection(answer.value, remoteApplied, accepts);
      }
      if outcome.Fail? {
        AbandonConnection(now);
        return outcome;
      }
      pendingIdentity := pendingIdentity + [username];
      screen := ChatScreen;
      r := Pass;
    }

    /** completeConnection's `catch`: reset the transport, then add the failure notice. */
    method AbandonConnection(now: int)
      requires relayed == |connection.notified| && connectionState == connection.state
      modifies this`relayed, this`connectionState, this`messages, connection
      ensures Valid() && connectionState == Disconnected
      ensures connection.peerConnection == Some(NewPeerConnection) && connection.dataChannel.None?
      ensures connection.sent == old(connection.sent)
      ensures messages == old(messages)
        + (if old(connectionState) == Disconnected then [] else StateNotices(Disconnected, screenAtMount, now))
        + [Notice(ConnectFailedNotice, now)]
    {
      connection.Disconnect();
      Relay(now);
      AddSystemMessage(ConnectFailedNotice, now);
    }

    /** goToChat (responder): open the chat and schedule the identity message. */
    method GoToChat()
      modifies this`screen, this`pendingIdentity
      ensures screen == ChatScreen && pendingIdentity == old(pendingIdentity) + [username]
    {
      pendingIdentity := pendingIdentity + [username];
      screen := ChatScreen;
    }

    /**
      The oldest identity timer fires: it sends the user name it captured, if the
      channel is open (`accepted` is false where `send` throws).
    */
    method IdentityTimerFires(now: int, accepted: bool) returns (ok: bool)
      requires Valid() && pendingIdentity != []
      modifies this`pendingIdentity, connection`sent
      ensures Valid()
      ensures pendingIdentity == old(pendingIdentity)[1..]
      ensures ok == (connection.CanSend() && accepted)
      ensures connection.sent == old(connection.sent)
        + (if ok then [platform.messageJson.stringify(IdentityMessage(old(pendingIdentity)[0], now))] else [])
    {
      var name := pendingIdentity[0];
      pendingIdentity := pendingIdentity[1..];
      ok := connection.SendMessage(IdentityMessage(name, now), platform.messageJson, accepted);
    }

    /**
      sendMessage: encrypt under the session key with the fresh IV `iv`, send, and on
      success add the plain text as an own entry. Nothing happens without a key.
    */
    method SendMessage(content: string, iv: Bytes, now: int, accepted: bool)
      requires Valid() && |iv| == IvLength
      modifies this`messages, connection`sent
      ensures Valid()
      ensures key.None? ==> messages == old(messages) && connection.sent == old(connection.sent)
      ensures key.Some? ==>
        var wire := ChatMessage(SealedText(content, key.value, iv, platform.aead, platform.text), username, now);
        var ok := connection.CanSend() && accepted;
        && connection.sent == old(connection.sent) + (if ok then [platform.messageJson.stringify(wire)] else [])
        && messages == old(messages) + (if ok then [Message(Chat, content, username, now, true, None)] else [])
    {
      if key.None? {
        return;
      }
      var encrypted := EncryptMessage(content, key.value, iv, platform.aead, platform.text);
      var ok := connection.SendMessage(ChatMessage(encrypted, username, now), platform.messageJson, accepted);
      if ok {
        messages := messages + [Message(Chat, content, username, now, true, None)];
      }
    }

    /** sendFile: send the file and on success add an own entry whose record keeps no data. */
    method SendFile(file: LocalFile, now: int, readOk: bool, accepted: bool)
      requires Valid()
      modifies this`messages, connection`sent
      ensures Valid()
      ensures var ok := connection.CanSend() && readOk && accepted;
        && connection.sent == old(connection.sent)
             + (if ok then [platform.messageJson.stringify(FileMessage(file, username, now))] else [])
        && messages == old(messages)
             + (if ok then [Message(File, FilePrefix + file.name, username, now, true,
                                    Some(FileAttachment(file.name, |file.bytes|, file.mimeType, "")))] else [])
    {
      var ok := connection.SendFile(file, username, now, readOk, platform.messageJson, accepted);
      if ok {
        messages := messages + [Message(File, FilePrefix + file.name, username, now, true,
                                        Some(FileAttachment(file.name, |file.bytes|, file.mimeType, "")))];
      }
    }

    /** disconnect: reset the transport and the conversation, and forget the key. */
    method Disconnect(now: int)
      requires Valid()
      modifies this, connection
      ensures Valid()
      ensures connectionState == Disconnected && key.None?
      ensures messages == [] && connectionOffer == "" && screen == Home && peerUsername == ""
      ensures connection.peerConnection == Some(NewPeerConnection) && connection.dataChannel.None?
      ensures connection.iceCandidates == [] && !connection.iceGatheringComplete
      ensures username == old(username) && isInitiator == old(isInitiator) && pendingIdentity == old(pendingIdentity)
      ensures connection.sent == old(connection.sent)
    {
      connection.Disconnect();
      Relay(now);
      messages := [];
      connectionOffer := "";
      screen := Home;
      peerUsername := "";
      key := None;
    }

    /** The hook's `setScreen`. */
    method SetScreen(s: AppScreen)
      modifies this`screen
      ensures screen == s
    {
      screen := s;
    }

    /** The hook's `setUsername`. */
    method SetUsername(name: string)
      modifies this`username
      ensures username == name
    {
      username := name;
    }

    /** Unmounting the hook disconnects the transport; the session's state is discarded. */
    method Unmount()
      modifies connection
      ensures connection.peerConnection == Some(NewPeerConnection) && connection.dataChannel.None?
      ensures connection.state == Disconnected
    {
      connection.Disconnect();
    }
  }
}
