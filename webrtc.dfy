/**
  The peer-to-peer transport: one `P2PConnection` per session, wrapping a browser
  RTCPeerConnection and its data channel, and the codec that turns a connection
  descriptor into a shareable text (JSON, then base 64) and back.

  The browser is outside the model. What it decides is passed in: whether a promise
  resolves (`Option` or `bool` parameters), which SDP it produces, which remote
  candidates it accepts, and the ICE gathering events that arrive while the code waits.
  Browser events (`onicecandidate`, `onconnectionstatechange`, the channel's `onopen`
  and `onclose`, ...) are methods a caller invokes. Each call of the `onStateChange`
  callback is recorded in `notified`, and each text handed to `dataChannel.send` in `sent`.
*/
module WebRtc {
  import opened Wrappers
  import opened Base64
  import opened JsText
  import opened ChatTypes

  /** The connection state the class reports. */
  datatype ConnectionState = Disconnected | Connecting | Connected | Failed

  /** RTCPeerConnectionState. */
  datatype PeerConnectionState = PcNew | PcConnecting | PcConnected | PcDisconnected | PcFailed | PcClosed

  /** RTCIceGatheringState. */
  datatype IceGatheringState = IceNew | IceGathering | IceComplete

  /** RTCDataChannelState. */
  datatype ChannelState = ChannelConnecting | ChannelOpen | ChannelClosing | ChannelClosed

  /** RTCIceCandidateInit, as `candidate.toJSON()` gives it. */
  datatype Candidate = Candidate(
    candidate: string,
    sdpMid: Option<string>,
    sdpMLineIndex: Option<int>,
    usernameFragment: Option<string>)

  datatype SdpType = Offer | Answer

  datatype SessionDescription = SessionDescription(kind: SdpType, sdp: string)

  /** The descriptor exchanged out of band: SDP plus every local ICE candidate. */
  datatype ConnectionOffer = ConnectionOffer(kind: SdpType, sdp: string, iceCandidates: seq<Candidate>)

  /** The part of an RTCPeerConnection's state the class reads or changes. */
  datatype PeerConnection = PeerConnection(
    localDescription: Option<SessionDescription>,
    remoteDescription: Option<SessionDescription>,
    remoteCandidates: seq<Candidate>,
    iceGatheringState: IceGatheringState)

  /** `new RTCPeerConnection(...)`. */
  const NewPeerConnection: PeerConnection := PeerConnection(None, None, [], IceNew)

  /** An RTCDataChannel. */
  datatype DataChannel = DataChannel(channelLabel: string, ordered: bool, readyState: ChannelState)

  const ChannelLabel: string := "pop-chat"

  /** `PeerMessage.type`. */
  datatype PeerMessageType = ChatType | FileType | SystemType | PingType

  /**
    `PeerMessage.payload`: an encrypted chat text, a file record, the sender's
    identity `{ username? }`, or nothing.
  */
  datatype Payload =
    | Text(text: string)
    | FileData(attachment: FileAttachment)
    | Identity(username: Option<string>)
    | NoPayload

  datatype PeerMessage = PeerMessage(kind: PeerMessageType, payload: Payload, timestamp: int, sender: string)

  /** `JSON.stringify` and `JSON.parse` for values of type T; `parse` gives None where it throws. */
  datatype Json<!T> = Json(stringify: T -> string, parse: string -> Option<T>)

  /** Parsing what was stringified gives the value back. */
  ghost predicate SoundJson<T(!new)>(json: Json<T>)
  {
    forall v :: json.parse(json.stringify(v)) == Some(v)
  }

  /** A file picked by the user: `file.name`, `file.type` and the bytes `file.arrayBuffer()` yields. */
  datatype LocalFile = LocalFile(name: string, mimeType: string, bytes: Bytes)

  // ---------------------------------------------------------------------------
  // Connection state mapping

  /** The `onconnectionstatechange` switch: the reported state, or None when the case list has no entry. */
  function ReportedState(s: PeerConnectionState): Option<ConnectionState>
  {
    match s
    case PcConnected => Some(Connected)
    case PcDisconnected => Some(Disconnected)
    case PcClosed => Some(Disconnected)
    case PcFailed => Some(Failed)
    case PcConnecting => Some(Connecting)
    case PcNew => None
  }

  /** Only `new` is ignored, and every reported state arises from some browser state. */
  lemma ReportedStateCases(s: PeerConnectionState)
    ensures ReportedState(s).None? <==> s == PcNew
    ensures ReportedState(s) == Some(Disconnected) <==> s == PcDisconnected || s == PcClosed
    ensures forall c: ConnectionState :: exists p :: ReportedState(p) == Some(c)
  {
    forall c: ConnectionState ensures exists p :: ReportedState(p) == Some(c) {
      match c
      case Disconnected => assert ReportedState(PcDisconnected) == Some(c);
      case Connecting => assert ReportedState(PcConnecting) == Some(c);
      case Connected => assert ReportedState(PcConnected) == Some(c);
      case Failed => assert ReportedState(PcFailed) == Some(c);
    }
  }

  // ---------------------------------------------------------------------------
  // ICE gathering

  /** What `waitForIceGathering` looks at: the collected candidates, the flag and the browser's gathering state. */
  datatype Gathering = Gathering(candidates: seq<Candidate>, complete: bool, iceGatheringState: IceGatheringState)

  /** The condition `waitForIceGathering` polls for. */
  predicate Done(g: Gathering)
  {
    g.complete || g.iceGatheringState == IceComplete
  }

  /** A browser event during gathering: `onicecandidate` (None is the end-of-candidates event) or a gathering state change. */
  datatype GatheringEvent = CandidateEvent(candidate: Option<Candidate>) | GatheringStateEvent(state: IceGatheringState)

  /** The effect of one event on the gathering view, as the two handlers define it. */
  function Step(g: Gathering, e: GatheringEvent): Gathering
  {
    match e
    case CandidateEvent(c) => if c.Some? then g.(candidates := g.candidates + [c.value]) else g
    case GatheringStateEvent(s) => g.(iceGatheringState := s, complete := g.complete || s == IceComplete)
  }

  /** The effect of a run of events, oldest first. */
  function Steps(g: Gathering, es: seq<GatheringEvent>): Gathering
    decreases |es|
  {
    if |es| == 0 then g else Step(Steps(g, es[..|es| - 1]), es[|es| - 1])
  }

  /** The candidates a run of events carries, in order. */
  function CandidatesOf(es: seq<GatheringEvent>): seq<Candidate>
    decreases |es|
  {
    if |es| == 0 then []
    else
      var e := es[|es| - 1];
      CandidatesOf(es[..|es| - 1]) + (if e.CandidateEvent? && e.candidate.Some? then [e.candidate.value] else [])
  }

  /** Polling interval and timeout of `waitForIceGathering`, in milliseconds. */
  const PollIntervalMs: nat := 100
  const GatheringTimeoutMs: nat := 10000
  /** The last check happens when the timeout fires, 100 intervals after the first. */
  const MaxPolls: nat := GatheringTimeoutMs / PollIntervalMs

  /**
    `schedule[k]` holds the events that arrive before check k: check 0 is the immediate
    one, check k is k intervals later. Slots past the end of the schedule are empty.
  */
  function SlotEvents(schedule: seq<seq<GatheringEvent>>, k: nat): seq<GatheringEvent>
  {
    if k < |schedule| then schedule[k] else []
  }

  /** The gathering view seen by check k. */
  function Observed(g: Gathering, schedule: seq<seq<GatheringEvent>>, k: nat): Gathering
    decreases k
  {
    Steps(if k == 0 then g else Observed(g, schedule, k - 1), SlotEvents(schedule, k))
  }

  /** The candidates collected by check k, in order of arrival. */
  function ScheduledCandidates(schedule: seq<seq<GatheringEvent>>, k: nat): seq<Candidate>
    decreases k
  {
    (if k == 0 then [] else ScheduledCandidates(schedule, k - 1)) + CandidatesOf(SlotEvents(schedule, k))
  }

  /** The first check from k on that sees gathering done, or the timeout. */
  function FirstDone(g: Gathering, schedule: seq<seq<GatheringEvent>>, k: nat): nat
    requires k <= MaxPolls
    decreases MaxPolls - k
  {
    if k == MaxPolls || Done(Observed(g, schedule, k)) then k else FirstDone(g, schedule, k + 1)
  }

  /** The check at which `waitForIceGathering` resolves. */
  function PollsToResolve(g: Gathering, schedule: seq<seq<GatheringEvent>>): nat
  {
    FirstDone(g, schedule, 0)
  }

  /** The view when `waitForIceGathering` resolves. */
  function Settled(g: Gathering, schedule: seq<seq<GatheringEvent>>): Gathering
  {
    Observed(g, schedule, PollsToResolve(g, schedule))
  }

  /** A candidate event appends its candidate; nothing else touches the list. */
  lemma {:induction false} StepsCandidates(g: Gathering, es: seq<GatheringEvent>)
    ensures Steps(g, es).candidates == g.candidates + CandidatesOf(es)
    decreases |es|
  {
    if |es| > 0 {
      StepsCandidates(g, es[..|es| - 1]);
    }
  }

  /** Once the flag is set it stays set; it is set exactly when some event reports `complete`. */
  lemma {:induction false} StepsComplete(g: Gathering, es: seq<GatheringEvent>)
    ensures Steps(g, es).complete
            <==> g.complete || exists i :: 0 <= i < |es| && es[i] == GatheringStateEvent(IceComplete)
    decreases |es|
  {
    if |es| > 0 {
      var init := es[..|es| - 1];
      StepsComplete(g, init);
      if exists i :: 0 <= i < |init| && init[i] == GatheringStateEvent(IceComplete) {
        var i :| 0 <= i < |init| && init[i] == GatheringStateEvent(IceComplete);
        assert es[i] == init[i];
      }
      if exists i :: 0 <= i < |es| && es[i] == GatheringStateEvent(IceComplete) {
        var i :| 0 <= i < |es| && es[i] == GatheringStateEvent(IceComplete);
        if i < |init| {
          assert init[i] == es[i];
        }
      }
    }
  }

  /** Check k holds every candidate that arrived up to it, after those collected before the wait. */
  lemma {:induction false} ObservedCandidates(g: Gathering, schedule: seq<seq<GatheringEvent>>, k: nat)
    ensures Observed(g, schedule, k).candidates == g.candidates + ScheduledCandidates(schedule, k)
    decreases k
  {
    var before := if k == 0 then g else Observed(g, schedule, k - 1);
    StepsCandidates(before, SlotEvents(schedule, k));
    if k > 0 {
      ObservedCandidates(g, schedule, k - 1);
    }
  }

  lemma {:induction false} FirstDoneIsFirst(g: Gathering, schedule: seq<seq<GatheringEvent>>, k: nat)
    requires k <= MaxPolls
    ensures k <= FirstDone(g, schedule, k) <= MaxPolls
    ensures FirstDone(g, schedule, k) < MaxPolls ==> Done(Observed(g, schedule, FirstDone(g, schedule, k)))
    ensures forall j :: k <= j < FirstDone(g, schedule, k) ==> !Done(Observed(g, schedule, j))
    decreases MaxPolls - k
  {
    if k < MaxPolls && !Done(Observed(g, schedule, k)) {
      FirstDoneIsFirst(g, schedule, k + 1);
    }
  }

  /**
    The wait resolves at the first check that sees gathering done, and at the latest
    when the 10 second timeout fires; it resolves at once when gathering is already done.
  */
  lemma WaitResolves(g: Gathering, schedule: seq<seq<GatheringEvent>>)
    ensures PollsToResolve(g, schedule) <= MaxPolls
    ensures PollsToResolve(g, schedule) * PollIntervalMs <= GatheringTimeoutMs
    ensures PollsToResolve(g, schedule) == 0 <==> Done(Observed(g, schedule, 0))
    ensures PollsToResolve(g, schedule) < MaxPolls ==> Done(Settled(g, schedule))
    ensures forall j :: 0 <= j < PollsToResolve(g, schedule) ==> !Done(Observed(g, schedule, j))
  {
    FirstDoneIsFirst(g, schedule, 0);
  }

  /** Waiting loses no candidate: the result holds the earlier ones and then all that arrived, in order. */
  lemma SettledCandidates(g: Gathering, schedule: seq<seq<GatheringEvent>>)
    ensures Settled(g, schedule).candidates == g.candidates + ScheduledCandidates(schedule, PollsToResolve(g, schedule))
  {
    ObservedCandidates(g, schedule, PollsToResolve(g, schedule));
  }

  // ---------------------------------------------------------------------------
  // Remote candidates

  /** The candidates `addIceCandidate` accepts; `accepts(c)` is false where its promise rejects. */
  function Accepted(cs: seq<Candidate>, accepts: Candidate -> bool): seq<Candidate>
    decreases |cs|
  {
    if |cs| == 0 then []
    else Accepted(cs[..|cs| - 1], accepts) + (if accepts(cs[|cs| - 1]) then [cs[|cs| - 1]] else [])
  }

  /** A rejected candidate is skipped and does not stop the others: exactly the accepted ones are added. */
  lemma {:induction false} AcceptedMembers(cs: seq<Candidate>, accepts: Candidate -> bool)
    ensures |Accepted(cs, accepts)| <= |cs|
    ensures forall c :: c in Accepted(cs, accepts) <==> c in cs && accepts(c)
    decreases |cs|
  {
    if |cs| > 0 {
      var init := cs[..|cs| - 1];
      AcceptedMembers(init, accepts);
      assert cs == init + [cs[|cs| - 1]];
    }
  }

  /** When the browser accepts every candidate, all are added, in order. */
  lemma {:induction false} AcceptedAll(cs: seq<Candidate>, accepts: Candidate -> bool)
    requires forall c :: c in cs ==> accepts(c)
    ensures Accepted(cs, accepts) == cs
    decreases |cs|
  {
    if |cs| > 0 {
      var init := cs[..|cs| - 1];
      AcceptedAll(init, accepts);
      assert cs == init + [cs[|cs| - 1]];
    }
  }

  // ---------------------------------------------------------------------------
  // Descriptor codec

  /** Base 64 text holds neither `|` nor whitespace. */
  lemma EncodingShape(bs: Bytes)
    ensures '|' !in Encode(bs) && NoWhitespace(Encode(bs))
  {
    EncodeAlphabet(bs);
    var s := Encode(bs);
    forall i | 0 <= i < |s| ensures !IsWhitespace(s[i]) && s[i] != '|' {
      assert IsLetter(s[i]) || s[i] == PadChar;
    }
  }

  /**
    encodeOffer: `btoa(JSON.stringify(offer))`. It throws exactly when the JSON has a
    character code of 256 or more; otherwise the code is base 64 text, in groups of
    four, with no whitespace and no `|`.
  */
  function EncodeOffer(offer: ConnectionOffer, json: Json<ConnectionOffer>): (r: Result<string>)
    ensures r.Success? <==> IsBinary(json.stringify(offer))
    ensures r.Success? ==> NoWhitespace(r.value) && '|' !in r.value && |r.value| % 4 == 0
  {
    var text := json.stringify(offer);
    assert IsBinary(text) ==> '|' !in Encode(CharCodes(text)) && NoWhitespace(Encode(CharCodes(text))) by {
      if IsBinary(text) {
        EncodingShape(CharCodes(text));
      }
    }
    Btoa(text)
  }

  /**
    decodeOffer: trim, remove every whitespace character, `atob`, `JSON.parse`. It
    succeeds exactly when the text without its whitespace is base 64 of a JSON text
    that parses, and then yields what it parses to.
  */
  function DecodeOffer(encoded: string, json: Json<ConnectionOffer>): (r: Result<ConnectionOffer>)
    ensures Decode(RemoveWhitespace(encoded)).None? ==> r == Failure(InvalidCharacter)
    ensures Decode(RemoveWhitespace(encoded)).Some? ==>
      var parsed := json.parse(BinaryString(Decode(RemoveWhitespace(encoded)).value));
      && (parsed.None? ==> r == Failure(SyntaxError))
      && (parsed.Some? ==> r == Success(parsed.value))
  {
    RemoveWhitespaceTrim(encoded);
    var normalized := RemoveWhitespace(Trim(encoded));
    match Atob(normalized)
    case Failure(e) => Failure(e)
    case Success(text) =>
      match json.parse(text)
      case None => Failure(SyntaxError)
      case Some(offer) => Success(offer)
  }

  /** decodeOffer(encodeOffer(o)) == o whenever encoding succeeds, and it succeeds on Latin-1 JSON. */
  lemma OfferRoundTrip(offer: ConnectionOffer, json: Json<ConnectionOffer>)
    requires SoundJson(json)
    requires IsBinary(json.stringify(offer))
    ensures EncodeOffer(offer, json).Success?
    ensures DecodeOffer(EncodeOffer(offer, json).value, json) == Success(offer)
  {
    var encoded := EncodeOffer(offer, json).value;
    RemoveWhitespaceTrim(encoded);
    RemoveWhitespaceNoop(encoded);
    AtobBtoa(json.stringify(offer));
  }

  /** Whitespace inserted anywhere, line breaks from pasting included, does not change what is decoded. */
  lemma DecodeOfferIgnoresWhitespace(a: string, w: string, b: string, json: Json<ConnectionOffer>)
    requires AllWhitespace(w)
    ensures DecodeOffer(a + w + b, json) == DecodeOffer(a + b, json)
  {
    RemoveWhitespaceTrim(a + w + b);
    RemoveWhitespaceTrim(a + b);
    RemoveWhitespaceInsert(a, w, b);
  }

  // ---------------------------------------------------------------------------
  // Messages on the wire

  /** The data channel's `onmessage`: the parsed message, or None when `JSON.parse` throws and it is dropped. */
  function Receive(data: string, json: Json<PeerMessage>): Option<PeerMessage>
  {
    json.parse(data)
  }

  /** The message sendFile builds: name, size and type of the file, and the base 64 of its bytes. */
  function FileMessage(file: LocalFile, sender: string, now: int): PeerMessage
  {
    PeerMessage(FileType, FileData(FileAttachment(file.name, |file.bytes|, file.mimeType, Encode(file.bytes))), now, sender)
  }

  /** A file travels as the plain base 64 of its bytes: decoding the data gives the bytes back. */
  lemma FileMessageCarriesBytes(file: LocalFile, sender: string, now: int)
    ensures FileMessage(file, sender, now).payload.FileData?
    ensures Decode(FileMessage(file, sender, now).payload.attachment.data) == Some(file.bytes)
    ensures FileMessage(file, sender, now).payload.attachment.size == |file.bytes|
  {
    DecodeEncode(file.bytes);
  }

  // ---------------------------------------------------------------------------
  // The connection

  class P2PConnection {
    var peerConnection: Option<PeerConnection>
    var dataChannel: Option<DataChannel>
    var iceCandidates: seq<Candidate>
    var iceGatheringComplete: bool
    var state: ConnectionState
    /** The arguments of every `onStateChange` call so far, oldest first. */
    var notified: seq<ConnectionState>
    /** Every text handed to `dataChannel.send` so far, oldest first. */
    var sent: seq<string>

    /** The gathering view of the current peer connection. */
    function View(): Gathering
      reads this
      requires peerConnection.Some?
    {
      Gathering(iceCandidates, iceGatheringComplete, peerConnection.value.iceGatheringState)
    }

    /** `!this.dataChannel || this.dataChannel.readyState !== 'open'`, negated. */
    predicate CanSend()
      reads this
    {
      dataChannel.Some? && dataChannel.value.readyState == ChannelOpen
    }

    /** The constructor creates the peer connection at once. */
    constructor()
      ensures peerConnection == Some(NewPeerConnection) && dataChannel == None
      ensures iceCandidates == [] && !iceGatheringComplete
      ensures state == Disconnected && notified == [] && sent == []
    {
      peerConnection := Some(NewPeerConnection);
      dataChannel := None;
      iceCandidates := [];
      iceGatheringComplete := false;
      state := Disconnected;
      notified := [];
      sent := [];
    }

    /** updateState: a change is stored and reported once; the current state again does nothing. */
    method UpdateState(newState: ConnectionState)
      modifies this`state, this`notified
      ensures state == newState
      ensures notified == old(notified) + (if old(state) == newState then [] else [newState])
    {
      if state != newState {
        state := newState;
        notified := notified + [newState];
      }
    }

    /** getState: the state updateState last stored. */
    function GetState(): (s: ConnectionState)
      reads this
      ensures s == state
    {
      state
    }

    /** `onicecandidate`: a candidate is appended; the end-of-candidates event changes nothing. */
    method OnIceCandidate(candidate: Option<Candidate>)
      modifies this`iceCandidates
      ensures iceCandidates == old(iceCandidates) + (if candidate.Some? then [candidate.value] else [])
    {
      if candidate.Some? {
        iceCandidates := iceCandidates + [candidate.value];
      }
    }

    /** The browser moves to gathering state `s`, then fires `onicegatheringstatechange`. */
    method OnIceGatheringStateChange(s: IceGatheringState)
      modifies this`peerConnection, this`iceGatheringComplete
      ensures old(peerConnection).None? ==>
        peerConnection == old(peerConnection) && iceGatheringComplete == old(iceGatheringComplete)
      ensures old(peerConnection).Some? ==>
        && peerConnection == Some(old(peerConnection).value.(iceGatheringState := s))
        && iceGatheringComplete == (old(iceGatheringComplete) || s == IceComplete)
    {
      if peerConnection.Some? {
        peerConnection := Some(peerConnection.value.(iceGatheringState := s));
        if s == IceComplete {
          iceGatheringComplete := true;
        }
      }
    }

    /** `onconnectionstatechange`: each browser state but `new` is reported through updateState. */
    method OnConnectionStateChange(s: PeerConnectionState)
      modifies this`state, this`notified
      ensures ReportedState(s).None? ==> state == old(state) && notified == old(notified)
      ensures ReportedState(s).Some? ==>
        && state == ReportedState(s).value
        && notified == old(notified) + (if old(state) == state then [] else [state])
    {
      match ReportedState(s)
      case None =>
      case Some(reported) =>
        UpdateState(reported);
    }

    /** `ondatachannel`: the responder adopts the channel the initiator opened. */
    method OnDataChannel(channel: DataChannel)
      modifies this`dataChannel
      ensures dataChannel == Some(channel)
    {
      dataChannel := Some(channel);
    }

    /** The channel's `onopen`. */
    method OnChannelOpen()
      modifies this`dataChannel, this`state, this`notified
      ensures dataChannel == if old(dataChannel).Some? then Some(old(dataChannel).value.(readyState := ChannelOpen)) else None
      ensures state == Connected
      ensures notified == old(notified) + (if old(state) == Connected then [] else [Connected])
    {
      if dataChannel.Some? {
        dataChannel := Some(dataChannel.value.(readyState := ChannelOpen));
      }
      UpdateState(Connected);
    }

    /** The channel's `onclose`. */
    method OnChannelClose()
      modifies this`dataChannel, this`state, this`notified
      ensures dataChannel == if old(dataChannel).Some? then Some(old(dataChannel).value.(readyState := ChannelClosed)) else None
      ensures state == Disconnected
      ensures notified == old(notified) + (if old(state) == Disconnected then [] else [Disconnected])
    {
      if dataChannel.Some? {
        dataChannel := Some(dataChannel.value.(readyState := ChannelClosed));
      }
      UpdateState(Disconnected);
    }

    /** The events of one gathering slot, delivered to the two handlers in order. */
    method DeliverGatheringEvents(events: seq<GatheringEvent>)
      requires peerConnection.Some?
      modifies this`iceCandidates, this`iceGatheringComplete, this`peerConnection
      ensures peerConnection.Some?
      ensures View() == Steps(old(View()), events)
      ensures peerConnection == Some(old(peerConnection).value.(iceGatheringState := View().iceGatheringState))
    {
      ghost var start := View();
      for i := 0 to |events|
        invariant peerConnection.Some?
        invariant View() == Steps(start, events[..i])
        invariant peerConnection == Some(old(peerConnection).value.(iceGatheringState := View().iceGatheringState))
      {
        assert events[..i + 1][..i] == events[..i];
        match events[i]
        case CandidateEvent(c) =>
          OnIceCandidate(c);
        case GatheringStateEvent(s) =>
          OnIceGatheringStateChange(s);
      }
      assert events[..|events|] == events;
    }

    /**
      waitForIceGathering: checks at once, then every 100 ms, and gives up after 10 s.
      It resolves at the check `PollsToResolve` of the lemmas above.
    */
    method WaitForIceGathering(schedule: seq<seq<GatheringEvent>>) returns (polls: nat)
      requires peerConnection.Some?
      modifies this`iceCandidates, this`iceGatheringComplete, this`peerConnection
      ensures peerConnection.Some?
      ensures polls == PollsToResolve(old(View()), schedule)
      ensures View() == Settled(old(View()), schedule)
      ensures peerConnection == Some(old(peerConnection).value.(iceGatheringState := View().iceGatheringState))
    {
      ghost var start := View();
      DeliverGatheringEvents(SlotEvents(schedule, 0));
      polls := 0;
      while !(iceGatheringComplete || peerConnection.value.iceGatheringState == IceComplete) && polls < MaxPolls
        invariant polls <= MaxPolls
        invariant peerConnection.Some?
        invariant View() == Observed(start, schedule, polls)
        invariant FirstDone(start, schedule, polls) == PollsToResolve(start, schedule)
        invariant peerConnection == Some(old(peerConnection).value.(iceGatheringState := View().iceGatheringState))
        decreases MaxPolls - polls
      {
        polls := polls + 1;
        DeliverGatheringEvents(SlotEvents(schedule, polls));
      }
    }

    /** The `addIceCandidate` loop: each accepted candidate is added, a rejected one is skipped. */
    method AddRemoteCandidates(candidates: seq<Candidate>, accepts: Candidate -> bool)
      requires peerConnection.Some?
      modifies this`peerConnection
      ensures peerConnection == Some(old(peerConnection).value.(
        remoteCandidates := old(peerConnection).value.remoteCandidates + Accepted(candidates, accepts)))
    {
      ghost var start := peerConnection.value;
      assert start.remoteCandidates + Accepted(candidates[..0], accepts) == start.remoteCandidates;
      for i := 0 to |candidates|
        invariant peerConnection == Some(start.(remoteCandidates := start.remoteCandidates + Accepted(candidates[..i], accepts)))
      {
        assert candidates[..i + 1][..i] == candidates[..i];
        var pc := peerConnection.value;
        var added := if accepts(candidates[i]) then [candidates[i]] else [];
        assert Accepted(candidates[..i + 1], accepts) == Accepted(candidates[..i], accepts) + added;
        assert pc.remoteCandidates + added == start.remoteCandidates + Accepted(candidates[..i + 1], accepts);
        if accepts(candidates[i]) {
          peerConnection := Some(pc.(remoteCandidates := pc.remoteCandidates + [candidates[i]]));
        }
        assert peerConnection.value.remoteCandidates == start.remoteCandidates + Accepted(candidates[..i + 1], accepts);
      }
      assert candidates[..|candidates|] == candidates;
    }

    /**
      createOffer (initiator). `offerSdp` is the SDP the browser produced and applied,
      or None when createOffer or setLocalDescription rejected.
    */
    method CreateOffer(offerSdp: Option<string>, schedule: seq<seq<GatheringEvent>>)
      returns (r: Result<ConnectionOffer>)
      modifies this
      ensures old(peerConnection).None? ==> r == Failure(NotInitialized)
      ensures old(peerConnection).None? ==>
        && peerConnection == old(peerConnection) && dataChannel == old(dataChannel) && state == old(state)
        && iceCandidates == old(iceCandidates) && iceGatheringComplete == old(iceGatheringComplete)
        && notified == old(notified) && sent == old(sent)
      ensures old(peerConnection).Some? ==>
        && peerConnection.Some?
        && state == Connecting
        && notified == old(notified) + (if old(state) == Connecting then [] else [Connecting])
        && dataChannel == Some(DataChannel(ChannelLabel, true, ChannelConnecting))
        && sent == old(sent)
      ensures old(peerConnection).Some? && offerSdp.None? ==>
        && r == Failure(Rejected)
        && peerConnection == old(peerConnection)
        && iceCandidates == old(iceCandidates) && iceGatheringComplete == old(iceGatheringComplete)
      ensures old(peerConnection).Some? && offerSdp.Some? ==>
        var settled := Settled(old(View()), schedule);
        && iceCandidates == settled.candidates && iceGatheringComplete == settled.complete
        && peerConnection == Some(old(peerConnection).value.(
             localDescription := Some(SessionDescription(Offer, offerSdp.value)),
             iceGatheringState := settled.iceGatheringState))
        && r == Success(ConnectionOffer(Offer, offerSdp.value, settled.candidates))
    {
      if peerConnection.None? {
        return Failure(NotInitialized);
      }
      UpdateState(Connecting);
      dataChannel := Some(DataChannel(ChannelLabel, true, ChannelConnecting));
      if offerSdp.None? {
        return Failure(Rejected);
      }
      peerConnection := Some(peerConnection.value.(localDescription := Some(SessionDescription(Offer, offerSdp.value))));
      var _ := WaitForIceGathering(schedule);
      r := Success(ConnectionOffer(Offer, offerSdp.value, iceCandidates));
    }

    /**
      acceptOffer (responder). `remoteApplied` is whether setRemoteDescription resolved,
      `accepts` which offered candidates addIceCandidate accepts, and `answerSdp` the SDP
      the browser produced and applied, or None when createAnswer or setLocalDescription rejected.
    */
    method AcceptOffer(offer: ConnectionOffer, remoteApplied: bool, accepts: Candidate -> bool,
                       answerSdp: Option<string>, schedule: seq<seq<GatheringEvent>>)
      returns (r: Result<ConnectionOffer>)
      modifies this
      ensures old(peerConnection).None? ==> r == Failure(NotInitialized)
      ensures old(peerConnection).None? ==>
        && peerConnection == old(peerConnection) && dataChannel == old(dataChannel) && state == old(state)
        && iceCandidates == old(iceCandidates) && iceGatheringComplete == old(iceGatheringComplete)
        && notified == old(notified) && sent == old(sent)
      ensures old(peerConnection).Some? ==>
        && peerConnection.Some?
        && state == Connecting
        && notified == old(notified) + (if old(state) == Connecting then [] else [Connecting])
        && dataChannel == old(dataChannel)
        && sent == old(sent)
      ensures old(peerConnection).Some? && !remoteApplied ==>
        && r == Failure(Rejected)
        && peerConnection == old(peerConnection)
        && iceCandidates == old(iceCandidates) && iceGatheringComplete == old(iceGatheringComplete)
      ensures old(peerConnection).Some? && remoteApplied ==>
        var pc := old(peerConnection).value.(
          remoteDescription := Some(SessionDescription(Offer, offer.sdp)),
          remoteCandidates := old(peerConnection).value.remoteCandidates + Accepted(offer.iceCandidates, accepts));
        && (answerSdp.None? ==>
              && r == Failure(Rejected)
              && peerConnection == Some(pc)
              && iceCandidates == old(iceCandidates) && iceGatheringComplete == old(iceGatheringComplete))
        && (answerSdp.Some? ==>
              var settled := Settled(old(View()), schedule);
              && iceCandidates == settled.candidates && iceGatheringComplete == settled.complete
              && peerConnection == Some(pc.(
                   localDescription := Some(SessionDescription(Answer, answerSdp.value)),
                   iceGatheringState := settled.iceGatheringState))
              && r == Success(ConnectionOffer(Answer, answerSdp.value, settled.candidates)))
    {
      if peerConnection.None? {
        return Failure(NotInitialized);
      }
      UpdateState(Connecting);
      if !remoteApplied {
        return Failure(Rejected);
      }
      peerConnection := Some(peerConnection.value.(remoteDescription := Some(SessionDescription(Offer, offer.sdp))));
      AddRemoteCandidates(offer.iceCandidates, accepts);
      if answerSdp.None? {
        return Failure(Rejected);
      }
      peerConnection := Some(peerConnection.value.(localDescription := Some(SessionDescription(Answer, answerSdp.value))));
      var _ := WaitForIceGathering(schedule);
      r := Success(ConnectionOffer(Answer, answerSdp.value, iceCandidates));
    }

    /**
      completeConnection (initiator): applies the answer and its candidates. It does not
      change the reported state; the channel's `onopen` does that later.
    */
    method CompleteConnection(answer: ConnectionOffer, remoteApplied: bool, accepts: Candidate -> bool)
      returns (r: Outcome)
      modifies this`peerConnection
      ensures old(peerConnection).None? ==> r == Fail(NotInitialized) && peerConnection == old(peerConnection)
      ensures old(peerConnection).Some? && !remoteApplied ==> r == Fail(Rejected) && peerConnection == old(peerConnection)
      ensures old(peerConnection).Some? && remoteApplied ==>
        && r == Pass
        && peerConnection == Some(old(peerConnection).value.(
             remoteDescription := Some(SessionDescription(Answer, answer.sdp)),
             remoteCandidates := old(peerConnection).value.remoteCandidates + Accepted(answer.iceCandidates, accepts)))
    {
      if peerConnection.None? {
        return Fail(NotInitialized);
      }
      if !remoteApplied {
        return Fail(Rejected);
      }
      peerConnection := Some(peerConnection.value.(remoteDescription := Some(SessionDescription(Answer, answer.sdp))));
      AddRemoteCandidates(answer.iceCandidates, accepts);
      r := Pass;
    }

    /** sendMessage: refuses unless the channel is open; `accepted` is false where `send` throws. */
    method SendMessage(message: PeerMessage, json: Json<PeerMessage>, accepted: bool) returns (ok: bool)
      modifies this`sent
      ensures ok == (CanSend() && accepted)
      ensures sent == old(sent) + (if ok then [json.stringify(message)] else [])
    {
      if !CanSend() {
        return false;
      }
      if !accepted {
        return false;
      }
      sent := sent + [json.stringify(message)];
      ok := true;
    }

    /**
      sendFile: the file bytes as a binary string, `btoa`, and a `file` message stamped
      `now`. `readOk` is false where `file.arrayBuffer()` rejects.
    */
    method SendFile(file: LocalFile, sender: string, now: int, readOk: bool, json: Json<PeerMessage>, accepted: bool)
      returns (ok: bool)
      modifies this`sent
      ensures ok == (CanSend() && readOk && accepted)
      ensures sent == old(sent) + (if ok then [json.stringify(FileMessage(file, sender, now))] else [])
    {
      if !CanSend() {
        return false;
      }
      if !readOk {
        return false;
      }
      var binary := BinaryString(file.bytes);
      BtoaBinaryString(file.bytes);
      var base64 := Btoa(binary).value;
      var message := PeerMessage(FileType, FileData(FileAttachment(file.name, |file.bytes|, file.mimeType, base64)), now, sender);
      ok := SendMessage(message, json, accepted);
    }

    /** disconnect: closes everything, reports `disconnected` if that is news, and starts a fresh peer connection. */
    method Disconnect()
      modifies this`peerConnection, this`dataChannel, this`iceCandidates, this`iceGatheringComplete,
               this`state, this`notified
      ensures peerConnection == Some(NewPeerConnection) && dataChannel == None
      ensures iceCandidates == [] && !iceGatheringComplete
      ensures state == Disconnected
      ensures notified == old(notified) + (if old(state) == Disconnected then [] else [Disconnected])
    {
      dataChannel := None;
      peerConnection := None;
      iceCandidates := [];
      iceGatheringComplete := false;
      UpdateState(Disconnected);
      peerConnection := Some(NewPeerConnection);
    }
  }
}
