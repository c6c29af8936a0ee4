/**
 * The voice-session component: its connection state, the resources of the
 * live session, the error it shows, and the transitions that start, stop and
 * react to the session. The parent's callbacks are recorded as what the parent
 * has been told.
 */
module Connector {
  import opened Wrappers
  import opened Json
  import opened Http
  import opened Types
  import opened WebRtc
  import EphemeralKey

  /** The states a peer connection reports. */
  datatype PeerConnectionState = New | Connecting | Connected | Disconnected | Failed | Closed

  /** The component's state: a reported peer state, or one of its own `"idle"` and `"error"`. */
  datatype ConnectionState = Idle | Error | Peer(state: PeerConnectionState)

  function PeerStateName(s: PeerConnectionState): string
  {
    match s
    case New => "new"
    case Connecting => "connecting"
    case Connected => "connected"
    case Disconnected => "disconnected"
    case Failed => "failed"
    case Closed => "closed"
  }

  /** A reported state that means the connection dropped. */
  predicate IsDrop(s: PeerConnectionState)
  {
    s == Failed || s == Closed || s == Disconnected
  }

  function DropMessage(s: PeerConnectionState): string
  {
    "Connection " + PeerStateName(s) + ". Please reconnect."
  }

  function ErrorText(message: string): string
  {
    "Error: " + message
  }

  // ---------------------------------------------------------------------------
  // Controls offered per state

  predicate StartOffered(c: ConnectionState) { c == Idle }

  predicate StopOffered(c: ConnectionState) { c == Peer(Connected) }

  predicate ReconnectOffered(c: ConnectionState)
  {
    (c == Peer(Disconnected) || c == Peer(Failed) || c == Peer(Closed)) && c != Idle
  }

  /**
   * At most one control is offered in any state: start only when idle, stop
   * only when connected, reconnect only after a drop; "connecting" shows a
   * disabled button, and "new" and "error" offer nothing.
   */
  lemma ControlsPerState(c: ConnectionState)
    ensures StartOffered(c) <==> c == Idle
    ensures StopOffered(c) <==> c == Peer(Connected)
    ensures ReconnectOffered(c) <==> c.Peer? && IsDrop(c.state)
    ensures !(StartOffered(c) && StopOffered(c)) && !(StartOffered(c) && ReconnectOffered(c))
    ensures !(StopOffered(c) && ReconnectOffered(c))
    ensures c == Error || c == Peer(New) || c == Peer(Connecting) ==>
      !StartOffered(c) && !StopOffered(c) && !ReconnectOffered(c)
  {
  }

  /** The microphone effect acts only while a connection exists and is connected or connecting. */
  predicate GateOpen(hasConnection: bool, c: ConnectionState)
  {
    hasConnection && (c == Peer(Connected) || c == Peer(Connecting))
  }

  /**
   * The command `sendCommand` builds: `{type: commandType, ...payload}`.
   * Every payload field is kept, and a payload `type` field overrides the
   * command type because the spread comes last.
   */
  function BuildCommand(commandType: string, payload: map<string, Json>): (c: map<string, Json>)
    ensures c.Keys == payload.Keys + {"type"}
    ensures forall k :: k in payload ==> c[k] == payload[k]
    ensures "type" !in payload ==> c["type"] == JString(commandType)
  {
    map["type" := JString(commandType)] + payload
  }

  /** The `value` of a fetched key, as the `Bearer` header renders it. */
  function KeyValue(key: Json): string
    requires Truthy(Property(key, "value"))
  {
    Display(Property(key, "value").value)
  }

  /**
   * The resources of a session were released: the connection closed with no
   * audio track still enabled and its audio tracks now disabled, the audio
   * element paused without a source, and the data channel closed.
   */
  twostate predicate Released(pc: PeerConnection?, audio: AudioElement?, dc: DataChannel?)
    reads pc, if pc == null then {} else pc.Tracks(), audio, dc
  {
    && (pc != null ==>
          && pc.isClosed && !pc.sendingAudioAtClose
          && pc.senders == old(pc.senders)
          && forall t :: t in pc.Tracks() ==>
               t.enabled == (if t.kind == AudioTrack then false else old(t.enabled)))
    && (audio != null ==> audio.paused && !audio.hasSource)
    && (dc != null ==> dc.readyState == ChannelClosed)
  }

  /**
   * The releasing steps of `stopConversation`, on the resources it captured:
   * audio off, then the connection closed; the audio element paused and
   * detached; the data channel closed; and audio off once more on the
   * captured connection.
   */
  method ReleaseSession(pc: PeerConnection?, audio: AudioElement?, dc: DataChannel?)
    modifies pc, if pc == null then {} else pc.Tracks(), audio, dc
    ensures Released(pc, audio, dc)
  {
    if pc != null {
      SetAudioEnabled(pc, false);
      pc.Close();
    }
    if audio != null {
      audio.Release();
    }
    if dc != null {
      dc.Close();
    }
    SetAudioEnabled(pc, false);
  }

  class WebRtcConnector {
    /** The participant's role, which picks the speech language of the credential. */
    const role: string
    var connectionState: ConnectionState
    var peerConnection: PeerConnection?
    var audioElement: AudioElement?
    var dataChannel: DataChannel?
    var error: Option<string>
    /** The states passed to the parent's `onConnectionStateChange`, in order. */
    var notified: seq<ConnectionState>
    /** The messages passed to the parent's `onMessageReceived`, in order. */
    var received: seq<(string, MessageRole)>
    /** How many times the parent's `onStopRecording` was called. */
    var stopRecordingRequests: nat

    /**
     * The three session resources exist together, and only while the state is
     * one a live connection reports before any drop.
     */
    ghost predicate Valid()
      reads this
    {
      && (peerConnection == null <==> audioElement == null)
      && (peerConnection == null <==> dataChannel == null)
      && (peerConnection != null ==>
            connectionState.Peer? && connectionState.state in {New, Connecting, Connected})
    }

    /** What a teardown may touch. */
    ghost function Resources(): set<object>
      reads this, if peerConnection == null then {} else {peerConnection}
    {
      (if peerConnection == null then {} else {peerConnection} + peerConnection.Tracks())
      + (if audioElement == null then {} else {audioElement})
      + (if dataChannel == null then {} else {dataChannel})
    }

    constructor (role: string)
      ensures Valid() && this.role == role
      ensures connectionState == Idle && error == None
      ensures peerConnection == null && audioElement == null && dataChannel == null
      ensures notified == [] && received == [] && stopRecordingRequests == 0
    {
      this.role := role;
      connectionState := Idle;
      peerConnection := null;
      audioElement := null;
      dataChannel := null;
      error := None;
      notified := [];
      received := [];
      stopRecordingRequests := 0;
    }

    /**
     * `stopConversation(notifyParent)`: disables the audio before closing the
     * connection, releases every resource, nulls each field and returns to
     * idle; the parent's stop callback runs iff `notifyParent`. The error shown
     * is kept.
     */
    method StopConversation(notifyParent: bool)
      modifies this, Resources()
      ensures Valid()
      ensures connectionState == Idle
      ensures peerConnection == null && audioElement == null && dataChannel == null
      ensures Released(old(peerConnection), old(audioElement), old(dataChannel))
      ensures notified == old(notified) + [Idle]
      ensures stopRecordingRequests == old(stopRecordingRequests) + (if notifyParent then 1 else 0)
      ensures error == old(error) && received == old(received)
    {
      ReleaseSession(peerConnection, audioElement, dataChannel);
      peerConnection := null;
      audioElement := null;
      dataChannel := null;
      connectionState := Idle;
      notified := notified + [Idle];
      if notifyParent {
        stopRecordingRequests := stopRecordingRequests + 1;
      }
    }

    /**
     * `handleError`: shows the error, enters `"error"` and tells the parent;
     * a live session is then torn down (ending in idle) without asking the
     * parent to stop recording.
     */
    method HandleError(message: string)
      requires Valid()
      modifies this, Resources()
      ensures Valid()
      ensures error == Some(ErrorText(message))
      ensures old(peerConnection) == null ==>
        && connectionState == Error && notified == old(notified) + [Error]
        && audioElement == null && dataChannel == null
      ensures old(peerConnection) != null ==>
        && connectionState == Idle && notified == old(notified) + [Error, Idle]
        && peerConnection == null && audioElement == null && dataChannel == null
        && Released(old(peerConnection), old(audioElement), old(dataChannel))
      ensures peerConnection == null
      ensures received == old(received) && stopRecordingRequests == old(stopRecordingRequests)
    {
      error := Some(ErrorText(message));
      connectionState := Error;
      notified := notified + [Error];
      if peerConnection != null {
        StopConversation(false);
      }
    }

    /**
     * `handleInternalConnectionState`: records and forwards the reported state.
     * A drop shows "Connection <state>. Please reconnect." and tears down a
     * live session; "connected" clears the error; other states keep it.
     */
    method HandleInternalConnectionState(s: PeerConnectionState)
      requires Valid()
      modifies this, Resources()
      ensures Valid()
      ensures error == if IsDrop(s) then Some(DropMessage(s)) else if s == Connected then None else old(error)
      ensures IsDrop(s) && old(peerConnection) != null ==>
        && connectionState == Idle && notified == old(notified) + [Peer(s), Idle]
        && peerConnection == null && audioElement == null && dataChannel == null
        && Released(old(peerConnection), old(audioElement), old(dataChannel))
      ensures !(IsDrop(s) && old(peerConnection) != null) ==>
        && connectionState == Peer(s) && notified == old(notified) + [Peer(s)]
        && peerConnection == old(peerConnection) && audioElement == old(audioElement)
        && dataChannel == old(dataChannel)
        && unchanged(old(Resources()))
      ensures received == old(received) && stopRecordingRequests == old(stopRecordingRequests)
    {
      connectionState := Peer(s);
      notified := notified + [Peer(s)];
      if IsDrop(s) {
        error := Some(DropMessage(s));
        if peerConnection != null {
          StopConversation(false);
        }
      } else if s == Connected {
        error := None;
      }
    }

    /**
     * `handleTextMessage`: forwards the message; an assistant message also asks
     * the parent to stop recording, so the user does not talk over the agent.
     */
    method HandleTextMessage(text: string, r: MessageRole)
      modifies this`received, this`stopRecordingRequests
      ensures received == old(received) + [(text, r)]
      ensures stopRecordingRequests == old(stopRecordingRequests) + (if r == Assistant then 1 else 0)
    {
      received := received + [(text, r)];
      if r == Assistant {
        stopRecordingRequests := stopRecordingRequests + 1;
      }
    }

    /** A data-channel message reaches the text and error handlers through the message switch. */
    method OnChannelMessage(e: InboundEvent)
      requires Valid()
      modifies this, Resources()
      ensures Valid()
      ensures Interpret(e) == [] ==>
        && connectionState == old(connectionState) && error == old(error) && notified == old(notified)
        && received == old(received) && stopRecordingRequests == old(stopRecordingRequests)
        && peerConnection == old(peerConnection) && audioElement == old(audioElement)
        && dataChannel == old(dataChannel) && unchanged(old(Resources()))
      ensures |Interpret(e)| == 1 && Interpret(e)[0].TextMessage? ==>
        && received == old(received) + [(Interpret(e)[0].text, Interpret(e)[0].role)]
        && stopRecordingRequests == old(stopRecordingRequests) + (if Interpret(e)[0].role == Assistant then 1 else 0)
        && connectionState == old(connectionState) && error == old(error) && notified == old(notified)
        && peerConnection == old(peerConnection) && audioElement == old(audioElement)
        && dataChannel == old(dataChannel) && unchanged(old(Resources()))
      ensures |Interpret(e)| == 1 && Interpret(e)[0].ErrorReport? ==>
        && error == Some(ErrorText(Interpret(e)[0].message))
        && connectionState == (if old(peerConnection) == null then Error else Idle)
        && notified == old(notified) + (if old(peerConnection) == null then [Error] else [Error, Idle])
        && peerConnection == null && audioElement == null && dataChannel == null
        && Released(old(peerConnection), old(audioElement), old(dataChannel))
        && received == old(received) && stopRecordingRequests == old(stopRecordingRequests)
    {
      var effects := Interpret(e);
      if |effects| == 1 {
        match effects[0]
        case TextMessage(text, r) => HandleTextMessage(text, r);
        case ErrorReport(message) => HandleError(message);
      }
    }

    /**
     * The microphone effect: while a connection exists and the state is
     * connected or connecting, the audio tracks follow `isRecording`; in any
     * other state nothing changes.
     */
    method MicEffect(isRecording: bool)
      requires Valid()
      modifies if peerConnection == null then {} else peerConnection.Tracks()
      ensures peerConnection != null ==> forall t :: t in peerConnection.Tracks() ==>
        t.enabled == (if GateOpen(true, connectionState) && t.kind == AudioTrack then isRecording else old(t.enabled))
    {
      if peerConnection != null && (connectionState == Peer(Connected) || connectionState == Peer(Connecting)) {
        SetAudioEnabled(peerConnection, isRecording);
      }
    }

    /** The channel's `onopen` event: from then on commands go out. */
    method ChannelOpened()
      requires Valid() && dataChannel != null
      modifies dataChannel
      ensures Valid()
      ensures dataChannel.readyState == ChannelOpen && dataChannel.sent == old(dataChannel.sent)
    {
      dataChannel.Open();
    }

    /** `sendCommand`: the built command goes out iff the data channel exists and is open. */
    method SendCommand(commandType: string, payload: map<string, Json>)
      modifies dataChannel
      ensures dataChannel != null ==>
        dataChannel.sent == if old(dataChannel.readyState) == ChannelOpen
                            then old(dataChannel.sent) + [BuildCommand(commandType, payload)]
                            else old(dataChannel.sent)
      ensures dataChannel != null ==> dataChannel.readyState == old(dataChannel.readyState)
    {
      SendCommandViaDataChannel(dataChannel, BuildCommand(commandType, payload));
    }

    /**
     * `startConversation`, offered when idle or after a drop. It first clears
     * the error and enters "connecting", then fetches the credential and sets
     * up the session. A failed fetch ends in "error" with the fetch's message;
     * a failed setup reports its error twice (once from the setup's own catch,
     * once from this method's) and also ends in "error"; a successful setup
     * stores the new resources and stays "connecting" until the connection
     * reports a state.
     */
    method StartConversation(keyResponse: FetchOutcome, keyBody: Result<map<string, Json>, string>, inputs: SetupInputs)
      requires Valid() && (StartOffered(connectionState) || ReconnectOffered(connectionState))
      modifies this, StreamTracks(inputs)
      ensures Valid()
      ensures received == old(received) && stopRecordingRequests == old(stopRecordingRequests)
      ensures EphemeralKey.FetchEphemeralKey(role, keyResponse, keyBody).result.Failure? ==>
        && connectionState == Error
        && error == Some(ErrorText(EphemeralKey.FetchEphemeralKey(role, keyResponse, keyBody).result.error))
        && notified == old(notified) + [Peer(Connecting), Error]
        && peerConnection == null
      ensures EphemeralKey.FetchEphemeralKey(role, keyResponse, keyBody).result.Success? && SetupOutcome(inputs).Failure? ==>
        && connectionState == Error
        && error == Some(ErrorText(SetupOutcome(inputs).error))
        && notified == old(notified) + [Peer(Connecting), Error, Error]
        && peerConnection == null
      ensures EphemeralKey.FetchEphemeralKey(role, keyResponse, keyBody).result.Success? && SetupOutcome(inputs).Success? ==>
        && connectionState == Peer(Connecting) && error == None
        && notified == old(notified) + [Peer(Connecting)]
        && peerConnection != null && fresh(peerConnection) && !peerConnection.isClosed
        && peerConnection.remoteDescription == Some(inputs.negotiation.body)
        && dataChannel != null && dataChannel.readyState == ChannelConnecting
        && audioElement != null && audioElement.autoplay
    {
      error := None;
      connectionState := Peer(Connecting);
      notified := notified + [Peer(Connecting)];
      var fetch := EphemeralKey.FetchEphemeralKey(role, keyResponse, keyBody);
      if fetch.result.Failure? {
        HandleError(fetch.result.error);
      } else {
        ConnectWithKey(KeyValue(fetch.result.value), inputs);
      }
    }

    /**
     * The rest of `startConversation`'s `try` once a key is in hand: set up the
     * session and store its resources, or, when setup fails, report its error
     * twice (from the setup's own catch, then from the caller's).
     */
    method ConnectWithKey(keyValue: string, inputs: SetupInputs)
      requires Valid() && peerConnection == null && connectionState == Peer(Connecting)
      modifies this, StreamTracks(inputs)
      ensures Valid()
      ensures received == old(received) && stopRecordingRequests == old(stopRecordingRequests)
      ensures SetupOutcome(inputs).Failure? ==>
        && connectionState == Error
        && error == Some(ErrorText(SetupOutcome(inputs).error))
        && notified == old(notified) + [Error, Error]
        && peerConnection == null
      ensures SetupOutcome(inputs).Success? ==>
        && connectionState == Peer(Connecting) && error == old(error) && notified == old(notified)
        && peerConnection != null && fresh(peerConnection) && !peerConnection.isClosed
        && peerConnection.remoteDescription == Some(inputs.negotiation.body)
        && dataChannel != null && dataChannel.readyState == ChannelConnecting
        && audioElement != null && audioElement.autoplay
    {
      var pc, audio, dc, _, result, reported := SetupConnection(keyValue, inputs);
      if result.Failure? {
        HandleError(reported[0]);
        HandleError(result.error);
      } else {
        peerConnection := pc;
        audioElement := audio;
        dataChannel := dc;
      }
    }
  }
}
