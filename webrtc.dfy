/**
 * The realtime transport helpers: the decision rules applied to inbound
 * data-channel events, to the negotiation answer and to the ICE progress, and
 * the peer connection, audio element and data channel they act on.
 * Browser objects are modelled by the state the source reads and writes.
 */
module WebRtc {
  import opened Wrappers
  import opened Json
  import opened Http
  import opened Types
  import Text

  // ---------------------------------------------------------------------------
  // Inbound data-channel events

  const AssistantTranscriptDone := "response.audio_transcript.done"
  const AssistantTranscriptDelta := "response.audio_transcript.delta"
  const UserTranscriptionCompleted := "conversation.item.input_audio_transcription.completed"
  const UserTranscriptionDelta := "conversation.item.input_audio_transcription.delta"
  const UserTranscriptionFailed := "conversation.item.input_audio_transcription.failed"

  /**
   * One data-channel message. Either handling throws before the switch (the
   * payload is not JSON, or is `null` so that reading `type` throws), carrying
   * the message of the thrown error, or it yields the event's `type`, its
   * `transcript` and its `error.message`, if any. A missing `type`, as for a
   * number, string, boolean or array payload, is the empty string, which
   * matches no handled type.
   */
  datatype InboundEvent =
    | Malformed(decodeError: string)
    | Decoded(eventType: string, transcript: string, errorMessage: Option<string>)

  /** What handling one message asks of the callbacks. */
  datatype ChannelEffect =
    | TextMessage(text: string, role: MessageRole)   // onTextMessage(text, role)
    | ErrorReport(message: string)                   // onError(new Error(message))

  /** The message reported when a transcription fails; an empty message counts as missing. */
  function TranscriptionFailure(errorMessage: Option<string>): string
  {
    "Transcription failed: " +
      (if errorMessage.None? || errorMessage.value == "" then "Unknown error" else errorMessage.value)
  }

  /**
   * The message switch: at most one callback per message. Text is produced only
   * by the two "completed" types, errors only by a failed transcription or a
   * message that does not decode, and every other type is ignored.
   */
  function Interpret(e: InboundEvent): (effects: seq<ChannelEffect>)
    ensures |effects| <= 1
    ensures (|effects| == 1 && effects[0].TextMessage?) <==>
      e.Decoded? && e.eventType in {AssistantTranscriptDone, UserTranscriptionCompleted}
    ensures (|effects| == 1 && effects[0].ErrorReport?) <==>
      e.Malformed? || (e.Decoded? && e.eventType == UserTranscriptionFailed)
    ensures |effects| == 1 && effects[0].TextMessage? ==>
      && effects[0].text == e.transcript
      && (effects[0].role == Assistant <==> e.eventType == AssistantTranscriptDone)
      && effects[0].role in {Assistant, User}
  {
    match e
    case Malformed(message) => [ErrorReport(message)]
    case Decoded(eventType, transcript, errorMessage) =>
      if eventType == AssistantTranscriptDone then [TextMessage(transcript, Assistant)]
      else if eventType == UserTranscriptionCompleted then [TextMessage(transcript, User)]
      else if eventType == UserTranscriptionFailed then [ErrorReport(TranscriptionFailure(errorMessage))]
      else []
  }

  /** The effects of a run of messages, handled one at a time in arrival order. */
  function InterpretAll(events: seq<InboundEvent>): seq<ChannelEffect>
  {
    if events == [] then [] else Interpret(events[0]) + InterpretAll(events[1..])
  }

  /** The texts of the text effects, in order. */
  function Texts(effects: seq<ChannelEffect>): seq<string>
  {
    if effects == [] then []
    else (if effects[0].TextMessage? then [effects[0].text] else []) + Texts(effects[1..])
  }

  /** The transcripts of the "completed" events, in order. */
  function CompletedTranscripts(events: seq<InboundEvent>): seq<string>
  {
    if events == [] then []
    else
      (if events[0].Decoded? && events[0].eventType in {AssistantTranscriptDone, UserTranscriptionCompleted}
       then [events[0].transcript] else [])
      + CompletedTranscripts(events[1..])
  }

  lemma {:induction false} TextsAppend(a: seq<ChannelEffect>, b: seq<ChannelEffect>)
    ensures Texts(a + b) == Texts(a) + Texts(b)
    decreases |a|
  {
    if a == [] {
      assert a + b == b;
    } else {
      TextsAppend(a[1..], b);
      assert (a + b)[1..] == a[1..] + b;
    }
  }

  /**
   * Over a run of messages, the texts handed on are exactly the transcripts of
   * the completed events, one each, in arrival order: nothing is dropped,
   * duplicated or reordered, and delta events contribute nothing.
   */
  lemma {:induction false} InterpretAllPreservesOrder(events: seq<InboundEvent>)
    ensures Texts(InterpretAll(events)) == CompletedTranscripts(events)
    decreases |events|
  {
    if events != [] {
      InterpretAllPreservesOrder(events[1..]);
      TextsAppend(Interpret(events[0]), InterpretAll(events[1..]));
    }
  }

  /** A finished assistant transcript becomes one assistant message and no error. */
  lemma AssistantDoneGivesOneMessage(transcript: string, errorMessage: Option<string>)
    ensures Interpret(Decoded(AssistantTranscriptDone, transcript, errorMessage)) ==
      [TextMessage(transcript, Assistant)]
  {
  }

  /** A completed user transcription becomes one user message; the delta variants give nothing. */
  lemma UserTranscriptionGivesOneMessage(transcript: string, errorMessage: Option<string>)
    ensures Interpret(Decoded(UserTranscriptionCompleted, transcript, errorMessage)) ==
      [TextMessage(transcript, User)]
    ensures Interpret(Decoded(UserTranscriptionDelta, transcript, errorMessage)) == []
    ensures Interpret(Decoded(AssistantTranscriptDelta, transcript, errorMessage)) == []
  {
  }

  /** A failed transcription becomes one error, with "Unknown error" when no message is given. */
  lemma FailedTranscriptionGivesOneError(transcript: string, message: string)
    ensures Interpret(Decoded(UserTranscriptionFailed, transcript, Some(message))) ==
      [ErrorReport("Transcription failed: " + (if message == "" then "Unknown error" else message))]
    ensures Interpret(Decoded(UserTranscriptionFailed, transcript, None)) ==
      [ErrorReport("Transcription failed: Unknown error")]
  {
    assert "Transcription failed: " + "Unknown error" == "Transcription failed: Unknown error";
  }

  /** An unrecognised type is ignored; a message that does not decode is one error. */
  lemma UnknownAndMalformedEvents(eventType: string, transcript: string, errorMessage: Option<string>, decodeError: string)
    requires eventType !in {AssistantTranscriptDone, UserTranscriptionCompleted, UserTranscriptionFailed}
    ensures Interpret(Decoded(eventType, transcript, errorMessage)) == []
    ensures Interpret(Malformed(decodeError)) == [ErrorReport(decodeError)]
  {
  }

  // ---------------------------------------------------------------------------
  // Negotiation answer

  /** The answer is accepted as a session description when it includes a `v=0` line. */
  predicate LooksLikeSdp(answer: string)
  {
    Text.Contains(answer, "v=0")
  }

  function RealtimeApiError(status: nat, statusText: string, body: string): string
  {
    "Realtime API error: " + Text.NatToString(status) + " " + statusText + " - " + body
  }

  const InvalidSdp := "Invalid SDP response received"

  /**
   * The answer to the offer POST: a non-OK response and a body without `v=0`
   * are both failures; only an OK response carrying `v=0` yields the answer,
   * which is the body unchanged.
   */
  function AcceptAnswer(response: FetchOutcome): (r: Result<string, string>)
    ensures r.Success? <==> response.Responded? && response.Ok() && LooksLikeSdp(response.body)
    ensures r.Success? ==> r.value == response.body
    ensures response.Threw? ==> r == Failure(response.message)
    ensures response.Responded? && !response.Ok() ==>
      r == Failure(RealtimeApiError(response.status, response.statusText, response.body))
    ensures response.Responded? && response.Ok() && !LooksLikeSdp(response.body) ==> r == Failure(InvalidSdp)
  {
    match response
    case Threw(message) => Failure(message)
    case Responded(status, statusText, body) =>
      if !response.Ok() then Failure(RealtimeApiError(status, statusText, body))
      else if !LooksLikeSdp(body) then Failure(InvalidSdp)
      else Success(body)
  }

  /** A genuine description, which starts with its version line, is accepted. */
  lemma VersionLineAccepted(body: string)
    requires |body| >= 3 && body[..3] == "v=0"
    ensures LooksLikeSdp(body)
  {
    Text.ContainsAt(body, "v=0", 0);
  }

  // ---------------------------------------------------------------------------
  // Waiting for ICE

  datatype IceState = IceNew | IceChecking | IceConnected | IceCompleted | IceFailed | IceDisconnected | IceClosed

  function IceName(s: IceState): string
  {
    match s
    case IceNew => "new"
    case IceChecking => "checking"
    case IceConnected => "connected"
    case IceCompleted => "completed"
    case IceFailed => "failed"
    case IceDisconnected => "disconnected"
    case IceClosed => "closed"
  }

  /** States that settle the wait successfully. */
  predicate IceUp(s: IceState) { s == IceConnected || s == IceCompleted }

  /** States that settle the wait with a rejection. */
  predicate IceDown(s: IceState) { s == IceFailed || s == IceClosed }

  predicate Settles(s: IceState) { IceUp(s) || IceDown(s) }

  const ConnectionTimedOut := "Connection timed out"

  function IceFailure(s: IceState): string
  {
    "ICE connection failed or closed: " + IceName(s)
  }

  /**
   * The ICE wait. `initial` is the state when the wait begins, `changes` the
   * state changes seen before the 10-second timer fires. Only the initial
   * check can resolve without a change, and it never rejects; the first change
   * that settles decides; if none does, the timer rejects.
   */
  function AwaitIce(initial: IceState, changes: seq<IceState>): (r: Result<(), string>)
    ensures IceUp(initial) ==> r.Success?
    ensures r.Success? ==> IceUp(initial) || exists k :: 0 <= k < |changes| && IceUp(changes[k])
    ensures r.Failure? ==> r.error in {ConnectionTimedOut, IceFailure(IceFailed), IceFailure(IceClosed)}
  {
    if IceUp(initial) then Success(()) else AwaitChanges(changes)
  }

  /** The wait once the initial check has not resolved: the change handler, then the timer. */
  function AwaitChanges(changes: seq<IceState>): (r: Result<(), string>)
    ensures r.Success? ==> exists k :: 0 <= k < |changes| && IceUp(changes[k])
    ensures r.Failure? ==> r.error in {ConnectionTimedOut, IceFailure(IceFailed), IceFailure(IceClosed)}
    ensures r.Failure? && r.error != ConnectionTimedOut ==> exists k :: 0 <= k < |changes| && IceDown(changes[k])
  {
    if changes == [] then Failure(ConnectionTimedOut)
    else if IceUp(changes[0]) then Success(())
    else if IceDown(changes[0]) then Failure(IceFailure(changes[0]))
    else AwaitChanges(changes[1..])
  }

  /** Index `k` holds the first change that settles the wait. */
  predicate FirstSettling(changes: seq<IceState>, k: int)
  {
    0 <= k < |changes| && Settles(changes[k]) && forall j :: 0 <= j < k ==> !Settles(changes[j])
  }

  /**
   * The wait's outcome is decided by the first settling change: it resolves on
   * connected or completed, rejects naming failed or closed, and times out when
   * no change settles.
   */
  lemma {:induction false} AwaitChangesDecidedByFirstSettling(changes: seq<IceState>)
    ensures forall k :: FirstSettling(changes, k) ==>
      AwaitChanges(changes) == (if IceUp(changes[k]) then Success(()) else Failure(IceFailure(changes[k])))
    ensures (forall j :: 0 <= j < |changes| ==> !Settles(changes[j])) ==>
      AwaitChanges(changes) == Failure(ConnectionTimedOut)
    decreases |changes|
  {
    if changes != [] {
      AwaitChangesDecidedByFirstSettling(changes[1..]);
      forall k | FirstSettling(changes, k)
        ensures AwaitChanges(changes) == (if IceUp(changes[k]) then Success(()) else Failure(IceFailure(changes[k])))
      {
        if k > 0 {
          assert FirstSettling(changes[1..], k - 1);
        }
      }
      if forall j :: 0 <= j < |changes| ==> !Settles(changes[j]) {
        assert !Settles(changes[0]);
        assert forall j :: 0 <= j < |changes[1..]| ==> !Settles(changes[1..][j]) by {
          forall j | 0 <= j < |changes[1..]| ensures !Settles(changes[1..][j]) {
            assert changes[1..][j] == changes[j + 1];
          }
        }
      }
    }
  }

  /** The wait resolves iff the state is, or first becomes, connected or completed. */
  lemma AwaitIceResolvesIff(initial: IceState, changes: seq<IceState>)
    ensures AwaitIce(initial, changes).Success? <==>
      IceUp(initial) || exists k :: FirstSettling(changes, k) && IceUp(changes[k])
  {
    AwaitChangesDecidedByFirstSettling(changes);
    if !IceUp(initial) && AwaitChanges(changes).Success? {
      if forall j :: 0 <= j < |changes| ==> !Settles(changes[j]) {
      } else {
        var k := FirstSettlingIndex(changes);
        assert FirstSettling(changes, k);
      }
    }
  }

  /** The index of the first settling change, when one exists. */
  lemma FirstSettlingIndex(changes: seq<IceState>) returns (k: int)
    requires exists j :: 0 <= j < |changes| && Settles(changes[j])
    ensures FirstSettling(changes, k)
  {
    k := 0;
    while !Settles(changes[k])
      invariant 0 <= k < |changes|
      invariant forall j :: 0 <= j < k ==> !Settles(changes[j])
      invariant exists j :: k <= j < |changes| && Settles(changes[j])
      decreases |changes| - k
    {
      k := k + 1;
    }
  }

  /** An ICE state that is already failed does not reject by itself: the wait runs to the timeout. */
  lemma AlreadyFailedWaitsForTimeout()
    ensures AwaitIce(IceFailed, []) == Failure(ConnectionTimedOut)
    ensures AwaitIce(IceClosed, [IceChecking]) == Failure(ConnectionTimedOut)
  {
  }

  // ---------------------------------------------------------------------------
  // Browser objects

  datatype TrackKind = AudioTrack | VideoTrack

  /** A local media track; only its `enabled` flag changes. */
  class MediaTrack {
    const kind: TrackKind
    var enabled: bool

    constructor (kind: TrackKind, enabled: bool)
      ensures this.kind == kind && this.enabled == enabled
    {
      this.kind := kind;
      this.enabled := enabled;
    }
  }

  /** The audio tracks of a stream, in order. */
  function AudioOnly(stream: seq<MediaTrack>): (r: seq<MediaTrack>)
    ensures forall k :: 0 <= k < |r| ==> r[k] in stream && r[k].kind == AudioTrack
    ensures forall k :: 0 <= k < |stream| && stream[k].kind == AudioTrack ==> stream[k] in r
  {
    if stream == [] then []
    else (if stream[0].kind == AudioTrack then [stream[0]] else []) + AudioOnly(stream[1..])
  }

  /**
   * The peer connection as the source uses it: the tracks of its senders
   * (`null` for a sender without a track), the remote description once set,
   * and whether it has been closed.
   */
  class PeerConnection {
    var senders: seq<MediaTrack?>
    var remoteDescription: Option<string>
    var isClosed: bool
    /** Whether an audio track was still enabled when the connection was closed. */
    ghost var sendingAudioAtClose: bool

    constructor ()
      ensures senders == [] && remoteDescription == None && !isClosed && !sendingAudioAtClose
    {
      senders := [];
      remoteDescription := None;
      isClosed := false;
      sendingAudioAtClose := false;
    }

    /** Some audio track carried by a sender is enabled. */
    ghost predicate SendingAudio()
      reads this, Tracks()
    {
      exists t :: t in Tracks() && t.kind == AudioTrack && t.enabled
    }

    /** The tracks its senders carry. */
    function Tracks(): set<MediaTrack>
      reads this
    {
      set t: MediaTrack | t in senders
    }

    /** `addTrack`: a new sender carrying `t`. */
    method AddTrack(t: MediaTrack)
      modifies this
      ensures senders == old(senders) + [t]
      ensures remoteDescription == old(remoteDescription) && isClosed == old(isClosed)
      ensures sendingAudioAtClose == old(sendingAudioAtClose)
    {
      senders := senders + [t];
    }

    /** `addTransceiver("audio", {direction: "recvonly"})`: a sender with no track. */
    method AddReceiveOnlyTransceiver()
      modifies this
      ensures senders == old(senders) + [null]
      ensures remoteDescription == old(remoteDescription) && isClosed == old(isClosed)
      ensures sendingAudioAtClose == old(sendingAudioAtClose)
    {
      senders := senders + [null];
    }

    method SetRemoteDescription(sdp: string)
      modifies this
      ensures remoteDescription == Some(sdp)
      ensures senders == old(senders) && isClosed == old(isClosed)
      ensures sendingAudioAtClose == old(sendingAudioAtClose)
    {
      remoteDescription := Some(sdp);
    }

    method Close()
      modifies this
      ensures isClosed && sendingAudioAtClose == SendingAudio()
      ensures senders == old(senders) && remoteDescription == old(remoteDescription)
    {
      isClosed := true;
      sendingAudioAtClose := SendingAudio();
    }
  }

  /** The element that plays the agent's audio. */
  class AudioElement {
    var autoplay: bool
    var paused: bool
    var hasSource: bool

    constructor ()
      ensures !autoplay && paused && !hasSource
    {
      autoplay := false;
      paused := true;
      hasSource := false;
    }

    method SetAutoplay()
      modifies this
      ensures autoplay && paused == old(paused) && hasSource == old(hasSource)
    {
      autoplay := true;
    }

    /** `pause()` followed by `srcObject = null`. */
    method Release()
      modifies this
      ensures paused && !hasSource && autoplay == old(autoplay)
    {
      paused := true;
      hasSource := false;
    }
  }

  datatype ChannelState = ChannelConnecting | ChannelOpen | ChannelClosing | ChannelClosed

  /** A data channel and the commands sent on it so far. */
  class DataChannel {
    const name: string
    var readyState: ChannelState
    var sent: seq<map<string, Json>>

    constructor (name: string)
      ensures this.name == name && readyState == ChannelConnecting && sent == []
    {
      this.name := name;
      readyState := ChannelConnecting;
      sent := [];
    }

    method Open()
      modifies this
      ensures readyState == ChannelOpen && sent == old(sent)
    {
      readyState := ChannelOpen;
    }

    method Close()
      modifies this
      ensures readyState == ChannelClosed && sent == old(sent)
    {
      readyState := ChannelClosed;
    }

    method Send(command: map<string, Json>)
      modifies this
      ensures sent == old(sent) + [command] && readyState == old(readyState)
    {
      sent := sent + [command];
    }
  }

  // ---------------------------------------------------------------------------
  // Transport helpers

  /**
   * `setAudioEnabled`: every audio track carried by a sender gets `enabled`;
   * every other track keeps its flag; a missing connection is a no-op.
   */
  method SetAudioEnabled(pc: PeerConnection?, enabled: bool)
    modifies if pc == null then {} else pc.Tracks()
    ensures pc != null ==> forall t :: t in pc.Tracks() ==>
      t.enabled == (if t.kind == AudioTrack then enabled else old(t.enabled))
  {
    if pc != null {
      var i := 0;
      while i < |pc.senders|
        invariant 0 <= i <= |pc.senders|
        invariant forall t :: t in pc.Tracks() && t.kind != AudioTrack ==> t.enabled == old(t.enabled)
        invariant forall j :: 0 <= j < i && pc.senders[j] != null && pc.senders[j].kind == AudioTrack ==>
          pc.senders[j].enabled == enabled
      {
        var track := pc.senders[i];
        if track != null && track.kind == AudioTrack {
          track.enabled := enabled;
        }
        i := i + 1;
      }
    }
  }

  /**
   * The local stream's audio tracks are added to the connection, each disabled
   * first, in stream order; other tracks are neither added nor touched.
   */
  method AddLocalTracks(pc: PeerConnection, stream: seq<MediaTrack>)
    modifies pc, set t: MediaTrack | t in stream
    ensures pc.senders == old(pc.senders) + AudioOnly(stream)
    ensures pc.remoteDescription == old(pc.remoteDescription) && pc.isClosed == old(pc.isClosed)
    ensures forall t :: t in stream ==> t.enabled == (if t.kind == AudioTrack then false else old(t.enabled))
  {
    var i := 0;
    while i < |stream|
      invariant 0 <= i <= |stream|
      invariant pc.senders == old(pc.senders) + AudioOnly(stream[..i])
      invariant pc.remoteDescription == old(pc.remoteDescription) && pc.isClosed == old(pc.isClosed)
      invariant forall t :: t in stream && t.kind != AudioTrack ==> t.enabled == old(t.enabled)
      invariant forall j :: 0 <= j < i && stream[j].kind == AudioTrack ==> !stream[j].enabled
    {
      var track := stream[i];
      if track.kind == AudioTrack {
        track.enabled := false;
        pc.AddTrack(track);
      }
      AudioOnlyStep(stream, i);
      i := i + 1;
    }
    assert stream[..i] == stream;
  }

  /** Keeping the audio tracks distributes over concatenation. */
  lemma {:induction false} AudioOnlyAppend(a: seq<MediaTrack>, b: seq<MediaTrack>)
    ensures AudioOnly(a + b) == AudioOnly(a) + AudioOnly(b)
    decreases |a|
  {
    if a == [] {
      assert a + b == b;
    } else {
      assert (a + b)[0] == a[0];
      assert (a + b)[1..] == a[1..] + b;
      AudioOnlyAppend(a[1..], b);
    }
  }

  lemma AudioOnlyStep(stream: seq<MediaTrack>, i: nat)
    requires i < |stream|
    ensures AudioOnly(stream[..i + 1]) ==
      AudioOnly(stream[..i]) + (if stream[i].kind == AudioTrack then [stream[i]] else [])
  {
    assert stream[..i + 1] == stream[..i] + [stream[i]];
    AudioOnlyAppend(stream[..i], [stream[i]]);
    assert [stream[i]][1..] == [];
  }

  /**
   * `sendCommandViaDataChannel`: the command is sent iff the channel exists
   * and is open; otherwise nothing is sent.
   */
  method SendCommandViaDataChannel(dc: DataChannel?, command: map<string, Json>)
    modifies dc
    ensures dc != null ==> dc.readyState == old(dc.readyState)
    ensures dc != null ==> dc.sent == if old(dc.readyState) == ChannelOpen then old(dc.sent) + [command] else old(dc.sent)
  {
    if dc != null && dc.readyState == ChannelOpen {
      dc.Send(command);
    }
  }

  // ---------------------------------------------------------------------------
  // Connection setup

  /**
   * What the environment does during one setup: the local stream (or the
   * message `getUserMedia` threw), the response to the offer POST, and the
   * ICE state at the start of the wait with the changes seen before the timer.
   */
  datatype SetupInputs = SetupInputs(
    localStream: Result<seq<MediaTrack>, string>,
    negotiation: FetchOutcome,
    iceInitial: IceState,
    iceChanges: seq<IceState>)

  /** The setup's verdict: the first step that fails decides the error. */
  function SetupOutcome(inputs: SetupInputs): (r: Result<(), string>)
    ensures r.Success? <==>
      inputs.localStream.Success? && AcceptAnswer(inputs.negotiation).Success? &&
      AwaitIce(inputs.iceInitial, inputs.iceChanges).Success?
  {
    if inputs.localStream.Failure? then Failure(inputs.localStream.error)
    else
      match AcceptAnswer(inputs.negotiation)
      case Failure(e) => Failure(e)
      case Success(_) => AwaitIce(inputs.iceInitial, inputs.iceChanges)
  }

  /** The tracks setup may disable. */
  function StreamTracks(inputs: SetupInputs): set<MediaTrack>
  {
    if inputs.localStream.Success? then set t: MediaTrack | t in inputs.localStream.value else {}
  }

  const ClientChannelLabel := "client_input"

  /**
   * `setupWebRTCConnection`. It creates the connection, the audio element and
   * the data channel, adds the local audio tracks disabled, sends the offer
   * authorised by the key, sets the answer as remote description only when it
   * is accepted, and waits for ICE. On any failure it closes the connection,
   * releases the audio element, reports the error once through `onError`
   * (`reported`) and rethrows it (`result`).
   */
  method SetupConnection(keyValue: string, inputs: SetupInputs)
    returns (pc: PeerConnection, audio: AudioElement, dc: DataChannel?,
             authorization: Option<string>, result: Result<(), string>, reported: seq<string>)
    modifies StreamTracks(inputs)
    ensures fresh(pc) && fresh(audio) && (dc != null ==> fresh(dc))
    ensures result == SetupOutcome(inputs)
    ensures authorization == if inputs.localStream.Success? then Some("Bearer " + keyValue) else None
    ensures pc.remoteDescription ==
      if inputs.localStream.Success? && AcceptAnswer(inputs.negotiation).Success?
      then Some(inputs.negotiation.body) else None
    ensures inputs.localStream.Success? ==>
      && pc.senders == AudioOnly(inputs.localStream.value) + [null]
      && (forall t :: t in inputs.localStream.value ==>
            t.enabled == (if t.kind == AudioTrack then false else old(t.enabled)))
      && dc != null && dc.name == ClientChannelLabel && dc.readyState == ChannelConnecting && dc.sent == []
    ensures audio.autoplay
    ensures result.Success? ==> reported == [] && !pc.isClosed && audio.paused && !audio.hasSource
    ensures result.Failure? ==> reported == [result.error] && pc.isClosed && audio.paused && !audio.hasSource
    ensures result.Failure? ==> !pc.sendingAudioAtClose
  {
    pc := new PeerConnection();
    audio := new AudioElement();
    audio.SetAutoplay();
    dc := null;
    authorization := None;
    reported := [];
    if inputs.localStream.Failure? {
      result := Failure(inputs.localStream.error);
    } else {
      AddLocalTracks(pc, inputs.localStream.value);
      pc.AddReceiveOnlyTransceiver();
      dc := new DataChannel(ClientChannelLabel);
      authorization := Some("Bearer " + keyValue);
      var answer := AcceptAnswer(inputs.negotiation);
      if answer.Failure? {
        result := Failure(answer.error);
      } else {
        pc.SetRemoteDescription(answer.value);
        result := AwaitIce(inputs.iceInitial, inputs.iceChanges);
      }
    }
    if result.Failure? {
      pc.Close();
      audio.Release();
      reported := [result.error];
    }
  }
}
