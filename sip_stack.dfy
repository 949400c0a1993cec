/**
  The part of Android's `android.net.sip` library that the client drives. The library's code is
  not part of this model: a profile and a call are values, and every command the client issues
  to the library is a `StackOp` whose effect on a call is the abstract `Step` below.
 */
module SipStack {
  import opened Wrappers

  /** The timeout, in seconds, that the client passes to every answer, hold, continue and dial. */
  const CallTimeout: int := 30

  /**
    The identity that `SipProfile.Builder.build` produces. An optional field is `None` when its
    setter was never called on the builder, so that the library's own default applies.
   */
  datatype Profile = Profile(
    username: string,
    domain: string,
    password: string,
    outboundProxy: Option<string>,
    port: Option<int>,
    autoRegistration: Option<bool>,
    sendKeepAlive: Option<bool>,
    protocol: Option<string>)

  /** The URI under which the library knows a profile (`getUriString`). */
  function ProfileUri(p: Profile): string {
    "sip:" + p.username + "@" + p.domain
  }

  /** The remote party of a call; the display name may be null. */
  datatype Peer = Peer(displayName: Option<string>, uri: string)

  /** Which listener the call was created with: the dialling one or the ringing one. */
  datatype Origin = Outgoing | Incoming

  /** The observable state of a `SipAudioCall` object. */
  datatype Call = Call(
    origin: Origin,
    peer: Option<Peer>,
    inCall: bool,
    muted: bool,
    onHold: bool,
    speaker: bool,
    audio: bool,
    closed: bool)

  /** A call object as the library hands it out: not yet established, audio off. */
  function NewCall(origin: Origin, peer: Option<Peer>): (c: Call)
    ensures c.origin == origin && c.peer == peer
    ensures !c.inCall && !c.muted && !c.onHold && !c.speaker && !c.audio && !c.closed
  {
    Call(origin, peer, false, false, false, false, false, false)
  }

  /** A command the client issues to the SIP manager or to a call. */
  datatype StackOp =
    | Open(uri: string)
    | SetRegistrationListener(uri: string)
    | CloseProfile(uri: string)
    | MakeAudioCall(localUri: string, peerAddress: string, timeout: int)
    | TakeAudioCall
    | AnswerCall(timeout: int)
    | StartAudio
    | SetSpeakerMode(on: bool)
    | ToggleMute
    | EndCall
    | CloseCall
    | HoldCall(timeout: int)
    | ContinueCall(timeout: int)
    | SendDtmf(code: int)

  /**
    The effect of a successful command on the call it is issued to. Answering and sending a tone
    change nothing the client can observe; the library reports establishment separately.
   */
  function Step(c: Call, op: StackOp): Call {
    match op
    case StartAudio => c.(audio := true)
    case SetSpeakerMode(on) => c.(speaker := on)
    case ToggleMute => c.(muted := !c.muted)
    case EndCall => c.(inCall := false)
    case CloseCall => c.(inCall := false, closed := true)
    case HoldCall(_) => c.(onHold := true)
    case ContinueCall(_) => c.(onHold := false)
    case _ => c
  }

  /**
    The audio set-up that both `answer` and the dialling listener's `onCallEstablished` perform:
    audio started, speaker on and, whatever the call's mute state was, not muted.
   */
  function RouteAudio(c: Call): (r: Call)
    ensures r.audio && r.speaker && !r.muted
    ensures r == c.(audio := true, speaker := true, muted := false)
  {
    var routed := Step(Step(c, StartAudio), SetSpeakerMode(true));
    if routed.muted then Step(routed, ToggleMute) else routed
  }

  /** The commands that `RouteAudio` issues, in order: the mute is toggled only if it was on. */
  function RouteAudioCommands(c: Call): (ops: seq<StackOp>)
    ensures |ops| == if c.muted then 3 else 2
    ensures ops[..2] == [StartAudio, SetSpeakerMode(true)]
    ensures ToggleMute in ops <==> c.muted
  {
    [StartAudio, SetSpeakerMode(true)] + (if c.muted then [ToggleMute] else [])
  }
}
