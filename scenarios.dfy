/**
  Properties that span several calls into the client, proved from the contracts of its methods
  alone, and the inbound and outbound call flows worked through on concrete values.
 */
module Scenarios {
  import opened Wrappers
  import opened SipStack
  import opened AndroidSipClient
  import opened IncomingCall

  /** A second `holdCall` after a successful one issues nothing: holding is idempotent. */
  method HoldTwice(c: SipClient, secondFails: bool)
    requires c.call.Some?
    modifies c
    ensures c.call == Some(old(c.call).value.(onHold := true))
    ensures c.trace == old(c.trace) + (if old(c.call).value.onHold then [] else [Command(StackOp.HoldCall(CallTimeout))])
  {
    var first := c.HoldCall(false);
    var second := c.HoldCall(secondFails);
    assert second == Normal;
  }

  /** A second `unholdCall` after a successful one issues nothing. */
  method UnholdTwice(c: SipClient, secondFails: bool)
    modifies c
    ensures c.call == if old(c.call).Some? then Some(old(c.call).value.(onHold := false)) else None
    ensures c.trace == old(c.trace)
      + (if old(c.call).Some? && old(c.call).value.onHold then [Command(ContinueCall(CallTimeout))] else [])
  {
    var first := c.UnholdCall(false);
    var second := c.UnholdCall(secondFails);
    assert second == Normal;
  }

  /** Holding and then continuing a call that was not on hold gives back the same call. */
  method HoldThenUnhold(c: SipClient)
    requires c.call.Some? && !c.call.value.onHold
    modifies c
    ensures c.call == old(c.call)
    ensures c.trace == old(c.trace) + Commands([StackOp.HoldCall(CallTimeout), ContinueCall(CallTimeout)])
  {
    var held := c.HoldCall(false);
    var continued := c.UnholdCall(false);
  }

  /** Toggling the mute twice during a call restores the call. */
  method ToggleMutedTwice(c: SipClient)
    modifies c
    ensures c.call == old(c.call)
    ensures c.trace == old(c.trace) + (if old(c.IsInCall()) then Commands([ToggleMute, ToggleMute]) else [])
  {
    c.ToggleMuted();
    c.ToggleMuted();
  }

  /**
    Answering twice leaves the call as answering once does, speaker on and not muted, and fires
    no event: ON_CALL_ESTABLISHED comes only from the library's establishment signal.
   */
  method AnswerTwice(c: SipClient)
    requires c.call.Some?
    modifies c
    ensures c.call == Some(RouteAudio(old(c.call).value))
    ensures c.call.value.speaker && !c.call.value.muted
    ensures Count(c.trace, ON_CALL_ESTABLISHED) == Count(old(c.trace), ON_CALL_ESTABLISHED)
  {
    ghost var t0 := c.trace;
    var first := c.Answer(false);
    ghost var t1 := c.trace;
    var second := c.Answer(false);
    ghost var routed := RouteAudio(old(c.call).value);
    CountAppend(t0, t1[|t0|..], ON_CALL_ESTABLISHED);
    assert t1 == t0 + t1[|t0|..];
    CountCommands([AnswerCall(CallTimeout)] + RouteAudioCommands(old(c.call).value), ON_CALL_ESTABLISHED);
    assert c.trace == t1 + Commands([AnswerCall(CallTimeout)] + RouteAudioCommands(routed));
    CountAppend(t1, Commands([AnswerCall(CallTimeout)] + RouteAudioCommands(routed)), ON_CALL_ESTABLISHED);
    CountCommands([AnswerCall(CallTimeout)] + RouteAudioCommands(routed), ON_CALL_ESTABLISHED);
  }

  /** The inbound flow for a caller "Alice" at "sip:alice@example.com". */
  method IncomingFromAlice() returns (c: SipClient)
    ensures c.call == Some(NewCall(Incoming, Some(Peer(Some("Alice"), "sip:alice@example.com"))))
    ensures c.trace == [Command(TakeAudioCall),
      Invoke(Invocation(7, ON_INCOMING_CALL, map["displayName" := Text("Alice"), "uri" := Text("sip:alice@example.com")])),
      Command(AnswerCall(30))]
  {
    c := new SipClient(map[ON_INCOMING_CALL := Callback(7)], true);
    var receiver := new IncomingCallReceiver(c);
    var alice := Peer(Some("Alice"), "sip:alice@example.com");
    receiver.OnReceive(false, Some(alice));
    assert c.call == Some(NewCall(Incoming, Some(alice)));
    assert c.trace == [Command(TakeAudioCall),
      Invoke(Invocation(7, ON_INCOMING_CALL, map["displayName" := Text("Alice"), "uri" := Text("sip:alice@example.com")]))];
    receiver.OnRinging(false);
    assert c.trace[2] == Command(AnswerCall(30));
  }

  /** Registering with the three required properties opens the profile "sip:carol@example.com". */
  method RegisterCarol() returns (c: SipClient)
    ensures fresh(c) && c.hasManager && c.call == None
    ensures c.profile == Some(Profile("carol", "example.com", "secret", None, None, None, None, None))
    ensures c.properties == map["username" := Str("carol"), "password" := Str("secret"), "domain" := Str("example.com"),
                                ON_CALL_ESTABLISHED := Callback(1), ON_CALL_ENDED := Callback(2)]
    ensures c.trace == Commands([Open("sip:carol@example.com"), SetRegistrationListener("sip:carol@example.com")])
  {
    var props := map["username" := Str("carol"), "password" := Str("secret"), "domain" := Str("example.com"),
                     ON_CALL_ESTABLISHED := Callback(1), ON_CALL_ENDED := Callback(2)];
    assert BuildProfile(props) == Success(Profile("carol", "example.com", "secret", None, None, None, None, None));
    c := new SipClient(props, true);
    assert ProfileUri(BuildProfile(props).value) == "sip:carol@example.com";
    var registered := c.Register(false, false);
    assert registered == Normal;
  }

  /**
    Dialling Bob from a registered client, the call being established and hung up: the dial,
    the audio set-up, ON_CALL_ESTABLISHED, then end, ON_CALL_ENDED and close, in that order.
   */
  method DialBobAndHangUp(c: SipClient)
    requires c.hasManager && c.profile.Some? && ProfileUri(c.profile.value) == "sip:carol@example.com"
    requires GetCallback(c.properties, ON_CALL_ESTABLISHED) == Some(1)
    requires GetCallback(c.properties, ON_CALL_ENDED) == Some(2)
    modifies c
    ensures c.trace == old(c.trace) + BobCallTrace()
    ensures c.call.Some? && c.call.value.closed && !c.IsInCall()
  {
    var uri := "sip:carol@example.com";
    ghost var t0 := c.trace;
    c.InitiateCall("sip:bob@example.com", false, false);
    ghost var d1 := [Command(MakeAudioCall(uri, "sip:bob@example.com", 30))];
    assert c.trace == t0 + d1;
    assert !c.IsInCall();
    ghost var t1 := c.trace;
    c.OnCallEstablished();
    ghost var d2 := [Command(StartAudio), Command(StackOp.SetSpeakerMode(true)),
                     Invoke(Invocation(1, ON_CALL_ESTABLISHED, SourceOnly))];
    assert c.trace == t1 + d2;
    assert c.IsInCall() && c.call.value.speaker && !c.call.value.muted;
    ghost var t2 := c.trace;
    var hungUp := c.Hangup(false);
    ghost var d3 := [Command(EndCall), Invoke(Invocation(2, ON_CALL_ENDED, SourceOnly)), Command(CloseCall)];
    assert c.trace == t2 + d3;
    assert d1 + d2 + d3 == BobCallTrace();
    assert c.trace == t0 + (d1 + d2 + d3);
  }

  /** The outbound flow from scratch: register Carol, dial Bob, the call is established, hang up. */
  method CallBob() returns (c: SipClient)
    ensures c.trace == Commands([Open("sip:carol@example.com"), SetRegistrationListener("sip:carol@example.com")])
      + BobCallTrace()
    ensures c.call.Some? && c.call.value.closed && !c.IsInCall()
  {
    c := RegisterCarol();
    DialBobAndHangUp(c);
  }

  /** What the client does outward while Carol calls Bob, after registering. */
  function BobCallTrace(): seq<Effect> {
    [Command(MakeAudioCall("sip:carol@example.com", "sip:bob@example.com", 30)),
     Command(StartAudio), Command(StackOp.SetSpeakerMode(true)),
     Invoke(Invocation(1, ON_CALL_ESTABLISHED, SourceOnly)),
     Command(EndCall), Invoke(Invocation(2, ON_CALL_ENDED, SourceOnly)), Command(CloseCall)]
  }

  /** Registering without a domain throws before any session is opened. */
  method RegisterWithoutDomain() returns (o: Outcome, c: SipClient)
    ensures o == Threw(IllegalArgument("Domain required"))
    ensures c.profile == None && c.sessions == {} && c.trace == []
  {
    c := new SipClient(map["username" := Str("carol"), "password" := Str("secret"), "port" := Num(5070)], true);
    o := c.Register(false, false);
    assert o == Threw(IllegalArgument("Domain required"));
    assert c.profile == None && c.sessions == {} && c.trace == [];
  }
}
