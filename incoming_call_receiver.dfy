/**
  `IncomingCallReceiver`: the broadcast receiver that the platform wakes for an inbound call. It
  claims the call from the client's manager with a listener that auto-answers on ringing, hands
  the call to the client and reports it under ON_INCOMING_CALL. No exception leaves it.
 */
module IncomingCall {
  import opened Wrappers
  import opened SipStack
  import opened AndroidSipClient

  /** The dictionary of ON_INCOMING_CALL: the peer's display name and URI, and no source. */
  function IncomingPayload(peer: Peer): (r: Payload)
    ensures r.Keys == {"displayName", "uri"} && "source" !in r
    ensures r["uri"] == Text(peer.uri)
    ensures r["displayName"] == if peer.displayName.Some? then Text(peer.displayName.value) else Null
  {
    map["displayName" := (if peer.displayName.Some? then Text(peer.displayName.value) else Null),
        "uri" := Text(peer.uri)]
  }

  class IncomingCallReceiver {
    const client: SipClient

    constructor (client: SipClient)
      ensures this.client == client
    {
      this.client := client;
    }

    /**
      `onReceive`. `takeFails` says whether `takeAudioCall` throws; `peer` is the taken call's peer
      profile (`None` when it is null, which makes reading its display name throw).
      - Without a manager, or when taking fails, nothing is closed and no event is fired.
      - Otherwise the client holds the taken call from then on. If the peer profile can be read,
        exactly one ON_INCOMING_CALL dispatch follows; if not, the taken call is closed instead.
     */
    method OnReceive(takeFails: bool, peer: Option<Peer>)
      modifies client
      ensures client.properties == old(client.properties) && client.profile == old(client.profile)
      ensures client.sessions == old(client.sessions)
      ensures !client.hasManager ==> client.call == old(client.call) && client.trace == old(client.trace)
      ensures client.hasManager && takeFails ==>
        client.call == old(client.call) && client.trace == old(client.trace) + [Command(TakeAudioCall)]
      ensures client.hasManager && !takeFails && peer.Some? ==>
        && client.call == Some(NewCall(Incoming, peer))
        && client.trace == old(client.trace) + [Command(TakeAudioCall)]
                           + Dispatch(client.properties, ON_INCOMING_CALL, IncomingPayload(peer.value))
      ensures client.hasManager && !takeFails && peer.None? ==>
        && client.call == Some(Step(NewCall(Incoming, None), CloseCall))
        && client.trace == old(client.trace) + Commands([TakeAudioCall, CloseCall])
      ensures Count(client.trace, ON_INCOMING_CALL) == Count(old(client.trace), ON_INCOMING_CALL)
        + (if client.hasManager && !takeFails && peer.Some?
              && GetCallback(client.properties, ON_INCOMING_CALL).Some? then 1 else 0)
    {
      var incomingCall: Option<Call> := None;
      if !client.hasManager {
        // getManager() is null: the dereference throws before anything is taken
        return;
      }
      ghost var t0 := client.trace;
      client.trace := client.trace + [Command(TakeAudioCall)];
      CountAppend(t0, [Command(TakeAudioCall)], ON_INCOMING_CALL);
      if takeFails {
        return;
      }
      incomingCall := Some(NewCall(Incoming, peer));
      client.SetCall(incomingCall);
      if incomingCall.value.peer.None? {
        // reading the display name of a null peer profile throws; the handler closes the call,
        // which is the call the client now holds
        client.Issue(CloseCall, false);
        assert client.trace == t0 + Commands([TakeAudioCall, CloseCall]);
        CountAppend(t0, Commands([TakeAudioCall, CloseCall]), ON_INCOMING_CALL);
        CountCommands([TakeAudioCall, CloseCall], ON_INCOMING_CALL);
        return;
      }
      var p := incomingCall.value.peer.value;
      ghost var t1 := client.trace;
      client.FireCallbackWith(ON_INCOMING_CALL, IncomingPayload(p));
      DispatchCount(t1, client.properties, ON_INCOMING_CALL, IncomingPayload(p), ON_INCOMING_CALL);
    }

    /**
      The ringing listener of the claimed call: on ringing, it answers with the 30-second timeout
      and swallows any error. A call that was dialled has no ringing handler.
     */
    method OnRinging(answerFails: bool)
      requires client.call.Some?
      modifies client
      ensures client.properties == old(client.properties) && client.profile == old(client.profile)
      ensures client.sessions == old(client.sessions) && client.call == old(client.call)
      ensures client.trace == old(client.trace)
        + (if old(client.call).value.origin.Incoming? then [Command(AnswerCall(CallTimeout))] else [])
    {
      if client.call.value.origin.Incoming? {
        client.Issue(AnswerCall(CallTimeout), answerFails);
      }
    }
  }
}
