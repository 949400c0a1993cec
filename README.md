# TiSIPClient-Android: a Dafny model of the SIP client's orchestration

The module sits between a Titanium (Kroll) proxy and Android's `android.net.sip` stack. It
reads its configuration and callbacks from the proxy's property bag. With them it builds and
opens a SIP profile and holds at most one `SipAudioCall`. Every call control is guarded by that
call's presence or state. The stack's signals become named callback invocations. A broadcast
receiver claims inbound calls and reports them.

The SIP stack's own code is not part of this model. It is kept abstract:

- A profile and a call are values (`SipStack.Profile`, `SipStack.Call`).
- Each command the client sends to the stack is a `StackOp`. Its effect on the call is
  `SipStack.Step`.
- Whether a stack command throws is a `bool` parameter of the method that issues it, so both
  paths are verified.
- A command that throws is still recorded, because it was issued.

The client is a class, `AndroidSipClient.SipClient`. Its fields:

- `properties`: the proxy's property bag. It holds configuration and callbacks, as in the source.
- `hasManager`: whether `SipManager.newInstance` returned a manager.
- `profile`: `mSipProfile`.
- `sessions`: the profile URIs the manager holds open.
- `call`: `call`.
- `trace`: everything the client does outward, in order. This is every stack command
  (`Command`) and every asynchronous callback invocation (`Invoke`, standing for `callAsync`).

Methods that can throw in the source return an `Outcome` (`Normal` or `Threw(exception)`).
Methods that never throw return nothing. Each method's `ensures` states its complete new state.

Files:

- `wrappers.dfy`: `Option` and `Result`.
- `sip_stack.dfy`: the abstract stack, plus the audio set-up shared by `answer` and
  `onCallEstablished`.
- `sip_client.dfy`: `AndroidSIPClient`. This covers property reads, the profile builder, the
  dispatcher and the client class.
- `incoming_call_receiver.dfy`: `IncomingCallReceiver` and its ringing listener.
- `scenarios.dfy`: properties that span several calls, proved from the method contracts
  alone. It also works through the inbound and outbound call flows on concrete values.

## Behaviour worth knowing

- `register` rejects only a missing (`null`) username, password or domain; an empty one is
  accepted. If a property holds a value of the wrong kind, the cast throws `ClassCastException`.
- `onRegistrationFailed` fires `onregistrationfailed` with only `source`. The error code and
  message are dropped.
- `onError` is reported under `oncallbusy` with `errorCode` and `errorMessage` and no `source`.
  The `onerror` name is defined but never fired.
- `ON_INCOMING_CALL` carries `displayName` and `uri` and no `source`.
- `answer` is guarded only by the presence of a call, not by a ringing state. Answering never
  fires an event. Only the stack's establishment signal fires `oncallestablished`, and only for a
  dialled call (the ringing listener of an inbound call has no establishment handler).
- `holdCall` with no call passes its `!isOnHold()` guard and dereferences the null call
  (`Threw(NullPointer)`).
- `hangup` does not clear `call`: the ended, closed call stays held. A successful `initiateCall`
  replaces the held call without closing it. A failed one closes the held call and keeps it.

## Model

| member | source | states |
|---|---|---|
| `AndroidSipClient.GetString` | src/com/yydigital/sipclient/AndroidSIPClient.java:295-301 | A missing property reads as null. A string reads as itself. Any other value makes the `(String)` cast throw ClassCast. |
| `AndroidSipClient.GetNumber` | src/com/yydigital/sipclient/AndroidSIPClient.java:71-73 | The port is null when missing, the number when numeric, and a ClassCast otherwise. |
| `AndroidSipClient.GetFlag` | src/com/yydigital/sipclient/AndroidSIPClient.java:74-81 | The two registration flags are null when missing, the boolean when boolean, and a ClassCast otherwise. |
| `AndroidSipClient.Require` | src/com/yydigital/sipclient/AndroidSIPClient.java:51-59 | A missing required property gives IllegalArgument with the given message. A non-string gives ClassCast. The result succeeds exactly when the property is a string (emptiness is not checked). |
| `AndroidSipClient.BuildProfile` | src/com/yydigital/sipclient/AndroidSIPClient.java:50-85 | Username, password and domain are read in that order: the first that is missing gives IllegalArgument with its message, and the first that is not a string gives ClassCast for that property. Then proxy, port, the two flags and protocol are read in that order, and the first of them of the wrong kind gives ClassCast for it. No other failure is possible. Success happens exactly when the required strings are present and every optional read is well typed. The profile holds the values unmodified, and each optional field is unset when its property is absent. |
| `AndroidSipClient.GetCallback` | src/com/yydigital/sipclient/AndroidSIPClient.java:272-278 | A callback is found exactly when the property under the name holds a callback, and it is that callback. |
| `AndroidSipClient.Dispatch` | src/com/yydigital/sipclient/AndroidSIPClient.java:287-293 | At most one invocation. None exactly when no callback is registered under the name. Otherwise one invocation of that callback with the given payload. |
| `AndroidSipClient.DispatchCount` | src/com/yydigital/sipclient/AndroidSIPClient.java:287-293 | Dispatching adds one invocation under its own name exactly when a callback is registered, and adds none under any other name. |
| `AndroidSipClient.ErrorPayload` | src/com/yydigital/sipclient/AndroidSIPClient.java:230-234 | The onError dictionary holds exactly `errorCode` and `errorMessage`, with the signal's values, and no `source`. |
| `SipStack.RouteAudio` | src/com/yydigital/sipclient/AndroidSIPClient.java:137-141 | After the audio steps, audio is started, the speaker is on and the call is not muted, whatever its mute state was. Nothing else about the call changes. |
| `SipStack.RouteAudioCommands` | src/com/yydigital/sipclient/AndroidSIPClient.java:212-216 | The audio steps issue start-audio and speaker-on, then a mute toggle exactly when the call was muted. |
| `AndroidSipClient.SipClient.constructor` | src/com/yydigital/sipclient/AndroidSIPClient.java:37-42 | A new client has a manager exactly when SIP is supported. It has no profile, no open session, no call and an empty trace. |
| `AndroidSipClient.SipClient.IsInCall` | src/com/yydigital/sipclient/AndroidSIPClient.java:153-155 | False without a call. Otherwise it is the call's in-call state. |
| `AndroidSipClient.SipClient.IsMuted` | src/com/yydigital/sipclient/AndroidSIPClient.java:157-159 | False without a call. Otherwise it is the call's mute state. |
| `AndroidSipClient.SipClient.IsOnHold` | src/com/yydigital/sipclient/AndroidSIPClient.java:161-163 | False without a call. Otherwise it is the call's hold state. |
| `AndroidSipClient.SipClient.IsRegistered` | src/com/yydigital/sipclient/AndroidSIPClient.java:165-171 | Never true without a manager and a profile. A failing stack query reads as false. Otherwise it is the stack's answer. |
| `AndroidSipClient.SipClient.FireCallbackWith` | src/com/yydigital/sipclient/AndroidSIPClient.java:287-293 | Appends exactly `Dispatch` of the current properties to the trace and changes nothing else. |
| `AndroidSipClient.SipClient.FireCallback` | src/com/yydigital/sipclient/AndroidSIPClient.java:280-285 | The same as `FireCallbackWith`, with a dictionary holding only `source`. |
| `AndroidSipClient.SipClient.SetCall` | src/com/yydigital/sipclient/AndroidSIPClient.java:303-305 | Replaces the held call and nothing else. |
| `AndroidSipClient.SipClient.Issue` | src/com/yydigital/sipclient/AndroidSIPClient.java:136-150 | A command sent to the held call is recorded in the trace whether or not it throws. Only a successful command changes the call, by its `Step`. Properties, profile and sessions are untouched. |
| `AndroidSipClient.SipClient.RouteHeldCall` | src/com/yydigital/sipclient/AndroidSIPClient.java:137-141 | The held call becomes `RouteAudio` of itself (audio on, speaker on, not muted), and the trace gets exactly the `RouteAudioCommands` of the old call, in order. |
| `AndroidSipClient.SipClient.Register` | src/com/yydigital/sipclient/AndroidSIPClient.java:50-119 | On a validation or cast error it throws that error, and profile, sessions and trace are unchanged (nothing is built or opened). Otherwise the built profile is stored first. Then: a missing manager throws NullPointer; opening is issued and may throw; only after a successful open the session is recorded and the listener is installed under the profile URI, which may throw too. |
| `AndroidSipClient.SipClient.OnRegistering` | src/com/yydigital/sipclient/AndroidSIPClient.java:100-103 | Dispatches `onregistering` with only `source`, and nothing else. |
| `AndroidSipClient.SipClient.OnRegistrationDone` | src/com/yydigital/sipclient/AndroidSIPClient.java:105-109 | Dispatches `onregistrationdone` with only `source`. |
| `AndroidSipClient.SipClient.OnRegistrationFailed` | src/com/yydigital/sipclient/AndroidSIPClient.java:111-116 | Dispatches `onregistrationfailed` with only `source`. The code and message are not passed on. |
| `AndroidSipClient.SipClient.Close` | src/com/yydigital/sipclient/AndroidSIPClient.java:121-132 | Never throws. Without a manager or a profile it does nothing. Otherwise it issues a close of the profile URI. A failing close is swallowed and leaves the session open. |
| `AndroidSipClient.SipClient.Answer` | src/com/yydigital/sipclient/AndroidSIPClient.java:134-143 | Without a call, nothing happens. Otherwise it answers with timeout 30. If that throws, the exception propagates and nothing else happens. Otherwise the call becomes `RouteAudio` of the old call (speaker on, not muted), and the audio commands follow the answer in the trace. |
| `AndroidSipClient.SipClient.Hangup` | src/com/yydigital/sipclient/AndroidSIPClient.java:145-151 | Without a call, nothing changes and no event is added. Otherwise the call is ended; if ending throws, the exception propagates with nothing else done. Otherwise the trace gets end, then the ON_CALL_ENDED dispatch, then close. The call stays held, ended and closed. `oncallended` invocations grow by exactly one when a callback is registered. |
| `AndroidSipClient.SipClient.HoldCall` | src/com/yydigital/sipclient/AndroidSIPClient.java:173-177 | Throws NullPointer without a call. Issues nothing when already on hold. Otherwise it issues hold with timeout 30, and a successful hold sets only the hold flag. |
| `AndroidSipClient.SipClient.UnholdCall` | src/com/yydigital/sipclient/AndroidSIPClient.java:179-183 | Issues nothing unless a held call is on hold. Otherwise it issues continue with timeout 30, and a successful continue clears only the hold flag. |
| `AndroidSipClient.SipClient.ToggleMuted` | src/com/yydigital/sipclient/AndroidSIPClient.java:185-189 | Changes nothing unless in a call. Otherwise it flips the mute flag once and changes nothing else. |
| `AndroidSipClient.SipClient.SetSpeakerMode` | src/com/yydigital/sipclient/AndroidSIPClient.java:191-195 | Changes nothing unless in a call. Otherwise the speaker becomes the given value. |
| `AndroidSipClient.SipClient.SendDtmf` | src/com/yydigital/sipclient/AndroidSIPClient.java:197-201 | Issues the tone only while in a call. The call itself never changes. |
| `AndroidSipClient.SipClient.InitiateCall` | src/com/yydigital/sipclient/AndroidSIPClient.java:203-270 | Never throws. With manager and profile, a successful dial from the profile URI with timeout 30 makes the new dialled call the held one. Without them, nothing is dialled and only the held call, if any, is closed. A failed dial closes the profile's session (a failing close leaves it open) and closes the held call, which stays held. |
| `AndroidSipClient.SipClient.OnCallEstablished` | src/com/yydigital/sipclient/AndroidSIPClient.java:211-220 | The call is marked in call. For a dialled call the audio is routed as in `answer` (speaker on, not muted) and `oncallestablished` is dispatched after the audio commands. For an inbound call nothing else happens. |
| `AndroidSipClient.SipClient.OnCallBusy` | src/com/yydigital/sipclient/AndroidSIPClient.java:223-226 | For a dialled call, dispatches `oncallbusy` with only `source`. Nothing else changes. |
| `AndroidSipClient.SipClient.OnError` | src/com/yydigital/sipclient/AndroidSIPClient.java:230-236 | For a dialled call, dispatches under `oncallbusy` (not `onerror`) the code and message dictionary. |
| `AndroidSipClient.SipClient.OnRingingBack` | src/com/yydigital/sipclient/AndroidSIPClient.java:239-242 | For a dialled call, dispatches `onringingback`. |
| `AndroidSipClient.SipClient.OnCallEnded` | src/com/yydigital/sipclient/AndroidSIPClient.java:246-249 | The call is marked not in call. For a dialled call, `oncallended` is dispatched. |
| `IncomingCall.IncomingPayload` | src/com/yydigital/sipclient/IncomingCallReceiver.java:43-45 | The ON_INCOMING_CALL dictionary holds exactly `displayName` (null when the peer has none) and `uri` from the peer profile, and no `source`. |
| `IncomingCall.IncomingCallReceiver.constructor` | src/com/yydigital/sipclient/IncomingCallReceiver.java:17-20 | The receiver is bound to the given client. |
| `IncomingCall.IncomingCallReceiver.OnReceive` | src/com/yydigital/sipclient/IncomingCallReceiver.java:24-53 | Never throws. Without a manager, or when taking the call fails, nothing is closed, the held call is unchanged and no event is fired. Otherwise the client holds the taken call. If the peer profile is readable, exactly one ON_INCOMING_CALL dispatch follows. If it is null, the taken call (the one the client now holds) is closed and no event is fired. |
| `IncomingCall.IncomingCallReceiver.OnRinging` | src/com/yydigital/sipclient/IncomingCallReceiver.java:28-37 | On ringing, an inbound call is answered with timeout 30 and an error is swallowed, so the call is unchanged either way. A dialled call has no ringing handler. |
| `Scenarios.HoldTwice` | src/com/yydigital/sipclient/AndroidSIPClient.java:173-177 | Holding twice issues at most one hold and leaves the call on hold, even if the second attempt would fail. |
| `Scenarios.UnholdTwice` | src/com/yydigital/sipclient/AndroidSIPClient.java:179-183 | Continuing twice issues at most one continue and leaves the call off hold. |
| `Scenarios.HoldThenUnhold` | src/com/yydigital/sipclient/AndroidSIPClient.java:173-183 | Holding then continuing a call that was not on hold gives back the same call. |
| `Scenarios.ToggleMutedTwice` | src/com/yydigital/sipclient/AndroidSIPClient.java:185-189 | Toggling twice restores the call. |
| `Scenarios.AnswerTwice` | src/com/yydigital/sipclient/AndroidSIPClient.java:134-143 | Answering twice leaves the call as one answer does (speaker on, not muted) and fires no `oncallestablished`. |
| `Scenarios.RegisterCarol` | src/com/yydigital/sipclient/AndroidSIPClient.java:50-97 | Registering with only the three required properties stores a profile with every optional field unset, opens `sip:carol@example.com`, and installs its listener. |
| `Scenarios.IncomingFromAlice` | src/com/yydigital/sipclient/IncomingCallReceiver.java:24-53 | An inbound call from Alice, with a callback registered under `onincomingcall`: the client holds a fresh inbound call with Alice as peer, and the trace is the take, the `onincomingcall` invocation with her display name and URI, then the answer with timeout 30 on ringing. |
| `Scenarios.DialBobAndHangUp` | src/com/yydigital/sipclient/AndroidSIPClient.java:203-250 | From a client registered as `sip:carol@example.com`: dialling Bob, establishment and hang-up append the dial with timeout 30, start-audio, speaker-on, `oncallestablished`, end, `oncallended`, close, in that order. The held call ends up closed and not in call. |
| `Scenarios.CallBob` | src/com/yydigital/sipclient/AndroidSIPClient.java:145-151 | The whole outbound flow from a new client: the trace is open and listener for Carol's profile, then the dial-to-close sequence of `DialBobAndHangUp`; the call ends up closed. |
| `Scenarios.RegisterWithoutDomain` | src/com/yydigital/sipclient/AndroidSIPClient.java:50-59 | Registering without a domain throws IllegalArgument "Domain required" and leaves no profile, no session and an empty trace. |

## Left out

- Constructor and register plumbing. `IntentFilter`, `registerReceiver`, the `PendingIntent`
  and `SipManager.newInstance` are platform I/O. Only the manager's presence is modelled
  (`hasManager`). `getManager` is that flag.
- Validation inside the SIP library when a profile is built. The `ParseException` of
  `SipProfile.Builder` for a malformed user name, domain or proxy, and its check of the protocol
  name, are library code that is not part of this model.
- The library's internals. How a call becomes established, how registration proceeds,
  `getUriString` (modelled as `"sip:" + username + "@" + domain`) and the answer to
  `isRegistered` are abstract. The answer is a parameter of `IsRegistered`. The library's state
  changes on busy and error signals are not modelled.
- Exceptions other than `SipException` that a library call might raise.
- The conversion of the port from `Double` to `int`. Floating point is not modelled; the port
  is an integer.
- The Kroll bridge. `setThisProxy` is not modelled. `callAsync` is the appending of an
  invocation to the trace; its asynchronous delivery and the consumer's code are not modelled.
- Asynchrony and threading. Every stack signal and broadcast is a sequential method call, and
  no locking is modelled.
- Call identity. Calls are values, and each stack signal acts on the call the client holds when
  it arrives. A signal for a call the client has since replaced is not modelled. The aliasing in
  `onReceive` (the receiver closes the object the client holds) is modelled by closing the client's
  call.
- Logging (`Log.d`, `Log.i`, `printStackTrace`).
- `example/app.js` calls placeholder APIs unrelated to SIP.
