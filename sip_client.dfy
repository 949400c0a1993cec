/**
  `AndroidSIPClient`: the bridge object between a Titanium proxy and Android's SIP manager. It
  reads its configuration and its callbacks from the proxy's property bag, builds and opens a
  profile, holds at most one call, guards every call control by the state of that call, and turns
  the library's signals into named callback invocations.
 */
module AndroidSipClient {
  import opened Wrappers
  import opened SipStack

  // ---------------------------------------------------------------------------------------------
  // The proxy's property bag and the exceptions the client can raise
  // ---------------------------------------------------------------------------------------------

  /** A value that script code stored on the proxy. Numbers arrive as doubles; see README. */
  datatype Value = Str(s: string) | Num(n: int) | Flag(b: bool) | Callback(id: nat) | Other

  /** The proxy's properties; a name that is not a key reads as `null`. */
  type Properties = map<string, Value>

  datatype Exception =
    | IllegalArgument(message: string)
    | ClassCast(property: string)
    | NullPointer
    | Sip

  /** How a command of the client's public surface returns: normally, or by throwing. */
  datatype Outcome = Normal | Threw(exception: Exception)

  // ---------------------------------------------------------------------------------------------
  // Events
  // ---------------------------------------------------------------------------------------------

  const ON_REGISTERING: string := "onregistering"
  const ON_REGISTRATION_DONE: string := "onregistrationdone"
  const ON_REGISTRATION_FAILED: string := "onregistrationfailed"
  const ON_CALL_ESTABLISHED: string := "oncallestablished"
  const ON_CALL_ENDED: string := "oncallended"
  const ON_CALL_BUSY: string := "oncallbusy"
  const ON_ERROR: string := "onerror"
  const ON_RINGING_BACK: string := "onringingback"
  const ON_INCOMING_CALL: string := "onincomingcall"

  /** A value placed in an event's dictionary; `Source` is the proxy itself. */
  datatype Arg = Source | Int(i: int) | Text(t: string) | Null

  type Payload = map<string, Arg>

  /** The dictionary of an event that carries nothing but its source. */
  const SourceOnly: Payload := map["source" := Source]

  /** One asynchronous call of a script callback, made under the event name it was looked up by. */
  datatype Invocation = Invocation(callback: nat, event: string, payload: Payload)

  /** Everything the client does outward, in order: a command to the SIP library or a callback. */
  datatype Effect = Command(op: StackOp) | Invoke(invocation: Invocation)

  /** The number of invocations made under the event name `event`. */
  function Count(trace: seq<Effect>, event: string): nat {
    if trace == [] then 0
    else (if trace[0].Invoke? && trace[0].invocation.event == event then 1 else 0) + Count(trace[1..], event)
  }

  lemma {:induction false} CountAppend(a: seq<Effect>, b: seq<Effect>, event: string)
    ensures Count(a + b, event) == Count(a, event) + Count(b, event)
  {
    if a == [] {
      assert a + b == b;
    } else {
      assert (a + b)[0] == a[0];
      assert (a + b)[1..] == a[1..] + b;
      CountAppend(a[1..], b, event);
    }
  }

  /** Commands to the library are not invocations. */
  lemma {:induction false} CountCommands(ops: seq<StackOp>, event: string)
    ensures Count(Commands(ops), event) == 0
  {
    if ops != [] {
      assert Commands(ops)[1..] == Commands(ops[1..]);
      CountCommands(ops[1..], event);
    }
  }

  /** A sequence of library commands as trace entries. */
  function Commands(ops: seq<StackOp>): (t: seq<Effect>)
    ensures |t| == |ops|
    ensures forall i :: 0 <= i < |ops| ==> t[i] == Command(ops[i])
  {
    if ops == [] then [] else [Command(ops[0])] + Commands(ops[1..])
  }

  // ---------------------------------------------------------------------------------------------
  // getProperty, the casts in register, getCallback and fireCallback
  // ---------------------------------------------------------------------------------------------

  /** `getProperty`: `null` for a missing property, the string for a string, else the cast fails. */
  function GetString(props: Properties, name: string): (r: Result<Option<string>, Exception>)
    ensures r == Success(None) <==> name !in props
    ensures forall s :: r == Success(Some(s)) <==> name in props && props[name] == Str(s)
    ensures r.Failure? <==> name in props && !props[name].Str?
    ensures r.Failure? ==> r.error == ClassCast(name)
  {
    if name !in props then Success(None)
    else if props[name].Str? then Success(Some(props[name].s))
    else Failure(ClassCast(name))
  }

  /** `(Double) proxy.getProperty(name)` for the port. */
  function GetNumber(props: Properties, name: string): (r: Result<Option<int>, Exception>)
    ensures r == Success(None) <==> name !in props
    ensures forall n :: r == Success(Some(n)) <==> name in props && props[name] == Num(n)
    ensures r.Failure? <==> name in props && !props[name].Num?
    ensures r.Failure? ==> r.error == ClassCast(name)
  {
    if name !in props then Success(None)
    else if props[name].Num? then Success(Some(props[name].n))
    else Failure(ClassCast(name))
  }

  /** `(Boolean) proxy.getProperty(name)` for the two registration flags. */
  function GetFlag(props: Properties, name: string): (r: Result<Option<bool>, Exception>)
    ensures r == Success(None) <==> name !in props
    ensures forall b :: r == Success(Some(b)) <==> name in props && props[name] == Flag(b)
    ensures r.Failure? <==> name in props && !props[name].Flag?
    ensures r.Failure? ==> r.error == ClassCast(name)
  {
    if name !in props then Success(None)
    else if props[name].Flag? then Success(Some(props[name].b))
    else Failure(ClassCast(name))
  }

  /** A required string property: `null` is refused with `message`; emptiness is not checked. */
  function Require(props: Properties, name: string, message: string): (r: Result<string, Exception>)
    ensures name !in props ==> r == Failure(IllegalArgument(message))
    ensures name in props && !props[name].Str? ==> r == Failure(ClassCast(name))
    ensures forall s :: r == Success(s) <==> name in props && props[name] == Str(s)
  {
    var v :- GetString(props, name);
    if v.None? then Failure(IllegalArgument(message)) else Success(v.value)
  }

  /** `getCallback`: the callback stored under `name`, or `null` when the property is anything else. */
  function GetCallback(props: Properties, name: string): (r: Option<nat>)
    ensures r.Some? <==> name in props && props[name].Callback?
    ensures r.Some? ==> props[name] == Callback(r.value)
  {
    if name in props && props[name].Callback? then Some(props[name].id) else None
  }

  /**
    What `fireCallback(name, args)` adds to the trace: nothing when no callback is registered
    under `name`, otherwise exactly one invocation of that callback with `payload`.
   */
  function Dispatch(props: Properties, name: string, payload: Payload): (r: seq<Effect>)
    ensures |r| <= 1
    ensures r == [] <==> GetCallback(props, name).None?
    ensures forall cb :: GetCallback(props, name) == Some(cb) ==> r == [Invoke(Invocation(cb, name, payload))]
  {
    match GetCallback(props, name)
    case None => []
    case Some(cb) => [Invoke(Invocation(cb, name, payload))]
  }

  /** The number of `event` invocations grows by one exactly when `Dispatch` finds a callback for it. */
  lemma DispatchCount(trace: seq<Effect>, props: Properties, name: string, payload: Payload, event: string)
    ensures Count(trace + Dispatch(props, name, payload), event)
         == Count(trace, event) + (if event == name && GetCallback(props, name).Some? then 1 else 0)
  {
    CountAppend(trace, Dispatch(props, name, payload), event);
    var d := Dispatch(props, name, payload);
    if d != [] {
      assert d[1..] == [];
    }
  }

  // ---------------------------------------------------------------------------------------------
  // The profile builder of register
  // ---------------------------------------------------------------------------------------------

  /** The property read cleanly: it is missing or it holds a string. */
  predicate TextOrMissing(props: Properties, name: string) {
    name !in props || props[name].Str?
  }

  /** The property is present and holds a string. */
  predicate IsText(props: Properties, name: string) {
    name in props && props[name].Str?
  }

  /** The three required properties are present strings. */
  predicate RequiredText(props: Properties) {
    IsText(props, "username") && IsText(props, "password") && IsText(props, "domain")
  }

  /** What an optional string property sets on the builder: nothing when it is missing. */
  function OptionalText(props: Properties, name: string): Option<string>
    requires TextOrMissing(props, name)
  {
    if name in props then Some(props[name].s) else None
  }

  /**
    The validation and `SipProfile.Builder` steps of `register`, in source order: the three
    required strings, then each optional field, set only when its property is present. The first
    check that fails decides the exception.
   */
  function BuildProfile(props: Properties): (r: Result<Profile, Exception>)
    // the required properties, checked for null in the order username, password, domain
    ensures "username" !in props ==> r == Failure(IllegalArgument("Username required"))
    ensures "username" in props && props["username"].Str? && "password" !in props
      ==> r == Failure(IllegalArgument("Password required"))
    ensures "username" in props && props["username"].Str? && "password" in props
      && props["password"].Str? && "domain" !in props
      ==> r == Failure(IllegalArgument("Domain required"))
    // a property of the wrong kind makes its cast throw, before any later property is read
    ensures "username" in props && !props["username"].Str? ==> r == Failure(ClassCast("username"))
    ensures IsText(props, "username") && "password" in props && !props["password"].Str?
      ==> r == Failure(ClassCast("password"))
    ensures IsText(props, "username") && IsText(props, "password") && "domain" in props && !props["domain"].Str?
      ==> r == Failure(ClassCast("domain"))
    ensures RequiredText(props) && !TextOrMissing(props, "outboundProxy")
      ==> r == Failure(ClassCast("outboundProxy"))
    ensures RequiredText(props) && TextOrMissing(props, "outboundProxy")
      && "port" in props && !props["port"].Num?
      ==> r == Failure(ClassCast("port"))
    ensures RequiredText(props) && TextOrMissing(props, "outboundProxy") && ("port" in props ==> props["port"].Num?)
      && "autoRegistration" in props && !props["autoRegistration"].Flag?
      ==> r == Failure(ClassCast("autoRegistration"))
    ensures RequiredText(props) && TextOrMissing(props, "outboundProxy") && ("port" in props ==> props["port"].Num?)
      && ("autoRegistration" in props ==> props["autoRegistration"].Flag?)
      && "sendKeepAlive" in props && !props["sendKeepAlive"].Flag?
      ==> r == Failure(ClassCast("sendKeepAlive"))
    ensures RequiredText(props) && TextOrMissing(props, "outboundProxy") && ("port" in props ==> props["port"].Num?)
      && ("autoRegistration" in props ==> props["autoRegistration"].Flag?)
      && ("sendKeepAlive" in props ==> props["sendKeepAlive"].Flag?)
      && !TextOrMissing(props, "protocol")
      ==> r == Failure(ClassCast("protocol"))
    // only these two exceptions arise
    ensures r.Failure? ==> r.error.IllegalArgument? || r.error.ClassCast?
    // an IllegalArgument is raised only for a missing required property
    ensures r.Failure? && r.error.IllegalArgument?
      ==> "username" !in props || "password" !in props || "domain" !in props
    // success exactly when the required strings are there and every property read is well typed
    ensures r.Success? <==>
      ("username" in props && props["username"].Str? && "password" in props && props["password"].Str?
       && "domain" in props && props["domain"].Str?
       && TextOrMissing(props, "outboundProxy") && ("port" in props ==> props["port"].Num?)
       && ("autoRegistration" in props ==> props["autoRegistration"].Flag?)
       && ("sendKeepAlive" in props ==> props["sendKeepAlive"].Flag?)
       && TextOrMissing(props, "protocol"))
    // the profile holds the properties unmodified; a missing optional one is left unset
    ensures r.Success? ==>
      && r.value.username == props["username"].s
      && r.value.password == props["password"].s
      && r.value.domain == props["domain"].s
      && r.value.outboundProxy == OptionalText(props, "outboundProxy")
      && r.value.port == (if "port" in props then Some(props["port"].n) else None)
      && r.value.autoRegistration == (if "autoRegistration" in props then Some(props["autoRegistration"].b) else None)
      && r.value.sendKeepAlive == (if "sendKeepAlive" in props then Some(props["sendKeepAlive"].b) else None)
      && r.value.protocol == OptionalText(props, "protocol")
  {
    var username :- Require(props, "username", "Username required");
    var password :- Require(props, "password", "Password required");
    var domain :- Require(props, "domain", "Domain required");
    var outboundProxy :- GetString(props, "outboundProxy");
    var port :- GetNumber(props, "port");
    var autoRegistration :- GetFlag(props, "autoRegistration");
    var sendKeepAlive :- GetFlag(props, "sendKeepAlive");
    var protocol :- GetString(props, "protocol");
    Success(Profile(username, domain, password, outboundProxy, port, autoRegistration, sendKeepAlive, protocol))
  }

  // ---------------------------------------------------------------------------------------------
  // The client
  // ---------------------------------------------------------------------------------------------

  class SipClient {
    /** The proxy's property bag; script code may change it between calls. */
    var properties: Properties
    /** Whether `SipManager.newInstance` gave a manager (it gives none where SIP is unsupported). */
    const hasManager: bool
    /** `mSipProfile`. */
    var profile: Option<Profile>
    /** The profile URIs that the manager holds open. */
    var sessions: set<string>
    /** `call`. */
    var call: Option<Call>
    /** The commands issued to the library and the callbacks invoked, oldest first. */
    var trace: seq<Effect>

    constructor (properties: Properties, sipSupported: bool)
      ensures this.properties == properties && hasManager == sipSupported
      ensures profile == None && sessions == {} && call == None && trace == []
    {
      this.properties := properties;
      hasManager := sipSupported;
      profile := None;
      sessions := {};
      call := None;
      trace := [];
    }

    // --- queries ---------------------------------------------------------------------------

    /** `isInCall`: false without a call, else what the library reports. */
    function IsInCall(): (r: bool)
      reads this
      ensures call.None? ==> !r
      ensures r ==> call.Some? && call.value.inCall
      ensures call.Some? && call.value.inCall ==> r
    {
      call.Some? && call.value.inCall
    }

    /** `isMuted`: false without a call. */
    function IsMuted(): (r: bool)
      reads this
      ensures call.None? ==> !r
      ensures r <==> call.Some? && call.value.muted
    {
      call.Some? && call.value.muted
    }

    /** `isOnHold`: false without a call. */
    function IsOnHold(): (r: bool)
      reads this
      ensures call.None? ==> !r
      ensures r <==> call.Some? && call.value.onHold
    {
      call.Some? && call.value.onHold
    }

    /**
      `isRegistered`, given the library's answer for the profile's URI (`None` when the query
      throws): never true without a manager and a profile, and a failed query reads as false.
     */
    function IsRegistered(reply: Option<bool>): (r: bool)
      reads this
      ensures r ==> hasManager && profile.Some?
      ensures reply.None? ==> !r
      ensures hasManager && profile.Some? && reply.Some? ==> r == reply.value
    {
      hasManager && profile.Some? && reply == Some(true)
    }

    // --- the dispatcher ----------------------------------------------------------------------

    /** `fireCallback(name, args)`. */
    method FireCallbackWith(name: string, payload: Payload)
      modifies this
      ensures trace == old(trace) + Dispatch(properties, name, payload)
      ensures properties == old(properties) && profile == old(profile)
      ensures sessions == old(sessions) && call == old(call)
    {
      trace := trace + Dispatch(properties, name, payload);
    }

    /** `fireCallback(name)`: the dictionary carries only the source. */
    method FireCallback(name: string)
      modifies this
      ensures trace == old(trace) + Dispatch(properties, name, SourceOnly)
      ensures properties == old(properties) && profile == old(profile)
      ensures sessions == old(sessions) && call == old(call)
    {
      FireCallbackWith(name, SourceOnly);
    }

    /**
      Issues a command to the held call. The command is recorded whether or not the library
      throws; only a successful one changes the call.
     */
    method Issue(op: StackOp, fails: bool)
      requires call.Some?
      modifies this
      ensures call == if fails then old(call) else Some(Step(old(call).value, op))
      ensures trace == old(trace) + [Command(op)]
      ensures properties == old(properties) && profile == old(profile) && sessions == old(sessions)
    {
      trace := trace + [Command(op)];
      if !fails {
        call := Some(Step(call.value, op));
      }
    }

    /** `setCall`. */
    method SetCall(c: Option<Call>)
      modifies this
      ensures call == c
      ensures properties == old(properties) && profile == old(profile)
      ensures sessions == old(sessions) && trace == old(trace)
    {
      call := c;
    }

    // --- registration ------------------------------------------------------------------------

    /**
      `register`. A validation or cast error leaves everything as it was. Otherwise the profile is
      stored first; a missing manager then throws, and so may opening it or installing the
      registration listener.
     */
    method Register(openFails: bool, listenerFails: bool) returns (o: Outcome)
      modifies this
      ensures properties == old(properties) && call == old(call)
      ensures BuildProfile(properties).Failure? ==>
        && o == Threw(BuildProfile(properties).error)
        && profile == old(profile) && sessions == old(sessions) && trace == old(trace)
      ensures BuildProfile(properties).Success? && !hasManager ==>
        && profile == Some(BuildProfile(properties).value)
        && o == Threw(NullPointer) && sessions == old(sessions) && trace == old(trace)
      ensures BuildProfile(properties).Success? && hasManager ==>
        var uri := ProfileUri(BuildProfile(properties).value);
        && profile == Some(BuildProfile(properties).value)
        && sessions == (if openFails then old(sessions) else old(sessions) + {uri})
        && trace == old(trace) + Commands([Open(uri)] + (if openFails then [] else [SetRegistrationListener(uri)]))
        && o == (if openFails || listenerFails then Threw(Sip) else Normal)
    {
      var built := BuildProfile(properties);
      if built.Failure? {
        return Threw(built.error);
      }
      profile := Some(built.value);
      var uri := ProfileUri(built.value);
      if !hasManager {
        return Threw(NullPointer);
      }
      trace := trace + [Command(Open(uri))];
      if openFails {
        return Threw(Sip);
      }
      sessions := sessions + {uri};
      trace := trace + [Command(SetRegistrationListener(uri))];
      if listenerFails {
        return Threw(Sip);
      }
      return Normal;
    }

    /** The registration listener's `onRegistering`. */
    method OnRegistering()
      modifies this
      ensures trace == old(trace) + Dispatch(properties, ON_REGISTERING, SourceOnly)
      ensures properties == old(properties) && profile == old(profile)
      ensures sessions == old(sessions) && call == old(call)
    {
      FireCallback(ON_REGISTERING);
    }

    /** The registration listener's `onRegistrationDone`. */
    method OnRegistrationDone()
      modifies this
      ensures trace == old(trace) + Dispatch(properties, ON_REGISTRATION_DONE, SourceOnly)
      ensures properties == old(properties) && profile == old(profile)
      ensures sessions == old(sessions) && call == old(call)
    {
      FireCallback(ON_REGISTRATION_DONE);
    }

    /** The registration listener's `onRegistrationFailed`: the code and message are not passed on. */
    method OnRegistrationFailed(errorCode: int, errorMessage: string)
      modifies this
      ensures trace == old(trace) + Dispatch(properties, ON_REGISTRATION_FAILED, SourceOnly)
      ensures properties == old(properties) && profile == old(profile)
      ensures sessions == old(sessions) && call == old(call)
    {
      FireCallback(ON_REGISTRATION_FAILED);
    }

    /**
      `close`: nothing without a manager; otherwise closes the profile's session if there is a
      profile. An error from the library is swallowed and leaves the session open.
     */
    method Close(closeFails: bool)
      modifies this
      ensures properties == old(properties) && profile == old(profile) && call == old(call)
      ensures !hasManager || profile.None? ==> sessions == old(sessions) && trace == old(trace)
      ensures hasManager && profile.Some? ==>
        var uri := ProfileUri(profile.value);
        && trace == old(trace) + [Command(CloseProfile(uri))]
        && sessions == (if closeFails then old(sessions) else old(sessions) - {uri})
    {
      if !hasManager {
        return;
      }
      if profile.Some? {
        var uri := ProfileUri(profile.value);
        trace := trace + [Command(CloseProfile(uri))];
        if !closeFails {
          sessions := sessions - {uri};
        }
      }
    }

    // --- call controls -----------------------------------------------------------------------

    /**
      `answer`: nothing without a call. Otherwise answers with the 30-second timeout; if that
      throws, the exception propagates and nothing else happens, else the audio is routed as
      `RouteAudio` says: speaker on and not muted.
     */
    method Answer(answerFails: bool) returns (o: Outcome)
      modifies this
      ensures properties == old(properties) && profile == old(profile) && sessions == old(sessions)
      ensures old(call).None? ==> o == Normal && call == None && trace == old(trace)
      ensures old(call).Some? && answerFails ==>
        o == Threw(Sip) && call == old(call) && trace == old(trace) + [Command(AnswerCall(CallTimeout))]
      ensures old(call).Some? && !answerFails ==>
        && o == Normal
        && call == Some(RouteAudio(old(call).value))
        && trace == old(trace) + Commands([AnswerCall(CallTimeout)] + RouteAudioCommands(old(call).value))
    {
      if call.None? {
        return Normal;
      }
      Issue(AnswerCall(CallTimeout), answerFails);
      if answerFails {
        return Threw(Sip);
      }
      RouteHeldCall();
      return Normal;
    }

    /** The audio steps shared by `answer` and `onCallEstablished`, issued one by one. */
    method RouteHeldCall()
      requires call.Some?
      modifies this
      ensures call == Some(RouteAudio(old(call).value))
      ensures trace == old(trace) + Commands(RouteAudioCommands(old(call).value))
      ensures properties == old(properties) && profile == old(profile) && sessions == old(sessions)
    {
      ghost var before := call.value;
      Issue(StartAudio, false);
      Issue(StackOp.SetSpeakerMode(true), false);
      if call.value.muted {
        Issue(ToggleMute, false);
      }
    }

    /**
      `hangup`: nothing and no event without a call. Otherwise ends the call; if that throws,
      the exception propagates. Else fires ON_CALL_ENDED, then closes the call, which stays held.
     */
    method Hangup(endFails: bool) returns (o: Outcome)
      modifies this
      ensures properties == old(properties) && profile == old(profile) && sessions == old(sessions)
      ensures old(call).None? ==> o == Normal && call == None && trace == old(trace)
      ensures old(call).Some? && endFails ==>
        o == Threw(Sip) && call == old(call) && trace == old(trace) + [Command(EndCall)]
      ensures old(call).Some? && !endFails ==>
        && o == Normal
        && call == Some(Step(Step(old(call).value, EndCall), CloseCall))
        && trace == old(trace) + [Command(EndCall)] + Dispatch(properties, ON_CALL_ENDED, SourceOnly) + [Command(CloseCall)]
      ensures Count(trace, ON_CALL_ENDED) == Count(old(trace), ON_CALL_ENDED)
        + (if old(call).Some? && !endFails && GetCallback(properties, ON_CALL_ENDED).Some? then 1 else 0)
    {
      if call.None? {
        return Normal;
      }
      ghost var t0 := trace;
      Issue(EndCall, endFails);
      CountAppend(t0, [Command(EndCall)], ON_CALL_ENDED);
      if endFails {
        return Threw(Sip);
      }
      ghost var t1 := trace;
      FireCallback(ON_CALL_ENDED);
      DispatchCount(t1, properties, ON_CALL_ENDED, SourceOnly, ON_CALL_ENDED);
      ghost var t2 := trace;
      Issue(CloseCall, false);
      CountAppend(t2, [Command(CloseCall)], ON_CALL_ENDED);
      return Normal;
    }

    /**
      `holdCall`: issues a hold only when the call is not on hold. With no call the guard passes
      and the null call is dereferenced.
     */
    method HoldCall(holdFails: bool) returns (o: Outcome)
      modifies this
      ensures properties == old(properties) && profile == old(profile) && sessions == old(sessions)
      ensures old(call).None? ==> o == Threw(NullPointer) && call == None && trace == old(trace)
      ensures old(call).Some? && old(call).value.onHold ==> o == Normal && call == old(call) && trace == old(trace)
      ensures old(call).Some? && !old(call).value.onHold ==>
        && trace == old(trace) + [Command(StackOp.HoldCall(CallTimeout))]
        && call == (if holdFails then old(call) else Some(old(call).value.(onHold := true)))
        && o == (if holdFails then Threw(Sip) else Normal)
    {
      if !IsOnHold() {
        if call.None? {
          return Threw(NullPointer);
        }
        Issue(StackOp.HoldCall(CallTimeout), holdFails);
        if holdFails {
          return Threw(Sip);
        }
      }
      return Normal;
    }

    /** `unholdCall`: continues the call only when it is on hold. */
    method UnholdCall(continueFails: bool) returns (o: Outcome)
      modifies this
      ensures properties == old(properties) && profile == old(profile) && sessions == old(sessions)
      ensures !(old(call).Some? && old(call).value.onHold) ==> o == Normal && call == old(call) && trace == old(trace)
      ensures old(call).Some? && old(call).value.onHold ==>
        && trace == old(trace) + [Command(ContinueCall(CallTimeout))]
        && call == (if continueFails then old(call) else Some(old(call).value.(onHold := false)))
        && o == (if continueFails then Threw(Sip) else Normal)
    {
      if IsOnHold() {
        Issue(ContinueCall(CallTimeout), continueFails);
        if continueFails {
          return Threw(Sip);
        }
      }
      return Normal;
    }

    /** `toggleMuted`: flips the mute state once, and only while in a call. */
    method ToggleMuted()
      modifies this
      ensures properties == old(properties) && profile == old(profile) && sessions == old(sessions)
      ensures !old(IsInCall()) ==> call == old(call) && trace == old(trace)
      ensures old(IsInCall()) ==>
        call == Some(old(call).value.(muted := !old(call).value.muted)) && trace == old(trace) + [Command(ToggleMute)]
    {
      if IsInCall() {
        Issue(ToggleMute, false);
      }
    }

    /** `setSpeakerMode`: sets the speaker to `value`, and only while in a call. */
    method SetSpeakerMode(value: bool)
      modifies this
      ensures properties == old(properties) && profile == old(profile) && sessions == old(sessions)
      ensures !old(IsInCall()) ==> call == old(call) && trace == old(trace)
      ensures old(IsInCall()) ==>
        call == Some(old(call).value.(speaker := value)) && trace == old(trace) + [Command(StackOp.SetSpeakerMode(value))]
    {
      if IsInCall() {
        Issue(StackOp.SetSpeakerMode(value), false);
      }
    }

    /** `sendDTMF`: sends the tone only while in a call; the call's state does not change. */
    method SendDtmf(code: int)
      modifies this
      ensures properties == old(properties) && profile == old(profile) && sessions == old(sessions)
      ensures call == old(call)
      ensures trace == old(trace) + (if old(IsInCall()) then [Command(StackOp.SendDtmf(code))] else [])
    {
      if IsInCall() {
        Issue(StackOp.SendDtmf(code), false);
      }
    }

    // --- outgoing calls ------------------------------------------------------------------------

    /**
      `initiateCall`: never throws. Dialling needs a manager and a profile (else a null
      dereference) and may fail in the library. On success the new call replaces the held one,
      which is not closed. On failure the profile's session is closed (best effort) and the held
      call, if any, is closed and stays held.
     */
    method InitiateCall(address: string, dialFails: bool, closeFails: bool)
      modifies this
      ensures properties == old(properties) && profile == old(profile)
      ensures hasManager && profile.Some? && !dialFails ==>
        && call == Some(NewCall(Outgoing, Some(Peer(None, address))))
        && trace == old(trace) + [Command(MakeAudioCall(ProfileUri(profile.value), address, CallTimeout))]
        && sessions == old(sessions)
      ensures !hasManager || profile.None? ==>
        && sessions == old(sessions)
        && call == (if old(call).Some? then Some(Step(old(call).value, CloseCall)) else None)
        && trace == old(trace) + (if old(call).Some? then [Command(CloseCall)] else [])
      ensures hasManager && profile.Some? && dialFails ==>
        var uri := ProfileUri(profile.value);
        && sessions == (if closeFails then old(sessions) else old(sessions) - {uri})
        && call == (if old(call).Some? then Some(Step(old(call).value, CloseCall)) else None)
        && trace == old(trace) + Commands([MakeAudioCall(uri, address, CallTimeout), CloseProfile(uri)]
                                          + (if old(call).Some? then [CloseCall] else []))
    {
      var failed := false;
      if !hasManager || profile.None? {
        failed := true;
      } else {
        trace := trace + [Command(MakeAudioCall(ProfileUri(profile.value), address, CallTimeout))];
        if dialFails {
          failed := true;
        } else {
          call := Some(NewCall(Outgoing, Some(Peer(None, address))));
        }
      }
      if failed {
        if profile.Some? && hasManager {
          var uri := ProfileUri(profile.value);
          trace := trace + [Command(CloseProfile(uri))];
          if !closeFails {
            sessions := sessions - {uri};
          }
        }
        if call.Some? {
          Issue(CloseCall, false);
        }
      }
    }

    /**
      The library reports the held call established. The dialling listener then routes the audio
      and fires ON_CALL_ESTABLISHED; the ringing listener of an incoming call does nothing.
     */
    method OnCallEstablished()
      requires call.Some?
      modifies this
      ensures properties == old(properties) && profile == old(profile) && sessions == old(sessions)
      ensures var established := old(call).value.(inCall := true);
        if established.origin.Outgoing? then
          && call == Some(RouteAudio(established))
          && trace == old(trace) + Commands(RouteAudioCommands(established)) + Dispatch(properties, ON_CALL_ESTABLISHED, SourceOnly)
        else
          call == Some(established) && trace == old(trace)
    {
      call := Some(call.value.(inCall := true));
      if call.value.origin.Outgoing? {
        RouteHeldCall();
        FireCallback(ON_CALL_ESTABLISHED);
      }
    }

    /** The dialling listener's `onCallBusy`. */
    method OnCallBusy()
      requires call.Some?
      modifies this
      ensures properties == old(properties) && profile == old(profile)
      ensures sessions == old(sessions) && call == old(call)
      ensures trace == old(trace) + (if call.value.origin.Outgoing? then Dispatch(properties, ON_CALL_BUSY, SourceOnly) else [])
    {
      if call.value.origin.Outgoing? {
        FireCallback(ON_CALL_BUSY);
      }
    }

    /** The dialling listener's `onError`: reported under ON_CALL_BUSY, with code and message only. */
    method OnError(errorCode: int, errorMessage: string)
      requires call.Some?
      modifies this
      ensures properties == old(properties) && profile == old(profile)
      ensures sessions == old(sessions) && call == old(call)
      ensures trace == old(trace) + (if call.value.origin.Outgoing? then Dispatch(properties, ON_CALL_BUSY, ErrorPayload(errorCode, errorMessage)) else [])
    {
      if call.value.origin.Outgoing? {
        FireCallbackWith(ON_CALL_BUSY, ErrorPayload(errorCode, errorMessage));
      }
    }

    /** The dialling listener's `onRingingBack`. */
    method OnRingingBack()
      requires call.Some?
      modifies this
      ensures properties == old(properties) && profile == old(profile)
      ensures sessions == old(sessions) && call == old(call)
      ensures trace == old(trace) + (if call.value.origin.Outgoing? then Dispatch(properties, ON_RINGING_BACK, SourceOnly) else [])
    {
      if call.value.origin.Outgoing? {
        FireCallback(ON_RINGING_BACK);
      }
    }

    /** The library reports the held call ended; the dialling listener fires ON_CALL_ENDED. */
    method OnCallEnded()
      requires call.Some?
      modifies this
      ensures properties == old(properties) && profile == old(profile) && sessions == old(sessions)
      ensures call == Some(old(call).value.(inCall := false))
      ensures trace == old(trace) + (if call.value.origin.Outgoing? then Dispatch(properties, ON_CALL_ENDED, SourceOnly) else [])
    {
      call := Some(call.value.(inCall := false));
      if call.value.origin.Outgoing? {
        FireCallback(ON_CALL_ENDED);
      }
    }
  }

  /** The dictionary of an `onError` report: the code and the message, and no source. */
  function ErrorPayload(errorCode: int, errorMessage: string): (r: Payload)
    ensures r.Keys == {"errorCode", "errorMessage"} && "source" !in r
    ensures r["errorCode"] == Int(errorCode) && r["errorMessage"] == Text(errorMessage)
  {
    map["errorCode" := Int(errorCode), "errorMessage" := Text(errorMessage)]
  }
}
