/**
 The native side of the live-activity method channel: one handler that gates
 every command on the OS version, validates the arguments of start and update,
 checks authorization for start only, and then requests, updates or ends the
 single activity it owns.

 The operating system is a parameter. Each command sees an `Environment`
 (version gate, authorization flag, the outcome ActivityKit would give a
 request, the clock), and its `Outcome` lists the ActivityKit calls the
 bridge issued, so that "no creation was attempted" can be stated.
 Every command is one atomic step: the asynchronous update and end
 completions are taken to finish before the next command is handled.
 */
module LiveActivityBridge {
  import opened Wrappers
  import opened Attributes

  /** A value in the argument dictionary, as far as the handler's casts can tell. */
  datatype ArgValue = StringValue(s: string) | BoolValue(b: bool) | OtherValue

  /** The call's arguments: a string-keyed dictionary, or anything else. */
  datatype Arguments = Dictionary(entries: map<string, ArgValue>) | NotADictionary

  datatype MethodCall = MethodCall(name: string, arguments: Arguments)

  /** What `Activity.request` does when asked: hand back an activity id, or throw. */
  datatype RequestOutcome = Granted(id: string) | Refused(diagnostic: string)

  /** The operating system as one command sees it. */
  datatype Environment = Environment(
    atLeast16_2: bool,
    activitiesEnabled: bool,
    request: RequestOutcome,
    now: Instant)

  /** The handle the bridge owns: none, or one activity with its attributes and latest content. */
  datatype State =
    | Absent
    | Active(id: string, attributes: AgentActivityAttributes, content: ContentState)

  /** What the handler passes to the channel's result callback. */
  datatype Reply =
    | BoolReply(b: bool)
    | StringReply(s: string)
    | NilReply
    | ErrorReply(code: string, message: string)
    | NotImplemented
  {
    predicate IsError() {
      ErrorReply? || NotImplemented?
    }
  }

  /** An ActivityKit call the bridge makes. */
  datatype OsCall =
    | QueryAuthorization
    | RequestActivity(attributes: AgentActivityAttributes, content: ContentState)
    | UpdateActivity(id: string, content: ContentState)
    | EndActivity(id: string)

  datatype Outcome = Outcome(state: State, reply: Reply, calls: seq<OsCall>)

  const Unsupported: Reply := ErrorReply("UNSUPPORTED", "Live Activities require iOS 16.2+")
  const InvalidArgs: Reply := ErrorReply("INVALID_ARGS", "Missing required arguments")
  const Disabled: Reply := ErrorReply("DISABLED", "Live Activities are disabled by user")
  const NoActivity: Reply := ErrorReply("NO_ACTIVITY", "No active Live Activity found")

  function StartFailed(diagnostic: string): Reply {
    ErrorReply("START_FAILED", diagnostic)
  }

  /** The method names the handler recognises. */
  const KnownMethods: set<string> := {"isSupported", "start", "update", "end"}

  // ---------------------------------------------------------------------------
  // Argument validation
  // ---------------------------------------------------------------------------

  /** The dictionary has a string under `key`. */
  predicate HasString(args: Arguments, key: string) {
    args.Dictionary? && key in args.entries && args.entries[key].StringValue?
  }

  /** `args[key] as? String`, after the cast of the arguments to a dictionary. */
  function StringArgument(args: Arguments, key: string): Option<string> {
    if HasString(args, key) then Some(args.entries[key].s) else None
  }

  /** `args[key] as? Bool ?? false`. */
  function FlagArgument(args: Arguments, key: string): bool
    requires args.Dictionary?
  {
    key in args.entries && args.entries[key].BoolValue? && args.entries[key].b
  }

  /**
   Reading a key back after the application stored a value under it: a string
   is found exactly when a string was stored, other keys read as before, and a
   missing key or a non-dictionary payload yields nothing.
   */
  lemma StringArgumentReadsWrite(m: map<string, ArgValue>, key: string, v: ArgValue, other: string)
    ensures StringArgument(Dictionary(m[key := v]), key) == (if v.StringValue? then Some(v.s) else None)
    ensures other != key ==>
      StringArgument(Dictionary(m[key := v]), other) == StringArgument(Dictionary(m), other)
    ensures StringArgument(Dictionary(m - {key}), key) == None
    ensures StringArgument(NotADictionary, key) == None
  {}

  /**
   Reading a flag back: it is true exactly when the boolean true was stored,
   other keys read as before, and a missing key reads false.
   */
  lemma FlagArgumentReadsWrite(m: map<string, ArgValue>, key: string, v: ArgValue, other: string)
    ensures FlagArgument(Dictionary(m[key := v]), key) == (v == BoolValue(true))
    ensures other != key ==>
      FlagArgument(Dictionary(m[key := v]), other) == FlagArgument(Dictionary(m), other)
    ensures !FlagArgument(Dictionary(m - {key}), key)
  {}

  /** The four strings `start` and `update` both insist on. */
  predicate HasRequiredStrings(args: Arguments) {
    && HasString(args, "agentType")
    && HasString(args, "agentEmoji")
    && HasString(args, "agentName")
    && HasString(args, "message")
  }

  /** A validated `start` payload. */
  datatype StartRequest = StartRequest(attributes: AgentActivityAttributes, message: string)

  function StartArguments(args: Arguments): (r: Option<StartRequest>)
    ensures r.Some? <==> HasRequiredStrings(args)
    ensures r.Some? ==>
      && args.entries["agentType"] == StringValue(r.value.attributes.agentType)
      && args.entries["agentEmoji"] == StringValue(r.value.attributes.agentEmoji)
      && args.entries["agentName"] == StringValue(r.value.attributes.agentName)
      && args.entries["message"] == StringValue(r.value.message)
  {
    match (StringArgument(args, "agentType"), StringArgument(args, "agentEmoji"),
           StringArgument(args, "agentName"), StringArgument(args, "message"))
    case (Some(agentType), Some(agentEmoji), Some(agentName), Some(message)) =>
      Some(StartRequest(AgentActivityAttributes(agentType, agentEmoji, agentName), message))
    case _ => None
  }

  /**
   A validated `update` payload. The attributes are required although the
   update never uses them.
   */
  datatype UpdateRequest = UpdateRequest(
    attributes: AgentActivityAttributes,
    message: string,
    isError: bool,
    isComplete: bool)

  function UpdateArguments(args: Arguments): (r: Option<UpdateRequest>)
    ensures r.Some? <==> HasRequiredStrings(args)
    ensures r.Some? ==>
      && StartArguments(args) == Some(StartRequest(r.value.attributes, r.value.message))
      && (r.value.isError <==> "isError" in args.entries && args.entries["isError"] == BoolValue(true))
      && (r.value.isComplete <==> "isComplete" in args.entries && args.entries["isComplete"] == BoolValue(true))
  {
    match StartArguments(args)
    case None => None
    case Some(req) =>
      Some(UpdateRequest(
        req.attributes, req.message,
        FlagArgument(args, "isError"), FlagArgument(args, "isComplete")))
  }

  // ---------------------------------------------------------------------------
  // What the application side sends
  // ---------------------------------------------------------------------------

  /** The dictionary the application builds for `start`. */
  function StartPayload(req: StartRequest): Arguments {
    Dictionary(map[
      "agentType" := StringValue(req.attributes.agentType),
      "agentEmoji" := StringValue(req.attributes.agentEmoji),
      "agentName" := StringValue(req.attributes.agentName),
      "message" := StringValue(req.message)])
  }

  /** The dictionary the application builds for `update`, flags included. */
  function UpdatePayload(req: UpdateRequest): Arguments {
    var base := StartPayload(StartRequest(req.attributes, req.message)).entries;
    Dictionary(base["isError" := BoolValue(req.isError)]["isComplete" := BoolValue(req.isComplete)])
  }

  /** Validation recovers exactly the request the application encoded. */
  lemma StartArgumentsRoundTrip(req: StartRequest)
    ensures StartArguments(StartPayload(req)) == Some(req)
  {}

  lemma UpdateArgumentsRoundTrip(req: UpdateRequest)
    ensures UpdateArguments(UpdatePayload(req)) == Some(req)
  {}

  /** An `update` payload without the two flags reads both as false. */
  lemma OmittedFlagsDefaultToFalse(req: StartRequest)
    ensures UpdateArguments(StartPayload(req))
         == Some(UpdateRequest(req.attributes, req.message, false, false))
  {}

  // ---------------------------------------------------------------------------
  // The handler
  // ---------------------------------------------------------------------------

  function StartLiveActivity(s: State, env: Environment, req: StartRequest): Outcome {
    if !env.activitiesEnabled then
      Outcome(s, Disabled, [QueryAuthorization])
    else
      var content := ContentState(req.message, false, false, env.now);
      var calls := [QueryAuthorization, RequestActivity(req.attributes, content)];
      match env.request
      case Granted(id) => Outcome(Active(id, req.attributes, content), StringReply(id), calls)
      case Refused(diagnostic) => Outcome(s, StartFailed(diagnostic), calls)
  }

  function UpdateLiveActivity(
    s: State, env: Environment, message: string, isError: bool, isComplete: bool): Outcome
  {
    match s
    case Absent => Outcome(s, NoActivity, [])
    case Active(id, attributes, _) =>
      var content := ContentState(message, isError, isComplete, env.now);
      Outcome(Active(id, attributes, content), NilReply, [UpdateActivity(id, content)])
  }

  function EndLiveActivity(s: State): Outcome {
    match s
    case Absent => Outcome(Absent, NilReply, [])
    case Active(id, _, _) => Outcome(Absent, NilReply, [EndActivity(id)])
  }

  /**
   One command through the channel handler. The contract collects the
   guarantees that hold for every command name.
   */
  function HandleMethod(s: State, env: Environment, call: MethodCall): (o: Outcome)
    // Below iOS 16.2 nothing else is looked at.
    ensures !env.atLeast16_2 ==> o == Outcome(s, Unsupported, [])
    ensures env.atLeast16_2 && call.name !in KnownMethods ==> o == Outcome(s, NotImplemented, [])
    // A failed command leaves the handle as it was.
    ensures o.reply.IsError() ==> o.state == s
    // A different activity is owned only after a successful start, which reports its id.
    ensures o.state.Active? && (s.Absent? || o.state.id != s.id || o.state.attributes != s.attributes) ==>
      call.name == "start" && o.reply == StringReply(o.state.id)
    // The handle is dropped only by end.
    ensures s.Active? && o.state.Absent? ==> call.name == "end" && o.reply == NilReply
    // Updates and ends only ever address the owned activity.
    ensures forall c | c in o.calls && (c.UpdateActivity? || c.EndActivity?) :: s.Active? && c.id == s.id
    // An activity is requested only with authorization, and at most once per command.
    ensures forall c | c in o.calls && c.RequestActivity? :: env.activitiesEnabled && call.name == "start"
    ensures forall k, l | 0 <= k < l < |o.calls| :: !(o.calls[k].RequestActivity? && o.calls[l].RequestActivity?)
    ensures |o.calls| <= 2
  {
    if !env.atLeast16_2 then
      Outcome(s, Unsupported, [])
    else if call.name == "isSupported" then
      Outcome(s, BoolReply(env.activitiesEnabled), [QueryAuthorization])
    else if call.name == "start" then
      match StartArguments(call.arguments)
      case None => Outcome(s, InvalidArgs, [])
      case Some(req) => StartLiveActivity(s, env, req)
    else if call.name == "update" then
      match UpdateArguments(call.arguments)
      case None => Outcome(s, InvalidArgs, [])
      case Some(req) => UpdateLiveActivity(s, env, req.message, req.isError, req.isComplete)
    else if call.name == "end" then
      EndLiveActivity(s)
    else
      Outcome(s, NotImplemented, [])
  }

  // ---------------------------------------------------------------------------
  // One lemma per command
  // ---------------------------------------------------------------------------

  /** `isSupported` reports the authorization flag and changes nothing. */
  lemma IsSupportedCommand(s: State, env: Environment, args: Arguments)
    requires env.atLeast16_2
    ensures HandleMethod(s, env, MethodCall("isSupported", args))
         == Outcome(s, BoolReply(env.activitiesEnabled), [QueryAuthorization])
  {}

  /**
   `start`: argument validation first, then authorization, then the request.
   Nothing guards against an activity already being owned: a granted request
   replaces the handle without ending the previous activity.
   */
  lemma StartCommand(s: State, env: Environment, args: Arguments)
    requires env.atLeast16_2
    ensures var o := HandleMethod(s, env, MethodCall("start", args));
      && (!HasRequiredStrings(args) ==> o == Outcome(s, InvalidArgs, []))
      && (HasRequiredStrings(args) && !env.activitiesEnabled ==>
            o == Outcome(s, Disabled, [QueryAuthorization]))
      && (HasRequiredStrings(args) && env.activitiesEnabled ==>
            var req := StartArguments(args).value;
            var initial := ContentState(req.message, false, false, env.now);
            && o.calls == [QueryAuthorization, RequestActivity(req.attributes, initial)]
            && (env.request.Granted? ==>
                  o.state == Active(env.request.id, req.attributes, initial)
                  && o.reply == StringReply(env.request.id))
            && (env.request.Refused? ==>
                  o.state == s && o.reply == ErrorReply("START_FAILED", env.request.diagnostic)))
  {}

  /**
   `update`: the four strings are checked before the handle; with a handle the
   content is replaced wholesale and the id and attributes are kept.
   */
  lemma UpdateCommand(s: State, env: Environment, args: Arguments)
    requires env.atLeast16_2
    ensures var o := HandleMethod(s, env, MethodCall("update", args));
      && (!HasRequiredStrings(args) ==> o == Outcome(s, InvalidArgs, []))
      && (HasRequiredStrings(args) && s.Absent? ==> o == Outcome(Absent, NoActivity, []))
      && (HasRequiredStrings(args) && s.Active? ==>
            var req := UpdateArguments(args).value;
            var content := ContentState(req.message, req.isError, req.isComplete, env.now);
            && o.state == Active(s.id, s.attributes, content)
            && o.reply == NilReply
            && o.calls == [UpdateActivity(s.id, content)])
  {}

  /** `end` always succeeds with no value and always leaves no handle. */
  lemma EndCommand(s: State, env: Environment, args: Arguments)
    requires env.atLeast16_2
    ensures var o := HandleMethod(s, env, MethodCall("end", args));
      && o.state == Absent
      && o.reply == NilReply
      && o.calls == (if s.Active? then [EndActivity(s.id)] else [])
  {}

  /** A second `end` finds nothing to end: `end; end` has the effect of `end`. */
  lemma EndTwiceIsEnd(s: State, env: Environment, env': Environment, args: Arguments, args': Arguments)
    requires env.atLeast16_2 && env'.atLeast16_2
    ensures var first := HandleMethod(s, env, MethodCall("end", args));
      && HandleMethod(first.state, env', MethodCall("end", args')) == Outcome(Absent, NilReply, [])
      && first.state == HandleMethod(first.state, env', MethodCall("end", args')).state
  {}

  /** A granted `start` over an owned activity orphans it: no end is issued for the old id. */
  lemma StartOverwritesHandle(s: State, env: Environment, args: Arguments)
    requires s.Active? && env.atLeast16_2 && env.activitiesEnabled && env.request.Granted?
    requires HasRequiredStrings(args)
    ensures var o := HandleMethod(s, env, MethodCall("start", args));
      var req := StartArguments(args).value;
      && o.state == Active(env.request.id, req.attributes, ContentState(req.message, false, false, env.now))
      && EndActivity(s.id) !in o.calls
  {
    StartCommand(s, env, args);
  }
}
