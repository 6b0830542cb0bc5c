# Live Activity lifecycle bridge — a Dafny model

The iOS runner of the app exposes a method channel through which the Flutter
side drives one ActivityKit live activity. The channel handler
(`handleLiveActivityMethod` in `AppDelegate`) works in this order:

1. It refuses every command below iOS 16.2 (AppDelegate.swift:36-39).
2. For `start` and `update` it validates the argument dictionary
   (AppDelegate.swift:46-53, 64-72); `end` and `isSupported` take no arguments.
3. For `start` only, it checks whether live activities are enabled
   (AppDelegate.swift:101-104); `update` and `end` never ask.
4. It requests, updates or ends the one activity it owns (`currentActivity`)
   through the helpers `startLiveActivity`, `updateLiveActivity` and
   `endLiveActivity`, modelled as `StartLiveActivity`, `UpdateLiveActivity`
   and `EndLiveActivity`.

The widget extension renders that activity on the lock screen and in the
Dynamic Island. It picks a status indicator from the content state's
`isComplete` and `isError` flags.

This project models that bridge as a pure state machine:

- `State` is `Absent | Active(id, attributes, content)`.
- `HandleMethod(state, environment, call)` returns the next state, the reply
  sent to the channel's result callback, and the list of ActivityKit calls it
  issued.
- The operating system is a per-command `Environment`:
  - whether the OS is at least iOS 16.2;
  - `areActivitiesEnabled`;
  - what `Activity.request` would do: `Granted(id)` or `Refused(diagnostic)`;
  - an abstract clock value that stands in for `Date()`.

Files:

- `activity_attributes.dfy` (module `Attributes`): `AgentActivityAttributes`
  (agentType, agentEmoji, agentName) and `ContentState` (message, isError,
  isComplete, timestamp).
- `live_activity_views.dfy` (module `LiveActivityViews`): the status
  precedence and which fields each lock-screen and Dynamic Island region shows.
- `live_activity_bridge.dfy` (module `LiveActivityBridge`): argument
  validation, the handler, and one lemma per command.
- `lifecycle.dfy` (module `Lifecycle`): runs of commands handled one at a
  time, the sequential dispatcher, and what a run does to the handle.
- `wrappers.dfy` (module `Wrappers`): `Option`.

Three behaviours of the handler that a caller might not expect:

- Below iOS 16.2, `isSupported` replies with the `UNSUPPORTED` error rather
  than a boolean (AppDelegate.swift:36-39).
- `start` while an activity is owned is not rejected. A granted request
  replaces the handle, and no end is issued for the previous activity
  (`StartOverwritesHandle`).
- `update` insists on all four strings, although it uses only `message`.

## Model

| member | source | states |
|---|---|---|
| `Attributes.ContentStateEquality` | ios/Runner/AgentActivityAttributes.swift:5-11 | Two content states are equal exactly when message, isError, isComplete and timestamp all agree. |
| `Attributes.AttributesEquality` | ios/Runner/AgentActivityAttributes.swift:14-16 | Two attribute values are equal exactly when agentType, agentEmoji and agentName all agree. |
| `LiveActivityViews.Status` | ios/Runner/AgentLiveActivity.swift:15-25 | The status is Complete iff isComplete; Failed iff isError and not isComplete; InProgress iff neither flag is set. |
| `LiveActivityViews.FullIndicator` | ios/Runner/AgentLiveActivity.swift:15-25 | The full-size glyph, drawn on the lock screen and in the expanded trailing region (lines 46-57), is one of the recognised symbols and signals exactly the status. |
| `LiveActivityViews.CompactTrailing` | ios/Runner/AgentLiveActivity.swift:73-90 | The compact trailing glyph is always a recognised system image and signals exactly the status. |
| `LiveActivityViews.LockScreen` | ios/Runner/AgentLiveActivity.swift:9-28 | The header is agentEmoji, a space and agentName; the body is the message; the indicator signals the status. |
| `LiveActivityViews.Island` | ios/Runner/AgentLiveActivity.swift:38-93 | Expanded leading, compact leading and minimal show only agentEmoji; the expanded bottom shows agentName and the message; both trailing regions signal the status. |
| `LiveActivityViews.IndicatorsAgree` | ios/Runner/AgentLiveActivity.swift:15-90 | The lock-screen, expanded-trailing and compact-trailing indicators agree with each other and with the status for every state. |
| `LiveActivityViews.RenderingSeesOnlyMessageAndStatus` | ios/Runner/AgentLiveActivity.swift:11-93 | States with the same message and the same status render identically: the timestamp is never shown. |
| `LiveActivityBridge.StringArgumentReadsWrite` | ios/Runner/AppDelegate.swift:46-50 | After a value is stored under a key, the string cast finds exactly a stored string; other keys read as before; a missing key or a non-dictionary payload yields nothing. |
| `LiveActivityBridge.FlagArgumentReadsWrite` | ios/Runner/AppDelegate.swift:74-75 | After a value is stored under a key, the flag reads true exactly when the boolean true was stored; other keys read as before; a missing key reads false. |
| `LiveActivityBridge.StartArguments` | ios/Runner/AppDelegate.swift:46-53 | Validation, built from the four string casts, succeeds iff all four keys hold strings, and the request carries exactly those strings. |
| `LiveActivityBridge.UpdateArguments` | ios/Runner/AppDelegate.swift:64-75 | Validation succeeds iff the same four strings are present; the flags follow the defaulting rule. |
| `LiveActivityBridge.StartArgumentsRoundTrip` | ios/Runner/AppDelegate.swift:46-50 | Validating the dictionary the application builds for start gives back the encoded request. |
| `LiveActivityBridge.UpdateArgumentsRoundTrip` | ios/Runner/AppDelegate.swift:64-75 | Validating the dictionary the application builds for update gives back the encoded request. |
| `LiveActivityBridge.OmittedFlagsDefaultToFalse` | ios/Runner/AppDelegate.swift:74-75 | An update payload without isError and isComplete reads both as false. |
| `LiveActivityBridge.HandleMethod` | ios/Runner/AppDelegate.swift:35-90 | Below iOS 16.2 every command gets UNSUPPORTED with no state change and no OS call. Unknown names get NotImplemented with no change. Every error leaves the handle unchanged. A new handle comes only from start, which replies with its id. Only end drops the handle. Updates and ends address only the owned activity. A request is made only by start with authorization, and at most once per command. |
| `LiveActivityBridge.IsSupportedCommand` | ios/Runner/AppDelegate.swift:42-43 | isSupported replies with the authorization flag, queries only authorization, and keeps the handle. |
| `LiveActivityBridge.StartCommand` | ios/Runner/AppDelegate.swift:45-135 | Through the dispatcher and `StartLiveActivity`: INVALID_ARGS comes before any OS call. DISABLED follows only the authorization query. Otherwise the OS gets one request with initial content (isError and isComplete false, timestamp now). A grant installs the handle and replies with its id. A refusal replies START_FAILED with the diagnostic and keeps the handle. |
| `LiveActivityBridge.UpdateCommand` | ios/Runner/AppDelegate.swift:63-164 | Through the dispatcher and `UpdateLiveActivity`: INVALID_ARGS comes before the handle check. With no handle the reply is NO_ACTIVITY with no OS call. With a handle the content is replaced wholesale with (message, isError, isComplete, now), id and attributes are kept, and the reply is nil. |
| `LiveActivityBridge.EndCommand` | ios/Runner/AppDelegate.swift:166-187 | Through the dispatcher and `EndLiveActivity`: end replies nil and leaves no handle. It asks the OS to end the owned activity, or does nothing when there is none. |
| `LiveActivityBridge.EndTwiceIsEnd` | ios/Runner/AppDelegate.swift:167-172 | After one end, a second end makes no OS call and changes nothing. |
| `LiveActivityBridge.StartOverwritesHandle` | ios/Runner/AppDelegate.swift:121-130 | Any valid start (extra keys allowed) that is granted while an activity is owned installs the new handle without ending the old activity. |
| `Lifecycle.Run` | ios/Runner/AppDelegate.swift:27-29 | A run of commands produces one reply per command. |
| `Lifecycle.Dispatch` | ios/Runner/AppDelegate.swift:27-29 | Handling commands one at a time in a loop yields the final handle and the replies of `Run`. |
| `Lifecycle.StepPresence` | ios/Runner/AppDelegate.swift:93-187 | After one command a handle is owned iff the command was a granted start, or a handle was owned before and the command was not end. |
| `Lifecycle.StepKeepsIdentity` | ios/Runner/AppDelegate.swift:137-164 | A command other than a granted start never changes the owned activity's id or attributes. |
| `Lifecycle.StepCreates` | ios/Runner/AppDelegate.swift:121-130 | A granted start owns the granted id with the requested attributes. |
| `Lifecycle.RunPresence` | ios/Runner/AppDelegate.swift:121-187 | Starting with no handle, a run ends owning one iff some granted start was not followed by an end. |
| `Lifecycle.RunOwner` | ios/Runner/AppDelegate.swift:121-130 | The handle at the end of a run is the one from the last granted start, provided no end followed it. |
| `Lifecycle.RunKeepsIdentity` | ios/Runner/AppDelegate.swift:145-163 | A run with no granted start never changes the owned activity's id or attributes. |
| `Lifecycle.RunUnsupported` | ios/Runner/AppDelegate.swift:36-39 | Below iOS 16.2, a whole run keeps the handle and every reply is UNSUPPORTED. |
| `Lifecycle.UpdateRendersNewContent` | ios/Runner/AppDelegate.swift:150-159 | After an update the lock screen keeps the activity's header and shows the new message and status. |
| `Lifecycle.SessionScenario` | ios/Runner/AppDelegate.swift:35-187 | A session of start, update, completing update, end, end and update replies with the id, four nils and NO_ACTIVITY, and ends with no handle. |

## Left out

- Asynchronous completion: `update` and `end` resolve inside a `Task`. Each command is modelled as one atomic step. So the model cannot express an `end` completion clearing a handle that a later `start` installed.
- Channel registration and app launch (`application(_:didFinishLaunchingWithOptions:)`) are plumbing. The channel is modelled only as delivering commands one at a time.
- ActivityKit itself is replaced by the environment parameter. This covers the authorization query, request success or failure with its diagnostic, the update and end calls, stale dates and the dismissal policy.
- `Date()` is an abstract `Instant` supplied by the environment.
- Casts of channel values: an argument value is a string, a boolean or something else. Foundation's bridging of numeric values to `Bool` is not modelled.
- Strings are compared as sequences of Unicode scalars. Swift compares `String` values, and so the synthesised equality of `ContentState` and `AgentActivityAttributes`, up to canonical equivalence; no handler result depends on this, since the bridge never compares states and its method names and keys are ASCII.
- The `print` logging in the handler has no observable effect on the bridge and is not modelled.
- SwiftUI layout of the widget: fonts, colours, padding, tint and the symbol effect.
- `AgentWidgetBundle.swift` only registers the widget and is not part of this model.
- The backend token server, voice agent, prompt text, configuration lookup and icon-scaling script are not part of this model.
