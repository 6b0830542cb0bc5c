/**
 Sequences of commands delivered one at a time over the method channel, and
 what they do to the single owned activity handle.
 */
module Lifecycle {
  import opened Wrappers
  import opened Attributes
  import opened LiveActivityViews
  import opened LiveActivityBridge

  /** One delivered command together with the OS conditions it met. */
  datatype Event = Event(env: Environment, call: MethodCall)

  /** The handle after a run of commands, and the reply each command received. */
  datatype Trace = Trace(final: State, replies: seq<Reply>)

  /** Handles `events` in order, starting from handle `s`. */
  function Run(s: State, events: seq<Event>): (r: Trace)
    ensures |r.replies| == |events|
    decreases |events|
  {
    if |events| == 0 then Trace(s, [])
    else
      var prior := Run(s, events[..|events| - 1]);
      var last := events[|events| - 1];
      var o := HandleMethod(prior.final, last.env, last.call);
      Trace(o.state, prior.replies + [o.reply])
  }

  /** The sequential dispatcher: the channel hands the commands over one by one. */
  method Dispatch(s: State, events: seq<Event>) returns (final: State, replies: seq<Reply>)
    ensures Trace(final, replies) == Run(s, events)
    ensures |replies| == |events|
  {
    final, replies := s, [];
    var i := 0;
    while i < |events|
      invariant 0 <= i <= |events|
      invariant Trace(final, replies) == Run(s, events[..i])
    {
      assert events[..i + 1][..i] == events[..i];
      var o := HandleMethod(final, events[i].env, events[i].call);
      final, replies := o.state, replies + [o.reply];
      i := i + 1;
    }
    assert events[..|events|] == events;
  }

  /** The event makes the OS grant a new activity. */
  predicate Creates(e: Event) {
    && e.env.atLeast16_2
    && e.call.name == "start"
    && HasRequiredStrings(e.call.arguments)
    && e.env.activitiesEnabled
    && e.env.request.Granted?
  }

  /** The event drops whatever handle is owned. */
  predicate Clears(e: Event) {
    e.env.atLeast16_2 && e.call.name == "end"
  }

  /** Only a granted start creates a handle, and only end removes one. */
  lemma StepPresence(s: State, e: Event)
    ensures HandleMethod(s, e.env, e.call).state.Active? <==> Creates(e) || (s.Active? && !Clears(e))
  {}

  /** A step that is not a granted start keeps the owned activity's identity. */
  lemma StepKeepsIdentity(s: State, e: Event)
    requires !Creates(e)
    ensures var t := HandleMethod(s, e.env, e.call).state;
      t.Active? ==> s.Active? && t.id == s.id && t.attributes == s.attributes
  {}

  /** A granted start installs the granted id with the requested attributes. */
  lemma StepCreates(s: State, e: Event)
    requires Creates(e)
    ensures var t := HandleMethod(s, e.env, e.call).state;
      && t.Active?
      && t.id == e.env.request.id
      && t.attributes == StartArguments(e.call.arguments).value.attributes
  {}

  /** Event `i` created an activity and no later event ended it. */
  ghost predicate Unended(events: seq<Event>, i: int) {
    && 0 <= i < |events|
    && Creates(events[i])
    && forall j :: i < j < |events| ==> !Clears(events[j])
  }

  /** One more event changes presence only as `StepPresence` says. */
  lemma RunPresenceStep(s: State, events: seq<Event>)
    requires |events| > 0
    ensures Run(s, events).final.Active? <==>
      Creates(events[|events| - 1])
      || (Run(s, events[..|events| - 1]).final.Active? && !Clears(events[|events| - 1]))
  {
    StepPresence(Run(s, events[..|events| - 1]).final, events[|events| - 1]);
  }

  /** An unended creation stays unended when events are dropped from the end. */
  lemma UnendedInPrefix(events: seq<Event>, n: nat, i: int)
    requires n <= |events| && i < n && Unended(events, i)
    ensures Unended(events[..n], i)
  {
    var prefix := events[..n];
    forall j | i < j < |prefix|
      ensures !Clears(prefix[j])
    {
      assert prefix[j] == events[j];
    }
  }

  /**
   Starting with no handle, a run ends owning one exactly when some granted
   start was not followed by an end.
   */
  lemma {:induction false} RunPresence(events: seq<Event>)
    ensures Run(Absent, events).final.Active? <==> exists i :: Unended(events, i)
    decreases |events|
  {
    if |events| > 0 {
      var n := |events| - 1;
      var prefix := events[..n];
      var e := events[n];
      RunPresence(prefix);
      RunPresenceStep(Absent, events);
      if Run(Absent, events).final.Active? {
        if Creates(e) {
          assert Unended(events, n);
        } else {
          var i :| Unended(prefix, i);
          forall j | i < j < |events|
            ensures !Clears(events[j])
          {
            if j < n {
              assert events[j] == prefix[j];
            }
          }
          assert Unended(events, i);
        }
      } else if exists i :: Unended(events, i) {
        var i :| Unended(events, i);
        if i < n {
          UnendedInPrefix(events, n, i);
        }
      }
    }
  }

  /**
   The handle belongs to the last granted start: if event `i` created an
   activity and nothing after it ended or replaced it, the run ends owning
   that activity, whatever handle it began with.
   */
  lemma {:induction false} RunOwner(s: State, events: seq<Event>, i: nat)
    requires i < |events| && Creates(events[i])
    requires forall j :: i < j < |events| ==> !Clears(events[j]) && !Creates(events[j])
    ensures var t := Run(s, events).final;
      && t.Active?
      && t.id == events[i].env.request.id
      && t.attributes == StartArguments(events[i].call.arguments).value.attributes
    decreases |events|
  {
    var n := |events| - 1;
    var prefix := events[..n];
    if i == n {
      StepCreates(Run(s, prefix).final, events[n]);
    } else {
      forall j | i < j < |prefix|
        ensures !Clears(prefix[j]) && !Creates(prefix[j])
      {
        assert prefix[j] == events[j];
      }
      RunOwner(s, prefix, i);
      StepPresence(Run(s, prefix).final, events[n]);
      StepKeepsIdentity(Run(s, prefix).final, events[n]);
    }
  }

  /**
   Without a granted start, updates and everything else can only keep or drop
   the owned activity: its id and attributes never change.
   */
  lemma {:induction false} RunKeepsIdentity(s: State, events: seq<Event>)
    requires forall j :: 0 <= j < |events| ==> !Creates(events[j])
    ensures var t := Run(s, events).final;
      t.Active? ==> s.Active? && t.id == s.id && t.attributes == s.attributes
    decreases |events|
  {
    if |events| > 0 {
      var n := |events| - 1;
      var prefix := events[..n];
      forall j | 0 <= j < |prefix|
        ensures !Creates(prefix[j])
      {
        assert prefix[j] == events[j];
      }
      RunKeepsIdentity(s, prefix);
      StepKeepsIdentity(Run(s, prefix).final, events[n]);
    }
  }

  /** Below iOS 16.2 a whole run leaves the handle alone and every reply is UNSUPPORTED. */
  lemma {:induction false} RunUnsupported(s: State, events: seq<Event>)
    requires forall j :: 0 <= j < |events| ==> !events[j].env.atLeast16_2
    ensures Run(s, events).final == s
    ensures forall k :: 0 <= k < |events| ==> Run(s, events).replies[k] == Unsupported
    decreases |events|
  {
    if |events| > 0 {
      var n := |events| - 1;
      var prefix := events[..n];
      forall j | 0 <= j < |prefix|
        ensures !prefix[j].env.atLeast16_2
      {
        assert prefix[j] == events[j];
      }
      RunUnsupported(s, prefix);
      var r := Run(s, events);
      forall k | 0 <= k < |events|
        ensures r.replies[k] == Unsupported
      {
        if k < n {
          assert r.replies[k] == Run(s, prefix).replies[k];
        }
      }
    }
  }

  /**
   After a successful update the lock screen keeps the header of the owned
   activity and shows the new message and status.
   */
  lemma UpdateRendersNewContent(s: State, env: Environment, req: UpdateRequest)
    requires s.Active? && env.atLeast16_2
    ensures var o := HandleMethod(s, env, MethodCall("update", UpdatePayload(req)));
      var before := LockScreen(s.attributes, s.content);
      var after := LockScreen(o.state.attributes, o.state.content);
      && o.state.Active?
      && after.header == before.header
      && after.body == req.message
      && Signals(after.indicator) == Some(Status(ContentState(req.message, req.isError, req.isComplete, env.now)))
  {
    UpdateArgumentsRoundTrip(req);
  }

  /** Conditions on a device where live activities work. */
  function Ready(id: string, now: Instant): Environment {
    Environment(true, true, Granted(id), now)
  }

  /**
   A whole session: start, two updates (the second completing), end, end
   again, and an update that finds nothing to update.
   */
  lemma SessionScenario(id: string)
    ensures var attributes := AgentActivityAttributes("build", "🛠", "Builder");
      var events := [
        Event(Ready(id, 0), MethodCall("start", StartPayload(StartRequest(attributes, "starting")))),
        Event(Ready(id, 1), MethodCall("update", UpdatePayload(UpdateRequest(attributes, "50%", false, false)))),
        Event(Ready(id, 2), MethodCall("update", UpdatePayload(UpdateRequest(attributes, "done", false, true)))),
        Event(Ready(id, 3), MethodCall("end", NotADictionary)),
        Event(Ready(id, 4), MethodCall("end", NotADictionary)),
        Event(Ready(id, 5), MethodCall("update", UpdatePayload(UpdateRequest(attributes, "late", false, false))))];
      Run(Absent, events)
        == Trace(Absent, [StringReply(id), NilReply, NilReply, NilReply, NilReply, NoActivity])
  {
    var attributes := AgentActivityAttributes("build", "🛠", "Builder");
    var events := [
      Event(Ready(id, 0), MethodCall("start", StartPayload(StartRequest(attributes, "starting")))),
      Event(Ready(id, 1), MethodCall("update", UpdatePayload(UpdateRequest(attributes, "50%", false, false)))),
      Event(Ready(id, 2), MethodCall("update", UpdatePayload(UpdateRequest(attributes, "done", false, true)))),
      Event(Ready(id, 3), MethodCall("end", NotADictionary)),
      Event(Ready(id, 4), MethodCall("end", NotADictionary)),
      Event(Ready(id, 5), MethodCall("update", UpdatePayload(UpdateRequest(attributes, "late", false, false))))];
    StartArgumentsRoundTrip(StartRequest(attributes, "starting"));
    UpdateArgumentsRoundTrip(UpdateRequest(attributes, "50%", false, false));
    UpdateArgumentsRoundTrip(UpdateRequest(attributes, "done", false, true));
    UpdateArgumentsRoundTrip(UpdateRequest(attributes, "late", false, false));
    var started := Active(id, attributes, ContentState("starting", false, false, 0));
    var halfway := Active(id, attributes, ContentState("50%", false, false, 1));
    var done := Active(id, attributes, ContentState("done", false, true, 2));
    assert events[..1][..0] == [];
    assert Run(Absent, events[..1]) == Trace(started, [StringReply(id)]);
    assert events[..2][..1] == events[..1];
    assert Run(Absent, events[..2]) == Trace(halfway, [StringReply(id), NilReply]);
    assert events[..3][..2] == events[..2];
    assert Run(Absent, events[..3]) == Trace(done, [StringReply(id), NilReply, NilReply]);
    assert events[..4][..3] == events[..3];
    assert Run(Absent, events[..4]) == Trace(Absent, [StringReply(id), NilReply, NilReply, NilReply]);
    assert events[..5][..4] == events[..4];
    assert Run(Absent, events[..5])
        == Trace(Absent, [StringReply(id), NilReply, NilReply, NilReply, NilReply]);
    assert events[..6][..5] == events[..5];
    assert events[..6] == events;
  }
}
