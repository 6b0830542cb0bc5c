/**
 The data an agent live activity carries: static attributes fixed when the
 activity is requested, and a dynamic content state that every update replaces
 as a whole.
 */
module Attributes {

  /** A point in time, kept abstract: the bridge only stores what the clock returned. */
  type Instant = int

  /**
   The dynamic part of an activity. Equality is field-wise (the state is
   Hashable); strings compare as sequences of Unicode scalars, which is finer
   than Swift's comparison (see the README's "Left out").
   */
  datatype ContentState = ContentState(
    message: string,
    isError: bool,
    isComplete: bool,
    timestamp: Instant)

  /** The static part of an activity, set once at creation. */
  datatype AgentActivityAttributes = AgentActivityAttributes(
    agentType: string,
    agentEmoji: string,
    agentName: string)

  /** Two content states are the same state exactly when all four fields agree. */
  lemma ContentStateEquality(x: ContentState, y: ContentState)
    ensures x == y <==>
      && x.message == y.message
      && x.isError == y.isError
      && x.isComplete == y.isComplete
      && x.timestamp == y.timestamp
  {}

  /** Two attribute values are the same exactly when all three strings agree. */
  lemma AttributesEquality(x: AgentActivityAttributes, y: AgentActivityAttributes)
    ensures x == y <==>
      && x.agentType == y.agentType
      && x.agentEmoji == y.agentEmoji
      && x.agentName == y.agentName
  {}
}
