/**
 What the widget extension shows for an activity: the lock-screen banner and
 the Dynamic Island regions. Only the choice of status indicator and which
 attribute or state fields each region displays are modelled; layout, fonts,
 colours and animation are not.
 */
module LiveActivityViews {
  import opened Wrappers
  import opened Attributes

  /** The three outcomes a status indicator can convey. */
  datatype Indicator = Complete | Failed | InProgress

  /**
   The status precedence every indicator follows: completion wins over an
   error, and only a state with neither flag is in progress.
   */
  function Status(state: ContentState): (r: Indicator)
    ensures r == Complete <==> state.isComplete
    ensures r == Failed <==> state.isError && !state.isComplete
    ensures r == InProgress <==> !state.isError && !state.isComplete
  {
    if state.isComplete then Complete
    else if state.isError then Failed
    else InProgress
  }

  /** A rendered indicator: an SF Symbol by name, or the system progress spinner. */
  datatype Glyph = SystemImage(name: string) | ProgressSpinner

  /**
   What a glyph tells the person looking at it: one of the three outcomes for
   the symbols the widget draws, nothing for any other symbol.
   */
  function Signals(g: Glyph): Option<Indicator> {
    match g
    case ProgressSpinner => Some(InProgress)
    case SystemImage(name) =>
      if name == "checkmark.circle.fill" || name == "checkmark" then Some(Complete)
      else if name == "exclamationmark.circle.fill" || name == "exclamationmark" then Some(Failed)
      else if name == "ellipsis" then Some(InProgress)
      else None
  }

  /**
   The full-size indicator, shown at the right of the lock-screen header and
   in the expanded Dynamic Island's trailing region (both regions draw the
   same glyphs).
   */
  function FullIndicator(state: ContentState): (g: Glyph)
    ensures Signals(g) == Some(Status(state))
  {
    if state.isComplete then SystemImage("checkmark.circle.fill")
    else if state.isError then SystemImage("exclamationmark.circle.fill")
    else ProgressSpinner
  }

  /** The indicator in the compact Dynamic Island's trailing region. */
  function CompactTrailing(state: ContentState): (g: Glyph)
    ensures Signals(g) == Some(Status(state))
    ensures g.SystemImage?
  {
    if state.isComplete then SystemImage("checkmark")
    else if state.isError then SystemImage("exclamationmark")
    else SystemImage("ellipsis")
  }

  /** The lock-screen banner: a header line, its indicator, and the message below. */
  datatype LockScreenView = LockScreenView(header: string, indicator: Glyph, body: string)

  function LockScreen(attributes: AgentActivityAttributes, state: ContentState): (v: LockScreenView)
    ensures v.header == attributes.agentEmoji + " " + attributes.agentName
    ensures Signals(v.indicator) == Some(Status(state))
    ensures v.body == state.message
  {
    LockScreenView(
      attributes.agentEmoji + " " + attributes.agentName,
      FullIndicator(state),
      state.message)
  }

  /** Every Dynamic Island presentation of one activity. */
  datatype IslandView = IslandView(
    expandedLeading: string,
    expandedTrailing: Glyph,
    expandedTitle: string,
    expandedCaption: string,
    compactLeading: string,
    compactTrailing: Glyph,
    minimal: string)

  function Island(attributes: AgentActivityAttributes, state: ContentState): (v: IslandView)
    ensures v.expandedLeading == v.compactLeading == v.minimal == attributes.agentEmoji
    ensures v.expandedTitle == attributes.agentName
    ensures v.expandedCaption == state.message
    ensures Signals(v.expandedTrailing) == Some(Status(state))
    ensures Signals(v.compactTrailing) == Some(Status(state))
  {
    IslandView(
      attributes.agentEmoji,
      FullIndicator(state),
      attributes.agentName,
      state.message,
      attributes.agentEmoji,
      CompactTrailing(state),
      attributes.agentEmoji)
  }

  /** The three indicator regions never disagree about an activity's status. */
  lemma IndicatorsAgree(attributes: AgentActivityAttributes, state: ContentState)
    ensures Signals(LockScreen(attributes, state).indicator)
         == Signals(Island(attributes, state).expandedTrailing)
         == Signals(Island(attributes, state).compactTrailing)
         == Some(Status(state))
  {}

  /**
   The timestamp is never displayed, and the two flags are displayed only
   through their status: states with the same message and status render alike.
   */
  lemma RenderingSeesOnlyMessageAndStatus(
    attributes: AgentActivityAttributes, x: ContentState, y: ContentState)
    requires x.message == y.message && Status(x) == Status(y)
    ensures LockScreen(attributes, x) == LockScreen(attributes, y)
    ensures Island(attributes, x) == Island(attributes, y)
  {}
}
