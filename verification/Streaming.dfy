/**
 Turning agy's event stream into session updates: per-step text with what was already sent,
 thought snapshots mixed with deltas, and the life of a tool call.

 A chunk here names the step it came from, which the update on the wire does not.
 */
module Streaming {
  import opened Options
  import Json

  // ------------------------------------------------------------------ events

  datatype StepUpdate = StepUpdate(
    conversation: Option<string>,
    index: Option<int>,
    state: Option<string>,
    kind: Option<string>,
    toolName: Option<string>,
    text: Option<string>,
    thought: Option<string>,
    tool: Option<Json.Value>,
    subagent: Option<Json.Value>)

  datatype ResultEvent = ResultEvent(
    conversation: Option<string>,
    status: Option<string>,
    response: Option<string>,
    error: Option<string>)

  /** An event without the body its name promises is `Other`, like one with an unknown name. */
  datatype Event =
    | Step(conversation: Option<string>, update: StepUpdate)
    | Result(conversation: Option<string>, outcome: ResultEvent)
    | Other(conversation: Option<string>)

  datatype Status = InProgress | Completed | Failed

  datatype Notification =
    | AgentChunk(step: int, text: string)
    | ThoughtChunk(step: int, text: string)
    | ToolCall(step: int, title: string, status: Status)
    | ToolCallUpdate(step: int, title: string, status: Status)

  /** Notifications in the order in which they were sent, the last one outermost. */
  datatype Log = Silence | Sent(before: Log, last: Notification)

  /** What the processor asks of the rest of the program. */
  datatype Config = Config(
    skipNarration: bool,
    isNarration: string -> bool,
    isThinkTool: string -> bool,
    thoughtText: Json.Value -> Option<string>,
    isBlank: string -> bool)

  // ------------------------------------------------------------------- state

  /** The text of each step so far, and how much of it has been dealt with. */
  datatype Channel = Channel(text: map<int, string>, emitted: map<int, nat>)

  function TextAt(ch: Channel, step: int): string {
    if step in ch.text then ch.text[step] else ""
  }

  function SentAt(ch: Channel, step: int): nat {
    if step in ch.emitted then ch.emitted[step] else 0
  }

  function Append(ch: Channel, step: int, delta: string): Channel {
    ch.(text := ch.text[step := TextAt(ch, step) + delta])
  }

  function Mark(ch: Channel, step: int, count: nat): Channel {
    ch.(emitted := ch.emitted[step := count])
  }

  datatype Outcome = Pending | Finished(status: Option<string>, error: Option<string>)

  datatype State = State(
    conversation: Option<string>,
    lastStep: int,
    outcome: Outcome,
    hadUpdates: bool,
    agent: Channel,
    thought: Channel,
    started: set<int>,
    emittedAgentText: bool,
    log: Log)

  const EMPTY := Channel(map[], map[])
  const FRESH := State(None, -1, Pending, false, EMPTY, EMPTY, {}, false, Silence)

  function NonEmpty(s: Option<string>): Option<string> {
    if s == Some("") then None else s
  }

  function Bind(s: State, id: Option<string>): State {
    if s.conversation.None? && NonEmpty(id).Some? then s.(conversation := id) else s
  }

  function Notify(s: State, n: Notification): State {
    s.(hadUpdates := true, log := Sent(s.log, n))
  }

  function AgentDelta(config: Config, s: State, step: int, delta: string): (t: State)
    ensures t.lastStep == s.lastStep
  {
    var grown := Append(s.agent, step, delta);
    var text, emitted := TextAt(grown, step), SentAt(grown, step);
    if config.skipNarration && config.isNarration(text) then s.(agent := Mark(grown, step, |text|))
    else if emitted >= |text| then s.(agent := Mark(grown, step, emitted))
    else Notify(s.(agent := Mark(grown, step, |text|), emittedAgentText := true), AgentChunk(step, text[emitted..]))
  }

  function ThoughtDelta(s: State, step: int, delta: string): (t: State)
    ensures t.lastStep == s.lastStep
  {
    var grown := Append(s.thought, step, delta);
    var text, emitted := TextAt(grown, step), SentAt(grown, step);
    if emitted >= |text| then s.(thought := Mark(grown, step, emitted))
    else Notify(s.(thought := Mark(grown, step, |text|)), ThoughtChunk(step, text[emitted..]))
  }

  function ThoughtSnapshot(s: State, step: int, text: string): (t: State)
    ensures t.lastStep == s.lastStep
  {
    var already := TextAt(s.thought, step);
    if text <= already then s
    else if already <= text then ThoughtDelta(s, step, text[|already|..])
    else s
  }

  function Parameters(info: Option<Json.Value>): Option<Json.Value> {
    if info.Some? then Json.Get(info.value, "parameters") else None
  }

  function RawOutput(info: Option<Json.Value>): Option<Json.Value> {
    if info.None? then None
    else match Json.Get(info.value, "output")
      case None => None
      case Some(Null) => None
      case Some(Text(text)) =>
        if text == "" then Some(Json.Text(text)) else Some(Json.Object([Json.Field("output", Json.Text(text))]))
      case Some(value) => Some(value)
  }

  function ToolName(toolName: Option<string>, info: Option<Json.Value>): string {
    var named := if info.Some? then Json.AsText(Json.Get(info.value, "name")) else None;
    if named.Some? then named.value else toolName.GetOr("tool")
  }

  function ToolTitle(name: string, info: Option<Json.Value>): string {
    var parameters := Parameters(info);
    if parameters.None? then name
    else
      var summary, action := Json.Get(parameters.value, "toolSummary"), Json.Get(parameters.value, "toolAction");
      Json.AsText(if summary.Some? then summary else action).GetOr(name)
  }

  function ToolStatus(info: Option<Json.Value>, done: bool): Status {
    if info.Some? && Json.Get(info.value, "error").Some? then Failed else if done then Completed else InProgress
  }

  /** The thought a thinking tool carries: in its parameters, or else in its output. */
  function ToolThought(config: Config, info: Option<Json.Value>): Option<string> {
    var parameters, output := Parameters(info), RawOutput(info);
    var asked := if parameters.Some? then config.thoughtText(parameters.value) else None;
    var thought := if asked.Some? then asked else if output.Some? then config.thoughtText(output.value) else None;
    if thought.Some? && config.isBlank(thought.value) then None else thought
  }

  function Tool(config: Config, s: State, step: int, toolName: Option<string>, info: Option<Json.Value>,
                done: bool): (t: State)
    ensures t.lastStep == s.lastStep
  {
    var name := ToolName(toolName, info);
    var thought := if config.isThinkTool(name) then ToolThought(config, info) else None;
    if thought.Some? then ThoughtSnapshot(s, step, thought.value)
    else if config.isThinkTool(name) && !done then s
    else ToolEvent(s, step, ToolTitle(name, info), ToolStatus(info, done), done)
  }

  function ToolEvent(s: State, step: int, title: string, status: Status, done: bool): State {
    var begun := s.(started := s.started + {step});
    if step !in s.started then Notify(begun, ToolCall(step, title, status))
    else if !done then begun
    else Notify(begun, ToolCallUpdate(step, title, status))
  }

  function SubagentTitle(info: Json.Value): string {
    match Json.Get(info, "subagents")
    case Some(Array(items)) =>
      if items == [] then "subagent"
      else
        var role, name := Json.Get(items[0], "role"), Json.Get(items[0], "type_name");
        Json.AsText(if role.Some? then role else name).GetOr("subagent")
    case _ => "subagent"
  }

  function Subagent(s: State, step: int, info: Json.Value): State {
    if step in s.started then s
    else Notify(s.(started := s.started + {step}), ToolCall(step, SubagentTitle(info), Completed))
  }

  predicate IsThoughtStep(kind: string) {
    kind in {"thinking", "thought", "agent_thought", "reasoning"}
  }

  predicate IsAgentStep(kind: string) {
    kind !in {"user_input", "checkpoint", "unknown", "tool", "thinking", "thought", "agent_thought", "reasoning"}
  }

  function Max(a: int, b: int): int {
    if a < b then b else a
  }

  function StepOf(u: StepUpdate): int {
    u.index.GetOr(-1)
  }

  predicate CarriesTool(u: StepUpdate) {
    u.kind.GetOr("") == "tool" || u.tool.Some? || u.toolName.Some?
  }

  predicate IsDone(u: StepUpdate) {
    u.state == Some("DONE")
  }

  // The parts of one step update, in the order in which they are handled.

  function Opening(s: State, u: StepUpdate): State {
    var bound := Bind(s, u.conversation);
    bound.(lastStep := Max(s.lastStep, StepOf(u)))
  }

  function TextPart(config: Config, s: State, u: StepUpdate): (t: State)
    ensures t.lastStep == s.lastStep
  {
    var kind := u.kind.GetOr("");
    match NonEmpty(u.text)
    case None => s
    case Some(delta) =>
      if IsThoughtStep(kind) then ThoughtDelta(s, StepOf(u), delta)
      else if IsAgentStep(kind) then AgentDelta(config, s, StepOf(u), delta)
      else s
  }

  function ThoughtPart(s: State, u: StepUpdate): (t: State)
    ensures t.lastStep == s.lastStep
  {
    match NonEmpty(u.thought)
    case None => s
    case Some(delta) => ThoughtDelta(s, StepOf(u), delta)
  }

  function ToolPart(config: Config, s: State, u: StepUpdate): (t: State)
    ensures t.lastStep == s.lastStep
  {
    if CarriesTool(u) then Tool(config, s, StepOf(u), u.toolName, u.tool, IsDone(u))
    else s
  }

  function SubagentPart(s: State, u: StepUpdate): (t: State)
    ensures t.lastStep == s.lastStep
  {
    match u.subagent
    case None => s
    case Some(info) => Subagent(s, StepOf(u), info)
  }

  function ProcessStep(config: Config, s: State, u: StepUpdate): State {
    SubagentPart(ToolPart(config, ThoughtPart(TextPart(config, Opening(s, u), u), u), u), u)
  }

  function ProcessResult(config: Config, s: State, r: ResultEvent): State {
    var seen := Bind(s, r.conversation).(outcome := Finished(r.status, NonEmpty(r.error)));
    match NonEmpty(r.response)
    case None => seen
    case Some(response) =>
      if s.emittedAgentText then seen else AgentDelta(config, seen, Max(s.lastStep, 0), response)
  }

  function Process(config: Config, s: State, e: Event): State {
    match e
    case Step(id, update) => ProcessStep(config, Bind(s, id), update)
    case Result(id, outcome) => ProcessResult(config, Bind(s, id), outcome)
    case Other(id) => Bind(s, id)
  }

  function Run(config: Config, events: seq<Event>): State {
    if events == [] then FRESH else Process(config, Run(config, events[..|events| - 1]), events[|events| - 1])
  }

  // ------------------------------------------- what the client should be told

  datatype Chunk = Chunk(step: int, text: string)

  /** A piece of the answer, and whether it is shown or swallowed as narration. */
  datatype Input = Input(chunk: Chunk, shown: bool)

  datatype Inputs = Nothing | Then(before: Inputs, last: Input)

  /** All the text a step was given, shown or not. */
  function TextOf(inputs: Inputs, step: int): string {
    match inputs
    case Nothing => ""
    case Then(before, input) =>
      if input.chunk.step == step then TextOf(before, step) + input.chunk.text else TextOf(before, step)
  }

  function Shown(inputs: Inputs): seq<Chunk> {
    match inputs
    case Nothing => []
    case Then(before, input) => if input.shown then Shown(before) + [input.chunk] else Shown(before)
  }

  /** One more piece: swallowed only when the step's whole text, the piece included, is narration. */
  function Offer(config: Config, inputs: Inputs, step: int, text: string): Inputs {
    var swallowed := config.skipNarration && config.isNarration(TextOf(inputs, step) + text);
    Then(inputs, Input(Chunk(step, text), !swallowed))
  }

  function LastStep(events: seq<Event>): int {
    if events == [] then -1
    else
      var before, e := LastStep(events[..|events| - 1]), events[|events| - 1];
      if e.Step? then Max(before, StepOf(e.update)) else before
  }

  /** The pieces of the answer in a stream: the text deltas, and a result's response if nothing was shown yet. */
  function InputsOf(config: Config, events: seq<Event>): Inputs {
    if events == [] then Nothing
    else
      var most := events[..|events| - 1];
      var before := InputsOf(config, most);
      InputOf(config, before, LastStep(most), events[|events| - 1])
  }

  /** What one event adds to the pieces of the answer. */
  function InputOf(config: Config, before: Inputs, last: int, e: Event): Inputs {
    match e
    case Step(_, u) => StepInput(config, before, u)
    case Result(_, r) => ResultInput(config, before, Max(last, 0), r)
    case Other(_) => before
  }

  function StepInput(config: Config, before: Inputs, u: StepUpdate): Inputs {
    var delta := NonEmpty(u.text);
    if delta.Some? && IsAgentStep(u.kind.GetOr("")) then Offer(config, before, StepOf(u), delta.value) else before
  }

  function ResultInput(config: Config, before: Inputs, step: int, r: ResultEvent): Inputs {
    var response := NonEmpty(r.response);
    if response.Some? && Shown(before) == [] then Offer(config, before, step, response.value) else before
  }

  /** A snapshot replaces the text it continues; one that says less, or something else, is ignored. */
  function Snapped(sofar: string, snapshot: Option<string>): string {
    if snapshot.Some? && sofar <= snapshot.value then snapshot.value else sofar
  }

  /** The snapshot in a step update, when it is a thinking tool with a thought. */
  function SnapshotIn(config: Config, u: StepUpdate): Option<string> {
    if CarriesTool(u) && config.isThinkTool(ToolName(u.toolName, u.tool)) then ToolThought(config, u.tool)
    else None
  }

  /** All the thought of one step in a stream. */
  function Thought(config: Config, events: seq<Event>, step: int): string {
    if events == [] then ""
    else
      var before, e := Thought(config, events[..|events| - 1], step), events[|events| - 1];
      if e.Step? && StepOf(e.update) == step then Snapped(before + StepThought(e.update), SnapshotIn(config, e.update))
      else before
  }

  function TextThought(u: StepUpdate): string {
    if IsThoughtStep(u.kind.GetOr("")) then u.text.GetOr("") else ""
  }

  /** A tool or subagent seen in a step update; a final one is worth an update of a call already sent. */
  datatype Sighting = Sighting(title: string, status: Status, final: bool)

  /** A thinking tool is no sighting while it has a thought to tell, or is not done. */
  function ToolSighting(config: Config, u: StepUpdate): seq<Sighting> {
    var name := ToolName(u.toolName, u.tool);
    if !CarriesTool(u) || (config.isThinkTool(name) && (ToolThought(config, u.tool).Some? || !IsDone(u))) then []
    else [Sighting(ToolTitle(name, u.tool), ToolStatus(u.tool, IsDone(u)), IsDone(u))]
  }

  function SubagentSighting(u: StepUpdate): seq<Sighting> {
    if u.subagent.Some? then [Sighting(SubagentTitle(u.subagent.value), Completed, false)] else []
  }

  /** All that was seen in one step, in order. */
  function Sightings(config: Config, events: seq<Event>, step: int): seq<Sighting> {
    if events == [] then []
    else
      var before, e := Sightings(config, events[..|events| - 1], step), events[|events| - 1];
      if e.Step? && StepOf(e.update) == step then before + ToolSighting(config, e.update) + SubagentSighting(e.update)
      else before
  }

  /** What the client is to be told of it: a call for the first, an update for each later final one. */
  function Life(step: int, sightings: seq<Sighting>): seq<Notification> {
    if sightings == [] then []
    else
      var before, last := Life(step, sightings[..|sightings| - 1]), sightings[|sightings| - 1];
      if |sightings| == 1 then [ToolCall(step, last.title, last.status)]
      else if last.final then before + [ToolCallUpdate(step, last.title, last.status)]
      else before
  }

  function StepThought(u: StepUpdate): string {
    TextThought(u) + u.thought.GetOr("")
  }

  // ------------------------------------------------- what the client was told

  /** A log with more notifications behind it. */
  function Logged(log: Log, more: seq<Notification>): Log {
    if more == [] then log else Sent(Logged(log, more[..|more| - 1]), more[|more| - 1])
  }

  lemma {:induction false} LoggedTwice(log: Log, first: seq<Notification>, second: seq<Notification>)
    ensures Logged(log, first + second) == Logged(Logged(log, first), second)
  {
    if second == [] {
      assert first + second == first;
    } else {
      var most := second[..|second| - 1];
      LoggedTwice(log, first, most);
      assert (first + second)[..|first + second| - 1] == first + most;
    }
  }

  function AgentChunks(log: Log): seq<Chunk> {
    match log
    case Silence => []
    case Sent(before, n) => if n.AgentChunk? then AgentChunks(before) + [Chunk(n.step, n.text)] else AgentChunks(before)
  }

  function ThoughtSent(log: Log, step: int): string {
    match log
    case Silence => ""
    case Sent(before, n) =>
      if n.ThoughtChunk? && n.step == step then ThoughtSent(before, step) + n.text else ThoughtSent(before, step)
  }

  function ToolsOf(log: Log, step: int): seq<Notification> {
    match log
    case Silence => []
    case Sent(before, n) =>
      if (n.ToolCall? || n.ToolCallUpdate?) && n.step == step then ToolsOf(before, step) + [n] else ToolsOf(before, step)
  }

  // -------------------------------------------------------------- the answer

  /** Everything a step was given has been dealt with. */
  ghost predicate Settled(ch: Channel) {
    forall step :: SentAt(ch, step) == |TextAt(ch, step)|
  }

  lemma DeltaSettles(ch: Channel, step: int, delta: string)
    requires Settled(ch)
    ensures var grown := Append(ch, step, delta);
            && TextAt(grown, step) == TextAt(ch, step) + delta && SentAt(grown, step) == |TextAt(ch, step)|
            && TextAt(grown, step)[SentAt(grown, step)..] == delta
            && Settled(Mark(grown, step, |TextAt(grown, step)|))
    ensures forall count, k :: TextAt(Mark(Append(ch, step, delta), step, count), k) ==
                               if k == step then TextAt(ch, step) + delta else TextAt(ch, k)
  {
    var grown := Append(ch, step, delta);
    assert (TextAt(ch, step) + delta)[|TextAt(ch, step)|..] == delta;
    forall k
      ensures SentAt(Mark(grown, step, |TextAt(grown, step)|), k) == |TextAt(Mark(grown, step, |TextAt(grown, step)|), k)|
    {
      assert SentAt(ch, k) == |TextAt(ch, k)|;
    }
  }

  /** Whatever the mode, an answer delta is sent whole or not at all. */
  lemma DeltaIsWholeOrNothing(config: Config, s: State, step: int, delta: string)
    requires Settled(s.agent) && delta != ""
    ensures var swallowed := config.skipNarration && config.isNarration(TextAt(s.agent, step) + delta);
            AgentDelta(config, s, step, delta).log == if swallowed then s.log else Sent(s.log, AgentChunk(step, delta))
  {
    DeltaSettles(s.agent, step, delta);
  }

  /** The answer's channel holds what each step was given, and the client saw what is to be shown. */
  ghost predicate AgentView(agent: Channel, emitted: bool, log: Log, inputs: Inputs) {
    && Settled(agent) && AgentChunks(log) == Shown(inputs) && (emitted <==> Shown(inputs) != [])
    && SameTexts(agent, inputs)
  }

  ghost predicate SameTexts(agent: Channel, inputs: Inputs) {
    forall step :: TextAt(agent, step) == TextOf(inputs, step)
  }

  lemma AgentDeltaView(config: Config, s: State, step: int, delta: string, inputs: Inputs)
    requires AgentView(s.agent, s.emittedAgentText, s.log, inputs) && delta != ""
    ensures var t := AgentDelta(config, s, step, delta);
            AgentView(t.agent, t.emittedAgentText, t.log, Offer(config, inputs, step, delta))
  {
    DeltaSettles(s.agent, step, delta);
    assert TextAt(s.agent, step) == TextOf(inputs, step);
    var count := |TextAt(s.agent, step) + delta|;
    var agent := Mark(Append(s.agent, step, delta), step, count);
    forall k
      ensures TextAt(agent, k) == TextOf(Offer(config, inputs, step, delta), k)
    {
      assert TextAt(s.agent, k) == TextOf(inputs, k);
    }
  }

  // ------------------------------------------------------ thoughts and tools

  /** A step's thought chunks make up its thought text, snapshots and deltas alike. */
  ghost predicate ThoughtView(thought: Channel, log: Log) {
    Settled(thought) && forall step :: ThoughtSent(log, step) == TextAt(thought, step)
  }

  /** One call to open, then only updates, each with a final status. */
  ghost predicate IsToolLife(life: seq<Notification>) {
    && (life != [] ==> life[0].ToolCall?)
    && forall i | 1 <= i < |life| :: life[i].ToolCallUpdate? && life[i].status != InProgress
  }

  ghost predicate ToolView(started: set<int>, log: Log) {
    forall step {:trigger ToolsOf(log, step)} ::
      IsToolLife(ToolsOf(log, step)) && (step in started <==> ToolsOf(log, step) != [])
  }

  ghost predicate View(s: State, inputs: Inputs) {
    && AgentView(s.agent, s.emittedAgentText, s.log, inputs)
    && ThoughtView(s.thought, s.log) && ToolView(s.started, s.log)
    && (s.hadUpdates <==> s.log != Silence)
  }

  lemma SameTools(started: set<int>, log: Log, n: Notification)
    requires ToolView(started, log) && !n.ToolCall? && !n.ToolCallUpdate?
    ensures ToolView(started, Sent(log, n))
  {
    forall step
      ensures ToolsOf(Sent(log, n), step) == ToolsOf(log, step)
    {
    }
  }

  lemma SameThoughts(thought: Channel, log: Log, n: Notification)
    requires ThoughtView(thought, log) && !n.ThoughtChunk?
    ensures ThoughtView(thought, Sent(log, n))
  {
  }

  lemma AgentDeltaKeeps(config: Config, s: State, step: int, delta: string, inputs: Inputs)
    requires View(s, inputs) && delta != ""
    ensures View(AgentDelta(config, s, step, delta), Offer(config, inputs, step, delta))
  {
    AgentDeltaView(config, s, step, delta, inputs);
    DeltaIsWholeOrNothing(config, s, step, delta);
    SameTools(s.started, s.log, AgentChunk(step, delta));
    SameThoughts(s.thought, s.log, AgentChunk(step, delta));
  }

  lemma ThoughtDeltaIsWhole(s: State, step: int, delta: string)
    requires Settled(s.thought) && delta != ""
    ensures var grown := Append(s.thought, step, delta);
            ThoughtDelta(s, step, delta) ==
            Notify(s.(thought := Mark(grown, step, |TextAt(grown, step)|)), ThoughtChunk(step, delta))
  {
    DeltaSettles(s.thought, step, delta);
  }

  lemma ThoughtDeltaView(thought: Channel, log: Log, step: int, delta: string)
    requires ThoughtView(thought, log)
    ensures var grown := Append(thought, step, delta);
            ThoughtView(Mark(grown, step, |TextAt(grown, step)|), Sent(log, ThoughtChunk(step, delta)))
  {
    DeltaSettles(thought, step, delta);
    assert ThoughtSent(log, step) == TextAt(thought, step);
  }

  lemma ThoughtDeltaKeeps(s: State, step: int, delta: string, inputs: Inputs)
    requires View(s, inputs) && delta != ""
    ensures View(ThoughtDelta(s, step, delta), inputs)
  {
    ThoughtDeltaIsWhole(s, step, delta);
    ThoughtDeltaView(s.thought, s.log, step, delta);
    SameTools(s.started, s.log, ThoughtChunk(step, delta));
  }

  lemma SnapshotKeeps(s: State, step: int, text: string, inputs: Inputs)
    requires View(s, inputs)
    ensures View(ThoughtSnapshot(s, step, text), inputs)
  {
    var already := TextAt(s.thought, step);
    if already < text {
      ThoughtDeltaKeeps(s, step, text[|already|..], inputs);
    }
  }

  lemma ToolSent(started: set<int>, log: Log, n: Notification)
    requires ToolView(started, log)
    requires n.ToolCall? || (n.ToolCallUpdate? && n.status != InProgress)
    requires n.ToolCall? <==> n.step !in started
    ensures ToolView(started + {n.step}, Sent(log, n))
  {
    forall step
      ensures IsToolLife(ToolsOf(Sent(log, n), step))
      ensures step in started + {n.step} <==> ToolsOf(Sent(log, n), step) != []
    {
      assert IsToolLife(ToolsOf(log, step)) && (step in started <==> ToolsOf(log, step) != []);
    }
  }

  lemma NotifyToolKeeps(s: State, n: Notification, inputs: Inputs)
    requires View(s, inputs)
    requires n.ToolCall? || (n.ToolCallUpdate? && n.status != InProgress)
    requires n.ToolCall? <==> n.step !in s.started
    ensures View(Notify(s.(started := s.started + {n.step}), n), inputs)
  {
    ToolSent(s.started, s.log, n);
    SameThoughts(s.thought, s.log, n);
  }

  lemma ToolEventKeeps(s: State, step: int, title: string, status: Status, done: bool, inputs: Inputs)
    requires View(s, inputs) && (done ==> status != InProgress)
    ensures View(ToolEvent(s, step, title, status, done), inputs)
  {
    if step !in s.started {
      NotifyToolKeeps(s, ToolCall(step, title, status), inputs);
    } else if done {
      NotifyToolKeeps(s, ToolCallUpdate(step, title, status), inputs);
    } else {
      assert s.started + {step} == s.started;
    }
  }

  lemma ToolKeeps(config: Config, s: State, step: int, toolName: Option<string>, info: Option<Json.Value>,
                  done: bool, inputs: Inputs)
    requires View(s, inputs)
    ensures View(Tool(config, s, step, toolName, info, done), inputs)
  {
    var name := ToolName(toolName, info);
    var thought := if config.isThinkTool(name) then ToolThought(config, info) else None;
    if thought.Some? {
      SnapshotKeeps(s, step, thought.value, inputs);
    } else {
      ToolEventKeeps(s, step, ToolTitle(name, info), ToolStatus(info, done), done, inputs);
    }
  }

  // --------------------------------------------------------------- every run

  lemma TextPartKeeps(config: Config, s: State, u: StepUpdate, inputs: Inputs)
    requires View(s, inputs)
    ensures View(TextPart(config, s, u), StepInput(config, inputs, u))
  {
    if NonEmpty(u.text).Some? {
      if IsThoughtStep(u.kind.GetOr("")) {
        ThoughtDeltaKeeps(s, StepOf(u), u.text.value, inputs);
      } else if IsAgentStep(u.kind.GetOr("")) {
        AgentDeltaKeeps(config, s, StepOf(u), u.text.value, inputs);
      }
    }
  }

  lemma ThoughtPartKeeps(s: State, u: StepUpdate, inputs: Inputs)
    requires View(s, inputs)
    ensures View(ThoughtPart(s, u), inputs)
  {
    if NonEmpty(u.thought).Some? {
      ThoughtDeltaKeeps(s, StepOf(u), u.thought.value, inputs);
    }
  }

  lemma ToolPartKeeps(config: Config, s: State, u: StepUpdate, inputs: Inputs)
    requires View(s, inputs)
    ensures View(ToolPart(config, s, u), inputs)
  {
    ToolKeeps(config, s, StepOf(u), u.toolName, u.tool, IsDone(u), inputs);
  }

  lemma SubagentPartKeeps(s: State, u: StepUpdate, inputs: Inputs)
    requires View(s, inputs)
    ensures View(SubagentPart(s, u), inputs)
  {
    if u.subagent.Some? && StepOf(u) !in s.started {
      NotifyToolKeeps(s, ToolCall(StepOf(u), SubagentTitle(u.subagent.value), Completed), inputs);
    }
  }

  lemma StepKeeps(config: Config, s: State, u: StepUpdate, inputs: Inputs)
    requires View(s, inputs)
    ensures View(ProcessStep(config, s, u), StepInput(config, inputs, u))
  {
    var s0 := Opening(s, u);
    assert View(s0, inputs);
    TextPartKeeps(config, s0, u, inputs);
    var s1, shown := TextPart(config, s0, u), StepInput(config, inputs, u);
    ThoughtPartKeeps(s1, u, shown);
    ToolPartKeeps(config, ThoughtPart(s1, u), u, shown);
    SubagentPartKeeps(ToolPart(config, ThoughtPart(s1, u), u), u, shown);
  }

  lemma ResultKeeps(config: Config, s: State, r: ResultEvent, inputs: Inputs)
    requires View(s, inputs)
    ensures View(ProcessResult(config, s, r), ResultInput(config, inputs, Max(s.lastStep, 0), r))
  {
    var seen := Bind(s, r.conversation).(outcome := Finished(r.status, NonEmpty(r.error)));
    assert View(seen, inputs);
    if NonEmpty(r.response).Some? && !s.emittedAgentText {
      AgentDeltaKeeps(config, seen, Max(s.lastStep, 0), r.response.value, inputs);
    }
  }

  lemma {:induction false} RunKeeps(config: Config, events: seq<Event>)
    ensures View(Run(config, events), InputsOf(config, events))
    ensures Run(config, events).lastStep == LastStep(events)
  {
    if events != [] {
      var most, e := events[..|events| - 1], events[|events| - 1];
      RunKeeps(config, most);
      ProcessKeeps(config, Run(config, most), e, InputsOf(config, most), LastStep(most));
    }
  }

  lemma ProcessKeeps(config: Config, s: State, e: Event, inputs: Inputs, last: int)
    requires View(s, inputs) && s.lastStep == last
    ensures View(Process(config, s, e), InputOf(config, inputs, last, e))
    ensures Process(config, s, e).lastStep == if e.Step? then Max(last, StepOf(e.update)) else last
  {
    var bound := Bind(s, e.conversation);
    assert View(bound, inputs);
    match e
    case Step(_, u) =>
      StepKeeps(config, bound, u, inputs);
    case Result(_, r) => ResultKeeps(config, bound, r, inputs);
    case Other(_) =>
  }

  lemma ThoughtDeltaText(s: State, step: int, delta: string, k: int)
    ensures TextAt(ThoughtDelta(s, step, delta).thought, k) ==
            if k == step then TextAt(s.thought, k) + delta else TextAt(s.thought, k)
  {
  }

  lemma SnapshotText(s: State, step: int, text: string, k: int)
    ensures TextAt(ThoughtSnapshot(s, step, text).thought, k) ==
            if k == step then Snapped(TextAt(s.thought, k), Some(text)) else TextAt(s.thought, k)
  {
    var already := TextAt(s.thought, step);
    if already <= text {
      ThoughtDeltaText(s, step, text[|already|..], k);
      assert already + text[|already|..] == text;
    }
  }

  lemma TextPartText(config: Config, s: State, u: StepUpdate, k: int)
    ensures TextAt(TextPart(config, s, u).thought, k) ==
            if k == StepOf(u) then TextAt(s.thought, k) + TextThought(u) else TextAt(s.thought, k)
  {
    if NonEmpty(u.text).Some? && IsThoughtStep(u.kind.GetOr("")) {
      ThoughtDeltaText(s, StepOf(u), u.text.value, k);
    }
  }

  lemma ThoughtPartText(s: State, u: StepUpdate, k: int)
    ensures TextAt(ThoughtPart(s, u).thought, k) ==
            if k == StepOf(u) then TextAt(s.thought, k) + u.thought.GetOr("") else TextAt(s.thought, k)
  {
    if NonEmpty(u.thought).Some? {
      ThoughtDeltaText(s, StepOf(u), u.thought.value, k);
    }
  }

  lemma DeltasText(config: Config, s: State, u: StepUpdate, k: int)
    ensures TextAt(ThoughtPart(TextPart(config, s, u), u).thought, k) ==
            if k == StepOf(u) then TextAt(s.thought, k) + StepThought(u) else TextAt(s.thought, k)
  {
    TextPartText(config, s, u, k);
    ThoughtPartText(TextPart(config, s, u), u, k);
    Associative(TextAt(s.thought, k), TextThought(u), u.thought.GetOr(""));
  }

  lemma Associative(a: string, b: string, c: string)
    ensures a + b + c == a + (b + c)
  {
  }

  lemma ToolPartText(config: Config, s: State, u: StepUpdate, k: int)
    ensures TextAt(ToolPart(config, s, u).thought, k) ==
            if k == StepOf(u) then Snapped(TextAt(s.thought, k), SnapshotIn(config, u)) else TextAt(s.thought, k)
  {
    if SnapshotIn(config, u).Some? {
      SnapshotText(s, StepOf(u), SnapshotIn(config, u).value, k);
    }
  }

  lemma StepText(config: Config, s: State, u: StepUpdate, k: int)
    ensures TextAt(ProcessStep(config, s, u).thought, k) ==
            if k == StepOf(u) then Snapped(TextAt(s.thought, k) + StepThought(u), SnapshotIn(config, u))
            else TextAt(s.thought, k)
  {
    var s0 := Opening(s, u);
    DeltasText(config, s0, u, k);
    ToolPartText(config, ThoughtPart(TextPart(config, s0, u), u), u, k);
  }

  lemma ResultText(config: Config, s: State, r: ResultEvent)
    ensures ProcessResult(config, s, r).thought == s.thought
  {
  }

  /** A step's thought text is its deltas in order, with every snapshot that continues them taken over. */
  lemma {:induction false} RunThought(config: Config, events: seq<Event>, step: int)
    ensures TextAt(Run(config, events).thought, step) == Thought(config, events, step)
  {
    if events != [] {
      var most, e := events[..|events| - 1], events[|events| - 1];
      RunThought(config, most, step);
      var bound := Bind(Run(config, most), e.conversation);
      match e
      case Step(_, u) => StepText(config, bound, u, step);
      case Result(_, r) => ResultText(config, bound, r);
      case Other(_) =>
    }
  }

  /** One step's tool notifications are the life of what was seen in it. */
  ghost predicate LifeView(s: State, step: int, sightings: seq<Sighting>) {
    ToolsOf(s.log, step) == Life(step, sightings) && (step in s.started <==> sightings != [])
  }

  lemma LifeOneMore(step: int, sightings: seq<Sighting>, last: Sighting)
    ensures Life(step, sightings + [last]) ==
            if sightings == [] then [ToolCall(step, last.title, last.status)]
            else if last.final then Life(step, sightings) + [ToolCallUpdate(step, last.title, last.status)]
            else Life(step, sightings)
  {
    assert (sightings + [last])[..|sightings|] == sightings;
  }

  lemma ToolEventLife(s: State, step: int, title: string, status: Status, done: bool, k: int, seen: seq<Sighting>)
    requires LifeView(s, k, seen)
    ensures LifeView(ToolEvent(s, step, title, status, done), k,
                     if k == step then seen + [Sighting(title, status, done)] else seen)
  {
    LifeOneMore(step, seen, Sighting(title, status, done));
  }

  lemma SnapshotLife(s: State, step: int, text: string, k: int, seen: seq<Sighting>)
    requires LifeView(s, k, seen)
    ensures LifeView(ThoughtSnapshot(s, step, text), k, seen)
  {
  }

  lemma ToolPartLife(config: Config, s: State, u: StepUpdate, k: int, seen: seq<Sighting>)
    requires LifeView(s, k, seen)
    ensures LifeView(ToolPart(config, s, u), k, if k == StepOf(u) then seen + ToolSighting(config, u) else seen)
  {
    assert seen + [] == seen;
    var name := ToolName(u.toolName, u.tool);
    if CarriesTool(u) {
      if config.isThinkTool(name) && ToolThought(config, u.tool).Some? {
        SnapshotLife(s, StepOf(u), ToolThought(config, u.tool).value, k, seen);
      } else {
        ToolEventLife(s, StepOf(u), ToolTitle(name, u.tool), ToolStatus(u.tool, IsDone(u)), IsDone(u), k, seen);
      }
    }
  }

  lemma SubagentPartLife(s: State, u: StepUpdate, k: int, seen: seq<Sighting>)
    requires LifeView(s, k, seen)
    ensures LifeView(SubagentPart(s, u), k, if k == StepOf(u) then seen + SubagentSighting(u) else seen)
  {
    assert seen + [] == seen;
    if u.subagent.Some? {
      LifeOneMore(StepOf(u), seen, Sighting(SubagentTitle(u.subagent.value), Completed, false));
    }
  }

  lemma DeltasLife(config: Config, s: State, u: StepUpdate, k: int, seen: seq<Sighting>)
    requires LifeView(s, k, seen)
    ensures LifeView(ThoughtPart(TextPart(config, s, u), u), k, seen)
  {
    var t := TextPart(config, s, u);
    assert LifeView(t, k, seen);
  }

  lemma StepLife(config: Config, s: State, u: StepUpdate, k: int, seen: seq<Sighting>)
    requires LifeView(s, k, seen)
    ensures LifeView(ProcessStep(config, s, u), k,
                     if k == StepOf(u) then seen + ToolSighting(config, u) + SubagentSighting(u) else seen)
  {
    var s0 := Opening(s, u);
    assert LifeView(s0, k, seen);
    DeltasLife(config, s0, u, k, seen);
    var s2 := ThoughtPart(TextPart(config, s0, u), u);
    ToolPartLife(config, s2, u, k, seen);
    SubagentPartLife(ToolPart(config, s2, u), u, k, if k == StepOf(u) then seen + ToolSighting(config, u) else seen);
  }

  lemma ResultLife(config: Config, s: State, r: ResultEvent, k: int, seen: seq<Sighting>)
    requires LifeView(s, k, seen)
    ensures LifeView(ProcessResult(config, s, r), k, seen)
  {
  }

  /** The tool notifications of a step are exactly those that what was seen in it calls for. */
  lemma {:induction false} RunLife(config: Config, events: seq<Event>, step: int)
    ensures LifeView(Run(config, events), step, Sightings(config, events, step))
  {
    if events != [] {
      var most, e := events[..|events| - 1], events[|events| - 1];
      var seen := Sightings(config, most, step);
      RunLife(config, most, step);
      var bound := Bind(Run(config, most), e.conversation);
      assert LifeView(bound, step, seen);
      match e
      case Step(_, u) => StepLife(config, bound, u, step, seen);
      case Result(_, r) => ResultLife(config, bound, r, step, seen);
      case Other(_) =>
    }
  }

  /**
   At every moment of every stream, in either mode, the client has been sent exactly the pieces of
   the answer it is to be shown, each step's thought, and for each step the call and the updates
   that its tools and subagents call for.
   */
  lemma RunView(config: Config, events: seq<Event>, step: int)
    ensures var log := Run(config, events).log;
            && AgentChunks(log) == Shown(InputsOf(config, events))
            && ThoughtSent(log, step) == Thought(config, events, step)
            && ToolsOf(log, step) == Life(step, Sightings(config, events, step))
    ensures Run(config, events).hadUpdates <==> Run(config, events).log != Silence
  {
    RunKeeps(config, events);
    RunThought(config, events, step);
    RunLife(config, events, step);
  }

  // ------------------------------------------------------ what it comes to

  /** The text of one step's chunks, joined. */
  function Joined(chunks: seq<Chunk>, step: int): string {
    if chunks == [] then ""
    else
      var before, last := Joined(chunks[..|chunks| - 1], step), chunks[|chunks| - 1];
      if last.step == step then before + last.text else before
  }

  predicate NothingSwallowed(inputs: Inputs) {
    match inputs
    case Nothing => true
    case Then(before, input) => input.shown && NothingSwallowed(before)
  }

  lemma {:induction false} NothingSwallowedOf(config: Config, events: seq<Event>)
    requires !config.skipNarration
    ensures NothingSwallowed(InputsOf(config, events))
  {
    if events != [] {
      NothingSwallowedOf(config, events[..|events| - 1]);
    }
  }

  lemma {:induction false} ShownIsAll(inputs: Inputs, step: int)
    requires NothingSwallowed(inputs)
    ensures Joined(Shown(inputs), step) == TextOf(inputs, step)
  {
    match inputs
    case Nothing =>
    case Then(before, input) =>
      ShownIsAll(before, step);
      assert Shown(inputs)[..|Shown(inputs)| - 1] == Shown(before);
  }

  /** With narration kept, the chunks of every step join to all the text it accumulated. */
  lemma AnswerConserved(config: Config, events: seq<Event>, step: int)
    requires !config.skipNarration
    ensures var s := Run(config, events);
            Joined(AgentChunks(s.log), step) == TextAt(s.agent, step) == TextOf(InputsOf(config, events), step)
  {
    RunKeeps(config, events);
    NothingSwallowedOf(config, events);
    ShownIsAll(InputsOf(config, events), step);
  }

  /** The thought chunks of every step join to the thought the stream carried for it. */
  lemma ThoughtConserved(config: Config, events: seq<Event>, step: int)
    ensures ThoughtSent(Run(config, events).log, step) == Thought(config, events, step)
  {
    RunKeeps(config, events);
    RunThought(config, events, step);
  }

  /** Each step has at most one tool call, before all its updates, and every update is final. */
  lemma OneCallPerStep(config: Config, events: seq<Event>, step: int)
    ensures IsToolLife(ToolsOf(Run(config, events).log, step))
  {
    RunKeeps(config, events);
    assert ToolView(Run(config, events).started, Run(config, events).log);
  }

  /** A result's response is sent only when no piece of the answer was sent before it. */
  lemma ResponseOnlyIfSilent(config: Config, events: seq<Event>, outcome: ResultEvent, id: Option<string>)
    ensures var before, after := Run(config, events).log, Run(config, events + [Result(id, outcome)]).log;
            if AgentChunks(before) != [] || NonEmpty(outcome.response).None? then after == before
            else after == before || after == Sent(before, AgentChunk(Max(LastStep(events), 0), outcome.response.value))
    ensures !config.skipNarration && AgentChunks(Run(config, events).log) == [] && NonEmpty(outcome.response).Some? ==>
              Run(config, events + [Result(id, outcome)]).log ==
              Sent(Run(config, events).log, AgentChunk(Max(LastStep(events), 0), outcome.response.value))
  {
    RunKeeps(config, events);
    assert (events + [Result(id, outcome)])[..|events|] == events;
    var bound := Bind(Bind(Run(config, events), id), outcome.conversation);
    if NonEmpty(outcome.response).Some? {
      DeltaIsWholeOrNothing(config, bound.(outcome := Finished(outcome.status, NonEmpty(outcome.error))),
                            Max(LastStep(events), 0), outcome.response.value);
    }
  }

  // ----------------------------------------------------------- the processor

  class StreamProcessor {
    const config: Config
    var conversation: Option<string>
    var lastStep: int
    var outcome: Outcome
    var hadUpdates: bool
    var agent: Channel
    var thought: Channel
    var started: set<int>
    var emittedAgentText: bool
    ghost var log: Log

    constructor (config: Config)
      ensures this.config == config && Now() == FRESH
    {
      this.config := config;
      conversation, lastStep, outcome, hadUpdates := None, -1, Pending, false;
      agent, thought, started, emittedAgentText, log := EMPTY, EMPTY, {}, false, Silence;
    }

    ghost function Now(): State
      reads this
    {
      State(conversation, lastStep, outcome, hadUpdates, agent, thought, started, emittedAgentText, log)
    }

    method BindConversation(id: Option<string>)
      modifies this
      ensures Now() == Bind(old(Now()), id)
    {
      if conversation.Some? {
        return;
      }
      if id.Some? && id.value != "" {
        conversation := id;
      }
    }

    method EmitAgentDelta(step: int, delta: string) returns (sent: seq<Notification>)
      modifies this
      ensures Now() == AgentDelta(config, old(Now()), step, delta) && log == Logged(old(log), sent)
    {
      agent := Append(agent, step, delta);
      var text, emitted := TextAt(agent, step), SentAt(agent, step);
      if config.skipNarration && config.isNarration(text) {
        agent := Mark(agent, step, |text|);
        return [];
      }
      if emitted >= |text| {
        agent := Mark(agent, step, emitted);
        return [];
      }
      var unsent := text[emitted..];
      agent := Mark(agent, step, |text|);
      if unsent == "" {
        return [];
      }
      emittedAgentText, hadUpdates := true, true;
      log := Sent(log, AgentChunk(step, unsent));
      return [AgentChunk(step, unsent)];
    }

    method EmitThoughtDelta(step: int, delta: string) returns (sent: seq<Notification>)
      modifies this
      ensures Now() == ThoughtDelta(old(Now()), step, delta) && log == Logged(old(log), sent)
    {
      thought := Append(thought, step, delta);
      var text, emitted := TextAt(thought, step), SentAt(thought, step);
      if emitted >= |text| {
        thought := Mark(thought, step, emitted);
        return [];
      }
      thought, hadUpdates := Mark(thought, step, |text|), true;
      log := Sent(log, ThoughtChunk(step, text[emitted..]));
      return [ThoughtChunk(step, text[emitted..])];
    }

    method EmitThoughtSnapshot(step: int, text: string) returns (sent: seq<Notification>)
      modifies this
      ensures Now() == ThoughtSnapshot(old(Now()), step, text) && log == Logged(old(log), sent)
    {
      var already := TextAt(thought, step);
      if text <= already || !(already <= text) {
        return [];
      }
      sent := EmitThoughtDelta(step, text[|already|..]);
    }

    method EmitTool(step: int, toolName: Option<string>, info: Option<Json.Value>, done: bool)
      returns (sent: seq<Notification>)
      modifies this
      ensures Now() == Tool(config, old(Now()), step, toolName, info, done) && log == Logged(old(log), sent)
    {
      var name := ToolName(toolName, info);
      if config.isThinkTool(name) {
        var text := ToolThought(config, info);
        if text.Some? {
          sent := EmitThoughtSnapshot(step, text.value);
          return;
        }
        if !done {
          return [];
        }
      }
      sent := EmitToolEvent(step, ToolTitle(name, info), ToolStatus(info, done), done);
    }

    method EmitToolEvent(step: int, title: string, status: Status, done: bool) returns (sent: seq<Notification>)
      modifies this
      ensures Now() == ToolEvent(old(Now()), step, title, status, done) && log == Logged(old(log), sent)
    {
      var alreadyStarted := step in started;
      started := started + {step};
      if alreadyStarted && !done {
        return [];
      }
      var update := if alreadyStarted then ToolCallUpdate(step, title, status) else ToolCall(step, title, status);
      hadUpdates, log := true, Sent(log, update);
      return [update];
    }

    method EmitSubagent(step: int, info: Json.Value) returns (sent: seq<Notification>)
      modifies this
      ensures Now() == Subagent(old(Now()), step, info) && log == Logged(old(log), sent)
    {
      if step in started {
        return [];
      }
      var call := ToolCall(step, SubagentTitle(info), Completed);
      started, hadUpdates, log := started + {step}, true, Sent(log, call);
      return [call];
    }

    method EmitText(u: StepUpdate) returns (sent: seq<Notification>)
      modifies this
      ensures Now() == TextPart(config, old(Now()), u) && log == Logged(old(log), sent)
    {
      sent := [];
      if u.text.Some? && u.text.value != "" {
        if IsThoughtStep(u.kind.GetOr("")) {
          sent := EmitThoughtDelta(StepOf(u), u.text.value);
        } else if IsAgentStep(u.kind.GetOr("")) {
          sent := EmitAgentDelta(StepOf(u), u.text.value);
        }
      }
    }

    method ProcessStepUpdate(u: StepUpdate) returns (sent: seq<Notification>)
      modifies this
      ensures Now() == ProcessStep(config, old(Now()), u) && log == Logged(old(log), sent)
    {
      ghost var before := log;
      BindConversation(u.conversation);
      lastStep := Max(lastStep, StepOf(u));
      sent := EmitText(u);
      if u.thought.Some? && u.thought.value != "" {
        var more := EmitThoughtDelta(StepOf(u), u.thought.value);
        LoggedTwice(before, sent, more);
        sent := sent + more;
      }
      if CarriesTool(u) {
        var more := EmitTool(StepOf(u), u.toolName, u.tool, IsDone(u));
        LoggedTwice(before, sent, more);
        sent := sent + more;
      }
      if u.subagent.Some? {
        var more := EmitSubagent(StepOf(u), u.subagent.value);
        LoggedTwice(before, sent, more);
        sent := sent + more;
      }
    }

    method ProcessResultEvent(r: ResultEvent) returns (sent: seq<Notification>)
      modifies this
      ensures Now() == ProcessResult(config, old(Now()), r) && log == Logged(old(log), sent)
    {
      BindConversation(r.conversation);
      outcome := Finished(r.status, NonEmpty(r.error));
      if r.response.None? || r.response.value == "" || emittedAgentText {
        return [];
      }
      sent := EmitAgentDelta(Max(lastStep, 0), r.response.value);
    }

    /** What the processor returns is what the pure step adds to the log. */
    method ProcessEvent(e: Event) returns (sent: seq<Notification>)
      modifies this
      ensures Now() == Process(config, old(Now()), e) && log == Logged(old(log), sent)
    {
      BindConversation(e.conversation);
      match e
      case Step(_, update) => sent := ProcessStepUpdate(update);
      case Result(_, result) => sent := ProcessResultEvent(result);
      case Other(_) => sent := [];
    }
  }
}
