/**
 Every interleaving of hook tasks, host answers, timeouts, cancels and turn edges.

 A `decide` task is a program counter that moves one lock acquisition at a time; between any
 two of its steps everything else may happen.  `log` records what happened, so that a claim
 about a whole run is a claim about the log of a reachable state.
 */
module BridgeProtocol {
  import opened Options
  import opened Json
  import opened SafeCommand
  import opened StickyRules
  import opened PathRules
  import opened Bridge

  const MAX_CONNECTIONS := 8

  // ------------------------------------------------------------------- state

  datatype HookCall = HookCall(conversation: string, tool: string, args: Parsed)

  datatype PC =
    | Reading            // serve_hook reads and parses the frame
    | Resolving          // whose turn is this?
    | HookCheck
    | AutoAllow
    | DenyLookup
    | MarkRemembered
    | AllowLookup
    | CheckArgs
    | CheckPaths
    | Registering
    | Sending
    | Unsending
    | Waiting
    | TimedOut
    | MarkTimeout
    | MarkDismissed
    | MarkRejected(sticky: bool)
    | Storing(decision: Decision)
    | Replied(outcome: Decision)

  datatype Task = Task(pc: PC, call: HookCall, capture: Option<Capture>, request: Option<string>)

  /** The phases of `handle_session_prompt`, which holds the adapter mutex throughout. */
  datatype Turn =
    | NoTurn
    | Running(session: string, turn: nat)
    | FlagRead(session: string, turn: nat, refused: bool)
    | Ended(session: string, turn: nat, refused: bool)

  datatype Entry =
    | Refused(task: Waiter, session: string, turn: nat)
    | Answered(task: Waiter, session: string, call: HookCall, verdict: Verdict)
    | LookedUp(task: Waiter, key: AlwaysKey, found: Option<Decision>)
    | ArgsContained(task: Waiter, judge: Judge)
    | AllowedFromMemory(task: Waiter, session: string, call: HookCall, judge: Judge)
    | TurnReported(session: string, turn: nat, stop: StopReason)

  datatype StopReason = EndTurn | Refusal | CancelledTurn | Failed

  /** What the cascade consults.  The protocol keeps its promises whatever these rules say;
      `BridgeRules` gives the bridge's own. */
  datatype Rules = Rules(
    targetsHookRoot: Value -> bool,
    autoAllows: string -> bool,
    resolve: (string, string, Value) -> ResolvedCall,
    escapes: (Judge, Value) -> bool,
    pathsEscape: (Judge, seq<string>, Value) -> bool,
    verdict: Value -> Verdict,
    sensitive: string -> bool)

  datatype System = System(
    bridge: BridgeState,
    tasks: map<Waiter, Task>,
    accepted: nat,
    requestIds: set<string>,
    turn: Turn,
    log: seq<Entry>)

  const START := System(BridgeState(map[], None, map[], map[], map[], [], false, 0), map[], 0, {}, NoTurn, [])

  // ------------------------------------------------------------- task's steps

  /** What the surroundings decide at a step of a task. */
  datatype Choice =
    | Proceed
    | Frame(parsed: Option<HookCall>)       // the frame that was read, if it is well-formed
    | NewRequest(id: string)
    | Send(delivered: bool)             // whether the client channel was still open
    | GiveUp                            // the response timeout fired
    | Files(resolve: Resolver)          // the file system as it is now

  /** The critical section that a step performs on the shared state. */
  datatype Section =
    | NoSection
    | Mark(turn: nat)
    | Register(id: string, session: string, turn: nat, waiter: Waiter)
    | Withdraw(id: string)
    | Store(key: AlwaysKey, decision: Decision, turn: nat)

  function Perform(b: BridgeState, section: Section): BridgeState {
    match section
    case NoSection => b
    case Mark(turn) => b.MarkUserRefusal(turn)
    case Register(id, session, turn, waiter) => b.RegisterPending(id, session, turn, waiter)
    case Withdraw(id) => b.Withdraw(id)
    case Store(key, decision, turn) => b.StoreAnswer(key, decision, turn)
  }

  datatype Moved = Moved(section: Section, task: Task, entries: seq<Entry>)

  function Resolved(rules: Rules, t: Task): ResolvedCall
    requires t.capture.Some?
  {
    rules.resolve(t.capture.value.session, t.call.tool, t.call.args)
  }

  function JudgeNow(rules: Rules, b: BridgeState, resolve: Resolver): Judge {
    Judge(resolve, b.roots, rules.sensitive)
  }

  /** Marks a refusal for the turn that asked, and logs it when the mark takes effect. */
  function Refuse(b: BridgeState, me: Waiter, t: Task, next: PC): Moved
    requires t.capture.Some?
  {
    var Capture(session, turn) := t.capture.value;
    Moved(Mark(turn), t.(pc := next), if b.generation == turn then [Refused(me, session, turn)] else [])
  }

  function Go(t: Task, next: PC): Moved {
    Moved(NoSection, t.(pc := next), [])
  }

  /** Denies are keyed by the exact arguments, even where an allow would be broader. */
  function StoredKey(rules: Rules, t: Task, decision: Decision): AlwaysKey
    requires t.capture.Some?
  {
    if decision.Deny? then Resolved(rules, t).fingerprintKey else Resolved(rules, t).allowKey
  }

  /** How `apply_outcome` goes on from the host's result. */
  function AfterVerdict(verdict: Verdict): PC {
    match verdict
    case Dismissed => MarkDismissed
    case AllowOnce => Replied(Allow)
    case AllowAlways => Storing(Allow)
    case RejectOnce => MarkRejected(false)
    case RejectAlways => MarkRejected(true)
  }

  predicate HoldsCapture(pc: PC) {
    !pc.Reading? && !pc.Resolving? && !pc.Replied?
  }

  /** A task can move when the data that its step needs is there. */
  predicate CanMove(t: Task) {
    && (HoldsCapture(t.pc) ==> t.capture.Some?)
    && (t.pc.Unsending? || t.pc.TimedOut? ==> t.request.Some?)
  }

  /** One step of `decide`, or of the serve task around it; `None` when it cannot move so. */
  function Advance(rules: Rules, b: BridgeState, me: Waiter, t: Task, choice: Choice): Option<Moved>
    requires CanMove(t)
  {
    if IsEarly(t.pc) then Deliberate(rules, b, me, t, choice) else Ask(rules, b, me, t, choice)
  }

  /** Before its request exists. */
  predicate IsEarly(pc: PC) {
    || pc.Reading? || pc.Resolving? || pc.HookCheck? || pc.AutoAllow? || pc.DenyLookup?
    || pc.MarkRemembered? || pc.AllowLookup? || pc.CheckArgs? || pc.CheckPaths? || pc.Registering?
  }

  /** The cascade of reasons to decide without asking. */
  function Deliberate(rules: Rules, b: BridgeState, me: Waiter, t: Task, choice: Choice): Option<Moved>
    requires CanMove(t) && IsEarly(t.pc)
  {
    match t.pc
    case Reading =>
      if !choice.Frame? then None
      else if choice.parsed.None? then Some(Go(t, Replied(Deny)))
      else Some(Moved(NoSection, t.(pc := Resolving, call := choice.parsed.value), []))
    case Resolving =>
      var capture := b.CaptureTurn(t.call.conversation);
      if capture.None? then Some(Go(t, Replied(Deny)))
      else Some(Moved(NoSection, t.(pc := HookCheck, capture := capture), []))
    case HookCheck =>
      Some(Go(t, if rules.targetsHookRoot(t.call.args) then Replied(Deny) else AutoAllow))
    case AutoAllow =>
      if !choice.Files? then None
      else
        var judge := JudgeNow(rules, b, choice.resolve);
        Some(Go(t, if rules.autoAllows(t.call.tool) && !rules.escapes(judge, t.call.args)
                      then Replied(Allow) else DenyLookup))
    case DenyLookup =>
      var key := Resolved(rules, t).fingerprintKey;
      var found := b.Remembered(key);
      Some(Moved(NoSection, t.(pc := if found == Some(Deny) then MarkRemembered else AllowLookup),
                 [LookedUp(me, key, found)]))
    case MarkRemembered => Some(Refuse(b, me, t, Replied(Deny)))
    case AllowLookup =>
      var key := Resolved(rules, t).allowKey;
      var found := b.Remembered(key);
      Some(Moved(NoSection, t.(pc := if found == Some(Allow) then CheckArgs else Registering),
                 [LookedUp(me, key, found)]))
    case CheckArgs =>
      if !choice.Files? then None
      else
        var judge := JudgeNow(rules, b, choice.resolve);
        if rules.escapes(judge, t.call.args) then Some(Go(t, Registering))
        else Some(Moved(NoSection, t.(pc := CheckPaths), [ArgsContained(me, judge)]))
    case CheckPaths =>
      if !choice.Files? then None
      else
        var judge := JudgeNow(rules, b, choice.resolve);
        var classified := Resolved(rules, t).classified;
        if classified.Some? && rules.pathsEscape(judge, classified.value.paths, t.call.args)
        then Some(Go(t, Registering))
        else Some(Moved(NoSection, t.(pc := Replied(Allow)),
                        [AllowedFromMemory(me, t.capture.value.session, t.call, judge)]))
    case Registering =>
      if !choice.NewRequest? then None
      else
        var Capture(session, turn) := t.capture.value;
        if b.generation != turn then Some(Go(t, Replied(Deny)))
        else Some(Moved(Register(choice.id, session, turn, me),
                        t.(pc := Sending, request := Some(choice.id)), []))
  }

  /** Asking the host, and applying its answer. */
  function Ask(rules: Rules, b: BridgeState, me: Waiter, t: Task, choice: Choice): Option<Moved>
    requires CanMove(t) && !IsEarly(t.pc)
  {
    match t.pc
    case Sending =>
      if !choice.Send? then None else Some(Go(t, if choice.delivered then Waiting else Unsending))
    case Unsending => Some(Moved(Withdraw(t.request.value), t.(pc := Replied(Deny)), []))
    case Waiting =>
      if choice.GiveUp? then Some(Go(t, TimedOut))
      else if me !in b.delivered then None
      else if b.delivered[me].Abandoned? then Some(Go(t, Replied(Deny)))
      else
        var verdict := rules.verdict(b.delivered[me].result);
        Some(Moved(NoSection, t.(pc := AfterVerdict(verdict)),
                   [Answered(me, t.capture.value.session, t.call, verdict)]))
    case TimedOut => Some(Moved(Withdraw(t.request.value), t.(pc := MarkTimeout), []))
    case MarkTimeout => Some(Refuse(b, me, t, Replied(Deny)))
    case MarkDismissed => Some(Refuse(b, me, t, Replied(Deny)))
    case MarkRejected(sticky) => Some(Refuse(b, me, t, if sticky then Storing(Deny) else Replied(Deny)))
    case Storing(decision) =>
      Some(Moved(Store(StoredKey(rules, t, decision), decision, t.capture.value.turn),
                 t.(pc := Replied(decision)), []))
    case Replied(_) => None
  }

  // ----------------------------------------------------------- system's steps

  /** How the turn's child ended, as far as the answer to the prompt depends on it. */
  datatype Drained = Drained(
    waitFailed: bool, success: bool, resultFailed: bool, resultMissing: bool, cancelled: bool)

  function TurnResponse(drained: Drained, refused: bool): StopReason {
    if drained.waitFailed then Failed
    else if !drained.cancelled && !refused
         && (!drained.success || drained.resultFailed || drained.resultMissing) then Failed
    else if drained.cancelled then CancelledTurn
    else if refused then Refusal
    else EndTurn
  }

  datatype Event =
    | StartTurn(prompt: string)
    | SpawnFails
    | ReadFlag
    | BindConversation(conversation: string)
    | ClearActive
    | Respond(drained: Drained)
    | CancelSession(session: string)
    | HostReplies(id: Value, result: Option<Value>)
    | ForgetEvicted(session: string)
    | AddRoot(root: string)
    | Accept
    | Finish(task: Waiter)
    | Step(task: Waiter, choice: Choice)

  /** The state after an event, or `None` when the event cannot happen now. */
  function Next(rules: Rules, s: System, e: Event): Option<System> {
    match e
    case StartTurn(session) =>
      if !s.turn.NoTurn? then None
      else
        var b := s.bridge.SetActiveSession(Some(session));
        Some(s.(bridge := b, turn := Running(session, b.generation)))
    case SpawnFails =>
      if !s.turn.Running? then None
      else Some(s.(bridge := s.bridge.SetActiveSession(None), turn := NoTurn))
    case ReadFlag =>
      if !s.turn.Running? then None
      else Some(s.(turn := FlagRead(s.turn.session, s.turn.turn, s.bridge.refused)))
    case BindConversation(conversation) =>
      if !s.turn.FlagRead? then None
      else Some(s.(bridge := s.bridge.RegisterConversation(conversation, s.turn.session)))
    case ClearActive =>
      if !s.turn.FlagRead? then None
      else Some(s.(bridge := s.bridge.SetActiveSession(None),
                   turn := Ended(s.turn.session, s.turn.turn, s.turn.refused)))
    case Respond(drained) =>
      if !s.turn.Ended? then None
      else Some(s.(bridge := s.bridge.AbandonPending(s.turn.session), turn := NoTurn,
                   log := s.log + [TurnReported(s.turn.session, s.turn.turn,
                                                TurnResponse(drained, s.turn.refused))]))
    case CancelSession(session) => Some(s.(bridge := s.bridge.AbandonPending(session)))
    case HostReplies(id, result) => Some(s.(bridge := s.bridge.ResolveResponse(id, result)))
    case ForgetEvicted(session) => Some(s.(bridge := s.bridge.ForgetSession(session)))
    case AddRoot(root) => Some(s.(bridge := s.bridge.SetWorkspaceRoot(root)))
    case Accept =>
      if |s.tasks| >= MAX_CONNECTIONS then None
      else Some(s.(tasks := s.tasks[s.accepted := Task(Reading, HookCall("", "", Null), None, None)],
                   accepted := s.accepted + 1))
    case Finish(task) =>
      if task !in s.tasks || !s.tasks[task].pc.Replied? then None
      else Some(s.(tasks := s.tasks - {task}))
    case Step(me, choice) =>
      if me !in s.tasks || !CanMove(s.tasks[me]) then None
      else if choice.NewRequest? && choice.id in s.requestIds then None
      else
        var moved := Advance(rules, s.bridge, me, s.tasks[me], choice);
        if moved.None? then None
        else Some(s.(
          bridge := Perform(s.bridge, moved.value.section),
          tasks := s.tasks[me := moved.value.task],
          requestIds := s.requestIds + if choice.NewRequest? then {choice.id} else {},
          log := s.log + moved.value.entries))
  }

  /** A run: any number of events from the start. */
  ghost predicate IsRun(rules: Rules, run: seq<System>) {
    && run != [] && run[0] == START
    && forall i | 0 < i < |run| :: Follows(rules, run[i - 1], run[i])
  }

  ghost predicate Follows(rules: Rules, s: System, s': System) {
    exists e :: Next(rules, s, e) == Some(s')
  }

  // ------------------------------------------------------- what one step does

  predicate InItsTurn(b: BridgeState, t: Task) {
    t.capture.Some? && b.generation == t.capture.value.turn
  }

  predicate Asking(pc: PC) {
    pc.Sending? || pc.Unsending? || pc.Waiting? || pc.TimedOut?
  }

  /** Which section a task performs, and for whom: always its own request and its own turn. */
  ghost predicate SectionOk(rules: Rules, b: BridgeState, me: Waiter, t: Task, choice: Choice, m: Moved) {
    match m.section
    case NoSection => true
    case Mark(turn) =>
      && t.capture.Some? && turn == t.capture.value.turn
      && (InItsTurn(b, t) ==> m.entries == [Refused(me, t.capture.value.session, turn)])
    case Register(id, session, turn, waiter) =>
      && t.capture.Some? && t.capture.value.session == session && t.capture.value.turn == turn
      && waiter == me && InItsTurn(b, t)
      && t.pc.Registering? && choice == NewRequest(id)
      && m.task.request == Some(id) && m.task.pc.Sending?
    case Withdraw(id) => t.request == Some(id) && !Asking(m.task.pc)
    case Store(key, decision, turn) =>
      && t.capture.Some? && turn == t.capture.value.turn
      && t.pc == Storing(decision) && key == StoredKey(rules, t, decision)
  }

  lemma AdvanceSection(rules: Rules, b: BridgeState, me: Waiter, t: Task, choice: Choice)
    requires CanMove(t) && Advance(rules, b, me, t, choice).Some?
    ensures SectionOk(rules, b, me, t, choice, Advance(rules, b, me, t, choice).value)
  {
  }

  ghost predicate Untouched(b: BridgeState, b': BridgeState) {
    && b'.active == b.active && b'.generation == b.generation && b'.delivered == b.delivered
    && b'.conversations == b.conversations && b'.roots == b.roots
  }

  lemma PerformKeeps(b: BridgeState, section: Section)
    ensures Untouched(b, Perform(b, section))
  {
  }

  /** A task stops asking only when its request is gone: answered, or withdrawn by itself. */
  lemma StopsAsking(rules: Rules, b: BridgeState, me: Waiter, t: Task, choice: Choice)
    requires CanMove(t) && Asking(t.pc) && t.request.Some? && Advance(rules, b, me, t, choice).Some?
    ensures var m := Advance(rules, b, me, t, choice).value;
      Asking(m.task.pc) || me in b.delivered || m.section == Withdraw(t.request.value)
  {
  }

  // -------------------------------------------------------- tasks and turns

  /** A task belongs to the turn it captured: that turn runs now, or it is over for good. */
  predicate TurnOk(b: BridgeState, t: Task) {
    t.capture.Some? ==>
      && t.capture.value.turn <= b.generation
      && (InItsTurn(b, t) ==> b.active == Some(t.capture.value.session))
  }

  predicate TaskOk(b: BridgeState, accepted: nat, requestIds: set<string>, me: Waiter, t: Task) {
    && me < accepted
    && TurnOk(b, t)
    && (HoldsCapture(t.pc) ==> t.capture.Some?)
    && (IsEarly(t.pc) ==> t.request.None?)
    && (HoldsCapture(t.pc) && !IsEarly(t.pc) ==> t.request.Some?)
    && (t.request.Some? ==> t.request.value in requestIds && t.capture.Some?)
    && (t.capture.Some? ==> !t.pc.Reading? && !t.pc.Resolving?)
  }

  lemma AdvanceKeepsTaskOk(rules: Rules, b: BridgeState, me: Waiter, t: Task, choice: Choice,
                           accepted: nat, requestIds: set<string>)
    requires TaskOk(b, accepted, requestIds, me, t) && CanMove(t)
    requires Advance(rules, b, me, t, choice).Some?
    ensures var m := Advance(rules, b, me, t, choice).value;
      && TaskOk(b, accepted, requestIds + if choice.NewRequest? then {choice.id} else {}, me, m.task)
      && (m.task.request == t.request || (choice.NewRequest? && m.task.request == Some(choice.id)))
      && (t.capture.Some? ==> m.task.capture == t.capture)
      && (t.request.Some? ==> m.task.request == t.request)
  {
  }

  ghost predicate AllTasksOk(s: System) {
    forall w | w in s.tasks :: TaskOk(s.bridge, s.accepted, s.requestIds, w, s.tasks[w])
  }

  ghost predicate RequestsDiffer(s: System) {
    forall v, w | v in s.tasks && w in s.tasks && v != w ::
      s.tasks[v].request.Some? ==> s.tasks[v].request != s.tasks[w].request
  }

  ghost predicate TasksOk(s: System) {
    |s.tasks| <= MAX_CONNECTIONS && AllTasksOk(s) && RequestsDiffer(s)
  }

  /** The adapter's phase and the bridge's active session agree. */
  ghost predicate PhaseOk(s: System) {
    if s.turn.Running? || s.turn.FlagRead?
    then s.bridge.active == Some(s.turn.session) && s.bridge.generation == s.turn.turn
    else s.bridge.active.None?
  }

  /** The live task that waits on a pending request. */
  ghost predicate OwnerOk(s: System, id: string)
    requires id in s.bridge.pending
  {
    var PendingRequest(session, w) := s.bridge.pending[id];
    && w in s.tasks && w !in s.bridge.delivered
    && s.tasks[w].request == Some(id) && Asking(s.tasks[w].pc)
    && s.tasks[w].capture.Some? && s.tasks[w].capture.value.session == session
    && (s.bridge.active.Some? ==> InItsTurn(s.bridge, s.tasks[w]))
  }

  ghost predicate PendingOk(s: System) {
    && (forall id | id in s.bridge.pending :: OwnerOk(s, id))
    && (forall w | w in s.bridge.delivered ::
          w < s.accepted && (w in s.tasks ==> s.tasks[w].request.Some?))
  }

  ghost predicate StateOk(s: System) {
    TasksOk(s) && PhaseOk(s) && PendingOk(s)
  }

  lemma StepKeepsTasks(rules: Rules, s: System, s': System, me: Waiter, choice: Choice)
    requires TasksOk(s) && PhaseOk(s) && Next(rules, s, Step(me, choice)) == Some(s')
    ensures AllTasksOk(s') && PhaseOk(s')
  {
    var t := s.tasks[me];
    PerformKeeps(s.bridge, Advance(rules, s.bridge, me, t, choice).value.section);
    AdvanceKeepsTaskOk(rules, s.bridge, me, t, choice, s.accepted, s.requestIds);
  }

  lemma StepKeepsRequestsApart(rules: Rules, s: System, s': System, me: Waiter, choice: Choice)
    requires TasksOk(s) && Next(rules, s, Step(me, choice)) == Some(s')
    ensures RequestsDiffer(s') && |s'.tasks| <= MAX_CONNECTIONS
  {
    AdvanceKeepsTaskOk(rules, s.bridge, me, s.tasks[me], choice, s.accepted, s.requestIds);
    assert s'.tasks.Keys == s.tasks.Keys;
  }

  /** What a step of `me` means for the requests of everyone. */
  ghost predicate MovesRequests(rules: Rules, s: System, s': System, me: Waiter, choice: Choice, m: Moved)
    requires me in s.tasks
  {
    var t := s.tasks[me];
    && s'.bridge == Perform(s.bridge, m.section) && Untouched(s.bridge, s'.bridge)
    && s'.tasks == s.tasks[me := m.task] && s'.accepted == s.accepted
    && SectionOk(rules, s.bridge, me, t, choice, m)
    && (t.capture.Some? ==> m.task.capture == t.capture)
    && (t.request.Some? ==> m.task.request == t.request)
    && (Asking(t.pc) && t.request.Some? ==>
          Asking(m.task.pc) || me in s.bridge.delivered || m.section == Withdraw(t.request.value))
  }

  lemma StepMovesRequests(rules: Rules, s: System, s': System, me: Waiter, choice: Choice)
    returns (m: Moved)
    requires StateOk(s) && Next(rules, s, Step(me, choice)) == Some(s')
    ensures me in s.tasks && MovesRequests(rules, s, s', me, choice, m)
  {
    var t := s.tasks[me];
    m := Advance(rules, s.bridge, me, t, choice).value;
    AdvanceSection(rules, s.bridge, me, t, choice);
    PerformKeeps(s.bridge, m.section);
    AdvanceKeepsTaskOk(rules, s.bridge, me, t, choice, s.accepted, s.requestIds);
    if Asking(t.pc) && t.request.Some? {
      StopsAsking(rules, s.bridge, me, t, choice);
    }
  }

  lemma MovedKeepsOwner(rules: Rules, s: System, s': System, me: Waiter, choice: Choice, m: Moved, id: string)
    requires me in s.tasks && MovesRequests(rules, s, s', me, choice, m)
    requires id in s.bridge.pending && id in s'.bridge.pending && OwnerOk(s, id)
    requires m.section.Register? ==> m.section.id != id
    ensures OwnerOk(s', id)
  {
    assert s'.bridge.pending[id] == s.bridge.pending[id];
    assert m.section != Withdraw(id);
  }

  lemma RegisteredOwner(rules: Rules, s: System, s': System, me: Waiter, choice: Choice, m: Moved)
    requires StateOk(s) && me in s.tasks && MovesRequests(rules, s, s', me, choice, m)
    requires m.section.Register?
    ensures m.section.id in s'.bridge.pending && OwnerOk(s', m.section.id)
  {
    assert TaskOk(s.bridge, s.accepted, s.requestIds, me, s.tasks[me]);
  }

  lemma StepKeepsPending(rules: Rules, s: System, s': System, me: Waiter, choice: Choice)
    requires StateOk(s) && TasksOk(s') && Next(rules, s, Step(me, choice)) == Some(s')
    ensures PendingOk(s')
  {
    var m := StepMovesRequests(rules, s, s', me, choice);
    forall id | id in s'.bridge.pending
      ensures OwnerOk(s', id)
    {
      if m.section.Register? && m.section.id == id {
        RegisteredOwner(rules, s, s', me, choice, m);
      } else {
        assert OwnerOk(s, id);
        MovedKeepsOwner(rules, s, s', me, choice, m, id);
      }
    }
  }

  // ------------------------------------------------------------- every event

  lemma SettleKeepsPending(s: System, ids: set<string>, answer: Answer)
    requires StateOk(s) && ids <= s.bridge.pending.Keys
    ensures PendingOk(s.(bridge := s.bridge.Settle(ids, answer)))
  {
    var s' := s.(bridge := s.bridge.Settle(ids, answer));
    forall id | id in s'.bridge.pending
      ensures OwnerOk(s', id)
    {
      assert OwnerOk(s, id);
      forall other | other in ids
        ensures s.bridge.pending[other].waiter != s.bridge.pending[id].waiter
      {
        assert OwnerOk(s, other);
      }
    }
    forall id | id in ids
      ensures var w := s.bridge.pending[id].waiter; w < s.accepted && w in s.tasks && s.tasks[w].request.Some?
    {
      assert OwnerOk(s, id);
      assert TaskOk(s.bridge, s.accepted, s.requestIds, s.bridge.pending[id].waiter,
                    s.tasks[s.bridge.pending[id].waiter]);
    }
  }

  lemma SettleKeepsState(s: System, ids: set<string>, answer: Answer)
    requires StateOk(s) && ids <= s.bridge.pending.Keys
    ensures StateOk(s.(bridge := s.bridge.Settle(ids, answer)))
  {
    var s' := s.(bridge := s.bridge.Settle(ids, answer));
    SettleKeepsPending(s, ids, answer);
    assert AllTasksOk(s') by {
      forall w | w in s.tasks
        ensures TaskOk(s'.bridge, s.accepted, s.requestIds, w, s.tasks[w])
      {
        assert TaskOk(s.bridge, s.accepted, s.requestIds, w, s.tasks[w]);
      }
    }
  }

  /** A turn edge: no task belongs to the new generation yet. */
  lemma TurnEdgeKeepsTasks(s: System, b: BridgeState)
    requires TasksOk(s)
    requires b.generation == s.bridge.generation + 1
    ensures AllTasksOk(s.(bridge := b))
  {
    forall w | w in s.tasks
      ensures TaskOk(b, s.accepted, s.requestIds, w, s.tasks[w])
    {
      assert TaskOk(s.bridge, s.accepted, s.requestIds, w, s.tasks[w]);
    }
  }

  lemma TurnEndKeepsState(s: System, turn: Turn)
    requires StateOk(s) && (turn.NoTurn? || turn.Ended?)
    ensures StateOk(s.(bridge := s.bridge.SetActiveSession(None), turn := turn))
  {
    var b := s.bridge.SetActiveSession(None);
    TurnEdgeKeepsTasks(s, b);
    var s' := s.(bridge := b, turn := turn);
    assert AllTasksOk(s');
    forall id | id in b.pending
      ensures OwnerOk(s', id)
    {
      assert OwnerOk(s, id);
    }
  }

  lemma TurnStartKeepsState(s: System, session: string)
    requires StateOk(s)
    ensures var b := s.bridge.SetActiveSession(Some(session));
      StateOk(s.(bridge := b, turn := Running(session, b.generation)))
  {
    var b := s.bridge.SetActiveSession(Some(session));
    SettleKeepsPending(s, s.bridge.pending.Keys, Abandoned);
    TurnEdgeKeepsTasks(s, b);
    var s' := s.(bridge := b, turn := Running(session, b.generation));
    assert AllTasksOk(s') && b.pending == map[];
    assert b.delivered == s.bridge.Settle(s.bridge.pending.Keys, Abandoned).delivered;
  }

  lemma SameForTasksKeepsState(s: System, b: BridgeState)
    requires StateOk(s)
    requires b.active == s.bridge.active && b.generation == s.bridge.generation
    requires b.pending == s.bridge.pending && b.delivered == s.bridge.delivered
    ensures StateOk(s.(bridge := b))
  {
    var s' := s.(bridge := b);
    forall w | w in s.tasks
      ensures TaskOk(b, s.accepted, s.requestIds, w, s.tasks[w])
    {
      assert TaskOk(s.bridge, s.accepted, s.requestIds, w, s.tasks[w]);
    }
    forall id | id in b.pending
      ensures OwnerOk(s', id)
    {
      assert OwnerOk(s, id);
    }
  }

  lemma AcceptKeepsTasks(rules: Rules, s: System, s': System)
    requires TasksOk(s) && Next(rules, s, Accept) == Some(s')
    ensures TasksOk(s') && s.accepted !in s.tasks
  {
    assert s'.tasks.Keys == s.tasks.Keys + {s.accepted};
    forall w | w in s'.tasks
      ensures TaskOk(s'.bridge, s'.accepted, s'.requestIds, w, s'.tasks[w])
      ensures w in s.tasks ==> w < s.accepted
    {
      if w in s.tasks {
        assert TaskOk(s.bridge, s.accepted, s.requestIds, w, s.tasks[w]);
      }
    }
  }

  lemma AcceptKeepsState(rules: Rules, s: System, s': System)
    requires StateOk(s) && Next(rules, s, Accept) == Some(s')
    ensures StateOk(s')
  {
    AcceptKeepsTasks(rules, s, s');
    forall id | id in s'.bridge.pending
      ensures OwnerOk(s', id)
    {
      assert OwnerOk(s, id);
    }
  }

  lemma FinishKeepsState(rules: Rules, s: System, s': System, task: Waiter)
    requires StateOk(s) && Next(rules, s, Finish(task)) == Some(s')
    ensures StateOk(s')
  {
    assert s'.tasks.Keys == s.tasks.Keys - {task};
    forall w | w in s'.tasks
      ensures TaskOk(s'.bridge, s'.accepted, s'.requestIds, w, s'.tasks[w])
    {
      assert TaskOk(s.bridge, s.accepted, s.requestIds, w, s.tasks[w]);
    }
    forall id | id in s'.bridge.pending
      ensures OwnerOk(s', id)
    {
      assert OwnerOk(s, id);
    }
  }

  lemma NextKeepsState(rules: Rules, s: System, e: Event, s': System)
    requires StateOk(s) && Next(rules, s, e) == Some(s')
    ensures StateOk(s')
  {
    match e {
      case StartTurn(session) => TurnStartKeepsState(s, session);
      case SpawnFails => TurnEndKeepsState(s, NoTurn);
      case ReadFlag => SameForTasksKeepsState(s, s.bridge);
      case BindConversation(_) => SameForTasksKeepsState(s, s'.bridge);
      case ClearActive => TurnEndKeepsState(s, s'.turn);
      case Respond(_) => SettleKeepsState(s, s.bridge.RequestsOf(s.turn.session), Abandoned);
      case CancelSession(session) => SettleKeepsState(s, s.bridge.RequestsOf(session), Abandoned);
      case HostReplies(id, result) =>
        if id.Text? && id.text in s.bridge.pending {
          SettleKeepsState(s, {id.text}, Host(result.GetOr(Object([]))));
        }
      case ForgetEvicted(_) => SameForTasksKeepsState(s, s'.bridge);
      case AddRoot(_) => SameForTasksKeepsState(s, s'.bridge);
      case Accept => AcceptKeepsState(rules, s, s');
      case Finish(task) => FinishKeepsState(rules, s, s', task);
      case Step(me, choice) =>
        StepKeepsTasks(rules, s, s', me, choice);
        StepKeepsRequestsApart(rules, s, s', me, choice);
        StepKeepsPending(rules, s, s', me, choice);
    }
  }

  // ----------------------------------------------------------------- the log

  ghost predicate HasRefusal(log: seq<Entry>, session: string, turn: nat) {
    exists task :: Refused(task, session, turn) in log
  }

  /** The verdict that puts a decision under a key, and the key that it puts it under. */
  function VerdictFor(decision: Decision): Verdict {
    if decision.Allow? then AllowAlways else RejectAlways
  }

  function KeyFor(rules: Rules, session: string, call: HookCall, decision: Decision): AlwaysKey {
    var resolved := rules.resolve(session, call.tool, call.args);
    if decision.Allow? then resolved.allowKey else resolved.fingerprintKey
  }

  ghost predicate IsAnswer(rules: Rules, e: Entry, key: AlwaysKey, decision: Decision) {
    && e.Answered? && e.verdict == VerdictFor(decision)
    && key == KeyFor(rules, e.session, e.call, decision)
  }

  ghost predicate HasAnswer(rules: Rules, log: seq<Entry>, key: AlwaysKey, decision: Decision) {
    exists e :: e in log && IsAnswer(rules, e, key, decision)
  }

  ghost predicate HasNoDeny(log: seq<Entry>, task: Waiter, key: AlwaysKey) {
    exists found :: found != Some(Deny) && LookedUp(task, key, found) in log
  }

  ghost predicate HasContained(rules: Rules, log: seq<Entry>, task: Waiter, args: Value) {
    exists judge :: ArgsContained(task, judge) in log && !rules.escapes(judge, args)
  }

  /** What the log already holds about a task that has come this far. */
  ghost predicate TaskLogged(rules: Rules, log: seq<Entry>, me: Waiter, t: Task) {
    t.capture.Some? ==>
      var session := t.capture.value.session;
      && (t.pc.Storing? ==> Answered(me, session, t.call, VerdictFor(t.pc.decision)) in log)
      && (t.pc == MarkRejected(true) ==> Answered(me, session, t.call, RejectAlways) in log)
      && (t.pc.AllowLookup? || t.pc.CheckArgs? || t.pc.CheckPaths? ==>
            HasNoDeny(log, me, Resolved(rules, t).fingerprintKey))
      && (t.pc.CheckArgs? || t.pc.CheckPaths? ==>
            HasAnswer(rules, log, Resolved(rules, t).allowKey, Allow))
      && (t.pc.CheckPaths? ==> HasContained(rules, log, me, t.call.args))
  }

  /** What must come before an entry. */
  ghost predicate Justified(rules: Rules, before: seq<Entry>, e: Entry) {
    match e
    case AllowedFromMemory(task, session, call, judge) =>
      var resolved := rules.resolve(session, call.tool, call.args);
      && HasAnswer(rules, before, resolved.allowKey, Allow)
      && HasNoDeny(before, task, resolved.fingerprintKey)
      && HasContained(rules, before, task, call.args)
      && (resolved.classified.Some? ==>
            !rules.pathsEscape(judge, resolved.classified.value.paths, call.args))
    case TurnReported(session, turn, Refusal) => HasRefusal(before, session, turn)
    case _ => true
  }

  ghost predicate FlagLogged(s: System) {
    && (s.bridge.refused && s.bridge.active.Some? ==>
          HasRefusal(s.log, s.bridge.active.value, s.bridge.generation))
    && ((s.turn.FlagRead? || s.turn.Ended?) && s.turn.refused ==>
          HasRefusal(s.log, s.turn.session, s.turn.turn))
  }

  ghost predicate AlwaysLogged(rules: Rules, s: System) {
    forall key | key in s.bridge.always :: HasAnswer(rules, s.log, key, s.bridge.always[key])
  }

  ghost predicate TasksLogged(rules: Rules, s: System) {
    forall w | w in s.tasks :: TaskLogged(rules, s.log, w, s.tasks[w])
  }

  ghost predicate AllJustified(rules: Rules, s: System) {
    forall k | 0 <= k < |s.log| :: Justified(rules, s.log[..k], s.log[k])
  }

  ghost predicate LogOk(rules: Rules, s: System) {
    FlagLogged(s) && AlwaysLogged(rules, s) && TasksLogged(rules, s) && AllJustified(rules, s)
  }

  lemma LongerLogStillHas(rules: Rules, log: seq<Entry>, more: seq<Entry>)
    ensures forall session, turn :: HasRefusal(log, session, turn) ==> HasRefusal(log + more, session, turn)
    ensures forall key, decision ::
      HasAnswer(rules, log, key, decision) ==> HasAnswer(rules, log + more, key, decision)
    ensures forall w, t: Task :: TaskLogged(rules, log, w, t) ==> TaskLogged(rules, log + more, w, t)
  {
    assert forall e :: e in log ==> e in log + more;
    forall key, decision | HasAnswer(rules, log, key, decision)
      ensures HasAnswer(rules, log + more, key, decision)
    {
      var e :| e in log && IsAnswer(rules, e, key, decision);
      assert e in log + more;
    }
    forall w, t: Task | TaskLogged(rules, log, w, t)
      ensures TaskLogged(rules, log + more, w, t)
    {
    }
  }

  /** A step adds at most one entry, and that one is justified by what came before. */
  lemma AdvanceLogs(rules: Rules, b: BridgeState, me: Waiter, t: Task, choice: Choice, log: seq<Entry>)
    requires CanMove(t) && Advance(rules, b, me, t, choice).Some?
    requires TaskLogged(rules, log, me, t)
    ensures var m := Advance(rules, b, me, t, choice).value;
      |m.entries| <= 1 && (m.entries != [] ==> Justified(rules, log, m.entries[0]))
  {
  }

  lemma LookupLogs(rules: Rules, b: BridgeState, me: Waiter, t: Task, choice: Choice, log: seq<Entry>)
    requires CanMove(t) && IsEarly(t.pc) && Deliberate(rules, b, me, t, choice).Some?
    requires TaskLogged(rules, log, me, t) && (t.capture.Some? ==> !t.pc.Reading? && !t.pc.Resolving?)
    requires forall key | key in b.always :: HasAnswer(rules, log, key, b.always[key])
    ensures var m := Deliberate(rules, b, me, t, choice).value;
      TaskLogged(rules, log + m.entries, me, m.task)
  {
    var m := Deliberate(rules, b, me, t, choice).value;
    LongerLogStillHas(rules, log, m.entries);
    if m.entries != [] {
      assert m.entries[0] in log + m.entries;
    }
  }

  lemma AskLogs(rules: Rules, b: BridgeState, me: Waiter, t: Task, choice: Choice, log: seq<Entry>)
    requires CanMove(t) && !IsEarly(t.pc) && Ask(rules, b, me, t, choice).Some?
    requires TaskLogged(rules, log, me, t)
    ensures var m := Ask(rules, b, me, t, choice).value;
      TaskLogged(rules, log + m.entries, me, m.task)
  {
    var m := Ask(rules, b, me, t, choice).value;
    LongerLogStillHas(rules, log, m.entries);
    if m.entries != [] {
      assert m.entries[0] in log + m.entries;
    }
  }

  lemma AppendKeepsJustified(rules: Rules, log: seq<Entry>, more: seq<Entry>)
    requires forall k | 0 <= k < |log| :: Justified(rules, log[..k], log[k])
    requires |more| <= 1 && (more != [] ==> Justified(rules, log, more[0]))
    ensures forall k | 0 <= k < |log + more| :: Justified(rules, (log + more)[..k], (log + more)[k])
  {
    forall k | 0 <= k < |log + more|
      ensures Justified(rules, (log + more)[..k], (log + more)[k])
    {
      if k < |log| {
        assert (log + more)[..k] == log[..k];
      } else {
        assert (log + more)[..k] == log;
      }
    }
  }

  lemma StepKeepsLog(rules: Rules, s: System, s': System, me: Waiter, choice: Choice)
    requires StateOk(s) && LogOk(rules, s) && Next(rules, s, Step(me, choice)) == Some(s')
    ensures TasksLogged(rules, s') && AllJustified(rules, s')
  {
    var t := s.tasks[me];
    var m := Advance(rules, s.bridge, me, t, choice).value;
    assert TaskOk(s.bridge, s.accepted, s.requestIds, me, t) && TaskLogged(rules, s.log, me, t);
    LongerLogStillHas(rules, s.log, m.entries);
    AdvanceLogs(rules, s.bridge, me, t, choice, s.log);
    if IsEarly(t.pc) {
      LookupLogs(rules, s.bridge, me, t, choice, s.log);
    } else {
      AskLogs(rules, s.bridge, me, t, choice, s.log);
    }
    AppendKeepsJustified(rules, s.log, m.entries);
  }

  lemma StepLogsEffects(rules: Rules, s: System, s': System, me: Waiter, choice: Choice)
    requires StateOk(s) && LogOk(rules, s) && Next(rules, s, Step(me, choice)) == Some(s')
    ensures FlagLogged(s') && AlwaysLogged(rules, s')
  {
    var t := s.tasks[me];
    var m := Advance(rules, s.bridge, me, t, choice).value;
    assert TaskOk(s.bridge, s.accepted, s.requestIds, me, t) && TaskLogged(rules, s.log, me, t);
    AdvanceSection(rules, s.bridge, me, t, choice);
    PerformKeeps(s.bridge, m.section);
    LongerLogStillHas(rules, s.log, m.entries);
    if m.section.Mark? && InItsTurn(s.bridge, t) {
      assert Refused(me, t.capture.value.session, m.section.turn) in s'.log;
    }
    if m.section.Store? {
      var e := Answered(me, t.capture.value.session, t.call, VerdictFor(m.section.decision));
      assert e in s.log && e in s'.log && IsAnswer(rules, e, m.section.key, m.section.decision);
    }
  }

  lemma NextKeepsLog(rules: Rules, s: System, e: Event, s': System)
    requires StateOk(s) && LogOk(rules, s) && Next(rules, s, e) == Some(s')
    ensures LogOk(rules, s')
  {
    match e {
      case Step(me, choice) =>
        StepKeepsLog(rules, s, s', me, choice);
        StepLogsEffects(rules, s, s', me, choice);
      case Respond(drained) =>
        var entry := TurnReported(s.turn.session, s.turn.turn, TurnResponse(drained, s.turn.refused));
        LongerLogStillHas(rules, s.log, [entry]);
        AppendKeepsJustified(rules, s.log, [entry]);
      case _ =>
    }
  }

  // ------------------------------------------------------- promises of a run

  lemma {:induction false} RunKeepsInvariant(rules: Rules, run: seq<System>, i: nat)
    requires IsRun(rules, run) && i < |run|
    ensures StateOk(run[i]) && LogOk(rules, run[i])
  {
    if i > 0 {
      RunKeepsInvariant(rules, run, i - 1);
      assert Follows(rules, run[i - 1], run[i]);
      var e :| Next(rules, run[i - 1], e) == Some(run[i]);
      NextKeepsState(rules, run[i - 1], e, run[i]);
      NextKeepsLog(rules, run[i - 1], e, run[i]);
    }
  }

  /** A step raises the refusal flag, or writes a remembered answer, only on behalf of the turn
      that its task captured, while that turn runs and its session is the active one. */
  lemma EffectsOnlyInOwnTurn(rules: Rules, run: seq<System>, i: nat, e: Event, s': System)
    requires IsRun(rules, run) && i < |run| && Next(rules, run[i], e) == Some(s')
    requires
      || (s'.bridge.refused && !run[i].bridge.refused)
      || exists key :: key in s'.bridge.always
                       && run[i].bridge.Remembered(key) != Some(s'.bridge.always[key])
    ensures var s := run[i];
      && e.Step? && e.task in s.tasks && s.tasks[e.task].capture.Some?
      && var Capture(session, turn) := s.tasks[e.task].capture.value;
         && s.bridge.generation == turn && s.bridge.active == Some(session)
         && (s.turn == Running(session, turn) || (s.turn.FlagRead? && s.turn.session == session && s.turn.turn == turn))
  {
    var s := run[i];
    RunKeepsInvariant(rules, run, i);
    if e.Step? {
      var t := s.tasks[e.task];
      assert TaskOk(s.bridge, s.accepted, s.requestIds, e.task, t);
      AdvanceSection(rules, s.bridge, e.task, t, e.choice);
    }
  }

  /** A turn is reported as refused only if a task of that very turn refused during it. */
  lemma RefusalWasOfThisTurn(rules: Rules, run: seq<System>, i: nat, k: nat, session: string, turn: nat)
    returns (j: nat, task: Waiter)
    requires IsRun(rules, run) && i < |run| && k < |run[i].log|
    requires run[i].log[k] == TurnReported(session, turn, Refusal)
    ensures j < k && run[i].log[j] == Refused(task, session, turn)
  {
    RunKeepsInvariant(rules, run, i);
    var before := run[i].log[..k];
    assert Justified(rules, before, run[i].log[k]);
    task :| Refused(task, session, turn) in before;
    j :| 0 <= j < |before| && before[j] == Refused(task, session, turn);
  }

  /** Each pending request is owned by exactly one live task, which still asks for it; while a
      turn runs, it was registered in that turn and for the active session. */
  lemma PendingIsOwned(rules: Rules, run: seq<System>, i: nat, id: string) returns (owner: Waiter)
    requires IsRun(rules, run) && i < |run| && id in run[i].bridge.pending
    ensures var s := run[i];
      && owner in s.tasks && Asking(s.tasks[owner].pc)
      && (forall w | w in s.tasks :: s.tasks[w].request == Some(id) <==> w == owner)
      && s.tasks[owner].capture.Some?
      && s.tasks[owner].capture.value.session == s.bridge.pending[id].session
      && (s.bridge.active.Some? ==>
            s.tasks[owner].capture.value == Capture(s.bridge.active.value, s.bridge.generation))
  {
    var s := run[i];
    RunKeepsInvariant(rules, run, i);
    assert OwnerOk(s, id);
    owner := s.bridge.pending[id].waiter;
    assert TaskOk(s.bridge, s.accepted, s.requestIds, owner, s.tasks[owner]);
  }

  /** Nothing is left pending for a task whose `decide` has returned. */
  lemma ReturnedTaskLeavesNothing(rules: Rules, run: seq<System>, i: nat, task: Waiter)
    requires IsRun(rules, run) && i < |run| && task in run[i].tasks && run[i].tasks[task].pc.Replied?
    ensures var request := run[i].tasks[task].request;
      request.Some? ==> request.value !in run[i].bridge.pending
  {
    var request := run[i].tasks[task].request;
    if request.Some? && request.value in run[i].bridge.pending {
      var owner := PendingIsOwned(rules, run, i, request.value);
    }
  }

  /** A waiter is answered at most once: whatever was sent to it stays what it was. */
  lemma AnsweredAtMostOnce(rules: Rules, run: seq<System>, i: nat, e: Event, s': System, w: Waiter)
    requires IsRun(rules, run) && i < |run| && Next(rules, run[i], e) == Some(s')
    requires w in run[i].bridge.delivered
    ensures w in s'.bridge.delivered && s'.bridge.delivered[w] == run[i].bridge.delivered[w]
  {
    var s := run[i];
    RunKeepsInvariant(rules, run, i);
    forall id | id in s.bridge.pending
      ensures s.bridge.pending[id].waiter != w
    {
      assert OwnerOk(s, id);
    }
    if e.Step? {
      PerformKeeps(s.bridge, Advance(rules, s.bridge, e.task, s.tasks[e.task], e.choice).value.section);
    }
  }

  lemma {:induction false} InjectiveIntoTasks(s: System, ids: set<string>)
    requires ids <= s.bridge.pending.Keys && PendingOk(s)
    ensures Waiters(s.bridge.pending, ids) <= s.tasks.Keys && |Waiters(s.bridge.pending, ids)| == |ids|
  {
    if ids != {} {
      var id :| id in ids;
      assert OwnerOk(s, id);
      InjectiveIntoTasks(s, ids - {id});
      var rest := Waiters(s.bridge.pending, ids - {id});
      assert Waiters(s.bridge.pending, ids) == rest + {s.bridge.pending[id].waiter};
      forall other | other in ids - {id}
        ensures s.bridge.pending[other].waiter != s.bridge.pending[id].waiter
      {
        assert OwnerOk(s, other);
      }
      assert s.bridge.pending[id].waiter !in rest;
    }
  }

  lemma {:induction false} SubsetSize<T>(small: set<T>, large: set<T>)
    requires small <= large
    ensures |small| <= |large|
  {
    if small != {} {
      var x :| x in small;
      SubsetSize(small - {x}, large - {x});
    }
  }

  /** There are never more pending requests than connection permits. */
  lemma PendingIsBounded(rules: Rules, run: seq<System>, i: nat)
    requires IsRun(rules, run) && i < |run|
    ensures |run[i].bridge.pending| <= |run[i].tasks| <= MAX_CONNECTIONS
  {
    var s := run[i];
    RunKeepsInvariant(rules, run, i);
    InjectiveIntoTasks(s, s.bridge.pending.Keys);
    SubsetSize(Waiters(s.bridge.pending, s.bridge.pending.Keys), s.tasks.Keys);
    assert |s.tasks.Keys| == |s.tasks| && |s.bridge.pending.Keys| == |s.bridge.pending|;
  }

  // ---------------------------------------------------- the bridge's own rules

  /** The rules that the bridge consults: its program table, its policy and its own directory. */
  function BridgeRules(table: seq<ProgramDef>, policy: Policy, hookRoot: Option<string>): Rules {
    Rules(
      args => hookRoot.Some? && exists s | s in StringArgs(args) :: Contains(s, hookRoot.value),
      tool => tool in policy.tools,
      (session, tool, args) => Resolve(table, session, tool, args),
      (judge, args) => EscapesContainment(judge, args),
      (judge, paths, args) => PathsEscape(judge, paths, args),
      result => VerdictOf(result),
      policy.sensitive)
  }

  /** A judgement made with the bridge's own list of sensitive paths and its roots of that moment,
      which later roots only follow. */
  ghost predicate JudgeOk(rules: Rules, b: BridgeState, judge: Judge) {
    judge.sensitive == rules.sensitive && judge.roots <= b.roots
  }

  ghost predicate Judging(e: Entry) {
    e.ArgsContained? || e.AllowedFromMemory?
  }

  ghost predicate JudgesOk(rules: Rules, s: System) {
    forall k | 0 <= k < |s.log| :: Judging(s.log[k]) ==> JudgeOk(rules, s.bridge, s.log[k].judge)
  }

  /** A step judges, if at all, with what the bridge knows now. */
  lemma AdvanceJudges(rules: Rules, b: BridgeState, me: Waiter, t: Task, choice: Choice)
    requires CanMove(t) && Advance(rules, b, me, t, choice).Some?
    ensures forall k, m | m == Advance(rules, b, me, t, choice).value && 0 <= k < |m.entries| ::
      Judging(m.entries[k]) ==> JudgeOk(rules, b, m.entries[k].judge)
  {
  }

  lemma NextKeepsRoots(rules: Rules, s: System, e: Event, s': System)
    requires Next(rules, s, e) == Some(s')
    ensures s.bridge.roots <= s'.bridge.roots
  {
    if e.Step? {
      PerformKeeps(s.bridge, Advance(rules, s.bridge, e.task, s.tasks[e.task], e.choice).value.section);
    }
  }

  lemma NextJudges(rules: Rules, s: System, e: Event, s': System) returns (more: seq<Entry>)
    requires Next(rules, s, e) == Some(s')
    ensures s'.log == s.log + more
    ensures forall k | 0 <= k < |more| :: Judging(more[k]) ==> JudgeOk(rules, s.bridge, more[k].judge)
  {
    if e.Step? {
      AdvanceJudges(rules, s.bridge, e.task, s.tasks[e.task], e.choice);
      more := Advance(rules, s.bridge, e.task, s.tasks[e.task], e.choice).value.entries;
    } else if e.Respond? {
      more := [s'.log[|s.log|]];
    } else {
      more := [];
      assert s.log + [] == s.log;
    }
  }

  lemma LaterJudges(rules: Rules, s: System, s': System, more: seq<Entry>)
    requires JudgesOk(rules, s) && s'.log == s.log + more && s.bridge.roots <= s'.bridge.roots
    requires forall k | 0 <= k < |more| :: Judging(more[k]) ==> JudgeOk(rules, s.bridge, more[k].judge)
    ensures JudgesOk(rules, s')
  {
    forall k | 0 <= k < |s'.log| && Judging(s'.log[k])
      ensures JudgeOk(rules, s'.bridge, s'.log[k].judge)
    {
      assert s'.log[k] == if k < |s.log| then s.log[k] else more[k - |s.log|];
    }
  }

  lemma FollowingKeepsJudges(rules: Rules, s: System, s': System)
    requires JudgesOk(rules, s) && Follows(rules, s, s')
    ensures JudgesOk(rules, s')
  {
    var e :| Next(rules, s, e) == Some(s');
    NextKeepsRoots(rules, s, e, s');
    var more := NextJudges(rules, s, e, s');
    LaterJudges(rules, s, s', more);
  }

  lemma {:induction false} RunKeepsJudges(rules: Rules, run: seq<System>, i: nat)
    requires IsRun(rules, run) && i < |run|
    ensures JudgesOk(rules, run[i])
  {
    if i > 0 {
      RunKeepsJudges(rules, run, i - 1);
      FollowingKeepsJudges(rules, run[i - 1], run[i]);
    }
  }

  /** What the log holds before an allow from memory, whatever the rules. */
  lemma MemoryAllowJustified(rules: Rules, run: seq<System>, i: nat, k: nat) returns (j: nat, c: nat)
    requires IsRun(rules, run) && i < |run| && k < |run[i].log| && run[i].log[k].AllowedFromMemory?
    ensures var log := run[i].log;
      && var AllowedFromMemory(task, session, call, judge) := log[k];
      && var resolved := rules.resolve(session, call.tool, call.args);
      && j < k && IsAnswer(rules, log[j], resolved.allowKey, Allow)
      && c < k && log[c].ArgsContained? && log[c].task == task && !rules.escapes(log[c].judge, call.args)
      && HasNoDeny(log[..k], task, resolved.fingerprintKey)
      && (resolved.classified.Some? ==> !rules.pathsEscape(judge, resolved.classified.value.paths, call.args))
      && JudgeOk(rules, run[i].bridge, judge) && JudgeOk(rules, run[i].bridge, log[c].judge)
  {
    RunKeepsInvariant(rules, run, i);
    RunKeepsJudges(rules, run, i);
    var log := run[i].log;
    var AllowedFromMemory(task, session, call, judge) := log[k];
    assert Justified(rules, log[..k], log[k]);
    var e :| e in log[..k] && IsAnswer(rules, e, rules.resolve(session, call.tool, call.args).allowKey, Allow);
    j :| 0 <= j < k && log[..k][j] == e;
    var seen :| ArgsContained(task, seen) in log[..k] && !rules.escapes(seen, call.args);
    c :| 0 <= c < k && log[..k][c] == ArgsContained(task, seen);
  }

  /** A call that is allowed from memory follows an `allow_always` answer of the same session and
      tool that covers it; no deny was found for its own arguments; and its arguments, then the
      paths of its command line, were judged contained in the workspace roots registered by then,
      and not sensitive under the bridge's policy. */
  lemma MemoryAllowIsCovered(table: seq<ProgramDef>, policy: Policy, hookRoot: Option<string>,
                             run: seq<System>, i: nat, k: nat)
    returns (j: nat, c: nat)
    requires IsRun(BridgeRules(table, policy, hookRoot), run) && i < |run| && k < |run[i].log|
    requires run[i].log[k].AllowedFromMemory?
    ensures var log, roots := run[i].log, run[i].bridge.roots;
      && var AllowedFromMemory(task, session, call, judge) := log[k];
      && j < k && log[j].Answered? && log[j].verdict == AllowAlways
      && log[j].session == session && log[j].call.tool == call.tool
      && CoverageOf(table, call.tool, log[j].call.args) == CoverageOf(table, call.tool, call.args)
      && HasNoDeny(log[..k], task, Resolve(table, session, call.tool, call.args).fingerprintKey)
      && c < k && log[c].ArgsContained? && log[c].task == task
      && log[c].judge.roots <= roots && log[c].judge.sensitive == policy.sensitive
      && !EscapesContainment(log[c].judge, call.args)
      && judge.roots <= roots && judge.sensitive == policy.sensitive
      && var classified := ClassifyCall(table, call.tool, call.args);
         (classified.Some? ==> !PathsEscape(judge, classified.value.paths, call.args))
  {
    var rules := BridgeRules(table, policy, hookRoot);
    j, c := MemoryAllowJustified(rules, run, i, k);
    var AllowedFromMemory(task, session, call, judge) := run[i].log[k];
    var e := run[i].log[j];
    SameKeyIffCovered(table, e.session, e.call.tool, e.call.args, session, call.tool, call.args);
  }

  /** Every remembered deny sits at an exact-argument key, where a `reject_always` answer put it:
      it can only ever stop calls with the very arguments that the user rejected. */
  lemma StoredDenyIsExact(table: seq<ProgramDef>, policy: Policy, hookRoot: Option<string>,
                          run: seq<System>, i: nat, key: AlwaysKey)
    returns (e: Entry)
    requires IsRun(BridgeRules(table, policy, hookRoot), run) && i < |run|
    requires run[i].bridge.Remembered(key) == Some(Deny)
    ensures e in run[i].log && e.Answered? && e.verdict == RejectAlways
    ensures forall session, tool, args: Parsed ::
      key == AlwaysKey(session, tool, Some(ArgsFingerprint(args)))
      <==> e.session == session && e.call.tool == tool && Keyed(e.call.args) == Keyed(args)
  {
    var rules := BridgeRules(table, policy, hookRoot);
    RunKeepsInvariant(rules, run, i);
    assert HasAnswer(rules, run[i].log, key, Deny);
    e :| e in run[i].log && IsAnswer(rules, e, key, Deny);
    forall session, tool, args: Parsed
      ensures key == AlwaysKey(session, tool, Some(ArgsFingerprint(args)))
        <==> e.session == session && e.call.tool == tool && Keyed(e.call.args) == Keyed(args)
    {
      SameFingerprintIffSameArguments(e.session, e.call.tool, e.call.args, session, tool, args);
    }
  }
}
