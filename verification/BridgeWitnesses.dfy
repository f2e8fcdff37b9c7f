/** Two runs that happen: an allow stored over a deny, and an allow that is given after its turn. */
module BridgeWitnesses {
  import opened Options
  import opened Json
  import opened SafeCommand
  import opened StickyRules
  import opened PathRules
  import opened Bridge
  import opened BridgeProtocol
  import opened BridgeRuns
  import opened BridgeSections

  function Now(tr: Trace): System
    requires tr.run != []
  {
    tr.run[|tr.run| - 1]
  }

  /** A longer trace. */
  ghost predicate Extends(tr: Trace, tr': Trace) {
    tr.run <= tr'.run && tr.events <= tr'.events
  }

  lemma Extend(rules: Rules, tr: Trace, e: Event, s': System) returns (tr': Trace)
    requires IsTrace(rules, tr) && Next(rules, Now(tr), e) == Some(s')
    ensures IsTrace(rules, tr') && Extends(tr, tr') && |tr'.run| == |tr.run| + 1 && Now(tr') == s'
    ensures tr'.events == tr.events + [e]
  {
    tr' := Trace(tr.run + [s'], tr.events + [e]);
    forall k | 0 <= k < |tr'.events|
      ensures Goes(rules, tr', k)
    {
      if k < |tr.events| {
        assert Goes(rules, tr, k);
      }
    }
  }

  // ------------------------------------------------------------- single steps

  /** One step of a task: what it makes of itself and of the bridge, and nothing else. */
  ghost predicate Took(rules: Rules, tr: Trace, tr': Trace, me: Waiter, t: Task, b: BridgeState) {
    && IsTrace(rules, tr) && IsTrace(rules, tr') && Extends(tr, tr') && |tr'.run| == |tr.run| + 1
    && Now(tr').tasks == Now(tr).tasks[me := t] && Now(tr').bridge == b && Now(tr').turn == Now(tr).turn
    && Now(tr').accepted == Now(tr).accepted && Now(tr).requestIds <= Now(tr').requestIds
  }

  lemma Take(rules: Rules, tr: Trace, me: Waiter, choice: Choice) returns (tr': Trace)
    requires IsTrace(rules, tr) && me in Now(tr).tasks && CanMove(Now(tr).tasks[me])
    requires choice.NewRequest? ==> choice.id !in Now(tr).requestIds
    requires Advance(rules, Now(tr).bridge, me, Now(tr).tasks[me], choice).Some?
    ensures var m := Advance(rules, Now(tr).bridge, me, Now(tr).tasks[me], choice).value;
      Took(rules, tr, tr', me, m.task, Perform(Now(tr).bridge, m.section))
    ensures Now(tr').requestIds == Now(tr).requestIds + if choice.NewRequest? then {choice.id} else {}
  {
    tr' := Extend(rules, tr, Step(me, choice), Next(rules, Now(tr), Step(me, choice)).value);
  }

  lemma TakeFrame(rules: Rules, tr: Trace, me: Waiter, call: HookCall) returns (tr': Trace)
    requires IsTrace(rules, tr) && me in Now(tr).tasks && Now(tr).tasks[me].pc.Reading?
    ensures Took(rules, tr, tr', me, Now(tr).tasks[me].(pc := Resolving, call := call), Now(tr).bridge)
    ensures Now(tr').requestIds == Now(tr).requestIds
  {
    tr' := Take(rules, tr, me, Frame(Some(call)));
  }

  lemma TakeTurn(rules: Rules, tr: Trace, me: Waiter) returns (tr': Trace)
    requires IsTrace(rules, tr) && me in Now(tr).tasks && Now(tr).tasks[me].pc.Resolving?
    requires Now(tr).bridge.CaptureTurn(Now(tr).tasks[me].call.conversation).Some?
    ensures Took(rules, tr, tr', me, Now(tr).tasks[me].(pc := HookCheck,
                   capture := Now(tr).bridge.CaptureTurn(Now(tr).tasks[me].call.conversation)), Now(tr).bridge)
    ensures Now(tr').requestIds == Now(tr).requestIds
  {
    tr' := Take(rules, tr, me, Proceed);
  }

  lemma TakeHook(rules: Rules, tr: Trace, me: Waiter) returns (tr': Trace)
    requires IsTrace(rules, tr) && me in Now(tr).tasks && Now(tr).tasks[me].pc.HookCheck? && CanMove(Now(tr).tasks[me])
    requires !rules.targetsHookRoot(Now(tr).tasks[me].call.args)
    ensures Took(rules, tr, tr', me, Now(tr).tasks[me].(pc := AutoAllow), Now(tr).bridge)
    ensures Now(tr').requestIds == Now(tr).requestIds
  {
    tr' := Take(rules, tr, me, Proceed);
  }

  lemma TakeAuto(rules: Rules, tr: Trace, me: Waiter, resolve: Resolver) returns (tr': Trace)
    requires IsTrace(rules, tr) && me in Now(tr).tasks && Now(tr).tasks[me].pc.AutoAllow? && CanMove(Now(tr).tasks[me])
    requires !rules.autoAllows(Now(tr).tasks[me].call.tool)
    ensures Took(rules, tr, tr', me, Now(tr).tasks[me].(pc := DenyLookup), Now(tr).bridge)
    ensures Now(tr').requestIds == Now(tr).requestIds
  {
    tr' := Take(rules, tr, me, Files(resolve));
  }

  lemma TakeDenyLookup(rules: Rules, tr: Trace, me: Waiter) returns (tr': Trace)
    requires IsTrace(rules, tr) && me in Now(tr).tasks && Now(tr).tasks[me].pc.DenyLookup? && CanMove(Now(tr).tasks[me])
    requires Now(tr).bridge.Remembered(Resolved(rules, Now(tr).tasks[me]).fingerprintKey) != Some(Deny)
    ensures Took(rules, tr, tr', me, Now(tr).tasks[me].(pc := AllowLookup), Now(tr).bridge)
    ensures Now(tr').requestIds == Now(tr).requestIds
  {
    tr' := Take(rules, tr, me, Proceed);
  }

  lemma TakeAllowLookup(rules: Rules, tr: Trace, me: Waiter) returns (tr': Trace)
    requires IsTrace(rules, tr) && me in Now(tr).tasks && Now(tr).tasks[me].pc.AllowLookup? && CanMove(Now(tr).tasks[me])
    ensures var found := Now(tr).bridge.Remembered(Resolved(rules, Now(tr).tasks[me]).allowKey) == Some(Allow);
      Took(rules, tr, tr', me, Now(tr).tasks[me].(pc := if found then CheckArgs else Registering), Now(tr).bridge)
    ensures Now(tr').requestIds == Now(tr).requestIds
  {
    tr' := Take(rules, tr, me, Proceed);
  }

  lemma TakeArgs(rules: Rules, tr: Trace, me: Waiter, resolve: Resolver) returns (tr': Trace)
    requires IsTrace(rules, tr) && me in Now(tr).tasks && Now(tr).tasks[me].pc.CheckArgs? && CanMove(Now(tr).tasks[me])
    requires !rules.escapes(JudgeNow(rules, Now(tr).bridge, resolve), Now(tr).tasks[me].call.args)
    ensures Took(rules, tr, tr', me, Now(tr).tasks[me].(pc := CheckPaths), Now(tr).bridge)
  {
    tr' := Take(rules, tr, me, Files(resolve));
  }

  lemma TakeRegister(rules: Rules, tr: Trace, me: Waiter, id: string) returns (tr': Trace)
    requires IsTrace(rules, tr) && me in Now(tr).tasks && Now(tr).tasks[me].pc.Registering? && CanMove(Now(tr).tasks[me])
    requires id !in Now(tr).requestIds && InItsTurn(Now(tr).bridge, Now(tr).tasks[me])
    ensures var t := Now(tr).tasks[me];
      Took(rules, tr, tr', me, t.(pc := Sending, request := Some(id)),
           Now(tr).bridge.(pending := Now(tr).bridge.pending[id := PendingRequest(t.capture.value.session, me)]))
    ensures Now(tr').requestIds == Now(tr).requestIds + {id}
  {
    tr' := Take(rules, tr, me, NewRequest(id));
  }

  lemma TakeSend(rules: Rules, tr: Trace, me: Waiter) returns (tr': Trace)
    requires IsTrace(rules, tr) && me in Now(tr).tasks && Now(tr).tasks[me].pc.Sending? && CanMove(Now(tr).tasks[me])
    ensures Took(rules, tr, tr', me, Now(tr).tasks[me].(pc := Waiting), Now(tr).bridge)
    ensures Now(tr').requestIds == Now(tr).requestIds
  {
    tr' := Take(rules, tr, me, Send(true));
  }

  lemma TakeAnswer(rules: Rules, tr: Trace, me: Waiter, result: Value) returns (tr': Trace)
    requires IsTrace(rules, tr) && me in Now(tr).tasks && Now(tr).tasks[me].pc.Waiting? && CanMove(Now(tr).tasks[me])
    requires me in Now(tr).bridge.delivered && Now(tr).bridge.delivered[me] == Host(result)
    ensures Took(rules, tr, tr', me, Now(tr).tasks[me].(pc := AfterVerdict(rules.verdict(result))), Now(tr).bridge)
  {
    tr' := Take(rules, tr, me, Proceed);
  }

  lemma TakeReject(rules: Rules, tr: Trace, me: Waiter) returns (tr': Trace)
    requires IsTrace(rules, tr) && me in Now(tr).tasks && Now(tr).tasks[me].pc == MarkRejected(true)
    requires CanMove(Now(tr).tasks[me]) && InItsTurn(Now(tr).bridge, Now(tr).tasks[me])
    ensures Took(rules, tr, tr', me, Now(tr).tasks[me].(pc := Storing(Deny)), Now(tr).bridge.(refused := true))
  {
    tr' := Take(rules, tr, me, Proceed);
  }

  lemma TakeStore(rules: Rules, tr: Trace, me: Waiter, decision: Decision) returns (tr': Trace)
    requires IsTrace(rules, tr) && me in Now(tr).tasks && Now(tr).tasks[me].pc == Storing(decision)
    requires CanMove(Now(tr).tasks[me]) && InItsTurn(Now(tr).bridge, Now(tr).tasks[me])
    ensures var key := StoredKey(rules, Now(tr).tasks[me], decision);
      Took(rules, tr, tr', me, Now(tr).tasks[me].(pc := Replied(decision)),
           Now(tr).bridge.(always := Now(tr).bridge.always[key := decision]))
  {
    tr' := Take(rules, tr, me, Proceed);
  }

  // -------------------------------------------------------------- stretches

  /** Some steps of one task. */
  ghost predicate Worked(rules: Rules, tr: Trace, tr': Trace, me: Waiter, t: Task, b: BridgeState) {
    && IsTrace(rules, tr) && IsTrace(rules, tr') && Extends(tr, tr')
    && Now(tr').tasks == Now(tr).tasks[me := t] && Now(tr').bridge == b && Now(tr').turn == Now(tr).turn
    && Now(tr').accepted == Now(tr).accepted
  }

  lemma AndThen(rules: Rules, tr: Trace, tr1: Trace, tr2: Trace, me: Waiter, t1: Task, t2: Task,
                b1: BridgeState, b2: BridgeState)
    requires Worked(rules, tr, tr1, me, t1, b1) && Took(rules, tr1, tr2, me, t2, b2)
    ensures Worked(rules, tr, tr2, me, t2, b2)
  {
    assert Now(tr).tasks[me := t1][me := t2] == Now(tr).tasks[me := t2];
  }

  const NEWBORN := Task(Reading, HookCall("", "", Null), None, None)

  /** A call that nothing decides before its remembered answers are looked up. */
  ghost predicate IsAsked(rules: Rules, b: BridgeState, session: string, call: HookCall) {
    && b.active == Some(session) && call.conversation !in b.conversations
    && !rules.targetsHookRoot(call.args) && !rules.autoAllows(call.tool)
    && b.Remembered(rules.resolve(session, call.tool, call.args).fingerprintKey) != Some(Deny)
  }

  lemma ToHook(rules: Rules, tr: Trace, me: Waiter, session: string, call: HookCall) returns (tr': Trace)
    requires IsTrace(rules, tr) && me in Now(tr).tasks && Now(tr).tasks[me] == NEWBORN
    requires IsAsked(rules, Now(tr).bridge, session, call)
    ensures Worked(rules, tr, tr', me, Task(HookCheck, call, Some(Capture(session, Now(tr).bridge.generation)), None), Now(tr).bridge)
    ensures Now(tr').requestIds == Now(tr).requestIds
  {
    var b := Now(tr).bridge;
    var tr1 := TakeFrame(rules, tr, me, call);
    tr' := TakeTurn(rules, tr1, me);
    AndThen(rules, tr, tr1, tr', me, NEWBORN.(pc := Resolving, call := call),
            Task(HookCheck, call, Some(Capture(session, b.generation)), None), b, b);
  }

  /** From the frame to the lookup of a remembered allow. */
  lemma ToLookup(rules: Rules, tr: Trace, me: Waiter, session: string, call: HookCall, resolve: Resolver) returns (tr': Trace)
    requires IsTrace(rules, tr) && me in Now(tr).tasks && Now(tr).tasks[me] == NEWBORN
    requires IsAsked(rules, Now(tr).bridge, session, call)
    ensures Worked(rules, tr, tr', me, Task(AllowLookup, call, Some(Capture(session, Now(tr).bridge.generation)), None), Now(tr).bridge)
    ensures Now(tr').requestIds == Now(tr).requestIds
  {
    var b := Now(tr).bridge;
    var t := Task(HookCheck, call, Some(Capture(session, b.generation)), None);
    var tr1 := ToHook(rules, tr, me, session, call);
    var tr2 := TakeHook(rules, tr1, me);
    AndThen(rules, tr, tr1, tr2, me, t, t.(pc := AutoAllow), b, b);
    var tr3 := TakeAuto(rules, tr2, me, resolve);
    AndThen(rules, tr, tr2, tr3, me, t.(pc := AutoAllow), t.(pc := DenyLookup), b, b);
    tr' := TakeDenyLookup(rules, tr3, me);
    AndThen(rules, tr, tr3, tr', me, t.(pc := DenyLookup), t.(pc := AllowLookup), b, b);
  }

  /** From there, with no allow remembered, to waiting for the host. */
  lemma ToWaiting(rules: Rules, tr: Trace, me: Waiter, id: string) returns (tr': Trace)
    requires IsTrace(rules, tr) && me in Now(tr).tasks && Now(tr).tasks[me].pc.AllowLookup? && CanMove(Now(tr).tasks[me])
    requires Now(tr).bridge.Remembered(Resolved(rules, Now(tr).tasks[me]).allowKey) != Some(Allow)
    requires id !in Now(tr).requestIds && InItsTurn(Now(tr).bridge, Now(tr).tasks[me])
    ensures var t, b := Now(tr).tasks[me], Now(tr).bridge;
      Worked(rules, tr, tr', me, t.(pc := Waiting, request := Some(id)),
             b.(pending := b.pending[id := PendingRequest(t.capture.value.session, me)]))
    ensures Now(tr').requestIds == Now(tr).requestIds + {id}
  {
    var t, b := Now(tr).tasks[me], Now(tr).bridge;
    var b' := b.(pending := b.pending[id := PendingRequest(t.capture.value.session, me)]);
    var tr1 := TakeAllowLookup(rules, tr, me);
    var tr2 := TakeRegister(rules, tr1, me, id);
    AndThen(rules, tr, tr1, tr2, me, t.(pc := Registering), t.(pc := Sending, request := Some(id)), b, b');
    tr' := TakeSend(rules, tr2, me);
    AndThen(rules, tr, tr2, tr', me, t.(pc := Sending, request := Some(id)), t.(pc := Waiting, request := Some(id)), b', b');
  }

  // ------------------------------------------------------- what is around them

  lemma Begin(rules: Rules, session: string) returns (tr: Trace)
    ensures IsTrace(rules, tr)
    ensures Now(tr) == START.(bridge := START.bridge.(active := Some(session), generation := 1), turn := Running(session, 1))
  {
    var start := Trace([START], []);
    tr := Extend(rules, start, StartTurn(session), Next(rules, START, StartTurn(session)).value);
    assert START.bridge.Settle({}, Abandoned).pending == map[];
    assert START.bridge.Settle({}, Abandoned).delivered == map[];
  }

  lemma Accepts(rules: Rules, tr: Trace) returns (tr': Trace)
    requires IsTrace(rules, tr) && |Now(tr).tasks| < MAX_CONNECTIONS
    ensures IsTrace(rules, tr') && Extends(tr, tr')
    ensures var s := Now(tr); Now(tr') == s.(tasks := s.tasks[s.accepted := NEWBORN], accepted := s.accepted + 1)
  {
    tr' := Extend(rules, tr, Accept, Next(rules, Now(tr), Accept).value);
  }

  lemma Replies(rules: Rules, tr: Trace, id: string, result: Value) returns (tr': Trace)
    requires IsTrace(rules, tr) && id in Now(tr).bridge.pending && REQUEST_ID_PREFIX <= id
    ensures IsTrace(rules, tr') && Extends(tr, tr')
    ensures var s := Now(tr);
      Now(tr') == s.(bridge := s.bridge.(pending := s.bridge.pending - {id},
                                         delivered := s.bridge.delivered[s.bridge.pending[id].waiter := Host(result)]))
  {
    var b := Now(tr).bridge;
    tr' := Extend(rules, tr, HostReplies(Text(id), Some(result)), Next(rules, Now(tr), HostReplies(Text(id), Some(result))).value);
    assert Waiters(b.pending, {id}) == {b.pending[id].waiter};
    assert b.delivered + Sent(Waiters(b.pending, {id}), Host(result)) == b.delivered[b.pending[id].waiter := Host(result)];
  }

  // ------------------------------------------------ an allow stored over a deny

  const ID0 := REQUEST_ID_PREFIX + "0"
  const ID1 := REQUEST_ID_PREFIX + "1"

  /** A call that nothing but a remembered answer or the host decides. */
  ghost predicate IsOpen(rules: Rules, call: HookCall) {
    !rules.targetsHookRoot(call.args) && !rules.autoAllows(call.tool)
  }

  function Asker(session: string, call: HookCall, pc: PC, id: string): Task {
    Task(pc, call, Some(Capture(session, 1)), Some(id))
  }

  function Opened(session: string): BridgeState {
    START.bridge.(active := Some(session), generation := 1)
  }

  function Pending(session: string): map<string, PendingRequest> {
    map[ID0 := PendingRequest(session, 0), ID1 := PendingRequest(session, 1)]
  }

  lemma IdsDiffer()
    ensures ID0 != ID1
  {
    assert ID0[|REQUEST_ID_PREFIX|] != ID1[|REQUEST_ID_PREFIX|];
  }

  lemma TwoBorn(rules: Rules, session: string) returns (tr: Trace)
    ensures IsTrace(rules, tr) && Now(tr).turn == Running(session, 1) && Now(tr).requestIds == {}
    ensures Now(tr).tasks == map[0 := NEWBORN, 1 := NEWBORN] && Now(tr).bridge == Opened(session)
  {
    tr := Begin(rules, session);
    tr := Accepts(rules, tr);
    tr := Accepts(rules, tr);
  }

  /** Two tasks with one call have both looked it up, and found nothing. */
  lemma BothLook(rules: Rules, session: string, call: HookCall, resolve: Resolver) returns (tr: Trace)
    requires IsOpen(rules, call)
    ensures IsTrace(rules, tr) && Now(tr).turn == Running(session, 1) && Now(tr).requestIds == {}
    ensures var t := Task(AllowLookup, call, Some(Capture(session, 1)), None); Now(tr).tasks == map[0 := t, 1 := t]
    ensures Now(tr).bridge == Opened(session)
  {
    tr := TwoBorn(rules, session);
    tr := ToLookup(rules, tr, 0, session, call, resolve);
    tr := ToLookup(rules, tr, 1, session, call, resolve);
  }

  /** Both wait for the host. */
  lemma BothWait(rules: Rules, session: string, call: HookCall, resolve: Resolver) returns (tr: Trace)
    requires IsOpen(rules, call)
    ensures IsTrace(rules, tr) && Now(tr).turn == Running(session, 1)
    ensures Now(tr).tasks == map[0 := Asker(session, call, Waiting, ID0), 1 := Asker(session, call, Waiting, ID1)]
    ensures Now(tr).bridge == Opened(session).(pending := Pending(session))
  {
    tr := BothLook(rules, session, call, resolve);
    IdsDiffer();
    tr := ToWaiting(rules, tr, 0, ID0);
    tr := ToWaiting(rules, tr, 1, ID1);
  }

  /** The host has answered both. */
  lemma BothAnswered(rules: Rules, session: string, call: HookCall, resolve: Resolver, no: Value, yes: Value)
    returns (tr: Trace)
    requires IsOpen(rules, call)
    ensures IsTrace(rules, tr) && Now(tr).turn == Running(session, 1)
    ensures Now(tr).tasks == map[0 := Asker(session, call, Waiting, ID0), 1 := Asker(session, call, Waiting, ID1)]
    ensures Now(tr).bridge == Opened(session).(delivered := map[0 := Host(no), 1 := Host(yes)])
  {
    tr := BothWait(rules, session, call, resolve);
    IdsDiffer();
    tr := Replies(rules, tr, ID0, no);
    tr := Replies(rules, tr, ID1, yes);
    assert Pending(session) - {ID0} - {ID1} == map[];
  }

  /** The rejected task stores its deny. */
  lemma DenyStored(rules: Rules, tr: Trace, session: string, call: HookCall, no: Value) returns (tr': Trace)
    requires IsTrace(rules, tr) && rules.verdict(no) == RejectAlways && 0 in Now(tr).tasks
    requires Now(tr).tasks[0] == Asker(session, call, Waiting, ID0) && Now(tr).bridge.generation == 1
    requires 0 in Now(tr).bridge.delivered && Now(tr).bridge.delivered[0] == Host(no)
    ensures var key := rules.resolve(session, call.tool, call.args).fingerprintKey; var b := Now(tr).bridge;
      Worked(rules, tr, tr', 0, Asker(session, call, Replied(Deny), ID0),
             b.(refused := true, always := b.always[key := Deny]))
  {
    var t, b := Now(tr).tasks[0], Now(tr).bridge;
    var tr1 := TakeAnswer(rules, tr, 0, no);
    var tr2 := TakeReject(rules, tr1, 0);
    AndThen(rules, tr, tr1, tr2, 0, t.(pc := MarkRejected(true)), t.(pc := Storing(Deny)), b, b.(refused := true));
    tr' := TakeStore(rules, tr2, 0, Deny);
    AndThen(rules, tr, tr2, tr', 0, t.(pc := Storing(Deny)), t.(pc := Replied(Deny)), b.(refused := true), Now(tr').bridge);
  }

  /** The allowed task stores its allow. */
  lemma AllowStored(rules: Rules, tr: Trace, me: Waiter, id: string, session: string, call: HookCall, yes: Value)
    returns (tr': Trace)
    requires IsTrace(rules, tr) && rules.verdict(yes) == AllowAlways && me in Now(tr).tasks
    requires Now(tr).tasks[me] == Asker(session, call, Waiting, id) && Now(tr).bridge.generation == 1
    requires me in Now(tr).bridge.delivered && Now(tr).bridge.delivered[me] == Host(yes)
    ensures var key := rules.resolve(session, call.tool, call.args).allowKey; var b := Now(tr).bridge;
      Worked(rules, tr, tr', me, Asker(session, call, Replied(Allow), id), b.(always := b.always[key := Allow]))
  {
    var t, b := Now(tr).tasks[me], Now(tr).bridge;
    var tr1 := TakeAnswer(rules, tr, me, yes);
    tr' := TakeStore(rules, tr1, me, Allow);
    AndThen(rules, tr, tr1, tr', me, t.(pc := Storing(Allow)), t.(pc := Replied(Allow)), b, Now(tr').bridge);
  }

  /**
   For every call keyed by its exact arguments, there is a run in which two tasks ask about it at
   once, one answer stores a deny (remembered at step `d`), and the other stores an allow over it
   (at step `w`), while nothing is forgotten and the turn goes on.
   */
  lemma DenyCanBeOverwritten(rules: Rules, session: string, call: HookCall, resolve: Resolver, no: Value, yes: Value)
    returns (tr: Trace, d: nat, w: nat)
    requires IsOpen(rules, call) && rules.verdict(no) == RejectAlways && rules.verdict(yes) == AllowAlways
    requires var resolved := rules.resolve(session, call.tool, call.args); resolved.allowKey == resolved.fingerprintKey
    ensures var key := rules.resolve(session, call.tool, call.args).fingerprintKey;
      && IsTrace(rules, tr) && d < |tr.run| - 1
      && tr.run[d].bridge.Remembered(key) == Some(Deny) && Now(tr).bridge.Remembered(key) == Some(Allow)
      && d <= w < |tr.events| && Stores(rules, tr.run[w], tr.events[w], key, Allow)
      && Now(tr).bridge.generation == tr.run[d].bridge.generation
  {
    tr := BothAnswered(rules, session, call, resolve, no, yes);
    tr := DenyStored(rules, tr, session, call, no);
    d := |tr.run| - 1;
    tr := AllowStored(rules, tr, 1, ID1, session, call, yes);
    w := LastWrite(rules, tr, |tr.run| - 1, rules.resolve(session, call.tool, call.args).fingerprintKey);
  }

  // --------------------------------------------- an allow given after its turn

  /** A call that a remembered allow decides, as far as its arguments and paths go. */
  ghost predicate IsContained(rules: Rules, session: string, call: HookCall, resolve: Resolver) {
    var judge, classified := Judge(resolve, [], rules.sensitive), rules.resolve(session, call.tool, call.args).classified;
    && !rules.escapes(judge, call.args)
    && (classified.Some? ==> !rules.pathsEscape(judge, classified.value.paths, call.args))
  }

  lemma OneWaits(rules: Rules, session: string, call: HookCall, resolve: Resolver) returns (tr: Trace)
    requires IsOpen(rules, call)
    ensures IsTrace(rules, tr) && Now(tr).turn == Running(session, 1) && Now(tr).accepted == 1
    ensures Now(tr).tasks == map[0 := Asker(session, call, Waiting, ID0)]
    ensures Now(tr).bridge == Opened(session).(pending := map[ID0 := PendingRequest(session, 0)])
  {
    tr := Begin(rules, session);
    tr := Accepts(rules, tr);
    tr := ToLookup(rules, tr, 0, session, call, resolve);
    tr := ToWaiting(rules, tr, 0, ID0);
  }

  /** The host allowed a call for good, and another task with it has come. */
  lemma AllowRemembered(rules: Rules, session: string, call: HookCall, resolve: Resolver, yes: Value) returns (tr: Trace)
    requires IsOpen(rules, call) && rules.verdict(yes) == AllowAlways
    ensures IsTrace(rules, tr) && Now(tr).turn == Running(session, 1) && 1 in Now(tr).tasks && Now(tr).tasks[1] == NEWBORN
    ensures Now(tr).bridge == Opened(session).(delivered := map[0 := Host(yes)],
              always := map[rules.resolve(session, call.tool, call.args).allowKey := Allow])
  {
    tr := OneWaits(rules, session, call, resolve);
    tr := Replies(rules, tr, ID0, yes);
    assert map[ID0 := PendingRequest(session, 0)] - {ID0} == map[];
    tr := AllowStored(rules, tr, 0, ID0, session, call, yes);
    tr := Accepts(rules, tr);
  }

  /** It found the allow, and its arguments contained; what is left is its paths. */
  lemma AtPaths(rules: Rules, session: string, call: HookCall, resolve: Resolver, yes: Value) returns (tr: Trace)
    requires IsOpen(rules, call) && rules.verdict(yes) == AllowAlways && IsContained(rules, session, call, resolve)
    ensures IsTrace(rules, tr) && Now(tr).turn == Running(session, 1) && Now(tr).bridge.generation == 1
    ensures Now(tr).bridge.roots == [] && 1 in Now(tr).tasks
    ensures Now(tr).tasks[1] == Task(CheckPaths, call, Some(Capture(session, 1)), None)
  {
    tr := AllowRemembered(rules, session, call, resolve, yes);
    tr := ToLookup(rules, tr, 1, session, call, resolve);
    tr := TakeAllowLookup(rules, tr, 1);
    tr := TakeArgs(rules, tr, 1, resolve);
  }

  lemma EndsTurn(rules: Rules, tr: Trace) returns (tr': Trace)
    requires IsTrace(rules, tr) && Now(tr).turn.Running?
    ensures IsTrace(rules, tr') && Now(tr').tasks == Now(tr).tasks && Now(tr').bridge.roots == Now(tr).bridge.roots
    ensures Now(tr').bridge.generation == Now(tr).bridge.generation + 1
  {
    var tr1 := Extend(rules, tr, ReadFlag, Next(rules, Now(tr), ReadFlag).value);
    tr' := Extend(rules, tr1, ClearActive, Next(rules, Now(tr1), ClearActive).value);
  }

  /**
   For every call that a remembered allow can decide, there is a run in which its turn ends between
   the check of its arguments and that of its paths, and it is allowed from memory all the same.
   */
  lemma AllowCanBeLate(rules: Rules, session: string, call: HookCall, resolve: Resolver, yes: Value)
    returns (tr: Trace, p: nat)
    requires IsOpen(rules, call) && rules.verdict(yes) == AllowAlways && IsContained(rules, session, call, resolve)
    ensures IsTrace(rules, tr) && p + 1 == |tr.events| && tr.events[p] == Step(1, Files(resolve))
    ensures 1 in tr.run[p].tasks && tr.run[p].tasks[1].pc.CheckPaths? && !InItsTurn(tr.run[p].bridge, tr.run[p].tasks[1])
    ensures 1 in Now(tr).tasks && Now(tr).tasks[1].pc == Replied(Allow)
  {
    var tr1 := AtPaths(rules, session, call, resolve, yes);
    tr1 := EndsTurn(rules, tr1);
    AllowIgnoresTurn(rules, Now(tr1), 1, resolve);
    tr := Extend(rules, tr1, Step(1, Files(resolve)), Next(rules, Now(tr1), Step(1, Files(resolve))).value);
    p := |tr.events| - 1;
  }

  // ------------------------------------------------------ both, with plain inputs

  function Selected(option: string): Value {
    Object([Field("outcome", Object([Field("outcome", Text("selected")), Field("optionId", Text(option))]))])
  }

  lemma SelectedVerdict(option: string)
    ensures VerdictOf(Selected(option)) ==
      if option == "allow_once" then AllowOnce else if option == "allow_always" then AllowAlways
      else if option == "reject_always" then RejectAlways else RejectOnce
  {
    var fields := [Field("outcome", Text("selected")), Field("optionId", Text(option))];
    assert Lookup(fields[1..], "optionId") == Some(Text(option));
    assert Get(Object(fields), "optionId") == Some(Text(option));
    assert Get(Object(fields), "outcome") == Some(Text("selected"));
    assert Get(Selected(option), "outcome") == Some(Object(fields));
  }

  /** An empty policy, and a web search without arguments. */
  const POLICY := Policy([], path => false)
  const SEARCH := HookCall("conversation", "search_web", Object([]))

  lemma NoArgumentsContained(judge: Judge)
    ensures !EscapesContainment(judge, Object([])) && StringArgs(Object([])) == []
  {
    assert StringArgs(Object([])) == [] && PathFieldArgs(Object([])) == [];
    NothingOutsideIff(judge.resolve, Object([]), judge.roots);
  }

  lemma SearchKeys(session: string)
    ensures var resolved := Resolve([], session, "search_web", Object([]));
      && resolved.classified.None? && resolved.allowKey == resolved.fingerprintKey
      && resolved.fingerprintKey == AlwaysKey(session, "search_web", Some(ArgsFingerprint(Object([]))))
  {
    assert KindOf("search_web").Fetch?;
  }

  lemma SearchIsPlain(session: string, resolve: Resolver)
    ensures var rules := BridgeRules([], POLICY, None);
      && IsOpen(rules, SEARCH) && IsContained(rules, session, SEARCH, resolve)
      && rules.resolve(session, SEARCH.tool, SEARCH.args).allowKey ==
         rules.resolve(session, SEARCH.tool, SEARCH.args).fingerprintKey
  {
    SearchKeys(session);
    NoArgumentsContained(Judge(resolve, [], POLICY.sensitive));
  }

  lemma SearchDenyOverwritten(resolve: Resolver) returns (tr: Trace, d: nat, w: nat)
    ensures var rules := BridgeRules([], POLICY, None);
      var key := AlwaysKey("session", "search_web", Some(ArgsFingerprint(Object([]))));
      && IsTrace(rules, tr) && d < |tr.run| - 1
      && tr.run[d].bridge.Remembered(key) == Some(Deny) && Now(tr).bridge.Remembered(key) == Some(Allow)
      && d <= w < |tr.events| && Stores(rules, tr.run[w], tr.events[w], key, Allow)
  {
    SearchIsPlain("session", resolve);
    SearchKeys("session");
    SelectedVerdict("reject_always");
    SelectedVerdict("allow_always");
    tr, d, w := DenyCanBeOverwritten(BridgeRules([], POLICY, None), "session", SEARCH, resolve,
                                  Selected("reject_always"), Selected("allow_always"));
  }

  lemma SearchAllowedLate(resolve: Resolver) returns (tr: Trace, p: nat)
    ensures IsTrace(BridgeRules([], POLICY, None), tr) && p + 1 == |tr.events| && StepsTask(tr.events[p], 1)
    ensures 1 in tr.run[p].tasks && !InItsTurn(tr.run[p].bridge, tr.run[p].tasks[1])
    ensures 1 in Now(tr).tasks && Now(tr).tasks[1].pc == Replied(Allow)
  {
    SearchIsPlain("session", resolve);
    SelectedVerdict("allow_always");
    tr, p := AllowCanBeLate(BridgeRules([], POLICY, None), "session", SEARCH, resolve, Selected("allow_always"));
  }
}
