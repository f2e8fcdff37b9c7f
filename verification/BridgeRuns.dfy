/**
 Whole runs with their events: what a remembered answer goes back to and what can overturn it, why
 a refusal was one, and in whose turn a reply is given.
 */
module BridgeRuns {
  import opened Options
  import opened Json
  import opened SafeCommand
  import opened StickyRules
  import opened PathRules
  import opened Bridge
  import opened BridgeProtocol

  /** A run and the events between its states. */
  datatype Trace = Trace(run: seq<System>, events: seq<Event>)

  ghost predicate IsTrace(rules: Rules, tr: Trace) {
    && |tr.run| == |tr.events| + 1 && tr.run[0] == START
    && forall k | 0 <= k < |tr.events| :: Goes(rules, tr, k)
  }

  ghost predicate Goes(rules: Rules, tr: Trace, k: nat)
    requires k < |tr.events| && k + 1 < |tr.run|
  {
    Next(rules, tr.run[k], tr.events[k]) == Some(tr.run[k + 1])
  }

  lemma TraceIsRun(rules: Rules, tr: Trace)
    requires IsTrace(rules, tr)
    ensures IsRun(rules, tr.run)
  {
    forall i | 0 < i < |tr.run|
      ensures Follows(rules, tr.run[i - 1], tr.run[i])
    {
      assert Goes(rules, tr, i - 1);
    }
  }

  // ------------------------------------------------------- what one event does

  predicate IsTurnEdge(e: Event) {
    e.StartTurn? || e.SpawnFails? || e.ClearActive?
  }

  lemma GenerationStep(rules: Rules, s: System, e: Event, s': System)
    requires Next(rules, s, e) == Some(s')
    ensures s'.bridge.generation == s.bridge.generation + if IsTurnEdge(e) then 1 else 0
  {
    if e.Step? {
      PerformKeeps(s.bridge, Advance(rules, s.bridge, e.task, s.tasks[e.task], e.choice).value.section);
    }
  }

  /** A task puts its decision under a key: it stores, in its own turn. */
  ghost predicate Stores(rules: Rules, s: System, e: Event, key: AlwaysKey, decision: Decision) {
    && e.Step? && e.task in s.tasks
    && var t := s.tasks[e.task];
       t.pc == Storing(decision) && t.capture.Some? && InItsTurn(s.bridge, t) && StoredKey(rules, t, decision) == key
  }

  /** Only a store or a forget changes what is remembered under a key, and this is how. */
  lemma RememberedStep(rules: Rules, s: System, e: Event, s': System, key: AlwaysKey)
    requires Next(rules, s, e) == Some(s')
    ensures s'.bridge.Remembered(key) ==
      if e == ForgetEvicted(key.session) then None
      else if Stores(rules, s, e, key, Allow) then Some(Allow)
      else if Stores(rules, s, e, key, Deny) then Some(Deny)
      else s.bridge.Remembered(key)
  {
    if e.Step? {
      AdvanceSection(rules, s.bridge, e.task, s.tasks[e.task], e.choice);
      StoringStores(rules, s.bridge, e.task, s.tasks[e.task], e.choice);
    }
  }

  lemma StoringStores(rules: Rules, b: BridgeState, me: Waiter, t: Task, choice: Choice)
    requires CanMove(t) && Advance(rules, b, me, t, choice).Some?
    ensures t.pc.Storing? ==>
      Advance(rules, b, me, t, choice).value.section == Store(StoredKey(rules, t, t.pc.decision), t.pc.decision, t.capture.value.turn)
  {
  }

  ghost predicate StepsTask(e: Event, me: Waiter) {
    e.Step? && e.task == me
  }

  /** A task changes by its own steps alone. */
  lemma OthersKeepTask(rules: Rules, s: System, e: Event, s': System, me: Waiter)
    requires Next(rules, s, e) == Some(s') && me in s'.tasks && !StepsTask(e, me)
    ensures s'.tasks[me].pc.Reading? || (me in s.tasks && s'.tasks[me] == s.tasks[me])
  {
  }

  lemma OwnStep(rules: Rules, s: System, e: Event, s': System)
    requires Next(rules, s, e) == Some(s') && e.Step?
    ensures e.task in s.tasks && CanMove(s.tasks[e.task]) && e.task in s'.tasks
    ensures var m := Advance(rules, s.bridge, e.task, s.tasks[e.task], e.choice);
      m.Some? && s'.tasks[e.task] == m.value.task && s'.log == s.log + m.value.entries
  {
  }

  // ------------------------------------------------------------ along the run

  /** The last step that a task took itself; from then on it is as it was. */
  lemma {:induction false} LastOwnStep(rules: Rules, tr: Trace, p: nat, me: Waiter) returns (m: nat)
    requires IsTrace(rules, tr) && p < |tr.run| && me in tr.run[p].tasks && !tr.run[p].tasks[me].pc.Reading?
    ensures m < p && StepsTask(tr.events[m], me) && me in tr.run[m].tasks
    ensures me in tr.run[m + 1].tasks && tr.run[m + 1].tasks[me] == tr.run[p].tasks[me]
    ensures CanMove(tr.run[m].tasks[me])
    ensures var moved := Advance(rules, tr.run[m].bridge, me, tr.run[m].tasks[me], tr.events[m].choice);
      moved.Some? && moved.value.task == tr.run[p].tasks[me]
  {
    assert p > 0;
    assert Goes(rules, tr, p - 1);
    if StepsTask(tr.events[p - 1], me) {
      OwnStep(rules, tr.run[p - 1], tr.events[p - 1], tr.run[p]);
      m := p - 1;
    } else {
      OthersKeepTask(rules, tr.run[p - 1], tr.events[p - 1], tr.run[p], me);
      m := LastOwnStep(rules, tr, p - 1, me);
    }
  }

  /** The generation counts the turn edges. */
  lemma {:induction false} GenerationCounts(rules: Rules, tr: Trace, i: nat, j: nat)
    requires IsTrace(rules, tr) && i <= j < |tr.run|
    ensures tr.run[i].bridge.generation <= tr.run[j].bridge.generation
    ensures tr.run[i].bridge.generation == tr.run[j].bridge.generation
      <==> forall q | i <= q < j :: !IsTurnEdge(tr.events[q])
    decreases j
  {
    if i < j {
      GenerationCounts(rules, tr, i, j - 1);
      assert Goes(rules, tr, j - 1);
      GenerationStep(rules, tr.run[j - 1], tr.events[j - 1], tr.run[j]);
    }
  }

  // ------------------------------------------------------ remembered answers

  /** What is remembered was stored, and has been remembered ever since. */
  lemma {:induction false} LastWrite(rules: Rules, tr: Trace, p: nat, key: AlwaysKey) returns (w: nat)
    requires IsTrace(rules, tr) && p < |tr.run| && tr.run[p].bridge.Remembered(key).Some?
    ensures w < p && Stores(rules, tr.run[w], tr.events[w], key, tr.run[p].bridge.Remembered(key).value)
    ensures forall q | w < q <= p :: tr.run[q].bridge.Remembered(key) == tr.run[p].bridge.Remembered(key)
    ensures forall q | w <= q < p :: tr.events[q] != ForgetEvicted(key.session)
  {
    assert p > 0;
    assert Goes(rules, tr, p - 1);
    RememberedStep(rules, tr.run[p - 1], tr.events[p - 1], tr.run[p], key);
    if Stores(rules, tr.run[p - 1], tr.events[p - 1], key, tr.run[p].bridge.Remembered(key).value) {
      w := p - 1;
    } else {
      w := LastWrite(rules, tr, p - 1, key);
    }
  }

  /** What ends a deny: its session is forgotten, or an allow is stored over it. */
  ghost predicate Overturns(rules: Rules, s: System, e: Event, key: AlwaysKey) {
    e == ForgetEvicted(key.session) || Stores(rules, s, e, key, Allow)
  }

  /** A remembered deny stands throughout exactly when its session is not forgotten and no allow is stored at its key. */
  lemma {:induction false} DenyStandsIff(rules: Rules, tr: Trace, i: nat, j: nat, key: AlwaysKey)
    requires IsTrace(rules, tr) && i <= j < |tr.run| && tr.run[i].bridge.Remembered(key) == Some(Deny)
    ensures (forall q | i <= q <= j :: tr.run[q].bridge.Remembered(key) == Some(Deny))
      <==> (forall q | i <= q < j :: !Overturns(rules, tr.run[q], tr.events[q], key))
    decreases j
  {
    if i < j {
      DenyStandsIff(rules, tr, i, j - 1, key);
      assert Goes(rules, tr, j - 1);
      RememberedStep(rules, tr.run[j - 1], tr.events[j - 1], tr.run[j], key);
    }
  }

  /** Past its first lookup, which found no deny. */
  predicate PastLookup(pc: PC) {
    HoldsCapture(pc) && !pc.HookCheck? && !pc.AutoAllow? && !pc.DenyLookup? && !pc.MarkRemembered?
  }

  /** A step of a task from its own lookup, which saw no deny, into the rest of the cascade. */
  ghost predicate SawNoDeny(rules: Rules, s: System, me: Waiter, t: Task) {
    && me in s.tasks && s.tasks[me].pc.DenyLookup? && t.capture.Some?
    && s.tasks[me].capture == t.capture && s.tasks[me].call == t.call
    && s.bridge.Remembered(Resolved(rules, t).fingerprintKey) != Some(Deny)
  }

  lemma PastStep(rules: Rules, b: BridgeState, me: Waiter, t: Task, choice: Choice)
    requires CanMove(t) && Advance(rules, b, me, t, choice).Some?
    requires PastLookup(Advance(rules, b, me, t, choice).value.task.pc)
    ensures var t' := Advance(rules, b, me, t, choice).value.task;
      && t'.call == t.call && t'.capture == t.capture && t.capture.Some?
      && (PastLookup(t.pc) || (t.pc.DenyLookup? && b.Remembered(Resolved(rules, t).fingerprintKey) != Some(Deny)))
  {
  }

  /** A task that is past its lookup looked its own arguments up, and found no deny there. */
  lemma {:induction false} LookedUpAt(rules: Rules, tr: Trace, p: nat, me: Waiter) returns (m: nat)
    requires IsTrace(rules, tr) && p < |tr.run| && me in tr.run[p].tasks && PastLookup(tr.run[p].tasks[me].pc)
    ensures m < p && StepsTask(tr.events[m], me) && SawNoDeny(rules, tr.run[m], me, tr.run[p].tasks[me])
  {
    var q := LastOwnStep(rules, tr, p, me);
    PastStep(rules, tr.run[q].bridge, me, tr.run[q].tasks[me], tr.events[q].choice);
    if PastLookup(tr.run[q].tasks[me].pc) {
      m := LookedUpAt(rules, tr, q, me);
    } else {
      m := q;
    }
  }

  /** Under the bridge's own rules, an allow that is stored where a deny is remembered belongs to a
      call with the very arguments that were denied. */
  lemma OverturnedIsOwn(table: seq<ProgramDef>, policy: Policy, hookRoot: Option<string>, tr: Trace, p: nat,
                        key: AlwaysKey)
    requires IsTrace(BridgeRules(table, policy, hookRoot), tr) && p < |tr.events|
    requires tr.run[p].bridge.Remembered(key) == Some(Deny)
    requires Stores(BridgeRules(table, policy, hookRoot), tr.run[p], tr.events[p], key, Allow)
    ensures Resolved(BridgeRules(table, policy, hookRoot), tr.run[p].tasks[tr.events[p].task]).fingerprintKey == key
  {
    var rules := BridgeRules(table, policy, hookRoot);
    TraceIsRun(rules, tr);
    var e := StoredDenyIsExact(table, policy, hookRoot, tr.run, p, key);
    assert key == AlwaysKey(e.session, e.call.tool, Some(ArgsFingerprint(e.call.args)));
    var t := tr.run[p].tasks[tr.events[p].task];
    AllowAtFingerprint(table, t.capture.value.session, t.call.tool, t.call.args, e.call.args);
  }

  /** An allow key that is a fingerprint is the fingerprint of its own call. */
  lemma AllowAtFingerprint(table: seq<ProgramDef>, session: string, tool: string, args: Parsed, other: Parsed)
    ensures var resolved := Resolve(table, session, tool, args);
      resolved.allowKey.scope == Some(ArgsFingerprint(other)) ==> resolved.allowKey == resolved.fingerprintKey
  {
    StoredKeyIsKeyOfCoverage(table, session, tool, args);
    FingerprintIsNotSafe(other);
  }

  /** Once a task's lookup saw a deny, it does nothing but mark the refusal and reply deny. */
  predicate Denied(pc: PC) {
    pc.MarkRemembered? || pc == Replied(Deny)
  }

  lemma DeniedStep(rules: Rules, s: System, e: Event, s': System, me: Waiter)
    requires Next(rules, s, e) == Some(s') && DeniedAt(s, me)
    ensures DeniedAt(s', me)
  {
  }

  ghost predicate DeniedAt(s: System, me: Waiter) {
    me < s.accepted && (me in s.tasks ==> Denied(s.tasks[me].pc))
  }

  lemma {:induction false} DeniedForever(rules: Rules, tr: Trace, m: nat, p: nat, me: Waiter)
    requires IsTrace(rules, tr) && m <= p < |tr.run| && DeniedAt(tr.run[m], me)
    ensures DeniedAt(tr.run[p], me)
    decreases p
  {
    if m < p {
      DeniedForever(rules, tr, m, p - 1, me);
      assert Goes(rules, tr, p - 1);
      DeniedStep(rules, tr.run[p - 1], tr.events[p - 1], tr.run[p], me);
    }
  }

  lemma KnownTask(rules: Rules, tr: Trace, m: nat, me: Waiter)
    requires IsTrace(rules, tr) && m < |tr.run| && me in tr.run[m].tasks
    ensures me < tr.run[m].accepted
  {
    TraceIsRun(rules, tr);
    RunKeepsInvariant(rules, tr.run, m);
    assert TaskOk(tr.run[m].bridge, tr.run[m].accepted, tr.run[m].requestIds, me, tr.run[m].tasks[me]);
  }

  lemma LookupDenies(rules: Rules, s: System, e: Event, s': System)
    requires Next(rules, s, e) == Some(s') && e.Step? && e.task in s.tasks && e.task < s.accepted
    requires s.tasks[e.task].capture.Some?
    requires s.tasks[e.task].pc == Storing(Deny)
             || (s.tasks[e.task].pc.DenyLookup?
                 && s.bridge.Remembered(Resolved(rules, s.tasks[e.task]).fingerprintKey) == Some(Deny))
    ensures DeniedAt(s', e.task)
  {
  }

  /** So a call whose lookup sees the deny can never replace it: it stores nothing at all. */
  lemma SeenDenyIsFinal(rules: Rules, tr: Trace, m: nat, p: nat, me: Waiter)
    requires IsTrace(rules, tr) && m < p < |tr.run| && StepsTask(tr.events[m], me)
    requires me in tr.run[m].tasks && tr.run[m].tasks[me].pc.DenyLookup? && tr.run[m].tasks[me].capture.Some?
    requires tr.run[m].bridge.Remembered(Resolved(rules, tr.run[m].tasks[me]).fingerprintKey) == Some(Deny)
    ensures me in tr.run[p].tasks ==> Denied(tr.run[p].tasks[me].pc)
  {
    KnownTask(rules, tr, m, me);
    assert Goes(rules, tr, m);
    LookupDenies(rules, tr.run[m], tr.events[m], tr.run[m + 1]);
    DeniedForever(rules, tr, m + 1, p, me);
  }

  /** Neither does a task that stored the deny itself. */
  lemma StoredOnce(rules: Rules, tr: Trace, w: nat, p: nat, key: AlwaysKey)
    requires IsTrace(rules, tr) && w < p < |tr.run| && Stores(rules, tr.run[w], tr.events[w], key, Deny)
    ensures var me := tr.events[w].task; me in tr.run[p].tasks ==> Denied(tr.run[p].tasks[me].pc)
  {
    KnownTask(rules, tr, w, tr.events[w].task);
    assert Goes(rules, tr, w);
    LookupDenies(rules, tr.run[w], tr.events[w], tr.run[w + 1]);
    DeniedForever(rules, tr, w + 1, p, tr.events[w].task);
  }

  /**
   A remembered deny can be overwritten only in a race: the task that stores the allow had looked
   the denied arguments up before the deny was stored.  (`w` stored the deny, `m` looked up.)
   */
  lemma OverwriterLookedBefore(table: seq<ProgramDef>, policy: Policy, hookRoot: Option<string>, tr: Trace, p: nat,
                               key: AlwaysKey) returns (m: nat, w: nat)
    requires IsTrace(BridgeRules(table, policy, hookRoot), tr) && p < |tr.events|
    requires tr.run[p].bridge.Remembered(key) == Some(Deny)
    requires Stores(BridgeRules(table, policy, hookRoot), tr.run[p], tr.events[p], key, Allow)
    ensures var rules := BridgeRules(table, policy, hookRoot);
      && m < w < p && StepsTask(tr.events[m], tr.events[p].task)
      && SawNoDeny(rules, tr.run[m], tr.events[p].task, tr.run[p].tasks[tr.events[p].task])
      && Stores(rules, tr.run[w], tr.events[w], key, Deny) && tr.events[w].task != tr.events[p].task
      && forall q | w < q <= p :: tr.run[q].bridge.Remembered(key) == Some(Deny)
  {
    var rules := BridgeRules(table, policy, hookRoot);
    var me := tr.events[p].task;
    OverturnedIsOwn(table, policy, hookRoot, tr, p, key);
    m := LookedUpAt(rules, tr, p, me);
    w := LastWrite(rules, tr, p, key);
    StoredOnce(rules, tr, w, p, key);
  }

  /** An allow stored at the key by a task that had looked it up before the deny was there. */
  ghost predicate Raced(rules: Rules, tr: Trace, q: nat, key: AlwaysKey)
    requires IsTrace(rules, tr) && q < |tr.events|
  {
    && Stores(rules, tr.run[q], tr.events[q], key, Allow)
    && exists m: nat, w: nat | m < w < q :: RacedBy(rules, tr, q, key, m, w)
  }

  ghost predicate RacedBy(rules: Rules, tr: Trace, q: nat, key: AlwaysKey, m: nat, w: nat)
    requires IsTrace(rules, tr) && m < w < q < |tr.events|
    requires Stores(rules, tr.run[q], tr.events[q], key, Allow)
  {
    && StepsTask(tr.events[m], tr.events[q].task)
    && SawNoDeny(rules, tr.run[m], tr.events[q].task, tr.run[q].tasks[tr.events[q].task])
    && Stores(rules, tr.run[w], tr.events[w], key, Deny)
  }

  lemma {:induction false} UnracedStands(table: seq<ProgramDef>, policy: Policy, hookRoot: Option<string>,
                                         tr: Trace, i: nat, j: nat, key: AlwaysKey)
    requires IsTrace(BridgeRules(table, policy, hookRoot), tr) && i <= j < |tr.run|
    requires tr.run[i].bridge.Remembered(key) == Some(Deny)
    requires forall q | i <= q < j ::
      tr.events[q] != ForgetEvicted(key.session) && !Raced(BridgeRules(table, policy, hookRoot), tr, q, key)
    ensures forall q | i <= q <= j :: tr.run[q].bridge.Remembered(key) == Some(Deny)
    decreases j
  {
    if i < j {
      var rules, p := BridgeRules(table, policy, hookRoot), j - 1;
      UnracedStands(table, policy, hookRoot, tr, i, p, key);
      if Stores(rules, tr.run[p], tr.events[p], key, Allow) {
        var m, w := OverwriterLookedBefore(table, policy, hookRoot, tr, p, key);
        assert RacedBy(rules, tr, p, key, m, w);
        assert Raced(rules, tr, p, key);
      }
      assert Goes(rules, tr, p);
      RememberedStep(rules, tr.run[p], tr.events[p], tr.run[j], key);
    }
  }

  /**
   Exactly when a remembered deny stands: its session is not forgotten, and no allow that raced
   with it is stored over it.
   */
  lemma DenyStandsUnlessRaced(table: seq<ProgramDef>, policy: Policy, hookRoot: Option<string>,
                              tr: Trace, i: nat, j: nat, key: AlwaysKey)
    requires IsTrace(BridgeRules(table, policy, hookRoot), tr) && i <= j < |tr.run|
    requires tr.run[i].bridge.Remembered(key) == Some(Deny)
    ensures (forall q | i <= q <= j :: tr.run[q].bridge.Remembered(key) == Some(Deny))
      <==> (forall q | i <= q < j ::
              tr.events[q] != ForgetEvicted(key.session) && !Raced(BridgeRules(table, policy, hookRoot), tr, q, key))
  {
    var rules := BridgeRules(table, policy, hookRoot);
    if forall q | i <= q <= j :: tr.run[q].bridge.Remembered(key) == Some(Deny) {
      DenyStandsIff(rules, tr, i, j, key);
      forall q | i <= q < j
        ensures tr.events[q] != ForgetEvicted(key.session) && !Raced(rules, tr, q, key)
      {
        assert !Overturns(rules, tr.run[q], tr.events[q], key);
      }
    } else if forall q | i <= q < j :: tr.events[q] != ForgetEvicted(key.session) && !Raced(rules, tr, q, key) {
      UnracedStands(table, policy, hookRoot, tr, i, j, key);
      assert false;
    }
  }

  // ------------------------------------------------------------ whose turn it is

  /** The step in which a task finds out whose turn it is. */
  ghost predicate Resolves(tr: Trace, m: nat, me: Waiter)
    requires m < |tr.events| < |tr.run|
  {
    StepsTask(tr.events[m], me) && me in tr.run[m].tasks && tr.run[m].tasks[me].pc.Resolving?
  }

  lemma CaptureStep(rules: Rules, b: BridgeState, me: Waiter, t: Task, choice: Choice)
    requires CanMove(t) && Advance(rules, b, me, t, choice).Some?
    requires Advance(rules, b, me, t, choice).value.task.capture.Some?
    ensures var t' := Advance(rules, b, me, t, choice).value.task;
      t.capture == t'.capture || (t.pc.Resolving? && t'.capture == b.CaptureTurn(t.call.conversation))
  {
  }

  lemma CapturedIsBeyond(rules: Rules, tr: Trace, p: nat, me: Waiter)
    requires IsTrace(rules, tr) && p < |tr.run| && me in tr.run[p].tasks && tr.run[p].tasks[me].capture.Some?
    ensures !tr.run[p].tasks[me].pc.Reading? && !tr.run[p].tasks[me].pc.Resolving?
  {
    TraceIsRun(rules, tr);
    RunKeepsInvariant(rules, tr.run, p);
    assert TaskOk(tr.run[p].bridge, tr.run[p].accepted, tr.run[p].requestIds, me, tr.run[p].tasks[me]);
  }

  lemma {:induction false} ResolvedAt(rules: Rules, tr: Trace, p: nat, me: Waiter) returns (m: nat)
    requires IsTrace(rules, tr) && p < |tr.run| && me in tr.run[p].tasks && tr.run[p].tasks[me].capture.Some?
    ensures m < p && Resolves(tr, m, me)
    ensures tr.run[m].bridge.generation == tr.run[p].tasks[me].capture.value.turn
    ensures tr.run[m].bridge.active == Some(tr.run[p].tasks[me].capture.value.session)
  {
    CapturedIsBeyond(rules, tr, p, me);
    var q := LastOwnStep(rules, tr, p, me);
    var t := tr.run[q].tasks[me];
    CaptureStep(rules, tr.run[q].bridge, me, t, tr.events[q].choice);
    if t.capture == tr.run[p].tasks[me].capture {
      m := ResolvedAt(rules, tr, q, me);
    } else {
      m := q;
    }
  }

  /** Once a task has resolved its turn, it never does so again. */
  ghost predicate BeyondAt(s: System, me: Waiter) {
    me < s.accepted && (me in s.tasks ==> !s.tasks[me].pc.Reading? && !s.tasks[me].pc.Resolving?)
  }

  lemma BeyondStep(rules: Rules, s: System, e: Event, s': System, me: Waiter)
    requires Next(rules, s, e) == Some(s') && me < s.accepted
    requires BeyondAt(s, me) || (StepsTask(e, me) && me in s.tasks && s.tasks[me].pc.Resolving?)
    ensures BeyondAt(s', me)
  {
  }

  lemma {:induction false} BeyondForever(rules: Rules, tr: Trace, m: nat, p: nat, me: Waiter)
    requires IsTrace(rules, tr) && m < p < |tr.run| && Resolves(tr, m, me)
    ensures BeyondAt(tr.run[p], me)
    decreases p
  {
    assert Goes(rules, tr, p - 1);
    if p - 1 == m {
      KnownTask(rules, tr, m, me);
    } else {
      BeyondForever(rules, tr, m, p - 1, me);
    }
    BeyondStep(rules, tr.run[p - 1], tr.events[p - 1], tr.run[p], me);
  }

  lemma ResolvesOnce(rules: Rules, tr: Trace, a: nat, b: nat, me: Waiter)
    requires IsTrace(rules, tr) && a < |tr.events| && b < |tr.events| && Resolves(tr, a, me) && Resolves(tr, b, me)
    ensures a == b
  {
    if a < b {
      BeyondForever(rules, tr, a, b, me);
    } else if b < a {
      BeyondForever(rules, tr, b, a, me);
    }
  }

  /** A task is in the turn it captured exactly while no turn has started or ended since it resolved it. */
  lemma InTurnIffNoEdge(rules: Rules, tr: Trace, p: nat, me: Waiter, m: nat)
    requires IsTrace(rules, tr) && p < |tr.run| && me in tr.run[p].tasks && tr.run[p].tasks[me].capture.Some?
    requires m < p && Resolves(tr, m, me)
    ensures InItsTurn(tr.run[p].bridge, tr.run[p].tasks[me]) <==> forall q | m <= q < p :: !IsTurnEdge(tr.events[q])
  {
    var r := ResolvedAt(rules, tr, p, me);
    ResolvesOnce(rules, tr, m, r, me);
    GenerationCounts(rules, tr, m, p);
  }

  lemma AllowStep(rules: Rules, b: BridgeState, me: Waiter, t: Task, choice: Choice)
    requires CanMove(t) && Advance(rules, b, me, t, choice).Some?
    requires Advance(rules, b, me, t, choice).value.task.pc == Replied(Allow)
    ensures t.capture.Some? && (t.pc.AutoAllow? || t.pc.CheckPaths? || t.pc.Waiting? || t.pc == Storing(Allow))
  {
  }

  /**
   Every way to reply allow: automatically, from memory, once, or always.  The reply is given in the
   task's own turn exactly when no turn started or ended since the task resolved it, at step `m`.
   */
  lemma AllowInTurnIff(rules: Rules, tr: Trace, p: nat) returns (m: nat)
    requires IsTrace(rules, tr) && p < |tr.events| && tr.events[p].Step? && tr.events[p].task in tr.run[p + 1].tasks
    requires tr.run[p + 1].tasks[tr.events[p].task].pc == Replied(Allow)
    ensures var me := tr.events[p].task;
      && me in tr.run[p].tasks && m < p && Resolves(tr, m, me)
      && var t := tr.run[p].tasks[me];
         && (t.pc.AutoAllow? || t.pc.CheckPaths? || t.pc.Waiting? || t.pc == Storing(Allow))
         && (InItsTurn(tr.run[p].bridge, t) <==> forall q | m <= q < p :: !IsTurnEdge(tr.events[q]))
  {
    var me := tr.events[p].task;
    assert Goes(rules, tr, p);
    OwnStep(rules, tr.run[p], tr.events[p], tr.run[p + 1]);
    AllowStep(rules, tr.run[p].bridge, me, tr.run[p].tasks[me], tr.events[p].choice);
    m := ResolvedAt(rules, tr, p, me);
    InTurnIffNoEdge(rules, tr, p, me, m);
  }

  // --------------------------------------------------------- why it was refused

  predicate Refusing(pc: PC) {
    pc.MarkRemembered? || pc.MarkTimeout? || pc.MarkDismissed? || pc.MarkRejected?
  }

  /** What makes a task refuse: a deny it finds remembered, its own timeout, or the host's answer. */
  ghost predicate IsReason(rules: Rules, s: System, me: Waiter, t: Task, choice: Choice) {
    || (t.pc.DenyLookup? && t.capture.Some? && s.bridge.Remembered(Resolved(rules, t).fingerprintKey) == Some(Deny))
    || (t.pc.Waiting? && choice.GiveUp?)
    || (t.pc.Waiting? && me in s.bridge.delivered && s.bridge.delivered[me].Host?
        && rules.verdict(s.bridge.delivered[me].result) in {Dismissed, RejectOnce, RejectAlways})
  }

  lemma RefusingStep(rules: Rules, s: System, me: Waiter, t: Task, choice: Choice)
    requires CanMove(t) && Advance(rules, s.bridge, me, t, choice).Some?
    ensures var pc := Advance(rules, s.bridge, me, t, choice).value.task.pc;
      && (Refusing(pc) ==> t.pc.TimedOut? || IsReason(rules, s, me, t, choice))
      && (pc.TimedOut? ==> IsReason(rules, s, me, t, choice))
  {
  }

  /** Nothing but the user, or silence, makes a task refuse; the bridge's own denials do not. */
  lemma RefusingHasReason(rules: Rules, tr: Trace, p: nat, me: Waiter) returns (m: nat)
    requires IsTrace(rules, tr) && p < |tr.run| && me in tr.run[p].tasks
    requires Refusing(tr.run[p].tasks[me].pc) || tr.run[p].tasks[me].pc.TimedOut?
    ensures m < p && StepsTask(tr.events[m], me) && me in tr.run[m].tasks
    ensures IsReason(rules, tr.run[m], me, tr.run[m].tasks[me], tr.events[m].choice)
    decreases if Refusing(tr.run[p].tasks[me].pc) then 1 else 0
  {
    m := LastOwnStep(rules, tr, p, me);
    RefusingStep(rules, tr.run[m], me, tr.run[m].tasks[me], tr.events[m].choice);
    if tr.run[m].tasks[me].pc.TimedOut? {
      m := RefusingHasReason(rules, tr, m, me);
    }
  }

  /** The step of a task that raises the flag of its own turn. */
  ghost predicate RaisesFlag(s: System, e: Event, task: Waiter, session: string, turn: nat) {
    && StepsTask(e, task) && task in s.tasks && Refusing(s.tasks[task].pc)
    && s.tasks[task].capture == Some(Capture(session, turn)) && s.bridge.generation == turn
  }

  lemma RefusedEntry(rules: Rules, b: BridgeState, me: Waiter, t: Task, choice: Choice, k: nat)
    requires CanMove(t) && Advance(rules, b, me, t, choice).Some?
    requires k < |Advance(rules, b, me, t, choice).value.entries|
    requires Advance(rules, b, me, t, choice).value.entries[k].Refused?
    ensures var e := Advance(rules, b, me, t, choice).value.entries[k];
      e.task == me && Refusing(t.pc) && t.capture == Some(Capture(e.session, e.turn)) && b.generation == e.turn
  {
    if t.capture.Some? {
      var Capture(session, turn) := t.capture.value;
    }
  }

  lemma RefusedStep(rules: Rules, s: System, e: Event, s': System, k: nat)
    requires Next(rules, s, e) == Some(s') && |s.log| <= k < |s'.log| && s'.log[k].Refused?
    ensures RaisesFlag(s, e, s'.log[k].task, s'.log[k].session, s'.log[k].turn)
  {
    if e.Step? {
      RefusedEntry(rules, s.bridge, e.task, s.tasks[e.task], e.choice, k - |s.log|);
    }
  }

  lemma LogGrows(rules: Rules, s: System, e: Event, s': System)
    requires Next(rules, s, e) == Some(s')
    ensures s.log <= s'.log
  {
  }

  lemma {:induction false} RefusedAt(rules: Rules, tr: Trace, i: nat, k: nat) returns (p: nat)
    requires IsTrace(rules, tr) && i < |tr.run| && k < |tr.run[i].log| && tr.run[i].log[k].Refused?
    ensures var entry := tr.run[i].log[k];
      p < i && RaisesFlag(tr.run[p], tr.events[p], entry.task, entry.session, entry.turn)
  {
    assert i > 0;
    assert Goes(rules, tr, i - 1);
    LogGrows(rules, tr.run[i - 1], tr.events[i - 1], tr.run[i]);
    if k < |tr.run[i - 1].log| {
      p := RefusedAt(rules, tr, i - 1, k);
    } else {
      RefusedStep(rules, tr.run[i - 1], tr.events[i - 1], tr.run[i], k);
      p := i - 1;
    }
  }

  /**
   A turn is reported as refused only if, during that very turn, a task of it raised the flag (at
   step `p`), and that because its lookup found a remembered deny, its request timed out, or the
   host dismissed or rejected it (at step `m`).
   */
  lemma RefusalHasReason(rules: Rules, tr: Trace, i: nat, k: nat, session: string, turn: nat)
    returns (m: nat, p: nat, task: Waiter)
    requires IsTrace(rules, tr) && i < |tr.run| && k < |tr.run[i].log|
    requires tr.run[i].log[k] == TurnReported(session, turn, Refusal)
    ensures m < p < i && RaisesFlag(tr.run[p], tr.events[p], task, session, turn)
    ensures StepsTask(tr.events[m], task) && task in tr.run[m].tasks
    ensures IsReason(rules, tr.run[m], task, tr.run[m].tasks[task], tr.events[m].choice)
  {
    TraceIsRun(rules, tr);
    var j;
    j, task := RefusalWasOfThisTurn(rules, tr.run, i, k, session, turn);
    p := RefusedAt(rules, tr, i, j);
    m := RefusingHasReason(rules, tr, p, task);
  }

  // ------------------------------------------------- what an allow goes back to

  ghost predicate SameCall(s: System, me: Waiter, t: Task) {
    me in s.tasks && s.tasks[me].call == t.call && s.tasks[me].capture == t.capture
  }

  lemma PathsStep(rules: Rules, b: BridgeState, me: Waiter, t: Task, choice: Choice)
    requires CanMove(t) && Advance(rules, b, me, t, choice).Some?
    ensures var t' := Advance(rules, b, me, t, choice).value.task;
      && (t'.pc.CheckPaths? ==>
            && t.pc.CheckArgs? && t'.call == t.call && t'.capture == t.capture
            && choice.Files? && !rules.escapes(JudgeNow(rules, b, choice.resolve), t.call.args))
      && (t'.pc.CheckArgs? ==>
            && t.pc.AllowLookup? && t'.call == t.call && t'.capture == t.capture && t.capture.Some?
            && b.Remembered(Resolved(rules, t).allowKey) == Some(Allow))
  {
  }

  lemma AlwaysStep(rules: Rules, b: BridgeState, me: Waiter, t: Task, choice: Choice)
    requires CanMove(t) && Advance(rules, b, me, t, choice).Some?
    requires Advance(rules, b, me, t, choice).value.task.pc == Storing(Allow)
    ensures var t' := Advance(rules, b, me, t, choice).value.task;
      && t.pc.Waiting? && t'.call == t.call && t'.capture == t.capture
      && me in b.delivered && b.delivered[me].Host? && rules.verdict(b.delivered[me].result) == AllowAlways
  {
  }

  /** The arguments were judged contained, with the bridge's roots and policy of that very moment. */
  ghost predicate JudgesArgs(rules: Rules, s: System, e: Event, t: Task) {
    && e.Step? && SameCall(s, e.task, t) && s.tasks[e.task].pc.CheckArgs?
    && e.choice.Files? && !rules.escapes(JudgeNow(rules, s.bridge, e.choice.resolve), t.call.args)
  }

  /** So were the paths of its command line. */
  ghost predicate JudgesPaths(rules: Rules, s: System, e: Event, t: Task) {
    && e.Step? && e.choice.Files? && t.capture.Some?
    && var classified := Resolved(rules, t).classified;
       classified.Some? ==>
         !rules.pathsEscape(JudgeNow(rules, s.bridge, e.choice.resolve), classified.value.paths, t.call.args)
  }

  lemma PathsAllow(rules: Rules, b: BridgeState, me: Waiter, t: Task, choice: Choice)
    requires CanMove(t) && t.pc.CheckPaths? && Advance(rules, b, me, t, choice).Some?
    requires Advance(rules, b, me, t, choice).value.task.pc == Replied(Allow)
    ensures choice.Files? && t.capture.Some?
    ensures var classified := Resolved(rules, t).classified;
      classified.Some? ==> !rules.pathsEscape(JudgeNow(rules, b, choice.resolve), classified.value.paths, t.call.args)
  {
  }

  /** The allow was found remembered. */
  ghost predicate FindsAllow(rules: Rules, s: System, e: Event, t: Task) {
    && e.Step? && SameCall(s, e.task, t) && s.tasks[e.task].pc.AllowLookup? && t.capture.Some?
    && s.bridge.Remembered(Resolved(rules, t).allowKey) == Some(Allow)
  }

  /** The host answered that the call is always allowed. */
  ghost predicate AnswersAlways(rules: Rules, s: System, e: Event, t: Task) {
    && e.Step? && SameCall(s, e.task, t) && s.tasks[e.task].pc.Waiting?
    && e.task in s.bridge.delivered && s.bridge.delivered[e.task].Host?
    && rules.verdict(s.bridge.delivered[e.task].result) == AllowAlways
  }

  lemma BackToArgs(rules: Rules, tr: Trace, p: nat, me: Waiter) returns (c: nat, l: nat)
    requires IsTrace(rules, tr) && p < |tr.run| && me in tr.run[p].tasks && tr.run[p].tasks[me].pc.CheckPaths?
    ensures l < c < p && StepsTask(tr.events[c], me) && StepsTask(tr.events[l], me)
    ensures JudgesArgs(rules, tr.run[c], tr.events[c], tr.run[p].tasks[me])
    ensures FindsAllow(rules, tr.run[l], tr.events[l], tr.run[p].tasks[me])
  {
    c := LastOwnStep(rules, tr, p, me);
    PathsStep(rules, tr.run[c].bridge, me, tr.run[c].tasks[me], tr.events[c].choice);
    l := LastOwnStep(rules, tr, c, me);
    PathsStep(rules, tr.run[l].bridge, me, tr.run[l].tasks[me], tr.events[l].choice);
  }

  lemma BackToAnswer(rules: Rules, tr: Trace, w: nat, key: AlwaysKey) returns (a: nat)
    requires IsTrace(rules, tr) && w < |tr.events| && Stores(rules, tr.run[w], tr.events[w], key, Allow)
    ensures a < w && StepsTask(tr.events[a], tr.events[w].task)
    ensures AnswersAlways(rules, tr.run[a], tr.events[a], tr.run[w].tasks[tr.events[w].task])
  {
    var me := tr.events[w].task;
    a := LastOwnStep(rules, tr, w, me);
    AlwaysStep(rules, tr.run[a].bridge, me, tr.run[a].tasks[me], tr.events[a].choice);
  }

  /**
   Where an allow from memory at step `p` comes from.  The host answered (at `a`) that a call is
   always allowed; that was stored (at `w`) in that call's own turn and not forgotten, nor
   overwritten, until it was found (at `l`); the answer covers this call; no deny was found for its
   own arguments (at `m`); and its arguments (at `c`) and then its paths (at `p`) were judged
   contained with the bridge's workspace roots and policy of those moments.
   */
  lemma MemoryAllowGoesBack(table: seq<ProgramDef>, policy: Policy, hookRoot: Option<string>, tr: Trace, p: nat)
    returns (a: nat, w: nat, m: nat, l: nat, c: nat)
    requires IsTrace(BridgeRules(table, policy, hookRoot), tr) && p < |tr.events| && tr.events[p].Step?
    requires tr.events[p].task in tr.run[p].tasks && tr.run[p].tasks[tr.events[p].task].pc.CheckPaths?
    requires tr.events[p].task in tr.run[p + 1].tasks && tr.run[p + 1].tasks[tr.events[p].task].pc == Replied(Allow)
    ensures a < w < l < c < p && m < p
    ensures var rules, t := BridgeRules(table, policy, hookRoot), tr.run[p].tasks[tr.events[p].task];
      && FindsAllow(rules, tr.run[l], tr.events[l], t) && tr.events[l].task == tr.events[p].task
      && JudgesArgs(rules, tr.run[c], tr.events[c], t) && tr.events[c].task == tr.events[p].task
      && SawNoDeny(rules, tr.run[m], tr.events[p].task, t) && StepsTask(tr.events[m], tr.events[p].task)
      && JudgesPaths(rules, tr.run[p], tr.events[p], t)
      && var key := Resolved(rules, t).allowKey;
         && Stores(rules, tr.run[w], tr.events[w], key, Allow)
         && (forall q | w < q <= l :: tr.run[q].bridge.Remembered(key) == Some(Allow))
         && (forall q | w <= q < l :: tr.events[q] != ForgetEvicted(key.session))
         && var o := tr.run[w].tasks[tr.events[w].task];
            && AnswersAlways(rules, tr.run[a], tr.events[a], o) && tr.events[a].task == tr.events[w].task
            && o.capture.value.session == t.capture.value.session && o.call.tool == t.call.tool
            && CoverageOf(table, o.call.tool, o.call.args) == CoverageOf(table, t.call.tool, t.call.args)
  {
    var rules, me := BridgeRules(table, policy, hookRoot), tr.events[p].task;
    c, l := BackToArgs(rules, tr, p, me);
    m := LookedUpAt(rules, tr, p, me);
    var t := tr.run[p].tasks[me];
    assert Goes(rules, tr, p);
    OwnStep(rules, tr.run[p], tr.events[p], tr.run[p + 1]);
    PathsAllow(rules, tr.run[p].bridge, me, t, tr.events[p].choice);
    var key := Resolved(rules, t).allowKey;
    w := LastWrite(rules, tr, l, key);
    a := BackToAnswer(rules, tr, w, key);
    var o := tr.run[w].tasks[tr.events[w].task];
    SameKeyIffCovered(table, o.capture.value.session, o.call.tool, o.call.args,
                      t.capture.value.session, t.call.tool, t.call.args);
    KeySession(table, t.capture.value.session, t.call.tool, t.call.args);
  }

  lemma KeySession(table: seq<ProgramDef>, session: string, tool: string, args: Parsed)
    ensures Resolve(table, session, tool, args).allowKey.session == session
  {
    StoredKeyIsKeyOfCoverage(table, session, tool, args);
  }

  /** Judged where nothing resolves, every argument read as a path lands at or below a registered root. */
  lemma JudgedArgsLand(table: seq<ProgramDef>, policy: Policy, hookRoot: Option<string>, s: System, e: Event, t: Task,
                       path: string) returns (root: string)
    requires JudgesArgs(BridgeRules(table, policy, hookRoot), s, e, t) && IsJudged(t.call.args, path)
    requires forall r | r in s.bridge.roots :: IsAbsolute(r)
    requires forall p :: e.choice.resolve(p).None?
    ensures root in s.bridge.roots && LandsBelow(Anchored(path, root), root)
  {
    var rules := BridgeRules(table, policy, hookRoot);
    root := ContainedCallLands(JudgeNow(rules, s.bridge, e.choice.resolve), t.call.args, path);
  }

  /** And every path of its command line, joined to the working directory. */
  lemma JudgedPathsLand(table: seq<ProgramDef>, policy: Policy, hookRoot: Option<string>, s: System, e: Event, t: Task,
                        i: nat) returns (root: string)
    requires t.capture.Some? && JudgesPaths(BridgeRules(table, policy, hookRoot), s, e, t)
    requires var classified := ClassifyCall(table, t.call.tool, t.call.args); classified.Some? && i < |classified.value.paths|
    requires forall r | r in s.bridge.roots :: IsAbsolute(r)
    requires forall p :: e.choice.resolve(p).None?
    ensures AsText(Get(t.call.args, "Cwd")).Some?
    ensures var paths := ClassifyCall(table, t.call.tool, t.call.args).value.paths;
      var joined := JoinToCwd(AsText(Get(t.call.args, "Cwd")).value, paths)[i];
      root in s.bridge.roots && !("~" <= joined) && LandsBelow(Anchored(joined, root), root)
  {
    var rules := BridgeRules(table, policy, hookRoot);
    var paths := ClassifyCall(table, t.call.tool, t.call.args).value.paths;
    root := ContainedPathsLand(JudgeNow(rules, s.bridge, e.choice.resolve), paths, t.call.args, i);
  }
}
