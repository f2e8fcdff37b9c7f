/** What single events do in any reachable state, said without the functions that compute it. */
module BridgeSections {
  import opened Options
  import opened Json
  import opened StickyRules
  import opened PathRules
  import opened Bridge
  import opened BridgeProtocol

  /** The waiter of one pending request waits for no other. */
  lemma OneWaiterEach(rules: Rules, run: seq<System>, i: nat, a: string, b: string)
    requires IsRun(rules, run) && i < |run| && a in run[i].bridge.pending && b in run[i].bridge.pending && a != b
    ensures run[i].bridge.pending[a].waiter != run[i].bridge.pending[b].waiter
  {
    RunKeepsInvariant(rules, run, i);
    assert OwnerOk(run[i], a) && OwnerOk(run[i], b);
  }

  /** A cancel tells exactly those who wait for that session, and touches no other request. */
  lemma CancelIsExact(rules: Rules, run: seq<System>, i: nat, session: string, s': System, id: string)
    requires IsRun(rules, run) && i < |run| && Next(rules, run[i], CancelSession(session)) == Some(s')
    requires id in run[i].bridge.pending
    ensures var request := run[i].bridge.pending[id];
      if request.session == session
      then id !in s'.bridge.pending
           && request.waiter in s'.bridge.delivered && s'.bridge.delivered[request.waiter] == Abandoned
      else id in s'.bridge.pending && s'.bridge.pending[id] == request && request.waiter !in s'.bridge.delivered
  {
    var s := run[i];
    RunKeepsInvariant(rules, run, i);
    assert OwnerOk(s, id);
    if s.bridge.pending[id].session != session {
      forall other | other in s.bridge.RequestsOf(session)
        ensures s.bridge.pending[other].waiter != s.bridge.pending[id].waiter
      {
        OneWaiterEach(rules, run, i, other, id);
      }
    }
  }

  /** The host's answer reaches the one who waits for it, and nobody else. */
  lemma AnswerReachesItsWaiter(rules: Rules, run: seq<System>, i: nat, id: string, result: Value, s': System, w: Waiter)
    requires IsRun(rules, run) && i < |run| && Next(rules, run[i], HostReplies(Text(id), Some(result))) == Some(s')
    requires id in run[i].bridge.pending && REQUEST_ID_PREFIX <= id
    ensures id !in s'.bridge.pending
    ensures w == run[i].bridge.pending[id].waiter ==>
              w !in run[i].bridge.delivered && w in s'.bridge.delivered && s'.bridge.delivered[w] == Host(result)
    ensures w != run[i].bridge.pending[id].waiter ==>
              && (w in s'.bridge.delivered <==> w in run[i].bridge.delivered)
              && (w in s'.bridge.delivered ==> s'.bridge.delivered[w] == run[i].bridge.delivered[w])
  {
    RunKeepsInvariant(rules, run, i);
    assert OwnerOk(run[i], id);
  }

  /** A new turn inherits nothing: no request, no refusal, and whoever was still asking is told. */
  lemma TurnStartsClean(rules: Rules, run: seq<System>, i: nat, session: string, s': System, id: string)
    requires IsRun(rules, run) && i < |run| && Next(rules, run[i], StartTurn(session)) == Some(s')
    ensures s'.bridge.pending == map[] && !s'.bridge.refused && s'.bridge.active == Some(session)
    ensures id in run[i].bridge.pending ==>
              var w := run[i].bridge.pending[id].waiter; w in s'.bridge.delivered && s'.bridge.delivered[w] == Abandoned
    ensures forall w | w in run[i].tasks && run[i].tasks[w].capture.Some? :: !InItsTurn(s'.bridge, run[i].tasks[w])
  {
    var s := run[i];
    RunKeepsInvariant(rules, run, i);
    forall w | w in s.tasks && s.tasks[w].capture.Some?
      ensures !InItsTurn(s'.bridge, s.tasks[w])
    {
      assert TaskOk(s.bridge, s.accepted, s.requestIds, w, s.tasks[w]);
    }
  }

  /** A task whose turn is over can finish, but it leaves no mark, no answer and no new request. */
  lemma LateTaskIsHarmless(rules: Rules, run: seq<System>, i: nat, me: Waiter, choice: Choice, s': System)
    requires IsRun(rules, run) && i < |run| && Next(rules, run[i], Step(me, choice)) == Some(s')
    requires run[i].tasks[me].capture.Some? && !InItsTurn(run[i].bridge, run[i].tasks[me])
    ensures s'.bridge.refused == run[i].bridge.refused && s'.bridge.always == run[i].bridge.always
    ensures forall id | id in s'.bridge.pending :: id in run[i].bridge.pending
  {
    var s := run[i];
    AdvanceSection(rules, s.bridge, me, s.tasks[me], choice);
  }

  /**
   What is gated is the effects, not the reply: the last check before an allow from memory looks
   at the paths alone, so a task whose turn ended meanwhile still replies allow.
   */
  lemma AllowIgnoresTurn(rules: Rules, s: System, me: Waiter, resolve: Resolver)
    requires me in s.tasks && s.tasks[me].pc.CheckPaths? && s.tasks[me].capture.Some?
    ensures var judge, classified := JudgeNow(rules, s.bridge, resolve), Resolved(rules, s.tasks[me]).classified;
      var s' := Next(rules, s, Step(me, Files(resolve)));
      && s'.Some? && s'.value.bridge == s.bridge
      && (s'.value.tasks[me].pc == Replied(Allow) <==>
            classified.None? || !rules.pathsEscape(judge, classified.value.paths, s.tasks[me].call.args))
  {
  }

  lemma GenerationNeverDrops(rules: Rules, s: System, e: Event, s': System)
    requires Next(rules, s, e) == Some(s')
    ensures s.bridge.generation <= s'.bridge.generation
  {
    if e.Step? {
      PerformKeeps(s.bridge, Advance(rules, s.bridge, e.task, s.tasks[e.task], e.choice).value.section);
    }
  }

  lemma FollowingNeverDrops(rules: Rules, s: System, s': System)
    requires Follows(rules, s, s')
    ensures s.bridge.generation <= s'.bridge.generation
  {
    var e :| Next(rules, s, e) == Some(s');
    GenerationNeverDrops(rules, s, e, s');
  }

  lemma {:induction false} GenerationOnlyGrows(rules: Rules, run: seq<System>, i: nat, j: nat)
    requires IsRun(rules, run) && i <= j < |run|
    ensures run[i].bridge.generation <= run[j].bridge.generation
    decreases j
  {
    if i < j {
      GenerationOnlyGrows(rules, run, i, j - 1);
      FollowingNeverDrops(rules, run[j - 1], run[j]);
    }
  }

  /** Once over, a turn is over for good: no task ever gets back into it. */
  lemma LateStaysLate(rules: Rules, run: seq<System>, i: nat, j: nat, t: Task)
    requires IsRun(rules, run) && i <= j < |run| && t.capture.Some? && t.capture.value.turn < run[i].bridge.generation
    ensures !InItsTurn(run[j].bridge, t)
  {
    GenerationOnlyGrows(rules, run, i, j);
  }

  /** Forgetting a session forgets all of its answers and none of another's. */
  lemma ForgetIsExact(rules: Rules, s: System, session: string, s': System, key: AlwaysKey)
    requires Next(rules, s, ForgetEvicted(session)) == Some(s')
    ensures s'.bridge.Remembered(key) == if key.session == session then None else s.bridge.Remembered(key)
    ensures s'.bridge.pending == s.bridge.pending
    ensures s'.bridge.active == s.bridge.active && s'.bridge.generation == s.bridge.generation
  {
  }
}
