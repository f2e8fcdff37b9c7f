/**
 The permission bridge's shared state and its critical sections.

 `BridgeState` gives every lock acquisition of the bridge as a function on the state; the class
 `PermissionBridge` performs the same sections on fields, in place.  A oneshot channel is known
 by the number of the task that waits on it: what was sent to it is in `delivered`.
 */
module Bridge {
  import opened Options
  import opened Json
  import opened StickyRules

  datatype Decision = Allow | Deny

  /** How a pending request ended: the host's result, or the end of its turn. */
  datatype Answer = Host(result: Value) | Abandoned

  type Waiter = nat

  datatype PendingRequest = PendingRequest(session: string, waiter: Waiter)

  datatype Policy = Policy(tools: seq<string>, sensitive: string -> bool)

  const REQUEST_ID_PREFIX := "agyacp-perm-"

  lemma SendOneMore(pending: map<string, PendingRequest>, delivered: map<Waiter, Answer>,
                    sent: set<string>, id: string, answer: Answer)
    requires sent <= pending.Keys && id in pending
    ensures delivered + Sent(Waiters(pending, sent + {id}), answer)
      == (delivered + Sent(Waiters(pending, sent), answer))[pending[id].waiter := answer]
    ensures pending - (sent + {id}) == (pending - sent) - {id}
  {
    assert Waiters(pending, sent + {id}) == Waiters(pending, sent) + {pending[id].waiter};
  }

  // ----------------------------------------------------- what the host answered

  datatype Verdict = Dismissed | AllowOnce | AllowAlways | RejectOnce | RejectAlways

  function VerdictOf(result: Value): Verdict {
    var outcome := Get(result, "outcome").GetOr(result);
    if AsText(Get(outcome, "outcome")) != Some("selected") then Dismissed
    else
      match AsText(Get(outcome, "optionId")).GetOr("reject_once")
      case "allow_once" => AllowOnce
      case "allow_always" => AllowAlways
      case "reject_always" => RejectAlways
      case _ => RejectOnce
  }

  // ---------------------------------------------------------- critical sections

  function Waiters(pending: map<string, PendingRequest>, ids: set<string>): set<Waiter>
    requires ids <= pending.Keys
  {
    set id | id in ids :: pending[id].waiter
  }

  function Sent(waiters: set<Waiter>, answer: Answer): map<Waiter, Answer> {
    map w | w in waiters :: answer
  }

  datatype Capture = Capture(session: string, turn: nat)

  datatype BridgeState = BridgeState(
    conversations: map<string, string>,
    active: Option<string>,
    pending: map<string, PendingRequest>,
    delivered: map<Waiter, Answer>,
    always: map<AlwaysKey, Decision>,
    roots: seq<string>,
    refused: bool,
    generation: nat)
  {
    /** Sends `answer` to everyone who waits on a request in `ids`, and forgets the requests. */
    function Settle(ids: set<string>, answer: Answer): BridgeState
      requires ids <= pending.Keys
    {
      this.(pending := pending - ids, delivered := delivered + Sent(Waiters(pending, ids), answer))
    }

    function SetActiveSession(session: Option<string>): BridgeState {
      var turned := this.(active := session, generation := generation + 1);
      if session.None? then turned else turned.(refused := false).Settle(pending.Keys, Abandoned)
    }

    function MarkUserRefusal(turn: nat): BridgeState {
      if generation == turn then this.(refused := true) else this
    }

    function RequestsOf(session: string): set<string> {
      set id | id in pending && pending[id].session == session
    }

    function AbandonPending(session: string): BridgeState {
      Settle(RequestsOf(session), Abandoned)
    }

    function RegisterPending(id: string, session: string, turn: nat, waiter: Waiter): BridgeState {
      if generation != turn then this
      else this.(pending := pending[id := PendingRequest(session, waiter)])
    }

    function Withdraw(id: string): BridgeState {
      this.(pending := pending - {id})
    }

    function ForgetSession(session: string): BridgeState {
      this.(always := map key | key in always && key.session != session :: always[key],
            conversations := map c | c in conversations && conversations[c] != session :: conversations[c])
    }

    function ResolveResponse(id: Value, result: Option<Value>): BridgeState {
      if id.Text? && REQUEST_ID_PREFIX <= id.text && id.text in pending
      then Settle({id.text}, Host(result.GetOr(Object([]))))
      else this
    }

    function StoreAnswer(key: AlwaysKey, decision: Decision, turn: nat): BridgeState {
      if generation == turn then this.(always := always[key := decision]) else this
    }

    function SetWorkspaceRoot(root: string): BridgeState {
      if root in roots then this else this.(roots := roots + [root])
    }

    function RegisterConversation(conversation: string, session: string): BridgeState {
      this.(conversations := conversations[conversation := session])
    }

    /** The session a hook call belongs to and the turn it counts for: the running one, or none. */
    function CaptureTurn(conversation: string): Option<Capture> {
      var session := if conversation in conversations then Some(conversations[conversation]) else active;
      if session.Some? && active == session then Some(Capture(session.value, generation)) else None
    }

    function Remembered(key: AlwaysKey): Option<Decision> {
      if key in always then Some(always[key]) else None
    }
  }

  /** The shared handle: the same sections, on fields that they update in place. */
  class PermissionBridge {
    var conversations: map<string, string>
    var activeSession: Option<string>
    var pending: map<string, PendingRequest>
    var delivered: map<Waiter, Answer>
    var always: map<AlwaysKey, Decision>
    var workspaceRoots: seq<string>
    var refusedDuringPrompt: bool
    var turnGeneration: nat

    ghost function State(): BridgeState
      reads this
    {
      BridgeState(conversations, activeSession, pending, delivered, always,
                  workspaceRoots, refusedDuringPrompt, turnGeneration)
    }

    constructor ()
      ensures State() == BridgeState(map[], None, map[], map[], map[], [], false, 0)
    {
      conversations, activeSession, pending, delivered := map[], None, map[], map[];
      always, workspaceRoots, refusedDuringPrompt, turnGeneration := map[], [], false, 0;
    }

    /** Removes the requests one by one, sending the answer to each one's waiter. */
    method Drain(ids: set<string>, answer: Answer)
      requires ids <= pending.Keys
      modifies this`pending, this`delivered
      ensures State() == old(State()).Settle(ids, answer)
    {
      ghost var start, sent := State(), {};
      var left := ids;
      assert delivered + Sent(Waiters(pending, {}), answer) == delivered;
      while left != {}
        invariant left !! sent && left + sent == ids && ids <= start.pending.Keys
        invariant pending == start.pending - sent
        invariant delivered == start.delivered + Sent(Waiters(start.pending, sent), answer)
      {
        var id :| id in left;
        SendOneMore(start.pending, start.delivered, sent, id, answer);
        delivered := delivered[pending[id].waiter := answer];
        pending := pending - {id};
        left, sent := left - {id}, sent + {id};
      }
      assert sent == ids;
    }

    method SetActiveSession(session: Option<string>)
      modifies this
      ensures State() == old(State()).SetActiveSession(session)
    {
      activeSession := session;
      turnGeneration := turnGeneration + 1;
      if session.None? {
        return;
      }
      refusedDuringPrompt := false;
      Drain(pending.Keys, Abandoned);
    }

    method MarkUserRefusal(turn: nat)
      modifies this
      ensures State() == old(State()).MarkUserRefusal(turn)
    {
      if turnGeneration == turn {
        refusedDuringPrompt := true;
      }
    }

    method AbandonPending(session: string) returns (cleared: nat)
      modifies this
      ensures State() == old(State()).AbandonPending(session)
      ensures cleared == |old(pending)| - |pending|
    {
      var ids := set id | id in pending && pending[id].session == session;
      cleared := |ids|;
      Drain(ids, Abandoned);
      assert old(pending).Keys == pending.Keys + ids;
    }

    method RegisterPending(id: string, session: string, turn: nat, waiter: Waiter) returns (ok: bool)
      modifies this
      ensures State() == old(State()).RegisterPending(id, session, turn, waiter)
      ensures ok <==> old(turnGeneration) == turn
    {
      if turnGeneration != turn {
        return false;
      }
      pending := pending[id := PendingRequest(session, waiter)];
      return true;
    }

    /** A request that was not sent, or not answered in time, is taken back. */
    method Withdraw(id: string)
      modifies this
      ensures State() == old(State()).Withdraw(id)
    {
      pending := pending - {id};
    }

    /** Whose turn a hook call belongs to; `None` when it is not the running one. */
    method CaptureTurn(conversation: string) returns (capture: Option<Capture>)
      ensures capture == State().CaptureTurn(conversation)
    {
      var session := activeSession;
      if conversation in conversations {
        session := Some(conversations[conversation]);
      }
      if session.None? || activeSession != session {
        return None;
      }
      return Some(Capture(session.value, turnGeneration));
    }

    method ForgetSession(session: string)
      modifies this
      ensures State() == old(State()).ForgetSession(session)
    {
      always := map key | key in always && key.session != session :: always[key];
      conversations := map c | c in conversations && conversations[c] != session :: conversations[c];
    }

    method ResolveResponse(id: Value, result: Option<Value>) returns (ours: bool)
      modifies this
      ensures State() == old(State()).ResolveResponse(id, result)
      ensures ours <==> id.Text? && REQUEST_ID_PREFIX <= id.text
    {
      if !id.Text? || !(REQUEST_ID_PREFIX <= id.text) {
        return false;
      }
      if id.text in pending {
        Drain({id.text}, Host(result.GetOr(Object([]))));
      }
      return true;
    }

    method StoreAnswer(key: AlwaysKey, decision: Decision, turn: nat)
      modifies this
      ensures State() == old(State()).StoreAnswer(key, decision, turn)
    {
      if turnGeneration == turn {
        always := always[key := decision];
      }
    }

    method SetWorkspaceRoot(root: string)
      modifies this
      ensures State() == old(State()).SetWorkspaceRoot(root)
    {
      if root !in workspaceRoots {
        workspaceRoots := workspaceRoots + [root];
      }
    }

    method RegisterConversation(conversation: string, session: string)
      modifies this
      ensures State() == old(State()).RegisterConversation(conversation, session)
    {
      conversations := conversations[conversation := session];
    }
  }
}
