/**
 The adapter's session map: at most 64 sessions, least recently used out first, and the queue of
 dropped sessions whose remembered answers are to be forgotten; and the pruning of the file that
 sessions are restored from.
 */
module SessionCache {
  import opened Options
  import opened Sequences

  type Id = string

  const MAX_SESSIONS := 64
  const MAX_PERSISTED_SESSIONS := 256

  datatype Session = Session(conversation: Option<string>, lastStep: int, model: Option<string>, lastUsed: nat)

  datatype Stored = Stored(conversation: Option<string>, lastStep: int, model: Option<string>, updatedAt: nat)

  // ------------------------------------------------------------ recency lists

  // Most recent first.

  function Find(order: seq<Id>, id: Id): (k: nat)
    ensures k <= |order| && (k < |order| ==> order[k] == id)
  {
    if order == [] || order[0] == id then 0 else 1 + Find(order[1..], id)
  }

  function Remove(order: seq<Id>, id: Id): seq<Id> {
    if order == [] then [] else if order[0] == id then order[1..] else [order[0]] + Remove(order[1..], id)
  }

  /** The first occurrence goes. */
  lemma {:induction false} RemoveIs(order: seq<Id>, id: Id)
    ensures var k := Find(order, id); Remove(order, id) == if k < |order| then order[..k] + order[k + 1..] else order
  {
    if order != [] && order[0] != id {
      RemoveIs(order[1..], id);
    }
  }

  function Front(order: seq<Id>, id: Id): seq<Id> {
    [id] + Remove(order, id)
  }

  function Cut(order: seq<Id>, most: nat): seq<Id> {
    if |order| <= most then order else order[..most]
  }

  /** Every id in the order of its last use, without any bound. */
  function Recent(uses: seq<Id>): seq<Id> {
    if uses == [] then [] else Front(Recent(uses[..|uses| - 1]), uses[|uses| - 1])
  }

  lemma {:induction false} FoundIffIn(order: seq<Id>, id: Id)
    ensures Find(order, id) < |order| <==> id in order
    ensures forall i | 0 <= i < Find(order, id) :: order[i] != id
  {
    if order != [] && order[0] != id {
      FoundIffIn(order[1..], id);
    }
  }

  lemma JoinNoDuplicates(before: seq<Id>, id: Id, after: seq<Id>)
    requires NoDuplicates(before + [id] + after)
    ensures NoDuplicates(before + after) && id !in before + after
  {
    var all, joined := before + [id] + after, before + after;
    assert all[|before|] == id;
    forall i, j | 0 <= i < j < |joined|
      ensures joined[i] != joined[j]
    {
      assert joined[i] == all[if i < |before| then i else i + 1];
      assert joined[j] == all[if j < |before| then j else j + 1];
    }
    forall i | 0 <= i < |joined|
      ensures joined[i] != id
    {
      assert joined[i] == all[if i < |before| then i else i + 1];
    }
  }

  lemma RemoveDropsOne(order: seq<Id>, id: Id)
    requires NoDuplicates(order)
    ensures NoDuplicates(Remove(order, id)) && id !in Remove(order, id)
    ensures forall x :: x in Remove(order, id) <==> x in order && x != id
  {
    FoundIffIn(order, id);
    RemoveIs(order, id);
    var k := Find(order, id);
    if k < |order| {
      var before, after := order[..k], order[k + 1..];
      assert order == before + [id] + after;
      JoinNoDuplicates(before, id, after);
    }
  }

  lemma FrontIsList(order: seq<Id>, id: Id)
    requires NoDuplicates(order)
    ensures NoDuplicates(Front(order, id)) && forall x :: x in Front(order, id) <==> x == id || x in order
  {
    RemoveDropsOne(order, id);
  }

  lemma {:induction false} RecentIsList(uses: seq<Id>)
    ensures NoDuplicates(Recent(uses))
  {
    if uses != [] {
      RecentIsList(uses[..|uses| - 1]);
      FrontIsList(Recent(uses[..|uses| - 1]), uses[|uses| - 1]);
    }
  }

  lemma {:induction false} FindInPrefix(order: seq<Id>, most: nat, id: Id)
    requires most <= |order|
    ensures Find(order[..most], id) == if Find(order, id) < most then Find(order, id) else most
  {
    if most > 0 && order[0] != id {
      FindInPrefix(order[1..], most - 1, id);
      assert order[..most][1..] == order[1..][..most - 1];
    }
  }

  /** A session in the list moves to its front; another one comes in front, the last one going if it must. */
  function Used(order: seq<Id>, id: Id): seq<Id> {
    if id in order then Front(order, id) else [id] + Cut(order, MAX_SESSIONS - 1)
  }

  /** Moving to the front what is in the first `most`, and cutting, in either order. */
  lemma MoveThenCut(all: seq<Id>, k: nat, id: Id, most: nat)
    requires k < most <= |all|
    ensures ([id] + (all[..k] + all[k + 1..]))[..most] == [id] + (all[..most][..k] + all[..most][k + 1..])
  {
  }

  /** Bringing to the front what is not in the first `most`. */
  lemma BringThenCut(all: seq<Id>, k: nat, id: Id, most: nat)
    requires 0 < most <= k < |all|
    ensures ([id] + (all[..k] + all[k + 1..]))[..most] == [id] + all[..most][..most - 1]
  {
  }

  /** Forgetting what is past the bound changes nothing: the list is always the most recent of all. */
  lemma UsedIsRecent(all: seq<Id>, id: Id)
    requires NoDuplicates(all)
    ensures Used(Cut(all, MAX_SESSIONS), id) == Cut(Front(all, id), MAX_SESSIONS)
  {
    var order, k := Cut(all, MAX_SESSIONS), Find(all, id);
    FoundIffIn(order, id);
    RemoveIs(all, id);
    if |all| > MAX_SESSIONS {
      FindInPrefix(all, MAX_SESSIONS, id);
      RemoveIs(order, id);
      if k < MAX_SESSIONS {
        MoveThenCut(all, k, id, MAX_SESSIONS);
      } else if k < |all| {
        BringThenCut(all, k, id, MAX_SESSIONS);
      }
    }
  }

  // ----------------------------------------------------------- the session map

  /** The stamps of the map put its sessions in exactly the order of the list, and none is ahead of the clock. */
  ghost predicate Ranked(sessions: map<Id, Session>, order: seq<Id>, tick: nat) {
    && NoDuplicates(order) && (forall id :: id in sessions <==> id in order)
    && (forall i | 0 <= i < |order| :: sessions[order[i]].lastUsed <= tick)
    && forall i, j | 0 <= i < j < |order| :: sessions[order[i]].lastUsed > sessions[order[j]].lastUsed
  }

  lemma StampsDistinct(sessions: map<Id, Session>, order: seq<Id>, tick: nat, a: Id, b: Id)
    requires Ranked(sessions, order, tick) && a in sessions && b in sessions && a != b
    ensures sessions[a].lastUsed != sessions[b].lastUsed
  {
    var i :| 0 <= i < |order| && order[i] == a;
    var j :| 0 <= j < |order| && order[j] == b;
  }

  lemma RankedSize(sessions: map<Id, Session>, order: seq<Id>, tick: nat)
    requires Ranked(sessions, order, tick)
    ensures |sessions| == |order|
  {
    var keys := set id | id in order;
    assert sessions.Keys == keys;
    DistinctSize(order);
  }

  lemma {:induction false} DistinctSize(order: seq<Id>)
    requires NoDuplicates(order)
    ensures |set id | id in order| == |order|
  {
    var keys := set id | id in order;
    if order != [] {
      var rest := order[1..];
      DistinctSize(rest);
      assert keys == (set id | id in rest) + {order[0]};
      assert order[0] !in rest;
    }
  }

  lemma InFront(sessions: map<Id, Session>, rest: seq<Id>, id: Id, session: Session, later: nat)
    requires NoDuplicates(rest) && forall x :: x in rest <==> x in sessions && x != id
    requires forall i | 0 <= i < |rest| :: sessions[rest[i]].lastUsed < session.lastUsed <= later
    requires forall i, j | 0 <= i < j < |rest| :: sessions[rest[i]].lastUsed > sessions[rest[j]].lastUsed
    requires session.lastUsed <= later
    ensures Ranked(sessions[id := session], [id] + rest, later)
  {
    assert forall i | 0 <= i < |rest| :: rest[i] in rest;
  }

  /** A stamp newer than all others puts a session in front, whether it was in the map or not. */
  lemma StampRanks(sessions: map<Id, Session>, order: seq<Id>, tick: nat, id: Id, session: Session, later: nat)
    requires Ranked(sessions, order, tick) && tick < session.lastUsed <= later
    ensures Ranked(sessions[id := session], Front(order, id), later)
  {
    var rest := Remove(order, id);
    RemoveDropsOne(order, id);
    RemoveKeepsRanks(sessions, order, id);
    forall i | 0 <= i < |rest|
      ensures sessions[rest[i]].lastUsed <= tick
    {
      assert rest[i] in order;
    }
    InFront(sessions, rest, id, session, later);
  }

  lemma RemoveKeepsRanks(sessions: map<Id, Session>, order: seq<Id>, id: Id)
    requires NoDuplicates(order) && forall x | x in order :: x in sessions
    requires forall i, j | 0 <= i < j < |order| :: sessions[order[i]].lastUsed > sessions[order[j]].lastUsed
    ensures forall x | x in Remove(order, id) :: x in sessions
    ensures var rest := Remove(order, id);
            forall i, j | 0 <= i < j < |rest| :: sessions[rest[i]].lastUsed > sessions[rest[j]].lastUsed
  {
    RemoveIs(order, id);
    RemoveDropsOne(order, id);
  }

  /** The session with the oldest stamp is the last of the list. */
  lemma OldestIsLast(sessions: map<Id, Session>, order: seq<Id>, tick: nat, oldest: Id)
    requires Ranked(sessions, order, tick) && oldest in sessions
    requires forall id | id in sessions :: sessions[oldest].lastUsed <= sessions[id].lastUsed
    ensures order != [] && oldest == order[|order| - 1]
    ensures Ranked(sessions - {oldest}, order[..|order| - 1], tick)
  {
    var k :| 0 <= k < |order| && order[k] == oldest;
    var last := |order| - 1;
    assert order[last] in sessions;
    assert k == last;
    forall id
      ensures id in sessions - {oldest} <==> id in order[..last]
    {
      if id in order && id != oldest {
        var i :| 0 <= i < |order| && order[i] == id;
        assert order[..last][i] == id;
      }
    }
  }

  /** A queue without one id. */
  function Without(queue: seq<Id>, id: Id): seq<Id> {
    if queue == [] then []
    else (if queue[0] == id then [] else [queue[0]]) + Without(queue[1..], id)
  }

  lemma {:induction false} WithoutDropsAll(queue: seq<Id>, id: Id)
    ensures forall x :: x in Without(queue, id) <==> x in queue && x != id
    ensures NoDuplicates(queue) ==> NoDuplicates(Without(queue, id))
  {
    if queue != [] {
      var rest := Without(queue[1..], id);
      WithoutDropsAll(queue[1..], id);
      assert queue == [queue[0]] + queue[1..];
      if NoDuplicates(queue) {
        assert queue[0] !in queue[1..];
        assert queue[0] !in rest;
        assert NoDuplicates([queue[0]] + rest);
      }
    }
  }

  lemma WithoutStep(queue: seq<Id>, i: nat, kept: seq<Id>, id: Id)
    requires i < |queue|
    ensures kept + Without(queue[i..], id) ==
            (if queue[i] == id then kept else kept + [queue[i]]) + Without(queue[i + 1..], id)
  {
    assert queue[i..][1..] == queue[i + 1..];
  }

  function Restorable(store: map<Id, Stored>, id: Id): bool {
    id in store && store[id].conversation.Some?
  }

  function Restored(stored: Stored, stamp: nat, clean: string -> string): Session {
    var model := if stored.model.Some? then Some(clean(stored.model.value)) else None;
    Session(stored.conversation, stored.lastStep, model, stamp)
  }

  ghost predicate Disjoint(queue: seq<Id>, sessions: map<Id, Session>) {
    NoDuplicates(queue) && forall id :: id in queue ==> id !in sessions
  }

  lemma UsesOneMore(uses: seq<Id>, id: Id)
    ensures Cut(Recent(uses + [id]), MAX_SESSIONS) == Used(Cut(Recent(uses), MAX_SESSIONS), id)
  {
    assert (uses + [id])[..|uses|] == uses;
    RecentIsList(uses);
    UsedIsRecent(Recent(uses), id);
  }

  /** The cache, with the recency list and the past uses it stands for. */
  datatype Cache = Cache(sessions: map<Id, Session>, tick: nat, queue: seq<Id>, order: seq<Id>, uses: seq<Id>)

  /** Stamps, recency list, past uses and the queue all agree. */
  ghost predicate Agree(c: Cache) {
    && Ranked(c.sessions, c.order, c.tick) && Disjoint(c.queue, c.sessions)
    && c.order == Cut(Recent(c.uses), MAX_SESSIONS)
  }

  function Touched(c: Cache, id: Id): Cache {
    if id in c.sessions then
      c.(tick := c.tick + 1, sessions := c.sessions[id := c.sessions[id].(lastUsed := c.tick + 1)],
         order := Used(c.order, id), uses := c.uses + [id])
    else c.(tick := c.tick + 1)
  }

  /** Room for one more: the last of the list goes into the queue. */
  function Evicted(c: Cache): Cache {
    if |c.order| >= MAX_SESSIONS then
      var last := |c.order| - 1;
      c.(sessions := c.sessions - {c.order[last]}, queue := c.queue + [c.order[last]], order := c.order[..last])
    else c
  }

  /** A session comes in, with the newest stamp; its answers are kept after all. */
  function Inserted(c: Cache, id: Id, session: Session): Cache {
    Cache(c.sessions[id := session.(lastUsed := c.tick + 1)], c.tick + 1,
          Without(c.queue, id), Front(c.order, id), c.uses + [id])
  }

  lemma TouchRanks(sessions: map<Id, Session>, order: seq<Id>, tick: nat, id: Id)
    requires Ranked(sessions, order, tick) && id in sessions
    ensures Ranked(sessions[id := sessions[id].(lastUsed := tick + 1)], Used(order, id), tick + 1)
  {
    StampRanks(sessions, order, tick, id, sessions[id].(lastUsed := tick + 1), tick + 1);
    assert id in order;
  }

  lemma TickRanks(sessions: map<Id, Session>, order: seq<Id>, tick: nat)
    requires Ranked(sessions, order, tick)
    ensures Ranked(sessions, order, tick + 1)
  {
  }

  lemma StillDisjoint(queue: seq<Id>, sessions: map<Id, Session>, id: Id, session: Session)
    requires Disjoint(queue, sessions)
    ensures id in sessions ==> Disjoint(queue, sessions[id := session])
    ensures Disjoint(Without(queue, id), sessions[id := session])
  {
    WithoutDropsAll(queue, id);
  }

  lemma TouchLiveAgrees(c: Cache, id: Id)
    requires Agree(c) && id in c.sessions
    ensures Agree(Touched(c, id))
  {
    TouchRanks(c.sessions, c.order, c.tick, id);
    UsesOneMore(c.uses, id);
    StillDisjoint(c.queue, c.sessions, id, c.sessions[id].(lastUsed := c.tick + 1));
  }

  lemma TouchAgrees(c: Cache, id: Id)
    requires Agree(c)
    ensures Agree(Touched(c, id))
  {
    if id in c.sessions {
      TouchLiveAgrees(c, id);
    } else {
      TickRanks(c.sessions, c.order, c.tick);
    }
  }

  /** A session comes in or comes back: when it was not there, room is made first. */
  function Admitted(c: Cache, id: Id, session: Session): Cache {
    Inserted(if id in c.sessions then c else Evicted(c), id, session)
  }

  /** One more session: the list, the stamps, the queue and the uses stay in step. */
  lemma AdmitAgrees(c: Cache, id: Id, session: Session)
    requires Agree(c)
    ensures Agree(Admitted(c, id, session)) && Admitted(c, id, session).order == Used(c.order, id)
  {
    var e := if id in c.sessions then c else Evicted(c);
    EvictKeeps(c);
    NewInFront(c.order, id);
    UsesOneMore(c.uses, id);
    InsertRanks(e, id, session);
    StillDisjoint(e.queue, e.sessions, id, session.(lastUsed := e.tick + 1));
  }

  lemma InsertRanks(e: Cache, id: Id, session: Session)
    requires Ranked(e.sessions, e.order, e.tick)
    ensures var i := Inserted(e, id, session); Ranked(i.sessions, i.order, i.tick)
  {
    StampRanks(e.sessions, e.order, e.tick, id, session.(lastUsed := e.tick + 1), e.tick + 1);
  }

  lemma NewInFront(order: seq<Id>, id: Id)
    ensures id in order ==> Front(order, id) == Used(order, id)
    ensures id !in order ==> Front(Cut(order, MAX_SESSIONS - 1), id) == Used(order, id)
  {
    FoundIffIn(Cut(order, MAX_SESSIONS - 1), id);
    RemoveIs(Cut(order, MAX_SESSIONS - 1), id);
  }

  lemma EvictKeeps(c: Cache)
    requires Agree(c)
    ensures var e := Evicted(c);
            && Ranked(e.sessions, e.order, e.tick) && Disjoint(e.queue, e.sessions)
            && e.order == Cut(c.order, MAX_SESSIONS - 1)
            && e.tick == c.tick && e.uses == c.uses && forall id | id in e.sessions :: id in c.sessions
  {
    if |c.order| >= MAX_SESSIONS {
      var last := |c.order| - 1;
      OldestOfList(c.sessions, c.order, c.tick);
      OldestIsLast(c.sessions, c.order, c.tick, c.order[last]);
      assert c.order[last] in c.sessions;
    }
  }

  lemma OldestOfList(sessions: map<Id, Session>, order: seq<Id>, tick: nat)
    requires Ranked(sessions, order, tick) && order != []
    ensures order[|order| - 1] in sessions
    ensures forall id | id in sessions :: sessions[order[|order| - 1]].lastUsed <= sessions[id].lastUsed
  {
    assert order[|order| - 1] in order;
    forall id | id in sessions
      ensures sessions[order[|order| - 1]].lastUsed <= sessions[id].lastUsed
    {
      var i :| 0 <= i < |order| && order[i] == id;
    }
  }

  /** What every request that names a session does first: stamp it, or bring it back if it can be. */
  function Served(c: Cache, id: Id, store: map<Id, Stored>, clean: string -> string): Cache {
    var touched := Touched(c, id);
    if id in c.sessions || !Restorable(store, id) then touched else Admitted(touched, id, Restored(store[id], 0, clean))
  }

  /** A request for a session that is there, or can be restored, is one more use of it; any other changes only the clock. */
  lemma ServedIsUse(c: Cache, id: Id, store: map<Id, Stored>, clean: string -> string)
    requires Agree(c)
    ensures var s := Served(c, id, store, clean);
            && Agree(s)
            && (if id in c.sessions || Restorable(store, id)
                then id in s.sessions && s.order == Used(c.order, id) && s.uses == c.uses + [id]
                else s == c.(tick := c.tick + 1))
  {
    TouchAgrees(c, id);
    if id !in c.sessions && Restorable(store, id) {
      AdmitAgrees(Touched(c, id), id, Restored(store[id], 0, clean));
    }
  }

  /** An evicted session is queued, one that comes back is not. */
  lemma ServedQueue(c: Cache, id: Id, store: map<Id, Stored>, clean: string -> string, x: Id)
    requires Agree(c)
    ensures x in Served(c, id, store, clean).queue ==>
              x in c.queue || (x in c.sessions && x !in Served(c, id, store, clean).sessions)
    ensures x in c.sessions && x !in Served(c, id, store, clean).sessions ==>
              x in Served(c, id, store, clean).queue && x == c.order[|c.order| - 1]
    ensures x in c.queue ==> x in Served(c, id, store, clean).queue || x == id
  {
    var touched := Touched(c, id);
    TouchAgrees(c, id);
    EvictKeeps(touched);
    WithoutDropsAll(Evicted(touched).queue, id);
  }

  /** Rewriting what a session holds, but not its stamp. */
  function Edited(c: Cache, id: Id, session: Session): Cache
    requires id in c.sessions
  {
    c.(sessions := c.sessions[id := session.(lastUsed := c.sessions[id].lastUsed)])
  }

  /** A session whose history was replayed is at the step that the history ended with. */
  function Replayed(c: Cache, id: Id, replay: Option<int>): Cache
    requires id in c.sessions
  {
    if replay.Some? && c.sessions[id].conversation.Some?
    then Edited(c, id, c.sessions[id].(lastStep := replay.value)) else c
  }

  lemma EditAgrees(c: Cache, id: Id, session: Session)
    requires Agree(c) && id in c.sessions
    ensures Agree(Edited(c, id, session))
  {
  }

  lemma Sizes(c: Cache)
    requires Agree(c)
    ensures |c.sessions| == |c.order| <= MAX_SESSIONS
  {
    RankedSize(c.sessions, c.order, c.tick);
  }

  /** What the loop finds to drop, and what it leaves. */
  lemma DropsLast(c: Cache, oldest: Id)
    requires Agree(c) && oldest in c.sessions && |c.order| >= MAX_SESSIONS
    requires forall id | id in c.sessions :: c.sessions[oldest].lastUsed <= c.sessions[id].lastUsed
    ensures |c.sessions - {oldest}| == MAX_SESSIONS - 1
    ensures Evicted(c).sessions == c.sessions - {oldest} && Evicted(c).queue == c.queue + [oldest]
  {
    Sizes(c);
    OldestIsLast(c.sessions, c.order, c.tick, oldest);
    RankedSize(c.sessions - {oldest}, c.order[..|c.order| - 1], c.tick);
  }

  /**
   What agreeing comes to: the live sessions are the 64 most recently used ids of all, no two
   share a stamp, and no id waits to be forgotten twice, or while its session is live.
   */
  lemma AgreeMeans(c: Cache)
    requires Agree(c)
    ensures |c.sessions| <= MAX_SESSIONS
    ensures forall id :: id in c.sessions <==> id in Cut(Recent(c.uses), MAX_SESSIONS)
    ensures forall a, b | a in c.sessions && b in c.sessions && a != b :: c.sessions[a].lastUsed != c.sessions[b].lastUsed
    ensures NoDuplicates(c.queue) && forall id | id in c.queue :: id !in c.sessions
  {
    Sizes(c);
    forall a, b | a in c.sessions && b in c.sessions && a != b
      ensures c.sessions[a].lastUsed != c.sessions[b].lastUsed
    {
      StampsDistinct(c.sessions, c.order, c.tick, a, b);
    }
  }

  datatype Reply = Done | MissingParams | UnknownConfig | UnknownSession | UnknownModel

  const MODEL_CONFIG_ID := "model"

  /** The id a client may choose: one agy offers, or any when it offers none. */
  function NormalizedModel(clean: string -> string, available: seq<string>, raw: string): Option<string> {
    var id := clean(raw);
    if id != "" && (available == [] || id in available) then Some(id) else None
  }

  // ------------------------------------------------------- the persisted store

  /** In the order of keeping: bound to a conversation before unbound, then newer before older. */
  predicate KeepsBefore(a: Stored, b: Stored) {
    if a.conversation.Some? == b.conversation.Some? then b.updatedAt <= a.updatedAt else a.conversation.Some?
  }

  /** Every survivor but the one just written would be kept before anything removed. */
  ghost predicate KeptOverRemoved(before: map<Id, Stored>, after: map<Id, Stored>, justWritten: Id) {
    forall kept, removed | kept in after && kept != justWritten && removed in before && removed !in after ::
      kept in before && KeepsBefore(before[kept], before[removed])
  }

  ghost predicate PartOf(after: map<Id, Stored>, before: map<Id, Stored>) {
    forall id | id in after :: id in before && after[id] == before[id]
  }

  predicate Candidate(store: map<Id, Stored>, id: Id, justWritten: Id, unboundOnly: bool) {
    id in store && id != justWritten && (unboundOnly ==> store[id].conversation.None?)
  }

  method OldestStored(store: map<Id, Stored>, justWritten: Id, unboundOnly: bool) returns (oldest: Option<Id>)
    ensures oldest.None? ==> forall id :: !Candidate(store, id, justWritten, unboundOnly)
    ensures oldest.Some? ==> Candidate(store, oldest.value, justWritten, unboundOnly)
    ensures oldest.Some? ==> forall id | Candidate(store, id, justWritten, unboundOnly) ::
              store[oldest.value].updatedAt <= store[id].updatedAt
  {
    oldest := None;
    var rest := store.Keys;
    while rest != {}
      invariant rest <= store.Keys
      invariant oldest.None? ==> forall id | Candidate(store, id, justWritten, unboundOnly) :: id in rest
      invariant oldest.Some? ==> Candidate(store, oldest.value, justWritten, unboundOnly)
      invariant oldest.Some? ==> forall id | Candidate(store, id, justWritten, unboundOnly) && id !in rest ::
                  store[oldest.value].updatedAt <= store[id].updatedAt
    {
      var id :| id in rest;
      if Candidate(store, id, justWritten, unboundOnly)
         && (oldest.None? || store[id].updatedAt < store[oldest.value].updatedAt) {
        oldest := Some(id);
      }
      rest := rest - {id};
    }
  }

  method Victim(store: map<Id, Stored>, justWritten: Id) returns (victim: Option<Id>)
    ensures victim.None? ==> forall id | id in store :: id == justWritten
    ensures victim.Some? ==> victim.value in store && victim.value != justWritten
    ensures victim.Some? ==> forall id | id in store && id != justWritten :: KeepsBefore(store[id], store[victim.value])
  {
    victim := OldestStored(store, justWritten, true);
    if victim.None? {
      victim := OldestStored(store, justWritten, false);
      if victim.Some? {
        forall id | id in store && id != justWritten
          ensures KeepsBefore(store[id], store[victim.value])
        {
          assert !Candidate(store, id, justWritten, true);
          assert !Candidate(store, victim.value, justWritten, true);
          assert Candidate(store, id, justWritten, false);
        }
      } else {
        assert forall id | id in store :: !Candidate(store, id, justWritten, false);
      }
    } else {
      forall id | id in store && id != justWritten
        ensures KeepsBefore(store[id], store[victim.value])
      {
        if store[id].conversation.None? {
          assert Candidate(store, id, justWritten, true);
        }
      }
    }
  }

  lemma RemoveKeeps(before: map<Id, Stored>, store: map<Id, Stored>, justWritten: Id, victim: Id)
    requires PartOf(store, before) && KeptOverRemoved(before, store, justWritten)
    requires victim in store && victim != justWritten
    requires forall id | id in store && id != justWritten :: KeepsBefore(store[id], store[victim])
    ensures PartOf(store - {victim}, before) && KeptOverRemoved(before, store - {victim}, justWritten)
    ensures |store - {victim}| == |store| - 1
  {
    assert (store - {victim}).Keys == store.Keys - {victim};
  }

  /** The store cut down to the cap, the entry just written always among what is left. */
  method PruneStore(before: map<Id, Stored>, justWritten: Id) returns (store: map<Id, Stored>)
    ensures |store| == if |before| <= MAX_PERSISTED_SESSIONS then |before| else MAX_PERSISTED_SESSIONS
    ensures PartOf(store, before) && KeptOverRemoved(before, store, justWritten)
    ensures justWritten in before ==> justWritten in store
  {
    store := before;
    while |store| > MAX_PERSISTED_SESSIONS
      invariant PartOf(store, before) && KeptOverRemoved(before, store, justWritten)
      invariant justWritten in before ==> justWritten in store
      invariant |store| == |before| || MAX_PERSISTED_SESSIONS <= |store| <= |before|
      decreases |store|
    {
      var victim := Victim(store, justWritten);
      if victim.None? {
        OnlyOne(store, justWritten);
        break;
      }
      RemoveKeeps(before, store, justWritten, victim.value);
      store := store - {victim.value};
    }
  }

  lemma OnlyOne(store: map<Id, Stored>, id: Id)
    requires forall x | x in store :: x == id
    ensures |store| <= 1
  {
    if |store| > 0 {
      assert store.Keys == {id};
    }
  }

  /**
   The store after a write: the entry holds what was written, everything else is an entry that was
   there, and only entries that rank below the survivors were given up for the cap.
   */
  ghost predicate Persisted(before: map<Id, Stored>, after: map<Id, Stored>, id: Id, session: Session, now: Option<nat>) {
    if now.None? then after == before
    else
      var entry := Stored(session.conversation, session.lastStep, session.model, now.value);
      && id in after && after[id] == entry && |after| <= MAX_PERSISTED_SESSIONS
      && PartOf(after, before[id := entry]) && KeptOverRemoved(before[id := entry], after, id)
      && (|before[id := entry]| <= MAX_PERSISTED_SESSIONS ==> |after| == |before[id := entry]|)
  }

  // -------------------------------------------------------------- the adapter

  class Adapter {
    const clean: string -> string
    var sessions: map<Id, Session>
    var tick: nat
    var pendingForget: seq<Id>
    var store: map<Id, Stored>
    ghost var order: seq<Id>
    ghost var uses: seq<Id>

    constructor (store: map<Id, Stored>, clean: string -> string)
      ensures Agree(Now()) && uses == [] && this.store == store && this.clean == clean
    {
      this.clean, this.store, sessions, tick, pendingForget, order, uses := clean, store, map[], 0, [], [], [];
    }

    ghost function Now(): Cache
      reads this
    {
      Cache(sessions, tick, pendingForget, order, uses)
    }

    method TouchSession(id: Id)
      modifies this`sessions, this`tick, this`order, this`uses
      ensures Now() == Touched(old(Now()), id)
    {
      ghost var after := Touched(Now(), id);
      tick := tick + 1;
      if id in sessions {
        sessions := sessions[id := sessions[id].(lastUsed := tick)];
      }
      order, uses := after.order, after.uses;
    }

    method FindOldest() returns (oldest: Option<Id>)
      ensures oldest.None? <==> sessions == map[]
      ensures oldest.Some? ==> oldest.value in sessions
      ensures oldest.Some? ==> forall id | id in sessions :: sessions[oldest.value].lastUsed <= sessions[id].lastUsed
    {
      oldest := None;
      var rest := sessions.Keys;
      while rest != {}
        invariant rest <= sessions.Keys && (oldest.None? ==> rest == sessions.Keys)
        invariant oldest.Some? ==> oldest.value in sessions
        invariant oldest.Some? ==>
                    forall id | id in sessions && id !in rest :: sessions[oldest.value].lastUsed <= sessions[id].lastUsed
      {
        var id :| id in rest;
        if oldest.None? || sessions[id].lastUsed < sessions[oldest.value].lastUsed {
          oldest := Some(id);
        }
        rest := rest - {id};
      }
    }

    method DropOldest()
      requires Agree(Now()) && |sessions| >= MAX_SESSIONS
      modifies this`sessions, this`pendingForget, this`order
      ensures Now() == Evicted(old(Now())) && |sessions| == MAX_SESSIONS - 1
    {
      Sizes(Now());
      var victim := FindOldest();
      if victim.Some? {
        ghost var after := Evicted(Now());
        DropsLast(Now(), victim.value);
        sessions := sessions - {victim.value};
        pendingForget := pendingForget + [victim.value];
        order := after.order;
      }
    }

    /** The loop drops the session with the oldest stamp, which is the last of the list. */
    method EvictIfNeeded()
      requires Agree(Now())
      modifies this`sessions, this`pendingForget, this`order
      ensures Now() == Evicted(old(Now()))
    {
      ghost var before := Now();
      Sizes(before);
      while |sessions| >= MAX_SESSIONS
        invariant || Now() == before
                  || (|before.order| >= MAX_SESSIONS && Now() == Evicted(before) && |sessions| < MAX_SESSIONS)
        decreases |sessions|
      {
        DropOldest();
      }
    }

    /** `retain` over the queue. */
    method KeepSessionAnswers(id: Id)
      modifies this`pendingForget
      ensures pendingForget == Without(old(pendingForget), id)
    {
      var kept: seq<Id> := [];
      for i := 0 to |pendingForget|
        invariant pendingForget == old(pendingForget)
        invariant Without(pendingForget, id) == kept + Without(pendingForget[i..], id)
      {
        WithoutStep(pendingForget, i, kept, id);
        if pendingForget[i] != id {
          kept := kept + [pendingForget[i]];
        }
      }
      pendingForget := kept;
    }

    method MakeSession(conversation: Option<string>, lastStep: int, model: Option<string>) returns (session: Session)
      modifies this`tick
      ensures tick == old(tick) + 1 && session == Session(conversation, lastStep, model, tick)
    {
      tick := tick + 1;
      session := Session(conversation, lastStep, model, tick);
    }

    /** What every session that comes in goes through. */
    method Insert(id: Id, conversation: Option<string>, lastStep: int, model: Option<string>)
      modifies this`sessions, this`tick, this`pendingForget, this`order, this`uses
      ensures Now() == Inserted(old(Now()), id, Session(conversation, lastStep, model, 0))
    {
      var session := MakeSession(conversation, lastStep, model);
      KeepSessionAnswers(id);
      sessions := sessions[id := session];
      order, uses := Front(order, id), uses + [id];
    }

    method RestoreSessionState(id: Id) returns (restored: bool)
      requires Agree(Now())
      modifies this`sessions, this`tick, this`pendingForget, this`order, this`uses
      ensures restored == Restorable(store, id)
      ensures Now() == if restored then Admitted(old(Now()), id, Restored(store[id], 0, clean)) else old(Now())
    {
      if !Restorable(store, id) {
        return false;
      }
      var stored := store[id];
      if id !in sessions {
        EvictIfNeeded();
      }
      Insert(id, stored.conversation, stored.lastStep, if stored.model.Some? then Some(clean(stored.model.value)) else None);
      return true;
    }

    /** Writes one entry and prunes, unless the file cannot be locked and written (`now` is none). */
    method PersistSession(id: Id, session: Session, now: Option<nat>)
      modifies this`store
      ensures Persisted(old(store), store, id, session, now)
    {
      if now.Some? {
        var written := store[id := Stored(session.conversation, session.lastStep, session.model, now.value)];
        store := PruneStore(written, id);
      }
    }

    method Serve(id: Id) returns (known: bool)
      requires Agree(Now())
      modifies this`sessions, this`tick, this`pendingForget, this`order, this`uses
      ensures Now() == Served(old(Now()), id, store, clean) && known == (id in sessions)
    {
      TouchAgrees(Now(), id);
      TouchSession(id);
      if id !in sessions {
        var restored := RestoreSessionState(id);
      }
      known := id in sessions;
    }

    /** A fresh id, the one thing asked of its maker. */
    method HandleSessionNew(id: Id)
      requires Agree(Now()) && id !in sessions
      modifies this`sessions, this`tick, this`pendingForget, this`order, this`uses
      ensures Agree(Now()) && Now() == Admitted(old(Now()), id, Session(None, -1, None, 0))
      ensures order == Used(old(order), id)
    {
      AdmitAgrees(Now(), id, Session(None, -1, None, 0));
      EvictIfNeeded();
      Insert(id, None, -1, None);
    }

    /** Rewrites what a live session holds, and persists it when asked to. */
    method Edit(id: Id, session: Session, now: Option<nat>)
      requires Agree(Now()) && id in sessions
      modifies this`sessions, this`store
      ensures Agree(Now()) && Now() == Edited(old(Now()), id, session)
      ensures Persisted(old(store), store, id, session, now)
    {
      EditAgrees(Now(), id, session);
      sessions := sessions[id := session.(lastUsed := sessions[id].lastUsed)];
      PersistSession(id, session, now);
    }

    /** `replay` is the last step of the history found for the session's conversation, if any was. */
    method ReplayHistory(id: Id, replay: Option<int>, now: Option<nat>)
      requires Agree(Now()) && id in sessions
      modifies this`sessions, this`store
      ensures Agree(Now()) && Now() == Replayed(old(Now()), id, replay)
      ensures if replay.Some? && old(sessions[id]).conversation.Some?
              then Persisted(old(store), store, id, old(sessions[id]).(lastStep := replay.value), now)
              else store == old(store)
    {
      if sessions[id].conversation.Some? && replay.Some? {
        Edit(id, sessions[id].(lastStep := replay.value), now);
      }
    }

    method HandleSessionLoad(id: Id, replay: Option<int>, now: Option<nat>) returns (reply: Reply)
      requires Agree(Now())
      modifies this
      ensures Agree(Now()) && (reply == MissingParams <==> id == "")
      ensures id == "" ==> Now() == old(Now()) && store == old(store)
      ensures id != "" ==>
                var served := Served(old(Now()), id, old(store), clean);
                if id in served.sessions
                then reply == Done && Now() == Replayed(served, id, replay)
                     && (var was := served.sessions[id];
                         if replay.Some? && was.conversation.Some?
                         then Persisted(old(store), store, id, was.(lastStep := replay.value), now)
                         else store == old(store))
                else reply == UnknownSession && Now() == served && store == old(store)
    {
      if id == "" {
        return MissingParams;
      }
      ServedIsUse(Now(), id, store, clean);
      var known := Serve(id);
      if !known {
        return UnknownSession;
      }
      ReplayHistory(id, replay, now);
      return Done;
    }

    method HandleSessionResume(id: Id) returns (reply: Reply)
      requires Agree(Now())
      modifies this`sessions, this`tick, this`pendingForget, this`order, this`uses
      ensures Agree(Now()) && (reply == MissingParams <==> id == "")
      ensures Now() == if id == "" then old(Now()) else Served(old(Now()), id, store, clean)
      ensures id != "" ==> reply == if id in sessions then Done else UnknownSession
    {
      if id == "" {
        return MissingParams;
      }
      ServedIsUse(Now(), id, store, clean);
      var known := Serve(id);
      return if known then Done else UnknownSession;
    }

    /** The session is looked up, and stamped, before the model is. */
    method ChangeModel(id: Id, raw: string, available: seq<string>, now: Option<nat>) returns (reply: Reply)
      requires Agree(Now()) && id != ""
      modifies this
      ensures Agree(Now())
      ensures var served := Served(old(Now()), id, old(store), clean);
              var model := NormalizedModel(clean, available, raw);
              && reply == (if id !in served.sessions then UnknownSession else if model.None? then UnknownModel else Done)
              && Now() == if reply == Done then Edited(served, id, served.sessions[id].(model := model)) else served
      ensures if reply == Done then Persisted(old(store), store, id, sessions[id], now) else store == old(store)
    {
      ServedIsUse(Now(), id, store, clean);
      var known := Serve(id);
      if !known {
        return UnknownSession;
      }
      var model := NormalizedModel(clean, available, raw);
      if model.None? {
        return UnknownModel;
      }
      Edit(id, sessions[id].(model := model), now);
      return Done;
    }

    method HandleSessionSetModel(id: Id, raw: string, available: seq<string>, now: Option<nat>) returns (reply: Reply)
      requires Agree(Now())
      modifies this
      ensures Agree(Now()) && (reply == MissingParams <==> id == "" || raw == "")
      ensures reply == MissingParams ==> Now() == old(Now()) && store == old(store)
      ensures reply == Done ==> id in sessions && sessions[id].model == NormalizedModel(clean, available, raw)
      ensures reply == Done ==> Persisted(old(store), store, id, sessions[id], now)
      ensures reply in {UnknownSession, UnknownModel} ==> Now() == Served(old(Now()), id, old(store), clean)
    {
      if id == "" || raw == "" {
        return MissingParams;
      }
      reply := ChangeModel(id, raw, available, now);
    }

    method HandleSessionSetConfigOption(id: Id, config: string, raw: string, available: seq<string>, now: Option<nat>)
      returns (reply: Reply)
      requires Agree(Now())
      modifies this
      ensures Agree(Now()) && (reply == MissingParams <==> id == "" || config == "" || raw == "")
      ensures reply == UnknownConfig <==> reply != MissingParams && config != MODEL_CONFIG_ID
      ensures reply in {MissingParams, UnknownConfig} ==> Now() == old(Now()) && store == old(store)
      ensures reply == Done ==> id in sessions && sessions[id].model == NormalizedModel(clean, available, raw)
      ensures reply == Done ==> Persisted(old(store), store, id, sessions[id], now)
      ensures reply in {UnknownSession, UnknownModel} ==> Now() == Served(old(Now()), id, old(store), clean)
    {
      if id == "" || config == "" || raw == "" {
        return MissingParams;
      }
      if config != MODEL_CONFIG_ID {
        return UnknownConfig;
      }
      reply := ChangeModel(id, raw, available, now);
    }

    /** The start of a turn.  An empty id is touched too, but never restored. */
    method PromptBegins(id: Id)
      requires Agree(Now())
      modifies this`sessions, this`tick, this`pendingForget, this`order, this`uses
      ensures Agree(Now())
      ensures Now() == if id == "" then Touched(old(Now()), id) else Served(old(Now()), id, store, clean)
    {
      if id == "" {
        TouchAgrees(Now(), id);
        TouchSession(id);
      } else {
        ServedIsUse(Now(), id, store, clean);
        var known := Serve(id);
      }
    }

    /** The end of a turn: what the stream bound goes into the session, if it is live, and into the store. */
    method TeardownTurn(id: Id, bound: Option<string>, lastStep: int, now: Option<nat>)
      requires Agree(Now())
      modifies this`sessions, this`store
      ensures Agree(Now())
      ensures id !in old(sessions) ==> Now() == old(Now())
      ensures id in old(sessions) ==>
                var was := old(sessions[id]);
                Now() == Edited(old(Now()), id, was.(
                           conversation := if was.conversation.Some? then was.conversation else bound,
                           lastStep := if bound.Some? then lastStep else was.lastStep))
      ensures bound.None? ==> store == old(store)
      ensures bound.Some? ==>
                var model := if id in old(sessions) then old(sessions[id]).model else None;
                Persisted(old(store), store, id, Session(bound, lastStep, model, 0), now)
    {
      if id in sessions {
        var was := sessions[id];
        Edit(id, was.(conversation := if was.conversation.Some? then was.conversation else bound,
                      lastStep := if bound.Some? then lastStep else was.lastStep), None);
      }
      if bound.Some? {
        PersistSession(id, Session(bound, lastStep, if id in sessions then sessions[id].model else None, 0), now);
      }
    }

    /** The dispatcher takes the whole queue. */
    method TakePendingForget() returns (victims: seq<Id>)
      requires Agree(Now())
      modifies this`pendingForget
      ensures Agree(Now()) && pendingForget == [] && victims == old(pendingForget)
      ensures forall id | id in victims :: id !in sessions
    {
      victims := pendingForget;
      pendingForget := [];
    }
  }
}
