/**
 Killing a process tree that keeps changing while it is read.

 The process table is a `World`; other processes fork and exit between any two steps of the
 killer.  Assumed: a table read is an atomic snapshot, pids are never reused, and a stopped
 process neither forks nor exits.
 */
module ProcTree {
  import opened Sequences

  type Pid = nat

  datatype Row = Row(pid: Pid, ppid: Pid)

  // ------------------------------------------------------------- descendants

  /** A chain of parent links in a table, from an ancestor down. */
  ghost predicate IsChain(table: seq<Row>, chain: seq<Pid>) {
    && chain != []
    && forall i | 0 < i < |chain| :: Row(chain[i], chain[i - 1]) in table
  }

  ghost predicate Reaches(table: seq<Row>, root: Pid, pid: Pid) {
    exists chain :: IsChain(table, chain) && chain[0] == root && chain[|chain| - 1] == pid
  }

  /** Every child of a seen pid that is not still waiting to be expanded has been seen. */
  ghost predicate ClosedExcept(table: seq<Row>, seen: set<Pid>, open: set<Pid>) {
    forall row | row in table :: row.ppid in seen && row.ppid !in open ==> row.pid in seen
  }

  lemma ReachesChild(table: seq<Row>, root: Pid, parent: Pid, pid: Pid)
    requires Reaches(table, root, parent) && Row(pid, parent) in table
    ensures Reaches(table, root, pid)
  {
    var chain :| IsChain(table, chain) && chain[0] == root && chain[|chain| - 1] == parent;
    assert IsChain(table, chain + [pid]);
  }

  lemma {:induction false} ClosedHoldsChain(table: seq<Row>, seen: set<Pid>, chain: seq<Pid>)
    requires ClosedExcept(table, seen, {}) && IsChain(table, chain) && chain[0] in seen
    ensures chain[|chain| - 1] in seen
  {
    if |chain| > 1 {
      var shorter := chain[..|chain| - 1];
      assert IsChain(table, shorter);
      ClosedHoldsChain(table, seen, shorter);
    }
  }

  lemma ClosedHoldsReachable(table: seq<Row>, seen: set<Pid>, root: Pid)
    requires ClosedExcept(table, seen, {}) && root in seen
    ensures forall pid :: Reaches(table, root, pid) ==> pid in seen
  {
    forall pid | Reaches(table, root, pid)
      ensures pid in seen
    {
      var chain :| IsChain(table, chain) && chain[0] == root && chain[|chain| - 1] == pid;
      ClosedHoldsChain(table, seen, chain);
    }
  }

  function Members(s: seq<Pid>): set<Pid> {
    set p | p in s
  }

  function Pids(table: seq<Row>): set<Pid> {
    set row | row in table :: row.pid
  }

  /** The state of the walk: what is seen is the root and the found, each found once. */
  ghost predicate Walking(table: seq<Row>, root: Pid, found: seq<Pid>, frontier: seq<Pid>, seen: set<Pid>) {
    && seen == {root} + Members(found) && seen <= {root} + Pids(table)
    && NoDuplicates(found) && root !in found
    && NoDuplicates(frontier) && Members(frontier) <= seen
    && forall pid | pid in seen :: Reaches(table, root, pid)
  }

  /** Exactly the pids below `root`, each once, whatever cycles or repeated rows the table has. */
  method Descendants(table: seq<Row>, root: Pid) returns (found: seq<Pid>)
    ensures NoDuplicates(found)
    ensures forall pid :: pid in found <==> pid != root && Reaches(table, root, pid)
  {
    found := [];
    var frontier := [root];
    var seen := {root};
    assert IsChain(table, [root]);
    while frontier != []
      invariant Walking(table, root, found, frontier, seen)
      invariant ClosedExcept(table, seen, Members(frontier))
      decreases {root} + Pids(table) - seen, |frontier|
    {
      var parent := frontier[|frontier| - 1];
      found, frontier, seen := Expand(table, root, parent, found, frontier[..|frontier| - 1], seen);
    }
    ClosedHoldsReachable(table, seen, root);
  }

  /** The scan of the whole table for the children of one parent. */
  method Expand(table: seq<Row>, root: Pid, parent: Pid, found: seq<Pid>, frontier: seq<Pid>, seen: set<Pid>)
    returns (found': seq<Pid>, frontier': seq<Pid>, seen': set<Pid>)
    requires Walking(table, root, found, frontier + [parent], seen)
    requires ClosedExcept(table, seen, Members(frontier + [parent]))
    ensures Walking(table, root, found', frontier', seen')
    ensures ClosedExcept(table, seen', Members(frontier'))
    ensures seen < seen' || (seen == seen' && frontier' == frontier)
  {
    found', frontier', seen' := found, frontier, seen;
    assert parent in frontier + [parent];
    assert (frontier + [parent])[|frontier|] == parent;
    assert forall i | 0 <= i < |frontier| :: frontier[i] == (frontier + [parent])[i];
    for i := 0 to |table|
      invariant Walking(table, root, found', frontier', seen') && parent in seen && parent !in frontier'
      invariant ClosedExcept(table, seen', Members(frontier') + {parent})
      invariant forall j | 0 <= j < i :: table[j].ppid == parent ==> table[j].pid in seen'
      invariant seen < seen' || (seen == seen' && frontier' == frontier)
    {
      var Row(pid, ppid) := table[i];
      if ppid == parent && pid !in seen' {
        assert table[i] in table;
        ReachesChild(table, root, parent, pid);
        found', frontier', seen' := found' + [pid], frontier' + [pid], seen' + {pid};
      }
    }
  }

  // ------------------------------------------------------------ the machine

  const INIT: Pid := 1

  datatype Process = Process(parent: Pid, stopped: bool)

  /** The live processes, and every pid that has ever been handed out. */
  datatype World = World(procs: map<Pid, Process>, used: set<Pid>)

  /** `Fork` and `Exit` are what others do; `Stop` and `Kill` are the killer's signals. */
  datatype Event = Fork(parent: Pid, child: Pid) | Exit(pid: Pid) | Stop(pid: Pid) | Kill(pid: Pid)
  {
    predicate IsSignal() {
      Stop? || Kill?
    }
  }

  ghost predicate ValidWorld(w: World) {
    && w.procs.Keys <= w.used && 0 !in w.used
    && INIT in w.procs && w.procs[INIT].parent == 0
  }

  /** A process that is gone leaves its children to `INIT`. */
  function Without(w: World, pid: Pid): World {
    w.(procs := map p | p in w.procs && p != pid ::
                  if w.procs[p].parent == pid then w.procs[p].(parent := INIT) else w.procs[p])
  }

  /** What one event does.  A stopped process neither forks nor exits; `INIT` never exits. */
  function Next(w: World, e: Event): World {
    match e
    case Fork(parent, child) =>
      if parent in w.procs && !w.procs[parent].stopped && child !in w.used && child != 0 then
        World(w.procs[child := Process(parent, false)], w.used + {child})
      else w
    case Exit(pid) =>
      if pid in w.procs && !w.procs[pid].stopped && pid != INIT then Without(w, pid) else w
    case Stop(pid) =>
      if pid in w.procs then w.(procs := w.procs[pid := w.procs[pid].(stopped := true)]) else w
    case Kill(pid) =>
      if pid in w.procs && pid != INIT then Without(w, pid) else w
  }

  function Run(w: World, events: seq<Event>): World {
    if events == [] then w else Next(Run(w, events[..|events| - 1]), events[|events| - 1])
  }

  ghost predicate IsTable(table: seq<Row>, w: World) {
    forall pid, ppid :: Row(pid, ppid) in table <==> pid in w.procs && w.procs[pid].parent == ppid
  }

  /** The root and everything linked under it in a table. */
  ghost function Family(table: seq<Row>, root: Pid): set<Pid> {
    {root} + set row | row in table && Reaches(table, root, row.pid) :: row.pid
  }

  // ------------------------------------------------- what every event keeps

  /** Whoever was sent a stop is stopped as long as it lives. */
  ghost predicate Marked(w: World, pids: set<Pid>) {
    && pids <= w.used
    && forall p | p in pids && p in w.procs :: w.procs[p].stopped
  }

  ghost predicate Gone(w: World, pids: set<Pid>) {
    pids <= w.used && pids !! w.procs.Keys
  }

  /** A stopped family with no child outside it. */
  ghost predicate Sealed(w: World, family: set<Pid>) {
    && Marked(w, family) && INIT !in family
    && forall p | p in w.procs :: w.procs[p].parent in family ==> p in family
  }

  lemma NextKeepsValid(w: World, e: Event)
    requires ValidWorld(w)
    ensures ValidWorld(Next(w, e)) && w.used <= Next(w, e).used
  {
  }

  lemma NextKeepsMarked(w: World, e: Event, pids: set<Pid>)
    requires ValidWorld(w) && Marked(w, pids)
    ensures Marked(Next(w, e), pids)
  {
  }

  lemma NextKeepsGone(w: World, e: Event, pids: set<Pid>)
    requires Gone(w, pids)
    ensures Gone(Next(w, e), pids)
  {
  }

  lemma NextKeepsSealed(w: World, e: Event, family: set<Pid>)
    requires ValidWorld(w) && Sealed(w, family)
    ensures Sealed(Next(w, e), family)
    ensures family * Next(w, e).procs.Keys <= family * w.procs.Keys
  {
    NextKeepsMarked(w, e, family);
  }

  lemma {:induction false} RunKeepsValid(w: World, events: seq<Event>)
    requires ValidWorld(w)
    ensures ValidWorld(Run(w, events)) && w.used <= Run(w, events).used
  {
    if events != [] {
      RunKeepsValid(w, events[..|events| - 1]);
      NextKeepsValid(Run(w, events[..|events| - 1]), events[|events| - 1]);
    }
  }

  lemma {:induction false} RunKeepsMarked(w: World, events: seq<Event>, pids: set<Pid>)
    requires ValidWorld(w) && Marked(w, pids)
    ensures Marked(Run(w, events), pids)
  {
    if events != [] {
      var most := events[..|events| - 1];
      RunKeepsValid(w, most);
      RunKeepsMarked(w, most, pids);
      NextKeepsMarked(Run(w, most), events[|events| - 1], pids);
    }
  }

  lemma {:induction false} RunKeepsGone(w: World, events: seq<Event>, pids: set<Pid>)
    requires Gone(w, pids)
    ensures Gone(Run(w, events), pids)
  {
    if events != [] {
      var most := events[..|events| - 1];
      RunKeepsGone(w, most, pids);
      NextKeepsGone(Run(w, most), events[|events| - 1], pids);
    }
  }

  /** Whatever anyone does, a sealed family stays stopped and closed, and only loses members. */
  lemma {:induction false} RunKeepsSealed(w: World, events: seq<Event>, family: set<Pid>)
    requires ValidWorld(w) && Sealed(w, family)
    ensures Sealed(Run(w, events), family)
    ensures family * Run(w, events).procs.Keys <= family * w.procs.Keys
  {
    if events != [] {
      var most := events[..|events| - 1];
      RunKeepsValid(w, most);
      RunKeepsSealed(w, most, family);
      NextKeepsSealed(Run(w, most), events[|events| - 1], family);
    }
  }

  lemma {:induction false} RunInTwo(w: World, first: seq<Event>, second: seq<Event>)
    ensures Run(w, first + second) == Run(Run(w, first), second)
  {
    if second == [] {
      assert first + second == first;
    } else {
      var most := second[..|second| - 1];
      RunInTwo(w, first, most);
      assert (first + second)[..|first + second| - 1] == first + most;
    }
  }

  /** In a sealed world nothing outside the family is linked under any of its members. */
  lemma SealedHoldsTree(w: World, family: set<Pid>, table: seq<Row>, root: Pid)
    requires Sealed(w, family) && IsTable(table, w) && root in family
    ensures Family(table, root) <= family
  {
    assert ClosedExcept(table, family, {}) by {
      forall row | row in table && row.ppid in family
        ensures row.pid in family
      {
        assert Row(row.pid, row.ppid) in table;
      }
    }
    ClosedHoldsReachable(table, family, root);
  }

  lemma InitUnderNobody(w: World, table: seq<Row>, root: Pid)
    requires ValidWorld(w) && IsTable(table, w) && root != INIT && root != 0
    ensures INIT !in Family(table, root)
  {
    var others := {root} + w.procs.Keys - {INIT};
    forall row | row in table && row.ppid in others
      ensures row.pid in others
    {
      assert Row(row.pid, row.ppid) in table;
    }
    ClosedHoldsReachable(table, others, root);
  }

  /** A read that shows only pids already stopped has found a sealed family. */
  lemma ReadSeals(w: World, table: seq<Row>, root: Pid, pids: set<Pid>)
    requires ValidWorld(w) && IsTable(table, w) && root != INIT && root != 0
    requires Marked(w, pids) && Family(table, root) <= pids
    ensures Sealed(w, Family(table, root))
  {
    InitUnderNobody(w, table, root);
    var family := Family(table, root);
    forall p | p in w.procs && w.procs[p].parent in family
      ensures p in family
    {
      var parent := w.procs[p].parent;
      assert Row(p, parent) in table;
      assert IsChain(table, [root]);
      ReachesChild(table, root, parent, p);
    }
  }

  // -------------------------------------------------------------- the killer

  const MAX_SCANS := 8

  /** The signals among a run's events. */
  ghost function Signals(events: seq<Event>): seq<Event> {
    if events == [] then []
    else
      var most := Signals(events[..|events| - 1]);
      var e := events[|events| - 1];
      if e.IsSignal() then most + [e] else most
  }

  ghost function Stops(pids: seq<Pid>): seq<Event> {
    seq(|pids|, i requires 0 <= i < |pids| => Stop(pids[i]))
  }

  ghost function Kills(pids: seq<Pid>): seq<Event> {
    seq(|pids|, i requires 0 <= i < |pids| => Kill(pids[i]))
  }

  ghost predicate NoSignals(events: seq<Event>) {
    forall e | e in events :: !e.IsSignal()
  }

  lemma {:induction false} QuietHasNoSignals(events: seq<Event>)
    requires NoSignals(events)
    ensures Signals(events) == []
  {
    if events != [] {
      QuietHasNoSignals(events[..|events| - 1]);
    }
  }

  lemma {:induction false} SignalsInTwo(first: seq<Event>, second: seq<Event>)
    ensures Signals(first + second) == Signals(first) + Signals(second)
  {
    if second == [] {
      assert first + second == first;
    } else {
      var most := second[..|second| - 1];
      SignalsInTwo(first, most);
      assert (first + second)[..|first + second| - 1] == first + most;
    }
  }

  /**
   The machine as the killer meets it: before each of its steps, others act as they please
   (`between`), and a table read may come back empty (`readable`).
   */
  class Kernel {
    const between: nat -> seq<Event>
    const readable: nat -> bool
    var clock: nat
    var world: World
    ghost const start: World
    ghost var events: seq<Event>
    ghost var tables: seq<seq<Row>>

    constructor (w: World, between: nat -> seq<Event>, readable: nat -> bool)
      requires ValidWorld(w)
      ensures Valid() && world == w && events == [] && tables == []
    {
      this.between, this.readable, clock, world := between, readable, 0, w;
      start, events, tables := w, [], [];
    }

    ghost predicate Valid()
      reads this
    {
      && ValidWorld(start) && world == Run(start, events) && ValidWorld(world)
    }

    /** Others run.  Signals in the schedule are skipped: only the killer sends them. */
    method Elapse()
      requires Valid()
      modifies this`clock, this`world, this`events
      ensures Valid() && old(events) <= events
      ensures NoSignals(events[|old(events)|..])
    {
      var due := between(clock);
      clock := clock + 1;
      for i := 0 to |due|
        invariant Valid() && old(events) <= events
        invariant NoSignals(events[|old(events)|..])
      {
        if !due[i].IsSignal() {
          Happen(due[i]);
        }
      }
    }

    method Happen(e: Event)
      requires Valid()
      modifies this`world, this`events
      ensures Valid() && events == old(events) + [e] && world == Next(old(world), e)
    {
      NextKeepsValid(world, e);
      RunInTwo(start, events, [e]);
      assert Run(world, [e]) == Next(world, e) by {
        assert [e][..0] == [];
        assert Run(world, []) == world;
      }
      world := Next(world, e);
      events := events + [e];
    }

    method Signal(e: Event)
      requires Valid() && e.IsSignal()
      modifies this`clock, this`world, this`events
      ensures Valid() && old(events) < events && events[|events| - 1] == e
      ensures NoSignals(events[|old(events)|..|events| - 1])
      ensures world == Next(Run(start, events[..|events| - 1]), e)
    {
      Elapse();
      Happen(e);
    }

    /** One row for every live process, in any order; or nothing when the table cannot be read. */
    method ReadTable() returns (table: seq<Row>)
      requires Valid()
      modifies this`clock, this`world, this`events, this`tables
      ensures Valid() && old(events) <= events && NoSignals(events[|old(events)|..])
      ensures tables == old(tables) + [table]
      ensures table == [] || IsTable(table, world)
    {
      Elapse();
      table := [];
      if readable(clock) {
        var rest := world.procs.Keys;
        while rest != {}
          invariant rest <= world.procs.Keys
          invariant forall row | row in table ::
                      row.pid in world.procs && row.pid !in rest && world.procs[row.pid].parent == row.ppid
          invariant forall p | p in world.procs && p !in rest :: Row(p, world.procs[p].parent) in table
        {
          var pid :| pid in rest;
          table := table + [Row(pid, world.procs[pid].parent)];
          rest := rest - {pid};
        }
      }
      tables := tables + [table];
    }
  }

  lemma LaterMarked(start: World, before: seq<Event>, after: seq<Event>, pids: set<Pid>)
    requires ValidWorld(start) && before <= after && Marked(Run(start, before), pids)
    ensures Marked(Run(start, after), pids)
  {
    RunKeepsValid(start, before);
    RunKeepsMarked(Run(start, before), after[|before|..], pids);
    RunInTwo(start, before, after[|before|..]);
    assert before + after[|before|..] == after;
  }

  lemma LaterGone(start: World, before: seq<Event>, after: seq<Event>, pids: set<Pid>)
    requires before <= after && Gone(Run(start, before), pids)
    ensures Gone(Run(start, after), pids)
  {
    RunKeepsGone(Run(start, before), after[|before|..], pids);
    RunInTwo(start, before, after[|before|..]);
    assert before + after[|before|..] == after;
  }

  lemma LaterSealed(start: World, before: seq<Event>, after: seq<Event>, family: set<Pid>)
    requires ValidWorld(start) && before <= after && Sealed(Run(start, before), family)
    ensures Sealed(Run(start, after), family)
  {
    RunKeepsValid(start, before);
    RunKeepsSealed(Run(start, before), after[|before|..], family);
    RunInTwo(start, before, after[|before|..]);
    assert before + after[|before|..] == after;
  }

  /** One more signal, with whatever else happened before it. */
  lemma SignalsOneMore(events: seq<Event>, from: nat, longer: seq<Event>)
    requires from <= |events| && events < longer && longer[|longer| - 1].IsSignal()
    requires NoSignals(longer[|events|..|longer| - 1])
    ensures Signals(longer[from..]) == Signals(events[from..]) + [longer[|longer| - 1]]
  {
    var gap := longer[|events|..|longer| - 1];
    QuietHasNoSignals(gap);
    SignalsInTwo(events[from..], gap);
    assert longer[from..][..|longer| - from - 1] == events[from..] + gap;
  }

  lemma SignalsNoMore(events: seq<Event>, from: nat, longer: seq<Event>)
    requires from <= |events| && events <= longer && NoSignals(longer[|events|..])
    ensures Signals(longer[from..]) == Signals(events[from..])
  {
    QuietHasNoSignals(longer[|events|..]);
    SignalsInTwo(events[from..], longer[|events|..]);
    assert longer[from..] == events[from..] + longer[|events|..];
  }

  ghost predicate ShownBelow(tables: seq<seq<Row>>, root: Pid, pid: Pid) {
    exists table | table in tables :: Reaches(table, root, pid)
  }

  /** The pids sent a stop, in order: the root, then pids that some read showed below it. */
  ghost predicate Stopping(k: Kernel, root: Pid, from: nat, tablesFrom: nat, order: seq<Pid>)
    reads k
  {
    && k.Valid() && from <= |k.events| && tablesFrom <= |k.tables|
    && order != [] && order[0] == root && NoDuplicates(order) && INIT !in order
    && Marked(k.world, Members(order))
    && Signals(k.events[from..]) == Stops(order)
    && forall pid | pid in order && pid != root :: ShownBelow(k.tables[tablesFrom..], root, pid)
  }

  method StopOne(k: Kernel, root: Pid, pid: Pid, ghost from: nat, ghost tablesFrom: nat, ghost order: seq<Pid>)
    requires Stopping(k, root, from, tablesFrom, order) && pid !in order && pid != INIT && pid in k.world.used
    requires ShownBelow(k.tables[tablesFrom..], root, pid)
    modifies k`clock, k`world, k`events
    ensures Stopping(k, root, from, tablesFrom, order + [pid]) && old(k.events) <= k.events
  {
    ghost var before := k.events;
    k.Signal(Stop(pid));
    LaterMarked(k.start, before, k.events[..|k.events| - 1], Members(order));
    LaterUsed(k.start, before, k.events[..|k.events| - 1]);
    SignalsOneMore(before, from, k.events);
    assert Members(order + [pid]) == Members(order) + {pid};
    assert Stops(order + [pid]) == Stops(order) + [Stop(pid)];
  }

  lemma LaterUsed(start: World, before: seq<Event>, after: seq<Event>)
    requires ValidWorld(start) && before <= after
    ensures ValidWorld(Run(start, after)) && Run(start, before).used <= Run(start, after).used
  {
    RunKeepsValid(start, before);
    RunKeepsValid(Run(start, before), after[|before|..]);
    RunInTwo(start, before, after[|before|..]);
    assert before + after[|before|..] == after;
  }

  /** Stops whatever one read shows below the root and was not stopped yet. */
  method StopNew(k: Kernel, root: Pid, table: seq<Row>, stopped: set<Pid>,
                 ghost from: nat, ghost tablesFrom: nat, ghost order: seq<Pid>)
    returns (stopped': set<Pid>, foundNew: bool, ghost order': seq<Pid>)
    requires Stopping(k, root, from, tablesFrom, order) && Members(order) == stopped
    requires root != 0 && root != INIT && IsTable(table, k.world) && table in k.tables[tablesFrom..]
    modifies k`clock, k`world, k`events
    ensures Stopping(k, root, from, tablesFrom, order') && Members(order') == stopped'
    ensures Family(table, root) <= stopped' && old(k.events) <= k.events
    ensures order <= order' && (foundNew <==> order != order') && (!foundNew ==> k.events == old(k.events))
  {
    stopped', foundNew, order' := stopped, false, order;
    var found := Descendants(table, root);
    InitUnderNobody(k.world, table, root);
    BelowIsUsed(k.world, table, root);
    for i := 0 to |found|
      invariant Stopping(k, root, from, tablesFrom, order') && Members(order') == stopped'
      invariant Members(found[..i]) <= stopped' && old(k.events) <= k.events
      invariant Family(table, root) - {root} <= k.world.used
      invariant order <= order' && (foundNew <==> order != order') && (!foundNew ==> k.events == old(k.events))
    {
      var pid := found[i];
      assert pid in found;
      if pid !in stopped' {
        ghost var before := k.events;
        InFamily(table, root, pid);
        StopOne(k, root, pid, from, tablesFrom, order');
        LaterUsed(k.start, before, k.events);
        assert Members(order' + [pid]) == stopped' + {pid};
        stopped', foundNew, order' := stopped' + {pid}, true, order' + [pid];
      }
      assert Members(found[..i + 1]) == Members(found[..i]) + {pid};
    }
    assert found[..|found|] == found;
  }

  lemma InFamily(table: seq<Row>, root: Pid, pid: Pid)
    requires Reaches(table, root, pid)
    ensures pid in Family(table, root)
  {
    if pid != root {
      var chain :| IsChain(table, chain) && chain[0] == root && chain[|chain| - 1] == pid;
      assert Row(pid, chain[|chain| - 2]) in table;
    }
  }

  lemma BelowIsUsed(w: World, table: seq<Row>, root: Pid)
    requires ValidWorld(w) && IsTable(table, w)
    ensures Family(table, root) - {root} <= w.used
  {
    forall row | row in table
      ensures row.pid in w.used
    {
      assert Row(row.pid, row.ppid) in table;
    }
  }

  method StopRoot(k: Kernel, root: Pid)
    requires k.Valid() && root != INIT && root in k.world.used
    modifies k`clock, k`world, k`events
    ensures Stopping(k, root, |old(k.events)|, |k.tables|, [root]) && old(k.events) <= k.events
  {
    ghost var before := k.events;
    k.Signal(Stop(root));
    LaterUsed(k.start, before, k.events[..|k.events| - 1]);
    SignalsOneMore(before, |before|, k.events);
    assert Signals(before[|before|..]) == [];
    assert Stops([root]) == [Stop(root)];
  }

  method ReadOne(k: Kernel, root: Pid, ghost from: nat, ghost tablesFrom: nat, ghost order: seq<Pid>)
    returns (table: seq<Row>)
    requires Stopping(k, root, from, tablesFrom, order)
    modifies k
    ensures Stopping(k, root, from, tablesFrom, order)
    ensures old(k.events) <= k.events && k.tables == old(k.tables) + [table]
    ensures table == [] || IsTable(table, k.world)
    ensures table in k.tables[tablesFrom..]
  {
    ghost var before, tables := k.events, k.tables;
    table := k.ReadTable();
    assert k.tables[tablesFrom..] == tables[tablesFrom..] + [table];
    LaterMarked(k.start, before, k.events, Members(order));
    SignalsNoMore(before, from, k.events);
    forall pid | pid in order && pid != root
      ensures ShownBelow(k.tables[tablesFrom..], root, pid)
    {
      var shown :| shown in tables[tablesFrom..] && Reaches(shown, root, pid);
      assert shown in k.tables[tablesFrom..];
    }
  }

  /** The signals after a moment, from those before it and all of them. */
  lemma SignalsSince(events: seq<Event>, from: nat, since: nat, stops: seq<Event>, kills: seq<Event>)
    requires from <= since <= |events| && Signals(events[from..since]) == stops
    requires Signals(events[from..]) == stops + kills
    ensures Signals(events[since..]) == kills
  {
    SignalsInTwo(events[from..since], events[since..]);
    assert events[from..since] + events[since..] == events[from..];
    assert (stops + kills)[|stops|..] == kills;
    assert (stops + Signals(events[since..]))[|stops|..] == Signals(events[since..]);
  }

  /** The killed so far are gone. */
  ghost predicate Killing(k: Kernel, from: nat, order: seq<Pid>, killed: seq<Pid>)
    reads k
  {
    && k.Valid() && from <= |k.events|
    && NoDuplicates(killed) && Gone(k.world, Members(killed))
    && Members(order) <= k.world.used && INIT !in order
    && Signals(k.events[from..]) == Stops(order) + Kills(killed)
  }

  method KillOne(k: Kernel, pid: Pid, ghost from: nat, ghost order: seq<Pid>, ghost killed: seq<Pid>)
    requires Killing(k, from, order, killed) && pid in order && pid !in killed
    modifies k`clock, k`world, k`events
    ensures Killing(k, from, order, killed + [pid]) && old(k.events) <= k.events
  {
    ghost var before := k.events;
    k.Signal(Kill(pid));
    LaterGone(k.start, before, k.events[..|k.events| - 1], Members(killed));
    LaterUsed(k.start, before, k.events[..|k.events| - 1]);
    SignalsOneMore(before, from, k.events);
    assert Members(killed + [pid]) == Members(killed) + {pid};
    assert Kills(killed + [pid]) == Kills(killed) + [Kill(pid)];
    assert Stops(order) + Kills(killed) + [Kill(pid)] == Stops(order) + Kills(killed + [pid]);
  }

  method KillStopped(k: Kernel, root: Pid, stopped: set<Pid>, ghost from: nat, ghost order: seq<Pid>)
    returns (ghost killed: seq<Pid>)
    requires Killing(k, from, order, []) && Members(order) == stopped && root in stopped
    modifies k`clock, k`world, k`events
    ensures Killing(k, from, order, killed) && Members(killed) == stopped && old(k.events) <= k.events
    ensures killed != [] && killed[|killed| - 1] == root
  {
    killed := [];
    var rest := stopped - {root};
    while rest != {}
      invariant Killing(k, from, order, killed) && old(k.events) <= k.events
      invariant rest <= stopped && root !in rest && Members(killed) == stopped - {root} - rest
    {
      var pid :| pid in rest;
      assert pid in Members(order) && pid !in Members(killed);
      KillOne(k, pid, from, order, killed);
      assert Members(killed + [pid]) == Members(killed) + {pid};
      rest, killed := rest - {pid}, killed + [pid];
    }
    assert root in Members(order) && root !in Members(killed);
    KillOne(k, root, from, order, killed);
    assert Members(killed + [root]) == Members(killed) + {root};
    killed := killed + [root];
  }

  /** From that moment on, whatever happens, the family is stopped and nothing can join it. */
  ghost predicate SealedEverAfter(start: World, events: seq<Event>, since: nat, family: set<Pid>) {
    forall i | since <= i <= |events| :: Sealed(Run(start, events[..i]), family)
  }

  lemma SealedOnce(start: World, events: seq<Event>, since: nat, family: set<Pid>)
    requires ValidWorld(start) && since <= |events| && Sealed(Run(start, events[..since]), family)
    ensures SealedEverAfter(start, events, since, family)
  {
    forall i | since <= i <= |events|
      ensures Sealed(Run(start, events[..i]), family)
    {
      LaterSealed(start, events[..since], events[..i], family);
    }
  }

  /** The last read: what had happened by then, and which pids had been sent a stop by then. */
  ghost predicate LastRead(start: World, shown: seq<Row>, root: Pid, from: nat, order: seq<Pid>,
                           atRead: seq<Event>, before: seq<Pid>) {
    && from <= |atRead| && before <= order && Signals(atRead[from..]) == Stops(before)
    && (shown != [] ==> IsTable(shown, Run(start, atRead)) && Family(shown, root) <= Members(order))
  }

  /** The first half: stop, read, stop what is new, until a read shows nothing new. */
  method StopTree(k: Kernel, root: Pid)
    returns (stopped: set<Pid>, ghost order: seq<Pid>, ghost settled: bool, ghost atRead: seq<Event>, ghost before: seq<Pid>)
    requires k.Valid() && root != 0 && root != INIT && root in k.world.used
    modifies k
    ensures Stopping(k, root, |old(k.events)|, |old(k.tables)|, order) && Members(order) == stopped
    ensures old(k.events) <= k.events && old(k.tables) <= k.tables
    ensures |old(k.tables)| < |k.tables| <= |old(k.tables)| + MAX_SCANS
    ensures old(k.events) <= atRead <= k.events
    ensures LastRead(k.start, k.tables[|k.tables| - 1], root, |old(k.events)|, order, atRead, before)
    ensures settled <==> k.tables[|k.tables| - 1] != [] && before == order
    ensures !settled ==> k.tables[|k.tables| - 1] == [] || |k.tables| == |old(k.tables)| + MAX_SCANS
    ensures settled ==> Sealed(Run(k.start, atRead), Family(k.tables[|k.tables| - 1], root))
  {
    ghost var from, tablesFrom := |k.events|, |k.tables|;
    stopped := {root};
    StopRoot(k, root);
    order, settled, atRead, before := [root], false, k.events, [];
    for scan := 0 to MAX_SCANS
      invariant Stopping(k, root, from, tablesFrom, order) && Members(order) == stopped && !settled
      invariant old(k.events) <= k.events && old(k.tables) <= k.tables && |k.tables| == tablesFrom + scan
      invariant old(k.events) <= atRead <= k.events
      invariant scan > 0 ==> LastRead(k.start, k.tables[|k.tables| - 1], root, from, order, atRead, before) && before != order
    {
      var table := ReadOne(k, root, from, tablesFrom, order);
      atRead, before := k.events, order;
      if table == [] {
        break;
      }
      var foundNew;
      stopped, foundNew, order := StopNew(k, root, table, stopped, from, tablesFrom, order);
      if !foundNew {
        ReadSeals(k.world, table, root, stopped);
        settled := true;
        break;
      }
    }
  }

  /** What the last read says of all that happened: the signals before and after it, and what it showed. */
  lemma SinceTheRead(start: World, shown: seq<Row>, root: Pid, from: nat, order: seq<Pid>, kills: seq<Pid>,
                     atRead: seq<Event>, before: seq<Pid>, events: seq<Event>)
    requires LastRead(start, shown, root, from, order, atRead, before) && atRead <= events
    requires Signals(events[from..]) == Stops(order) + Kills(kills) && Members(order) == Members(kills)
    ensures |before| <= |order| && before == order[..|before|] && (before == order <==> |before| == |order|)
    ensures Signals(events[from..|atRead|]) == Stops(order[..|before|])
    ensures Signals(events[|atRead|..]) == Stops(order[|before|..]) + Kills(kills)
    ensures shown != [] ==> IsTable(shown, Run(start, events[..|atRead|])) && Family(shown, root) <= Members(kills)
  {
    var n := |before|;
    assert events[..|atRead|] == atRead && events[from..|atRead|] == atRead[from..];
    assert Stops(order) + Kills(kills) == Stops(order[..n]) + (Stops(order[n..]) + Kills(kills));
    SignalsSince(events, from, |atRead|, Stops(order[..n]), Stops(order[n..]) + Kills(kills));
  }

  /** A family sealed at a read holds the whole tree under the root ever after, and all of it is stopped. */
  lemma TreeStaysStopped(start: World, events: seq<Event>, since: nat, now: nat, family: set<Pid>,
                         table: seq<Row>, root: Pid)
    requires SealedEverAfter(start, events, since, family) && since <= now <= |events| && root in family
    requires IsTable(table, Run(start, events[..now]))
    ensures forall pid | pid in Family(table, root) ::
              var procs := Run(start, events[..now]).procs;
              pid in family && (pid in procs ==> procs[pid].stopped)
  {
    SealedHoldsTree(Run(start, events[..now]), family, table, root);
  }

  // ---------------------------------------------------------------- lineage

  /** Each of these is linked to the root through others of them. */
  ghost predicate Rooted(w: World, root: Pid, pids: set<Pid>) {
    forall p | p in pids :: LinkedWithin(w, root, p, pids)
  }

  ghost predicate LinkedWithin(w: World, root: Pid, pid: Pid, pids: set<Pid>) {
    pid in w.procs && exists chain :: IsLink(w, root, pid, pids, chain)
  }

  ghost predicate IsLink(w: World, root: Pid, pid: Pid, pids: set<Pid>, chain: seq<Pid>) {
    && chain != [] && chain[0] == root && chain[|chain| - 1] == pid
    && (forall i | 0 <= i < |chain| :: chain[i] in pids)
    && (forall i | 0 < i < |chain| :: chain[i] in w.procs && w.procs[chain[i]].parent == chain[i - 1])
  }

  predicate Born(w: World, e: Event) {
    && e.Fork? && e.parent in w.procs && !w.procs[e.parent].stopped && e.child !in w.used && e.child != 0
  }

  /** Some processes, and whatever they and their children fork. */
  ghost function Lineage(w: World, events: seq<Event>, base: set<Pid>): set<Pid> {
    if events == [] then base
    else
      var most, e := events[..|events| - 1], events[|events| - 1];
      var before := Lineage(w, most, base);
      if Born(Run(w, most), e) && e.parent in before then before + {e.child} else before
  }

  /** None of them exits by itself, or is killed. */
  ghost predicate Undisturbed(w: World, events: seq<Event>, base: set<Pid>) {
    events == [] ||
    var most, e := events[..|events| - 1], events[|events| - 1];
    Undisturbed(w, most, base) && (e.Exit? || e.Kill? ==> e.pid !in Lineage(w, most, base))
  }

  lemma LinkGrows(w: World, w': World, root: Pid, pid: Pid, pids: set<Pid>, more: set<Pid>)
    requires LinkedWithin(w, root, pid, pids) && pids <= more && pid in w'.procs
    requires forall p | p in pids && p in w.procs && w.procs[p].parent in pids ::
               p in w'.procs && w'.procs[p].parent == w.procs[p].parent
    ensures LinkedWithin(w', root, pid, more)
  {
    var chain :| IsLink(w, root, pid, pids, chain);
    forall i | 0 < i < |chain|
      ensures chain[i] in w'.procs && w'.procs[chain[i]].parent == chain[i - 1]
    {
      assert chain[i] in pids && chain[i - 1] in pids;
    }
    assert IsLink(w', root, pid, more, chain);
  }

  lemma ChildLinked(w: World, root: Pid, parent: Pid, child: Pid, pids: set<Pid>)
    requires LinkedWithin(w, root, parent, pids) && child in pids && child in w.procs && w.procs[child].parent == parent
    ensures LinkedWithin(w, root, child, pids)
  {
    var chain :| IsLink(w, root, parent, pids, chain);
    assert IsLink(w, root, child, pids, chain + [child]);
  }

  /** One event leaves the lineage linked, unless it is the end of one of them. */
  lemma NextKeepsRooted(w: World, e: Event, root: Pid, pids: set<Pid>)
    requires ValidWorld(w) && Rooted(w, root, pids) && (e.Exit? || e.Kill? ==> e.pid !in pids)
    ensures Rooted(Next(w, e), root, if Born(w, e) && e.parent in pids then pids + {e.child} else pids)
  {
    var w' := Next(w, e);
    var more := if Born(w, e) && e.parent in pids then pids + {e.child} else pids;
    forall p | p in pids
      ensures LinkedWithin(w', root, p, more)
    {
      assert LinkedWithin(w, root, p, pids);
      LinkGrows(w, w', root, p, pids, more);
    }
    if Born(w, e) && e.parent in pids {
      ChildLinked(w', root, e.parent, e.child, more);
    }
  }

  lemma {:induction false} RunKeepsRooted(w: World, events: seq<Event>, root: Pid, base: set<Pid>)
    requires ValidWorld(w) && Rooted(w, root, base) && Undisturbed(w, events, base)
    ensures Rooted(Run(w, events), root, Lineage(w, events, base))
  {
    if events != [] {
      var most := events[..|events| - 1];
      RunKeepsValid(w, most);
      RunKeepsRooted(w, most, root, base);
      NextKeepsRooted(Run(w, most), events[|events| - 1], root, Lineage(w, most, base));
    }
  }

  /** What is linked to the root is shown below it. */
  lemma RootedIsShown(w: World, root: Pid, pids: set<Pid>, table: seq<Row>)
    requires Rooted(w, root, pids) && IsTable(table, w)
    ensures pids <= Family(table, root)
  {
    forall p | p in pids
      ensures p in Family(table, root)
    {
      assert LinkedWithin(w, root, p, pids);
      var chain :| IsLink(w, root, p, pids, chain);
      forall i | 0 < i < |chain|
        ensures Row(chain[i], chain[i - 1]) in table
      {
      }
      assert IsChain(table, chain);
      InFamily(table, root, p);
    }
  }

  /** A stopped process has no children any more. */
  lemma {:induction false} SealedLineage(w: World, before: seq<Event>, after: seq<Event>, base: set<Pid>, family: set<Pid>)
    requires ValidWorld(w) && Sealed(Run(w, before), family) && Lineage(w, before, base) <= family
    ensures Lineage(w, before + after, base) == Lineage(w, before, base)
  {
    if after == [] {
      assert before + after == before;
    } else {
      var most := after[..|after| - 1];
      SealedLineage(w, before, most, base, family);
      assert (before + after)[..|before + after| - 1] == before + most;
      LaterSealed(w, before, before + most, family);
    }
  }

  /**
   Unless one of them left the tree by exiting, all processes that the tree had or forked are in
   the family that the last read showed, and so end up dead.
   */
  lemma LineageDies(w: World, before: seq<Event>, after: seq<Event>, root: Pid, base: set<Pid>, shown: seq<Row>,
                    killed: set<Pid>)
    requires ValidWorld(w) && Rooted(w, root, base) && Undisturbed(w, before, base)
    requires IsTable(shown, Run(w, before)) && Sealed(Run(w, before), Family(shown, root))
    requires Family(shown, root) <= killed && Gone(Run(w, before + after), killed)
    ensures Gone(Run(w, before + after), Lineage(w, before + after, base))
  {
    RunKeepsRooted(w, before, root, base);
    RootedIsShown(Run(w, before), root, Lineage(w, before, base), shown);
    SealedLineage(w, before, after, base, Family(shown, root));
  }

  /** The whole tree under a live root is such a base. */
  lemma FamilyIsRooted(w: World, table: seq<Row>, root: Pid)
    requires IsTable(table, w) && root in w.procs
    ensures Rooted(w, root, Family(table, root))
  {
    var family := Family(table, root);
    forall p | p in family
      ensures LinkedWithin(w, root, p, family)
    {
      if p == root {
        assert IsLink(w, root, root, family, [root]);
      } else {
        var chain :| IsChain(table, chain) && chain[0] == root && chain[|chain| - 1] == p;
        ChainIsLink(w, table, root, p, chain);
      }
    }
  }

  lemma ChainIsLink(w: World, table: seq<Row>, root: Pid, pid: Pid, chain: seq<Pid>)
    requires IsTable(table, w) && IsChain(table, chain) && chain[0] == root && chain[|chain| - 1] == pid
    ensures IsLink(w, root, pid, Family(table, root), chain) && (pid != root ==> pid in w.procs)
  {
    forall i | 0 <= i < |chain|
      ensures chain[i] in Family(table, root)
    {
      assert IsChain(table, chain[..i + 1]);
      InFamily(table, root, chain[i]);
    }
    forall i | 0 < i < |chain|
      ensures chain[i] in w.procs && w.procs[chain[i]].parent == chain[i - 1]
    {
      assert Row(chain[i], chain[i - 1]) in table;
    }
  }

  /** No process of the lineage exits by itself. */
  ghost predicate NoneExits(w: World, events: seq<Event>, base: set<Pid>) {
    events == [] ||
    var most, e := events[..|events| - 1], events[|events| - 1];
    NoneExits(w, most, base) && (e.Exit? ==> e.pid !in Lineage(w, most, base))
  }

  /** Stops disturb nobody. */
  lemma {:induction false} StopsLeaveLineage(w: World, events: seq<Event>, base: set<Pid>)
    requires NoneExits(w, events, base) && forall e | e in Signals(events) :: e.Stop?
    ensures Undisturbed(w, events, base)
  {
    if events != [] {
      var most, e := events[..|events| - 1], events[|events| - 1];
      assert forall x | x in Signals(most) :: x in Signals(events);
      if e.IsSignal() {
        assert Signals(events)[|Signals(events)| - 1] == e;
        assert e in Signals(events);
      }
      StopsLeaveLineage(w, most, base);
    }
  }

  /** What the killer's contract says of every lineage that no process left by exiting. */
  ghost predicate LineagesDie(w: World, before: seq<Event>, events: seq<Event>, root: Pid, end: World) {
    forall base | Rooted(w, root, base) && NoneExits(w, before, base) :: Gone(end, Lineage(w, events, base))
  }

  lemma AllLineagesDie(w: World, before: seq<Event>, after: seq<Event>, root: Pid, shown: seq<Row>, killed: set<Pid>)
    requires ValidWorld(w) && forall e | e in Signals(before) :: e.Stop?
    requires IsTable(shown, Run(w, before)) && Sealed(Run(w, before), Family(shown, root))
    requires Family(shown, root) <= killed && Gone(Run(w, before + after), killed)
    ensures LineagesDie(w, before, before + after, root, Run(w, before + after))
  {
    forall base | Rooted(w, root, base) && NoneExits(w, before, base)
      ensures Gone(Run(w, before + after), Lineage(w, before + after, base))
    {
      StopsLeaveLineage(w, before, base);
      LineageDies(w, before, after, root, base, shown, killed);
    }
  }

  lemma InThree(past: seq<Event>, atRead: seq<Event>, events: seq<Event>)
    requires past <= atRead <= events
    ensures past + atRead[|past|..] == atRead && atRead[|past|..] + events[|atRead|..] == events[|past|..]
    ensures past + events[|past|..] == events
  {
  }

  lemma LineagesDead(start: World, past: seq<Event>, atRead: seq<Event>, events: seq<Event>, root: Pid,
                     shown: seq<Row>, stops: seq<Pid>, killed: set<Pid>)
    requires ValidWorld(start) && past <= atRead <= events
    requires Signals(atRead[|past|..]) == Stops(stops)
    requires IsTable(shown, Run(start, atRead)) && Sealed(Run(start, atRead), Family(shown, root))
    requires Family(shown, root) <= killed && Gone(Run(start, events), killed)
    ensures LineagesDie(Run(start, past), atRead[|past|..], events[|past|..], root, Run(start, events))
  {
    InThree(past, atRead, events);
    RunKeepsValid(start, past);
    RunInTwo(start, past, atRead[|past|..]);
    RunInTwo(start, past, events[|past|..]);
    AllLineagesDie(Run(start, past), atRead[|past|..], events[|atRead|..], root, shown, killed);
  }

  lemma SettledDies(start: World, past: seq<Event>, atRead: seq<Event>, events: seq<Event>, root: Pid,
                    shown: seq<Row>, stops: seq<Pid>, killed: set<Pid>)
    requires ValidWorld(start) && past <= atRead <= events && Signals(atRead[|past|..]) == Stops(stops)
    requires IsTable(shown, Run(start, atRead)) && Sealed(Run(start, atRead), Family(shown, root))
    requires Family(shown, root) <= killed && Gone(Run(start, events), killed)
    ensures SealedEverAfter(start, events, |atRead|, Family(shown, root))
    ensures LineagesDie(Run(start, past), events[|past|..|atRead|], events[|past|..], root, Run(start, events))
  {
    assert events[..|atRead|] == atRead && events[|past|..|atRead|] == atRead[|past|..];
    SealedOnce(start, events, |atRead|, Family(shown, root));
    LineagesDead(start, past, atRead, events, root, shown, stops, killed);
  }

  lemma StillShown(tables: seq<seq<Row>>, root: Pid, stops: seq<Pid>, kills: seq<Pid>)
    requires Members(stops) == Members(kills)
    requires forall pid | pid in stops && pid != root :: ShownBelow(tables, root, pid)
    ensures forall pid | pid in kills && pid != root :: ShownBelow(tables, root, pid)
  {
    forall pid | pid in kills
      ensures pid in stops
    {
      assert pid in Members(kills);
    }
  }

  /**
   Stops and kills the tree under `root` while others fork and exit.  Sends one stop, later one
   kill, to the root and to pids some read showed below it, the root's kill last, and all of them
   end up dead.  The last read happened after `since` events and `n` stops.  When it found nothing
   new (`settled`), the family it showed, which is the whole tree under the root at that moment,
   stayed stopped and closed ever after and is dead; and so is every process that the tree ever
   had or forked, unless one of them had left it by exiting.
   */
  method KillProcessTree(k: Kernel, root: Pid)
    returns (ghost stops: seq<Pid>, ghost kills: seq<Pid>, ghost settled: bool, ghost since: nat, ghost n: nat)
    requires k.Valid() && root != 0 && root != INIT && root in k.world.used
    modifies k
    ensures k.Valid() && old(k.events) <= k.events && old(k.tables) <= k.tables
    ensures |old(k.tables)| < |k.tables| <= |old(k.tables)| + MAX_SCANS
    ensures NoDuplicates(stops) && stops != [] && stops[0] == root
    ensures NoDuplicates(kills) && kills != [] && kills[|kills| - 1] == root
    ensures Members(stops) == Members(kills) && Gone(k.world, Members(kills))
    ensures forall pid | pid in kills && pid != root :: ShownBelow(k.tables[|old(k.tables)|..], root, pid)
    ensures |old(k.events)| <= since <= |k.events| && n <= |stops|
    ensures Signals(k.events[|old(k.events)|..since]) == Stops(stops[..n])
    ensures Signals(k.events[since..]) == Stops(stops[n..]) + Kills(kills)
    ensures settled <==> k.tables[|k.tables| - 1] != [] && n == |stops|
    ensures !settled ==> k.tables[|k.tables| - 1] == [] || |k.tables| == |old(k.tables)| + MAX_SCANS
    ensures var shown := k.tables[|k.tables| - 1];
            shown != [] ==> IsTable(shown, Run(k.start, k.events[..since])) && Family(shown, root) <= Members(kills)
    ensures settled ==> SealedEverAfter(k.start, k.events, since, Family(k.tables[|k.tables| - 1], root))
    ensures settled ==> LineagesDie(old(k.world), k.events[|old(k.events)|..since], k.events[|old(k.events)|..], root, k.world)
  {
    ghost var past, tablesFrom := k.events, |k.tables|;
    var stopped;
    ghost var atRead, before;
    stopped, stops, settled, atRead, before := StopTree(k, root);
    ghost var shown := k.tables[|k.tables| - 1];
    since, n := |atRead|, |before|;
    assert root in Members(stops);
    assert Stops(stops) + Kills([]) == Stops(stops);
    kills := KillStopped(k, root, stopped, |past|, stops);
    StillShown(k.tables[tablesFrom..], root, stops, kills);
    SinceTheRead(k.start, shown, root, |past|, stops, kills, atRead, before, k.events);
    if settled {
      SettledDies(k.start, past, atRead, k.events, root, shown, before, Members(kills));
    }
  }
}
