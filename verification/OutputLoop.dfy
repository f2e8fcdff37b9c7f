/**
 The main loop and its output channel: prompt tasks send their lines and then one sentinel, the
 loop counts sentinels to know when it may stop.

 A message here names its sender, which the channel's `Option<String>` does not.
 */
module OutputLoop {
  import opened Options

  datatype Sender = Prompt(task: nat) | Bridge | Loop

  datatype Message = Line(sender: Sender, text: string) | Done(task: nat)

  datatype Phase = Waiting | Running | Reaped | Answering | Finished

  /** The reader of the child's stdout, a task of its own: it alone publishes notifications. */
  datatype Reader = Unborn | Reading | Ended

  /** A spawned prompt: what it and its reader have sent, and what of its output is still to be sent. */
  datatype Task = Task(phase: Phase, reader: Reader, notified: seq<string>, output: seq<string>, answered: nat)

  const SPAWNED := Task(Waiting, Unborn, [], [], 0)

  /** The channel's whole history, how much of it the loop has received, and who holds the adapter. */
  datatype World = World(sent: seq<Message>, received: nat, tasks: seq<Task>, holder: Option<nat>)

  /** What goes on beside the loop.  Only the last step of a prompt task sends a sentinel. */
  datatype Event =
    | Acquire(task: nat)
    | StartReader(task: nat)
    | Publish(task: nat, text: string)
    | EndReader(task: nat)
    | Reap(task: nat)
    | Return(task: nat, output: seq<string>)
    | Answer(task: nat)
    | Complete(task: nat)
    | Ask(text: string)

  function Send(w: World, m: Message): World {
    w.(sent := w.sent + [m])
  }

  function Put(w: World, t: nat, task: Task): World
    requires t < |w.tasks|
  {
    w.(tasks := w.tasks[t := task])
  }

  /**
   The reader runs beside its turn, which may see the child end while lines are still being read;
   the turn returns once it has joined the reader, or when no child could be started.
   */
  predicate Permitted(w: World, e: Event) {
    if e.Ask? then true
    else
      e.task < |w.tasks| &&
      var task := w.tasks[e.task];
      match e
      case Acquire(_) => task.phase == Waiting && w.holder.None?
      case StartReader(_) => task.phase == Running && task.reader == Unborn
      case Publish(_, _) => task.reader == Reading
      case EndReader(_) => task.reader == Reading
      case Reap(_) => task.phase == Running && task.reader != Unborn
      case Return(_, _) =>
        (task.phase == Running && task.reader == Unborn) || (task.phase == Reaped && task.reader == Ended)
      case Answer(_) => task.phase == Answering && task.answered < |task.output|
      case Complete(_) => task.phase == Answering && task.answered == |task.output|
      case Ask(_) => true
  }

  function Act(w: World, e: Event): World
    requires Permitted(w, e)
  {
    match e
    case Acquire(t) => Put(w, t, w.tasks[t].(phase := Running)).(holder := Some(t))
    case StartReader(t) => Put(w, t, w.tasks[t].(reader := Reading))
    case EndReader(t) => Put(w, t, w.tasks[t].(reader := Ended))
    case Reap(t) => Put(w, t, w.tasks[t].(phase := Reaped))
    case Publish(t, text) =>
      Send(Put(w, t, w.tasks[t].(notified := w.tasks[t].notified + [text])), Line(Prompt(t), text))
    case Return(t, output) => Put(w, t, w.tasks[t].(phase := Answering, output := output)).(holder := None)
    case Answer(t) =>
      var task := w.tasks[t];
      Send(Put(w, t, task.(answered := task.answered + 1)), Line(Prompt(t), task.output[task.answered]))
    case Complete(t) => Send(Put(w, t, w.tasks[t].(phase := Finished)), Done(t))
    case Ask(text) => Send(w, Line(Bridge, text))
  }

  // -------------------------------------------------------------- what is kept

  predicate IsFrom(m: Message, t: nat) {
    m == Done(t) || (m.Line? && m.sender == Prompt(t))
  }

  /** The lines of one prompt in a stretch of messages. */
  function LinesOf(messages: seq<Message>, t: nat): seq<string> {
    if messages == [] then []
    else
      var before, m := LinesOf(messages[..|messages| - 1], t), messages[|messages| - 1];
      if m.Line? && m.sender == Prompt(t) then before + [m.text] else before
  }

  function Sentinels(messages: seq<Message>): nat {
    if messages == [] then 0
    else Sentinels(messages[..|messages| - 1]) + if messages[|messages| - 1].Done? then 1 else 0
  }

  function Unfinished(tasks: seq<Task>): nat {
    if tasks == [] then 0
    else Unfinished(tasks[..|tasks| - 1]) + if tasks[|tasks| - 1].phase == Finished then 0 else 1
  }

  /** What a prompt has sent so far: its notifications, then its output as far as it got. */
  ghost predicate TaskOk(sent: seq<Message>, t: nat, task: Task) {
    && task.answered <= |task.output|
    && LinesOf(sent, t) == task.notified + task.output[..task.answered]
    && (task.phase in {Waiting, Running, Reaped} ==> task.output == [])
    && (task.reader == Reading ==> task.phase in {Running, Reaped})
    && (task.phase == Waiting ==> task.reader == Unborn)
    && (task.phase == Finished <==> Done(t) in sent)
    && (task.phase == Finished ==> task.answered == |task.output|)
  }

  ghost predicate TasksOk(sent: seq<Message>, tasks: seq<Task>) {
    forall t: nat | t < |tasks| :: TaskOk(sent, t, tasks[t])
  }

  /** A sentinel is the last message of its prompt. */
  ghost predicate SentinelsLast(sent: seq<Message>) {
    forall i, j | 0 <= i < j < |sent| :: sent[i].Done? ==> !IsFrom(sent[j], sent[i].task)
  }

  ghost predicate NoStrangers(sent: seq<Message>, count: nat) {
    forall i | 0 <= i < |sent| :: forall t: nat | t >= count :: !IsFrom(sent[i], t)
  }

  ghost predicate WorldOk(w: World) {
    && w.received <= |w.sent| && TasksOk(w.sent, w.tasks) && SentinelsLast(w.sent) && NoStrangers(w.sent, |w.tasks|)
  }

  /** Prompts still running, and sentinels the loop has yet to receive. */
  ghost function Owed(w: World): nat
    requires w.received <= |w.sent|
  {
    Unfinished(w.tasks) + Sentinels(w.sent[w.received..])
  }

  lemma OneMoreMessage(messages: seq<Message>, m: Message, t: nat)
    ensures LinesOf(messages + [m], t) ==
            if m.Line? && m.sender == Prompt(t) then LinesOf(messages, t) + [m.text] else LinesOf(messages, t)
    ensures Sentinels(messages + [m]) == Sentinels(messages) + if m.Done? then 1 else 0
  {
    assert (messages + [m])[..|messages|] == messages;
  }

  lemma {:induction false} UnfinishedUpdate(tasks: seq<Task>, t: nat, task: Task)
    requires t < |tasks|
    ensures Unfinished(tasks[t := task]) ==
            Unfinished(tasks) - (if tasks[t].phase == Finished then 0 else 1) + (if task.phase == Finished then 0 else 1)
  {
    var last := |tasks| - 1;
    if t < last {
      UnfinishedUpdate(tasks[..last], t, task);
      assert tasks[t := task][..last] == tasks[..last][t := task];
    } else {
      assert tasks[t := task][..last] == tasks[..last];
    }
  }

  lemma UnfinishedOneMore(tasks: seq<Task>, task: Task)
    ensures Unfinished(tasks + [task]) == Unfinished(tasks) + if task.phase == Finished then 0 else 1
  {
    assert (tasks + [task])[..|tasks|] == tasks;
  }

  lemma {:induction false} NoneUnfinished(tasks: seq<Task>)
    requires Unfinished(tasks) == 0
    ensures forall t: nat | t < |tasks| :: tasks[t].phase == Finished
  {
    if tasks != [] {
      NoneUnfinished(tasks[..|tasks| - 1]);
    }
  }

  lemma {:induction false} NoSentinels(messages: seq<Message>)
    requires Sentinels(messages) == 0
    ensures forall i | 0 <= i < |messages| :: messages[i].Line?
  {
    if messages != [] {
      NoSentinels(messages[..|messages| - 1]);
    }
  }

  /** Only bridge and loop, or a prompt that has not finished, send. */
  ghost predicate MaySend(tasks: seq<Task>, m: Message) {
    forall t: nat | IsFrom(m, t) :: t < |tasks| && tasks[t].phase != Finished
  }

  lemma SendKeepsOrder(sent: seq<Message>, tasks: seq<Task>, m: Message)
    requires TasksOk(sent, tasks) && SentinelsLast(sent) && NoStrangers(sent, |tasks|) && MaySend(tasks, m)
    ensures SentinelsLast(sent + [m]) && NoStrangers(sent + [m], |tasks|)
  {
    forall i | 0 <= i < |sent| && sent[i].Done?
      ensures !IsFrom(m, sent[i].task)
    {
      var t := sent[i].task;
      assert IsFrom(sent[i], t);
      assert TaskOk(sent, t, tasks[t]);
      assert Done(t) in sent;
    }
  }

  /** A message of one task leaves the record of every other as it was. */
  lemma OthersStay(sent: seq<Message>, m: Message, t: nat, task: Task)
    requires TaskOk(sent, t, task) && !IsFrom(m, t)
    ensures TaskOk(sent + [m], t, task)
  {
    OneMoreMessage(sent, m, t);
  }

  lemma SendKeepsTasks(sent: seq<Message>, tasks: seq<Task>, m: Message, t: nat, task: Task)
    requires TasksOk(sent, tasks) && t < |tasks| && IsFrom(m, t) && TaskOk(sent + [m], t, task)
    ensures TasksOk(sent + [m], tasks[t := task])
  {
    var after := tasks[t := task];
    forall u: nat | u < |tasks|
      ensures TaskOk(sent + [m], u, after[u])
    {
      if u != t {
        OthersStay(sent, m, u, tasks[u]);
      }
    }
  }

  lemma PublishOk(sent: seq<Message>, t: nat, task: Task, text: string)
    requires TaskOk(sent, t, task) && task.reader == Reading
    ensures TaskOk(sent + [Line(Prompt(t), text)], t, task.(notified := task.notified + [text]))
  {
    OneMoreMessage(sent, Line(Prompt(t), text), t);
    assert task.answered == 0;
    assert task.output[..0] == [];
  }

  lemma AnswerOk(sent: seq<Message>, t: nat, task: Task)
    requires TaskOk(sent, t, task) && task.phase == Answering && task.answered < |task.output|
    ensures TaskOk(sent + [Line(Prompt(t), task.output[task.answered])], t, task.(answered := task.answered + 1))
  {
    OneMoreMessage(sent, Line(Prompt(t), task.output[task.answered]), t);
    assert task.output[..task.answered + 1] == task.output[..task.answered] + [task.output[task.answered]];
  }

  lemma CompleteOk(sent: seq<Message>, t: nat, task: Task)
    requires TaskOk(sent, t, task) && task.phase == Answering && task.answered == |task.output|
    ensures TaskOk(sent + [Done(t)], t, task.(phase := Finished))
  {
    OneMoreMessage(sent, Done(t), t);
    assert (sent + [Done(t)])[|sent|] == Done(t);
  }

  lemma ReturnOk(sent: seq<Message>, t: nat, task: Task, output: seq<string>)
    requires TaskOk(sent, t, task) && task.phase in {Running, Reaped} && task.reader != Reading
    ensures TaskOk(sent, t, task.(phase := Answering, output := output))
  {
    assert task.answered == 0;
    assert output[..0] == task.output[..0];
  }

  lemma PutKeepsTasks(sent: seq<Message>, tasks: seq<Task>, t: nat, task: Task)
    requires TasksOk(sent, tasks) && t < |tasks| && TaskOk(sent, t, task)
    ensures TasksOk(sent, tasks[t := task])
  {
  }

  lemma AskKeepsTasks(sent: seq<Message>, tasks: seq<Task>, m: Message)
    requires TasksOk(sent, tasks) && forall t: nat :: !IsFrom(m, t)
    ensures TasksOk(sent + [m], tasks)
  {
    forall t: nat | t < |tasks|
      ensures TaskOk(sent + [m], t, tasks[t])
    {
      OthersStay(sent, m, t, tasks[t]);
    }
  }

  /** Whatever any task does, the channel's record stays in order. */
  lemma ActKeepsWorld(w: World, e: Event)
    requires WorldOk(w) && Permitted(w, e)
    ensures WorldOk(Act(w, e)) && Act(w, e).received == w.received && w.sent <= Act(w, e).sent
    ensures |Act(w, e).tasks| == |w.tasks|
  {
    match e
    case Acquire(t) =>
      assert TaskOk(w.sent, t, w.tasks[t]);
      PutKeepsTasks(w.sent, w.tasks, t, w.tasks[t].(phase := Running));
    case StartReader(t) =>
      assert TaskOk(w.sent, t, w.tasks[t]);
      PutKeepsTasks(w.sent, w.tasks, t, w.tasks[t].(reader := Reading));
    case EndReader(t) =>
      assert TaskOk(w.sent, t, w.tasks[t]);
      PutKeepsTasks(w.sent, w.tasks, t, w.tasks[t].(reader := Ended));
    case Reap(t) =>
      assert TaskOk(w.sent, t, w.tasks[t]);
      PutKeepsTasks(w.sent, w.tasks, t, w.tasks[t].(phase := Reaped));
    case Publish(t, text) =>
      assert TaskOk(w.sent, t, w.tasks[t]);
      PublishOk(w.sent, t, w.tasks[t], text);
      SendKeepsTasks(w.sent, w.tasks, Line(Prompt(t), text), t, w.tasks[t].(notified := w.tasks[t].notified + [text]));
      SendKeepsOrder(w.sent, w.tasks, Line(Prompt(t), text));
    case Return(t, output) =>
      assert TaskOk(w.sent, t, w.tasks[t]);
      ReturnOk(w.sent, t, w.tasks[t], output);
      PutKeepsTasks(w.sent, w.tasks, t, w.tasks[t].(phase := Answering, output := output));
    case Answer(t) =>
      var task := w.tasks[t];
      assert TaskOk(w.sent, t, task);
      AnswerOk(w.sent, t, task);
      SendKeepsTasks(w.sent, w.tasks, Line(Prompt(t), task.output[task.answered]), t, task.(answered := task.answered + 1));
      SendKeepsOrder(w.sent, w.tasks, Line(Prompt(t), task.output[task.answered]));
    case Complete(t) =>
      assert TaskOk(w.sent, t, w.tasks[t]);
      CompleteOk(w.sent, t, w.tasks[t]);
      SendKeepsTasks(w.sent, w.tasks, Done(t), t, w.tasks[t].(phase := Finished));
      SendKeepsOrder(w.sent, w.tasks, Done(t));
    case Ask(text) =>
      AskKeepsTasks(w.sent, w.tasks, Line(Bridge, text));
      SendKeepsOrder(w.sent, w.tasks, Line(Bridge, text));
  }

  lemma SentOneMore(w: World, w': World, m: Message)
    requires w.received <= |w.sent| && w'.sent == w.sent + [m] && w'.received == w.received
    ensures Sentinels(w'.sent[w'.received..]) == Sentinels(w.sent[w.received..]) + if m.Done? then 1 else 0
  {
    assert w'.sent[w.received..] == w.sent[w.received..] + [m];
    OneMoreMessage(w.sent[w.received..], m, 0);
  }

  /** A running prompt is owed until its sentinel is, so nothing a task does changes the debt. */
  lemma ActKeepsDebt(w: World, e: Event)
    requires w.received <= |w.sent| && Permitted(w, e)
    ensures Act(w, e).received <= |Act(w, e).sent| && Owed(Act(w, e)) == Owed(w)
  {
    var w' := Act(w, e);
    if !e.Ask? {
      UnfinishedUpdate(w.tasks, e.task, w'.tasks[e.task]);
    }
    if e.Publish? || e.Answer? || e.Complete? || e.Ask? {
      SentOneMore(w, w', w'.sent[|w.sent|]);
    }
  }

  /** A new prompt task. */
  function Spawn(w: World): World {
    w.(tasks := w.tasks + [SPAWNED])
  }

  lemma SpawnKeepsWorld(w: World)
    requires WorldOk(w)
    ensures WorldOk(Spawn(w)) && Owed(Spawn(w)) == Owed(w) + 1
  {
    UnfinishedOneMore(w.tasks, SPAWNED);
    NothingFromStranger(w.sent, |w.tasks|);
    assert SPAWNED.output[..0] == [];
    assert TaskOk(w.sent, |w.tasks|, SPAWNED);
  }

  lemma {:induction false} NothingFromStranger(sent: seq<Message>, t: nat)
    requires NoStrangers(sent, t)
    ensures LinesOf(sent, t) == [] && Done(t) !in sent
  {
    if sent != [] {
      assert !IsFrom(sent[|sent| - 1], t);
      NothingFromStranger(sent[..|sent| - 1], t);
    }
    forall i | 0 <= i < |sent|
      ensures sent[i] != Done(t)
    {
      assert !IsFrom(sent[i], t);
    }
  }

  // ------------------------------------------------------------ when it is over

  lemma {:induction false} LinesInTwo(first: seq<Message>, second: seq<Message>, t: nat)
    ensures LinesOf(first + second, t) == LinesOf(first, t) + LinesOf(second, t)
  {
    if second == [] {
      assert first + second == first;
    } else {
      var most := second[..|second| - 1];
      LinesInTwo(first, most, t);
      assert first + second == first + most + [second[|second| - 1]];
      OneMoreMessage(first + most, second[|second| - 1], t);
    }
  }

  lemma {:induction false} NoLinesOf(messages: seq<Message>, t: nat)
    requires forall i | 0 <= i < |messages| :: !IsFrom(messages[i], t)
    ensures LinesOf(messages, t) == []
  {
    if messages != [] {
      NoLinesOf(messages[..|messages| - 1], t);
    }
  }

  /** Behind a sentinel that was received, nothing of its prompt is left. */
  lemma NothingLeft(sent: seq<Message>, received: nat, t: nat)
    requires received <= |sent| && SentinelsLast(sent) && Done(t) in sent
    requires forall i | 0 <= i < |sent[received..]| :: sent[received..][i].Line?
    ensures LinesOf(sent[received..], t) == []
  {
    var p :| 0 <= p < |sent| && sent[p] == Done(t);
    forall i | received <= i < |sent|
      ensures sent[i].Line?
    {
      assert sent[i] == sent[received..][i - received];
    }
    assert p < received;
    NoLinesOf(sent[received..], t);
  }

  /** When nothing is owed, the loop has received all that every prompt had to send. */
  lemma NothingOwed(w: World, t: nat)
    requires WorldOk(w) && Owed(w) == 0 && t < |w.tasks|
    ensures w.tasks[t].phase == Finished
    ensures LinesOf(w.sent[..w.received], t) == w.tasks[t].notified + w.tasks[t].output
  {
    NoneUnfinished(w.tasks);
    NoSentinels(w.sent[w.received..]);
    var task := w.tasks[t];
    assert TaskOk(w.sent, t, task);
    NothingLeft(w.sent, w.received, t);
    LinesInTwo(w.sent[..w.received], w.sent[w.received..], t);
    assert w.sent[..w.received] + w.sent[w.received..] == w.sent;
    assert task.output[..|task.output|] == task.output;
  }

  /** What came through the channel and is for the client. */
  function Printable(messages: seq<Message>): seq<Message> {
    if messages == [] then []
    else
      var before, m := Printable(messages[..|messages| - 1]), messages[|messages| - 1];
      if m.Line? && m.sender != Loop then before + [m] else before
  }

  lemma OneMorePrintable(messages: seq<Message>, m: Message)
    ensures Printable(messages + [m]) == if m.Line? && m.sender != Loop then Printable(messages) + [m] else Printable(messages)
  {
    assert (messages + [m])[..|messages|] == messages;
  }

  lemma {:induction false} PrintableLines(messages: seq<Message>, t: nat)
    ensures LinesOf(Printable(messages), t) == LinesOf(messages, t)
  {
    if messages != [] {
      var most, m := messages[..|messages| - 1], messages[|messages| - 1];
      PrintableLines(most, t);
      OneMoreMessage(Printable(most), m, t);
    }
  }

  // ------------------------------------------------------------------ the loop

  /** A line of input: a prompt, a request answered on the spot, or nothing to answer. */
  datatype Request = PromptRequest | Direct(lines: seq<string>) | Ignored

  /** What reaches stdout of a stretch of messages: all but the sentinels. */
  function Written(messages: seq<Message>): seq<Message> {
    if messages == [] then []
    else
      var before, m := Written(messages[..|messages| - 1]), messages[|messages| - 1];
      if m.Line? then before + [m] else before
  }

  function Shown(m: Message): seq<Message> {
    if m.Line? then [m] else []
  }

  lemma WrittenOneMore(out: seq<Message>, sent: seq<Message>, from: nat, n: nat)
    requires from <= n < |sent|
    ensures out + Written(sent[from..n + 1]) == out + Written(sent[from..n]) + Shown(sent[n])
  {
    assert sent[from..n + 1][..n - from] == sent[from..n];
  }

  /** Lines that the loop itself writes. */
  function Spoken(lines: seq<string>): seq<Message> {
    if lines == [] then [] else Spoken(lines[..|lines| - 1]) + [Line(Loop, lines[|lines| - 1])]
  }

  lemma SpokenOneMore(out: seq<Message>, lines: seq<string>, i: nat)
    requires i < |lines|
    ensures out + Spoken(lines[..i + 1]) == out + Spoken(lines[..i]) + [Line(Loop, lines[i])]
  {
    assert lines[..i + 1][..i] == lines[..i];
  }

  function SaturatingSub(a: nat, b: nat): nat {
    if a < b then 0 else a - b
  }

  function Prompts(requests: seq<Request>): nat {
    if requests == [] then 0
    else Prompts(requests[..|requests| - 1]) + if requests[|requests| - 1].PromptRequest? then 1 else 0
  }

  /** The count is what is owed, and what was printed of the channel is what was received. */
  ghost predicate InStep(w: World, pending: nat, out: seq<Message>) {
    WorldOk(w) && pending == Owed(w) && Printable(out) == Printable(w.sent[..w.received])
  }

  lemma ActKeepsStep(w: World, pending: nat, out: seq<Message>, e: Event)
    requires InStep(w, pending, out) && Permitted(w, e)
    ensures InStep(Act(w, e), pending, out) && Act(w, e).received == w.received
    ensures w.sent <= Act(w, e).sent && |Act(w, e).tasks| == |w.tasks|
  {
    ActKeepsWorld(w, e);
    ActKeepsDebt(w, e);
    assert Act(w, e).sent[..w.received] == w.sent[..w.received];
  }

  lemma ReceiveKeeps(w: World, pending: nat, out: seq<Message>)
    requires InStep(w, pending, out) && w.received < |w.sent|
    ensures var m := w.sent[w.received];
            && (m.Done? ==> pending >= 1)
            && InStep(w.(received := w.received + 1), if m.Done? then pending - 1 else pending, out + Shown(m))
  {
    var m := w.sent[w.received];
    ReceivedOne(w);
    OneMorePrintable(out, m);
    assert out + [] == out;
  }

  /**
   The dispatch loop, and beside it the tasks, which do as they please whenever the loop waits
   (`beside`).  When a message and a line of input are both there, either may be taken (`favourOutput`).
   */
  class MainLoop {
    const input: seq<Request>
    const beside: nat -> seq<Event>
    const favourOutput: nat -> bool
    var clock: nat
    var world: World
    var taken: nat
    var stdinOpen: bool
    var pendingPrompts: nat
    var stdout: seq<Message>

    constructor (input: seq<Request>, beside: nat -> seq<Event>, favourOutput: nat -> bool)
      ensures Valid() && this.input == input && stdout == [] && stdinOpen && taken == 0
    {
      this.input, this.beside, this.favourOutput := input, beside, favourOutput;
      clock, world, taken, stdinOpen, pendingPrompts, stdout := 0, World([], 0, [], None), 0, true, 0, [];
    }

    ghost predicate Valid()
      reads this
    {
      && InStep(world, pendingPrompts, stdout)
      && taken <= |input| && |world.tasks| == Prompts(input[..taken]) && (!stdinOpen ==> taken == |input|)
    }

    /** Between two steps of the loop. */
    method Elapse()
      requires Valid()
      modifies this`clock, this`world
      ensures Valid() && world.received == old(world.received) && old(world.sent) <= world.sent
    {
      var due := beside(clock);
      clock := clock + 1;
      for i := 0 to |due|
        invariant Valid() && world.received == old(world.received) && old(world.sent) <= world.sent
      {
        if Permitted(world, due[i]) {
          Happen(due[i]);
        }
      }
    }

    method Happen(e: Event)
      requires Valid() && Permitted(world, e)
      modifies this`world
      ensures Valid() && world == Act(old(world), e)
      ensures world.received == old(world.received) && old(world.sent) <= world.sent
    {
      ActKeepsStep(world, pendingPrompts, stdout, e);
      world := Act(world, e);
    }

    /** A sentinel always finds a prompt to count off, so the saturating subtraction never saturates. */
    method Receive()
      requires Valid() && world.received < |world.sent|
      modifies this`world, this`pendingPrompts, this`stdout
      ensures Valid() && world == old(world).(received := old(world.received) + 1)
      ensures stdout == old(stdout) + Shown(old(world.sent[world.received]))
      ensures old(world.sent[world.received]).Line? ==> pendingPrompts == old(pendingPrompts)
      ensures old(world.sent[world.received]).Done? ==>
                old(pendingPrompts) >= 1 && pendingPrompts == old(pendingPrompts) - 1
    {
      var m := world.sent[world.received];
      ReceiveKeeps(world, pendingPrompts, stdout);
      world := world.(received := world.received + 1);
      if m.Line? {
        stdout := stdout + [m];
      } else {
        pendingPrompts := SaturatingSub(pendingPrompts, 1);
        assert stdout + [] == stdout;
      }
    }

    method Drain()
      requires Valid()
      modifies this`world, this`pendingPrompts, this`stdout
      ensures Valid() && world == old(world).(received := |world.sent|)
      ensures stdout == old(stdout) + Written(world.sent[old(world.received)..])
    {
      ghost var from, sent := world.received, world.sent;
      while world.received < |world.sent|
        invariant Valid() && from <= world.received && world == old(world).(received := world.received)
        invariant stdout == old(stdout) + Written(sent[from..world.received])
      {
        WrittenOneMore(old(stdout), sent, from, world.received);
        Receive();
      }
      assert sent[from..|sent|] == sent[from..];
    }

    /** Takes the next line of input, first writing out whatever the channel holds, then any direct answer. */
    method Dispatch()
      requires Valid() && taken < |input|
      modifies this`clock, this`world, this`pendingPrompts, this`stdout, this`taken
      ensures Valid() && taken == old(taken) + 1
      ensures world.received == |old(world.sent)| && old(world.sent) <= world.sent
      ensures stdout == old(stdout) + Written(old(world.sent[world.received..]))
                        + if input[old(taken)].Direct? then Spoken(input[old(taken)].lines) else []
      ensures input[old(taken)].PromptRequest? ==>
                world.tasks == old(world.tasks) + [SPAWNED] && pendingPrompts == Owed(world) >= 1
    {
      Drain();
      PromptsOneMore(input, taken);
      match input[taken] {
        case PromptRequest =>
          SpawnKeepsWorld(world);
          pendingPrompts := pendingPrompts + 1;
          world := Spawn(world);
          taken := taken + 1;
        case Direct(lines) =>
          Elapse();
          taken := taken + 1;
          Write(lines);
        case Ignored =>
          taken := taken + 1;
      }
    }

    method Write(lines: seq<string>)
      modifies this`stdout
      ensures stdout == old(stdout) + Spoken(lines) && Printable(stdout) == Printable(old(stdout))
    {
      for i := 0 to |lines|
        invariant stdout == old(stdout) + Spoken(lines[..i]) && Printable(stdout) == Printable(old(stdout))
      {
        SpokenOneMore(old(stdout), lines, i);
        WriteLine(lines[i]);
      }
      assert lines[..|lines|] == lines;
    }

    method WriteLine(text: string)
      modifies this`stdout
      ensures stdout == old(stdout) + [Line(Loop, text)] && Printable(stdout) == Printable(old(stdout))
    {
      OneMorePrintable(stdout, Line(Loop, text));
      stdout := stdout + [Line(Loop, text)];
    }

    /** One turn of the loop; says whether the loop ends here. */
    method Turn() returns (over: bool)
      requires Valid()
      modifies this
      ensures Valid()
      ensures over <==> old(!stdinOpen && pendingPrompts == 0)
      ensures over ==> !stdinOpen && pendingPrompts == 0
    {
      if !stdinOpen && pendingPrompts == 0 {
        return true;
      }
      Elapse();
      var ready := world.received < |world.sent|;
      if !stdinOpen || (ready && favourOutput(clock)) {
        if ready {
          Receive();
        }
        return false;
      }
      if taken == |input| {
        stdinOpen := false;
      } else {
        Dispatch();
      }
      return false;
    }

    /**
     Any number of turns.  If the loop ends among them, all input was read, every prompt of it is
     finished, and what was written of each is its notifications and then its whole response.
     */
    method Run(turns: nat) returns (over: bool)
      requires Valid()
      modifies this
      ensures Valid()
      ensures over ==> taken == |input| && |world.tasks| == Prompts(input)
      ensures over ==> forall t: nat | t < |world.tasks| ::
                var task := world.tasks[t];
                task.phase == Finished && LinesOf(stdout, t) == task.notified + task.output
    {
      over := false;
      for i := 0 to turns
        invariant Valid() && !over
      {
        over := Turn();
        if over {
          AllWritten();
          return;
        }
      }
    }

    lemma AllWritten()
      requires Valid() && !stdinOpen && pendingPrompts == 0
      ensures taken == |input| && |world.tasks| == Prompts(input)
      ensures forall t: nat | t < |world.tasks| ::
                var task := world.tasks[t];
                task.phase == Finished && LinesOf(stdout, t) == task.notified + task.output
    {
      assert input[..|input|] == input;
      forall t: nat | t < |world.tasks|
        ensures world.tasks[t].phase == Finished
        ensures LinesOf(stdout, t) == world.tasks[t].notified + world.tasks[t].output
      {
        NothingOwed(world, t);
        PrintableLines(stdout, t);
        PrintableLines(world.sent[..world.received], t);
      }
    }
  }

  lemma PromptsOneMore(requests: seq<Request>, n: nat)
    requires n < |requests|
    ensures Prompts(requests[..n + 1]) == Prompts(requests[..n]) + if requests[n].PromptRequest? then 1 else 0
  {
    assert requests[..n + 1][..n] == requests[..n];
  }

  /** Receiving one message moves it from what is owed to what is printed. */
  lemma ReceivedOne(w: World)
    requires w.received < |w.sent|
    ensures var w' := w.(received := w.received + 1); var m := w.sent[w.received];
            && (WorldOk(w) ==> WorldOk(w'))
            && Owed(w) == Owed(w') + (if m.Done? then 1 else 0)
            && Printable(w.sent[..w'.received]) ==
               if m.Line? && m.sender != Loop then Printable(w.sent[..w.received]) + [m] else Printable(w.sent[..w.received])
  {
    var m := w.sent[w.received];
    SentinelsInTwo([m], w.sent[w.received + 1..]);
    assert [m][..0] == [];
    assert Sentinels([m]) == if m.Done? then 1 else 0;
    assert w.sent[w.received..] == [m] + w.sent[w.received + 1..];
    OneMorePrintable(w.sent[..w.received], m);
    assert w.sent[..w.received + 1] == w.sent[..w.received] + [m];
  }

  lemma {:induction false} SentinelsInTwo(first: seq<Message>, second: seq<Message>)
    ensures Sentinels(first + second) == Sentinels(first) + Sentinels(second)
  {
    if second == [] {
      assert first + second == first;
    } else {
      var most := second[..|second| - 1];
      SentinelsInTwo(first, most);
      assert first + second == first + most + [second[|second| - 1]];
      OneMoreMessage(first + most, second[|second| - 1], 0);
    }
  }
}
