# Verified model of the gated agy adapter

This project models the adapter that puts an ACP client's permission prompts in front of the
tool calls of the `agy` agent, and proves the properties its safety and its streams rest on.
`dafny verify dfyconfig.toml` checks all of it.

| module | what it models |
|---|---|
| `SafeCommand` | the parser that recognises one plain invocation of an allowlisted program, against a declarative grammar; any flag table |
| `Json`, `StickyRules` | JSON values and their print; the keys under which answers are remembered, and what one answer covers |
| `PathRules` | lexical normalisation as a walk, containment in workspace roots, the arguments read as paths |
| `Bridge` | the permission bridge's state, one method per critical section |
| `BridgeProtocol`, `BridgeSections` | every interleaving of hook tasks, host answers, timeouts, cancels and turn edges; what single events do in any reachable state |
| `BridgeRuns`, `BridgeWitnesses` | the same runs with their events: where a decision comes from, what can overturn a remembered answer, in whose turn a reply is given; and two runs that show what is not kept |
| `ProcTree` | the process-tree killer, against others that fork and exit between its steps |
| `Bytes`, `Protobuf` | varints, fields, messages and nested texts: the reader and the writer it undoes |
| `JsonScanner` | the brace scanner, against a tree of RFC 8259 texts |
| `FrameReader` | the bounded line reader of the permission socket, against any portioning of the stream |
| `Streaming` | the stream processor: answer, thoughts, tool calls |
| `OutputLoop` | the main loop, its output channel, the readers and tasks that fill it, and the sentinels that let it stop |
| `SessionCache` | the session map as a recency list, the queue of forgotten sessions, pruning of the persisted store |
| `Options`, `Sequences` | what several of these share |

How the model stands to the program:

- An object that the program mutates is a class whose methods are tied to functions on values;
  what is promised over whole runs is proved about those functions, or about a transition system
  built from them (`BridgeProtocol.Next`, `OutputLoop.Act`, `ProcTree.Next`).
- The lock around the bridge's state makes each critical section one step. A task's steps and
  everything else interleave freely between them. Assumed: the turn counter does not wrap, request
  ids are fresh, one turn runs at a time (the adapter mutex).
- Two properties one might expect do not hold, and the model says exactly when they do.
  - The comment at `src/permission.rs:709-710` lets a remembered deny win over any later allow. Of
    two prompts open at once for one call keyed by its exact arguments, the later answer wins
    (`BridgeWitnesses.SearchDenyOverwritten`). A remembered deny stands exactly when its session is
    not forgotten and no allow is stored over it by a task that had looked the call up before the
    deny was there (`BridgeRuns.DenyStandsUnlessRaced`); a task whose lookup sees the deny never
    replaces it (`BridgeRuns.SeenDenyIsFinal`).
  - Only effects are gated by the turn, not replies: an allow may be returned after its turn ended
    (`BridgeWitnesses.SearchAllowedLate`). It is given in its turn exactly when no turn started or
    ended since the call was bound to its turn (`BridgeRuns.AllowInTurnIff`).
- `a/..` shows a difference between the normaliser and a walk: a relative path that cancels to
  nothing becomes `/`. `PathRules.NormalizeKeepsRelativePlaceIff` says exactly when a relative
  path keeps its place.
- `--flag=a=b` is refused while `--flag a=b` is accepted; `SafeCommand.LongSpellingsAgreeIff` says
  exactly when the two spellings agree.
- The scanner counts characters, where the program counts bytes at character boundaries; text
  offsets in `Streaming` likewise.
- In `Protobuf`, bytes are numbers below 256; a shift is a multiplication reduced to 64 bits, and
  `|` of numbers without a common bit is a sum. `get_proto_field` does not check the end of a
  fixed-width value; the model does the same, and the proof shows it cannot matter.

## Model

| member | source | states |
|---|---|---|
| Json.PrintInjective | src/permission/sticky_rules.rs:48-64 | two argument trees that print alike are the same tree, so a fingerprint identifies what it fingerprints |
| Json.PrintPrefixFree | src/permission/sticky_rules.rs:48-64 | no printed value, with anything that may follow it, can be read as another printed value |
| SafeCommand.ClassifyIffSentence | src/permission/safe_command.rs:544-568 | a line is classified exactly when it is a sentence of the grammar; the paths are, in order, every operand of a path-operand program and every path-valued flag value |
| SafeCommand.SentenceUnique | src/permission/safe_command.rs:587-764 | a line is a sentence in at most one way: no token is skipped, shared or counted twice |
| SafeCommand.ParseSound | src/permission/safe_command.rs:587-690 | what the token loop accepts spells exactly the tokens it was given |
| SafeCommand.ParseComplete | src/permission/safe_command.rs:587-690 | every spelling of acceptable items is parsed back to those items |
| SafeCommand.SpelledLineParses | src/permission/safe_command.rs:544-568 | the answer for a line depends on the meaning of its items alone |
| SafeCommand.LongSpellingsAgreeIff | src/permission/safe_command.rs:616-656 | `--flag=value` and `--flag value` are read alike exactly when the value has no `=` |
| SafeCommand.RespellingKeepsMeaning | src/permission/safe_command.rs:658-716 | bundled or separate switches, attached or separate values: a respelling means the same |
| SafeCommand.SpellingIrrelevant | src/permission/safe_command.rs:544-764 | two lines that differ in such a spelling are classified alike, with the same paths |
| SafeCommand.GapSplitsTokens | src/permission/safe_command.rs:544-560 | a run of blanks always separates tokens and is part of none |
| SafeCommand.GapWidthIrrelevant | src/permission/safe_command.rs:544-560 | how wide a gap between tokens is never matters |
| SafeCommand.OuterBlanksIrrelevant | src/permission/safe_command.rs:544-560 | blanks before and after a line never matter |
| SafeCommand.ClassifiedLineIsPlain | src/permission/safe_command.rs:497-536 | a classified line holds only admitted characters, `=`, `~`, space and tab, with `~` only at the start of an operand or a flag value |
| SafeCommand.Parser.FlagValue | src/permission/safe_command.rs:692-710 | a flag value is taken exactly when the grammar accepts it, and extends the meaning by one atom |
| SafeCommand.Parser.AddOperand | src/permission/safe_command.rs:717-738 | an operand is taken exactly when the program's policy accepts it |
| SafeCommand.Parser.LongFlag | src/permission/safe_command.rs:616-656 | one long flag, with the tokens it uses, is read as the grammar's item |
| SafeCommand.Parser.ShortCluster | src/permission/safe_command.rs:658-690 | one short cluster is read, character by character, as the grammar's item |
| SafeCommand.Parser.Token | src/permission/safe_command.rs:589-614 | one token is read as the grammar's item, or refused when there is none |
| SafeCommand.Parser.Finish | src/permission/safe_command.rs:740-764 | operand counts, and the pattern operand of a searcher, decide acceptance of the collected meaning |
| SafeCommand.ClassifyLine | src/permission/safe_command.rs:544-568 | the imperative token loop computes the classification that the grammar characterises |
| StickyRules.FingerprintIsNotSafe | src/permission/sticky_rules.rs:48-64 | an exact-argument key never looks like a program key |
| StickyRules.SameKeyIffCovered | src/permission.rs:133-174 | two calls share a remembered allow exactly when session and tool agree and they agree in scope: both keyed by tool, both plain invocations of one program, or equal after dropping the unkeyed fields |
| StickyRules.StoredKeyIsKeyOfCoverage | src/permission/sticky_rules.rs:86-130 | the key an allow is stored under is the key of what it covers |
| StickyRules.SameFingerprintIffSameArguments | src/permission.rs:133-174 | a remembered deny covers a call exactly when the arguments agree up to the unkeyed fields |
| StickyRules.KeyAndLabelAgree | src/permission/prompt.rs:29-46 | the prompt's label never claims less or more than the key that is stored |
| PathRules.LexicalNormalize | src/permission/path_rules.rs:87-111 | the loop computes the normal form |
| PathRules.NormalizeIdempotent | src/permission/path_rules.rs:87-111 | normalising twice is normalising once, for any path, absolute or relative |
| PathRules.NormalFormIsNormal | src/permission/path_rules.rs:87-111 | split again, a normal form has no empty and no `.` component, and `..` only as a leading run; it stays absolute or relative, but for a relative path that cancels to nothing |
| PathRules.NormalizeKeepsPlace | src/permission/path_rules.rs:87-111 | an absolute path and its normal form walk to the same place in a tree without links, clamped at `/` |
| PathRules.NormalizeKeepsRelativePlaceIff | src/permission/path_rules.rs:87-111 | a relative path keeps its place exactly when it does not cancel to nothing, or it starts at `/` |
| PathRules.CancelledRelativePath | src/permission/path_rules.rs:87-111 | the exception is real: `a/..` names its starting directory but becomes `/` |
| PathRules.InsideLandsBelow | src/permission/path_rules.rs:78-127 | when nothing resolves, a path judged inside an absolute root lands at or below it |
| PathRules.StartsWithLandsBelow | src/permission/path_rules.rs:113-127 | a normal form that starts with a root leads to a place at or below it, even when the root itself has `..` |
| PathRules.CollectStrings | src/permission/path_rules.rs:164-206 | the recursive collection yields every string, or every string under a path field, in order |
| PathRules.NothingOutsideIff | src/permission/path_rules.rs:14-67 | nothing is outside exactly when every argument that is read as a path is inside some root and none is home-relative; what is reported was read as a path |
| PathRules.ContainedCallLands | src/permission.rs:764-777 | in a tree where nothing resolves, every argument of a contained call lands at or below a workspace root |
| PathRules.ContainedPathsLand | src/permission.rs:779-816 | so does every path of a classified command, joined to its working directory |
| Bridge.PermissionBridge.Drain | src/permission.rs:448-470 | removing requests one by one answers each waiter and leaves the other requests as they were |
| Bridge.PermissionBridge.SetActiveSession | src/permission.rs:368-411 | a turn edge bumps the generation and, on the way in, clears the flag and abandons every open request |
| Bridge.PermissionBridge.MarkUserRefusal | src/permission.rs:424-436 | the flag is raised only for the generation that asked |
| Bridge.PermissionBridge.AbandonPending | src/permission.rs:448-470 | exactly the session's requests are abandoned, and their number returned |
| Bridge.PermissionBridge.RegisterPending | src/permission.rs:472-500 | a request is registered exactly when its turn is still the current one |
| Bridge.PermissionBridge.CaptureTurn | src/permission.rs:534-582 | a call is bound to the running turn, if its conversation belongs to it |
| Bridge.PermissionBridge.ForgetSession | src/permission.rs:503-510 | a session's remembered answers go, and no other's |
| Bridge.PermissionBridge.ResolveResponse | src/permission.rs:513-532 | a response to a pending request answers it once; any id of ours is consumed |
| Bridge.PermissionBridge.StoreAnswer | src/permission.rs:919-952 | an answer is remembered only for the turn that asked |
| BridgeProtocol.NextKeepsState | src/permission.rs:534-955 | no event of any kind breaks the ownership of requests or the tie of tasks to their turns |
| BridgeProtocol.NextKeepsLog | src/permission.rs:534-955 | every event adds only what earlier events justify |
| BridgeProtocol.RunKeepsInvariant | src/permission.rs:534-955 | both hold in every state of every run |
| BridgeProtocol.EffectsOnlyInOwnTurn | src/permission.rs:838-954 | the refusal flag and remembered answers change only by a task whose captured turn is still running with its session active |
| BridgeProtocol.RefusalWasOfThisTurn | src/adapter.rs:974-1004 | a turn is reported as refused only if a task of that very turn refused during it |
| BridgeProtocol.PendingIsOwned | src/permission.rs:472-500 | each pending request is owned by exactly one live, still asking task, and while a turn runs it is of that turn and session |
| BridgeProtocol.ReturnedTaskLeavesNothing | src/permission.rs:623-684 | a task whose decision was returned leaves no request behind |
| BridgeProtocol.AnsweredAtMostOnce | src/permission.rs:513-532 | whatever a waiter was sent stays what it was sent |
| BridgeProtocol.PendingIsBounded | src/permission.rs:284-309 | there are never more pending requests than live tasks, nor more of those than connection permits |
| BridgeProtocol.RunKeepsJudges | src/permission.rs:764-816 | in every run, every containment check was made with registered workspace roots and the policy's sensitive patterns |
| BridgeProtocol.MemoryAllowIsCovered | src/permission.rs:700-762 | an allow from memory follows an always-allow answer of the same session and tool that covers the call, no deny was found for its own arguments, and its arguments and paths were judged contained in registered workspace roots under the policy's sensitive patterns |
| BridgeProtocol.StoredDenyIsExact | src/permission.rs:919-952 | every remembered deny was put there by an always-reject answer, at the exact arguments rejected |
| BridgeSections.CancelIsExact | src/permission.rs:448-470 | a cancel tells exactly those who wait for that session, and touches no other request |
| BridgeSections.AnswerReachesItsWaiter | src/permission.rs:513-532 | a host's answer reaches the one task that waits for it, and nobody else |
| BridgeSections.TurnStartsClean | src/permission.rs:368-411 | a new turn inherits no request, no refusal and no task; whoever was still asking is told |
| BridgeSections.LateTaskIsHarmless | src/permission.rs:838-954 | a task whose turn is over leaves no mark, no answer and no new request |
| BridgeSections.LateStaysLate | src/permission.rs:368-411 | no task ever gets back into a turn that is over |
| BridgeSections.ForgetIsExact | src/permission.rs:503-510 | forgetting a session forgets all of its answers and none of another's |
| BridgeRuns.LastWrite | src/permission.rs:919-952 | whatever is remembered was stored by a task in its own turn, and has been neither forgotten nor overwritten since |
| BridgeRuns.DenyStandsIff | src/permission.rs:919-952 | a remembered deny stands throughout a stretch of a run exactly when its session is not forgotten in it and no allow is stored at its key |
| BridgeRuns.SeenDenyIsFinal | src/permission.rs:700-727 | a task whose lookup sees a remembered deny never does anything else than deny, so it can never replace it |
| BridgeRuns.OverwriterLookedBefore | src/permission.rs:700-727 | an allow stored over a deny comes from another task, with the very arguments that were denied, that looked them up and found no deny |
| BridgeRuns.DenyStandsUnlessRaced | src/permission.rs:700-762 | a remembered deny stands exactly when its session is not forgotten and no allow is stored over it by a task that looked the call up before a deny was stored |
| BridgeWitnesses.DenyCanBeOverwritten | src/permission.rs:919-952 | for every call keyed by its exact arguments there is a run, within one turn and without a forget, in which an allow is stored over its remembered deny |
| BridgeWitnesses.SearchDenyOverwritten | src/permission.rs:919-952 | such a run for a web search without arguments |
| BridgeRuns.InTurnIffNoEdge | src/permission.rs:534-582 | a task is in the turn it was bound to exactly while no turn started or ended since then |
| BridgeRuns.AllowInTurnIff | src/permission.rs:584-762 | every allow, automatic, remembered, for once or for good, is given in its turn exactly when no turn started or ended since the call was bound to it |
| BridgeWitnesses.AllowCanBeLate | src/permission.rs:728-762 | for every call that a remembered allow can decide there is a run in which it is allowed after its turn ended |
| BridgeWitnesses.SearchAllowedLate | src/permission.rs:728-762 | such a run for a web search without arguments |
| BridgeRuns.RefusalHasReason | src/permission.rs:199-216 | a turn is reported as refused only if, during it, a task of that turn found a remembered deny, timed out, or was dismissed or rejected by the host, and for that reason raised the flag; the bridge's own denials never do |
| BridgeRuns.MemoryAllowGoesBack | src/permission.rs:700-762 | an allow from memory goes back to an always-allow answer that covers the call, stored in its own turn, neither forgotten nor overwritten until it was found; no deny was found before, and arguments and paths were judged with the roots and policy of that moment |
| BridgeRuns.JudgedArgsLand | src/permission.rs:764-777 | arguments so judged, in a tree where nothing resolves, land at or below a root registered at that moment |
| BridgeRuns.JudgedPathsLand | src/permission.rs:779-816 | so do the paths of the command line, joined to its working directory |
| ProcTree.Descendants | src/proc.rs:151-164 | each pid below the root, exactly once and no other, on any table: cycles, self-parents and repeated rows included |
| ProcTree.RunKeepsSealed | src/proc.rs:79-95 | whatever others do, a stopped family without a child outside it stays so and only loses members |
| ProcTree.ReadSeals | src/proc.rs:103-125 | a read that shows only pids already stopped has found such a family |
| ProcTree.TreeStaysStopped | src/proc.rs:96-134 | at every later moment the whole tree under the root lies in that family, and whatever of it lives is stopped |
| ProcTree.StopNew | src/proc.rs:115-121 | everything a read shows and not yet stopped is sent one stop; when there was nothing new, nothing else happened |
| ProcTree.StopTree | src/proc.rs:96-125 | at most eight reads; only pids shown below the root by some read are stopped; it settles exactly when nothing was stopped after the last read, which then leaves the tree it showed sealed; otherwise that read was empty or the eighth |
| ProcTree.KillStopped | src/proc.rs:127-134 | one kill for every pid that was stopped, the root's last, and all of them are dead afterwards |
| ProcTree.LineageDies | src/proc.rs:79-134 | if no process of a lineage under the root exits by itself before a sealing read, the lineage and all it ever forked are dead once the sealed family is |
| ProcTree.FamilyIsRooted | src/proc.rs:151-164 | the whole tree under a live root is such a lineage |
| ProcTree.KillProcessTree | src/proc.rs:96-134 | stops, then kills of the same pids with the root last, each shown below the root by some read; when the last read found nothing new, the tree it showed was sealed from then on and is dead, and so is every process the tree had or ever forked, unless one of them had left it by exiting |
| Protobuf.ReadVarint | src/protobuf.rs:4-25 | at most ten groups; a value that is returned is the unbounded sum of its seven-bit groups, below 2^64, with no bit lost |
| Protobuf.RefusedIffTooBig | src/protobuf.rs:4-25 | of terminated varints of at most ten groups, exactly those whose sum does not fit 64 bits are refused |
| Protobuf.VarintOfPrefix | src/protobuf.rs:4-25 | the result is decided by the bytes consumed |
| Protobuf.PushVarint | src/test_support.rs:12-21 | the writer's loop appends the encoding of any 64-bit value |
| Protobuf.VarintRoundTrip | src/protobuf.rs:4-25 | every 64-bit value reads back what was written, consuming exactly that, whatever follows |
| Protobuf.ReadArm | src/protobuf.rs:28-67 | tag and value bounds of one field: every slice in bounds, the cursor strictly advancing, and nothing readable when the value runs past the end |
| Protobuf.GetProtoField | src/protobuf.rs:28-67 | on any bytes, the first length-delimited field with that number |
| Protobuf.GetProtoFields | src/protobuf.rs:74-136 | on any bytes, all values with that number in order, up to the first unreadable field |
| Protobuf.FirstLenIsCollected | src/protobuf.rs:28-136 | what the one reader finds, the other collects, right behind the values of that number before it |
| Protobuf.NoFirstLen | src/protobuf.rs:28-67 | nothing is found exactly when no length-delimited field has the number |
| Protobuf.PushLenField | src/test_support.rs:23-27 | a length-delimited field is appended as the message encoding defines it |
| Protobuf.PushVarintField | src/test_support.rs:29-32 | likewise a number |
| Protobuf.TagReads | src/test_support.rs:23-32 | a tag gives back wire type and field number, the number reduced by the three bits the 64-bit shift loses |
| Protobuf.MessageReads | src/protobuf.rs:74-136 | for every message, decoding gives back its fields, one for one and in order |
| Protobuf.MessageRoundTrip | src/protobuf.rs:28-136 | on an encoded message, one reader gives the first payload written under a number, the other all of them |
| Protobuf.GetVarintField | src/protobuf.rs:138-141 | the first value with that number, read as a varint |
| Protobuf.NumberRoundTrip | src/protobuf.rs:138-141 | a number written first under its field number is the number read |
| Protobuf.ExtractTextFromStepPayload | src/protobuf.rs:144-148 | the text at fields 20 and 1, on any bytes |
| Protobuf.ExtractUserTextFromStepPayload | src/protobuf.rs:150-158 | the prompt's own text or else its content's, unless blank, on any bytes |
| Protobuf.AssistantTextRoundTrip | src/protobuf.rs:144-148 | the assistant's text comes back, whatever other fields surround it |
| Protobuf.UserTextRoundTrip | src/protobuf.rs:150-158 | the user's text comes back from either place it may be in, unless it is blank |
| Protobuf.AssistantPayloadReads | src/test_support.rs:34-41 | the assistant payload builder is undone by the extractor |
| Protobuf.UserPayloadReads | src/test_support.rs:43-54 | the user payload builder is undone by the extractor |
| JsonScanner.ExtractFirstJsonObject | src/protobuf.rs:160-193 | the scanner's loop cuts out the text from the first brace to the one that closes it |
| JsonScanner.CutIsBraced | src/protobuf.rs:160-193 | whatever the text, what is cut starts and ends with a brace and lies behind no other opening brace |
| JsonScanner.ObjectIsCut | src/protobuf.rs:160-193 | any object text of RFC 8259, behind any text without an opening brace and before any text, is cut out exactly |
| FrameReader.ReadBoundedLine | src/permission/frame.rs:88-164 | for every portioning of the stream: the first line within the limit, the whole stream if it ends within it, else an error; never more than limit + 1 bytes taken in |
| FrameReader.Stream.Read | src/permission/frame.rs:99-103 | a read gives some of the bytes ahead, at least one unless none are left, or fails |
| FrameReader.OnePortion | src/permission/frame.rs:104-113 | a newline in a new portion is the first of the stream, and the bytes before it are the line |
| Streaming.RunView | src/streaming.rs:114-388 | after every stream, in either narration mode: chunks shown and thoughts sent are exactly what the events call for, and each step's tool notifications are exactly the call and final updates that its tool and subagent events call for |
| Streaming.AnswerConserved | src/streaming.rs:191-213 | with narration kept, the chunks of each step join to all the text the step was given |
| Streaming.ThoughtConserved | src/streaming.rs:215-261 | the thought chunks of each step join to its thought, deltas and snapshots mixed |
| Streaming.RunThought | src/streaming.rs:215-261 | a snapshot that continues the thought replaces it; any other is ignored |
| Streaming.RunLife | src/streaming.rs:263-388 | the first tool or subagent event of a step is its call, with that title and status; of the later ones each final one is an update, and no other |
| Streaming.DeltaIsWholeOrNothing | src/streaming.rs:191-213 | in either mode an answer delta is sent whole or not at all |
| Streaming.OneCallPerStep | src/streaming.rs:263-388 | at most one tool call per step, before all its updates, each update final |
| Streaming.ResponseOnlyIfSilent | src/streaming.rs:152-189 | a result's response is sent only if no piece of the answer was sent before, and then as one chunk of the last step |
| Streaming.StreamProcessor.ProcessEvent | src/streaming.rs:98-112 | what the processor returns for an event is what the pure step adds to the log |
| Streaming.StreamProcessor.ProcessStepUpdate | src/streaming.rs:114-150 | text, thought, tool and subagent parts are handled in that order |
| Streaming.StreamProcessor.ProcessResultEvent | src/streaming.rs:152-189 | status, error and response of the final event |
| Streaming.StreamProcessor.EmitAgentDelta | src/streaming.rs:191-213 | the accumulated text, the offset and the chunk of one delta |
| Streaming.StreamProcessor.EmitThoughtSnapshot | src/streaming.rs:215-237 | only what a snapshot adds is sent |
| Streaming.StreamProcessor.EmitTool | src/streaming.rs:263-358 | a thinking tool's thought, or the call or update of its step |
| OutputLoop.ActKeepsWorld | src/main.rs:418-443 | whatever prompts and their readers do, the messages of a prompt are its reader's notifications, then its output, then one last sentinel |
| OutputLoop.MainLoop.Drain | src/main.rs:345-353 | everything in the channel is received, its lines written in order, and nothing else changes |
| OutputLoop.ActKeepsDebt | src/main.rs:424-442 | no task's step changes the sum of running prompts and unread sentinels |
| OutputLoop.NothingOwed | src/main.rs:283-285 | when that sum is zero, every prompt is finished and everything it sent has been received |
| OutputLoop.MainLoop.Receive | src/main.rs:312-323 | a line is written; a sentinel always finds a prompt to count off, so the subtraction never saturates |
| OutputLoop.MainLoop.Dispatch | src/main.rs:345-444 | everything sent before has been received, and its lines written, before a request is served and its direct answer written; a prompt adds one task and one to the count |
| OutputLoop.MainLoop.Turn | src/main.rs:283-343 | the loop ends exactly when input is closed and no prompt is pending, and keeps the count right |
| OutputLoop.MainLoop.Run | src/main.rs:283-353 | if the loop ends, all input was read and every prompt's notifications and then its whole response were written |
| SessionCache.UsedIsRecent | src/adapter.rs:427-458 | cutting the recency list at 64 never loses anything a list without bound would keep among its first 64 |
| SessionCache.AgreeMeans | src/adapter.rs:427-505 | the live sessions are the 64 most recently used ids, stamps are distinct, the forget queue has no duplicate and no live session |
| SessionCache.AdmitAgrees | src/adapter.rs:488-505 | letting a session in keeps all of that, and moves it to the front |
| SessionCache.ServedIsUse | src/adapter.rs:546-580 | a request for a session that is live or restorable is one more use of it; any other moves only the clock |
| SessionCache.ServedQueue | src/adapter.rs:434-470 | exactly an evicted session is queued to be forgotten, the last of the list, and one that comes back is not |
| SessionCache.Adapter.TouchSession | src/adapter.rs:427-432 | the clock advances and a live session gets the newest stamp |
| SessionCache.Adapter.EvictIfNeeded | src/adapter.rs:434-458 | the loop drops the session with the oldest stamp, which is the last of the recency list, into the queue |
| SessionCache.Adapter.KeepSessionAnswers | src/adapter.rs:464-469 | every occurrence of the id leaves the queue, the rest keeps its order |
| SessionCache.Adapter.RestoreSessionState | src/adapter.rs:488-505 | a session comes back exactly when it is stored with a conversation, with what was stored and the newest stamp |
| SessionCache.Adapter.HandleSessionNew | src/adapter.rs:524-537 | a fresh session is at the front of the list |
| SessionCache.Adapter.HandleSessionLoad | src/adapter.rs:546-632 | which reply, and the cache after it: untouched without an id, else one use, with the replayed step recorded |
| SessionCache.Adapter.HandleSessionResume | src/adapter.rs:634-673 | likewise for a resume |
| SessionCache.Adapter.ChangeModel | src/adapter.rs:690-739 | the session is looked up before the model, and only an acceptable model is recorded |
| SessionCache.Adapter.HandleSessionSetModel | src/adapter.rs:675-740 | missing parameters change nothing; a success records the normalised model |
| SessionCache.Adapter.HandleSessionSetConfigOption | src/adapter.rs:742-831 | the same through the config option, whose name is checked first |
| SessionCache.Adapter.PromptBegins | src/adapter.rs:839-855 | a prompt is one use of its session; an empty id is never restored |
| SessionCache.Adapter.PersistSession | src/adapter.rs:341-403 | under the id: conversation, step, model and time of the session, at most 256 entries, the kept ones ranking at least as high as the dropped; or no change when the store cannot be written |
| SessionCache.Adapter.ReplayHistory | src/adapter.rs:582-632 | the replayed step goes into the session, and with its conversation and model into the store; nothing changes without a history |
| SessionCache.Adapter.TeardownTurn | src/adapter.rs:974-1019 | a session binds a conversation at most once; under its id the store holds the conversation the stream bound, its last step and the session's model, and is untouched when nothing was bound |
| SessionCache.PruneStore | src/adapter.rs:380-403 | exactly min(size, 256) entries are left, the one just written among them, every other survivor ranking at least as high as every removed one |

## Left out

- Sockets, subprocesses, signals, SQLite, file locking, JSON-RPC text, environment variables and timeouts appear only as inputs or as steps that may happen.
- `src/runtime.rs`, `src/hook_root.rs`, `src/permission/hook_client.rs` and the `*_unsupported.rs` files: file system and IPC plumbing.
- Prompt wording, titles, display kinds, output formatting and model-list parsing: presentation. A tool notification carries its title and status only, not its locations, content or raw input and output.
- Symlink resolution is an arbitrary partial function; the landing theorems are about a tree in which nothing resolves.
- The sixteen flag tables and the sensitive-pattern list are parameters; `SafeCommand.ClassifiedLineIsPlain` asks of the table that its names and short flags are admitted characters, as those of the program are.
- The JSON parser: a JSON value is a tree, and the text the scanner cuts goes to an arbitrary parser. What `is_narration`, `thought_text_from_value` and the UTF-8 decoder say is arbitrary too, the decoder undoing its encoder where a round trip needs it.
- `src/cancel.rs` and `LiveChildren`: simple registries.
- Liveness (that a host answers, that agy exits), pid reuse, zombies, signals from elsewhere, and counter wrap-around.
- The bridge's one-shot channels are a map from the waiting task to what it was sent; a timeout may fire at any moment while a task waits; the two reads of the auto-allow check (constant policy, workspace roots) are one step; the writer of saturated denials, which never reaches `decide`, is not modelled.
- The asynchronous line reader has the same body as the blocking one and is not written twice.
- In `OutputLoop` a message that arrives while the loop drains counts as arriving before the drain began; the channel cannot close while the loop itself holds a sender, so that exit is not modelled.
- `src/adapter.rs` writes the store through a temporary file; here the store is replaced, or left as it was when the file cannot be locked and written.
