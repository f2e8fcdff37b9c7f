/**
 How broad a remembered "always" answer is: the key it is stored under, and the proof of
 which later calls that key covers.
 */
module StickyRules {
  import opened Options
  import opened Json
  import opened SafeCommand

  // --------------------------------------------------------------- arguments

  predicate Contains(s: string, needle: string) {
    needle <= s || (s != "" && Contains(s[1..], needle))
  }

  predicate IsUnkeyed(key: string) {
    key == "toolAction" || key == "toolSummary" || key == "WaitMsBeforeAsync"
  }

  function KeyedFields(fields: seq<Field>): seq<Field> {
    if fields == [] then []
    else (if IsUnkeyed(fields[0].key) then [] else [fields[0]]) + KeyedFields(fields[1..])
  }

  /** The arguments without the display and pacing fields, which are dropped at the top level only. */
  function Keyed(args: Value): Value {
    if args.Object? then Object(KeyedFields(args.fields)) else args
  }

  function ArgsFingerprint(args: Value): string {
    Print(Keyed(args))
  }

  predicate InertExtraArgs(args: Value) {
    && args.Object?
    && forall f | f in args.fields ::
         f.key == "CommandLine" || f.key == "Cwd" || IsUnkeyed(f.key)
  }

  predicate HasCommandLine(args: Value) {
    match args
    case Array(items) => exists v | v in items :: HasCommandLine(v)
    case Object(fields) => exists f | f in fields :: f.key == "CommandLine" || HasCommandLine(f.value)
    case _ => false
  }

  /** Whether the arguments reach somewhere that the path checks cannot follow. */
  predicate HasUnconstrainedReach(args: Value) {
    match args
    case Text(text) => Contains(text, "://")
    case Array(items) => exists v | v in items :: HasUnconstrainedReach(v)
    case Object(fields) =>
      exists f | f in fields ::
        f.key == "CommandLine" || f.key == "Url" || HasUnconstrainedReach(f.value)
    case _ => false
  }

  // ------------------------------------------------------------------- tools

  datatype ToolKind = Read | Edit | Search | Execute | Fetch | Other

  function KindOf(tool: string): ToolKind {
    match tool
    case "view_file" => Read
    case "list_dir" => Read
    case "read_url_content" => Read
    case "write_to_file" => Edit
    case "replace_file_content" => Edit
    case "grep_search" => Search
    case "find_by_name" => Search
    case "run_command" => Execute
    case "search_web" => Fetch
    case _ => Other
  }

  predicate IsKeyedByTool(kind: ToolKind) {
    kind.Read? || kind.Edit? || kind.Search?
  }

  function ClassifyCall(table: seq<ProgramDef>, tool: string, args: Value): Option<SafeCommand> {
    var line := AsText(Get(args, "CommandLine"));
    if !KindOf(tool).Execute? || line.None? then None else Classify(table, line.value)
  }

  // -------------------------------------------------------------------- keys

  const SAFE := "safe:"

  function StickyScope(table: seq<ProgramDef>, tool: string, args: Value): Option<string> {
    var line := AsText(Get(args, "CommandLine"));
    if KindOf(tool).Execute? && line.Some? && Classify(table, line.value).Some? && InertExtraArgs(args)
    then Some(SAFE + Classify(table, line.value).value.program.name)
    else if !IsKeyedByTool(KindOf(tool)) || HasUnconstrainedReach(args) then Some(ArgsFingerprint(args))
    else None
  }

  datatype AlwaysKey = AlwaysKey(session: string, tool: string, scope: Option<string>)

  /** What an "always" label claims that the answer covers. */
  datatype AlwaysScope = Tool | Command | Call | Program(program: ProgramDef)

  function ScopeLabel(scope: Option<string>, args: Value): AlwaysScope {
    if scope.None? then Tool else if HasCommandLine(args) then Command else Call
  }

  datatype ResolvedCall = ResolvedCall(
    allowKey: AlwaysKey, fingerprintKey: AlwaysKey,
    allowScope: AlwaysScope, denyScope: AlwaysScope, classified: Option<SafeCommand>)

  function ResolvedCallOf(session: string, tool: string, args: Value,
                          scope: Option<string>, classified: Option<SafeCommand>): ResolvedCall {
    var fingerprint := ArgsFingerprint(args);
    var stored :=
      if scope.Some? && classified.Some? && scope.value == SAFE + classified.value.program.name then scope
      else if scope.Some? && SAFE <= scope.value then Some(fingerprint)
      else scope;
    var wording :=
      if classified.Some? && stored == Some(SAFE + classified.value.program.name)
      then Program(classified.value.program)
      else ScopeLabel(stored, args);
    ResolvedCall(
      AlwaysKey(session, tool, stored), AlwaysKey(session, tool, Some(fingerprint)),
      wording, ScopeLabel(Some(fingerprint), args), classified)
  }

  /** What `decide` derives once for a call. */
  function Resolve(table: seq<ProgramDef>, session: string, tool: string, args: Value): ResolvedCall {
    ResolvedCallOf(session, tool, args, StickyScope(table, tool, args), ClassifyCall(table, tool, args))
  }

  // ---------------------------------------------------------------- coverage

  /** The calls that one remembered allow stands for. */
  datatype Coverage =
    | EveryCall
    | EveryInvocation(program: ProgramDef)
    | SameArguments(keyed: Value)

  predicate IsPlainInvocation(table: seq<ProgramDef>, tool: string, args: Value) {
    ClassifyCall(table, tool, args).Some? && InertExtraArgs(args)
  }

  function CoverageOf(table: seq<ProgramDef>, tool: string, args: Value): Coverage {
    if IsPlainInvocation(table, tool, args)
    then EveryInvocation(ClassifyCall(table, tool, args).value.program)
    else if IsKeyedByTool(KindOf(tool)) && !HasUnconstrainedReach(args) then EveryCall
    else SameArguments(Keyed(args))
  }

  function KeyOf(coverage: Coverage): Option<string> {
    match coverage
    case EveryCall => None
    case EveryInvocation(program) => Some(SAFE + program.name)
    case SameArguments(keyed) => Some(Print(keyed))
  }

  lemma {:induction false} KeyedFieldsAreFields(fields: seq<Field>)
    requires AreFields(fields)
    ensures AreFields(KeyedFields(fields))
  {
    if fields != [] {
      KeyedFieldsAreFields(fields[1..]);
      var rest := KeyedFields(fields[1..]);
      assert ([fields[0]] + rest)[1..] == rest && [] + rest == rest;
    }
  }

  lemma KeyedIsValue(args: Value)
    requires IsValue(args)
    ensures IsValue(Keyed(args))
  {
    if args.Object? {
      KeyedFieldsAreFields(args.fields);
    }
  }

  lemma FingerprintIsNotSafe(args: Value)
    requires IsValue(args)
    ensures !(SAFE <= ArgsFingerprint(args))
  {
    KeyedIsValue(args);
    PrintStarts(Keyed(args), "");
  }

  lemma ClassifiedProgramIsInTable(table: seq<ProgramDef>, line: string)
    requires Classify(table, line).Some?
    ensures var p := Classify(table, line).value.program; FindProgram(table, p.name) == Some(p)
  {
    FindProgramByName(table, Tokens(line)[0]);
  }

  lemma StoredKeyIsKeyOfCoverage(table: seq<ProgramDef>, session: string, tool: string, args: Value)
    requires IsValue(args)
    ensures Resolve(table, session, tool, args).allowKey ==
      AlwaysKey(session, tool, KeyOf(CoverageOf(table, tool, args)))
  {
    FingerprintIsNotSafe(args);
  }

  /** Two calls share a key exactly when they belong to one session and one tool and an answer
      for the one covers the other. */
  lemma SameKeyIffCovered(table: seq<ProgramDef>, session: string, tool: string, args: Value,
                          session': string, tool': string, args': Value)
    requires IsValue(args) && IsValue(args')
    ensures
      Resolve(table, session, tool, args).allowKey == Resolve(table, session', tool', args').allowKey
      <==>
      session == session' && tool == tool'
      && CoverageOf(table, tool, args) == CoverageOf(table, tool', args')
  {
    StoredKeyIsKeyOfCoverage(table, session, tool, args);
    StoredKeyIsKeyOfCoverage(table, session', tool', args');
    FingerprintIsNotSafe(args);
    FingerprintIsNotSafe(args');
    KeyedIsValue(args);
    KeyedIsValue(args');
    var c, c' := CoverageOf(table, tool, args), CoverageOf(table, tool', args');
    if c.SameArguments? && c'.SameArguments? && Print(c.keyed) == Print(c'.keyed) {
      PrintInjective(c.keyed, c'.keyed);
    }
    if c.EveryInvocation? && c'.EveryInvocation? && SAFE + c.program.name == SAFE + c'.program.name {
      ClassifiedProgramIsInTable(table, AsText(Get(args, "CommandLine")).value);
      ClassifiedProgramIsInTable(table, AsText(Get(args', "CommandLine")).value);
      SameRest(SAFE, c.program.name, c'.program.name);
    }
  }

  /** A remembered deny covers a later call exactly when the arguments agree up to the
      unkeyed fields, however broad the allow for that call would be. */
  lemma SameFingerprintIffSameArguments(session: string, tool: string, args: Value,
                                        session': string, tool': string, args': Value)
    requires IsValue(args) && IsValue(args')
    ensures
      AlwaysKey(session, tool, Some(ArgsFingerprint(args)))
        == AlwaysKey(session', tool', Some(ArgsFingerprint(args')))
      <==> session == session' && tool == tool' && Keyed(args) == Keyed(args')
  {
    KeyedIsValue(args);
    KeyedIsValue(args');
    if ArgsFingerprint(args) == ArgsFingerprint(args') {
      PrintInjective(Keyed(args), Keyed(args'));
    }
  }

  /** Whatever scope and classification are passed in, the stored key is a program key only
      with the matching classification, and the label never claims less or more than the key. */
  lemma KeyAndLabelAgree(session: string, tool: string, args: Value,
                         scope: Option<string>, classified: Option<SafeCommand>)
    requires IsValue(args)
    ensures var call := ResolvedCallOf(session, tool, args, scope, classified);
      && var key := call.allowKey.scope;
      && (key.Some? && SAFE <= key.value ==>
            classified.Some? && key.value == SAFE + classified.value.program.name)
      && (key.None? <==> call.allowScope.Tool?)
      && (call.allowScope.Program? <==> key.Some? && SAFE <= key.value)
      && (call.allowScope.Program? ==> key == Some(SAFE + call.allowScope.program.name))
      && !call.denyScope.Tool? && !call.denyScope.Program?
  {
    FingerprintIsNotSafe(args);
  }
}
