/**
 The safe-command parser: which command lines are one plain invocation of an allowlisted
 program, and which paths such a line names.

 The first half is the grammar: a line is a program name followed by items, and every item
 has a spelling (the tokens it is written as) and a meaning (its atoms).  The second half is
 the parser, which works on tokens, and the proof that it accepts exactly the sentences of
 the grammar, whatever the flag tables say.
 */
module SafeCommand {
  import opened Options

  // ------------------------------------------------------------------ tables

  datatype OperandPolicy = Paths | Names | Formats

  datatype FlagDef = FlagDef(
    long: Option<string>, short: Option<char>, arity: nat, valueIsPath: bool, attachedOnly: bool)

  datatype ProgramDef = ProgramDef(
    name: string, noun: string, flags: seq<FlagDef>, operands: OperandPolicy,
    minOperands: nat, maxOperands: Option<nat>, patternFirst: bool)

  datatype SafeCommand = SafeCommand(program: ProgramDef, paths: seq<string>)

  function FindLong(flags: seq<FlagDef>, name: string): Option<FlagDef> {
    if flags == [] then None
    else if flags[0].long == Some(name) then Some(flags[0])
    else FindLong(flags[1..], name)
  }

  function FindShort(flags: seq<FlagDef>, c: char): Option<FlagDef> {
    if flags == [] then None
    else if flags[0].short == Some(c) then Some(flags[0])
    else FindShort(flags[1..], c)
  }

  function FindProgram(table: seq<ProgramDef>, name: string): Option<ProgramDef> {
    if table == [] then None
    else if table[0].name == name then Some(table[0])
    else FindProgram(table[1..], name)
  }

  // -------------------------------------------------------------- characters

  predicate IsAlphanumeric(c: char) {
    'a' <= c <= 'z' || 'A' <= c <= 'Z' || '0' <= c <= '9'
  }

  predicate IsTokenChar(c: char) {
    IsAlphanumeric(c) || c in "_-./+,:@%"
  }

  predicate IsLongName(name: string) {
    name != "" && forall c | c in name :: IsAlphanumeric(c) || c == '-'
  }

  predicate ValidWord(token: string) {
    && '=' !in token
    && if token != "" && token[0] == '~'
       then '~' !in token[1..] && forall c | c in token[1..] :: IsTokenChar(c)
       else forall c | c in token :: IsTokenChar(c)
  }

  predicate ValidValue(value: string) {
    && value != "" && value != "-" && value[0] != '='
    && if value[0] == '~'
       then '~' !in value[1..] && forall c | c in value[1..] :: IsTokenChar(c) || c == '='
       else forall c | c in value :: IsTokenChar(c) || c == '='
  }

  /** Characters that separate or end commands, and everything that is not ASCII. */
  predicate IsForbidden(c: char) {
    c in "\n\r\0" || c as int == 0x0b || c as int == 0x0c || c as int >= 0x80
  }

  predicate HasForbidden(line: string) {
    exists c :: c in line && IsForbidden(c)
  }

  // ------------------------------------------------------------------ tokens

  predicate IsBlank(c: char) {
    c == ' ' || c == '\t'
  }

  function WordEnd(line: string): (n: nat)
    ensures n <= |line|
    ensures forall i | 0 <= i < n :: !IsBlank(line[i])
    ensures n < |line| ==> IsBlank(line[n])
  {
    if line == "" || IsBlank(line[0]) then 0 else 1 + WordEnd(line[1..])
  }

  /** The maximal blank-free stretches of a line, in order. */
  function Tokens(line: string): seq<string>
    decreases |line|
  {
    if line == "" then []
    else if IsBlank(line[0]) then Tokens(line[1..])
    else [line[..WordEnd(line)]] + Tokens(line[WordEnd(line)..])
  }

  // ----------------------------------------------------------------- grammar

  /** One flag or operand, in each way that it can be written. */
  datatype Item =
    | LongSwitch(name: string)
    | LongAttached(name: string, value: string)
    | LongSeparate(name: string, value: string)
    | Cluster(switches: string)
    | ShortAttached(switches: string, flag: char, value: string)
    | ShortSeparate(switches: string, flag: char, value: string)
    | Operand(word: string)

  /** What an item says, apart from how it is written. */
  datatype Atom =
    | LongBare(name: string)
    | ShortBare(flag: char)
    | LongValue(name: string, value: string)
    | ShortValue(flag: char, value: string)
    | Word(word: string)

  function Spell(item: Item): seq<string> {
    match item
    case LongSwitch(name) => ["--" + name]
    case LongAttached(name, value) => ["--" + name + "=" + value]
    case LongSeparate(name, value) => ["--" + name, value]
    case Cluster(switches) => ["-" + switches]
    case ShortAttached(switches, flag, value) => ["-" + switches + [flag] + value]
    case ShortSeparate(switches, flag, value) => ["-" + switches + [flag], value]
    case Operand(word) => [word]
  }

  function SpellAll(items: seq<Item>): seq<string> {
    if items == [] then [] else Spell(items[0]) + SpellAll(items[1..])
  }

  function ShortFlags(switches: string): seq<Atom> {
    seq(|switches|, i requires 0 <= i < |switches| => ShortBare(switches[i]))
  }

  function Meaning(item: Item): seq<Atom> {
    match item
    case LongSwitch(name) => [LongBare(name)]
    case LongAttached(name, value) => [LongValue(name, value)]
    case LongSeparate(name, value) => [LongValue(name, value)]
    case Cluster(switches) => ShortFlags(switches)
    case ShortAttached(switches, flag, value) => ShortFlags(switches) + [ShortValue(flag, value)]
    case ShortSeparate(switches, flag, value) => ShortFlags(switches) + [ShortValue(flag, value)]
    case Operand(word) => [Word(word)]
  }

  function MeaningAll(items: seq<Item>): seq<Atom> {
    if items == [] then [] else Meaning(items[0]) + MeaningAll(items[1..])
  }

  predicate IsLongFlag(p: ProgramDef, name: string, takesValue: bool) {
    && IsLongName(name)
    && FindLong(p.flags, name).Some?
    && (FindLong(p.flags, name).value.arity != 0 <==> takesValue)
  }

  predicate IsShortFlag(p: ProgramDef, c: char, takesValue: bool) {
    FindShort(p.flags, c).Some? && (FindShort(p.flags, c).value.arity != 0 <==> takesValue)
  }

  predicate AreSwitches(p: ProgramDef, switches: string) {
    forall c | c in switches :: IsShortFlag(p, c, false)
  }

  /** The item is written as the program's table allows: known flags, each with or without a
      value as the table says, and attached-only flags never apart from their value. */
  predicate WellSpelled(p: ProgramDef, item: Item) {
    match item
    case LongSwitch(name) => IsLongFlag(p, name, false)
    case LongAttached(name, value) => IsLongFlag(p, name, true) && '=' !in value
    case LongSeparate(name, _) =>
      IsLongFlag(p, name, true) && !FindLong(p.flags, name).value.attachedOnly
    case Cluster(switches) => switches != "" && switches[0] != '-' && AreSwitches(p, switches)
    case ShortAttached(switches, flag, value) =>
      && (switches + [flag])[0] != '-' && AreSwitches(p, switches)
      && IsShortFlag(p, flag, true) && value != ""
    case ShortSeparate(switches, flag, _) =>
      && (switches + [flag])[0] != '-' && AreSwitches(p, switches)
      && IsShortFlag(p, flag, true) && !FindShort(p.flags, flag).value.attachedOnly
    case Operand(word) => word == "" || word[0] != '-'
  }

  predicate AllWellSpelled(p: ProgramDef, items: seq<Item>) {
    forall item | item in items :: WellSpelled(p, item)
  }

  /** Values and operands are inert text, and operands fit the program's policy. */
  predicate Acceptable(p: ProgramDef, atom: Atom) {
    match atom
    case LongValue(_, value) => ValidValue(value)
    case ShortValue(_, value) => ValidValue(value)
    case Word(word) => ValidWord(word) && (p.operands.Formats? ==> word != "" && word[0] == '+')
    case _ => true
  }

  predicate AllAcceptable(p: ProgramDef, atoms: seq<Atom>) {
    forall atom | atom in atoms :: Acceptable(p, atom)
  }

  /** The table entry behind a flag that carries a value. */
  function ValueFlag(p: ProgramDef, atom: Atom): Option<FlagDef> {
    match atom
    case LongValue(name, _) => FindLong(p.flags, name)
    case ShortValue(flag, _) => FindShort(p.flags, flag)
    case _ => None
  }

  function PathsOf(p: ProgramDef, atom: Atom): seq<string> {
    match atom
    case Word(word) => if p.operands.Paths? then [word] else []
    case LongValue(_, value) =>
      if ValueFlag(p, atom).Some? && ValueFlag(p, atom).value.valueIsPath then [value] else []
    case ShortValue(_, value) =>
      if ValueFlag(p, atom).Some? && ValueFlag(p, atom).value.valueIsPath then [value] else []
    case _ => []
  }

  /** Every operand of a path-operand program and every path-valued flag value, in order. */
  function AllPaths(p: ProgramDef, atoms: seq<Atom>): seq<string> {
    if atoms == [] then [] else PathsOf(p, atoms[0]) + AllPaths(p, atoms[1..])
  }

  function Operands(atoms: seq<Atom>): seq<string> {
    if atoms == [] then []
    else (if atoms[0].Word? then [atoms[0].word] else []) + Operands(atoms[1..])
  }

  predicate ChoosesPattern(p: ProgramDef, atom: Atom) {
    var def := ValueFlag(p, atom);
    def.Some? && (def.value.short == Some('e') || def.value.short == Some('f'))
  }

  predicate SawPattern(p: ProgramDef, atoms: seq<Atom>) {
    atoms != [] && (ChoosesPattern(p, atoms[0]) || SawPattern(p, atoms[1..]))
  }

  /** Enough operands that the program reads something other than its standard input. */
  predicate CountsOk(p: ProgramDef, operands: nat, sawPattern: bool) {
    && (p.maxOperands.Some? ==> operands <= p.maxOperands.value)
    && if p.patternFirst
       then operands >= (if sawPattern then 1 else 2)
       else operands >= p.minOperands
  }

  /** `line` is the program `p` of the table followed by `items`. */
  predicate Spells(table: seq<ProgramDef>, line: string, p: ProgramDef, items: seq<Item>) {
    && !HasForbidden(line)
    && FindProgram(table, p.name) == Some(p)
    && Tokens(line) == [p.name] + SpellAll(items)
    && AllWellSpelled(p, items)
  }

  predicate Sentence(table: seq<ProgramDef>, line: string, p: ProgramDef, items: seq<Item>) {
    && Spells(table, line, p, items)
    && var atoms := MeaningAll(items);
       AllAcceptable(p, atoms) && CountsOk(p, |Operands(atoms)|, SawPattern(p, atoms))
  }

  // ------------------------------------------------------------------ parser

  /** The first position of `c`, or the length of `s` when it has none. */
  function IndexOf(s: string, c: char): (n: nat)
    ensures n <= |s| && c !in s[..n]
    ensures n < |s| ==> s[n] == c
  {
    if s == "" || s[0] == c then 0 else 1 + IndexOf(s[1..], c)
  }

  /** How many leading characters are bare switches; `None` once an unknown flag comes first. */
  function SwitchRun(p: ProgramDef, cluster: string): (n: Option<nat>)
    ensures n.Some? ==>
      && n.value <= |cluster| && AreSwitches(p, cluster[..n.value])
      && (n.value < |cluster| ==> IsShortFlag(p, cluster[n.value], true))
  {
    if cluster == "" then Some(0)
    else
      var def := FindShort(p.flags, cluster[0]);
      if def.None? then None
      else if def.value.arity != 0 then Some(0)
      else
        var more := SwitchRun(p, cluster[1..]);
        if more.None? then None
        else
          assert cluster[..1 + more.value] == [cluster[0]] + cluster[1..][..more.value];
          Some(1 + more.value)
  }

  function LongItem(p: ProgramDef, long: string, rest: seq<string>): Option<Item> {
    var n := IndexOf(long, '=');
    var def := FindLong(p.flags, long[..n]);
    if !IsLongName(long[..n]) || def.None? then None
    else if n < |long| then
      if '=' in long[n + 1..] || def.value.arity == 0 then None
      else Some(LongAttached(long[..n], long[n + 1..]))
    else if def.value.arity == 0 then Some(LongSwitch(long))
    else if def.value.attachedOnly || rest == [] then None
    else Some(LongSeparate(long, rest[0]))
  }

  function ShortItem(p: ProgramDef, cluster: string, rest: seq<string>): Option<Item> {
    var run := SwitchRun(p, cluster);
    if run.None? then None
    else
      var n := run.value;
      if n == |cluster| then Some(Cluster(cluster))
      else if n + 1 < |cluster| then Some(ShortAttached(cluster[..n], cluster[n], cluster[n + 1..]))
      else if FindShort(p.flags, cluster[n]).value.attachedOnly || rest == [] then None
      else Some(ShortSeparate(cluster[..n], cluster[n], rest[0]))
  }

  function NextItem(p: ProgramDef, token: string, rest: seq<string>): (item: Option<Item>)
    ensures item.Some? ==> 1 <= |Spell(item.value)| <= 1 + |rest|
  {
    if token == "-" || token == "--" then None
    else if "--" <= token then LongItem(p, token[2..], rest)
    else if "-" <= token then ShortItem(p, token[1..], rest)
    else Some(Operand(token))
  }

  function ParseAll(p: ProgramDef, tokens: seq<string>): Option<seq<Item>>
    decreases |tokens|
  {
    if tokens == [] then Some([])
    else
      var item := NextItem(p, tokens[0], tokens[1..]);
      if item.None? || !AllAcceptable(p, Meaning(item.value)) then None
      else
        var more := ParseAll(p, tokens[|Spell(item.value)|..]);
        if more.None? then None else Some([item.value] + more.value)
  }

  function Classify(table: seq<ProgramDef>, line: string): Option<SafeCommand> {
    var tokens := Tokens(line);
    if HasForbidden(line) || tokens == [] then None
    else
      var p := FindProgram(table, tokens[0]);
      if p.None? then None
      else
        var items := ParseAll(p.value, tokens[1..]);
        if items.None? then None
        else
          Accept(p.value, MeaningAll(items.value))
  }

  function Accept(p: ProgramDef, atoms: seq<Atom>): Option<SafeCommand> {
    if CountsOk(p, |Operands(atoms)|, SawPattern(p, atoms))
    then Some(SafeCommand(p, AllPaths(p, atoms)))
    else None
  }

  // ------------------------------------------------- the parser and the grammar

  lemma LongItemSound(p: ProgramDef, long: string, rest: seq<string>)
    ensures var item := LongItem(p, long, rest);
      item.Some? ==>
        && WellSpelled(p, item.value)
        && Spell(item.value) == (["--" + long] + rest)[..|Spell(item.value)|]
  {
    var n := IndexOf(long, '=');
    if n < |long| {
      assert "--" + long == "--" + long[..n] + "=" + long[n + 1..];
    } else {
      assert long[..n] == long;
    }
  }

  lemma ShortItemSound(p: ProgramDef, cluster: string, rest: seq<string>)
    requires cluster != "" && cluster[0] != '-'
    ensures var item := ShortItem(p, cluster, rest);
      item.Some? ==>
        && WellSpelled(p, item.value)
        && Spell(item.value) == (["-" + cluster] + rest)[..|Spell(item.value)|]
  {
    var run := SwitchRun(p, cluster);
    if run.Some? {
      var n := run.value;
      if n == |cluster| {
        assert cluster[..n] == cluster;
      } else {
        var switches, flag, value := cluster[..n], cluster[n], cluster[n + 1..];
        assert (switches + [flag])[0] == cluster[0];
        assert "-" + cluster == "-" + switches + [flag] + value;
        if value == "" {
          assert "-" + cluster == "-" + switches + [flag];
        }
      }
    }
  }

  lemma NextItemSound(p: ProgramDef, token: string, rest: seq<string>)
    ensures var item := NextItem(p, token, rest);
      item.Some? ==>
        WellSpelled(p, item.value) && Spell(item.value) == ([token] + rest)[..|Spell(item.value)|]
  {
    if token != "-" && token != "--" {
      if "--" <= token {
        assert token == "--" + token[2..];
        LongItemSound(p, token[2..], rest);
      } else if "-" <= token {
        assert token == "-" + token[1..];
        ShortItemSound(p, token[1..], rest);
      }
    }
  }

  lemma {:induction false} SwitchRunSkips(p: ProgramDef, switches: string, more: string)
    requires AreSwitches(p, switches)
    ensures SwitchRun(p, switches + more) ==
      if SwitchRun(p, more).None? then None else Some(|switches| + SwitchRun(p, more).value)
  {
    if switches == "" {
      assert switches + more == more;
    } else {
      assert switches[0] in switches;
      assert (switches + more)[1..] == switches[1..] + more;
      SwitchRunSkips(p, switches[1..], more);
    }
  }

  lemma {:induction false} IndexOfFirst(s: string, c: char, more: string)
    requires c !in s && (more == "" || more[0] == c)
    ensures IndexOf(s + more, c) == |s|
  {
    if s == "" {
      assert s + more == more;
    } else {
      assert (s + more)[1..] == s[1..] + more;
      IndexOfFirst(s[1..], c, more);
    }
  }

  lemma LongNameHasNoEquals(name: string)
    requires IsLongName(name)
    ensures '=' !in name
  {
  }

  lemma AttachedComplete(p: ProgramDef, name: string, value: string, rest: seq<string>)
    requires IsLongFlag(p, name, true) && '=' !in value
    ensures NextItem(p, "--" + name + "=" + value, rest) == Some(LongAttached(name, value))
  {
    var token, more := "--" + name + "=" + value, "=" + value;
    LongNameHasNoEquals(name);
    assert token[2..] == name + more;
    IndexOfFirst(name, '=', more);
    assert token[2..][..|name|] == name;
    assert token[2..][|name| + 1..] == value;
  }

  lemma BareComplete(p: ProgramDef, name: string, rest: seq<string>)
    requires IsLongName(name)
    ensures NextItem(p, "--" + name, rest) == LongItem(p, name, rest)
    ensures IndexOf(name, '=') == |name| && name[..|name|] == name
  {
    LongNameHasNoEquals(name);
    assert ("--" + name)[2..] == name && name + "" == name;
    IndexOfFirst(name, '=', "");
  }

  lemma LongItemComplete(p: ProgramDef, item: Item, rest: seq<string>)
    requires WellSpelled(p, item) && (item.LongSwitch? || item.LongAttached? || item.LongSeparate?)
    ensures NextItem(p, Spell(item)[0], Spell(item)[1..] + rest) == Some(item)
  {
    if item.LongAttached? {
      AttachedComplete(p, item.name, item.value, Spell(item)[1..] + rest);
    } else {
      BareComplete(p, item.name, Spell(item)[1..] + rest);
    }
  }

  lemma ClusterComplete(p: ProgramDef, switches: string, more: string, rest: seq<string>)
    requires AreSwitches(p, switches) && switches + more != "" && (switches + more)[0] != '-'
    requires more != "" ==> IsShortFlag(p, more[0], true)
    ensures var token := "-" + switches + more;
      NextItem(p, token, rest) ==
        if more == "" then Some(Cluster(switches))
        else if |more| > 1 then Some(ShortAttached(switches, more[0], more[1..]))
        else if FindShort(p.flags, more[0]).value.attachedOnly || rest == [] then None
        else Some(ShortSeparate(switches, more[0], rest[0]))
  {
    var token, cluster := "-" + switches + more, switches + more;
    assert token[1..] == cluster && token[1] == cluster[0];
    SwitchRunSkips(p, switches, more);
    assert cluster[..|switches|] == switches && cluster[|switches|..] == more;
    if more == "" {
      assert cluster == switches;
    } else {
      assert cluster[|switches| + 1..] == more[1..] && cluster[|switches|] == more[0];
    }
  }

  lemma ShortItemComplete(p: ProgramDef, item: Item, rest: seq<string>)
    requires WellSpelled(p, item) && (item.Cluster? || item.ShortAttached? || item.ShortSeparate?)
    ensures NextItem(p, Spell(item)[0], Spell(item)[1..] + rest) == Some(item)
  {
    match item {
      case Cluster(switches) =>
        assert switches + "" == switches && "-" + switches + "" == "-" + switches;
        ClusterComplete(p, switches, "", rest);
      case ShortAttached(switches, flag, value) =>
        var more := [flag] + value;
        assert "-" + switches + more == "-" + switches + [flag] + value && more[1..] == value;
        assert (switches + more)[0] == (switches + [flag])[0];
        ClusterComplete(p, switches, more, rest);
      case ShortSeparate(switches, flag, value) =>
        ClusterComplete(p, switches, [flag], [value] + rest);
    }
  }

  lemma NextItemComplete(p: ProgramDef, item: Item, rest: seq<string>)
    requires WellSpelled(p, item)
    ensures NextItem(p, Spell(item)[0], Spell(item)[1..] + rest) == Some(item)
  {
    match item {
      case LongSwitch(_) => LongItemComplete(p, item, rest);
      case LongAttached(_, _) => LongItemComplete(p, item, rest);
      case LongSeparate(_, _) => LongItemComplete(p, item, rest);
      case Cluster(_) => ShortItemComplete(p, item, rest);
      case ShortAttached(_, _, _) => ShortItemComplete(p, item, rest);
      case ShortSeparate(_, _, _) => ShortItemComplete(p, item, rest);
      case Operand(_) =>
    }
  }

  lemma {:induction false} ParseSound(p: ProgramDef, tokens: seq<string>)
    ensures var items := ParseAll(p, tokens);
      items.Some? ==>
        && AllWellSpelled(p, items.value)
        && SpellAll(items.value) == tokens
        && AllAcceptable(p, MeaningAll(items.value))
    decreases |tokens|
  {
    if tokens != [] && ParseAll(p, tokens).Some? {
      var item := NextItem(p, tokens[0], tokens[1..]).value;
      NextItemSound(p, tokens[0], tokens[1..]);
      assert [tokens[0]] + tokens[1..] == tokens;
      ParseSound(p, tokens[|Spell(item)|..]);
      var items := ParseAll(p, tokens).value;
      assert items[0] == item && items[1..] == ParseAll(p, tokens[|Spell(item)|..]).value;
    }
  }

  lemma ParseHead(p: ProgramDef, item: Item, tail: seq<string>)
    requires WellSpelled(p, item)
    ensures var more := ParseAll(p, tail);
      ParseAll(p, Spell(item) + tail) ==
        if AllAcceptable(p, Meaning(item)) && more.Some? then Some([item] + more.value) else None
  {
    var head, tokens := Spell(item), Spell(item) + tail;
    NextItemComplete(p, item, tail);
    assert tokens[0] == head[0] && tokens[1..] == head[1..] + tail;
    assert tokens[|head|..] == tail;
  }

  lemma {:induction false} ParseComplete(p: ProgramDef, items: seq<Item>)
    requires AllWellSpelled(p, items)
    ensures ParseAll(p, SpellAll(items)) ==
      if AllAcceptable(p, MeaningAll(items)) then Some(items) else None
  {
    if items != [] {
      assert items[0] in items;
      ParseHead(p, items[0], SpellAll(items[1..]));
      ParseComplete(p, items[1..]);
      assert items == [items[0]] + items[1..];
    }
  }

  /** A line is classified exactly when it is a sentence of the grammar, and then the paths are
      those of the sentence.  The parse is unique, so no token is skipped or counted twice. */
  lemma ClassifyIffSentence(table: seq<ProgramDef>, line: string)
    ensures Classify(table, line).Some? <==> exists p, items :: Sentence(table, line, p, items)
    ensures forall p, items | Sentence(table, line, p, items) ::
      Classify(table, line) == Some(SafeCommand(p, AllPaths(p, MeaningAll(items))))
  {
    var tokens := Tokens(line);
    if Classify(table, line).Some? {
      var p := FindProgram(table, tokens[0]).value;
      FindProgramByName(table, tokens[0]);
      ParseSound(p, tokens[1..]);
      var items := ParseAll(p, tokens[1..]).value;
      assert tokens == [p.name] + SpellAll(items);
      assert Sentence(table, line, p, items);
    }
    forall p, items | Sentence(table, line, p, items)
      ensures Classify(table, line) == Some(SafeCommand(p, AllPaths(p, MeaningAll(items))))
    {
      SpelledLineParses(table, line, p, items);
    }
  }

  lemma FindProgramByName(table: seq<ProgramDef>, name: string)
    requires FindProgram(table, name).Some?
    ensures FindProgram(table, name).value.name == name
  {
  }

  /** The answer for a line that spells `items` depends on their meaning alone. */
  lemma SpelledLineParses(table: seq<ProgramDef>, line: string, p: ProgramDef, items: seq<Item>)
    requires Spells(table, line, p, items)
    ensures var atoms := MeaningAll(items);
      Classify(table, line) ==
        if AllAcceptable(p, atoms) && CountsOk(p, |Operands(atoms)|, SawPattern(p, atoms))
        then Some(SafeCommand(p, AllPaths(p, atoms))) else None
  {
    var tokens := Tokens(line);
    assert tokens[0] == p.name && tokens[1..] == SpellAll(items);
    ParseComplete(p, items);
  }

  /** A line is a sentence in at most one way. */
  lemma SentenceUnique(table: seq<ProgramDef>, line: string,
                       p: ProgramDef, xs: seq<Item>, q: ProgramDef, ys: seq<Item>)
    requires Sentence(table, line, p, xs) && Sentence(table, line, q, ys)
    ensures p == q && xs == ys
  {
    assert Tokens(line)[0] == p.name == q.name;
    assert SpellAll(xs) == Tokens(line)[1..] == SpellAll(ys);
    ParseComplete(p, xs);
    ParseComplete(p, ys);
  }

  /** `--flag=value` and `--flag value` are interchangeable exactly for values without `=`. */
  lemma LongSpellingsAgreeIff(p: ProgramDef, name: string, value: string, rest: seq<string>)
    requires IsLongFlag(p, name, true) && !FindLong(p.flags, name).value.attachedOnly
    ensures NextItem(p, "--" + name, [value] + rest) == Some(LongSeparate(name, value))
    ensures NextItem(p, "--" + name + "=" + value, rest) ==
      if '=' in value then None else Some(LongAttached(name, value))
  {
    LongItemComplete(p, LongSeparate(name, value), rest);
    LongNameHasNoEquals(name);
    var token, more := "--" + name + "=" + value, "=" + value;
    assert token[2..] == name + more;
    IndexOfFirst(name, '=', more);
    assert token[2..][..|name|] == name && token[2..][|name| + 1..] == value;
  }

  // ------------------------------------------------------- the parser's state

  lemma {:induction false} AppendAtom(p: ProgramDef, atoms: seq<Atom>, atom: Atom)
    ensures AllPaths(p, atoms + [atom]) == AllPaths(p, atoms) + PathsOf(p, atom)
    ensures Operands(atoms + [atom]) == Operands(atoms) + if atom.Word? then [atom.word] else []
    ensures SawPattern(p, atoms + [atom]) <==> SawPattern(p, atoms) || ChoosesPattern(p, atom)
  {
    if atoms != [] {
      assert (atoms + [atom])[1..] == atoms[1..] + [atom];
      AppendAtom(p, atoms[1..], atom);
    }
  }

  /** Behind `i` bare switches, the character at `i` decides what the cluster is. */
  lemma ClusterAt(p: ProgramDef, cluster: string, i: nat, rest: seq<string>)
    requires i < |cluster| && AreSwitches(p, cluster[..i])
    ensures var def := FindShort(p.flags, cluster[i]);
      && (def.None? ==> ShortItem(p, cluster, rest).None?)
      && (def.Some? && def.value.arity != 0 ==>
        ShortItem(p, cluster, rest) ==
          if i + 1 < |cluster| then Some(ShortAttached(cluster[..i], cluster[i], cluster[i + 1..]))
          else if def.value.attachedOnly || rest == [] then None
          else Some(ShortSeparate(cluster[..i], cluster[i], rest[0])))
  {
    assert cluster == cluster[..i] + cluster[i..];
    SwitchRunSkips(p, cluster[..i], cluster[i..]);
  }

  lemma SwitchAt(p: ProgramDef, cluster: string, i: nat, start: seq<Atom>)
    requires i < |cluster| && AreSwitches(p, cluster[..i]) && IsShortFlag(p, cluster[i], false)
    ensures AreSwitches(p, cluster[..i + 1])
    ensures start + ShortFlags(cluster[..i]) + [ShortBare(cluster[i])] == start + ShortFlags(cluster[..i + 1])
  {
    assert cluster[..i + 1] == cluster[..i] + [cluster[i]];
  }

  lemma SwitchesAcceptable(p: ProgramDef, switches: string, atom: Atom)
    ensures AllAcceptable(p, ShortFlags(switches))
    ensures AllAcceptable(p, ShortFlags(switches) + [atom]) <==> Acceptable(p, atom)
  {
    assert atom in ShortFlags(switches) + [atom];
  }

  lemma ClusterEnds(p: ProgramDef, cluster: string, rest: seq<string>)
    requires AreSwitches(p, cluster[..|cluster|])
    ensures cluster[..|cluster|] == cluster
    ensures ShortItem(p, cluster, rest) == Some(Cluster(cluster)) && Reads(p, Some(Cluster(cluster)))
  {
    assert cluster[..|cluster|] == cluster == cluster + "";
    SwitchRunSkips(p, cluster, "");
  }

  /** What has been read of one line; `atoms` is its meaning. */
  class Parser {
    const program: ProgramDef
    var sawPatternFlag: bool
    var operands: seq<string>
    var paths: seq<string>
    ghost var atoms: seq<Atom>

    ghost predicate Valid()
      reads this
    {
      && operands == Operands(atoms)
      && paths == AllPaths(program, atoms)
      && sawPatternFlag == SawPattern(program, atoms)
    }

    constructor (program: ProgramDef)
      ensures Valid() && this.program == program && atoms == []
    {
      this.program := program;
      sawPatternFlag, operands, paths, atoms := false, [], [], [];
    }

    ghost method Read(atom: Atom)
      requires operands == Operands(atoms) + if atom.Word? then [atom.word] else []
      requires paths == AllPaths(program, atoms) + PathsOf(program, atom)
      requires sawPatternFlag <==> SawPattern(program, atoms) || ChoosesPattern(program, atom)
      modifies this`atoms
      ensures Valid() && atoms == old(atoms) + [atom]
    {
      AppendAtom(program, atoms, atom);
      atoms := atoms + [atom];
    }

    method FlagValue(def: FlagDef, value: string, ghost atom: Atom) returns (ok: bool)
      requires Valid() && ValueFlag(program, atom) == Some(def) && atom.value == value
      modifies this
      ensures ok <==> Acceptable(program, atom)
      ensures ok ==> Valid() && atoms == old(atoms) + [atom]
    {
      if !ValidValue(value) {
        return false;
      }
      if def.short == Some('e') || def.short == Some('f') {
        sawPatternFlag := true;
      }
      if def.valueIsPath {
        paths := paths + [value];
      }
      Read(atom);
      return true;
    }

    method AddOperand(token: string) returns (ok: bool)
      requires Valid()
      modifies this
      ensures ok <==> Acceptable(program, Word(token))
      ensures ok ==> Valid() && atoms == old(atoms) + [Word(token)]
    {
      if !ValidWord(token) {
        return false;
      }
      match program.operands {
        case Paths =>
          operands := operands + [token];
          paths := paths + [token];
        case _ =>
          if program.operands.Formats? && !("+" <= token) {
            return false;
          }
          operands := operands + [token];
      }
      Read(Word(token));
      return true;
    }

    /** One `--name` or `--name=value` token; `used` counts the tokens taken from `rest`. */
    method LongFlag(long: string, rest: seq<string>) returns (ok: bool, used: nat)
      requires Valid()
      modifies this
      ensures var item := LongItem(program, long, rest);
        && (ok <==> Reads(program, item))
        && (ok ==> Valid() && atoms == old(atoms) + Meaning(item.value)
                   && used + 1 == |Spell(item.value)|)
    {
      ok, used := false, 0;
      var n := IndexOf(long, '=');
      if n < |long| && '=' in long[n + 1..] {
        return;
      }
      var name := long[..n];
      var def := FindLong(program.flags, name);
      if !IsLongName(name) || def.None? {
        return;
      }
      assert n == |long| ==> name == long;
      if def.value.arity == 0 {
        ok := n == |long|;
        if ok {
          Read(LongBare(name));
        }
      } else if n < |long| {
        ok := FlagValue(def.value, long[n + 1..], LongValue(name, long[n + 1..]));
      } else if !def.value.attachedOnly && rest != [] {
        used := 1;
        ok := FlagValue(def.value, rest[0], LongValue(name, rest[0]));
      }
    }

    /** The flag at `i` takes a value: the rest of its token, or else the next token. */
    method ClusterValue(cluster: string, i: nat, rest: seq<string>, ghost start: seq<Atom>)
      returns (ok: bool, used: nat)
      requires i < |cluster| && IsShortFlag(program, cluster[i], true)
      requires Valid() && atoms == start + ShortFlags(cluster[..i])
      requires AreSwitches(program, cluster[..i])
      modifies this
      ensures var item := ShortItem(program, cluster, rest);
        && (ok <==> Reads(program, item))
        && (ok ==> Valid() && atoms == start + Meaning(item.value) && used + 1 == |Spell(item.value)|)
    {
      ok, used := false, 0;
      ClusterAt(program, cluster, i, rest);
      var def := FindShort(program.flags, cluster[i]).value;
      var value := cluster[i + 1..];
      if value == "" {
        if def.attachedOnly || rest == [] {
          return;
        }
        value, used := rest[0], 1;
      }
      ghost var atom := ShortValue(cluster[i], value);
      SwitchesAcceptable(program, cluster[..i], atom);
      assert start + ShortFlags(cluster[..i]) + [atom] == start + (ShortFlags(cluster[..i]) + [atom]);
      ok := FlagValue(def, value, atom);
    }

    /** One `-xyz` token, read character by character. */
    method ShortCluster(cluster: string, rest: seq<string>) returns (ok: bool, used: nat)
      requires Valid()
      modifies this
      ensures var item := ShortItem(program, cluster, rest);
        && (ok <==> Reads(program, item))
        && (ok ==> Valid() && atoms == old(atoms) + Meaning(item.value)
                   && used + 1 == |Spell(item.value)|)
    {
      ok, used := false, 0;
      ghost var start := atoms;
      var i := 0;
      while i < |cluster|
        invariant i <= |cluster| && Valid() && AreSwitches(program, cluster[..i])
        invariant atoms == start + ShortFlags(cluster[..i])
        invariant !ok && used == 0
      {
        var def := FindShort(program.flags, cluster[i]);
        if def.None? {
          ClusterAt(program, cluster, i, rest);
          return;
        }
        if def.value.arity != 0 {
          ok, used := ClusterValue(cluster, i, rest, start);
          return;
        }
        SwitchAt(program, cluster, i, start);
        Read(ShortBare(cluster[i]));
        i := i + 1;
      }
      ClusterEnds(program, cluster, rest);
      ok := true;
    }

    method Token(token: string, rest: seq<string>) returns (ok: bool, used: nat)
      requires Valid()
      modifies this
      ensures var item := NextItem(program, token, rest);
        && (ok <==> Reads(program, item))
        && (ok ==> Valid() && atoms == old(atoms) + Meaning(item.value)
                   && used + 1 == |Spell(item.value)|)
    {
      ok, used := false, 0;
      if token == "-" || token == "--" {
        return;
      }
      if "--" <= token {
        ok, used := LongFlag(token[2..], rest);
      } else if "-" <= token {
        ok, used := ShortCluster(token[1..], rest);
      } else {
        ok := AddOperand(token);
      }
    }

    method Finish() returns (r: Option<SafeCommand>)
      requires Valid()
      ensures r == Accept(program, atoms)
    {
      if program.maxOperands.Some? && |operands| > program.maxOperands.value {
        return None;
      }
      if program.patternFirst {
        var files := if sawPatternFlag || operands == [] then |operands| else |operands| - 1;
        if files == 0 {
          return None;
        }
      } else if |operands| < program.minOperands {
        return None;
      }
      return Some(SafeCommand(program, paths));
    }
  }

  /** The token loop computes `Classify`; `ClassifyIffSentence` says what that accepts. */
  method ClassifyLine(table: seq<ProgramDef>, line: string) returns (r: Option<SafeCommand>)
    ensures r == Classify(table, line)
  {
    if HasForbidden(line) {
      return None;
    }
    var tokens := Tokens(line);
    if tokens == [] {
      return None;
    }
    var program := FindProgram(table, tokens[0]);
    if program.None? {
      return None;
    }
    var parser := new Parser(program.value);
    var ok := ReadTokens(parser, tokens[1..]);
    if !ok {
      return None;
    }
    r := parser.Finish();
  }

  method ReadTokens(parser: Parser, tokens: seq<string>) returns (ok: bool)
    requires parser.Valid() && parser.atoms == []
    modifies parser
    ensures var items := ParseAll(parser.program, tokens);
      && (ok <==> items.Some?)
      && (ok ==> parser.Valid() && parser.atoms == MeaningAll(items.value))
  {
    var i := 0;
    ghost var items: seq<Item> := [];
    ghost var all := ParseAll(parser.program, tokens);
    ParseStart(all, tokens);
    while i < |tokens|
      invariant i <= |tokens| && parser.Valid() && parser.atoms == MeaningAll(items)
      invariant Continues(all, items, ParseAll(parser.program, tokens[i..]))
    {
      ok, i, items := ReadToken(parser, tokens, i, all, items);
      if !ok {
        return;
      }
    }
    ParseEnds(parser.program, all, items, tokens, i);
    ok := true;
  }

  /** One round of the token loop: the token at `i`, and the next one if it is its value. */
  method ReadToken(parser: Parser, tokens: seq<string>, i: nat,
                   ghost all: Option<seq<Item>>, ghost items: seq<Item>)
    returns (ok: bool, next: nat, ghost more: seq<Item>)
    requires i < |tokens| && parser.Valid() && parser.atoms == MeaningAll(items)
    requires Continues(all, items, ParseAll(parser.program, tokens[i..]))
    modifies parser
    ensures !ok ==> all.None?
    ensures ok ==>
      && i < next <= |tokens| && parser.Valid() && parser.atoms == MeaningAll(more)
      && Continues(all, more, ParseAll(parser.program, tokens[next..]))
  {
    var used;
    ok, used := parser.Token(tokens[i], tokens[i + 1..]);
    next, more := i + 1 + used, items;
    if ok {
      ghost var item := NextItem(parser.program, tokens[i], tokens[i + 1..]).value;
      RestOfTokens(tokens, i, |Spell(item)|);
      ParseTakes(parser.program, all, items, tokens[i..], item);
      MeaningAllAppend(items, item);
      more := items + [item];
    } else {
      RestOfTokens(tokens, i, 1);
      ParseFails(parser.program, all, items, tokens[i..]);
    }
  }

  lemma ParseEnds(p: ProgramDef, all: Option<seq<Item>>, items: seq<Item>, tokens: seq<string>, i: nat)
    requires i == |tokens| && Continues(all, items, ParseAll(p, tokens[i..]))
    ensures all == Some(items)
  {
    assert tokens[i..] == [] && items + [] == items;
  }

  lemma ParseStart(all: Option<seq<Item>>, tokens: seq<string>)
    ensures tokens[0..] == tokens && Continues(all, [], all)
  {
    assert all.Some? ==> [] + all.value == all.value;
  }

  /** `all` is the parse that has read `items` so far and still reads `more`. */
  ghost predicate Continues(all: Option<seq<Item>>, items: seq<Item>, more: Option<seq<Item>>) {
    all == if more.None? then None else Some(items + more.value)
  }

  predicate Reads(p: ProgramDef, item: Option<Item>) {
    item.Some? && AllAcceptable(p, Meaning(item.value))
  }

  /** The head of the tokens is one item, or the whole parse fails. */
  lemma ParseTakes(p: ProgramDef, all: Option<seq<Item>>, items: seq<Item>, rest: seq<string>, item: Item)
    requires rest != [] && Continues(all, items, ParseAll(p, rest))
    requires NextItem(p, rest[0], rest[1..]) == Some(item) && Reads(p, Some(item))
    ensures |Spell(item)| <= |rest| && Continues(all, items + [item], ParseAll(p, rest[|Spell(item)|..]))
  {
    var more := ParseAll(p, rest[|Spell(item)|..]);
    if more.Some? {
      assert items + ([item] + more.value) == items + [item] + more.value;
    }
  }

  lemma ParseFails(p: ProgramDef, all: Option<seq<Item>>, items: seq<Item>, rest: seq<string>)
    requires rest != [] && Continues(all, items, ParseAll(p, rest)) && !Reads(p, NextItem(p, rest[0], rest[1..]))
    ensures all.None?
  {
  }

  lemma RestOfTokens(tokens: seq<string>, i: nat, used: nat)
    requires i < |tokens| && 1 <= used <= |tokens| - i
    ensures tokens[i..][0] == tokens[i] && tokens[i..][1..] == tokens[i + 1..] && tokens[i..][used..] == tokens[i + used..]
  {
  }

  lemma MeaningAllAppend(items: seq<Item>, item: Item)
    ensures MeaningAll(items + [item]) == MeaningAll(items) + Meaning(item)
  {
    MeaningAllConcat(items, [item]);
    assert MeaningAll([item]) == Meaning(item) + MeaningAll([]);
  }

  // ---------------------------------------------------------------- spelling

  lemma {:induction false} MeaningAllConcat(xs: seq<Item>, ys: seq<Item>)
    ensures MeaningAll(xs + ys) == MeaningAll(xs) + MeaningAll(ys)
  {
    if xs == [] {
      assert xs + ys == ys;
    } else {
      assert (xs + ys)[1..] == xs[1..] + ys;
      MeaningAllConcat(xs[1..], ys);
    }
  }

  /** The spellings that mean the same: bundled or separate bare switches, attached or separate
      short values, and `--flag=value` or `--flag value`. */
  predicate Respells(xs: seq<Item>, ys: seq<Item>) {
    || (|xs| == 1 && |ys| == 2 && xs[0].Cluster? && ys[0].Cluster? && ys[1].Cluster?
        && xs[0].switches == ys[0].switches + ys[1].switches)
    || (|xs| == 1 && |ys| == 2 && xs[0].ShortAttached? && ys[0].Cluster? && ys[1].ShortAttached?
        && xs[0].switches == ys[0].switches + ys[1].switches
        && xs[0].flag == ys[1].flag && xs[0].value == ys[1].value)
    || (|xs| == |ys| == 1 && xs[0].ShortAttached? && ys[0].ShortSeparate?
        && xs[0].switches == ys[0].switches
        && xs[0].flag == ys[0].flag && xs[0].value == ys[0].value)
    || (|xs| == |ys| == 1 && xs[0].LongAttached? && ys[0].LongSeparate?
        && xs[0].name == ys[0].name && xs[0].value == ys[0].value)
  }

  lemma RespellingKeepsMeaning(xs: seq<Item>, ys: seq<Item>)
    requires Respells(xs, ys)
    ensures MeaningAll(xs) == MeaningAll(ys)
  {
    assert MeaningAll(xs) == Meaning(xs[0]) + MeaningAll(xs[1..]) == Meaning(xs[0]);
    if |ys| == 2 {
      var a, b := ys[0].switches, ys[1].switches;
      assert ShortFlags(a + b) == ShortFlags(a) + ShortFlags(b);
      assert ys == [ys[0]] + [ys[1]];
      MeaningAllConcat([ys[0]], [ys[1]]);
    } else {
      assert MeaningAll(ys) == Meaning(ys[0]) + MeaningAll(ys[1..]) == Meaning(ys[0]);
    }
  }

  /** Two lines that differ in one such spelling are classified alike, with the same paths. */
  lemma SpellingIrrelevant(table: seq<ProgramDef>, p: ProgramDef, one: string, other: string,
                           before: seq<Item>, xs: seq<Item>, ys: seq<Item>, after: seq<Item>)
    requires Respells(xs, ys)
    requires Spells(table, one, p, before + xs + after)
    requires Spells(table, other, p, before + ys + after)
    ensures Classify(table, one) == Classify(table, other)
  {
    RespellingKeepsMeaning(xs, ys);
    MeaningAllConcat(before + xs, after);
    MeaningAllConcat(before, xs);
    MeaningAllConcat(before + ys, after);
    MeaningAllConcat(before, ys);
    SpelledLineParses(table, one, p, before + xs + after);
    SpelledLineParses(table, other, p, before + ys + after);
  }

  predicate IsGap(gap: string) {
    gap != "" && forall c | c in gap :: IsBlank(c)
  }

  lemma {:induction false} LeadingGap(gap: string, line: string)
    requires forall c | c in gap :: IsBlank(c)
    ensures Tokens(gap + line) == Tokens(line)
  {
    if gap == "" {
      assert gap + line == line;
    } else {
      assert gap[0] in gap;
      assert (gap + line)[1..] == gap[1..] + line;
      LeadingGap(gap[1..], line);
    }
  }

  lemma WordEndIs(line: string, n: nat)
    requires n <= |line| && (forall i | 0 <= i < n :: !IsBlank(line[i]))
    requires n < |line| ==> IsBlank(line[n])
    ensures WordEnd(line) == n
  {
  }

  lemma DropFromFirst(a: string, gap: string, b: string, n: nat)
    requires n <= |a|
    ensures (a + gap + b)[n..] == a[n..] + gap + b
  {
  }

  lemma {:induction false} GapSplitsTokens(a: string, gap: string, b: string)
    requires IsGap(gap)
    ensures Tokens(a + gap + b) == Tokens(a) + Tokens(b)
    decreases |a|
  {
    var line := a + gap + b;
    if a == "" {
      assert line == gap + b;
      LeadingGap(gap, b);
    } else if IsBlank(a[0]) {
      assert line[1..] == a[1..] + gap + b;
      GapSplitsTokens(a[1..], gap, b);
    } else {
      var n := WordEnd(a);
      assert gap[0] in gap;
      assert line[n] == if n < |a| then a[n] else gap[0];
      WordEndIs(line, n);
      assert line[..n] == a[..n];
      assert line[n..] == a[n..] + gap + b by { DropFromFirst(a, gap, b, n); }
      GapSplitsTokens(a[n..], gap, b);
    }
  }

  /** How wide a gap is never matters. */
  lemma GapWidthIrrelevant(table: seq<ProgramDef>, a: string, gap: string, wider: string, b: string)
    requires IsGap(gap) && IsGap(wider)
    ensures Classify(table, a + gap + b) == Classify(table, a + wider + b)
  {
    GapSplitsTokens(a, gap, b);
    GapSplitsTokens(a, wider, b);
    ForbiddenInGap(a, gap, b);
    ForbiddenInGap(a, wider, b);
  }

  /** Neither do blanks before or after a line. */
  lemma OuterBlanksIrrelevant(table: seq<ProgramDef>, gap: string, line: string)
    requires IsGap(gap)
    ensures Classify(table, gap + line) == Classify(table, line) == Classify(table, line + gap)
  {
    LeadingGap(gap, line);
    ForbiddenInGap("", gap, line);
    assert "" + gap + line == gap + line && !HasForbidden("");
    GapSplitsTokens(line, gap, "");
    ForbiddenInGap(line, gap, "");
    assert line + gap + "" == line + gap && Tokens(line) + Tokens("") == Tokens(line);
  }

  lemma ForbiddenInGap(a: string, gap: string, b: string)
    requires IsGap(gap)
    ensures HasForbidden(a + gap + b) <==> HasForbidden(a) || HasForbidden(b)
  {
    assert forall c :: c in a + gap + b <==> c in a || c in gap || c in b;
  }

  // -------------------------------------------------------------- characters

  /** The tables themselves are written in admitted characters. */
  predicate IsPlainTable(table: seq<ProgramDef>) {
    forall p | p in table ::
      && (forall c | c in p.name :: IsTokenChar(c))
      && (forall def | def in p.flags :: def.short.Some? ==> IsTokenChar(def.short.value))
  }

  predicate TildeLeads(s: string) {
    s == "" || '~' !in s[1..]
  }

  /** A tilde stands only where an operand or a flag value begins. */
  predicate TildePlaced(item: Item) {
    match item
    case LongSwitch(name) => '~' !in name
    case LongAttached(name, value) => '~' !in name && TildeLeads(value)
    case LongSeparate(name, value) => '~' !in name && TildeLeads(value)
    case Cluster(switches) => '~' !in switches
    case ShortAttached(switches, flag, value) => '~' !in switches && flag != '~' && TildeLeads(value)
    case ShortSeparate(switches, flag, value) => '~' !in switches && flag != '~' && TildeLeads(value)
    case Operand(word) => TildeLeads(word)
  }

  predicate IsAdmitted(c: char) {
    IsTokenChar(c) || c == '=' || c == '~' || IsBlank(c)
  }

  lemma FindProgramInTable(table: seq<ProgramDef>, name: string)
    requires FindProgram(table, name).Some?
    ensures FindProgram(table, name).value in table
  {
  }

  lemma FindShortInTable(flags: seq<FlagDef>, c: char)
    requires FindShort(flags, c).Some?
    ensures FindShort(flags, c).value in flags && FindShort(flags, c).value.short == Some(c)
  {
  }

  lemma {:induction false} ItemIsAcceptable(p: ProgramDef, items: seq<Item>, item: Item)
    requires item in items && AllAcceptable(p, MeaningAll(items))
    ensures AllAcceptable(p, Meaning(item))
  {
    if item != items[0] {
      ItemIsAcceptable(p, items[1..], item);
    }
  }

  lemma InertTextIsPlain(s: string)
    requires ValidWord(s) || ValidValue(s)
    ensures TildeLeads(s)
    ensures forall c | c in s :: IsAdmitted(c)
  {
    if s != "" {
      assert s == [s[0]] + s[1..];
      assert forall c | c in s[1..] :: c in s;
    }
  }

  lemma ItemIsPlain(table: seq<ProgramDef>, p: ProgramDef, item: Item)
    requires IsPlainTable(table) && p in table
    requires WellSpelled(p, item) && AllAcceptable(p, Meaning(item))
    ensures TildePlaced(item)
    ensures forall token, c | token in Spell(item) && c in token :: IsAdmitted(c)
  {
    forall c | IsShortFlag(p, c, true) || IsShortFlag(p, c, false)
      ensures IsTokenChar(c)
    {
      FindShortInTable(p.flags, c);
    }
    if !item.LongSwitch? && !item.Cluster? {
      assert Meaning(item)[|Meaning(item)| - 1] in Meaning(item);
      InertTextIsPlain(if item.Operand? then item.word else item.value);
    }
  }

  lemma {:induction false} SpelledByItem(items: seq<Item>, token: string) returns (item: Item)
    requires token in SpellAll(items)
    ensures item in items && token in Spell(item)
  {
    if token in Spell(items[0]) {
      item := items[0];
    } else {
      item := SpelledByItem(items[1..], token);
    }
  }

  lemma {:induction false} InsideToken(line: string, c: char)
    requires c in line && !IsBlank(c)
    ensures exists token :: token in Tokens(line) && c in token
    decreases |line|
  {
    if IsBlank(line[0]) {
      InsideToken(line[1..], c);
    } else {
      var n := WordEnd(line);
      assert line == line[..n] + line[n..];
      assert line[..n] in Tokens(line);
      if c !in line[..n] {
        InsideToken(line[n..], c);
      }
    }
  }

  /** Every classified line is written in admitted characters, and its tildes lead. */
  lemma ClassifiedLineIsPlain(table: seq<ProgramDef>, line: string, p: ProgramDef, items: seq<Item>)
    requires IsPlainTable(table) && Sentence(table, line, p, items)
    ensures forall c | c in line :: IsAdmitted(c)
    ensures forall item | item in items :: TildePlaced(item)
  {
    FindProgramInTable(table, p.name);
    forall item | item in items
      ensures TildePlaced(item)
      ensures forall token, c | token in Spell(item) && c in token :: IsAdmitted(c)
    {
      ItemIsAcceptable(p, items, item);
      ItemIsPlain(table, p, item);
    }
    forall c | c in line && !IsBlank(c)
      ensures IsAdmitted(c)
    {
      InsideToken(line, c);
      var token :| token in Tokens(line) && c in token;
      if token != p.name {
        var item := SpelledByItem(items, token);
      }
    }
  }
}
