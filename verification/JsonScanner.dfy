/**
 Cutting the first JSON object out of a text by counting braces, and why that is right: a tree of
 RFC 8259 texts, white space and escapes included, against which the scanner is proved.
 */
module JsonScanner {
  import opened Options
  import Json

  // ----------------------------------------------------------------- scanner

  datatype Scan = Scan(depth: nat, inString: bool, escaped: bool)

  const START := Scan(0, false, false)

  predicate Closing(scan: Scan, c: char) {
    !scan.inString && c == '}'
  }

  /** The state after a character that does not close the object. */
  function Next(scan: Scan, c: char): Scan {
    if scan.inString then
      if scan.escaped then Scan(scan.depth, true, false)
      else if c == '\\' then Scan(scan.depth, true, true)
      else Scan(scan.depth, c != '\"', false)
    else if c == '\"' then Scan(scan.depth, true, scan.escaped)
    else if c == '{' then Scan(scan.depth + 1, false, scan.escaped)
    else if c == '}' && scan.depth > 0 then Scan(scan.depth - 1, false, scan.escaped)
    else scan
  }

  /** What is left of `text` after the brace that closes the first one opened, if it is there. */
  function Rest(scan: Scan, text: string): (r: Option<string>)
    ensures r.Some? ==> |r.value| < |text|
    decreases |text|
  {
    if text == "" then None
    else if Closing(scan, text[0]) && scan.depth == 0 then None
    else if Closing(scan, text[0]) && scan.depth == 1 then Some(text[1..])
    else Rest(Next(scan, text[0]), text[1..])
  }

  function FindBrace(s: string): (i: nat)
    ensures i <= |s|
  {
    if s == "" || s[0] == '{' then 0 else 1 + FindBrace(s[1..])
  }

  function Before(text: string, rest: Option<string>): Option<string>
    requires rest.Some? ==> |rest.value| <= |text|
  {
    if rest.Some? then Some(text[..|text| - |rest.value|]) else None
  }

  /** The text from the first opening brace to the brace that closes it. */
  function FirstObject(s: string): Option<string> {
    var text := s[FindBrace(s)..];
    Before(text, Rest(START, text))
  }

  /** The scanner, and what `parse` makes of the text it cut. */
  method ExtractFirstJsonObject<T>(s: string, parse: string -> Option<T>) returns (r: Option<T>)
    ensures r == match FirstObject(s) case None => None case Some(text) => parse(text)
  {
    var start := 0;
    while start < |s| && s[start] != '{'
      invariant start <= |s| && forall i | 0 <= i < start :: s[i] != '{'
    {
      start := start + 1;
    }
    FoundBrace(s, start);
    if start == |s| {
      return None;
    }
    var depth, inString, escaped := 0, false, false;
    ghost var text := s[start..];
    for offset := 0 to |s| - start
      invariant depth >= 0 && Rest(Scan(depth, inString, escaped), text[offset..]) == Rest(START, text)
    {
      var ch := s[start + offset];
      RestStep(Scan(depth, inString, escaped), text, offset);
      if inString {
        if escaped {
          escaped := false;
        } else if ch == '\\' {
          escaped := true;
        } else if ch == '\"' {
          inString := false;
        }
        continue;
      }
      if ch == '\"' {
        inString := true;
      } else if ch == '{' {
        depth := depth + 1;
      } else if ch == '}' {
        if depth == 0 {
          return None;
        }
        depth := depth - 1;
        if depth == 0 {
          assert text[offset + 1..] == s[start + offset + 1..];
          CutHere(s, start, start + offset + 1);
          return parse(s[start..start + offset + 1]);
        }
      }
    }
    return None;
  }

  lemma {:induction false} FoundBrace(s: string, start: nat)
    requires start <= |s| && (forall i | 0 <= i < start :: s[i] != '{') && (start < |s| ==> s[start] == '{')
    ensures FindBrace(s) == start
  {
    if start > 0 {
      FoundBrace(s[1..], start - 1);
    }
  }

  lemma {:induction false} BraceFound(s: string)
    ensures FindBrace(s) < |s| ==> s[FindBrace(s)] == '{'
    ensures forall i | 0 <= i < FindBrace(s) :: s[i] != '{'
  {
    if s != "" && s[0] != '{' {
      BraceFound(s[1..]);
    }
  }

  lemma {:induction false} RestIsSuffix(scan: Scan, text: string)
    requires Rest(scan, text).Some?
    ensures var rest := Rest(scan, text).value;
            text[|text| - |rest|..] == rest && text[|text| - |rest| - 1] == '}'
    decreases |text|
  {
    if !(Closing(scan, text[0]) && scan.depth <= 1) {
      RestIsSuffix(Next(scan, text[0]), text[1..]);
    }
  }

  /** Whatever the text, what is cut out of it is braced and lies behind no other brace. */
  lemma CutIsBraced(s: string)
    requires FirstObject(s).Some?
    ensures var cut, start := FirstObject(s).value, FindBrace(s);
            && cut <= s[start..] && 2 <= |cut| && cut[0] == '{' && cut[|cut| - 1] == '}'
            && forall i | 0 <= i < start :: s[i] != '{'
  {
    BraceFound(s);
    RestIsSuffix(START, s[FindBrace(s)..]);
  }

  lemma RestStep(scan: Scan, text: string, offset: nat)
    requires offset < |text|
    ensures Rest(scan, text[offset..]) ==
            if Closing(scan, text[offset]) && scan.depth == 0 then None
            else if Closing(scan, text[offset]) && scan.depth == 1 then Some(text[offset + 1..])
            else Rest(Next(scan, text[offset]), text[offset + 1..])
  {
    assert text[offset..][1..] == text[offset + 1..];
  }

  lemma CutHere(s: string, start: nat, end: nat)
    requires FindBrace(s) == start < end <= |s| && Rest(START, s[start..]) == Some(s[end..])
    ensures FirstObject(s) == Some(s[start..end])
  {
    assert s[start..][..end - start] == s[start..end];
  }

  // ---------------------------------------------------- the texts of RFC 8259

  datatype Piece = Plain(c: char) | Escaped(c: char) | Unicode(hex: string)

  datatype Doc =
    | Scalar(text: string)
    | Text(pieces: seq<Piece>)
    | Array(blank: string, items: seq<Item>)
    | Object(blank: string, members: seq<Member>)

  datatype Item = Item(before: string, doc: Doc, after: string)

  datatype Member = Member(before: string, name: seq<Piece>, between: string, item: Item)

  predicate IsBlank(s: string) {
    forall i | 0 <= i < |s| :: s[i] in " \t\n\r"
  }

  predicate IsHexDigit(c: char) {
    '0' <= c <= '9' || 'a' <= c <= 'f' || 'A' <= c <= 'F'
  }

  predicate IsPiece(p: Piece) {
    match p
    case Plain(c) => c != '\"' && c != '\\' && c as int >= 0x20
    case Escaped(c) => c in "\"\\/bfnrt"
    case Unicode(hex) => |hex| == 4 && forall i | 0 <= i < |hex| :: IsHexDigit(hex[i])
  }

  predicate ArePieces(pieces: seq<Piece>) {
    forall i | 0 <= i < |pieces| :: IsPiece(pieces[i])
  }

  predicate IsDoc(doc: Doc) {
    match doc
    case Scalar(text) => text in {"null", "true", "false"} || Json.IsNumberLexeme(text)
    case Text(pieces) => ArePieces(pieces)
    case Array(blank, items) => IsBlank(blank) && AreItems(items)
    case Object(blank, members) => IsBlank(blank) && AreMembers(members)
  }

  predicate AreItems(items: seq<Item>) {
    items == [] || (IsItem(items[0]) && AreItems(items[1..]))
  }

  predicate IsItem(item: Item) {
    IsBlank(item.before) && IsDoc(item.doc) && IsBlank(item.after)
  }

  predicate AreMembers(members: seq<Member>) {
    members == [] || (IsMember(members[0]) && AreMembers(members[1..]))
  }

  predicate IsMember(m: Member) {
    IsBlank(m.before) && ArePieces(m.name) && IsBlank(m.between) && IsItem(m.item)
  }

  // Every writer writes in front of `rest`, the text that comes after.

  function WritePiece(p: Piece, rest: string): string {
    match p
    case Plain(c) => [c] + rest
    case Escaped(c) => ['\\'] + ([c] + rest)
    case Unicode(hex) => ['\\'] + (['u'] + (hex + rest))
  }

  function WritePieces(pieces: seq<Piece>, rest: string): string {
    if pieces == [] then ['\"'] + rest else WritePiece(pieces[0], WritePieces(pieces[1..], rest))
  }

  function WriteText(pieces: seq<Piece>, rest: string): string {
    ['\"'] + WritePieces(pieces, rest)
  }

  function Write(doc: Doc, rest: string): string {
    match doc
    case Scalar(text) => text + rest
    case Text(pieces) => WriteText(pieces, rest)
    case Array(blank, items) =>
      ['['] + if items == [] then blank + ([']'] + rest) else WriteItem(items[0], WriteItems(items[1..], rest))
    case Object(blank, members) =>
      ['{'] + if members == [] then blank + (['}'] + rest) else WriteMember(members[0], WriteMembers(members[1..], rest))
  }

  function WriteItem(item: Item, rest: string): string {
    item.before + Write(item.doc, item.after + rest)
  }

  function WriteItems(items: seq<Item>, rest: string): string {
    if items == [] then [']'] + rest else [','] + WriteItem(items[0], WriteItems(items[1..], rest))
  }

  function WriteMember(m: Member, rest: string): string {
    m.before + WriteText(m.name, m.between + ([':'] + WriteItem(m.item, rest)))
  }

  function WriteMembers(members: seq<Member>, rest: string): string {
    if members == [] then ['}'] + rest else [','] + WriteMember(members[0], WriteMembers(members[1..], rest))
  }

  function Render(doc: Doc): string {
    Write(doc, "")
  }

  // ------------------------------------------------- the scanner on such texts

  lemma RestOneMore(scan: Scan, c: char, rest: string)
    ensures Rest(scan, [c] + rest) ==
            if Closing(scan, c) && scan.depth == 0 then None
            else if Closing(scan, c) && scan.depth == 1 then Some(rest)
            else Rest(Next(scan, c), rest)
  {
    assert ([c] + rest)[1..] == rest;
  }

  predicate IsQuiet(text: string) {
    forall i | 0 <= i < |text| :: text[i] != '\"' && text[i] != '{' && text[i] != '}'
  }

  predicate IsEven(text: string) {
    forall i | 0 <= i < |text| :: text[i] != '\"' && text[i] != '\\'
  }

  lemma {:induction false} QuietSkipped(depth: nat, text: string, rest: string)
    requires IsQuiet(text)
    ensures Rest(Scan(depth, false, false), text + rest) == Rest(Scan(depth, false, false), rest)
  {
    if text != "" {
      assert text + rest == [text[0]] + (text[1..] + rest);
      RestOneMore(Scan(depth, false, false), text[0], text[1..] + rest);
      QuietSkipped(depth, text[1..], rest);
    } else {
      assert text + rest == rest;
    }
  }

  lemma {:induction false} EvenSkipped(depth: nat, text: string, rest: string)
    requires IsEven(text)
    ensures Rest(Scan(depth, true, false), text + rest) == Rest(Scan(depth, true, false), rest)
  {
    if text != "" {
      assert text + rest == [text[0]] + (text[1..] + rest);
      RestOneMore(Scan(depth, true, false), text[0], text[1..] + rest);
      EvenSkipped(depth, text[1..], rest);
    } else {
      assert text + rest == rest;
    }
  }

  lemma PieceSkipped(depth: nat, p: Piece, rest: string)
    requires IsPiece(p)
    ensures Rest(Scan(depth, true, false), WritePiece(p, rest)) == Rest(Scan(depth, true, false), rest)
  {
    match p
    case Plain(c) =>
      RestOneMore(Scan(depth, true, false), c, rest);
    case Escaped(c) =>
      RestOneMore(Scan(depth, true, false), '\\', [c] + rest);
      RestOneMore(Scan(depth, true, true), c, rest);
    case Unicode(hex) =>
      RestOneMore(Scan(depth, true, false), '\\', ['u'] + (hex + rest));
      RestOneMore(Scan(depth, true, true), 'u', hex + rest);
      EvenSkipped(depth, hex, rest);
  }

  lemma {:induction false} PiecesSkipped(depth: nat, pieces: seq<Piece>, rest: string)
    requires ArePieces(pieces)
    ensures Rest(Scan(depth, true, false), WritePieces(pieces, rest)) == Rest(Scan(depth, false, false), rest)
  {
    if pieces == [] {
      RestOneMore(Scan(depth, true, false), '\"', rest);
    } else {
      PieceSkipped(depth, pieces[0], WritePieces(pieces[1..], rest));
      PiecesSkipped(depth, pieces[1..], rest);
    }
  }

  /** Whatever quotes, backslashes and braces a string holds, the scanner comes out behind it. */
  lemma TextSkipped(depth: nat, pieces: seq<Piece>, rest: string)
    requires ArePieces(pieces)
    ensures Rest(Scan(depth, false, false), WriteText(pieces, rest)) == Rest(Scan(depth, false, false), rest)
  {
    RestOneMore(Scan(depth, false, false), '\"', WritePieces(pieces, rest));
    PiecesSkipped(depth, pieces, rest);
  }

  /** A value inside an object is skipped as a whole. */
  lemma {:induction false} DocSkipped(depth: nat, doc: Doc, rest: string)
    requires depth >= 1 && IsDoc(doc)
    ensures Rest(Scan(depth, false, false), Write(doc, rest)) == Rest(Scan(depth, false, false), rest)
    decreases doc, 1
  {
    match doc
    case Scalar(text) =>
      QuietSkipped(depth, text, rest);
    case Text(pieces) =>
      TextSkipped(depth, pieces, rest);
    case Array(blank, items) =>
      ArraySkipped(depth, doc, rest);
    case Object(blank, members) =>
      ObjectSkipped(depth, doc, rest);
  }

  lemma {:induction false} ArraySkipped(depth: nat, doc: Doc, rest: string)
    requires depth >= 1 && IsDoc(doc) && doc.Array?
    ensures Rest(Scan(depth, false, false), Write(doc, rest)) == Rest(Scan(depth, false, false), rest)
    decreases doc, 0
  {
    var Array(blank, items) := doc;
    if items == [] {
      EmptyArraySkipped(depth, blank, rest);
    } else {
      RestOneMore(Scan(depth, false, false), '[', WriteItem(items[0], WriteItems(items[1..], rest)));
      ItemSkipped(depth, items[0], WriteItems(items[1..], rest));
      ItemsSkipped(depth, items[1..], rest);
    }
  }

  lemma EmptyArraySkipped(depth: nat, blank: string, rest: string)
    requires IsBlank(blank)
    ensures Rest(Scan(depth, false, false), ['['] + (blank + ([']'] + rest))) == Rest(Scan(depth, false, false), rest)
  {
    RestOneMore(Scan(depth, false, false), '[', blank + ([']'] + rest));
    QuietSkipped(depth, blank, [']'] + rest);
    RestOneMore(Scan(depth, false, false), ']', rest);
  }

  lemma {:induction false} ItemSkipped(depth: nat, item: Item, rest: string)
    requires depth >= 1 && IsItem(item)
    ensures Rest(Scan(depth, false, false), WriteItem(item, rest)) == Rest(Scan(depth, false, false), rest)
    decreases item, 0
  {
    QuietSkipped(depth, item.before, Write(item.doc, item.after + rest));
    DocSkipped(depth, item.doc, item.after + rest);
    QuietSkipped(depth, item.after, rest);
  }

  lemma {:induction false} ItemsSkipped(depth: nat, items: seq<Item>, rest: string)
    requires depth >= 1 && AreItems(items)
    ensures Rest(Scan(depth, false, false), WriteItems(items, rest)) == Rest(Scan(depth, false, false), rest)
    decreases items, 1
  {
    if items == [] {
      RestOneMore(Scan(depth, false, false), ']', rest);
    } else {
      RestOneMore(Scan(depth, false, false), ',', WriteItem(items[0], WriteItems(items[1..], rest)));
      ItemSkipped(depth, items[0], WriteItems(items[1..], rest));
      ItemsSkipped(depth, items[1..], rest);
    }
  }

  lemma {:induction false} MemberSkipped(depth: nat, m: Member, rest: string)
    requires depth >= 1 && IsMember(m)
    ensures Rest(Scan(depth, false, false), WriteMember(m, rest)) == Rest(Scan(depth, false, false), rest)
    decreases m, 0
  {
    var value := WriteItem(m.item, rest);
    QuietSkipped(depth, m.before, WriteText(m.name, m.between + ([':'] + value)));
    TextSkipped(depth, m.name, m.between + ([':'] + value));
    QuietSkipped(depth, m.between, [':'] + value);
    RestOneMore(Scan(depth, false, false), ':', value);
    ItemSkipped(depth, m.item, rest);
  }

  /** What is left behind the brace that brings the depth down from `depth`. */
  function Closed(depth: nat, rest: string): Option<string>
    requires depth >= 1
  {
    if depth == 1 then Some(rest) else Rest(Scan(depth - 1, false, false), rest)
  }

  lemma {:induction false} MembersSkipped(depth: nat, members: seq<Member>, rest: string)
    requires depth >= 1 && AreMembers(members)
    ensures Rest(Scan(depth, false, false), WriteMembers(members, rest)) == Closed(depth, rest)
    decreases members, 1
  {
    if members == [] {
      RestOneMore(Scan(depth, false, false), '}', rest);
    } else {
      RestOneMore(Scan(depth, false, false), ',', WriteMember(members[0], WriteMembers(members[1..], rest)));
      MemberSkipped(depth, members[0], WriteMembers(members[1..], rest));
      MembersSkipped(depth, members[1..], rest);
    }
  }

  lemma {:induction false} ObjectSkipped(depth: nat, doc: Doc, rest: string)
    requires IsDoc(doc) && doc.Object?
    ensures Rest(Scan(depth, false, false), Write(doc, rest)) == Closed(depth + 1, rest)
    decreases doc, 0
  {
    var Object(blank, members) := doc;
    if members == [] {
      EmptyObjectSkipped(depth, blank, rest);
    } else {
      FullObjectSkipped(depth, members, rest);
    }
  }

  lemma {:induction false} FullObjectSkipped(depth: nat, members: seq<Member>, rest: string)
    requires members != [] && AreMembers(members)
    ensures Rest(Scan(depth, false, false), ['{'] + WriteMember(members[0], WriteMembers(members[1..], rest))) ==
            Closed(depth + 1, rest)
    decreases members, 2
  {
    var inside := WriteMembers(members[1..], rest);
    RestOneMore(Scan(depth, false, false), '{', WriteMember(members[0], inside));
    MemberSkipped(depth + 1, members[0], inside);
    MembersSkipped(depth + 1, members[1..], rest);
  }

  lemma EmptyObjectSkipped(depth: nat, blank: string, rest: string)
    requires IsBlank(blank)
    ensures Rest(Scan(depth, false, false), ['{'] + (blank + (['}'] + rest))) == Closed(depth + 1, rest)
  {
    RestOneMore(Scan(depth, false, false), '{', blank + (['}'] + rest));
    QuietSkipped(depth + 1, blank, ['}'] + rest);
    RestOneMore(Scan(depth + 1, false, false), '}', rest);
  }

  // Writing in front of a rest is writing, then the rest.

  lemma {:induction false} WriteSplits(doc: Doc, rest: string)
    ensures Write(doc, rest) == Render(doc) + rest
    decreases doc, 0
  {
    assert "" + rest == rest;
    match doc
    case Scalar(text) =>
    case Text(pieces) =>
      PiecesSplit(pieces, "", rest);
    case Array(blank, items) =>
      if items == [] {
        assert blank + ([']'] + rest) == blank + [']'] + rest;
      } else {
        ItemsSplit(items[1..], "", rest);
        ItemSplits(items[0], WriteItems(items[1..], ""), rest);
      }
    case Object(blank, members) =>
      if members == [] {
        assert blank + (['}'] + rest) == blank + ['}'] + rest;
      } else {
        MembersSplit(members[1..], "", rest);
        MemberSplits(members[0], WriteMembers(members[1..], ""), rest);
      }
  }

  lemma {:induction false} PiecesSplit(pieces: seq<Piece>, first: string, rest: string)
    ensures WritePieces(pieces, first + rest) == WritePieces(pieces, first) + rest
  {
    if pieces != [] {
      PiecesSplit(pieces[1..], first, rest);
    }
  }

  lemma {:induction false} ItemSplits(item: Item, first: string, rest: string)
    ensures WriteItem(item, first + rest) == WriteItem(item, first) + rest
    decreases item, 0
  {
    assert item.after + (first + rest) == item.after + first + rest;
    WriteSplits(item.doc, item.after + (first + rest));
    WriteSplits(item.doc, item.after + first);
  }

  lemma {:induction false} ItemsSplit(items: seq<Item>, first: string, rest: string)
    ensures WriteItems(items, first + rest) == WriteItems(items, first) + rest
    decreases items, 1
  {
    if items != [] {
      ItemsSplit(items[1..], first, rest);
      ItemSplits(items[0], WriteItems(items[1..], first), rest);
    }
  }

  lemma {:induction false} MemberSplits(m: Member, first: string, rest: string)
    ensures WriteMember(m, first + rest) == WriteMember(m, first) + rest
    decreases m, 0
  {
    ItemSplits(m.item, first, rest);
    var value := WriteItem(m.item, first);
    assert m.between + ([':'] + (value + rest)) == m.between + ([':'] + value) + rest;
    PiecesSplit(m.name, m.between + ([':'] + value), rest);
  }

  lemma {:induction false} MembersSplit(members: seq<Member>, first: string, rest: string)
    ensures WriteMembers(members, first + rest) == WriteMembers(members, first) + rest
    decreases members, 1
  {
    if members != [] {
      MembersSplit(members[1..], first, rest);
      MemberSplits(members[0], WriteMembers(members[1..], first), rest);
    }
  }

  /** Of any text holding an object behind no other brace, the scanner cuts out exactly the object. */
  lemma ObjectIsCut(before: string, doc: Doc, after: string)
    requires IsDoc(doc) && doc.Object? && '{' !in before
    ensures FirstObject(before + Render(doc) + after) == Some(Render(doc))
  {
    var s := before + Render(doc) + after;
    WriteSplits(doc, after);
    ObjectSkipped(0, doc, after);
    assert s[|before|..] == Write(doc, after);
    assert forall i | 0 <= i < |before| :: s[i] == before[i];
    FoundBrace(s, |before|);
    var end := |before| + |Render(doc)|;
    assert s[end..] == after && s[|before|..end] == Render(doc);
    CutHere(s, |before|, end);
  }
}
