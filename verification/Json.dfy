/**
 JSON values as the bridge sees them, and the compact text that a value prints to.

 A remembered answer is keyed by the printed arguments, so two different argument trees
 must never print alike.  That is proved here from the printer itself, by showing that no
 printed value is a prefix of another one.
 */
module Json {
  import opened Options

  /** `Object` lists its fields in the order in which the map iterates over them. */
  datatype Value =
    | Null
    | Bool(truth: bool)
    | Number(lexeme: string)
    | Text(text: string)
    | Array(items: seq<Value>)
    | Object(fields: seq<Field>)

  datatype Field = Field(key: string, value: Value)

  function Lookup(fields: seq<Field>, key: string): Option<Value> {
    if fields == [] then None
    else if fields[0].key == key then Some(fields[0].value)
    else Lookup(fields[1..], key)
  }

  function Get(v: Value, key: string): Option<Value> {
    if v.Object? then Lookup(v.fields, key) else None
  }

  function AsText(v: Option<Value>): Option<string> {
    if v.Some? && v.value.Text? then Some(v.value.text) else None
  }

  // ---------------------------------------------------------------- printing

  predicate IsNumberChar(c: char) {
    '0' <= c <= '9' || c == '-' || c == '+' || c == '.' || c == 'e' || c == 'E'
  }

  predicate IsNumberLexeme(s: string) {
    && s != ""
    && ('0' <= s[0] <= '9' || s[0] == '-')
    && forall i | 0 <= i < |s| :: IsNumberChar(s[i])
  }

  /** Numbers carry a number lexeme; nothing else about a value can go wrong. */
  predicate IsValue(v: Value) {
    match v
    case Number(lexeme) => IsNumberLexeme(lexeme)
    case Array(items) => AreValues(items)
    case Object(fields) => AreFields(fields)
    case _ => true
  }

  /** A value that a parser can have produced. */
  type Parsed = v: Value | IsValue(v) witness Null

  predicate AreValues(items: seq<Value>) {
    items == [] || (IsValue(items[0]) && AreValues(items[1..]))
  }

  predicate AreFields(fields: seq<Field>) {
    fields == [] || (IsValue(fields[0].value) && AreFields(fields[1..]))
  }

  function HexDigit(n: nat): char
    requires n < 16
  {
    "0123456789abcdef"[n]
  }

  function EscapeChar(c: char): string {
    match c
    case '\"' => "\\\""
    case '\\' => "\\\\"
    case '\U{8}' => "\\b"
    case '\t' => "\\t"
    case '\n' => "\\n"
    case '\U{c}' => "\\f"
    case '\r' => "\\r"
    case _ =>
      if c as int < 0x20
      then "\\u00" + [HexDigit(c as int / 16), HexDigit(c as int % 16)]
      else [c]
  }

  // Every printer writes its value in front of `rest`, the text that comes after it.

  function Escape(s: string, rest: string): string {
    if s == "" then rest else EscapeChar(s[0]) + Escape(s[1..], rest)
  }

  function PrintText(text: string, rest: string): string {
    ['\"'] + Escape(text, ['\"'] + rest)
  }

  function PrintTo(v: Value, rest: string): string {
    match v
    case Null => "null" + rest
    case Bool(truth) => (if truth then "true" else "false") + rest
    case Number(lexeme) => lexeme + rest
    case Text(text) => PrintText(text, rest)
    case Array(items) =>
      ['['] + if items == [] then [']'] + rest else PrintTo(items[0], PrintItems(items[1..], rest))
    case Object(fields) =>
      ['{'] + if fields == [] then ['}'] + rest else PrintField(fields[0], PrintFields(fields[1..], rest))
  }

  function PrintField(field: Field, rest: string): string {
    PrintText(field.key, [':'] + PrintTo(field.value, rest))
  }

  /** The items after the first, each behind its comma, and the closing bracket. */
  function PrintItems(items: seq<Value>, rest: string): string {
    if items == [] then [']'] + rest else [','] + PrintTo(items[0], PrintItems(items[1..], rest))
  }

  function PrintFields(fields: seq<Field>, rest: string): string {
    if fields == [] then ['}'] + rest else [','] + PrintField(fields[0], PrintFields(fields[1..], rest))
  }

  function Print(v: Value): string {
    PrintTo(v, "")
  }

  // ------------------------------------------------------------- injectivity

  /** What may follow a printed value inside a printed value. */
  predicate EndsValue(rest: string) {
    rest == "" || rest[0] == ',' || rest[0] == ']' || rest[0] == '}'
  }

  lemma SameTail(c: char, d: char, r: string, t: string)
    requires [c] + r == [d] + t
    ensures c == d && r == t
  {
    assert ([c] + r)[0] == ([d] + t)[0];
    assert r == ([c] + r)[1..] == ([d] + t)[1..] == t;
  }

  lemma SameRest(word: string, r: string, t: string)
    requires word + r == word + t
    ensures r == t
  {
    assert r == (word + r)[|word|..] == (word + t)[|word|..] == t;
  }

  lemma EscapeCharPrefixFree(c: char, d: char, r: string, t: string)
    requires EscapeChar(c) + r == EscapeChar(d) + t
    ensures c == d && r == t
  {
    var x, y := EscapeChar(c), EscapeChar(d);
    assert x[0] == (x + r)[0] == (y + t)[0] == y[0];
    if |x| > 1 && |y| > 1 {
      assert x[1] == (x + r)[1] == (y + t)[1] == y[1];
      assert |x| == |y|;
      if |x| > 2 {
        assert x[4] == (x + r)[4] == (y + t)[4] == y[4];
        assert x[5] == (x + r)[5] == (y + t)[5] == y[5];
      }
    }
    assert x == y;
    SameRest(x, r, t);
  }

  /** A bare quote ends the text: no escape begins with one. */
  lemma EscapeEnds(s: string, rest: string)
    ensures Escape(s, ['\"'] + rest) != ""
    ensures Escape(s, ['\"'] + rest)[0] == '\"' <==> s == ""
  {
  }

  lemma {:induction false} EscapePrefixFree(s: string, t: string, r: string, u: string)
    requires Escape(s, ['\"'] + r) == Escape(t, ['\"'] + u)
    ensures s == t && r == u
  {
    EscapeEnds(s, r);
    EscapeEnds(t, u);
    if s == "" {
      SameTail('\"', '\"', r, u);
    } else {
      EscapeCharPrefixFree(s[0], t[0], Escape(s[1..], ['\"'] + r), Escape(t[1..], ['\"'] + u));
      EscapePrefixFree(s[1..], t[1..], r, u);
      assert s == [s[0]] + s[1..] && t == [t[0]] + t[1..];
    }
  }

  lemma TextPrefixFree(s: string, t: string, r: string, u: string)
    requires PrintText(s, r) == PrintText(t, u)
    ensures s == t && r == u
  {
    SameTail('\"', '\"', Escape(s, ['\"'] + r), Escape(t, ['\"'] + u));
    EscapePrefixFree(s, t, r, u);
  }

  lemma NumberNotLonger(a: string, b: string, r: string, u: string)
    requires IsNumberLexeme(a) && IsNumberLexeme(b) && EndsValue(r)
    requires a + r == b + u
    ensures |b| <= |a|
  {
    var w := a + r;
    assert forall i | 0 <= i < |b| :: w[i] == b[i];
    assert |a| < |w| ==> w[|a|] == r[0];
  }

  lemma NumberPrefixFree(a: string, b: string, r: string, u: string)
    requires IsNumberLexeme(a) && IsNumberLexeme(b) && EndsValue(r) && EndsValue(u)
    requires a + r == b + u
    ensures a == b && r == u
  {
    NumberNotLonger(a, b, r, u);
    NumberNotLonger(b, a, u, r);
    assert a == (a + r)[..|a|] == (b + u)[..|b|] == b;
    SameRest(a, r, u);
  }

  /** The first character of a printed value tells which kind of value it is. */
  predicate Starts(v: Value, c: char) {
    match v
    case Null => c == 'n'
    case Bool(truth) => c == if truth then 't' else 'f'
    case Number(lexeme) => '0' <= c <= '9' || c == '-'
    case Text(_) => c == '\"'
    case Array(_) => c == '['
    case Object(_) => c == '{'
  }

  lemma PrintStarts(v: Value, rest: string)
    requires IsValue(v)
    ensures PrintTo(v, rest) != "" && Starts(v, PrintTo(v, rest)[0])
  {
  }

  lemma {:induction false} PrintPrefixFree(a: Value, b: Value, r: string, u: string)
    requires IsValue(a) && IsValue(b) && EndsValue(r) && EndsValue(u)
    requires PrintTo(a, r) == PrintTo(b, u)
    ensures a == b && r == u
    decreases a, 1
  {
    PrintStarts(a, r);
    PrintStarts(b, u);
    match a {
      case Null => SameRest("null", r, u);
      case Bool(truth) => SameRest(if truth then "true" else "false", r, u);
      case Number(lexeme) => NumberPrefixFree(lexeme, b.lexeme, r, u);
      case Text(text) => TextPrefixFree(text, b.text, r, u);
      case Array(items) => ArrayPrefixFree(items, b.items, r, u);
      case Object(fields) => ObjectPrefixFree(fields, b.fields, r, u);
    }
  }

  lemma {:induction false} ArrayPrefixFree(xs: seq<Value>, ys: seq<Value>, r: string, u: string)
    requires AreValues(xs) && AreValues(ys)
    requires PrintTo(Array(xs), r) == PrintTo(Array(ys), u)
    ensures xs == ys && r == u
    decreases xs, 1
  {
    var left := if xs == [] then [']'] + r else PrintTo(xs[0], PrintItems(xs[1..], r));
    var right := if ys == [] then [']'] + u else PrintTo(ys[0], PrintItems(ys[1..], u));
    SameTail('[', '[', left, right);
    if xs != [] { PrintStarts(xs[0], PrintItems(xs[1..], r)); }
    if ys != [] { PrintStarts(ys[0], PrintItems(ys[1..], u)); }
    if xs == [] {
      SameTail(']', ']', r, u);
    } else {
      PrintPrefixFree(xs[0], ys[0], PrintItems(xs[1..], r), PrintItems(ys[1..], u));
      ItemsPrefixFree(xs[1..], ys[1..], r, u);
      assert xs == [xs[0]] + xs[1..] && ys == [ys[0]] + ys[1..];
    }
  }

  lemma {:induction false} ItemsPrefixFree(xs: seq<Value>, ys: seq<Value>, r: string, u: string)
    requires AreValues(xs) && AreValues(ys)
    requires PrintItems(xs, r) == PrintItems(ys, u)
    ensures xs == ys && r == u
    decreases xs, 0
  {
    if xs == [] || ys == [] {
      assert PrintItems(xs, r)[0] == PrintItems(ys, u)[0];
      SameTail(']', ']', r, u);
    } else {
      SameTail(',', ',', PrintTo(xs[0], PrintItems(xs[1..], r)), PrintTo(ys[0], PrintItems(ys[1..], u)));
      PrintPrefixFree(xs[0], ys[0], PrintItems(xs[1..], r), PrintItems(ys[1..], u));
      ItemsPrefixFree(xs[1..], ys[1..], r, u);
      assert xs == [xs[0]] + xs[1..] && ys == [ys[0]] + ys[1..];
    }
  }

  lemma {:induction false} FieldPrefixFree(f: Field, g: Field, r: string, u: string)
    requires IsValue(f.value) && IsValue(g.value) && EndsValue(r) && EndsValue(u)
    requires PrintField(f, r) == PrintField(g, u)
    ensures f == g && r == u
    decreases f, 2
  {
    TextPrefixFree(f.key, g.key, [':'] + PrintTo(f.value, r), [':'] + PrintTo(g.value, u));
    SameTail(':', ':', PrintTo(f.value, r), PrintTo(g.value, u));
    PrintPrefixFree(f.value, g.value, r, u);
  }

  lemma {:induction false} ObjectPrefixFree(xs: seq<Field>, ys: seq<Field>, r: string, u: string)
    requires AreFields(xs) && AreFields(ys)
    requires PrintTo(Object(xs), r) == PrintTo(Object(ys), u)
    ensures xs == ys && r == u
    decreases xs, 1
  {
    var left := if xs == [] then ['}'] + r else PrintField(xs[0], PrintFields(xs[1..], r));
    var right := if ys == [] then ['}'] + u else PrintField(ys[0], PrintFields(ys[1..], u));
    SameTail('{', '{', left, right);
    assert left[0] == right[0];
    if xs == [] {
      SameTail('}', '}', r, u);
    } else {
      FieldPrefixFree(xs[0], ys[0], PrintFields(xs[1..], r), PrintFields(ys[1..], u));
      FieldsPrefixFree(xs[1..], ys[1..], r, u);
      assert xs == [xs[0]] + xs[1..] && ys == [ys[0]] + ys[1..];
    }
  }

  lemma {:induction false} FieldsPrefixFree(xs: seq<Field>, ys: seq<Field>, r: string, u: string)
    requires AreFields(xs) && AreFields(ys)
    requires PrintFields(xs, r) == PrintFields(ys, u)
    ensures xs == ys && r == u
    decreases xs, 0
  {
    if xs == [] || ys == [] {
      assert PrintFields(xs, r)[0] == PrintFields(ys, u)[0];
      SameTail('}', '}', r, u);
    } else {
      SameTail(',', ',', PrintField(xs[0], PrintFields(xs[1..], r)), PrintField(ys[0], PrintFields(ys[1..], u)));
      FieldPrefixFree(xs[0], ys[0], PrintFields(xs[1..], r), PrintFields(ys[1..], u));
      FieldsPrefixFree(xs[1..], ys[1..], r, u);
      assert xs == [xs[0]] + xs[1..] && ys == [ys[0]] + ys[1..];
    }
  }

  /** Two values that print alike are the same value. */
  lemma PrintInjective(a: Value, b: Value)
    requires IsValue(a) && IsValue(b) && Print(a) == Print(b)
    ensures a == b
  {
    PrintPrefixFree(a, b, "", "");
  }
}
