/**
 Path containment: the textual normaliser, the walk that a path describes, and the check that
 keeps a remembered allow inside the workspace.

 Symbolic links enter only through `resolve`, the paths that the file system can resolve.
 */
module PathRules {
  import opened Options
  import opened Json

  // -------------------------------------------------------------- components

  /** The text between slashes, in order; there is always at least one piece. */
  function Split(path: string): (parts: seq<string>)
    ensures parts != []
  {
    if path == "" then [""]
    else
      var parts := Split(path[1..]);
      if path[0] == '/' then [""] + parts else [[path[0]] + parts[0]] + parts[1..]
  }

  function Join(parts: seq<string>): string {
    if parts == [] then ""
    else if |parts| == 1 then parts[0]
    else parts[0] + "/" + Join(parts[1..])
  }

  predicate IsSkipped(component: string) {
    component == "" || component == "."
  }

  predicate IsAbsolute(path: string) {
    "/" <= path
  }

  // ------------------------------------------------------------- normalising

  /** One component pushed onto, or popped from, the parts kept so far. */
  function Push(parts: seq<string>, component: string): seq<string> {
    if IsSkipped(component) then parts
    else if component != ".." then parts + [component]
    else if parts == [] || parts[|parts| - 1] == ".." then parts + [".."]
    else parts[..|parts| - 1]
  }

  function PushAll(parts: seq<string>, components: seq<string>): seq<string>
    decreases |components|
  {
    if components == [] then parts else PushAll(Push(parts, components[0]), components[1..])
  }

  function Render(absolute: bool, parts: seq<string>): string {
    if parts == [] then "/" else (if absolute then "/" else "") + Join(parts)
  }

  function Normalized(path: string): string {
    Render(IsAbsolute(path), PushAll([], Split(path)))
  }

  method LexicalNormalize(path: string) returns (r: string)
    ensures r == Normalized(path)
  {
    var components := Split(path);
    var parts: seq<string> := [];
    for i := 0 to |components|
      invariant PushAll(parts, components[i..]) == PushAll([], components)
    {
      assert components[i..][1..] == components[i + 1..];
      var component := components[i];
      if component == "" || component == "." {
      } else if component == ".." {
        if parts == [] || parts[|parts| - 1] == ".." {
          parts := parts + [".."];
        } else {
          parts := parts[..|parts| - 1];
        }
      } else {
        parts := parts + [component];
      }
    }
    if parts == [] {
      return "/";
    }
    var joined := Join(parts);
    r := if IsAbsolute(path) then "/" + joined else joined;
  }

  /** No empty and no `.` component, and `..` only as a leading run. */
  predicate IsNormal(parts: seq<string>) {
    && (forall i | 0 <= i < |parts| :: !IsSkipped(parts[i]) && '/' !in parts[i])
    && (forall i | 0 < i < |parts| :: parts[i] == ".." ==> parts[i - 1] == "..")
  }

  lemma {:induction false} SplitHasNoSlash(path: string)
    ensures forall i | 0 <= i < |Split(path)| :: '/' !in Split(path)[i]
  {
    if path != "" {
      SplitHasNoSlash(path[1..]);
    }
  }

  lemma {:induction false} PushAllIsNormal(parts: seq<string>, components: seq<string>)
    requires IsNormal(parts) && forall i | 0 <= i < |components| :: '/' !in components[i]
    ensures IsNormal(PushAll(parts, components))
    decreases |components|
  {
    if components != [] {
      PushAllIsNormal(Push(parts, components[0]), components[1..]);
    }
  }

  /** Splitting undoes joining for components that hold no slash. */
  lemma {:induction false} SplitWord(word: string)
    requires '/' !in word
    ensures Split(word) == [word]
  {
    if word != "" {
      assert word[0] in word;
      SplitWord(word[1..]);
      assert word == [word[0]] + word[1..];
    }
  }

  lemma {:induction false} SplitAtSlash(word: string, rest: string)
    requires '/' !in word
    ensures Split(word + "/" + rest) == [word] + Split(rest)
  {
    var path := word + "/" + rest;
    if word == "" {
      assert path[1..] == rest;
    } else {
      assert word[0] in word && path[0] == word[0];
      assert path[1..] == word[1..] + "/" + rest;
      SplitAtSlash(word[1..], rest);
      assert word == [word[0]] + word[1..];
    }
  }

  lemma {:induction false} SplitJoin(parts: seq<string>)
    requires parts != [] && forall i | 0 <= i < |parts| :: '/' !in parts[i]
    ensures Split(Join(parts)) == parts
  {
    if |parts| == 1 {
      SplitWord(parts[0]);
    } else {
      SplitJoin(parts[1..]);
      SplitAtSlash(parts[0], Join(parts[1..]));
    }
  }

  /** Pushing parts that are already normal keeps them as they are. */
  lemma {:induction false} PushNormal(parts: seq<string>, more: seq<string>)
    requires IsNormal(parts + more)
    ensures PushAll(parts, more) == parts + more
    decreases |more|
  {
    if more == [] {
      assert parts + more == parts;
    } else {
      var all := parts + more;
      assert all[|parts|] == more[0] && (parts != [] ==> all[|parts| - 1] == parts[|parts| - 1]);
      assert Push(parts, more[0]) == parts + [more[0]];
      assert parts + [more[0]] + more[1..] == all;
      PushNormal(parts + [more[0]], more[1..]);
    }
  }

  lemma PartsAreNormal(path: string)
    ensures IsNormal(PushAll([], Split(path)))
  {
    SplitHasNoSlash(path);
    PushAllIsNormal([], Split(path));
  }

  lemma SplitRendered(parts: seq<string>)
    requires IsNormal(parts)
    ensures Split(Render(true, parts)) == [""] + if parts == [] then [""] else parts
  {
    var joined := Join(parts);
    SplitAtSlash("", joined);
    assert "" + "/" + joined == "/" + joined == Render(true, parts);
    if parts != [] {
      SplitJoin(parts);
    }
  }

  lemma SlashIsRoot()
    ensures Split("/") == ["", ""]
    ensures PushAll([], ["", ""]) == [] && Walk([], ["", ""]) == [] && KeptComponents(["", ""]) == []
  {
    SplitRendered([]);
    assert ["", ""][1..] == [""] && [""][1..] == [];
  }

  /** The parts of an absolute path, read back from its normal form. */
  lemma NormalizedParts(path: string)
    requires IsAbsolute(path)
    ensures var parts := PushAll([], Split(path));
      && IsNormal(parts)
      && IsAbsolute(Normalized(path))
      && PushAll([], Split(Normalized(path))) == parts
  {
    var parts := PushAll([], Split(path));
    PartsAreNormal(path);
    SplitRendered(parts);
    if parts == [] {
      SlashIsRoot();
    } else {
      assert ([""] + parts)[1..] == parts;
      PushNormal([], parts);
      assert [] + parts == parts;
    }
  }

  /** The components of a normal form: what stands between its slashes, or nothing for `/`. */
  function FormComponents(form: string): seq<string> {
    if form == "/" then [] else if IsAbsolute(form) then Split(form)[1..] else Split(form)
  }

  lemma RenderedAbsolute(parts: seq<string>)
    requires IsNormal(parts) && parts != []
    ensures Split(Render(true, parts))[1..] == parts && IsAbsolute(Render(true, parts)) && Render(true, parts) != "/"
  {
    JoinIsRelative(parts);
    SplitRendered(parts);
    assert ([""] + parts)[1..] == parts;
    assert |Join(parts)| == 0 ==> Render(true, parts) == "/";
    assert Split("")[0] == "";
    SplitJoin(parts);
  }

  lemma RenderedRelative(parts: seq<string>)
    requires IsNormal(parts) && parts != []
    ensures Split(Render(false, parts)) == parts && !IsAbsolute(Render(false, parts)) && Render(false, parts) != "/"
  {
    JoinIsRelative(parts);
    SplitJoin(parts);
    assert "" + Join(parts) == Join(parts);
  }

  /**
   A normal form has no empty and no `.` component, `..` only as a leading run, and it stays
   absolute or relative, but for the relative path that cancels to nothing.
   */
  lemma NormalFormIsNormal(path: string)
    ensures IsNormal(FormComponents(Normalized(path)))
    ensures FormComponents(Normalized(path)) == PushAll([], Split(path))
    ensures IsAbsolute(Normalized(path)) <==> IsAbsolute(path) || PushAll([], Split(path)) == []
  {
    var parts := PushAll([], Split(path));
    PartsAreNormal(path);
    if parts != [] {
      RenderedAbsolute(parts);
      RenderedRelative(parts);
    }
  }

  lemma RenderedStays(parts: seq<string>)
    requires IsNormal(parts) && parts != []
    ensures Normalized(Render(false, parts)) == Render(false, parts)
  {
    RenderedRelative(parts);
    assert [] + parts == parts;
    PushNormal([], parts);
  }

  lemma NormalizeIdempotent(path: string)
    ensures Normalized(Normalized(path)) == Normalized(path)
  {
    var parts := PushAll([], Split(path));
    PartsAreNormal(path);
    if IsAbsolute(path) {
      NormalizedParts(path);
    } else if parts == [] {
      SlashIsRoot();
    } else {
      RenderedStays(parts);
    }
  }

  // ----------------------------------------------------------------- walking

  /** One step in a tree without symbolic links: `..` at the root stays at the root. */
  function Step(place: seq<string>, component: string): seq<string> {
    if IsSkipped(component) then place
    else if component != ".." then place + [component]
    else if place == [] then []
    else place[..|place| - 1]
  }

  function Walk(place: seq<string>, components: seq<string>): seq<string>
    decreases |components|
  {
    if components == [] then place else Walk(Step(place, components[0]), components[1..])
  }

  /** Where a path leads from `place`: an absolute path starts over at the root. */
  function Place(place: seq<string>, path: string): seq<string> {
    Walk(if IsAbsolute(path) then [] else place, Split(path))
  }

  lemma {:induction false} WalkConcat(place: seq<string>, xs: seq<string>, ys: seq<string>)
    ensures Walk(place, xs + ys) == Walk(Walk(place, xs), ys)
    decreases |xs|
  {
    if xs == [] {
      assert xs + ys == ys;
    } else {
      assert (xs + ys)[1..] == xs[1..] + ys;
      WalkConcat(Step(place, xs[0]), xs[1..], ys);
    }
  }

  /** Pushing a component onto the parts is one more step of the walk along them. */
  lemma PushIsStep(place: seq<string>, parts: seq<string>, component: string)
    requires IsNormal(parts)
    ensures Walk(place, Push(parts, component)) == Step(Walk(place, parts), component)
  {
    WalkConcat(place, parts, [component]);
    assert Walk(Walk(place, parts), [component]) == Step(Walk(place, parts), component);
    if component == ".." && parts != [] && parts[|parts| - 1] != ".." {
      var kept, last := parts[..|parts| - 1], parts[|parts| - 1];
      assert parts == kept + [last];
      WalkConcat(place, kept, [last]);
      assert Walk(Walk(place, kept), [last]) == Walk(place, kept) + [last];
    }
  }

  lemma {:induction false} PushAllIsWalk(place: seq<string>, parts: seq<string>, components: seq<string>)
    requires IsNormal(parts) && forall i | 0 <= i < |components| :: '/' !in components[i]
    ensures Walk(place, PushAll(parts, components)) == Walk(Walk(place, parts), components)
    decreases |components|
  {
    if components != [] {
      PushIsStep(place, parts, components[0]);
      PushAllIsWalk(place, Push(parts, components[0]), components[1..]);
    }
  }

  lemma PartsWalk(place: seq<string>, path: string)
    ensures Walk(place, PushAll([], Split(path))) == Walk(place, Split(path))
  {
    SplitHasNoSlash(path);
    PushAllIsWalk(place, [], Split(path));
  }

  /** Normalising keeps where an absolute path leads. */
  lemma NormalizeKeepsPlace(place: seq<string>, path: string)
    requires IsAbsolute(path)
    ensures Place(place, Normalized(path)) == Place(place, path)
  {
    NormalizedParts(path);
    PartsWalk([], path);
    PartsWalk([], Normalized(path));
  }

  /** A relative path keeps its place too, except that one which cancels to nothing becomes `/`. */
  lemma NormalizeKeepsRelativePlaceIff(place: seq<string>, path: string)
    requires !IsAbsolute(path)
    ensures Place(place, Normalized(path)) == Place(place, path)
      <==> PushAll([], Split(path)) != [] || place == []
  {
    var parts := PushAll([], Split(path));
    PartsAreNormal(path);
    PartsWalk(place, path);
    if parts != [] {
      assert Normalized(path) == Join(parts);
      SplitJoin(parts);
      JoinIsRelative(parts);
    } else {
      SlashIsRoot();
    }
  }

  lemma JoinIsRelative(parts: seq<string>)
    requires IsNormal(parts) && parts != []
    ensures !IsAbsolute(Join(parts))
  {
    assert Join(parts)[0] == parts[0][0] && parts[0][0] in parts[0];
  }

  /** The exception is real: `a/..` names the directory it starts from, but becomes `/`. */
  lemma CancelledRelativePath()
    ensures Normalized("a/..") == "/"
    ensures Place(["home"], "a/..") == ["home"] && Place(["home"], Normalized("a/..")) == []
  {
    SplitWord("..");
    SplitAtSlash("a", "..");
    assert "a" + "/" + ".." == "a/..";
    var components := ["a", ".."];
    assert components[1..] == [".."];
    assert PushAll([], components) == PushAll(["a"], [".."]) == PushAll([], []);
    assert Walk(["home"], components) == Walk(["home", "a"], [".."]) == Walk(["home"], []);
    SlashIsRoot();
  }

  /** In normal parts, everything before a `..` is a `..` as well. */
  lemma {:induction false} ParentsLead(parts: seq<string>, i: nat, j: nat)
    requires IsNormal(parts) && i <= j < |parts| && parts[j] == ".."
    ensures parts[i] == ".."
  {
    if i < j {
      ParentsLead(parts, i, j - 1);
    }
  }

  // ------------------------------------------------------------- containment

  /** What the file system resolves each path to, where it resolves at all. */
  type Resolver = string -> Option<string>

  function KeptComponents(components: seq<string>): seq<string> {
    if components == [] then []
    else (if IsSkipped(components[0]) then [] else [components[0]]) + KeptComponents(components[1..])
  }

  /** The components by which paths are compared: repeated slashes and inner dots are dropped. */
  function PathComponents(path: string): seq<string> {
    (if IsAbsolute(path) then ["/"] else if Split(path)[0] == "." then ["."] else [])
    + KeptComponents(Split(path))
  }

  predicate StartsWith(path: string, root: string) {
    PathComponents(root) <= PathComponents(path)
  }

  predicate IsInside(resolve: Resolver, path: string, root: string) {
    var candidate := resolve(path).GetOr(Normalized(path));
    StartsWith(candidate, root) || (resolve(root).Some? && StartsWith(candidate, resolve(root).value))
  }

  /** A relative path is taken as relative to the root. */
  function Anchored(path: string, root: string): string {
    if IsAbsolute(path) then path else Normalized(root) + "/" + path
  }

  predicate IsInsideFrom(resolve: Resolver, path: string, root: string) {
    IsInside(resolve, Anchored(path, root), root)
  }

  predicate LandsBelow(path: string, root: string) {
    Place([], root) <= Place([], path)
  }

  lemma {:induction false} KeptNormal(parts: seq<string>)
    requires IsNormal(parts)
    ensures KeptComponents(parts) == parts
  {
    if parts != [] {
      KeptNormal(parts[1..]);
    }
  }

  lemma {:induction false} WalkKept(place: seq<string>, components: seq<string>)
    ensures Walk(place, KeptComponents(components)) == Walk(place, components)
    ensures ".." !in components ==> Walk(place, components) == place + KeptComponents(components)
    decreases |components|
  {
    if components != [] {
      var kept := KeptComponents(components);
      WalkKept(Step(place, components[0]), components[1..]);
      if IsSkipped(components[0]) {
        assert kept == KeptComponents(components[1..]);
      } else {
        assert kept[1..] == KeptComponents(components[1..]);
      }
    }
  }

  lemma {:induction false} WalkParents(components: seq<string>)
    requires forall c | c in components :: c == ".."
    ensures Walk([], components) == []
  {
    if components != [] {
      assert components[0] in components && forall c | c in components[1..] :: c in components;
      WalkParents(components[1..]);
    }
  }

  /** Going on along normal parts never leads back above where their beginning led. */
  lemma WalkNormalOn(parts: seq<string>, more: seq<string>)
    requires IsNormal(parts + more)
    ensures Walk([], parts) <= Walk([], parts + more)
  {
    WalkConcat([], parts, more);
    if ".." in more {
      var j :| 0 <= j < |more| && more[j] == "..";
      forall i | 0 <= i < |parts|
        ensures parts[i] == ".."
      {
        ParentsLead(parts + more, i, |parts| + j);
      }
      WalkParents(parts);
    } else {
      WalkKept(Walk([], parts), more);
    }
  }

  lemma RenderedPathComponents(parts: seq<string>)
    requires IsNormal(parts)
    ensures PathComponents(Render(true, parts)) == ["/"] + parts
  {
    SplitRendered(parts);
    KeptNormal(parts);
    if parts == [] {
      SlashIsRoot();
    } else {
      assert ([""] + parts)[1..] == parts;
    }
  }

  lemma NormalizedComponents(path: string)
    requires IsAbsolute(path)
    ensures PathComponents(Normalized(path)) == ["/"] + PushAll([], Split(path))
  {
    PartsAreNormal(path);
    RenderedPathComponents(PushAll([], Split(path)));
  }

  /** A normal form that starts with a root really leads to a place at or below the root. */
  lemma StartsWithLandsBelow(path: string, root: string)
    requires IsAbsolute(path) && IsAbsolute(root) && StartsWith(Normalized(path), root)
    ensures LandsBelow(path, root)
  {
    var parts, rootParts := PushAll([], Split(path)), KeptComponents(Split(root));
    NormalizedComponents(path);
    PartsAreNormal(path);
    PartsWalk([], path);
    WalkKept([], Split(root));
    WalkPrefix("/", rootParts, parts);
  }

  lemma WalkPrefix(slash: string, rootParts: seq<string>, parts: seq<string>)
    requires IsNormal(parts) && [slash] + rootParts <= [slash] + parts
    ensures Walk([], rootParts) <= Walk([], parts)
  {
    assert rootParts == ([slash] + rootParts)[1..] <= ([slash] + parts)[1..] == parts;
    assert parts == rootParts + parts[|rootParts|..];
    WalkNormalOn(rootParts, parts[|rootParts|..]);
  }

  /** When nothing resolves, a path judged inside a root lands at or below it. */
  lemma InsideLandsBelow(resolve: Resolver, path: string, root: string)
    requires IsAbsolute(root) && resolve(Anchored(path, root)).None? && resolve(root).None?
    requires IsInsideFrom(resolve, path, root)
    ensures LandsBelow(Anchored(path, root), root)
  {
    NormalizedParts(root);
    StartsWithLandsBelow(Anchored(path, root), root);
  }

  // --------------------------------------------------------------- arguments

  predicate IsPathField(key: string) {
    key in ["AbsolutePath", "TargetFile", "FilePath", "DirectoryPath", "SearchPath",
            "SearchDirectory", "Cwd", "Paths", "ImagePaths", "Workspace"]
  }

  /** Every string below `value` that is collected: all of them, or those under a path field. */
  function Strings(value: Value, collect: bool, fieldsOnly: bool): seq<string> {
    match value
    case Text(text) => if collect then [text] else []
    case Array(items) => StringsOfItems(items, collect, fieldsOnly)
    case Object(fields) => StringsOfFields(fields, collect, fieldsOnly)
    case _ => []
  }

  function StringsOfItems(items: seq<Value>, collect: bool, fieldsOnly: bool): seq<string> {
    if items == [] then []
    else Strings(items[0], collect, fieldsOnly) + StringsOfItems(items[1..], collect, fieldsOnly)
  }

  function StringsOfFields(fields: seq<Field>, collect: bool, fieldsOnly: bool): seq<string> {
    if fields == [] then []
    else
      Strings(fields[0].value, collect || (fieldsOnly && IsPathField(fields[0].key)), fieldsOnly)
      + StringsOfFields(fields[1..], collect, fieldsOnly)
  }

  function StringArgs(args: Value): seq<string> {
    Strings(args, true, false)
  }

  function PathFieldArgs(args: Value): seq<string> {
    Strings(args, false, true)
  }

  lemma ItemsStep(all: seq<string>, items: seq<Value>, i: nat, collect: bool, fieldsOnly: bool)
    requires i < |items|
    ensures all + StringsOfItems(items[i..], collect, fieldsOnly) ==
            all + Strings(items[i], collect, fieldsOnly) + StringsOfItems(items[i + 1..], collect, fieldsOnly)
  {
    assert items[i..][1..] == items[i + 1..];
  }

  lemma FieldsStep(all: seq<string>, fields: seq<Field>, i: nat, collect: bool, fieldsOnly: bool)
    requires i < |fields|
    ensures var below := collect || (fieldsOnly && IsPathField(fields[i].key));
            all + StringsOfFields(fields[i..], collect, fieldsOnly) ==
            all + Strings(fields[i].value, below, fieldsOnly) + StringsOfFields(fields[i + 1..], collect, fieldsOnly)
  {
    assert fields[i..][1..] == fields[i + 1..];
  }

  /** The recursive helper behind both collections: it appends to what was found so far. */
  method CollectStrings(value: Value, collect: bool, fieldsOnly: bool, found: seq<string>)
    returns (all: seq<string>)
    ensures all == found + Strings(value, collect, fieldsOnly)
    decreases value
  {
    all := found;
    match value {
      case Text(text) =>
        if collect {
          all := all + [text];
        }
      case Array(items) =>
        for i := 0 to |items|
          invariant all + StringsOfItems(items[i..], collect, fieldsOnly)
            == found + StringsOfItems(items, collect, fieldsOnly)
        {
          ItemsStep(all, items, i, collect, fieldsOnly);
          all := CollectStrings(items[i], collect, fieldsOnly, all);
        }
      case Object(fields) =>
        for i := 0 to |fields|
          invariant all + StringsOfFields(fields[i..], collect, fieldsOnly)
            == found + StringsOfFields(fields, collect, fieldsOnly)
        {
          FieldsStep(all, fields, i, collect, fieldsOnly);
          var below := collect || (fieldsOnly && IsPathField(fields[i].key));
          all := CollectStrings(fields[i].value, below, fieldsOnly, all);
        }
      case _ =>
    }
  }

  lemma {:induction false} PathFieldsAreStrings(value: Value, collect: bool)
    ensures forall s | s in Strings(value, collect, true) :: s in Strings(value, true, false)
    decreases value, 1
  {
    match value {
      case Array(items) => PathFieldsInItems(items, collect);
      case Object(fields) => PathFieldsInFields(fields, collect);
      case _ =>
    }
  }

  lemma {:induction false} PathFieldsInItems(items: seq<Value>, collect: bool)
    ensures forall s | s in StringsOfItems(items, collect, true) :: s in StringsOfItems(items, true, false)
    decreases items, 0
  {
    if items != [] {
      PathFieldsAreStrings(items[0], collect);
      PathFieldsInItems(items[1..], collect);
    }
  }

  lemma {:induction false} PathFieldsInFields(fields: seq<Field>, collect: bool)
    ensures forall s | s in StringsOfFields(fields, collect, true) :: s in StringsOfFields(fields, true, false)
    decreases fields, 0
  {
    if fields != [] {
      PathFieldsAreStrings(fields[0].value, collect || IsPathField(fields[0].key));
      PathFieldsInFields(fields[1..], collect);
    }
  }

  // --------------------------------------------------------------- workspace

  predicate HasParentComponent(path: string) {
    ".." in Split(path)
  }

  function Find(items: seq<string>, test: string -> bool): (r: Option<string>)
    ensures r.None? <==> forall s | s in items :: !test(s)
    ensures r.Some? ==> r.value in items && test(r.value)
  {
    if items == [] then None
    else if test(items[0]) then Some(items[0])
    else Find(items[1..], test)
  }

  function OrElse(first: Option<string>, second: Option<string>): Option<string> {
    if first.Some? then first else second
  }

  predicate InsideAny(resolve: Resolver, path: string, roots: seq<string>) {
    exists root | root in roots :: IsInsideFrom(resolve, path, root)
  }

  /** The first argument that falls outside every root, if any. */
  function OutsideWorkspace(resolve: Resolver, args: Value, roots: seq<string>): Option<string> {
    var strings, fields := StringArgs(args), PathFieldArgs(args);
    if roots == [] then
      OrElse(Find(strings, s => IsAbsolute(s)),
        OrElse(Find(fields, s => true), Find(strings, s => "~" <= s || HasParentComponent(s))))
    else
      OrElse(Find(strings, s => IsAbsolute(s) && !InsideAny(resolve, s, roots)),
        OrElse(Find(strings, s => "~" <= s),
          OrElse(Find(fields, s => !InsideAny(resolve, s, roots)),
            Find(strings, s => HasParentComponent(s) && !InsideAny(resolve, s, roots)))))
  }

  /** The arguments that are read as paths, whatever field they sit in. */
  predicate IsJudged(args: Value, s: string) {
    s in PathFieldArgs(args)
    || (s in StringArgs(args) && (IsAbsolute(s) || "~" <= s || HasParentComponent(s)))
  }

  /** Nothing is outside exactly when every judged argument is inside some root and none is
      home-relative; without roots, exactly when there is nothing to judge. */
  lemma NothingOutsideIff(resolve: Resolver, args: Value, roots: seq<string>)
    ensures OutsideWorkspace(resolve, args, roots).None? <==>
      forall s | IsJudged(args, s) :: !("~" <= s) && InsideAny(resolve, s, roots)
    ensures OutsideWorkspace(resolve, args, roots).Some? ==>
      IsJudged(args, OutsideWorkspace(resolve, args, roots).value)
  {
    PathFieldsAreStrings(args, false);
    var outside := OutsideWorkspace(resolve, args, roots);
    if outside.Some? {
      assert IsJudged(args, outside.value);
      assert "~" <= outside.value || !InsideAny(resolve, outside.value, roots);
    } else {
      forall s | IsJudged(args, s)
        ensures !("~" <= s) && InsideAny(resolve, s, roots)
      {
        assert s in StringArgs(args);
      }
    }
  }

  /** What one judgement of a call sees: the file system, the roots and the sensitive paths. */
  datatype Judge = Judge(resolve: Resolver, roots: seq<string>, sensitive: string -> bool)

  predicate EscapesContainment(judge: Judge, args: Value) {
    || OutsideWorkspace(judge.resolve, args, judge.roots).Some?
    || exists s | s in StringArgs(args) :: judge.sensitive(s)
  }

  function JoinToCwd(cwd: string, paths: seq<string>): seq<string> {
    seq(|paths|, i requires 0 <= i < |paths| =>
      if "/" <= paths[i] || "~" <= paths[i] then paths[i] else cwd + "/" + paths[i])
  }

  /** The paths of a classified command, joined to its `Cwd` and judged as path fields. */
  predicate PathsEscape(judge: Judge, paths: seq<string>, args: Value) {
    var cwd := AsText(Get(args, "Cwd"));
    if paths == [] then false
    else if cwd.None? || cwd.value == "" then true
    else
      var joined := JoinToCwd(cwd.value, paths);
      || OutsideWorkspace(judge.resolve, Object([Field("Paths", Array(Texts(joined)))]), judge.roots).Some?
      || exists s | s in joined :: judge.sensitive(s)
  }

  /** A contained call, in a tree where nothing resolves: every judged argument lands at or
      below a workspace root. */
  lemma ContainedCallLands(judge: Judge, args: Value, s: string) returns (root: string)
    requires forall r | r in judge.roots :: IsAbsolute(r)
    requires forall path :: judge.resolve(path).None?
    requires !EscapesContainment(judge, args) && IsJudged(args, s)
    ensures root in judge.roots && LandsBelow(Anchored(s, root), root)
  {
    NothingOutsideIff(judge.resolve, args, judge.roots);
    root :| root in judge.roots && IsInsideFrom(judge.resolve, s, root);
    InsideLandsBelow(judge.resolve, s, root);
  }

  function Texts(texts: seq<string>): seq<Value> {
    if texts == [] then [] else [Text(texts[0])] + Texts(texts[1..])
  }

  lemma {:induction false} TextsAreStrings(texts: seq<string>)
    ensures StringsOfItems(Texts(texts), true, true) == texts
  {
    if texts != [] {
      TextsAreStrings(texts[1..]);
      assert Texts(texts)[1..] == Texts(texts[1..]);
    }
  }

  lemma PathsFieldIsJudged(texts: seq<string>)
    ensures PathFieldArgs(Object([Field("Paths", Array(Texts(texts)))])) == texts
  {
    var fields := [Field("Paths", Array(Texts(texts)))];
    TextsAreStrings(texts);
    assert IsPathField("Paths") && fields[1..] == [];
    assert Strings(Array(Texts(texts)), true, true) == texts;
    assert StringsOfFields(fields, false, true) == texts + StringsOfFields(fields[1..], false, true);
  }

  /** The same for the paths that a classified command names. */
  lemma ContainedPathsLand(judge: Judge, paths: seq<string>, args: Value, i: nat) returns (root: string)
    requires forall r | r in judge.roots :: IsAbsolute(r)
    requires forall path :: judge.resolve(path).None?
    requires !PathsEscape(judge, paths, args) && i < |paths|
    ensures AsText(Get(args, "Cwd")).Some?
    ensures var joined := JoinToCwd(AsText(Get(args, "Cwd")).value, paths)[i];
      root in judge.roots && !("~" <= joined) && LandsBelow(Anchored(joined, root), root)
  {
    var joined := JoinToCwd(AsText(Get(args, "Cwd")).value, paths);
    var synthetic := Object([Field("Paths", Array(Texts(joined)))]);
    PathsFieldIsJudged(joined);
    NothingOutsideIff(judge.resolve, synthetic, judge.roots);
    assert IsJudged(synthetic, joined[i]);
    root :| root in judge.roots && IsInsideFrom(judge.resolve, joined[i], root);
    InsideLandsBelow(judge.resolve, joined[i], root);
  }
}
