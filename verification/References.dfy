/**
 What a reference in a plan's arguments means: which root it reads, which value the names in
 it lead to, and how the value is written into the text around it.
 */
module References {
  import opened Wrappers
  import opened Json
  import opened PlanTypes
  import opened Graph
  import opened Text
  import opened Interpolation
  import opened Validation

  /** A name that the splitting of a reference leaves in one piece. */
  predicate Plain(name: string) {
    name != "" && '.' !in name && '/' !in name && '}' !in name
  }

  ghost predicate PlainPath(path: seq<string>) {
    forall i :: 0 <= i < |path| ==> Plain(path[i])
  }

  // ---------------------------------------------------------------- values along a path

  /** One step down: the field of that name, or the element the name is the number of. */
  predicate Child(lib: Library, parent: Value, name: string, child: Value) {
    match parent
    case Obj(fields) => name in fields && fields[name] == child
    case Arr(items) => lib.scan(name).Some? && 0 <= lib.scan(name).value < |items| && items[lib.scan(name).value] == child
    case _ => false
  }

  /** The values on the way from a root along a path. */
  ghost predicate Trail(lib: Library, values: seq<Value>, path: seq<string>) {
    |values| == |path| + 1 && forall i :: 0 <= i < |path| ==> StepOfTrail(lib, values, path, i)
  }

  ghost predicate StepOfTrail(lib: Library, values: seq<Value>, path: seq<string>, i: nat)
    requires i < |path| && i + 1 < |values|
  {
    Child(lib, values[i], path[i], values[i + 1])
  }

  /** The path leads from the root to the value. */
  ghost predicate Leads(lib: Library, root: Value, path: seq<string>, v: Value) {
    exists values :: Trail(lib, values, path) && values[0] == root && values[|path|] == v
  }

  /** Walking finds exactly what the path leads to. */
  lemma {:induction false} WalkLeads(lib: Library, root: Value, path: seq<string>, v: Value)
    ensures Walk(lib, root, path) == Some(v) <==> Leads(lib, root, path, v)
    decreases |path|
  {
    if path == [] {
      if root == v { assert Trail(lib, [v], path); }
    } else {
      if Walk(lib, root, path) == Some(v) {
        var next := WalksOn(lib, root, path, v);
        WalkLeads(lib, next, path[1..], v);
        LeadsFrom(lib, root, next, path, v);
      }
      if Leads(lib, root, path, v) {
        var next := LeadsOn(lib, root, path, v);
        WalkLeads(lib, next, path[1..], v);
      }
    }
  }

  lemma WalksOn(lib: Library, root: Value, path: seq<string>, v: Value) returns (next: Value)
    requires path != [] && Walk(lib, root, path) == Some(v)
    ensures Child(lib, root, path[0], next) && Walk(lib, next, path[1..]) == Some(v)
  {
    next := if root.Obj? then root.fields[path[0]] else root.items[lib.scan(path[0]).value];
  }

  lemma LeadsFrom(lib: Library, root: Value, next: Value, path: seq<string>, v: Value)
    requires path != [] && Child(lib, root, path[0], next) && Leads(lib, next, path[1..], v)
    ensures Leads(lib, root, path, v)
  {
    var values :| Trail(lib, values, path[1..]) && values[0] == next && values[|path| - 1] == v;
    var all := [root] + values;
    forall i | 0 <= i < |path| ensures StepOfTrail(lib, all, path, i) {
      if i > 0 { assert StepOfTrail(lib, values, path[1..], i - 1); }
    }
    assert Trail(lib, all, path) && all[0] == root && all[|path|] == v;
  }

  lemma LeadsOn(lib: Library, root: Value, path: seq<string>, v: Value) returns (next: Value)
    requires path != [] && Leads(lib, root, path, v)
    ensures Child(lib, root, path[0], next) && Leads(lib, next, path[1..], v)
  {
    var values :| Trail(lib, values, path) && values[0] == root && values[|path|] == v;
    next := values[1];
    assert StepOfTrail(lib, values, path, 0);
    var rest := values[1..];
    forall i | 0 <= i < |path| - 1 ensures StepOfTrail(lib, rest, path[1..], i) { assert StepOfTrail(lib, values, path, i + 1); }
    assert Trail(lib, rest, path[1..]) && rest[0] == next && rest[|path| - 1] == v;
  }

  // ---------------------------------------------------------------- splitting a reference

  /** Joining undoes splitting, whatever the limit. */
  lemma {:induction false} JoinSplit(s: string, limit: nat)
    ensures Join(SplitN(s, limit)) == s
    decreases limit
  {
    var i := IndexOf(s, '.', 0);
    if limit > 1 && i < |s| {
      JoinSplit(s[i + 1..], limit - 1);
      JoinHead(s[..i], SplitN(s[i + 1..], limit - 1));
      assert s == s[..i] + "." + s[i + 1..];
    }
  }

  lemma JoinHead(head: string, parts: seq<string>)
    requires parts != []
    ensures Join([head] + parts) == head + "." + Join(parts)
  {
    assert ([head] + parts)[1..] == parts;
  }

  /** The fields of a dotted path are its names. */
  lemma {:induction false} FieldsOfPath(path: seq<string>)
    requires PlainPath(path)
    ensures Fields(Join(path)) == path
    decreases |path|
  {
    if |path| == 1 {
      WholeField(path[0]);
    } else if |path| > 1 {
      assert PlainPath(path[1..]);
      FieldsOfPath(path[1..]);
      FirstField(path[0], Join(path[1..]));
    }
  }

  lemma {:induction false} FieldLengthOf(name: string, rest: string)
    requires '.' !in name && '/' !in name && (rest == "" || rest[0] == '.')
    ensures FieldLength(name + rest) == |name|
    decreases |name|
  {
    if name == "" {
      assert name + rest == rest;
    } else {
      assert (name + rest)[1..] == name[1..] + rest;
      assert name[0] in name && forall c :: c in name[1..] ==> c in name;
      FieldLengthOf(name[1..], rest);
    }
  }

  lemma WholeField(name: string)
    requires Plain(name)
    ensures Fields(name) == [name]
  {
    FieldLengthOf(name, "");
    assert name + "" == name && name[..|name|] == name && name[|name|..] == "";
  }

  lemma FirstField(name: string, rest: string)
    requires Plain(name)
    ensures Fields(name + "." + rest) == [name] + Fields(rest)
  {
    var s := name + "." + rest;
    assert s == name + ("." + rest);
    FieldLengthOf(name, "." + rest);
    assert s[..|name|] == name && s[|name|..] == "." + rest;
    assert FieldLength("." + rest) == 0 && ("." + rest)[1..] == rest;
  }

  lemma PathFields(path: seq<string>)
    requires PlainPath(path)
    ensures FieldsOf(Join(path)) == path
  {
    if path != [] {
      assert Plain(path[0]) && path[0][0] in path[0];
      assert Join(path)[0] == path[0][0];
    }
    FieldsOfPath(path);
  }

  lemma {:induction false} JoinHasNoBrace(path: seq<string>)
    requires PlainPath(path)
    ensures '}' !in Join(path)
  {
    if |path| > 1 {
      assert PlainPath(path[1..]);
      JoinHasNoBrace(path[1..]);
    } else if |path| == 1 {
      assert Plain(path[0]);
    }
  }

  // ---------------------------------------------------------------- the roots

  /** A reference to a path below a root, as it is written in arguments. */
  function Reference(root: string, path: seq<string>): string {
    "${" + (root + "." + Join(path)) + "}"
  }

  lemma RootPath(root: string, path: seq<string>)
    requires '.' !in root && path != [] && PlainPath(path)
    ensures var parts := SplitN(root + "." + Join(path), 3);
      |parts| >= 2 && parts[0] == root && FieldsOf(Join(parts[1..])) == path
  {
    SplitHead(root, Join(path), 3);
    assert ([root] + SplitN(Join(path), 2))[1..] == SplitN(Join(path), 2);
    JoinSplit(Join(path), 2);
    PathFields(path);
  }

  lemma WholeText(root: string, path: seq<string>)
    requires '}' !in root && PlainPath(path)
    ensures MatchAt(Reference(root, path), 0) == Some(|Reference(root, path)|)
    ensures Name(Reference(root, path), Match(0, |Reference(root, path)|)) == root + "." + Join(path)
  {
    JoinHasNoBrace(path);
    WholeReference(root + "." + Join(path), Reference(root, path));
  }

  /** The text gives a value exactly when the path leads to it from the root. */
  ghost predicate Means(lib: Library, text: string, root: Value, path: seq<string>, v: Value, ctx: EvalContext) {
    Interpolate(lib, Str(text), ctx) == Some(v) <==> Leads(lib, root, path, v)
  }

  lemma ReadsFrom(lib: Library, root: string, fields: map<string, Value>, path: seq<string>, v: Value, ctx: EvalContext)
    requires path != [] && PlainPath(path)
    requires RootOf(root, fields, ctx)
    ensures Means(lib, Reference(root, path), Obj(fields), path, v, ctx)
  {
    PlainRoot(root, fields, ctx);
    WholeText(root, path);
    RootPath(root, path);
    FixedRoot(lib, root + "." + Join(path), root, fields, ctx);
    WalkLeads(lib, Obj(fields), path, v);
  }

  ghost predicate RootOf(root: string, fields: map<string, Value>, ctx: EvalContext) {
    || (root == "vars" && fields == ctx.variables) || (root == "item" && fields == ctx.item)
    || (root == "input" && fields == ctx.input) || (root == "context" && fields == ctx.context)
  }

  lemma PlainRoot(root: string, fields: map<string, Value>, ctx: EvalContext)
    requires RootOf(root, fields, ctx)
    ensures '.' !in root && '}' !in root
  {
  }

  lemma FixedRoot(lib: Library, reference: string, root: string, fields: map<string, Value>, ctx: EvalContext)
    requires RootOf(root, fields, ctx) && |SplitN(reference, 3)| >= 2 && SplitN(reference, 3)[0] == root
    ensures Resolve(lib, reference, ctx) == Walk(lib, Obj(fields), FieldsOf(Join(SplitN(reference, 3)[1..])))
  {
  }

  /**
   A reference to a path below one of the four fixed roots has exactly the value that the path
   leads to from that root.
   */
  lemma RootReads(lib: Library, path: seq<string>, v: Value, ctx: EvalContext)
    requires path != [] && PlainPath(path)
    ensures Means(lib, Reference("vars", path), Obj(ctx.variables), path, v, ctx)
    ensures Means(lib, Reference("item", path), Obj(ctx.item), path, v, ctx)
    ensures Means(lib, Reference("input", path), Obj(ctx.input), path, v, ctx)
    ensures Means(lib, Reference("context", path), Obj(ctx.context), path, v, ctx)
  {
    ReadsFrom(lib, "vars", ctx.variables, path, v, ctx);
    ReadsFrom(lib, "item", ctx.item, path, v, ctx);
    ReadsFrom(lib, "input", ctx.input, path, v, ctx);
    ReadsFrom(lib, "context", ctx.context, path, v, ctx);
  }

  /** For a single name this is the entry of that name. */
  lemma NameReads(lib: Library, name: string, v: Value, ctx: EvalContext)
    requires Plain(name)
    ensures Interpolate(lib, Str(Reference("vars", [name])), ctx) == Some(v) <==> name in ctx.variables && ctx.variables[name] == v
    ensures Interpolate(lib, Str(Reference("item", [name])), ctx) == Some(v) <==> name in ctx.item && ctx.item[name] == v
    ensures Interpolate(lib, Str(Reference("input", [name])), ctx) == Some(v) <==> name in ctx.input && ctx.input[name] == v
    ensures Interpolate(lib, Str(Reference("context", [name])), ctx) == Some(v) <==> name in ctx.context && ctx.context[name] == v
  {
    RootReads(lib, [name], v, ctx);
    OneName(lib, ctx.variables, name, v);
    OneName(lib, ctx.item, name, v);
    OneName(lib, ctx.input, name, v);
    OneName(lib, ctx.context, name, v);
  }

  lemma OneName(lib: Library, fields: map<string, Value>, name: string, v: Value)
    ensures Leads(lib, Obj(fields), [name], v) <==> name in fields && fields[name] == v
  {
    WalkLeads(lib, Obj(fields), [name], v);
  }

  // ---------------------------------------------------------------- outputs of nodes

  /** What follows the word output in a reference to a node. */
  function Below(path: seq<string>): string {
    if path == [] then "output" else "output" + "." + Join(path)
  }

  /** A reference to the output of a node, as it is written in arguments. */
  function OutputReference(node: Id, path: seq<string>): string {
    "${" + OutputName(node, Below(path)) + "}"
  }

  function OutputName(node: Id, below: string): string {
    "nodes" + "." + (node + "." + below)
  }

  /** A reference to a node reads below the output of that node, or all of it. */
  lemma OutputReads(lib: Library, node: Id, path: seq<string>, v: Value, ctx: EvalContext)
    requires Plain(node) && PlainPath(path)
    ensures Interpolate(lib, Str(OutputReference(node, path)), ctx) == Some(v) <==>
      node in ctx.nodeOutput && Leads(lib, ctx.nodeOutput[node], path, v)
  {
    NoBraceBelow(node, path);
    WholeReference(OutputName(node, Below(path)), OutputReference(node, path));
    NodeParts(node, Below(path));
    NodeRoot(lib, OutputName(node, Below(path)), node, Below(path), ctx);
    OutputFields(path);
    if node in ctx.nodeOutput { WalkLeads(lib, ctx.nodeOutput[node], path, v); }
  }

  lemma NoBraceBelow(node: Id, path: seq<string>)
    requires Plain(node) && PlainPath(path)
    ensures '}' !in OutputName(node, Below(path)) && OutputName(node, Below(path)) != "" && Below(path) != ""
  {
    JoinHasNoBrace(path);
  }

  lemma NodeRoot(lib: Library, reference: string, node: Id, below: string, ctx: EvalContext)
    requires SplitN(reference, 3) == ["nodes", node, below] && below != ""
    ensures Resolve(lib, reference, ctx) ==
      if node in ctx.nodeOutput then Walk(lib, ctx.nodeOutput[node], FieldsOf(OutputPath(below))) else None
  {
  }

  lemma NodeParts(node: Id, below: string)
    requires '.' !in node
    ensures SplitN(OutputName(node, below), 3) == ["nodes", node, below]
  {
    SplitHead("nodes", node + "." + below, 3);
    SplitHead(node, below, 2);
    assert SplitN(below, 1) == [below];
  }

  lemma OutputFields(path: seq<string>)
    requires PlainPath(path)
    ensures FieldsOf(OutputPath(Below(path))) == path
  {
    if path == [] {
      assert TrimPrefix("output", "output") == "";
    } else {
      var rest := "." + Join(path);
      assert Below(path) == "output" + rest;
      assert TrimPrefix(Below(path), "output") == rest && TrimPrefix(rest, ".") == Join(path);
      PathFields(path);
    }
  }

  // ---------------------------------------------------------------- references within a text

  /** Around a reference the text stays, and the reference is replaced by its printed value. */
  lemma EmbeddedReads(lib: Library, before: string, name: string, after: string, ctx: EvalContext)
    requires '$' !in before && '$' !in after && before + after != "" && name != "" && '}' !in name
    ensures Interpolate(lib, Str(before + ("${" + name + "}") + after), ctx) ==
      match Resolve(lib, name, ctx) case None => None case Some(v) => Some(Str(before + lib.render(v) + after))
  {
    var s := before + ("${" + name + "}") + after;
    var i, j := |before|, |before| + |name| + 3;
    MatchInside(before, name, after);
    assert FirstMatch(s, 0) == Some(Match(i, j)) by { FirstIs(s, i, j); }
    NoMatchAfter(s, j);
    assert s[..i] == before && s[j..] == after && Name(s, Match(i, j)) == name;
    assert Substitute(s, j, Rendered(lib, ctx)) == Some(after);
  }

  lemma MatchInside(before: string, name: string, after: string)
    requires '$' !in before && '$' !in after && name != "" && '}' !in name
    ensures var s, i, j := before + ("${" + name + "}") + after, |before|, |before| + |name| + 3;
      && MatchAt(s, i) == Some(j) && s[i + 2..j - 1] == name
      && (forall k :: 0 <= k < i ==> s[k] != '$') && (forall k :: j <= k < |s| ==> s[k] != '$')
  {
    var s, i, j := before + ("${" + name + "}") + after, |before|, |before| + |name| + 3;
    assert s[i] == '$' && s[i + 1] == '{' && s[j - 1] == '}' && s[i + 2..j - 1] == name;
    FirstAt(s, '}', i + 2, j - 1);
    forall k | 0 <= k < i ensures s[k] != '$' { assert s[k] == before[k] && before[k] in before; }
    forall k | j <= k < |s| ensures s[k] != '$' { assert s[k] == after[k - j] && after[k - j] in after; }
  }

  lemma FirstIs(s: string, i: nat, j: nat)
    requires i < |s| && MatchAt(s, i) == Some(j) && forall k :: 0 <= k < i ==> s[k] != '$'
    ensures FirstMatch(s, 0) == Some(Match(i, j))
  {
    var m := FirstMatch(s, 0);
    assert forall k :: 0 <= k < i ==> MatchAt(s, k).None?;
  }

  lemma NoMatchAfter(s: string, j: nat)
    requires j <= |s| && forall k :: j <= k < |s| ==> s[k] != '$'
    ensures FirstMatch(s, j).None?
  {
    var m := FirstMatch(s, j);
    assert forall k :: j <= k < |s| ==> MatchAt(s, k).None?;
  }

  // ---------------------------------------------------------------- which references are accepted

  lemma PathSplits(root: string, path: seq<string>)
    requires '.' !in root && path != [] && PlainPath(path)
    ensures var parts := Split(root + "." + Join(path)); |parts| >= 2 && parts[0] == root && parts[1] == path[0]
  {
    var s := root + "." + Join(path);
    SplitHead(root, Join(path), |s| + 1);
    NameFirst(path, |s|);
  }

  lemma NameFirst(path: seq<string>, limit: nat)
    requires path != [] && PlainPath(path) && limit > |Join(path)|
    ensures SplitN(Join(path), limit)[0] == path[0]
  {
    assert Plain(path[0]);
    if |path| == 1 {
      assert IndexOf(path[0], '.', 0) == |path[0]|;
    } else {
      SplitHead(path[0], Join(path[1..]), limit);
    }
  }

  /** What may be referred to from a node of a plan: declared variables, and item, input and context where they exist. */
  lemma RootsAccepted(doc: Document, node: Node, declared: (Id, string) -> bool, path: seq<string>)
    requires path != [] && PlainPath(path) && !Blank(path[0])
    ensures var scope := ScopeFor(doc, node, declared);
      && (Accepts(Str(Reference("vars", path)), scope) <==> path[0] in doc.variables)
      && (Accepts(Str(Reference("item", path)), scope) <==> node.forEach.Some?)
      && (Accepts(Str(Reference("input", path)), scope) <==> node.wait.Some? && declared(node.id, "input" + "." + Join(path)))
      && (Accepts(Str(Reference("context", path)), scope) <==> declared(node.id, "context" + "." + Join(path)))
  {
    var scope := ScopeFor(doc, node, declared);
    OneReference("vars", path, scope);
    OneReference("item", path, scope);
    OneReference("input", path, scope);
    OneReference("context", path, scope);
  }

  /** What a reference below one of the fixed roots needs. */
  ghost predicate Allowed(root: string, first: string, name: string, scope: Scope) {
    match root
    case "vars" => first in scope.variables
    case "item" => scope.item
    case "input" => scope.waits && scope.declared(name)
    case _ => scope.declared(name)
  }

  lemma OneReference(root: string, path: seq<string>, scope: Scope)
    requires root in {"vars", "item", "input", "context"} && path != [] && PlainPath(path) && !Blank(path[0])
    ensures Accepts(Str(Reference(root, path)), scope) <==> Allowed(root, path[0], root + "." + Join(path), scope)
  {
    PlainRoots(root);
    JoinHasNoBrace(path);
    var name := root + "." + Join(path);
    WholeReference(name, Reference(root, path));
    PathSplits(root, path);
    NameAccepted(root, path[0], name, scope);
    SingleAccepted(Reference(root, path), name, scope);
  }

  lemma SingleAccepted(text: string, name: string, scope: Scope)
    requires References(text) == [name]
    ensures Accepts(Str(text), scope) <==> AcceptsReference(name, scope)
  {
    assert References(text)[0] == name;
  }

  lemma NameAccepted(root: string, first: string, name: string, scope: Scope)
    requires root in {"vars", "item", "input", "context"} && Stripped(name) == name && !Blank(first)
    requires |Split(name)| >= 2 && Split(name)[0] == root && Split(name)[1] == first
    ensures AcceptsReference(name, scope) <==> Allowed(root, first, name, scope)
  {
  }

  lemma PlainRoots(root: string)
    requires root in {"vars", "item", "input", "context"}
    ensures '.' !in root && '}' !in root
  {
  }

  /** The output of a node may be referred to exactly from the nodes that depend on it, directly or not. */
  lemma OutputAccepted(doc: Document, node: Node, declared: (Id, string) -> bool, x: Id, path: seq<string>)
    requires Plain(x) && !Blank(x) && PlainPath(path)
    ensures Accepts(Str(OutputReference(x, path)), ScopeFor(doc, node, declared)) <==> Ancestor(NodeMap(doc.nodes), node.id, x)
  {
    var name := OutputName(x, Below(path));
    NoBraceBelow(x, path);
    WholeReference(name, OutputReference(x, path));
    OutputParts(x, Below(path));
    SingleAccepted(OutputReference(x, path), name, ScopeFor(doc, node, declared));
    if Ancestor(NodeMap(doc.nodes), node.id, x) { AncestorInPlan(NodeMap(doc.nodes), node.id, x); }
  }

  lemma OutputParts(x: Id, below: string)
    requires '.' !in x
    ensures var parts := Split(OutputName(x, below)); |parts| >= 3 && parts[0] == "nodes" && parts[1] == x
  {
    var s := OutputName(x, below);
    SplitHead("nodes", x + "." + below, |s| + 1);
    SplitHead(x, below, |s|);
  }
}
