/**
 Interpolation of plan arguments and the static check of the references in them. The
 matcher follows the pattern `\$\{([^}]+)\}`: leftmost matches, a non-empty name without a
 closing brace.
 */
module Interpolation {
  import opened Wrappers
  import opened Json
  import opened PlanTypes
  import opened Graph
  import opened Text

  /** Library calls whose result is not modelled: printing a value and scanning an index. */
  datatype Library = Library(render: Value -> string, scan: string -> Option<int>)

  datatype EvalContext = EvalContext(
    variables: map<string, Value>,
    nodeOutput: map<Id, Value>,
    item: map<string, Value>,
    input: map<string, Value>,
    context: map<string, Value>
  )

  // ---------------------------------------------------------------- strings

  function IndexOf(s: string, c: char, from: nat): (i: nat)
    requires from <= |s|
    ensures from <= i <= |s| && (i < |s| ==> s[i] == c) && forall k :: from <= k < i ==> s[k] != c
    decreases |s| - from
  {
    if from == |s| || s[from] == c then from else IndexOf(s, c, from + 1)
  }

  /** `strings.SplitN` on dots. */
  function SplitN(s: string, limit: nat): (parts: seq<string>)
    ensures |parts| >= 1
    decreases limit
  {
    var i := IndexOf(s, '.', 0);
    if limit <= 1 || i == |s| then [s] else [s[..i]] + SplitN(s[i + 1..], limit - 1)
  }

  /** `strings.Split` on dots: no limit is larger than the number of characters plus one. */
  function Split(s: string): seq<string> {
    SplitN(s, |s| + 1)
  }

  /** The root and the name of a reference are the same in both splittings. */
  lemma SplitsAgree(s: string)
    requires |Split(s)| >= 2
    ensures |SplitN(s, 3)| >= 2 && SplitN(s, 3)[0] == Split(s)[0] && SplitN(s, 3)[1] == Split(s)[1]
  {
    var i := IndexOf(s, '.', 0);
    assert i < |s|;
    assert Split(s) == [s[..i]] + SplitN(s[i + 1..], |s|);
    assert SplitN(s, 3) == [s[..i]] + SplitN(s[i + 1..], 2);
    var t := s[i + 1..];
    var j := IndexOf(t, '.', 0);
    if j < |t| {
      assert |s| > 1;
      assert SplitN(t, |s|) == [t[..j]] + SplitN(t[j + 1..], |s| - 1);
      assert SplitN(t, 2) == [t[..j]] + SplitN(t[j + 1..], 1);
    }
  }

  function TrimPrefix(s: string, prefix: string): string {
    if prefix <= s then s[|prefix|..] else s
  }

  function Join(parts: seq<string>): string {
    if |parts| == 0 then "" else if |parts| == 1 then parts[0] else parts[0] + "." + Join(parts[1..])
  }

  /** `strings.FieldsFunc` on dots and slashes. */
  function Fields(s: string): (fields: seq<string>)
    ensures forall f :: f in fields ==> f != "" && '.' !in f && '/' !in f
    decreases |s|
  {
    if s == "" then []
    else
      var n := FieldLength(s);
      if n == 0 then Fields(s[1..]) else [s[..n]] + Fields(s[n..])
  }

  function FieldLength(s: string): (n: nat)
    ensures n <= |s| && '.' !in s[..n] && '/' !in s[..n]
  {
    if s == "" || s[0] == '.' || s[0] == '/' then 0
    else
      var n := 1 + FieldLength(s[1..]);
      assert s[..n] == [s[0]] + s[1..][..n - 1];
      n
  }

  // ---------------------------------------------------------------- the reference pattern

  /** The end of the match that starts at `i`, if there is one. */
  function MatchAt(s: string, i: nat): (end: Option<nat>)
    ensures end.Some? ==> i + 3 < end.value <= |s| && s[i] == '$' && s[i + 1] == '{' && s[end.value - 1] == '}'
    ensures end.Some? ==> '}' !in s[i + 2..end.value - 1]
  {
    if i + 1 < |s| && s[i] == '$' && s[i + 1] == '{' then
      var j := IndexOf(s, '}', i + 2);
      if i + 2 < j < |s| then Some(j + 1) else None
    else None
  }

  datatype Match = Match(start: nat, end: nat)

  /** The leftmost match at or after a position. */
  function FirstMatch(s: string, from: nat): (m: Option<Match>)
    requires from <= |s|
    ensures m.Some? ==> from <= m.value.start && MatchAt(s, m.value.start) == Some(m.value.end)
    ensures forall i :: from <= i < (if m.Some? then m.value.start else |s|) ==> MatchAt(s, i).None?
    decreases |s| - from
  {
    if from == |s| then None
    else if MatchAt(s, from).Some? then Some(Match(from, MatchAt(s, from).value))
    else FirstMatch(s, from + 1)
  }

  function Name(s: string, m: Match): string
    requires m.start + 2 <= m.end - 1 <= |s|
  {
    s[m.start + 2..m.end - 1]
  }

  /** `FindAllStringSubmatchIndex` from a position on. */
  function Matches(s: string, from: nat): (all: seq<Match>)
    requires from <= |s|
    ensures forall i :: 0 <= i < |all| ==> MatchAt(s, all[i].start) == Some(all[i].end)
    decreases |s| - from
  {
    var m := FirstMatch(s, from);
    if m.None? then [] else [m.value] + Matches(s, m.value.end)
  }

  /** The text from a position on with every reference replaced by what `f` makes of it. */
  function Substitute(s: string, from: nat, f: string -> Option<string>): Option<string>
    requires from <= |s|
    decreases |s| - from
  {
    var m := FirstMatch(s, from);
    if m.None? then Some(s[from..])
    else
      var value := f(Name(s, m.value));
      var rest := Substitute(s, m.value.end, f);
      if value.None? || rest.None? then None
      else Some(s[from..m.value.start] + value.value + rest.value)
  }

  /** Nothing but the references is touched: writing each one back gives the text. */
  lemma {:induction false} SubstituteIdentity(s: string, from: nat)
    requires from <= |s|
    ensures Substitute(s, from, name => Some("${" + name + "}")) == Some(s[from..])
    decreases |s| - from
  {
    var m := FirstMatch(s, from);
    if m.Some? {
      var i, j := m.value.start, m.value.end;
      SubstituteIdentity(s, j);
      WrittenBack(s, i, j);
      Cut(s, from, i, j);
    }
  }

  lemma WrittenBack(s: string, i: nat, j: nat)
    requires MatchAt(s, i) == Some(j)
    ensures s[i..j] == "${" + s[i + 2..j - 1] + "}"
  {
    var written := "${" + s[i + 2..j - 1] + "}";
    assert |written| == j - i;
    forall k | 0 <= k < j - i ensures s[i..j][k] == written[k] { }
  }

  lemma Cut(s: string, from: nat, i: nat, j: nat)
    requires from <= i <= j <= |s|
    ensures s[from..] == s[from..i] + s[i..j] + s[j..]
  {
  }

  /** Two substitutions that agree on the references of a text agree on the text. */
  lemma {:induction false} SubstituteAgrees(s: string, from: nat, f: string -> Option<string>, g: string -> Option<string>)
    requires from <= |s|
    requires forall m :: m in Matches(s, from) ==> f(Name(s, m)) == g(Name(s, m))
    ensures Substitute(s, from, f) == Substitute(s, from, g)
    decreases |s| - from
  {
    var m := FirstMatch(s, from);
    if m.Some? {
      assert Matches(s, from) == [m.value] + Matches(s, m.value.end);
      assert m.value in Matches(s, from);
      forall other | other in Matches(s, m.value.end) ensures f(Name(s, other)) == g(Name(s, other)) {
        assert other in Matches(s, from);
      }
      SubstituteAgrees(s, m.value.end, f, g);
    }
  }

  // ---------------------------------------------------------------- resolving

  /** Following a path of fields through a value. */
  function Walk(lib: Library, root: Value, fields: seq<string>): Option<Value> {
    if fields == [] then Some(root)
    else
      match root
      case Obj(m) => if fields[0] in m then Walk(lib, m[fields[0]], fields[1..]) else None
      case Arr(items) =>
        var index := lib.scan(fields[0]);
        if index.Some? && 0 <= index.value < |items| then Walk(lib, items[index.value], fields[1..]) else None
      case _ => None
  }

  function FieldsOf(path: string): seq<string> {
    Fields(TrimPrefix(path, "/"))
  }

  /** The loop of `resolveDottedPath`. */
  method ResolveDottedPath(lib: Library, root: Value, path: string) returns (r: Option<Value>)
    ensures r == Walk(lib, root, FieldsOf(path))
  {
    if path == "" {
      return Some(root);
    }
    var fields := FieldsOf(path);
    var current := root;
    for k := 0 to |fields|
      invariant Walk(lib, root, fields) == Walk(lib, current, fields[k..])
    {
      match current {
        case Obj(m) =>
          if fields[k] !in m {
            return None;
          }
          current := m[fields[k]];
        case Arr(items) =>
          var index := lib.scan(fields[k]);
          if index.None? || index.value < 0 || index.value >= |items| {
            return None;
          }
          current := items[index.value];
        case _ =>
          return None;
      }
    }
    r := Some(current);
  }

  function OutputPath(path: string): string {
    if "output" <= path then TrimPrefix(TrimPrefix(path, "output"), ".") else path
  }

  /** `resolveReference` */
  function Resolve(lib: Library, reference: string, ctx: EvalContext): Option<Value> {
    var parts := SplitN(reference, 3);
    if |parts| < 2 then None
    else
      var path := FieldsOf(Join(parts[1..]));
      match parts[0]
      case "vars" => Walk(lib, Obj(ctx.variables), path)
      case "item" => Walk(lib, Obj(ctx.item), path)
      case "input" => Walk(lib, Obj(ctx.input), path)
      case "context" => Walk(lib, Obj(ctx.context), path)
      case "nodes" =>
        if |parts| < 3 || parts[2] == "" || parts[1] !in ctx.nodeOutput then None
        else Walk(lib, ctx.nodeOutput[parts[1]], FieldsOf(OutputPath(parts[2])))
      case _ => None
  }

  // ---------------------------------------------------------------- interpolation

  function Rendered(lib: Library, ctx: EvalContext): string -> Option<string> {
    name => var v := Resolve(lib, name, ctx); if v.Some? then Some(lib.render(v.value)) else None
  }

  function InterpolateText(lib: Library, s: string, ctx: EvalContext): Option<Value> {
    if MatchAt(s, 0) == Some(|s|) then Resolve(lib, Name(s, Match(0, |s|)), ctx)
    else TextValue(Substitute(s, 0, Rendered(lib, ctx)))
  }

  function TextValue(text: Option<string>): Option<Value> {
    if text.Some? then Some(Str(text.value)) else None
  }

  /** `interpolateValue`: every leaf is interpolated and one failure fails the whole. */
  function Interpolate(lib: Library, value: Value, ctx: EvalContext): Option<Value>
    decreases value
  {
    match value
    case Obj(m) =>
      if forall k :: k in m ==> Interpolate(lib, m[k], ctx).Some?
      then Some(Obj(map k | k in m :: Interpolate(lib, m[k], ctx).value))
      else None
    case Arr(items) =>
      if forall i :: 0 <= i < |items| ==> Interpolate(lib, items[i], ctx).Some?
      then Some(Arr(seq(|items|, i requires 0 <= i < |items| => Interpolate(lib, items[i], ctx).value)))
      else None
    case Str(s) => InterpolateText(lib, s, ctx)
    case _ => Some(value)
  }

  /** The string case of `interpolateValue`: one pass over the matches with a builder. */
  method InterpolateString(lib: Library, s: string, ctx: EvalContext) returns (r: Option<Value>)
    ensures r == InterpolateText(lib, s, ctx)
  {
    var matches := Matches(s, 0);
    if |matches| == 0 {
      NoMatches(lib, s, ctx);
      return Some(Str(s));
    }
    if |matches| == 1 && matches[0].start == 0 && matches[0].end == |s| {
      return Resolve(lib, Name(s, matches[0]), ctx);
    }
    WholeMatch(s);
    r := BuildText(lib, s, ctx, matches);
  }

  /** The builder loop. */
  method BuildText(lib: Library, s: string, ctx: EvalContext, matches: seq<Match>) returns (r: Option<Value>)
    requires matches == Matches(s, 0)
    ensures r == TextValue(Substitute(s, 0, Rendered(lib, ctx)))
  {
    var builder: string, last: nat := "", 0;
    ghost var whole := Substitute(s, 0, Rendered(lib, ctx));
    PrependNothing(whole);
    for k := 0 to |matches|
      invariant last <= |s| && Matches(s, last) == matches[k..]
      invariant whole == Prepend(builder, Substitute(s, last, Rendered(lib, ctx)))
    {
      NextMatch(s, last, matches, k);
      var resolved := Resolve(lib, Name(s, matches[k]), ctx);
      if resolved.None? {
        return None;
      }
      NextPiece(lib, s, ctx, last, matches[k], builder);
      builder := builder + s[last..matches[k].start] + lib.render(resolved.value);
      last := matches[k].end;
    }
    r := Some(Str(builder + s[last..]));
  }

  lemma NextMatch(s: string, last: nat, matches: seq<Match>, k: nat)
    requires last <= |s| && k < |matches| && Matches(s, last) == matches[k..]
    ensures FirstMatch(s, last) == Some(matches[k]) && Matches(s, matches[k].end) == matches[k + 1..]
  {
    assert matches[k..][0] == matches[k] && matches[k..][1..] == matches[k + 1..];
  }

  lemma NextPiece(lib: Library, s: string, ctx: EvalContext, last: nat, m: Match, builder: string)
    requires last <= |s| && FirstMatch(s, last) == Some(m) && Resolve(lib, Name(s, m), ctx).Some?
    ensures Prepend(builder, Substitute(s, last, Rendered(lib, ctx))) ==
      Prepend(builder + s[last..m.start] + lib.render(Resolve(lib, Name(s, m), ctx).value), Substitute(s, m.end, Rendered(lib, ctx)))
  {
    var value := lib.render(Resolve(lib, Name(s, m), ctx).value);
    var rest := Substitute(s, m.end, Rendered(lib, ctx));
    assert Substitute(s, last, Rendered(lib, ctx)) == Prepend(s[last..m.start] + value, rest);
    PrependTwice(builder, s[last..m.start], value, rest);
  }

  lemma PrependTwice(a: string, b: string, c: string, rest: Option<string>)
    ensures Prepend(a, Prepend(b + c, rest)) == Prepend(a + b + c, rest)
  {
    if rest.Some? {
      assert a + (b + c + rest.value) == a + b + c + rest.value;
    }
  }

  function Prepend(text: string, rest: Option<string>): Option<string> {
    if rest.Some? then Some(text + rest.value) else None
  }

  lemma PrependNothing(text: Option<string>)
    ensures Prepend("", text) == text
  {
    assert text.Some? ==> "" + text.value == text.value;
  }

  lemma NoMatches(lib: Library, s: string, ctx: EvalContext)
    requires Matches(s, 0) == []
    ensures InterpolateText(lib, s, ctx) == Some(Str(s))
  {
    assert FirstMatch(s, 0).None?;
    assert s[0..] == s;
    WholeMatch(s);
  }

  /** A text that is one reference has exactly that match. */
  lemma WholeMatch(s: string)
    ensures MatchAt(s, 0) == Some(|s|) ==> |Matches(s, 0)| == 1 && Matches(s, 0)[0] == Match(0, |s|)
  {
    if MatchAt(s, 0) == Some(|s|) {
      assert FirstMatch(s, 0) == Some(Match(0, |s|));
      assert FirstMatch(s, |s|).None?;
    }
  }

  lemma FieldsDone(lib: Library, m: map<string, Value>, ctx: EvalContext, result: map<string, Value>)
    requires result.Keys == m.Keys && forall k :: k in m ==> Interpolate(lib, m[k], ctx) == Some(result[k])
    ensures Interpolate(lib, Obj(m), ctx) == Some(Obj(result))
  {
    var whole := Interpolate(lib, Obj(m), ctx);
    assert whole.Some? && whole.value.Obj?;
    assert whole.value.fields == result;
  }

  lemma ItemsDone(lib: Library, items: seq<Value>, ctx: EvalContext, result: seq<Value>)
    requires |result| == |items| && forall i :: 0 <= i < |items| ==> Interpolate(lib, items[i], ctx) == Some(result[i])
    ensures Interpolate(lib, Arr(items), ctx) == Some(Arr(result))
  {
    var whole := Interpolate(lib, Arr(items), ctx);
    assert whole.Some? && whole.value.Arr?;
    assert whole.value.items == result;
  }

  /** `interpolateValue` with its loops over objects and arrays. */
  method InterpolateValue(lib: Library, value: Value, ctx: EvalContext) returns (r: Option<Value>)
    ensures r == Interpolate(lib, value, ctx)
    decreases value
  {
    match value {
      case Obj(m) =>
        var result: map<string, Value>, rest := map[], m.Keys;
        while rest != {}
          invariant rest <= m.Keys && result.Keys == m.Keys - rest
          invariant forall k :: k in result ==> Interpolate(lib, m[k], ctx) == Some(result[k])
          decreases rest
        {
          var key :| key in rest;
          var child := InterpolateValue(lib, m[key], ctx);
          if child.None? {
            return None;
          }
          result := result[key := child.value];
          rest := rest - {key};
        }
        FieldsDone(lib, m, ctx, result);
        r := Some(Obj(result));
      case Arr(items) =>
        var result: seq<Value> := [];
        for i := 0 to |items|
          invariant |result| == i && forall k :: 0 <= k < i ==> Interpolate(lib, items[k], ctx) == Some(result[k])
        {
          var child := InterpolateValue(lib, items[i], ctx);
          if child.None? {
            return None;
          }
          result := result + [child.value];
        }
        ItemsDone(lib, items, ctx, result);
        r := Some(Arr(result));
      case Str(s) =>
        r := InterpolateString(lib, s, ctx);
      case _ =>
        r := Some(value);
    }
  }

  // ---------------------------------------------------------------- ancestors

  /** Every node of the set has all its dependencies in the set. */
  ghost predicate ParentsIn(g: Plan, x: Id, seen: set<Id>) {
    x in g && forall d :: d in g[x].dependsOn ==> d in seen
  }

  lemma AncestorStep(g: Plan, a: Id, b: Id, c: Id)
    requires Closed(g) && a in g && b in g[a].dependsOn && (c == b || Ancestor(g, b, c))
    ensures Ancestor(g, a, c)
  {
    assert DependsOn(g, a, b);
    assert DependenciesOk(g[a], g.Keys);
    if c == b {
      assert Chain(g, [a, b]);
      assert [a, b][|[a, b]| - 1] == c;
    } else {
      var p :| Chain(g, p) && |p| > 1 && p[0] == b && p[|p| - 1] == c;
      var q := [a] + p;
      forall i | 0 <= i < |q| - 1 ensures DependsOn(g, q[i], q[i + 1]) {
        if i > 0 { assert DependsOn(g, p[i - 1], p[i]); }
      }
      assert Chain(g, q) && q[|q| - 1] == c;
    }
  }

  /** `visit`: marks whatever can be reached and is not marked yet. */
  method Visit(g: Plan, id: Id, seen: set<Id>) returns (marked: set<Id>)
    requires Closed(g) && id in g && seen <= g.Keys
    ensures seen <= marked <= g.Keys && ParentsIn(g, id, marked)
    ensures forall x :: x in marked - seen ==> Ancestor(g, id, x) && ParentsIn(g, x, marked)
    decreases |g.Keys - seen|
  {
    marked := seen;
    var parents := g[id].dependsOn;
    assert DependenciesOk(g[id], g.Keys);
    for i := 0 to |parents|
      invariant seen <= marked <= g.Keys
      invariant forall k :: 0 <= k < i ==> parents[k] in marked
      invariant forall x :: x in marked - seen ==> Ancestor(g, id, x) && ParentsIn(g, x, marked)
    {
      var parent := parents[i];
      if parent in marked {
        continue;
      }
      ghost var before := marked;
      Shrinks(g.Keys, seen, marked, parent);
      marked := Visit(g, parent, marked + {parent});
      forall x | x in marked - seen ensures Ancestor(g, id, x) && ParentsIn(g, x, marked) {
        if x !in before { AncestorStep(g, id, parent, x); }
      }
    }
  }

  lemma Shrinks(all: set<Id>, seen: set<Id>, marked: set<Id>, parent: Id)
    requires seen <= marked && parent in all && parent !in marked
    ensures |all - (marked + {parent})| < |all - seen|
  {
    assert all - (marked + {parent}) < all - seen;
    SmallerSet(all - (marked + {parent}), all - seen);
  }

  lemma SmallerSet(a: set<Id>, b: set<Id>)
    requires a < b
    ensures |a| < |b|
  {
    assert b == a + (b - a);
    assert b - a != {};
  }

  /** A set closed under dependencies that holds the parents of a node holds its ancestors. */
  lemma ClosedHoldsAncestors(g: Plan, id: Id, marked: set<Id>, p: seq<Id>)
    requires ParentsIn(g, id, marked) && forall x :: x in marked ==> ParentsIn(g, x, marked)
    requires Chain(g, p) && |p| > 1 && p[0] == id
    ensures p[|p| - 1] in marked
    decreases |p|
  {
    assert DependsOn(g, p[0], p[1]);
    if |p| > 2 {
      ChainTail(g, p);
      ClosedHoldsAncestors(g, p[1], marked, p[1..]);
    }
  }

  /** `graphAncestors`: for every node exactly its transitive dependencies. */
  method GraphAncestors(doc: Document) returns (ancestors: map<Id, set<Id>>)
    requires WellFormed(doc.nodes)
    ensures ancestors.Keys == NodeMap(doc.nodes).Keys
    ensures forall a, b :: a in ancestors ==> (b in ancestors[a] <==> Ancestor(NodeMap(doc.nodes), a, b))
  {
    WellFormedClosed(doc.nodes);
    NodeMapKeys(doc.nodes);
    ghost var g := NodeMap(doc.nodes);
    ancestors := map[];
    for i := 0 to |doc.nodes|
      invariant forall a :: a in ancestors <==> exists k :: 0 <= k < i && doc.nodes[k].id == a
      invariant forall a, b :: a in ancestors ==> (b in ancestors[a] <==> Ancestor(g, a, b))
    {
      var id := doc.nodes[i].id;
      var seen := Visit(NodeMap(doc.nodes), id, {});
      forall b ensures b in seen <==> Ancestor(g, id, b) {
        if Ancestor(g, id, b) {
          var p :| Chain(g, p) && |p| > 1 && p[0] == id && p[|p| - 1] == b;
          ClosedHoldsAncestors(g, id, seen, p);
        }
      }
      ancestors := ancestors[id := seen];
    }
  }

  // ---------------------------------------------------------------- static check

  /** What a reference check knows; `declared` answers the schema lookups for input and context. */
  datatype Scope = Scope(variables: map<string, Value>, ancestors: set<Id>, waits: bool, item: bool, declared: string -> bool)

  function Stripped(reference: string): string {
    if MatchAt(reference, 0) == Some(|reference|) then Name(reference, Match(0, |reference|)) else reference
  }

  /** `validateReference` */
  predicate AcceptsReference(reference: string, scope: Scope) {
    var parts := Split(Stripped(reference));
    && |parts| >= 2 && !Blank(parts[1])
    && match parts[0]
       case "vars" => parts[1] in scope.variables
       case "item" => scope.item
       case "nodes" => |parts| >= 3 && parts[1] in scope.ancestors
       case "input" => scope.waits && scope.declared(Stripped(reference))
       case "context" => scope.declared(Stripped(reference))
       case _ => false
  }

  /** The names a text refers to. */
  function References(s: string): seq<string> {
    seq(|Matches(s, 0)|, i requires 0 <= i < |Matches(s, 0)| => Name(s, Matches(s, 0)[i]))
  }

  /** `validateInterpolations` */
  predicate Accepts(value: Value, scope: Scope)
    decreases value
  {
    match value
    case Obj(m) => forall k :: k in m ==> Accepts(m[k], scope)
    case Arr(items) => forall i :: 0 <= i < |items| ==> Accepts(items[i], scope)
    case Str(s) => forall i :: 0 <= i < |References(s)| ==> AcceptsReference(References(s)[i], scope)
    case _ => true
  }

  /** `validateInterpolations` with its loops. */
  method ValidateInterpolations(value: Value, scope: Scope) returns (ok: bool)
    ensures ok <==> Accepts(value, scope)
    decreases value, 1
  {
    match value {
      case Obj(m) =>
        ok := ValidateFields(value, scope);
      case Arr(items) =>
        ok := ValidateItems(value, scope);
      case Str(s) =>
        ok := ValidateReferences(References(s), scope);
      case _ =>
        ok := true;
    }
  }

  method ValidateFields(value: Value, scope: Scope) returns (ok: bool)
    requires value.Obj?
    ensures ok <==> Accepts(value, scope)
    decreases value, 0
  {
    var m := value.fields;
    var rest := m.Keys;
    while rest != {}
      invariant rest <= m.Keys && forall k :: k in m.Keys - rest ==> Accepts(m[k], scope)
      decreases rest
    {
      var key :| key in rest;
      ok := ValidateInterpolations(m[key], scope);
      if !ok {
        return;
      }
      rest := rest - {key};
    }
    ok := true;
  }

  method ValidateItems(value: Value, scope: Scope) returns (ok: bool)
    requires value.Arr?
    ensures ok <==> Accepts(value, scope)
    decreases value, 0
  {
    var items := value.items;
    for i := 0 to |items|
      invariant forall k :: 0 <= k < i ==> Accepts(items[k], scope)
    {
      ok := ValidateInterpolations(items[i], scope);
      if !ok {
        return;
      }
    }
    ok := true;
  }

  method ValidateReferences(references: seq<string>, scope: Scope) returns (ok: bool)
    ensures ok <==> forall i :: 0 <= i < |references| ==> AcceptsReference(references[i], scope)
  {
    for i := 0 to |references|
      invariant forall k :: 0 <= k < i ==> AcceptsReference(references[k], scope)
    {
      if !AcceptsReference(references[i], scope) {
        return false;
      }
    }
    ok := true;
  }

  // ---------------------------------------------------------------- non-interference

  /** The contexts differ at most in outputs of nodes outside the set. */
  ghost predicate Agree(a: EvalContext, b: EvalContext, ids: set<Id>) {
    && b == a.(nodeOutput := b.nodeOutput)
    && forall x :: x in ids ==>
      (x in a.nodeOutput <==> x in b.nodeOutput) && (x in a.nodeOutput ==> a.nodeOutput[x] == b.nodeOutput[x])
  }

  /** The name between the braces holds no closing brace, so there is nothing more to strip. */
  lemma NameIsBare(s: string, m: Match)
    requires MatchAt(s, m.start) == Some(m.end)
    ensures Stripped(Name(s, m)) == Name(s, m)
  {
    var name := Name(s, m);
    assert forall i :: 0 <= i < |name| ==> name[i] in name;
  }

  lemma ReferenceAgrees(lib: Library, reference: string, scope: Scope, a: EvalContext, b: EvalContext)
    requires AcceptsReference(reference, scope) && Agree(a, b, scope.ancestors)
    ensures Resolve(lib, Stripped(reference), a) == Resolve(lib, Stripped(reference), b)
  {
    SplitsAgree(Stripped(reference));
  }

  lemma TextAgrees(lib: Library, s: string, scope: Scope, a: EvalContext, b: EvalContext)
    requires Accepts(Str(s), scope) && Agree(a, b, scope.ancestors)
    ensures InterpolateText(lib, s, a) == InterpolateText(lib, s, b)
  {
    forall m | m in Matches(s, 0) ensures Resolve(lib, Name(s, m), a) == Resolve(lib, Name(s, m), b) {
      NameIsBare(s, m);
      var i :| 0 <= i < |Matches(s, 0)| && Matches(s, 0)[i] == m;
      assert References(s)[i] == Name(s, m);
      ReferenceAgrees(lib, Name(s, m), scope, a, b);
    }
    SubstituteAgrees(s, 0, Rendered(lib, a), Rendered(lib, b));
    WholeMatch(s);
  }

  lemma FieldsSame(lib: Library, m: map<string, Value>, a: EvalContext, b: EvalContext)
    requires forall k :: k in m ==> Interpolate(lib, m[k], a) == Interpolate(lib, m[k], b)
    ensures Interpolate(lib, Obj(m), a) == Interpolate(lib, Obj(m), b)
  {
    if forall k :: k in m ==> Interpolate(lib, m[k], a).Some? {
      var result := map k | k in m :: Interpolate(lib, m[k], a).value;
      FieldsDone(lib, m, a, result);
      FieldsDone(lib, m, b, result);
    }
  }

  lemma ItemsSame(lib: Library, items: seq<Value>, a: EvalContext, b: EvalContext)
    requires forall i :: 0 <= i < |items| ==> Interpolate(lib, items[i], a) == Interpolate(lib, items[i], b)
    ensures Interpolate(lib, Arr(items), a) == Interpolate(lib, Arr(items), b)
  {
    if forall i :: 0 <= i < |items| ==> Interpolate(lib, items[i], a).Some? {
      var result := seq(|items|, i requires 0 <= i < |items| => Interpolate(lib, items[i], a).value);
      ItemsDone(lib, items, a, result);
      ItemsDone(lib, items, b, result);
    }
  }

  /** Accepted arguments depend on nothing but the fixed roots and the ancestors' outputs. */
  lemma {:induction false} ValueAgrees(lib: Library, value: Value, scope: Scope, a: EvalContext, b: EvalContext)
    requires Accepts(value, scope) && Agree(a, b, scope.ancestors)
    ensures Interpolate(lib, value, a) == Interpolate(lib, value, b)
    decreases value
  {
    match value
    case Obj(m) =>
      forall k | k in m ensures Interpolate(lib, m[k], a) == Interpolate(lib, m[k], b) { ValueAgrees(lib, m[k], scope, a, b); }
      FieldsSame(lib, m, a, b);
    case Arr(items) =>
      forall i | 0 <= i < |items| ensures Interpolate(lib, items[i], a) == Interpolate(lib, items[i], b) {
        ValueAgrees(lib, items[i], scope, a, b);
      }
      ItemsSame(lib, items, a, b);
    case Str(s) => TextAgrees(lib, s, scope, a, b);
    case _ =>
  }

  /** `resolveSource`: the array a forEach node fans out over. */
  function ResolveSource(lib: Library, source: string, ctx: EvalContext): Option<Value> {
    if "${" <= source && |source| >= 3 && source[|source| - 1] == '}'
    then Resolve(lib, source[2..|source| - 1], ctx)
    else None
  }

  /** An accepted fan-out source depends on the same things as accepted arguments. */
  lemma SourceAgrees(lib: Library, source: string, scope: Scope, a: EvalContext, b: EvalContext)
    requires AcceptsReference(source, scope) && Agree(a, b, scope.ancestors)
    ensures ResolveSource(lib, source, a) == ResolveSource(lib, source, b)
  {
    if MatchAt(source, 0) == Some(|source|) {
      assert Stripped(source) == source[2..|source| - 1];
      ReferenceAgrees(lib, source, scope, a, b);
    } else {
      var i := IndexOf(source, '.', 0);
      assert Split(source)[0] == source[..i];
      assert source[0] != '$';
    }
  }

  /** The scope in which the references of a node are checked. */
  ghost predicate ScopeOf(doc: Document, node: Node, scope: Scope) {
    && scope.variables == doc.variables
    && (forall x :: x in scope.ancestors <==> Ancestor(NodeMap(doc.nodes), node.id, x))
    && scope.waits == node.wait.Some? && scope.item == node.forEach.Some?
  }

  /**
   In an accepted plan nothing that is written to the outputs of the node's own level or of
   later ones can change its arguments or the items it fans out over.
   */
  lemma ArgumentsIgnoreSiblings(lib: Library, doc: Document, levels: seq<seq<Node>>, k: nat, node: Node, scope: Scope,
                                args: Value, a: EvalContext, b: EvalContext)
    requires Levelling(NodeMap(doc.nodes), levels) && k < |levels| && node.id in IdsOf(levels[k])
    requires ScopeOf(doc, node, scope) && Accepts(args, scope) && Agree(a, b, Before(levels, k))
    ensures Interpolate(lib, args, a) == Interpolate(lib, args, b)
    ensures node.forEach.Some? && AcceptsReference(node.forEach.value.source, scope) ==>
      ResolveSource(lib, node.forEach.value.source, a) == ResolveSource(lib, node.forEach.value.source, b)
  {
    forall x | x in scope.ancestors ensures x in Before(levels, k) {
      AncestorEarlier(NodeMap(doc.nodes), levels, k, node.id, x);
    }
    ValueAgrees(lib, args, scope, a, b);
    if node.forEach.Some? && AcceptsReference(node.forEach.value.source, scope) {
      SourceAgrees(lib, node.forEach.value.source, scope, a, b);
    }
  }

  lemma FirstAt(s: string, c: char, from: nat, n: nat)
    requires from <= n < |s| && s[n] == c && c !in s[from..n]
    ensures IndexOf(s, c, from) == n
  {
    assert forall i :: from <= i < n ==> s[i] == s[from..n][i - from];
  }

  lemma SplitHead(head: string, tail: string, limit: nat)
    requires '.' !in head && limit > 1
    ensures SplitN(head + "." + tail, limit) == [head] + SplitN(tail, limit - 1)
  {
    var s := head + "." + tail;
    assert s[0..|head|] == head && s[|head| + 1..] == tail;
    FirstAt(s, '.', 0, |head|);
  }

  lemma WholeReference(name: string, s: string)
    requires name != "" && '}' !in name && s == "${" + name + "}"
    ensures MatchAt(s, 0) == Some(|s|) && Name(s, Match(0, |s|)) == name
    ensures References(s) == [name]
    ensures Stripped(name) == name
  {
    assert s[2..|s| - 1] == name;
    FirstAt(s, '}', 2, |s| - 1);
    assert forall i :: 0 <= i < |name| ==> name[i] in name;
    WholeMatch(s);
  }

  /** The reference to the whole output of a node. */
  function OutputOf(x: Id): string {
    "nodes" + "." + (x + "." + "output")
  }

  lemma OutputSplits(x: Id, limit: nat)
    requires '.' !in x && limit > 2
    ensures SplitN(OutputOf(x), limit) == ["nodes", x] + SplitN("output", limit - 2)
  {
    SplitHead("nodes", x + "." + "output", limit);
    SplitHead(x, "output", limit - 1);
    assert ["nodes"] + ([x] + SplitN("output", limit - 2)) == ["nodes", x] + SplitN("output", limit - 2);
  }

  lemma OutputResolves(lib: Library, x: Id, ctx: EvalContext)
    requires '.' !in x && x in ctx.nodeOutput
    ensures Resolve(lib, OutputOf(x), ctx) == Some(ctx.nodeOutput[x])
  {
    OutputSplits(x, 3);
    assert SplitN(OutputOf(x), 3) == ["nodes", x, "output"];
    assert TrimPrefix("output", "output") == "";
  }

  lemma OutputRefused(x: Id, scope: Scope)
    requires '.' !in x && x !in scope.ancestors && Stripped(OutputOf(x)) == OutputOf(x)
    ensures !AcceptsReference(OutputOf(x), scope)
  {
    OutputSplits(x, |OutputOf(x)| + 1);
    assert Split(OutputOf(x))[0] == "nodes" && Split(OutputOf(x))[1] == x;
  }

  /** The check is needed: an output outside the ancestors would be visible to the arguments. */
  lemma UnlistedOutputInterferes(lib: Library, scope: Scope, x: Id, s: string, ctx: EvalContext)
    requires x !in scope.ancestors && '.' !in x && '}' !in x && s == "${" + OutputOf(x) + "}"
    ensures !Accepts(Str(s), scope)
    ensures exists a, b :: Agree(a, b, scope.ancestors) && Interpolate(lib, Str(s), a) != Interpolate(lib, Str(s), b)
  {
    WholeReference(OutputOf(x), s);
    OutputRefused(x, scope);
    assert References(s)[0] == OutputOf(x);
    var a := ctx.(nodeOutput := ctx.nodeOutput[x := Null]);
    var b := ctx.(nodeOutput := ctx.nodeOutput[x := Bool(true)]);
    assert Agree(a, b, scope.ancestors);
    OutputResolves(lib, x, a);
    OutputResolves(lib, x, b);
    assert Interpolate(lib, Str(s), a) != Interpolate(lib, Str(s), b);
  }
}
