/**
 `Validate`: which plans may run. Shape, graph, budget and references are checked here; what
 the schemas and the capability catalog answer is given.
 */
module Validation {
  import opened Wrappers
  import opened Json
  import opened PlanTypes
  import opened RunSpec
  import opened Graph
  import opened Interpolation
  import opened Runner

  /** Answers of the catalog: its own checks, and which input and context references are declared for a node. */
  datatype Catalog = Catalog(ok: bool, declared: (Id, string) -> bool)

  /** The checks of one node that need no catalog. */
  predicate NodeChecks(node: Node)
    ensures NodeChecks(node) <==> NodeShapeOk(node)
  {
    && !(node.action.None? && node.wait.None? && node.validate.None? && node.forEach.None?)
    && !(node.wait.Some? &&
      (node.action.Some? || node.validate.Some? || node.recover.Some? || node.compensate.Some? || node.forEach.Some?))
    && !(node.recover.Some? && !(0 <= node.recover.value.maxAttempts <= MAX_TOTAL_ATTEMPTS))
    && !(node.forEach.Some? && node.action.None?)
    && 0 <= node.maxAttempts <= MAX_TOTAL_ATTEMPTS
  }

  predicate PolicyChecks(doc: Document)
    ensures PolicyChecks(doc) <==> PolicyOk(doc)
  {
    var passes := if doc.convergeMaxPasses <= 0 then doc.defaultMaxPasses else doc.convergeMaxPasses;
    && !(|doc.nodes| == 0 || |doc.nodes| > MAX_NODES)
    && !(doc.convergeMaxPasses < 0 || doc.defaultMaxPasses < 0)
    && !(passes > MAX_PASSES)
    && !(doc.maxConcurrency < 0 || doc.maxConcurrency > MAX_FAN_OUT)
    && !(doc.defaultMaxAttempts < 0 || doc.defaultMaxAttempts > MAX_TOTAL_ATTEMPTS)
  }

  /** The node loop of `Validate`: shapes, and the attempts accumulated over the plan. */
  method CheckNodes(doc: Document) returns (ok: bool)
    ensures ok <==> (forall i :: 0 <= i < |doc.nodes| ==> NodeShapeOk(doc.nodes[i]))
                    && TotalWeight(doc.nodes, doc) <= MAX_TOTAL_ATTEMPTS
  {
    var totalAttempts := 0;
    for i := 0 to |doc.nodes|
      invariant forall k :: 0 <= k < i ==> NodeShapeOk(doc.nodes[k])
      invariant totalAttempts == TotalWeight(doc.nodes[..i], doc)
    {
      var node := doc.nodes[i];
      if !NodeChecks(node) {
        return false;
      }
      assert doc.nodes[..i + 1][..i] == doc.nodes[..i];
      totalAttempts := totalAttempts + Fan(node) * (Attempts(node, doc) + RecoveryAttempts(node));
    }
    assert doc.nodes[..|doc.nodes|] == doc.nodes;
    ok := totalAttempts <= MAX_TOTAL_ATTEMPTS;
  }

  // ---------------------------------------------------------------- references

  function DeclaredFor(declared: (Id, string) -> bool, id: Id): string -> bool {
    reference => declared(id, reference)
  }

  ghost function AncestorsOf(g: Plan, id: Id): set<Id> {
    set x | x in g && Ancestor(g, id, x)
  }

  /** The scope in which the references of a node are checked. */
  ghost function ScopeFor(doc: Document, node: Node, declared: (Id, string) -> bool): Scope {
    Scope(doc.variables, AncestorsOf(NodeMap(doc.nodes), node.id), node.wait.Some?, node.forEach.Some?, DeclaredFor(declared, node.id))
  }

  /** Holds of everything a node interpolates: the arguments of all its blocks, its target and its wait. */
  ghost predicate Throughout(node: Node, holds: Value -> bool) {
    && (node.wait.Some? ==> holds(node.wait.value.correlation))
    && (node.wait.Some? ==> forall i :: 0 <= i < |node.wait.value.contextDelta| ==> holds(node.wait.value.contextDelta[i].value))
    && (node.target.Some? ==> holds(Str(node.target.value)))
    && (node.action.Some? ==> holds(node.action.value.args))
    && (node.validate.Some? ==> holds(node.validate.value.args))
    && (node.recover.Some? ==> holds(node.recover.value.args))
    && (node.compensate.Some? ==> holds(node.compensate.value.args))
  }

  ghost predicate NodeReferencesOk(node: Node, scope: Scope) {
    && Throughout(node, template => Accepts(template, scope))
    && (node.forEach.Some? ==> AcceptsReference(node.forEach.value.source, scope))
  }

  ghost predicate ReferencesOk(doc: Document, declared: (Id, string) -> bool) {
    forall i :: 0 <= i < |doc.nodes| ==> NodeReferencesOk(doc.nodes[i], ScopeFor(doc, doc.nodes[i], declared))
  }

  /** The templates of a wait: its correlation and its context deltas. */
  method CheckWait(wait: WaitSpec, scope: Scope) returns (ok: bool)
    ensures ok <==> (Accepts(wait.correlation, scope) && forall i :: 0 <= i < |wait.contextDelta| ==> Accepts(wait.contextDelta[i].value, scope))
  {
    ok := ValidateInterpolations(wait.correlation, scope);
    if !ok {
      return;
    }
    for i := 0 to |wait.contextDelta|
      invariant forall k :: 0 <= k < i ==> Accepts(wait.contextDelta[k].value, scope)
    {
      ok := ValidateInterpolations(wait.contextDelta[i].value, scope);
      if !ok {
        return;
      }
    }
    ok := true;
  }

  /** A template that is there is checked; one that is not there passes. */
  method CheckBlock(template: Option<Value>, scope: Scope) returns (ok: bool)
    ensures ok <==> (template.Some? ==> Accepts(template.value, scope))
  {
    ok := true;
    if template.Some? {
      ok := ValidateInterpolations(template.value, scope);
    }
  }

  /** The reference checks of one node, block by block. */
  method CheckNodeReferences(node: Node, scope: Scope) returns (ok: bool)
    ensures ok <==> NodeReferencesOk(node, scope)
  {
    if node.wait.Some? {
      ok := CheckWait(node.wait.value, scope);
      if !ok {
        return;
      }
    }
    var target := CheckBlock(if node.target.Some? then Some(Str(node.target.value)) else None, scope);
    var action := CheckBlock(if node.action.Some? then Some(node.action.value.args) else None, scope);
    var validate := CheckBlock(if node.validate.Some? then Some(node.validate.value.args) else None, scope);
    var recover := CheckBlock(if node.recover.Some? then Some(node.recover.value.args) else None, scope);
    var compensate := CheckBlock(if node.compensate.Some? then Some(node.compensate.value.args) else None, scope);
    ok := target && action && validate && recover && compensate;
    if ok && node.forEach.Some? {
      ok := ValidateReferences([node.forEach.value.source], scope);
      assert [node.forEach.value.source][0] == node.forEach.value.source;
    }
  }

  lemma AncestorInPlan(g: Plan, a: Id, b: Id)
    requires Ancestor(g, a, b)
    ensures b in g
  {
    var p :| Chain(g, p) && |p| > 1 && p[0] == a && p[|p| - 1] == b;
  }

  /** The reference checks of all nodes, against the ancestors computed once. */
  method CheckReferences(doc: Document, declared: (Id, string) -> bool) returns (ok: bool)
    requires WellFormed(doc.nodes)
    ensures ok <==> ReferencesOk(doc, declared)
  {
    var ancestors := GraphAncestors(doc);
    NodeMapKeys(doc.nodes);
    for i := 0 to |doc.nodes|
      invariant forall k :: 0 <= k < i ==> NodeReferencesOk(doc.nodes[k], ScopeFor(doc, doc.nodes[k], declared))
    {
      var node := doc.nodes[i];
      SameAncestors(NodeMap(doc.nodes), ancestors, node.id);
      var scope := Scope(doc.variables, ancestors[node.id], node.wait.Some?, node.forEach.Some?, DeclaredFor(declared, node.id));
      ok := CheckNodeReferences(node, scope);
      if !ok {
        return;
      }
    }
    ok := true;
  }

  lemma SameAncestors(g: Plan, ancestors: map<Id, set<Id>>, id: Id)
    requires id in ancestors && forall a, b :: a in ancestors ==> (b in ancestors[a] <==> Ancestor(g, a, b))
    ensures ancestors[id] == AncestorsOf(g, id)
  {
    forall x | Ancestor(g, id, x) ensures x in g { AncestorInPlan(g, id, x); }
  }

  // ---------------------------------------------------------------- Validate

  /** The plans that may run. */
  ghost predicate Admissible(doc: Document, catalog: Catalog) {
    Accepted(doc) && ReferencesOk(doc, catalog.declared) && catalog.ok
  }

  /** `Validate` */
  method Validate(doc: Document, catalog: Catalog) returns (ok: bool)
    ensures ok <==> Admissible(doc, catalog)
  {
    if !PolicyChecks(doc) {
      return false;
    }
    var graph := ValidateGraph(doc);
    if graph.Err? {
      return false;
    }
    ok := CheckNodes(doc);
    if ok {
      ok := CheckReferences(doc, catalog.declared);
    }
    ok := ok && catalog.ok;
  }

  // ---------------------------------------------------------------- arguments while a level runs

  /** The evaluation context of a run: fixed roots and the outputs so far. */
  function ContextOf(doc: Document, outputs: map<Id, Value>, item: map<string, Value>, context: map<string, Value>): EvalContext {
    EvalContext(doc.variables, outputs, item, map[], context)
  }

  /**
   While the nodes of a level run, in whatever order, nothing that one of them writes changes
   what another interpolates or fans out over.
   */
  lemma SiblingsKeepArguments(lib: Library, doc: Document, catalog: Catalog, levels: seq<seq<Node>>, k: nat, node: Node, sibling: Node,
                              s0: Snapshot, s1: Snapshot, item: map<string, Value>, context: map<string, Value>)
    requires Admissible(doc, catalog) && Levelling(NodeMap(doc.nodes), levels) && k < |levels|
    requires node in levels[k] && sibling in levels[k] && NodeFrame(sibling, s0, s1)
    ensures var a, b := ContextOf(doc, s0.outputs, item, context), ContextOf(doc, s1.outputs, item, context);
      && Throughout(node, template => Interpolate(lib, template, a) == Interpolate(lib, template, b))
      && (node.forEach.Some? ==> ResolveSource(lib, node.forEach.value.source, a) == ResolveSource(lib, node.forEach.value.source, b))
  {
    var g, scope := NodeMap(doc.nodes), ScopeFor(doc, node, catalog.declared);
    var a, b := ContextOf(doc, s0.outputs, item, context), ContextOf(doc, s1.outputs, item, context);
    PlacedNode(doc, levels, k, node);
    PlacedNode(doc, levels, k, sibling);
    OutputsAgree(g, levels, k, sibling, s0.outputs, s1.outputs);
    assert Agree(a, b, Before(levels, k));
    forall x | Ancestor(g, node.id, x) ensures x in g { AncestorInPlan(g, node.id, x); }
    forall template | Accepts(template, scope) ensures Interpolate(lib, template, a) == Interpolate(lib, template, b) {
      ArgumentsIgnoreSiblings(lib, doc, levels, k, node, scope, template, a, b);
    }
    if node.forEach.Some? {
      ArgumentsIgnoreSiblings(lib, doc, levels, k, node, scope, Null, a, b);
    }
  }

  /** A node of a level is a node of the plan, and its references were accepted. */
  lemma PlacedNode(doc: Document, levels: seq<seq<Node>>, k: nat, node: Node)
    requires WellFormed(doc.nodes) && Levelling(NodeMap(doc.nodes), levels) && k < |levels| && node in levels[k]
    ensures node.id in IdsOf(levels[k]) && node in doc.nodes
  {
    assert LevelOkAt(NodeMap(doc.nodes), levels, k);
    var i :| 0 <= i < |levels[k]| && levels[k][i] == node;
    var j := NodeMapEntry(doc.nodes, node.id);
  }

  lemma OutputsAgree(g: Plan, levels: seq<seq<Node>>, k: nat, sibling: Node, o0: map<Id, Value>, o1: map<Id, Value>)
    requires Levelling(g, levels) && k < |levels| && sibling.id in IdsOf(levels[k]) && OutputsElsewhere(o0, o1, sibling.id)
    ensures forall x :: x in Before(levels, k) ==> (x in o0 <==> x in o1) && (x in o0 ==> o0[x] == o1[x])
  {
    assert LevelOkAt(g, levels, k);
    forall x | x in Before(levels, k) ensures (x in o0 <==> x in o1) && (x in o0 ==> o0[x] == o1[x]) {
      assert x != sibling.id;
      assert x in o0 <==> x in o0 - {sibling.id};
      assert x in o1 <==> x in o1 - {sibling.id};
    }
  }
}
