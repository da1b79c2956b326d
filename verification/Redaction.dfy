/**
 Redaction of durable evidence: values at write-only positions of a schema and declared
 secret inputs are replaced, so that a plan's identity does not depend on them.
 */
module Redaction {
  import opened Wrappers
  import opened Json
  import opened Text

  type Fields = map<string, Value>

  /** A JSON schema as decoded; `None` where the source has a nil map. */
  type Schema = Option<Fields>

  const PLACEHOLDER := Str("[redacted]")
  const WITHHELD := Obj(map["redacted" := Bool(true)])

  function SchemaAt(schema: Schema, key: string): Schema {
    if schema.Some? && key in schema.value && schema.value[key].Obj? then Some(schema.value[key].fields) else None
  }

  predicate WriteOnly(schema: Schema) {
    schema.Some? && "writeOnly" in schema.value && schema.value["writeOnly"] == Bool(true)
  }

  /** The schema of a property, or the one for additional properties. */
  function ChildSchema(schema: Schema, key: string): Schema {
    var declared := SchemaAt(SchemaAt(schema, "properties"), key);
    if declared.Some? then declared else SchemaAt(schema, "additionalProperties")
  }

  /** `redactEvidenceBySchema` */
  function Redact(value: Value, schema: Schema): Value
    decreases value
  {
    if WriteOnly(schema) then PLACEHOLDER
    else
      match value
      case Obj(m) => Obj(map k | k in m :: Redact(m[k], ChildSchema(schema, k)))
      case Arr(items) => Arr(seq(|items|, i requires 0 <= i < |items| => Redact(items[i], SchemaAt(schema, "items"))))
      case _ => value
  }

  /** Equal except for what lies at write-only positions. */
  predicate Alike(a: Value, b: Value, schema: Schema)
    decreases a
  {
    || WriteOnly(schema)
    || match a
       case Obj(m) => b.Obj? && b.fields.Keys == m.Keys && forall k :: k in m ==> Alike(m[k], b.fields[k], ChildSchema(schema, k))
       case Arr(items) =>
         b.Arr? && |b.items| == |items| && forall i :: 0 <= i < |items| ==> Alike(items[i], b.items[i], SchemaAt(schema, "items"))
       case _ => a == b
  }

  lemma RedactFields(m: Fields, schema: Schema)
    requires !WriteOnly(schema)
    ensures Redact(Obj(m), schema).Obj? && Redact(Obj(m), schema).fields.Keys == m.Keys
    ensures forall k :: k in m ==> Redact(Obj(m), schema).fields[k] == Redact(m[k], ChildSchema(schema, k))
  {
  }

  lemma RedactItems(items: seq<Value>, schema: Schema)
    requires !WriteOnly(schema)
    ensures Redact(Arr(items), schema).Arr? && |Redact(Arr(items), schema).items| == |items|
    ensures forall i :: 0 <= i < |items| ==> Redact(Arr(items), schema).items[i] == Redact(items[i], SchemaAt(schema, "items"))
  {
  }

  /** Redacted values agree exactly when the originals agree outside write-only positions. */
  lemma {:induction false} RedactExactly(a: Value, b: Value, schema: Schema)
    ensures Redact(a, schema) == Redact(b, schema) <==> Alike(a, b, schema)
    decreases a
  {
    if !WriteOnly(schema) {
      match a
      case Obj(m) =>
        if b.Obj? {
          RedactFields(m, schema);
          RedactFields(b.fields, schema);
          forall k | k in m && k in b.fields
            ensures Redact(m[k], ChildSchema(schema, k)) == Redact(b.fields[k], ChildSchema(schema, k)) <==> Alike(m[k], b.fields[k], ChildSchema(schema, k))
          {
            RedactExactly(m[k], b.fields[k], ChildSchema(schema, k));
          }
          FieldsEqual(Redact(a, schema).fields, Redact(b, schema).fields);
        }
      case Arr(items) =>
        if b.Arr? {
          RedactItems(items, schema);
          RedactItems(b.items, schema);
          forall i | 0 <= i < |items| && i < |b.items|
            ensures Redact(items[i], SchemaAt(schema, "items")) == Redact(b.items[i], SchemaAt(schema, "items")) <==> Alike(items[i], b.items[i], SchemaAt(schema, "items"))
          {
            RedactExactly(items[i], b.items[i], SchemaAt(schema, "items"));
          }
          ItemsEqual(Redact(a, schema).items, Redact(b, schema).items);
        }
      case _ =>
    }
  }

  lemma FieldsEqual(a: Fields, b: Fields)
    ensures a == b <==> a.Keys == b.Keys && forall k :: k in a ==> k in b && a[k] == b[k]
  {
    if a.Keys == b.Keys && forall k :: k in a ==> k in b && a[k] == b[k] {
      assert a == b;
    }
  }

  lemma ItemsEqual(a: seq<Value>, b: seq<Value>)
    ensures a == b <==> |a| == |b| && forall i :: 0 <= i < |a| ==> a[i] == b[i]
  {
  }

  // ---------------------------------------------------------------- what a schema says of a position

  /** The schema describes the property by an object of its own. */
  predicate DeclaresProperty(s: Fields, key: string) {
    "properties" in s && s["properties"].Obj? && key in s["properties"].fields && s["properties"].fields[key].Obj?
  }

  predicate HasObject(s: Fields, key: string) {
    key in s && s[key].Obj?
  }

  predicate Marked(s: Fields) {
    "writeOnly" in s && s["writeOnly"] == Bool(true)
  }

  /**
   Which part of a schema decides about a field: its own property if that is declared, whatever
   is said of additional ones; otherwise what is said of those; otherwise nothing.
   */
  lemma FieldDecided(s: Fields, m: Fields, key: string)
    requires !Marked(s) && key in m
    ensures Redact(Obj(m), Some(s)).Obj? && key in Redact(Obj(m), Some(s)).fields
    ensures var field := Redact(Obj(m), Some(s)).fields[key];
      if DeclaresProperty(s, key) then
        var declared := s["properties"].fields[key].fields;
        field == if Marked(declared) then Str("[redacted]") else Redact(m[key], Some(declared))
      else if HasObject(s, "additionalProperties") then
        var additional := s["additionalProperties"].fields;
        field == if Marked(additional) then Str("[redacted]") else Redact(m[key], Some(additional))
      else field == m[key]
  {
    RedactFields(m, Some(s));
    NothingSaid(m[key]);
  }

  /** What is said of the items decides about every element. */
  lemma ElementDecided(s: Fields, items: seq<Value>, i: nat)
    requires !Marked(s) && i < |items|
    ensures Redact(Arr(items), Some(s)).Arr? && |Redact(Arr(items), Some(s)).items| == |items|
    ensures var element := Redact(Arr(items), Some(s)).items[i];
      if HasObject(s, "items") then
        element == if Marked(s["items"].fields) then Str("[redacted]") else Redact(items[i], Some(s["items"].fields))
      else element == items[i]
  {
    RedactItems(items, Some(s));
    NothingSaid(items[i]);
  }

  /** Without a schema nothing is redacted. */
  lemma {:induction false} NothingSaid(value: Value)
    ensures Redact(value, None) == value
    decreases value
  {
    match value
    case Obj(m) =>
      RedactFields(m, None);
      forall k | k in m ensures Redact(m[k], None) == m[k] { NothingSaid(m[k]); }
      FieldsEqual(Redact(value, None).fields, m);
    case Arr(items) =>
      RedactItems(items, None);
      forall i | 0 <= i < |items| ensures Redact(items[i], None) == items[i] { NothingSaid(items[i]); }
      ItemsEqual(Redact(value, None).items, items);
    case _ =>
  }

  datatype Step = Field(key: string) | Element(index: nat)

  /** The value at a position. */
  function ValueAt(value: Value, path: seq<Step>): Option<Value> {
    if path == [] then Some(value)
    else
      match path[0]
      case Field(key) => if value.Obj? && key in value.fields then ValueAt(value.fields[key], path[1..]) else None
      case Element(i) => if value.Arr? && i < |value.items| then ValueAt(value.items[i], path[1..]) else None
  }

  /** The part of a schema that decides about a position. */
  function SchemaBelow(schema: Schema, path: seq<Step>): Schema
    decreases |path|
  {
    if path == [] then schema else SchemaBelow(SchemaOf(schema, path[0]), path[1..])
  }

  function SchemaOf(schema: Schema, step: Step): Schema {
    match step
    case Field(key) => ChildSchema(schema, key)
    case Element(_) => SchemaAt(schema, "items")
  }

  /** At every position that no write-only part of the schema lies above, exactly the part that decides there is applied. */
  lemma {:induction false} RedactedAt(value: Value, schema: Schema, path: seq<Step>)
    requires ValueAt(value, path).Some? && forall n :: 0 <= n < |path| ==> !WriteOnly(SchemaBelow(schema, path[..n]))
    ensures ValueAt(Redact(value, schema), path) == Some(Redact(ValueAt(value, path).value, SchemaBelow(schema, path)))
    decreases |path|
  {
    if path != [] {
      assert path[..0] == [] && !WriteOnly(SchemaBelow(schema, path[..0]));
      var below := SchemaOf(schema, path[0]);
      forall n | 0 <= n < |path[1..]| ensures !WriteOnly(SchemaBelow(below, path[1..][..n])) {
        assert path[..n + 1][1..] == path[1..][..n] && path[..n + 1][0] == path[0];
        assert SchemaBelow(schema, path[..n + 1]) == SchemaBelow(below, path[1..][..n]);
      }
      match path[0]
      case Field(key) =>
        RedactFields(value.fields, schema);
        RedactedAt(value.fields[key], below, path[1..]);
      case Element(i) =>
        RedactItems(value.items, schema);
        RedactedAt(value.items[i], below, path[1..]);
    }
  }

  /** Redacting twice is redacting once. */
  lemma {:induction false} RedactTwice(value: Value, schema: Schema)
    ensures Redact(Redact(value, schema), schema) == Redact(value, schema)
    decreases value
  {
    if !WriteOnly(schema) {
      match value
      case Obj(m) =>
        RedactFields(m, schema);
        var once := Redact(value, schema).fields;
        RedactFields(once, schema);
        forall k | k in m ensures Redact(once[k], ChildSchema(schema, k)) == once[k] { RedactTwice(m[k], ChildSchema(schema, k)); }
        FieldsEqual(Redact(Obj(once), schema).fields, once);
      case Arr(items) =>
        RedactItems(items, schema);
        var once := Redact(value, schema).items;
        RedactItems(once, schema);
        forall i | 0 <= i < |items| ensures Redact(once[i], SchemaAt(schema, "items")) == once[i] { RedactTwice(items[i], SchemaAt(schema, "items")); }
        ItemsEqual(Redact(Arr(once), schema).items, once);
      case _ =>
    }
  }

  // ---------------------------------------------------------------- plans

  type Capabilities = map<string, Schema>

  /** `redactPlanAction` */
  function RedactAction(action: Fields, capabilities: Capabilities): Fields {
    if "tool" in action && action["tool"].Str? && !Blank(action["tool"].text) && "args" in action && action["args"].Obj? then
      var tool := action["tool"].text;
      action["args" := if tool in capabilities then Redact(action["args"], capabilities[tool]) else WITHHELD]
    else action
  }

  const BLOCKS := ["action", "validate", "compensate", "recover"]

  /** The first blocks of a node, redacted. */
  function RedactNode(node: Fields, capabilities: Capabilities, n: nat): Fields
    requires n <= |BLOCKS|
  {
    if n == 0 then node
    else
      var rest := RedactNode(node, capabilities, n - 1);
      var key := BLOCKS[n - 1];
      if key in rest && rest[key].Obj? then rest[key := Obj(RedactAction(rest[key].fields, capabilities))] else rest
  }

  function RedactNodeValue(node: Value, capabilities: Capabilities): Value {
    if node.Obj? then Obj(RedactNode(node.fields, capabilities, |BLOCKS|)) else node
  }

  function RedactNodes(nodes: seq<Value>, capabilities: Capabilities): seq<Value> {
    seq(|nodes|, i requires 0 <= i < |nodes| => RedactNodeValue(nodes[i], capabilities))
  }

  function RedactInputs(inputs: Fields, secrets: set<string>): Fields {
    map k | k in inputs :: if k in secrets then PLACEHOLDER else inputs[k]
  }

  function RedactVariables(variables: Fields, secrets: set<string>): Fields {
    if "inputs" in variables && variables["inputs"].Obj?
    then variables["inputs" := Obj(RedactInputs(variables["inputs"].fields, secrets))]
    else variables
  }

  /** `redactPlanEvidence` */
  function RedactPlan(value: Value, secrets: set<string>, capabilities: Capabilities): Value {
    if !value.Obj? then WITHHELD
    else
      var root := value.fields;
      var root1 := if "variables" in root && root["variables"].Obj?
        then root["variables" := Obj(RedactVariables(root["variables"].fields, secrets))] else root;
      var root2 := if "nodes" in root1 && root1["nodes"].Arr?
        then root1["nodes" := Arr(RedactNodes(root1["nodes"].items, capabilities))] else root1;
      Obj(root2)
  }

  // ---------------------------------------------------------------- plans that differ in secrets only

  /**
   Arguments that differ at most at write-only positions, or that are withheld altogether. Where
   the whole schema is write-only, the placeholder itself passes for any arguments.
   */
  ghost predicate AlikeArguments(a: Value, b: Value, tool: string, capabilities: Capabilities) {
    if a.Obj? && b.Obj? then tool in capabilities ==> Alike(a, b, capabilities[tool])
    else
      && (a.Obj? || b.Obj?) && (a.Obj? || a == PLACEHOLDER) && (b.Obj? || b == PLACEHOLDER)
      && tool in capabilities && WriteOnly(capabilities[tool])
  }

  ghost predicate AlikeActions(a: Fields, b: Fields, capabilities: Capabilities) {
    || a == b
    || (&& a.Keys == b.Keys && (forall k :: k in a && k != "args" ==> a[k] == b[k])
        && "tool" in a && a["tool"].Str? && !Blank(a["tool"].text) && "args" in a
        && AlikeArguments(a["args"], b["args"], a["tool"].text, capabilities))
  }

  lemma ActionsExactly(a: Fields, b: Fields, capabilities: Capabilities)
    ensures RedactAction(a, capabilities) == RedactAction(b, capabilities) <==> AlikeActions(a, b, capabilities)
  {
    var x, y := RedactAction(a, capabilities), RedactAction(b, capabilities);
    FieldsEqual(x, y);
    FieldsEqual(a, b);
    assert x.Keys == a.Keys && y.Keys == b.Keys;
    assert forall k :: k in a && k != "args" ==> x[k] == a[k];
    assert forall k :: k in b && k != "args" ==> y[k] == b[k];
    if "tool" in a && a["tool"].Str? && "args" in a && "args" in b && a["tool"].text in capabilities {
      RedactExactly(a["args"], b["args"], capabilities[a["tool"].text]);
    }
  }

  function ActionOf(tool: string, args: Value): Fields {
    map["tool" := Str(tool), "args" := args]
  }

  /** As arguments of a tool that takes only secrets, the placeholder passes for any object, and no other text does. */
  lemma PlaceholderCollides(tool: string, args: Fields, text: string, capabilities: Capabilities)
    requires !Blank(tool) && tool in capabilities && WriteOnly(capabilities[tool])
    ensures RedactAction(ActionOf(tool, Obj(args)), capabilities) == RedactAction(ActionOf(tool, Str(text)), capabilities)
      <==> Str(text) == PLACEHOLDER
  {
    var a, b := ActionOf(tool, Obj(args)), ActionOf(tool, Str(text));
    assert a["args"] != b["args"];
    ActionsExactly(a, b, capabilities);
  }

  ghost predicate AlikeBlocks(a: Value, b: Value, capabilities: Capabilities) {
    a == b || (a.Obj? && b.Obj? && AlikeActions(a.fields, b.fields, capabilities))
  }

  ghost predicate AlikeNodes(a: Value, b: Value, capabilities: Capabilities) {
    || a == b
    || (&& a.Obj? && b.Obj? && a.fields.Keys == b.fields.Keys
        && forall k :: k in a.fields ==>
          if k in BLOCKS then AlikeBlocks(a.fields[k], b.fields[k], capabilities) else a.fields[k] == b.fields[k])
  }

  /** What the node redaction does to one key. */
  lemma {:induction false} NodeKey(node: Fields, capabilities: Capabilities, n: nat, k: string)
    requires n <= |BLOCKS| && k in node
    ensures RedactNode(node, capabilities, n).Keys == node.Keys
    ensures RedactNode(node, capabilities, n)[k] ==
      (if k in BLOCKS[..n] && node[k].Obj? then Obj(RedactAction(node[k].fields, capabilities)) else node[k])
  {
    if n > 0 {
      NodeKey(node, capabilities, n - 1, k);
      BlocksNext(n - 1);
      BlocksDiffer(n - 1);
    }
  }

  lemma NodeKeys(node: Fields, capabilities: Capabilities)
    ensures RedactNode(node, capabilities, |BLOCKS|).Keys == node.Keys
    ensures forall k :: k in node ==>
      RedactNode(node, capabilities, |BLOCKS|)[k] == (if k in BLOCKS && node[k].Obj? then Obj(RedactAction(node[k].fields, capabilities)) else node[k])
  {
    SameKeys(node, capabilities, |BLOCKS|);
    assert BLOCKS[..|BLOCKS|] == BLOCKS;
    forall k | k in node
      ensures RedactNode(node, capabilities, |BLOCKS|)[k] == (if k in BLOCKS && node[k].Obj? then Obj(RedactAction(node[k].fields, capabilities)) else node[k])
    {
      NodeKey(node, capabilities, |BLOCKS|, k);
    }
  }

  lemma {:induction false} SameKeys(node: Fields, capabilities: Capabilities, n: nat)
    requires n <= |BLOCKS|
    ensures RedactNode(node, capabilities, n).Keys == node.Keys
  {
    if n > 0 { SameKeys(node, capabilities, n - 1); }
  }

  lemma BlocksNext(n: nat)
    requires n < |BLOCKS|
    ensures forall k :: k in BLOCKS[..n + 1] <==> k in BLOCKS[..n] || k == BLOCKS[n]
  {
    assert BLOCKS[..n + 1] == BLOCKS[..n] + [BLOCKS[n]];
  }

  lemma BlocksDiffer(n: nat)
    requires n < |BLOCKS|
    ensures BLOCKS[n] !in BLOCKS[..n]
  {
    forall i | 0 <= i < n ensures BLOCKS[i] != BLOCKS[n] {
      assert BLOCKS[0] == "action" && BLOCKS[1] == "validate" && BLOCKS[2] == "compensate" && BLOCKS[3] == "recover";
      assert "action"[0] != "validate"[0] && "action"[0] != "compensate"[0] && "action"[0] != "recover"[0];
      assert "validate"[0] != "compensate"[0] && "validate"[0] != "recover"[0] && "compensate"[0] != "recover"[0];
    }
  }

  lemma NodesExactly(a: Value, b: Value, capabilities: Capabilities)
    ensures RedactNodeValue(a, capabilities) == RedactNodeValue(b, capabilities) <==> AlikeNodes(a, b, capabilities)
  {
    if a.Obj? && b.Obj? {
      var x, y := RedactNode(a.fields, capabilities, |BLOCKS|), RedactNode(b.fields, capabilities, |BLOCKS|);
      NodeKeys(a.fields, capabilities);
      NodeKeys(b.fields, capabilities);
      forall k | k in x && k in y && k in BLOCKS ensures x[k] == y[k] <==> AlikeBlocks(a.fields[k], b.fields[k], capabilities) {
        if a.fields[k].Obj? && b.fields[k].Obj? { ActionsExactly(a.fields[k].fields, b.fields[k].fields, capabilities); }
      }
      FieldsEqual(x, y);
    }
  }

  ghost predicate AlikeInputs(a: Fields, b: Fields, secrets: set<string>) {
    a.Keys == b.Keys && forall k :: k in a && k !in secrets ==> a[k] == b[k]
  }

  /** Redacted inputs agree exactly when the inputs agree outside the declared secrets. */
  lemma InputsExactly(a: Fields, b: Fields, secrets: set<string>)
    ensures RedactInputs(a, secrets) == RedactInputs(b, secrets) <==> AlikeInputs(a, b, secrets)
  {
    var x, y := RedactInputs(a, secrets), RedactInputs(b, secrets);
    FieldsEqual(x, y);
    assert x.Keys == a.Keys && y.Keys == b.Keys;
    assert forall k :: k in a && k !in secrets ==> x[k] == a[k];
    assert forall k :: k in b && k !in secrets ==> y[k] == b[k];
  }

  ghost predicate AlikeVariables(a: Value, b: Value, secrets: set<string>) {
    || a == b
    || (&& a.Obj? && b.Obj? && a.fields.Keys == b.fields.Keys && (forall k :: k in a.fields && k != "inputs" ==> a.fields[k] == b.fields[k])
        && "inputs" in a.fields && a.fields["inputs"].Obj? && b.fields["inputs"].Obj?
        && AlikeInputs(a.fields["inputs"].fields, b.fields["inputs"].fields, secrets))
  }

  lemma VariablesExactly(a: Fields, b: Fields, secrets: set<string>)
    ensures RedactVariables(a, secrets) == RedactVariables(b, secrets) <==> AlikeVariables(Obj(a), Obj(b), secrets)
  {
    var x, y := RedactVariables(a, secrets), RedactVariables(b, secrets);
    FieldsEqual(x, y);
    FieldsEqual(a, b);
    assert x.Keys == a.Keys && y.Keys == b.Keys;
    assert forall k :: k in a && k != "inputs" ==> x[k] == a[k];
    assert forall k :: k in b && k != "inputs" ==> y[k] == b[k];
    if "inputs" in a && "inputs" in b && a["inputs"].Obj? && b["inputs"].Obj? {
      InputsExactly(a["inputs"].fields, b["inputs"].fields, secrets);
    }
  }

  ghost predicate AlikeNodeLists(a: Value, b: Value, capabilities: Capabilities) {
    a == b || (a.Arr? && b.Arr? && |a.items| == |b.items| && forall i :: 0 <= i < |a.items| ==> AlikeNodes(a.items[i], b.items[i], capabilities))
  }

  lemma NodeListsExactly(a: seq<Value>, b: seq<Value>, capabilities: Capabilities)
    ensures RedactNodes(a, capabilities) == RedactNodes(b, capabilities) <==> AlikeNodeLists(Arr(a), Arr(b), capabilities)
  {
    var x, y := RedactNodes(a, capabilities), RedactNodes(b, capabilities);
    ItemsEqual(x, y);
    forall i | 0 <= i < |a| && i < |b| ensures x[i] == y[i] <==> AlikeNodes(Arr(a).items[i], Arr(b).items[i], capabilities) {
      NodesExactly(a[i], b[i], capabilities);
    }
  }

  /** Two plans that differ only in secret inputs and at write-only positions of arguments. */
  ghost predicate AlikePlans(a: Value, b: Value, secrets: set<string>, capabilities: Capabilities) {
    && a.Obj? && b.Obj? && a.fields.Keys == b.fields.Keys
    && forall k :: k in a.fields ==> AlikeKeys(k, a.fields[k], b.fields[k], secrets, capabilities)
  }

  ghost predicate AlikeKeys(k: string, a: Value, b: Value, secrets: set<string>, capabilities: Capabilities) {
    if k == "variables" then AlikeVariables(a, b, secrets)
    else if k == "nodes" then AlikeNodeLists(a, b, capabilities)
    else a == b
  }

  lemma PlanKeys(value: Value, secrets: set<string>, capabilities: Capabilities)
    requires value.Obj?
    ensures RedactPlan(value, secrets, capabilities).Obj? && RedactPlan(value, secrets, capabilities).fields.Keys == value.fields.Keys
    ensures forall k :: k in value.fields ==> RedactPlan(value, secrets, capabilities).fields[k] == RedactKey(k, value.fields[k], secrets, capabilities)
  {
  }

  function RedactKey(key: string, value: Value, secrets: set<string>, capabilities: Capabilities): Value {
    if key == "variables" && value.Obj? then Obj(RedactVariables(value.fields, secrets))
    else if key == "nodes" && value.Arr? then Arr(RedactNodes(value.items, capabilities))
    else value
  }

  /** Documents that are not objects are withheld as a whole, and so look like the withheld document. */
  predicate Unreadable(value: Value) {
    !value.Obj? || value == WITHHELD
  }

  /** Redacted plans agree exactly when the plans differ in secrets only, or both are unreadable. */
  lemma PlansExactly(a: Value, b: Value, secrets: set<string>, capabilities: Capabilities)
    ensures RedactPlan(a, secrets, capabilities) == RedactPlan(b, secrets, capabilities) <==>
      AlikePlans(a, b, secrets, capabilities) || (Unreadable(a) && Unreadable(b))
  {
    if a.Obj? && b.Obj? {
      PlanKeys(a, secrets, capabilities);
      PlanKeys(b, secrets, capabilities);
      var x, y := RedactPlan(a, secrets, capabilities).fields, RedactPlan(b, secrets, capabilities).fields;
      forall k | k in x && k in y ensures x[k] == y[k] <==> AlikeKeys(k, a.fields[k], b.fields[k], secrets, capabilities) {
        KeysExactly(k, a.fields[k], b.fields[k], secrets, capabilities);
      }
      FieldsEqual(x, y);
    } else if a.Obj? {
      WithheldExactly(a, secrets, capabilities);
    } else if b.Obj? {
      WithheldExactly(b, secrets, capabilities);
    }
  }

  lemma WithheldExactly(value: Value, secrets: set<string>, capabilities: Capabilities)
    requires value.Obj?
    ensures RedactPlan(value, secrets, capabilities) == WITHHELD <==> value == WITHHELD
  {
    PlanKeys(value, secrets, capabilities);
    FieldsEqual(value.fields, WITHHELD.fields);
    FieldsEqual(RedactPlan(value, secrets, capabilities).fields, WITHHELD.fields);
  }

  lemma KeysExactly(k: string, a: Value, b: Value, secrets: set<string>, capabilities: Capabilities)
    ensures RedactKey(k, a, secrets, capabilities) == RedactKey(k, b, secrets, capabilities) <==> AlikeKeys(k, a, b, secrets, capabilities)
  {
    if k == "variables" && a.Obj? && b.Obj? { VariablesExactly(a.fields, b.fields, secrets); }
    if k == "nodes" && a.Arr? && b.Arr? { NodeListsExactly(a.items, b.items, capabilities); }
  }

  // ---------------------------------------------------------------- redacting a plan twice

  lemma ActionTwice(action: Fields, capabilities: Capabilities)
    ensures RedactAction(RedactAction(action, capabilities), capabilities) == RedactAction(action, capabilities)
  {
    if "tool" in action && action["tool"].Str? && !Blank(action["tool"].text) && "args" in action && action["args"].Obj? {
      var tool, once := action["tool"].text, RedactAction(action, capabilities);
      assert once["tool"] == action["tool"];
      if tool in capabilities { RedactTwice(action["args"], capabilities[tool]); }
      FieldsEqual(RedactAction(once, capabilities), once);
    }
  }

  lemma NodeTwice(node: Value, capabilities: Capabilities)
    ensures RedactNodeValue(RedactNodeValue(node, capabilities), capabilities) == RedactNodeValue(node, capabilities)
  {
    if node.Obj? {
      var once := RedactNode(node.fields, capabilities, |BLOCKS|);
      NodeKeys(node.fields, capabilities);
      NodeKeys(once, capabilities);
      forall k | k in once ensures RedactNode(once, capabilities, |BLOCKS|)[k] == once[k] {
        if node.fields[k].Obj? { ActionTwice(node.fields[k].fields, capabilities); }
      }
      FieldsEqual(RedactNode(once, capabilities, |BLOCKS|), once);
    }
  }

  lemma NodesTwice(nodes: seq<Value>, capabilities: Capabilities)
    ensures RedactNodes(RedactNodes(nodes, capabilities), capabilities) == RedactNodes(nodes, capabilities)
  {
    var once := RedactNodes(nodes, capabilities);
    forall i | 0 <= i < |nodes| ensures RedactNodes(once, capabilities)[i] == once[i] { NodeTwice(nodes[i], capabilities); }
  }

  lemma VariablesTwice(variables: Fields, secrets: set<string>)
    ensures RedactVariables(RedactVariables(variables, secrets), secrets) == RedactVariables(variables, secrets)
  {
    if "inputs" in variables && variables["inputs"].Obj? {
      var inputs := variables["inputs"].fields;
      FieldsEqual(RedactInputs(RedactInputs(inputs, secrets), secrets), RedactInputs(inputs, secrets));
    }
  }

  /** A redacted plan is its own redaction. */
  lemma PlanTwice(value: Value, secrets: set<string>, capabilities: Capabilities)
    ensures RedactPlan(RedactPlan(value, secrets, capabilities), secrets, capabilities) == RedactPlan(value, secrets, capabilities)
  {
    var once := RedactPlan(value, secrets, capabilities);
    PlanKeys(once, secrets, capabilities);
    if value.Obj? { PlanKeys(value, secrets, capabilities); }
    forall k | k in once.fields ensures RedactKey(k, once.fields[k], secrets, capabilities) == once.fields[k] {
      if value.Obj? {
        KeyTwice(k, value.fields[k], secrets, capabilities);
      } else {
        assert k == "redacted";
      }
    }
    FieldsEqual(RedactPlan(once, secrets, capabilities).fields, once.fields);
  }

  lemma KeyTwice(k: string, value: Value, secrets: set<string>, capabilities: Capabilities)
    ensures RedactKey(k, RedactKey(k, value, secrets, capabilities), secrets, capabilities) == RedactKey(k, value, secrets, capabilities)
  {
    if k == "variables" && value.Obj? { VariablesTwice(value.fields, secrets); }
    if k == "nodes" && value.Arr? { NodesTwice(value.items, capabilities); }
  }

  // ---------------------------------------------------------------- the loops of the source

  /** `redactEvidenceBySchema` with its loops over objects and arrays. */
  method RedactEvidence(value: Value, schema: Schema) returns (r: Value)
    ensures r == Redact(value, schema)
    decreases value
  {
    if WriteOnly(schema) {
      return PLACEHOLDER;
    }
    match value {
      case Obj(m) =>
        var out: Fields, rest := map[], m.Keys;
        while rest != {}
          invariant rest <= m.Keys && out.Keys == m.Keys - rest
          invariant forall k :: k in out ==> out[k] == Redact(m[k], ChildSchema(schema, k))
          decreases rest
        {
          var key :| key in rest;
          var child := RedactEvidence(m[key], ChildSchema(schema, key));
          out := out[key := child];
          rest := rest - {key};
        }
        RedactFields(m, schema);
        FieldsEqual(out, Redact(value, schema).fields);
        r := Obj(out);
      case Arr(items) =>
        var out: seq<Value> := [];
        for i := 0 to |items|
          invariant |out| == i && forall k :: 0 <= k < i ==> out[k] == Redact(items[k], SchemaAt(schema, "items"))
        {
          var child := RedactEvidence(items[i], SchemaAt(schema, "items"));
          out := out + [child];
        }
        RedactItems(items, schema);
        ItemsEqual(out, Redact(value, schema).items);
        r := Arr(out);
      case _ =>
        r := value;
    }
  }

  /** The loop over the declared secret inputs. */
  method HideInputs(inputs: Fields, secrets: set<string>) returns (r: Fields)
    ensures r == RedactInputs(inputs, secrets)
  {
    r := inputs;
    var rest := secrets;
    while rest != {}
      invariant rest <= secrets && r.Keys == inputs.Keys
      invariant forall k :: k in r ==> r[k] == if k in secrets && k !in rest then PLACEHOLDER else inputs[k]
      decreases rest
    {
      var name :| name in rest;
      if name in r {
        r := r[name := PLACEHOLDER];
      }
      rest := rest - {name};
    }
  }

  /** The loop over the nodes and their blocks. */
  method HideNodes(nodes: seq<Value>, capabilities: Capabilities) returns (r: seq<Value>)
    ensures r == RedactNodes(nodes, capabilities)
  {
    r := [];
    for i := 0 to |nodes|
      invariant |r| == i && forall k :: 0 <= k < i ==> r[k] == RedactNodeValue(nodes[k], capabilities)
    {
      var node := nodes[i];
      if node.Obj? {
        var fields := HideBlocks(node.fields, capabilities);
        node := Obj(fields);
      }
      r := r + [node];
    }
  }

  method HideBlocks(node: Fields, capabilities: Capabilities) returns (r: Fields)
    ensures r == RedactNode(node, capabilities, |BLOCKS|)
  {
    r := node;
    for n := 0 to |BLOCKS|
      invariant r == RedactNode(node, capabilities, n)
    {
      if BLOCKS[n] in r && r[BLOCKS[n]].Obj? {
        r := r[BLOCKS[n] := Obj(RedactAction(r[BLOCKS[n]].fields, capabilities))];
      }
    }
  }

  /** `redactPlanEvidence`, which edits its copy step by step. */
  method RedactPlanEvidence(value: Value, secrets: set<string>, capabilities: Capabilities) returns (r: Value)
    ensures r == RedactPlan(value, secrets, capabilities)
  {
    if !value.Obj? {
      return WITHHELD;
    }
    var root := value.fields;
    if "variables" in root && root["variables"].Obj? {
      var variables := root["variables"].fields;
      if "inputs" in variables && variables["inputs"].Obj? {
        var inputs := HideInputs(variables["inputs"].fields, secrets);
        variables := variables["inputs" := Obj(inputs)];
      }
      root := root["variables" := Obj(variables)];
    }
    if "nodes" in root && root["nodes"].Arr? {
      var nodes := HideNodes(root["nodes"].items, capabilities);
      root := root["nodes" := Arr(nodes)];
    }
    r := Obj(root);
  }

  // ---------------------------------------------------------------- identity

  /** The JSON codec and the hash, which are not modelled. */
  datatype Codec<!Doc> = Codec(
    encode: Doc -> Option<string>,
    parse: string -> Option<Value>,
    render: Value -> Option<string>,
    decode: string -> Option<Doc>,
    hash: Doc -> Option<string>
  )

  /** `redactPlanDocument` */
  function RedactDocument<Doc>(codec: Codec<Doc>, encoded: string, secrets: set<string>, capabilities: Capabilities): string {
    var document := codec.parse(encoded);
    if document.None? then "{\"redacted\":true}"
    else
      var printed := codec.render(RedactPlan(document.value, secrets, capabilities));
      if printed.None? then "{\"redacted\":true}" else printed.value
  }

  /** `redactedPlanIdentity`: the hash of the redacted document and its text. */
  function Identity<Doc>(codec: Codec<Doc>, doc: Doc, secrets: set<string>, capabilities: Capabilities): Option<(string, string)> {
    var encoded := codec.encode(doc);
    if encoded.None? then None
    else
      var redacted := RedactDocument(codec, encoded.value, secrets, capabilities);
      var document := codec.decode(redacted);
      if document.None? then None
      else
        var hash := codec.hash(document.value);
        if hash.None? then None else Some((hash.value, redacted))
  }

  /** Documents that differ only in secrets have the same identity. */
  lemma IdentityIgnoresSecrets<Doc>(codec: Codec<Doc>, a: Doc, b: Doc, secrets: set<string>, capabilities: Capabilities)
    requires codec.encode(a).Some? && codec.encode(b).Some?
    requires codec.parse(codec.encode(a).value).Some? && codec.parse(codec.encode(b).value).Some?
    requires AlikePlans(codec.parse(codec.encode(a).value).value, codec.parse(codec.encode(b).value).value, secrets, capabilities)
    ensures Identity(codec, a, secrets, capabilities) == Identity(codec, b, secrets, capabilities)
  {
    PlansExactly(codec.parse(codec.encode(a).value).value, codec.parse(codec.encode(b).value).value, secrets, capabilities);
  }

  // ---------------------------------------------------------------- one secret argument

  /** The block of a node has arguments. */
  predicate HasArguments(plan: Value, i: nat, block: string) {
    && plan.Obj? && "nodes" in plan.fields && plan.fields["nodes"].Arr? && i < |plan.fields["nodes"].items|
    && HasBlock(plan.fields["nodes"].items[i], block)
  }

  predicate HasBlock(node: Value, block: string) {
    && node.Obj? && block in node.fields && node.fields[block].Obj?
    && "args" in node.fields[block].fields && node.fields[block].fields["args"].Obj?
  }

  /** The same node with one argument of a block changed. */
  function NodeWith(node: Value, block: string, key: string, v: Value): Value
    requires HasBlock(node, block)
  {
    var action := node.fields[block].fields;
    Obj(node.fields[block := Obj(action["args" := Obj(action["args"].fields[key := v])])])
  }

  function PlanWith(plan: Value, i: nat, block: string, key: string, v: Value): Value
    requires HasArguments(plan, i, block)
  {
    var nodes := plan.fields["nodes"].items;
    Obj(plan.fields["nodes" := Arr(nodes[i := NodeWith(nodes[i], block, key, v)])])
  }

  lemma {:induction false} AlikeSelf(value: Value, schema: Schema)
    ensures Alike(value, value, schema)
    decreases value
  {
    match value
    case Obj(m) => forall k | k in m ensures Alike(m[k], m[k], ChildSchema(schema, k)) { AlikeSelf(m[k], ChildSchema(schema, k)); }
    case Arr(items) =>
      forall i | 0 <= i < |items| ensures Alike(items[i], items[i], SchemaAt(schema, "items")) { AlikeSelf(items[i], SchemaAt(schema, "items")); }
    case _ =>
  }

  /** The tool of the block declares the argument as write-only. */
  ghost predicate SecretArgument(node: Value, block: string, key: string, capabilities: Capabilities)
    requires HasBlock(node, block)
  {
    var action := node.fields[block].fields;
    && "tool" in action && action["tool"].Str? && !Blank(action["tool"].text) && action["tool"].text in capabilities
    && capabilities[action["tool"].text].Some? && key in action["args"].fields
    && var s := capabilities[action["tool"].text].value;
       DeclaresProperty(s, key) && Marked(s["properties"].fields[key].fields)
  }

  lemma SecretAlike(args: Fields, key: string, v: Value, s: Fields)
    requires key in args && DeclaresProperty(s, key) && Marked(s["properties"].fields[key].fields)
    ensures Alike(Obj(args), Obj(args[key := v]), Some(s))
  {
    if !Marked(s) {
      forall k | k in args ensures Alike(args[k], args[key := v][k], ChildSchema(Some(s), k)) {
        if k != key { AlikeSelf(args[k], ChildSchema(Some(s), k)); }
      }
    }
  }

  /** An argument that the schema of the tool declares write-only does not show in the redacted plan. */
  lemma SecretArgumentHidden(plan: Value, i: nat, block: string, key: string, v: Value, secrets: set<string>, capabilities: Capabilities)
    requires block in {"action", "validate", "compensate", "recover"} && HasArguments(plan, i, block)
    requires SecretArgument(plan.fields["nodes"].items[i], block, key, capabilities)
    ensures RedactPlan(PlanWith(plan, i, block, key, v), secrets, capabilities) == RedactPlan(plan, secrets, capabilities)
  {
    var nodes := plan.fields["nodes"].items;
    var other := PlanWith(plan, i, block, key, v);
    NodeAlike(nodes[i], block, key, v, capabilities);
    assert AlikeNodeLists(plan.fields["nodes"], other.fields["nodes"], capabilities);
    forall k | k in plan.fields ensures AlikeKeys(k, plan.fields[k], other.fields[k], secrets, capabilities) { }
    PlansExactly(plan, other, secrets, capabilities);
  }

  lemma NodeAlike(node: Value, block: string, key: string, v: Value, capabilities: Capabilities)
    requires block in {"action", "validate", "compensate", "recover"} && HasBlock(node, block) && SecretArgument(node, block, key, capabilities)
    ensures AlikeNodes(node, NodeWith(node, block, key, v), capabilities)
  {
    var action := node.fields[block].fields;
    SecretAlike(action["args"].fields, key, v, capabilities[action["tool"].text].value);
    assert block in BLOCKS by { assert BLOCKS[0] == "action" && BLOCKS[1] == "validate" && BLOCKS[2] == "compensate" && BLOCKS[3] == "recover"; }
    assert AlikeActions(action, NodeWith(node, block, key, v).fields[block].fields, capabilities);
  }

  /** Documents that differ in such an argument only have the same identity. */
  lemma SecretArgumentIgnored<Doc>(codec: Codec<Doc>, a: Doc, b: Doc, plan: Value, i: nat, block: string, key: string, v: Value,
                                   secrets: set<string>, capabilities: Capabilities)
    requires block in {"action", "validate", "compensate", "recover"} && HasArguments(plan, i, block)
    requires SecretArgument(plan.fields["nodes"].items[i], block, key, capabilities)
    requires codec.encode(a).Some? && codec.parse(codec.encode(a).value) == Some(plan)
    requires codec.encode(b).Some? && codec.parse(codec.encode(b).value) == Some(PlanWith(plan, i, block, key, v))
    ensures Identity(codec, a, secrets, capabilities) == Identity(codec, b, secrets, capabilities)
  {
    SecretArgumentHidden(plan, i, block, key, v, secrets, capabilities);
  }
}
